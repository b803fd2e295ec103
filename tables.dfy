/**
 * A keyed table as a relational store holds it: rows in insertion order, each
 * with a primary key. Every store in the system (the local SQLite cache, the
 * pending-operations queue, the PostgreSQL and Supabase tables) is one of
 * these. The operations are the single-statement effects the handlers use:
 * look up by key, `DELETE ... WHERE key = k`, `UPDATE ... WHERE key = k`,
 * `INSERT OR REPLACE`, and `UPDATE ... SET key = new WHERE key = old`.
 */
module Tables {
  import opened Wrappers

  datatype Entry<K, R> = Entry(key: K, row: R)

  type Table<K, R> = seq<Entry<K, R>>

  /** The row stored under `k` (the first one, were keys not unique). */
  function Lookup<K(==,!new), R(!new)>(t: Table<K, R>, k: K): (r: Option<R>)
  {
    if t == [] then None
    else if t[0].key == k then Some(t[0].row)
    else Lookup(t[1..], k)
  }

  /** A key no entry carries is not found. */
  lemma NoEntryNoKey<K(!new), R(!new)>(t: Table<K, R>, k: K)
    requires forall e :: e in t ==> e.key != k
    ensures !HasKey(t, k)
  {
    if HasKey(t, k) {
      LookupFound(t, k);
    }
  }

  /** What lookup finds is an entry of the table. */
  lemma {:induction false} LookupFound<K(!new), R(!new)>(t: Table<K, R>, k: K)
    requires Lookup(t, k).Some?
    ensures Entry(k, Lookup(t, k).value) in t
  {
    if t[0].key != k {
      LookupFound(t[1..], k);
    }
  }

  /** Lookup finds some row under every key an entry has. */
  lemma {:induction false} MemberHasKey<K(!new), R(!new)>(t: Table<K, R>, e: Entry<K, R>)
    requires e in t
    ensures HasKey(t, e.key)
  {
    if t[0].key != e.key {
      assert e in t[1..];
      MemberHasKey(t[1..], e);
    }
  }

  predicate HasKey<K(==,!new), R(!new)>(t: Table<K, R>, k: K) {
    Lookup(t, k).Some?
  }

  /** No entry carries a key that lookup does not find. */
  lemma AbsentKey<K(!new), R(!new)>(t: Table<K, R>, k: K)
    requires !HasKey(t, k)
    ensures forall e :: e in t ==> e.key != k
  {
    forall e | e in t ensures e.key != k {
      MemberHasKey(t, e);
    }
  }

  /** The primary-key constraint: no key occurs twice. */
  ghost predicate UniqueKeys<K, R>(t: Table<K, R>) {
    forall i, j :: 0 <= i < j < |t| ==> t[i].key != t[j].key
  }

  /** In a table with unique keys, a stored entry is what lookup finds. */
  lemma {:induction false} LookupMember<K(!new), R(!new)>(t: Table<K, R>, e: Entry<K, R>)
    requires UniqueKeys(t) && e in t
    ensures Lookup(t, e.key) == Some(e.row)
  {
    if t[0] != e {
      assert e in t[1..];
      assert UniqueKeys(t[1..]) by {
        forall i, j | 0 <= i < j < |t[1..]| ensures t[1..][i].key != t[1..][j].key {
          assert t[1..][i] == t[i + 1] && t[1..][j] == t[j + 1];
        }
      }
      var k :| 0 <= k < |t| && t[k] == e;
      assert t[0].key != e.key;
      LookupMember(t[1..], e);
    }
  }

  /** Looking up in a concatenation: the left part is searched first. */
  lemma {:induction false} LookupAppend<K(!new), R(!new)>(a: Table<K, R>, b: Table<K, R>, k: K)
    ensures Lookup(a + b, k) == if Lookup(a, k).Some? then Lookup(a, k) else Lookup(b, k)
  {
    if a != [] {
      assert (a + b)[0] == a[0] && (a + b)[1..] == a[1..] + b;
      LookupAppend(a[1..], b, k);
    } else {
      assert a + b == b;
    }
  }

  /** Appending a row whose key is new keeps the keys unique. */
  lemma AppendUnique<K(!new), R(!new)>(t: Table<K, R>, e: Entry<K, R>)
    requires UniqueKeys(t) && !HasKey(t, e.key)
    ensures UniqueKeys(t + [e])
  {
    AbsentKey(t, e.key);
    forall i | 0 <= i < |t| ensures (t + [e])[i].key != e.key {
      assert (t + [e])[i] == t[i] && t[i] in t;
    }
  }

  /** Uniqueness of an entry in front of a table whose keys are unique. */
  lemma ConsUnique<K, R>(x: Entry<K, R>, t: Table<K, R>)
    requires UniqueKeys(t) && forall e :: e in t ==> e.key != x.key
    ensures UniqueKeys([x] + t)
  {
    forall i, j | 0 <= i < j < |[x] + t| ensures ([x] + t)[i].key != ([x] + t)[j].key {
      assert ([x] + t)[j] == t[j - 1] && t[j - 1] in t;
      if i > 0 {
        assert ([x] + t)[i] == t[i - 1];
      }
    }
  }

  /** The tail of a table with unique keys has unique keys, none of them the head's. */
  lemma TailUnique<K, R>(t: Table<K, R>)
    requires UniqueKeys(t) && t != []
    ensures UniqueKeys(t[1..])
    ensures forall e :: e in t[1..] ==> e.key != t[0].key
  {
    forall i, j | 0 <= i < j < |t[1..]| ensures t[1..][i].key != t[1..][j].key {
      assert t[1..][i] == t[i + 1] && t[1..][j] == t[j + 1];
    }
    forall e | e in t[1..] ensures e.key != t[0].key {
      var j :| 0 <= j < |t[1..]| && t[1..][j] == e;
      assert t[j + 1] == e;
    }
  }

  /** `DELETE FROM table WHERE key = k`. */
  function Delete<K(==,!new), R(!new)>(t: Table<K, R>, k: K): (r: Table<K, R>)
    ensures forall j :: Lookup(r, j) == if j == k then None else Lookup(t, j)
    ensures |r| <= |t|
    ensures UniqueKeys(t) ==> UniqueKeys(r)
  {
    if t == [] then []
    else
      var rest := Delete(t[1..], k);
      if t[0].key == k then
        assert UniqueKeys(t) ==> UniqueKeys(rest) by {
          if UniqueKeys(t) { TailUnique(t); }
        }
        rest
      else
        assert UniqueKeys(t) ==> UniqueKeys([t[0]] + rest) by {
          if UniqueKeys(t) {
            TailUnique(t);
            NoEntryNoKey(t[1..], t[0].key);
            AbsentKey(rest, t[0].key);
            ConsUnique(t[0], rest);
          }
        }
        [t[0]] + rest
  }

  /** What survives a delete was there before. */
  lemma {:induction false} DeleteMember<K(!new), R(!new)>(t: Table<K, R>, k: K, e: Entry<K, R>)
    requires e in Delete(t, k)
    ensures e in t && e.key != k
    decreases |t|
  {
    var rest := Delete(t[1..], k);
    if t[0].key == k {
      DeleteMember(t[1..], k, e);
    } else if e != t[0] {
      assert e in rest;
      DeleteMember(t[1..], k, e);
    }
  }

  /** `UPDATE table SET ... WHERE key = k`: every row under `k` is rewritten by
      `f`; no row is created when there is none. */
  function Modify<K(==,!new), R(!new)>(t: Table<K, R>, k: K, f: R -> R): (r: Table<K, R>)
    ensures |r| == |t|
    ensures forall j :: Lookup(r, j) == if j == k then Lookup(t, k).Map(f) else Lookup(t, j)
    ensures forall i :: 0 <= i < |t| ==> r[i].key == t[i].key
    ensures UniqueKeys(t) ==> UniqueKeys(r)
  {
    if t == [] then []
    else [if t[0].key == k then Entry(k, f(t[0].row)) else t[0]] + Modify(t[1..], k, f)
  }

  /** Deleting the key of a row just appended, under a key the table did not
      hold, gives the table back: insert and delete are inverse. */
  lemma {:induction false} DeleteAppended<K(!new), R(!new)>(t: Table<K, R>, e: Entry<K, R>)
    requires !HasKey(t, e.key)
    ensures Delete(t + [e], e.key) == t
  {
    if t == [] {
      assert Delete([e], e.key) == Delete([], e.key);
    } else {
      assert t[0].key != e.key;
      assert (t + [e])[1..] == t[1..] + [e];
      DeleteAppended(t[1..], e);
      assert [t[0]] + t[1..] == t;
    }
  }

  /** An `UPDATE` of a key no row has changes nothing: it never inserts. */
  lemma {:induction false} ModifyAbsent<K(!new), R(!new)>(t: Table<K, R>, k: K, f: R -> R)
    requires !HasKey(t, k)
    ensures Modify(t, k, f) == t
  {
    if t != [] {
      assert t[0].key != k;
      ModifyAbsent(t[1..], k, f);
      assert [t[0]] + t[1..] == t;
    }
  }

  /** `INSERT OR REPLACE`: the old row under `k`, if any, is deleted and the new
      one is appended. */
  function Upsert<K(==,!new), R(!new)>(t: Table<K, R>, k: K, row: R): (r: Table<K, R>)
    ensures forall j :: Lookup(r, j) == if j == k then Some(row) else Lookup(t, j)
    ensures UniqueKeys(t) ==> UniqueKeys(r)
  {
    var d := Delete(t, k);
    forall j ensures Lookup(d + [Entry(k, row)], j) == if j == k then Some(row) else Lookup(t, j) {
      LookupAppend(d, [Entry(k, row)], j);
    }
    assert UniqueKeys(t) ==> UniqueKeys(d + [Entry(k, row)]) by {
      if UniqueKeys(t) { AppendUnique(d, Entry(k, row)); }
    }
    d + [Entry(k, row)]
  }

  /** An upsert leaves the other keys' rows alone. */
  lemma UpsertOther<K(!new), R(!new)>(t: Table<K, R>, k: K, row: R, j: K)
    requires j != k
    ensures Lookup(Upsert(t, k, row), j) == Lookup(t, j)
  {
  }

  /** Every row under `from` gets key `to` and contents `row`. */
  function Relabel<K(==,!new), R(!new)>(t: Table<K, R>, from: K, to: K, row: R): (r: Table<K, R>)
    requires from == to || !HasKey(t, to)
    ensures HasKey(t, from) ==> Lookup(r, to) == Some(row)
    ensures !HasKey(t, from) ==> r == t
    ensures from != to ==> !HasKey(r, from)
    ensures forall j :: j != from && j != to ==> Lookup(r, j) == Lookup(t, j)
    ensures UniqueKeys(t) ==> UniqueKeys(r)
  {
    if t == [] then []
    else
      var rest := Relabel(t[1..], from, to, row);
      assert UniqueKeys(t) ==> UniqueKeys(t[1..]) by {
        if UniqueKeys(t) {
          forall i, j | 0 <= i < j < |t[1..]| ensures t[1..][i].key != t[1..][j].key {
            assert t[1..][i] == t[i + 1] && t[1..][j] == t[j + 1];
          }
        }
      }
      var head := if t[0].key == from then Entry(to, row) else t[0];
      assert UniqueKeys(t) ==> !HasKey(rest, head.key) by {
        if UniqueKeys(t) {
          assert !HasKey(t[1..], t[0].key) by {
            forall e | e in t[1..] ensures e.key != t[0].key {
              var j :| 0 <= j < |t[1..]| && t[1..][j] == e;
              assert t[j + 1] == e;
            }
            NoEntryNoKey(t[1..], t[0].key);
          }
        }
      }
      assert UniqueKeys(t) ==> UniqueKeys([head] + rest) by {
        if UniqueKeys(t) {
          AbsentKey(rest, head.key);
          forall i, j | 0 <= i < j < |[head] + rest| ensures ([head] + rest)[i].key != ([head] + rest)[j].key {
            if i == 0 {
              assert ([head] + rest)[j] == rest[j - 1] && rest[j - 1] in rest;
            } else {
              assert ([head] + rest)[i] == rest[i - 1] && ([head] + rest)[j] == rest[j - 1];
            }
          }
        }
      }
      [head] + rest
  }

  /** `UPDATE table SET key = to, ... WHERE key = from`. The statement fails with
      a primary-key violation (None) when it would give a second row the key
      `to`; when no row has key `from` it changes nothing. */
  function Rekey<K(==,!new), R(!new)>(t: Table<K, R>, from: K, to: K, row: R): (r: Option<Table<K, R>>)
    ensures r.None? <==> from != to && HasKey(t, from) && HasKey(t, to)
    ensures r.Some? && !HasKey(t, from) ==> r.value == t
    ensures r.Some? && HasKey(t, from) ==> Lookup(r.value, to) == Some(row)
    ensures r.Some? && from != to ==> !HasKey(r.value, from)
    ensures r.Some? ==> forall j :: j != from && j != to ==> Lookup(r.value, j) == Lookup(t, j)
    ensures r.Some? && UniqueKeys(t) ==> UniqueKeys(r.value)
  {
    if from != to && HasKey(t, from) && HasKey(t, to) then None
    else if !HasKey(t, from) then Some(t)
    else Some(Relabel(t, from, to, row))
  }

  /** The rows whose contents satisfy `p`, in table order. */
  function Where<K(!new), R(!new)>(t: Table<K, R>, p: R -> bool): (r: Table<K, R>)
    ensures forall e :: e in r <==> e in t && p(e.row)
    ensures |r| <= |t|
    ensures (forall e :: e in t ==> !p(e.row)) ==> r == []
    ensures UniqueKeys(t) ==> UniqueKeys(r)
  {
    if t == [] then []
    else
      var rest := Where(t[1..], p);
      assert UniqueKeys(t) ==> UniqueKeys((if p(t[0].row) then [t[0]] else []) + rest) by {
        if UniqueKeys(t) {
          TailUnique(t);
          if p(t[0].row) {
            ConsUnique(t[0], rest);
          } else {
            assert [] + rest == rest;
          }
        }
      }
      (if p(t[0].row) then [t[0]] else []) + rest
  }

  /** A key that none of the first `n` entries has is not among their keys. */
  lemma NotAmongKeys<K, R>(t: Table<K, R>, n: nat, k: K)
    requires n <= |t| && forall i :: 0 <= i < n ==> t[i].key != k
    ensures k !in Keys(t)[..n]
  {
    var pre := Keys(t)[..n];
    forall i | 0 <= i < n ensures pre[i] != k {
      assert pre[i] == t[i].key;
    }
  }

  /** The keys of a table, in table order. */
  function Keys<K, R>(t: Table<K, R>): (ks: seq<K>)
    ensures |ks| == |t|
    ensures forall i :: 0 <= i < |t| ==> ks[i] == t[i].key
  {
    seq(|t|, i requires 0 <= i < |t| => t[i].key)
  }

  /** The number of rows whose contents satisfy `p` (`COUNT(*) ... WHERE`). */
  function CountWhere<K(!new), R(!new)>(t: Table<K, R>, p: R -> bool): nat {
    |Where(t, p)|
  }

  /** The rows' contents, in table order. */
  function Rows<K, R>(t: Table<K, R>): (rows: seq<R>)
    ensures |rows| == |t|
    ensures forall i :: 0 <= i < |t| ==> rows[i] == t[i].row
  {
    seq(|t|, i requires 0 <= i < |t| => t[i].row)
  }
}
