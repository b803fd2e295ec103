/**
 * The local SQLite cache shared by the local API server and the sync engine:
 * the `pending_operations` queue, the `shipments` cache with its `synced`
 * flag, and the `drivers` and `vehicles` tables. The methods of
 * `LocalDatabase` are the single statements the handlers run against it.
 */
module LocalStore {
  import opened Wrappers
  import opened Json
  import opened Tables

  /** The `type` column of `pending_operations`: the three shipment operations
      the handlers queue, or any other text. */
  datatype Kind = CreateKind | UpdateKind | DeleteKind | UnknownKind(name: string)

  const CREATE_SHIPMENT: string := "create_shipment"
  const UPDATE_SHIPMENT: string := "update_shipment"
  const DELETE_SHIPMENT: string := "delete_shipment"

  /** The text stored in the `type` column. */
  function KindName(k: Kind): string {
    match k
    case CreateKind => CREATE_SHIPMENT
    case UpdateKind => UPDATE_SHIPMENT
    case DeleteKind => DELETE_SHIPMENT
    case UnknownKind(name) => name
  }

  /** The kind a `type` column holding `name` denotes; only the three exact
      names are recognised. */
  function KindOf(name: string): (k: Kind)
    ensures KindName(k) == name
    ensures k.UnknownKind? <==> name != CREATE_SHIPMENT && name != UPDATE_SHIPMENT && name != DELETE_SHIPMENT
  {
    if name == CREATE_SHIPMENT then CreateKind
    else if name == UPDATE_SHIPMENT then UpdateKind
    else if name == DELETE_SHIPMENT then DeleteKind
    else UnknownKind(name)
  }

  /** Writing a kind to the column and reading it back gives the same kind,
      for every kind that a read can produce. */
  lemma KindRoundTrip(k: Kind)
    requires k.UnknownKind? ==> KindOf(k.name).UnknownKind?
    ensures KindOf(KindName(k)) == k
  {
  }

  /** A row of `pending_operations`: its type, its parsed data, its retry count and
      its creation time (`CURRENT_TIMESTAMP`, in seconds). */
  datatype Op = Op(kind: Kind, data: Payload, retryCount: nat, createdAt: nat)

  /** `pending_operations`, keyed by its autoincrement id. */
  type Pending = Table<nat, Op>

  /** A row of `shipments`: the parsed record and whether the cloud has it. */
  datatype Cached = Cached(data: Payload, synced: bool)

  /** `shipments`, keyed by the shipment id. */
  type Shipments = Table<string, Cached>

  /** A row of `drivers` or `vehicles`. */
  datatype Entity = Entity(data: Payload, updatedAt: string)

  type Entities = Table<string, Entity>

  /** The two tables a replay pass reads and writes. */
  datatype Store = Store(pending: Pending, shipments: Shipments)

  /** `retry_count = retry_count + 1`. */
  function Bumped(op: Op): Op {
    op.(retryCount := op.retryCount + 1)
  }

  /** `UPDATE pending_operations SET retry_count = retry_count + 1 WHERE id = ?`:
      only the operation under `id` changes, and only its retry count. */
  function BumpRetry(t: Pending, id: nat): (r: Pending)
    ensures forall j :: j != id ==> Lookup(r, j) == Lookup(t, j)
    ensures HasKey(t, id) ==> Lookup(r, id) == Some(Lookup(t, id).value.(retryCount := Lookup(t, id).value.retryCount + 1))
    ensures !HasKey(t, id) ==> !HasKey(r, id)
    ensures UniqueKeys(t) ==> UniqueKeys(r)
  {
    Modify(t, id, Bumped)
  }

  /** The queue in creation order. */
  ghost predicate SortedByCreation(t: Pending) {
    forall i, j :: 0 <= i < j < |t| ==> t[i].row.createdAt <= t[j].row.createdAt
  }

  /** Inserts `e` into a queue sorted by creation, after every entry created no later. */
  function InsertByCreation(t: Pending, e: Entry<nat, Op>): (r: Pending)
    ensures multiset(r) == multiset(t) + multiset{e}
  {
    if t == [] then [e]
    else if e.row.createdAt < t[0].row.createdAt then
      assert t == [t[0]] + t[1..];
      [e] + t
    else
      assert t == [t[0]] + t[1..];
      [t[0]] + InsertByCreation(t[1..], e)
  }

  /** The head of a queue sorted by creation was created no later than any entry. */
  lemma SortedHead(t: Pending)
    requires SortedByCreation(t) && t != []
    ensures SortedByCreation(t[1..])
    ensures forall x :: x in t ==> t[0].row.createdAt <= x.row.createdAt
  {
    forall i, j | 0 <= i < j < |t[1..]| ensures t[1..][i].row.createdAt <= t[1..][j].row.createdAt {
      assert t[1..][i] == t[i + 1] && t[1..][j] == t[j + 1];
    }
  }

  /** An entry created no later than every entry of a sorted queue can head it. */
  lemma ConsSorted(h: Entry<nat, Op>, s: Pending)
    requires SortedByCreation(s)
    requires forall x :: x in s ==> h.row.createdAt <= x.row.createdAt
    ensures SortedByCreation([h] + s)
  {
    forall i, j | 0 <= i < j < |[h] + s| ensures ([h] + s)[i].row.createdAt <= ([h] + s)[j].row.createdAt {
      assert ([h] + s)[j] == s[j - 1] && s[j - 1] in s;
      if i > 0 {
        assert ([h] + s)[i] == s[i - 1];
      }
    }
  }

  /** A lower bound on creation holds after an insertion that respects it. */
  lemma InsertBound(t: Pending, e: Entry<nat, Op>, b: nat)
    requires b <= e.row.createdAt && forall x :: x in t ==> b <= x.row.createdAt
    ensures forall x :: x in InsertByCreation(t, e) ==> b <= x.row.createdAt
  {
    var r := InsertByCreation(t, e);
    forall x | x in r ensures b <= x.row.createdAt {
      assert x in multiset(r);
      if x != e {
        assert x in multiset(t);
      }
    }
  }

  lemma {:induction false} InsertSorted(t: Pending, e: Entry<nat, Op>)
    requires SortedByCreation(t)
    ensures SortedByCreation(InsertByCreation(t, e))
  {
    if t == [] {
      assert InsertByCreation(t, e) == [e];
    } else {
      SortedHead(t);
      if e.row.createdAt < t[0].row.createdAt {
        ConsSorted(e, t);
      } else {
        InsertSorted(t[1..], e);
        InsertBound(t[1..], e, t[0].row.createdAt);
        ConsSorted(t[0], InsertByCreation(t[1..], e));
      }
    }
  }

  /** `ORDER BY created_at ASC`: a stable insertion sort, so operations created
      in the same second keep their table order. */
  function SortByCreation(t: Pending): (r: Pending)
    ensures multiset(r) == multiset(t)
  {
    if t == [] then []
    else
      assert t == t[..|t| - 1] + [t[|t| - 1]];
      InsertByCreation(SortByCreation(t[..|t| - 1]), t[|t| - 1])
  }

  lemma {:induction false} SortSorted(t: Pending)
    ensures SortedByCreation(SortByCreation(t))
  {
    if t != [] {
      SortSorted(t[..|t| - 1]);
      InsertSorted(SortByCreation(t[..|t| - 1]), t[|t| - 1]);
    }
  }

  /** Two tables with the same entries, counted with multiplicity, agree on
      whether their keys are unique. */
  lemma PermutationUnique(a: Pending, b: Pending)
    requires multiset(a) == multiset(b) && UniqueKeys(a)
    ensures UniqueKeys(b)
  {
    forall i, j | 0 <= i < j < |b| ensures b[i].key != b[j].key {
      if b[i].key == b[j].key {
        assert b[i] in multiset(a) && b[j] in multiset(a);
        var p :| 0 <= p < |a| && a[p] == b[i];
        var q :| 0 <= q < |a| && a[q] == b[j];
        assert p == q;
        TwiceInMultiset(b, i, j);
        OnceInMultiset(a, p);
        assert false;
      }
    }
  }

  /** An entry at two positions counts at least twice. */
  lemma TwiceInMultiset(s: Pending, i: nat, j: nat)
    requires i < j < |s| && s[i] == s[j]
    ensures multiset(s)[s[i]] >= 2
  {
    assert s == s[..i] + [s[i]] + s[i + 1..j] + [s[j]] + s[j + 1..];
  }

  /** In a table with unique keys, each entry counts once. */
  lemma {:induction false} OnceInMultiset(s: Pending, p: nat)
    requires UniqueKeys(s) && p < |s|
    ensures multiset(s)[s[p]] == 1
  {
    assert s == s[..p] + [s[p]] + s[p + 1..];
    assert s[p] !in s[..p] by {
      forall k | 0 <= k < p ensures s[..p][k] != s[p] {
        assert s[..p][k] == s[k];
      }
    }
    var tail := s[p + 1..];
    assert s[p] !in tail by {
      forall k | 0 <= k < |tail| ensures tail[k] != s[p] {
        assert tail[k] == s[p + 1 + k];
      }
    }
  }

  /** `SELECT * FROM pending_operations WHERE retry_count < ? ORDER BY created_at ASC`:
      the operations still below the retry limit, oldest first, each once. */
  function ReplayCandidates(t: Pending, maxRetries: nat): (c: Pending)
    ensures SortedByCreation(c)
    ensures forall e :: e in c <==> e in t && e.row.retryCount < maxRetries
    ensures |c| <= |t|
    ensures (forall e :: e in t ==> e.row.retryCount >= maxRetries) ==> c == []
    ensures UniqueKeys(t) ==> UniqueKeys(c)
  {
    var w := Where(t, (op: Op) => op.retryCount < maxRetries);
    var c := SortByCreation(w);
    SortSorted(w);
    forall e ensures e in c <==> e in w {
      assert e in c <==> e in multiset(c);
      assert e in w <==> e in multiset(w);
    }
    assert |c| == |w| by {
      assert |multiset(c)| == |multiset(w)|;
    }
    assert UniqueKeys(t) ==> UniqueKeys(c) by {
      if UniqueKeys(t) { PermutationUnique(w, c); }
    }
    c
  }

  /** One step of a replay loop settles the operation under `key` and no other:
      every other id of the queue keeps its row (or its absence). */
  ghost predicate OnlyTouches(before: Pending, after: Pending, key: nat) {
    forall j :: j != key ==> Lookup(after, j) == Lookup(before, j)
  }

  /** What one iteration of a replay loop does to the queue: the operation is
      deleted, or, when its replay failed, kept with one more retry. */
  function Settle(t: Pending, id: nat, failed: bool): (r: Pending)
    ensures OnlyTouches(t, r, id)
    ensures Lookup(r, id) == if failed then Lookup(t, id).Map(Bumped) else None
    ensures UniqueKeys(t) ==> UniqueKeys(r)
  {
    if failed then BumpRetry(t, id) else Delete(t, id)
  }

  /** The queue after settling the first `n` candidates of `c`, the k-th one
      failing exactly when `fails[k]`. */
  function SettleAll(t: Pending, c: Pending, fails: seq<bool>, n: nat): (r: Pending)
    requires n <= |c| && n <= |fails|
    ensures UniqueKeys(t) ==> UniqueKeys(r)
  {
    if n == 0 then t else Settle(SettleAll(t, c, fails, n - 1), c[n - 1].key, fails[n - 1])
  }

  /** Settling the first `n` candidates leaves every other operation as it was. */
  lemma {:induction false} SettleUntouched(t: Pending, c: Pending, fails: seq<bool>, n: nat)
    requires n <= |c| && n <= |fails|
    ensures forall id :: id !in Keys(c)[..n] ==> Lookup(SettleAll(t, c, fails, n), id) == Lookup(t, id)
  {
    if n > 0 {
      SettleUntouched(t, c, fails, n - 1);
      var pre, shorter := Keys(c)[..n], Keys(c)[..n - 1];
      forall id | id !in pre ensures Lookup(SettleAll(t, c, fails, n), id) == Lookup(t, id) {
        assert pre[n - 1] == c[n - 1].key;
        assert id !in shorter by {
          forall i | 0 <= i < n - 1 ensures shorter[i] != id {
            assert shorter[i] == pre[i];
          }
        }
      }
    }
  }

  /** With distinct candidates, what step `k` did to its operation is what the
      queue shows after any later step `n`. */
  lemma {:induction false} SettleSettled(t: Pending, c: Pending, fails: seq<bool>, k: nat, n: nat)
    requires k < n <= |c| && n <= |fails| && UniqueKeys(c)
    ensures Lookup(SettleAll(t, c, fails, n), c[k].key) == Lookup(SettleAll(t, c, fails, k + 1), c[k].key)
    decreases n
  {
    if n != k + 1 {
      SettleSettled(t, c, fails, k, n - 1);
      var prev := SettleAll(t, c, fails, n - 1);
      assert SettleAll(t, c, fails, n) == Settle(prev, c[n - 1].key, fails[n - 1]);
      assert OnlyTouches(prev, SettleAll(t, c, fails, n), c[n - 1].key);
      assert c[k].key != c[n - 1].key;
      assert Lookup(SettleAll(t, c, fails, n), c[k].key) == Lookup(prev, c[k].key);
      assert Lookup(SettleAll(t, c, fails, n), c[k].key) == Lookup(SettleAll(t, c, fails, k + 1), c[k].key);
    } else {
      assert Lookup(SettleAll(t, c, fails, n), c[k].key) == Lookup(SettleAll(t, c, fails, k + 1), c[k].key);
    }
  }

  /** Settling distinct candidates drawn from the queue, one after the other:
      every operation outside them keeps its row, and each of them is gone
      when its replay succeeded and has one more retry when it failed. */
  lemma SettleEffect(t: Pending, c: Pending, fails: seq<bool>)
    requires |fails| == |c| && UniqueKeys(t) && UniqueKeys(c) && forall e :: e in c ==> e in t
    ensures forall id :: id !in Keys(c) ==> Lookup(SettleAll(t, c, fails, |c|), id) == Lookup(t, id)
    ensures forall k :: 0 <= k < |c| ==>
              Lookup(SettleAll(t, c, fails, |c|), c[k].key) == if fails[k] then Some(Bumped(c[k].row)) else None
  {
    SettleUntouched(t, c, fails, |c|);
    assert Keys(c)[..|c|] == Keys(c);
    forall k | 0 <= k < |c|
      ensures Lookup(SettleAll(t, c, fails, |c|), c[k].key) == if fails[k] then Some(Bumped(c[k].row)) else None
    {
      SettleUntouched(t, c, fails, k);
      SettleSettled(t, c, fails, k, |c|);
      NotAmongKeys(c, k, c[k].key);
      assert c[k] in c;
      LookupMember(t, c[k]);
    }
  }

  /** Which entity table a driver or vehicle handler works on. */
  datatype Collection = Drivers | Vehicles

  /** The local database file. */
  class LocalDatabase {
    var pending: Pending
    /** The next `AUTOINCREMENT` id of `pending_operations`. */
    var nextOpId: nat
    var shipments: Shipments
    var drivers: Entities
    var vehicles: Entities

    /** The primary keys hold, and every queued id is below the autoincrement counter. */
    ghost predicate Valid()
      reads this
    {
      UniqueKeys(pending) && UniqueKeys(shipments) && UniqueKeys(drivers) && UniqueKeys(vehicles)
      && forall e :: e in pending ==> e.key < nextOpId
    }

    ghost function State(): Store
      reads this
    {
      Store(pending, shipments)
    }

    function EntityTable(c: Collection): Entities
      reads this
    {
      match c
      case Drivers => drivers
      case Vehicles => vehicles
    }

    /** A freshly created database: every table empty. */
    constructor()
      ensures Valid()
      ensures pending == [] && shipments == [] && drivers == [] && vehicles == []
      ensures nextOpId == 1
    {
      pending, shipments, drivers, vehicles := [], [], [], [];
      nextOpId := 1;
    }

    /** `INSERT INTO pending_operations (type, data) VALUES (?, ?)`: the new row
        gets the next id, retry count 0 and the current time. */
    method InsertOp(kind: Kind, data: Payload, createdAt: nat) returns (id: nat)
      requires Valid()
      modifies this
      ensures Valid()
      ensures id == old(nextOpId) && !HasKey(old(pending), id)
      ensures pending == old(pending) + [Entry(id, Op(kind, data, 0, createdAt))]
      ensures Lookup(pending, id) == Some(Op(kind, data, 0, createdAt))
      ensures nextOpId == id + 1
      ensures shipments == old(shipments) && drivers == old(drivers) && vehicles == old(vehicles)
    {
      id := nextOpId;
      assert forall e :: e in pending ==> e.key != id;
      NoEntryNoKey(pending, id);
      AppendUnique(pending, Entry(id, Op(kind, data, 0, createdAt)));
      LookupAppend(pending, [Entry(id, Op(kind, data, 0, createdAt))], id);
      pending := pending + [Entry(id, Op(kind, data, 0, createdAt))];
      nextOpId := nextOpId + 1;
    }

    /** `DELETE FROM pending_operations WHERE id = ?`. */
    method DeleteOp(id: nat)
      requires Valid()
      modifies this
      ensures Valid()
      ensures pending == Delete(old(pending), id)
      ensures nextOpId == old(nextOpId)
      ensures shipments == old(shipments) && drivers == old(drivers) && vehicles == old(vehicles)
    {
      forall e | e in Delete(pending, id) ensures e.key < nextOpId {
        DeleteMember(pending, id, e);
      }
      pending := Delete(pending, id);
    }

    /** `UPDATE pending_operations SET retry_count = retry_count + 1 WHERE id = ?`. */
    method BumpRetryCount(id: nat)
      requires Valid()
      modifies this
      ensures Valid()
      ensures pending == BumpRetry(old(pending), id)
      ensures nextOpId == old(nextOpId)
      ensures shipments == old(shipments) && drivers == old(drivers) && vehicles == old(vehicles)
    {
      forall e | e in BumpRetry(pending, id) ensures e.key < nextOpId {
        LookupMember(BumpRetry(pending, id), e);
        assert Lookup(pending, e.key).Some?;
        LookupFound(pending, e.key);
      }
      pending := BumpRetry(pending, id);
    }

    /** `INSERT OR REPLACE INTO shipments (id, data, synced) VALUES (?, ?, ?)`. */
    method UpsertShipment(id: string, row: Cached)
      requires Valid()
      modifies this
      ensures Valid()
      ensures shipments == Upsert(old(shipments), id, row)
      ensures pending == old(pending) && nextOpId == old(nextOpId)
      ensures drivers == old(drivers) && vehicles == old(vehicles)
    {
      shipments := Upsert(shipments, id, row);
    }

    /** `UPDATE shipments SET data = ?, synced = 1 WHERE id = ?`: no row is created. */
    method UpdateShipment(id: string, row: Cached)
      requires Valid()
      modifies this
      ensures Valid()
      ensures shipments == Modify(old(shipments), id, _ => row)
      ensures pending == old(pending) && nextOpId == old(nextOpId)
      ensures drivers == old(drivers) && vehicles == old(vehicles)
    {
      shipments := Modify(shipments, id, _ => row);
    }

    /** `UPDATE shipments SET id = ?, data = ?, synced = 1 WHERE id = ?`; `ok` is
        false when the statement fails on the primary key, and then nothing changes. */
    method RekeyShipment(from: string, to: string, row: Cached) returns (ok: bool)
      requires Valid()
      modifies this
      ensures Valid()
      ensures ok <==> Rekey(old(shipments), from, to, row).Some?
      ensures ok ==> shipments == Rekey(old(shipments), from, to, row).value
      ensures !ok ==> shipments == old(shipments)
      ensures pending == old(pending) && nextOpId == old(nextOpId)
      ensures drivers == old(drivers) && vehicles == old(vehicles)
    {
      var r := Rekey(shipments, from, to, row);
      ok := r.Some?;
      if ok {
        shipments := r.value;
      }
    }

    /** `DELETE FROM shipments WHERE id = ?`. */
    method DeleteShipment(id: string)
      requires Valid()
      modifies this
      ensures Valid()
      ensures shipments == Delete(old(shipments), id)
      ensures pending == old(pending) && nextOpId == old(nextOpId)
      ensures drivers == old(drivers) && vehicles == old(vehicles)
    {
      shipments := Delete(shipments, id);
    }

    /** `UPDATE drivers|vehicles SET data = ?, updated_at = ? WHERE id = ?`. */
    method UpdateEntity(c: Collection, id: string, row: Entity)
      requires Valid()
      modifies this
      ensures Valid()
      ensures EntityTable(c) == Modify(old(EntityTable(c)), id, _ => row)
      ensures c.Drivers? ==> vehicles == old(vehicles)
      ensures c.Vehicles? ==> drivers == old(drivers)
      ensures pending == old(pending) && nextOpId == old(nextOpId) && shipments == old(shipments)
    {
      match c
      case Drivers => drivers := Modify(drivers, id, _ => row);
      case Vehicles => vehicles := Modify(vehicles, id, _ => row);
    }

    /** `DELETE FROM drivers|vehicles WHERE id = ?`. */
    method DeleteEntity(c: Collection, id: string)
      requires Valid()
      modifies this
      ensures Valid()
      ensures EntityTable(c) == Delete(old(EntityTable(c)), id)
      ensures c.Drivers? ==> vehicles == old(vehicles)
      ensures c.Vehicles? ==> drivers == old(drivers)
      ensures pending == old(pending) && nextOpId == old(nextOpId) && shipments == old(shipments)
    {
      match c
      case Drivers => drivers := Delete(drivers, id);
      case Vehicles => vehicles := Delete(vehicles, id);
    }
  }
}
