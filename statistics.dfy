/**
 * The status counters every backend reports: the number of shipments, and how
 * many are active (`active` or `in_transit`), completed and pending.
 */
module Statistics {
  import opened Json
  import opened Tables

  datatype Counts = Counts(total: nat, active: nat, completed: nat, pending: nat)

  predicate IsActive(status: Value) {
    status == Str("active") || status == Str("in_transit")
  }

  predicate IsCompleted(status: Value) {
    status == Str("completed")
  }

  predicate IsPending(status: Value) {
    status == Str("pending")
  }

  function Plus(a: Counts, b: Counts): Counts {
    Counts(a.total + b.total, a.active + b.active, a.completed + b.completed, a.pending + b.pending)
  }

  /** `list.filter(p).length`. */
  function Count(s: seq<Value>, p: Value -> bool): (n: nat)
    ensures n <= |s|
  {
    if |s| == 0 then 0 else (if p(s[0]) then 1 else 0) + Count(s[1..], p)
  }

  /** Counting is additive over concatenation. */
  lemma {:induction false} CountAppend(a: seq<Value>, b: seq<Value>, p: Value -> bool)
    ensures Count(a + b, p) == Count(a, p) + Count(b, p)
  {
    if |a| == 0 {
      assert a + b == b;
    } else {
      CountAppend(a[1..], b, p);
      assert (a + b)[1..] == a[1..] + b;
      assert (a + b)[0] == a[0];
    }
  }

  /** The counters over a list of statuses. */
  function Tally(statuses: seq<Value>): (c: Counts)
    ensures c.total == |statuses|
  {
    Counts(|statuses|, Count(statuses, IsActive), Count(statuses, IsCompleted), Count(statuses, IsPending))
  }

  /** A status is in at most one of the three classes, so the classes never
      add up to more than the total. */
  lemma {:induction false} TallyBound(statuses: seq<Value>)
    ensures var c := Tally(statuses); c.active + c.completed + c.pending <= c.total
  {
    if |statuses| > 0 {
      TallyBound(statuses[1..]);
    }
  }

  /** A tally can be computed in pieces: it does not depend on where the list
      is cut. */
  lemma TallyAppend(a: seq<Value>, b: seq<Value>)
    ensures Tally(a + b) == Plus(Tally(a), Tally(b))
  {
    var x, y := Tally(a), Tally(b);
    var active := x.active + y.active;
    var completed := x.completed + y.completed;
    var pending := x.pending + y.pending;
    assert Count(a + b, IsActive) == active by { CountAppend(a, b, IsActive); }
    assert Count(a + b, IsCompleted) == completed by { CountAppend(a, b, IsCompleted); }
    assert Count(a + b, IsPending) == pending by { CountAppend(a, b, IsPending); }
    assert Tally(a + b) == Counts(|a| + |b|, active, completed, pending);
  }

  /** A list with none of the three statuses counts only towards the total. */
  lemma {:induction false} TallyUnclassified(statuses: seq<Value>)
    requires forall i :: 0 <= i < |statuses| ==> !IsActive(statuses[i]) && !IsCompleted(statuses[i]) && !IsPending(statuses[i])
    ensures Tally(statuses) == Counts(|statuses|, 0, 0, 0)
  {
    if |statuses| > 0 {
      assert !IsActive(statuses[0]) && !IsCompleted(statuses[0]) && !IsPending(statuses[0]);
      TallyUnclassified(statuses[1..]);
    }
  }

  /** For the statuses pending, active, completed and in transit the counters
      are 4, 2, 1 and 1. */
  lemma TallyExample()
    ensures Tally([Str("pending"), Str("active"), Str("completed"), Str("in_transit")]) == Counts(4, 2, 1, 1)
  {
    var s := [Str("pending"), Str("active"), Str("completed"), Str("in_transit")];
    assert s[1..] == [Str("active"), Str("completed"), Str("in_transit")];
    assert s[1..][1..] == [Str("completed"), Str("in_transit")];
    assert s[1..][1..][1..] == [Str("in_transit")];
  }

  /** The `status` column of every row, in order. */
  function StatusesOf(rows: Table<string, Payload>): (s: seq<Value>)
    ensures |s| == |rows|
    ensures forall i :: 0 <= i < |rows| ==> s[i] == Field(rows[i].row, "status")
  {
    seq(|rows|, i requires 0 <= i < |rows| => Field(rows[i].row, "status"))
  }

  /** The counters as the Supabase handlers answer them: numbers. */
  function NumericBody(c: Counts): (b: Payload)
    ensures Field(b, "total") == Num(c.total) && Field(b, "active") == Num(c.active)
    ensures Field(b, "completed") == Num(c.completed) && Field(b, "pending") == Num(c.pending)
  {
    map["total" := Num(c.total), "active" := Num(c.active), "completed" := Num(c.completed), "pending" := Num(c.pending)]
  }
}
