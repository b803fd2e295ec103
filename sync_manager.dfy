/**
 * The background synchronisation engine of the local server (`SyncManager`).
 * A pass probes the cloud, replays the pending-operations queue oldest first,
 * then pushes up to twenty cached shipments that were never synced. Each
 * remote call is an oracle indexed by the position of its candidate in the
 * pass, so a pass is a function of the tables and the oracles; the methods of
 * `SyncManager` are proved to compute exactly that function.
 */
module Sync {
  import opened Wrappers
  import opened Json
  import opened Tables
  import opened Remote
  import opened LocalStore

  /** `config.MAX_RETRIES`: an operation that failed this often is no longer replayed. */
  const MAX_RETRIES: nat := 3

  /** The `LIMIT` of the unsynced-records query. */
  const UNSYNCED_BATCH: nat := 20

  /** A request sent to the cloud function: POST /shipments, PUT /shipments/:id,
      DELETE /shipments/:id (the id is whatever `data.id` holds), and the
      local server's reads GET /shipments and GET /statistics. */
  datatype Call =
    | PostShipment(body: Payload)
    | PutShipment(id: Value, body: Payload)
    | DeleteShipment(id: Value)
    | ListShipments
    | ReadStatistics

  /** `checkCloudAvailability`: GET /health must succeed; an HTTP error status
      counts as offline just like no answer at all. */
  predicate CloudAvailable(p: Probe)
    ensures p.HttpError? || p.NoResponse? ==> !CloudAvailable(p)
  {
    p.Answered?
  }

  predicate KnownKind(kind: Kind) {
    !kind.UnknownKind?
  }

  /** The kinds that name their shipment in `data.id`. */
  predicate DataKind(kind: Kind) {
    kind.UpdateKind? || kind.DeleteKind?
  }

  /** The request replaying `op` sends; an operation of unknown type sends none. */
  function OpCall(op: Op): (c: seq<Call>)
    ensures |c| == if KnownKind(op.kind) then 1 else 0
    ensures op.kind.CreateKind? ==> c == [PostShipment(op.data)]
    ensures op.kind.UpdateKind? ==> c == [PutShipment(Field(op.data, "id"), op.data)]
    ensures op.kind.DeleteKind? ==> c == [DeleteShipment(Field(op.data, "id"))]
  {
    if op.kind.CreateKind? then [PostShipment(op.data)]
    else if op.kind.UpdateKind? then [PutShipment(Field(op.data, "id"), op.data)]
    else if op.kind.DeleteKind? then [DeleteShipment(Field(op.data, "id"))]
    else []
  }

  /** The cache key of the temporary row a queued create names in a truthy
      `tempId`, if it names one the cache could hold. */
  function TempKey(op: Op): (t: Option<string>)
    ensures t.Some? ==> op.kind.CreateKind? && Field(op.data, "tempId") == Str(t.value) && t.value != ""
    ensures op.kind.CreateKind? && Field(op.data, "tempId").Str? && Field(op.data, "tempId").s != "" ==> t.Some?
  {
    if op.kind.CreateKind? && Truthy(Field(op.data, "tempId")) then SqlText(Field(op.data, "tempId"))
    else None
  }

  /** The cache key an update or delete names in `data.id`. */
  function DataKey(op: Op): (k: Option<string>)
    ensures k.Some? <==> Field(op.data, "id").Str?
    ensures k.Some? ==> Field(op.data, "id") == Str(k.value)
  {
    SqlText(Field(op.data, "id"))
  }

  /** Whether replaying `op` against `reply` ends in the catch block: the call
      failed, or re-keying the temporary row hit the primary key. */
  predicate ReplayFails(shipments: Shipments, op: Op, reply: Reply)
    ensures ReplayFails(shipments, op, reply) ==> |OpCall(op)| == 1
  {
    KnownKind(op.kind)
    && (reply.Failed?
        || (TempKey(op).Some? && Rekey(shipments, TempKey(op).value, reply.rec.id, Cached(reply.rec.body, true)).None?))
  }

  /** The cache after a replay that did not fail. */
  function CacheAfter(shipments: Shipments, op: Op, reply: Reply): (r: Shipments)
    requires !ReplayFails(shipments, op, reply)
    ensures UniqueKeys(shipments) ==> UniqueKeys(r)
    ensures !KnownKind(op.kind) || (op.kind.CreateKind? && TempKey(op).None?) ==> r == shipments
    ensures TempKey(op).Some? && HasKey(shipments, TempKey(op).value) ==>
              Lookup(r, reply.rec.id) == Some(Cached(reply.rec.body, true))
    ensures TempKey(op).Some? && TempKey(op).value != reply.rec.id ==> !HasKey(r, TempKey(op).value)
    ensures op.kind.CreateKind? ==>
              forall j :: j != reply.rec.id && Some(j) != TempKey(op) ==> Lookup(r, j) == Lookup(shipments, j)
    ensures op.kind.UpdateKind? && DataKey(op).Some? ==>
              Lookup(r, DataKey(op).value) == if HasKey(shipments, DataKey(op).value) then Some(Cached(reply.rec.body, true)) else None
    ensures op.kind.DeleteKind? && DataKey(op).Some? ==> !HasKey(r, DataKey(op).value)
    ensures op.kind.UpdateKind? || op.kind.DeleteKind? ==>
              forall j :: Some(j) != DataKey(op) ==> Lookup(r, j) == Lookup(shipments, j)
  {
    if !KnownKind(op.kind) then shipments
    else if op.kind.CreateKind? then
      match TempKey(op)
      case None => shipments
      case Some(temp) => Rekey(shipments, temp, reply.rec.id, Cached(reply.rec.body, true)).value
    else if op.kind.UpdateKind? then
      match DataKey(op)
      case None => shipments
      case Some(id) =>
        var row := Cached(reply.rec.body, true);
        Modify(shipments, id, _ => row)
    else
      match DataKey(op)
      case None => shipments
      case Some(id) => Delete(shipments, id)
  }

  /** What one iteration of the replay loop does to the cache: nothing when the
      replay fails (the catch block only bumps the retry count). */
  function CacheStep(shipments: Shipments, op: Op, reply: Reply): (r: Shipments)
    ensures ReplayFails(shipments, op, reply) ==> r == shipments
    ensures UniqueKeys(shipments) ==> UniqueKeys(r)
  {
    if ReplayFails(shipments, op, reply) then shipments else CacheAfter(shipments, op, reply)
  }

  /** The cache after replaying the first `n` candidates, the k-th answered by
      `replies(k)`. The cache never depends on the queue. */
  function CacheRun(shipments: Shipments, cands: Pending, replies: nat -> Reply, n: nat): (r: Shipments)
    requires n <= |cands|
    ensures UniqueKeys(shipments) ==> UniqueKeys(r)
  {
    if n == 0 then shipments else CacheStep(CacheRun(shipments, cands, replies, n - 1), cands[n - 1].row, replies(n - 1))
  }

  /** Which of the first `n` replays fail, each against the cache the earlier
      steps left behind. */
  function FailVector(shipments: Shipments, c: Pending, replies: nat -> Reply, n: nat): (f: seq<bool>)
    requires n <= |c|
    ensures |f| == n
  {
    if n == 0 then []
    else FailVector(shipments, c, replies, n - 1) + [ReplayFails(CacheRun(shipments, c, replies, n - 1), c[n - 1].row, replies(n - 1))]
  }

  lemma FailVectorLast(shipments: Shipments, c: Pending, replies: nat -> Reply, n: nat)
    requires 0 < n <= |c|
    ensures FailVector(shipments, c, replies, n)[n - 1] == ReplayFails(CacheRun(shipments, c, replies, n - 1), c[n - 1].row, replies(n - 1))
  {
  }

  /** Entry `k` of the failure vector is the outcome of step `k`, however long the vector. */
  lemma {:induction false} FailVectorAt(shipments: Shipments, c: Pending, replies: nat -> Reply, n: nat, k: nat)
    requires k < n <= |c|
    ensures FailVector(shipments, c, replies, n)[k] == ReplayFails(CacheRun(shipments, c, replies, k), c[k].row, replies(k))
  {
    if k == n - 1 {
      FailVectorLast(shipments, c, replies, n);
    } else {
      FailVectorAt(shipments, c, replies, n - 1, k);
      FailVectorPrefix(shipments, c, replies, n, k);
    }
  }

  /** Growing the failure vector keeps its earlier entries. */
  lemma FailVectorPrefix(shipments: Shipments, c: Pending, replies: nat -> Reply, n: nat, k: nat)
    requires k < n - 1 && n <= |c|
    ensures FailVector(shipments, c, replies, n)[k] == FailVector(shipments, c, replies, n - 1)[k]
  {
    var f := FailVector(shipments, c, replies, n - 1);
    var last := ReplayFails(CacheRun(shipments, c, replies, n - 1), c[n - 1].row, replies(n - 1));
    assert FailVector(shipments, c, replies, n) == f + [last];
    assert (f + [last])[k] == f[k];
  }

  /** The requests the first `n` candidates send, in order; at most one each. */
  function ReplayCalls(cands: Pending, n: nat): (c: seq<Call>)
    requires n <= |cands|
    ensures |c| <= n
  {
    if n == 0 then [] else ReplayCalls(cands, n - 1) + OpCall(cands[n - 1].row)
  }

  /** `syncPendingOperations` as a function of the tables and the replies: the
      cache goes through its run of replay steps, and the queue settles each
      candidate in turn, failing where that run says it fails. */
  function PendingPass(s: Store, replies: nat -> Reply): (r: Store)
    ensures UniqueKeys(s.pending) ==> UniqueKeys(r.pending)
    ensures UniqueKeys(s.shipments) ==> UniqueKeys(r.shipments)
  {
    var c := ReplayCandidates(s.pending, MAX_RETRIES);
    Store(SettleAll(s.pending, c, FailVector(s.shipments, c, replies, |c|), |c|), CacheRun(s.shipments, c, replies, |c|))
  }

  /** The effect of a replay pass on the queue. No operation is added. An
      operation at the retry limit is neither sent nor changed. Every candidate
      is settled exactly once: it is gone when its replay succeeded (or its type
      is unknown) and has its retry count one higher when it failed. */
  lemma PendingPassSettles(s: Store, replies: nat -> Reply)
    requires UniqueKeys(s.pending)
    ensures var c := ReplayCandidates(s.pending, MAX_RETRIES);
            var after := PendingPass(s, replies).pending;
            (forall id :: !HasKey(s.pending, id) ==> !HasKey(after, id))
            && (forall id :: HasKey(s.pending, id) && Lookup(s.pending, id).value.retryCount >= MAX_RETRIES ==>
                  Lookup(after, id) == Lookup(s.pending, id))
            && (forall k :: 0 <= k < |c| ==>
                  Lookup(after, c[k].key) ==
                    if ReplayFails(CacheRun(s.shipments, c, replies, k), c[k].row, replies(k))
                    then Some(Bumped(c[k].row)) else None)
  {
    var c := ReplayCandidates(s.pending, MAX_RETRIES);
    var after := PendingPass(s, replies).pending;
    var fails := FailVector(s.shipments, c, replies, |c|);
    SettleEffect(s.pending, c, fails);
    forall id | !HasKey(s.pending, id) ensures !HasKey(after, id) {
      AbsentKey(s.pending, id);
      forall i | 0 <= i < |c| ensures Keys(c)[i] != id {
        assert c[i] in c;
      }
    }
    forall id | HasKey(s.pending, id) && Lookup(s.pending, id).value.retryCount >= MAX_RETRIES
      ensures Lookup(after, id) == Lookup(s.pending, id)
    {
      forall i | 0 <= i < |c| ensures Keys(c)[i] != id {
        assert c[i] in c;
        LookupMember(s.pending, c[i]);
      }
    }
    forall k | 0 <= k < |c|
      ensures Lookup(after, c[k].key) ==
                if ReplayFails(CacheRun(s.shipments, c, replies, k), c[k].row, replies(k))
                then Some(Bumped(c[k].row)) else None
    {
      FailVectorAt(s.shipments, c, replies, |c|, k);
    }
  }

  /** Which replays fail, whatever the cache: an operation of unknown type never
      does, a failed request always does, and a successful update or delete
      never does (only re-keying a temporary row can clash). */
  lemma ReplayFailsCases(shipments: Shipments, op: Op, reply: Reply)
    ensures !KnownKind(op.kind) ==> !ReplayFails(shipments, op, reply)
    ensures KnownKind(op.kind) && reply.Failed? ==> ReplayFails(shipments, op, reply)
    ensures reply.Ok? && DataKind(op.kind) ==> !ReplayFails(shipments, op, reply)
  {
  }

  /** What the pass does to each kind of operation: an unknown type is dropped
      without a request, a failed request keeps the operation with one more
      retry, and a successful update or delete is dropped. */
  lemma ReplayOutcomes(s: Store, replies: nat -> Reply)
    requires UniqueKeys(s.pending)
    ensures var c := ReplayCandidates(s.pending, MAX_RETRIES);
            var after := PendingPass(s, replies).pending;
            (forall k :: 0 <= k < |c| && !KnownKind(c[k].row.kind) ==> !HasKey(after, c[k].key) && OpCall(c[k].row) == [])
            && (forall k :: 0 <= k < |c| && KnownKind(c[k].row.kind) && replies(k).Failed? ==>
                  Lookup(after, c[k].key) == Some(Bumped(c[k].row)))
            && (forall k :: 0 <= k < |c| && replies(k).Ok? && DataKind(c[k].row.kind) ==> !HasKey(after, c[k].key))
  {
    var c := ReplayCandidates(s.pending, MAX_RETRIES);
    var after := PendingPass(s, replies).pending;
    PendingPassSettles(s, replies);
    forall k | 0 <= k < |c| && !KnownKind(c[k].row.kind)
      ensures !HasKey(after, c[k].key) && OpCall(c[k].row) == []
    {
      ReplayFailsCases(CacheRun(s.shipments, c, replies, k), c[k].row, replies(k));
    }
    forall k | 0 <= k < |c| && KnownKind(c[k].row.kind) && replies(k).Failed?
      ensures Lookup(after, c[k].key) == Some(Bumped(c[k].row))
    {
      ReplayFailsCases(CacheRun(s.shipments, c, replies, k), c[k].row, replies(k));
    }
    forall k | 0 <= k < |c| && replies(k).Ok? && DataKind(c[k].row.kind)
      ensures !HasKey(after, c[k].key)
    {
      ReplayFailsCases(CacheRun(s.shipments, c, replies, k), c[k].row, replies(k));
    }
  }

  /** If every retry count starts within `MAX_RETRIES`, it stays within it:
      only candidates, which are below the limit, are bumped. */
  lemma RetryBound(s: Store, replies: nat -> Reply)
    requires UniqueKeys(s.pending)
    requires forall e :: e in s.pending ==> e.row.retryCount <= MAX_RETRIES
    ensures forall e :: e in PendingPass(s, replies).pending ==> e.row.retryCount <= MAX_RETRIES
  {
    var c := ReplayCandidates(s.pending, MAX_RETRIES);
    var after := PendingPass(s, replies).pending;
    PendingPassSettles(s, replies);
    forall e | e in after ensures e.row.retryCount <= MAX_RETRIES {
      LookupMember(after, e);
      assert HasKey(s.pending, e.key);
      var was := Lookup(s.pending, e.key).value;
      LookupFound(s.pending, e.key);
      if was.retryCount < MAX_RETRIES {
        assert Entry(e.key, was) in c;
        var k :| 0 <= k < |c| && c[k] == Entry(e.key, was);
        assert Lookup(after, c[k].key) == Some(e.row);
      } else {
        assert Lookup(after, e.key) == Some(was);
      }
    }
  }

  /** `record.synced = 0`. */
  predicate Unsynced(c: Cached) {
    !c.synced
  }

  /** `SELECT * FROM shipments WHERE synced = 0 LIMIT 20`: up to twenty
      unsynced rows. The query has no `ORDER BY`; this model takes them in
      table order. */
  function UnsyncedBatch(rows: Shipments): (b: Shipments)
    ensures |b| <= UNSYNCED_BATCH
    ensures forall e :: e in b ==> e in rows && !e.row.synced
    ensures |b| == if CountWhere(rows, Unsynced) <= UNSYNCED_BATCH then CountWhere(rows, Unsynced) else UNSYNCED_BATCH
    ensures CountWhere(rows, Unsynced) <= UNSYNCED_BATCH ==> forall e :: e in rows && !e.row.synced ==> e in b
    ensures (forall e :: e in rows ==> e.row.synced) ==> b == []
    ensures UniqueKeys(rows) ==> UniqueKeys(b)
  {
    var u := Where(rows, Unsynced);
    if |u| <= UNSYNCED_BATCH then u else u[..UNSYNCED_BATCH]
  }

  /** One iteration of the unsynced-records loop: POST the record; on success
      move the row to the id the cloud assigned, marked synced. A failed POST,
      or a move onto an id already cached, leaves the row as it was. */
  function SyncRecord(rows: Shipments, e: Entry<string, Cached>, reply: Reply): (r: Shipments)
    ensures reply.Failed? ==> r == rows
    ensures forall id :: HasKey(rows, id) && id != e.key ==> Lookup(r, id) == Lookup(rows, id)
    ensures reply.Ok? && HasKey(rows, e.key) && (reply.rec.id == e.key || !HasKey(rows, reply.rec.id)) ==>
              Lookup(r, reply.rec.id) == Some(Cached(reply.rec.body, true))
              && (reply.rec.id != e.key ==> !HasKey(r, e.key))
    ensures reply.Ok? && reply.rec.id != e.key && HasKey(rows, reply.rec.id) ==> r == rows
    ensures UniqueKeys(rows) ==> UniqueKeys(r)
  {
    if reply.Failed? then rows
    else
      match Rekey(rows, e.key, reply.rec.id, Cached(reply.rec.body, true))
      case None => rows
      case Some(r) => r
  }

  /** The cache after the first `n` records of `batch`, the k-th answered by `replies(k)`. */
  function SyncRecords(rows: Shipments, batch: Shipments, replies: nat -> Reply, n: nat): (r: Shipments)
    requires n <= |batch|
    ensures UniqueKeys(rows) ==> UniqueKeys(r)
  {
    if n == 0 then rows else SyncRecord(SyncRecords(rows, batch, replies, n - 1), batch[n - 1], replies(n - 1))
  }

  /** The POSTs the unsynced-records loop sends: one per record of the batch. */
  function RecordCalls(batch: Shipments, n: nat): (c: seq<Call>)
    requires n <= |batch|
    ensures |c| == n
    ensures forall k :: 0 <= k < n ==> c[k] == PostShipment(batch[k].row.data)
  {
    if n == 0 then [] else RecordCalls(batch, n - 1) + [PostShipment(batch[n - 1].row.data)]
  }

  /** `syncUnsyncedRecords` as a function of the cache and the replies. */
  function UnsyncedPass(rows: Shipments, replies: nat -> Reply): (r: Shipments)
    ensures UniqueKeys(rows) ==> UniqueKeys(r)
    ensures (forall e :: e in rows ==> e.row.synced) ==> r == rows
  {
    var b := UnsyncedBatch(rows);
    SyncRecords(rows, b, replies, |b|)
  }

  /** A cached id that none of the records from `lo` to `n` carries keeps the
      row it had after the first `lo` records. */
  lemma {:induction false} SyncRecordsKeep(rows: Shipments, b: Shipments, replies: nat -> Reply, lo: nat, n: nat, id: string)
    requires lo <= n <= |b| && HasKey(SyncRecords(rows, b, replies, lo), id)
    requires forall i :: lo <= i < n ==> b[i].key != id
    ensures Lookup(SyncRecords(rows, b, replies, n), id) == Lookup(SyncRecords(rows, b, replies, lo), id)
    decreases n - lo
  {
    if n != lo {
      SyncRecordsKeep(rows, b, replies, lo, n - 1, id);
      SyncRecordsSkips(rows, b, replies, n, id);
    }
  }

  /** A record of the batch whose POST failed keeps its row, when the records
      of the batch carry distinct keys. */
  lemma SyncRecordsFailed(rows: Shipments, b: Shipments, replies: nat -> Reply, n: nat, k: nat)
    requires UniqueKeys(b) && k < n <= |b| && replies(k).Failed?
    requires Lookup(rows, b[k].key) == Some(b[k].row)
    ensures Lookup(SyncRecords(rows, b, replies, n), b[k].key) == Some(b[k].row)
  {
    var key := b[k].key;
    assert SyncRecords(rows, b, replies, 0) == rows;
    forall i | 0 <= i < k ensures b[i].key != key {
      assert b[i].key != b[k].key;
    }
    SyncRecordsKeep(rows, b, replies, 0, k, key);
    SyncRecordsDropped(rows, b, replies, k);
    forall i | k + 1 <= i < n ensures b[i].key != key {
      assert b[k].key != b[i].key;
    }
    SyncRecordsKeep(rows, b, replies, k + 1, n, key);
  }

  /** The unsynced-records loop only touches the rows of its batch, and a
      record whose POST failed keeps its row. */
  lemma SyncRecordsEffect(rows: Shipments, b: Shipments, replies: nat -> Reply, n: nat)
    requires UniqueKeys(rows) && UniqueKeys(b) && n <= |b|
    requires forall e :: e in b ==> e in rows
    ensures forall id :: HasKey(rows, id) && id !in Keys(b)[..n] ==>
              Lookup(SyncRecords(rows, b, replies, n), id) == Lookup(rows, id)
    ensures forall k :: 0 <= k < n && replies(k).Failed? ==>
              Lookup(SyncRecords(rows, b, replies, n), b[k].key) == Some(b[k].row)
  {
    assert SyncRecords(rows, b, replies, 0) == rows;
    forall id | HasKey(rows, id) && id !in Keys(b)[..n]
      ensures Lookup(SyncRecords(rows, b, replies, n), id) == Lookup(rows, id)
    {
      forall i | 0 <= i < n ensures b[i].key != id {
        assert Keys(b)[..n][i] == b[i].key;
      }
      SyncRecordsKeep(rows, b, replies, 0, n, id);
    }
    forall k | 0 <= k < n && replies(k).Failed?
      ensures Lookup(SyncRecords(rows, b, replies, n), b[k].key) == Some(b[k].row)
    {
      assert b[k] in b;
      LookupMember(rows, b[k]);
      SyncRecordsFailed(rows, b, replies, n, k);
    }
  }

  /** One more record of the batch is one more step of the loop. */
  lemma SyncRecordsNext(rows: Shipments, b: Shipments, replies: nat -> Reply, m: nat)
    requires m < |b|
    ensures SyncRecords(rows, b, replies, m + 1) == SyncRecord(SyncRecords(rows, b, replies, m), b[m], replies(m))
  {
  }

  /** A record whose POST failed leaves the cache as it was. */
  lemma SyncRecordsDropped(rows: Shipments, b: Shipments, replies: nat -> Reply, m: nat)
    requires m < |b| && replies(m).Failed?
    ensures SyncRecords(rows, b, replies, m + 1) == SyncRecords(rows, b, replies, m)
  {
    assert SyncRecords(rows, b, replies, m + 1) == SyncRecord(SyncRecords(rows, b, replies, m), b[m], replies(m));
  }

  /** Syncing one more record of another key leaves a cached id's row alone. */
  lemma SyncRecordsSkips(rows: Shipments, b: Shipments, replies: nat -> Reply, n: nat, id: string)
    requires 0 < n <= |b| && b[n - 1].key != id && HasKey(SyncRecords(rows, b, replies, n - 1), id)
    ensures Lookup(SyncRecords(rows, b, replies, n), id) == Lookup(SyncRecords(rows, b, replies, n - 1), id)
  {
    assert SyncRecords(rows, b, replies, n) == SyncRecord(SyncRecords(rows, b, replies, n - 1), b[n - 1], replies(n - 1));
  }

  /** The effect of the unsynced-records pass: synced rows and rows beyond the
      batch stay as they were, and so does every record whose POST failed. */
  lemma UnsyncedPassEffect(rows: Shipments, replies: nat -> Reply)
    requires UniqueKeys(rows)
    ensures var b := UnsyncedBatch(rows);
            var r := UnsyncedPass(rows, replies);
            (forall id :: HasKey(rows, id) && id !in Keys(b) ==> Lookup(r, id) == Lookup(rows, id))
            && (forall id :: HasKey(rows, id) && Lookup(rows, id).value.synced ==> Lookup(r, id) == Lookup(rows, id))
            && (forall k :: 0 <= k < |b| && replies(k).Failed? ==> Lookup(r, b[k].key) == Some(b[k].row))
  {
    var b := UnsyncedBatch(rows);
    SyncRecordsEffect(rows, b, replies, |b|);
    var full := Keys(b)[..|b|];
    forall id | id !in Keys(b) ensures id !in full {
      forall i | 0 <= i < |b| ensures full[i] != id {
        assert full[i] == Keys(b)[i];
      }
    }
    forall id | HasKey(rows, id) && Lookup(rows, id).value.synced ensures id !in Keys(b) {
      forall i | 0 <= i < |b| ensures Keys(b)[i] != id {
        assert b[i] in b;
        LookupMember(rows, b[i]);
      }
    }
  }

  /** A whole pass once the cloud answered the probe: replay, then push unsynced rows. */
  function FullPass(s: Store, replayReplies: nat -> Reply, recordReplies: nat -> Reply): (r: Store)
    ensures UniqueKeys(s.pending) ==> UniqueKeys(r.pending)
    ensures UniqueKeys(s.shipments) ==> UniqueKeys(r.shipments)
    ensures r.pending == PendingPass(s, replayReplies).pending
  {
    var s1 := PendingPass(s, replayReplies);
    Store(s1.pending, UnsyncedPass(s1.shipments, recordReplies))
  }

  /** The requests a whole pass sends, in order: at most one per operation
      below the retry limit, then at most one per unsynced record of the
      batch. */
  function PassCalls(s: Store, replayReplies: nat -> Reply): (c: seq<Call>)
    ensures |c| <= |ReplayCandidates(s.pending, MAX_RETRIES)| + UNSYNCED_BATCH
  {
    var c := ReplayCandidates(s.pending, MAX_RETRIES);
    var b := UnsyncedBatch(PendingPass(s, replayReplies).shipments);
    ReplayCalls(c, |c|) + RecordCalls(b, |b|)
  }

  /** With nothing below the retry limit and nothing unsynced, a pass sends
      nothing and changes nothing. */
  lemma QuietPass(s: Store, replayReplies: nat -> Reply, recordReplies: nat -> Reply)
    requires forall e :: e in s.pending ==> e.row.retryCount >= MAX_RETRIES
    requires forall e :: e in s.shipments ==> e.row.synced
    ensures FullPass(s, replayReplies, recordReplies) == s
    ensures PassCalls(s, replayReplies) == []
  {
    assert PendingPass(s, replayReplies) == s;
  }

  /** How `syncAll` ended. */
  datatype SyncOutcome = Skipped | AbortedOffline | SyncFailed(message: string) | Completed

  /** The object `getSyncStatus` returns. */
  datatype SyncStatus = SyncStatus(cloudOnline: bool, pendingOperations: nat, unsyncedRecords: nat,
                                   lastSyncTime: Option<nat>, isSyncing: bool)

  /** The number of cached shipments the cloud does not have yet. */
  function UnsyncedCount(rows: Shipments): (n: nat)
    ensures n <= |rows|
    ensures n == 0 <==> forall e :: e in rows ==> e.row.synced
  {
    var u := Where(rows, Unsynced);
    assert u != [] ==> u[0] in u;
    |u|
  }

  class SyncManager {
    const db: LocalDatabase
    var isSyncing: bool
    /** The clock reading (ms) of the last completed pass. */
    var lastSyncTime: Option<nat>

    constructor(db: LocalDatabase)
      ensures this.db == db && !isSyncing && lastSyncTime == None
    {
      this.db := db;
      isSyncing := false;
      lastSyncTime := None;
    }

    /** `syncAll`. `probe` is the answer to GET /health; `storeFault` a failure of
        the local database that aborts the pass before it changes anything;
        `replayReplies` and `recordReplies` answer the requests of the two loops;
        `now` is the clock when the pass completes. */
    method SyncAll(probe: Probe, storeFault: Option<string>, replayReplies: nat -> Reply,
                   recordReplies: nat -> Reply, now: nat) returns (outcome: SyncOutcome, calls: seq<Call>)
      requires db.Valid()
      modifies this, db
      ensures db.Valid()
      ensures isSyncing == old(isSyncing)
      ensures old(isSyncing) ==> outcome == Skipped
      ensures !old(isSyncing) && !CloudAvailable(probe) ==> outcome == AbortedOffline
      ensures !old(isSyncing) && CloudAvailable(probe) && storeFault.Some? ==> outcome == SyncFailed(storeFault.value)
      ensures !old(isSyncing) && CloudAvailable(probe) && storeFault.None? ==> outcome == Completed
      ensures outcome != Completed ==> calls == [] && db.State() == old(db.State()) && lastSyncTime == old(lastSyncTime)
      ensures outcome == Completed ==>
                db.State() == FullPass(old(db.State()), replayReplies, recordReplies)
                && calls == PassCalls(old(db.State()), replayReplies)
                && lastSyncTime == Some(now)
      ensures db.nextOpId == old(db.nextOpId) && db.drivers == old(db.drivers) && db.vehicles == old(db.vehicles)
    {
      calls := [];
      if isSyncing {
        outcome := Skipped;
        return;
      }
      isSyncing := true;
      if !CloudAvailable(probe) {
        outcome := AbortedOffline;
      } else if storeFault.Some? {
        outcome := SyncFailed(storeFault.value);
      } else {
        ghost var s0 := db.State();
        var replayed := SyncPendingOperations(replayReplies);
        var pushed := SyncUnsyncedRecords(recordReplies);
        calls := replayed + pushed;
        lastSyncTime := Some(now);
        outcome := Completed;
      }
      isSyncing := false;
    }

    /** `syncPendingOperations`: replays every candidate, oldest first. */
    method SyncPendingOperations(replies: nat -> Reply) returns (calls: seq<Call>)
      requires db.Valid()
      modifies db
      ensures db.Valid()
      ensures db.State() == PendingPass(old(db.State()), replies)
      ensures var c := ReplayCandidates(old(db.pending), MAX_RETRIES); calls == ReplayCalls(c, |c|)
      ensures db.nextOpId == old(db.nextOpId) && db.drivers == old(db.drivers) && db.vehicles == old(db.vehicles)
    {
      var pending := ReplayCandidates(db.pending, MAX_RETRIES);
      ghost var s0 := db.State();
      ghost var fails := FailVector(s0.shipments, pending, replies, |pending|);
      calls := [];
      for i := 0 to |pending|
        invariant db.Valid()
        invariant db.pending == SettleAll(s0.pending, pending, fails, i)
        invariant db.shipments == CacheRun(s0.shipments, pending, replies, i)
        invariant calls == ReplayCalls(pending, i)
        invariant db.nextOpId == old(db.nextOpId) && db.drivers == old(db.drivers) && db.vehicles == old(db.vehicles)
      {
        FailVectorAt(s0.shipments, pending, replies, |pending|, i);
        var sent := ReplayOne(pending[i], replies(i));
        calls := calls + sent;
      }
    }

    /** The body of the replay loop for one operation. */
    method ReplayOne(e: Entry<nat, Op>, reply: Reply) returns (sent: seq<Call>)
      requires db.Valid()
      modifies db
      ensures db.Valid()
      ensures db.pending == Settle(old(db.pending), e.key, ReplayFails(old(db.shipments), e.row, reply))
      ensures db.shipments == CacheStep(old(db.shipments), e.row, reply)
      ensures sent == OpCall(e.row)
      ensures db.nextOpId == old(db.nextOpId) && db.drivers == old(db.drivers) && db.vehicles == old(db.vehicles)
    {
      var op := e.row;
      var data := op.data;
      var failed := false;
      if op.kind.CreateKind? {
        sent := [PostShipment(data)];
        if reply.Failed? {
          failed := true;
        } else if Truthy(Field(data, "tempId")) {
          match SqlText(Field(data, "tempId")) {
            case Some(temp) =>
              var ok := db.RekeyShipment(temp, reply.rec.id, Cached(reply.rec.body, true));
              failed := !ok;
            case None =>
          }
        }
      } else if op.kind.UpdateKind? {
        sent := [PutShipment(Field(data, "id"), data)];
        if reply.Failed? {
          failed := true;
        } else {
          match SqlText(Field(data, "id")) {
            case Some(id) => db.UpdateShipment(id, Cached(reply.rec.body, true));
            case None =>
          }
        }
      } else if op.kind.DeleteKind? {
        sent := [DeleteShipment(Field(data, "id"))];
        if reply.Failed? {
          failed := true;
        } else {
          match SqlText(Field(data, "id")) {
            case Some(id) => db.DeleteShipment(id);
            case None =>
          }
        }
      } else {
        sent := [];
      }
      if failed {
        db.BumpRetryCount(e.key);
      } else {
        db.DeleteOp(e.key);
      }
    }

    /** `syncUnsyncedRecords`: pushes the batch of unsynced rows, one POST each. */
    method SyncUnsyncedRecords(replies: nat -> Reply) returns (calls: seq<Call>)
      requires db.Valid()
      modifies db
      ensures db.Valid()
      ensures db.shipments == UnsyncedPass(old(db.shipments), replies)
      ensures var b := UnsyncedBatch(old(db.shipments)); calls == RecordCalls(b, |b|)
      ensures db.pending == old(db.pending) && db.nextOpId == old(db.nextOpId)
      ensures db.drivers == old(db.drivers) && db.vehicles == old(db.vehicles)
    {
      var unsynced := UnsyncedBatch(db.shipments);
      ghost var rows0 := db.shipments;
      calls := [];
      for i := 0 to |unsynced|
        invariant db.Valid()
        invariant db.shipments == SyncRecords(rows0, unsynced, replies, i)
        invariant calls == RecordCalls(unsynced, i)
        invariant db.pending == old(db.pending) && db.nextOpId == old(db.nextOpId)
        invariant db.drivers == old(db.drivers) && db.vehicles == old(db.vehicles)
      {
        var record := unsynced[i];
        calls := calls + [PostShipment(record.row.data)];
        SyncOne(record, replies(i));
        SyncRecordsNext(rows0, unsynced, replies, i);
      }
    }

    /** One record of the unsynced-records loop, once its POST has answered. */
    method SyncOne(record: Entry<string, Cached>, reply: Reply)
      requires db.Valid()
      modifies db
      ensures db.Valid()
      ensures db.shipments == SyncRecord(old(db.shipments), record, reply)
      ensures db.pending == old(db.pending) && db.nextOpId == old(db.nextOpId)
      ensures db.drivers == old(db.drivers) && db.vehicles == old(db.vehicles)
    {
      if reply.Ok? {
        var _ := db.RekeyShipment(record.key, reply.rec.id, Cached(reply.rec.body, true));
      }
    }

    /** `getSyncStatus`; `probe` answers its availability check. */
    method GetSyncStatus(probe: Probe) returns (status: SyncStatus)
      ensures status.cloudOnline <==> CloudAvailable(probe)
      ensures status.pendingOperations == |db.pending|
      ensures status.unsyncedRecords == UnsyncedCount(db.shipments)
      ensures status.lastSyncTime == lastSyncTime && status.isSyncing == isSyncing
    {
      status := SyncStatus(CloudAvailable(probe), |db.pending|, UnsyncedCount(db.shipments), lastSyncTime, isSyncing);
    }
  }
}
