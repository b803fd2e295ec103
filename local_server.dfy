/**
 * The local API server: a request façade in front of the cloud function that
 * answers from the SQLite cache and queues writes while the cloud is
 * unreachable, its own connectivity probe, and its own replay loop (distinct
 * from the one in `SyncManager`). Remote answers are parameters; so are the
 * clock readings (`now` in milliseconds, `nowIso` its ISO rendering).
 */
module LocalServer {
  import opened Wrappers
  import opened Json
  import opened Tables
  import opened Remote
  import opened Http
  import opened LocalStore
  import opened Sync

  /** The default `YC_FUNCTIONS_URL`: no cloud function is configured. */
  const PLACEHOLDER_URL: string := "https://functions.yandexcloud.net/your-function-id"

  /** The `LIMIT` of the local replay query. */
  const LOCAL_BATCH: nat := 10

  const CREATE_QUEUED: string := "Operation queued for synchronization"
  const UPDATE_QUEUED: string := "Update queued for synchronization"

  /** `cloudStatus`: the verdict of the last probe and when it ran. */
  datatype CloudStatus = CloudStatus(online: bool, lastCheck: nat)

  /** `checkCloudConnection`'s verdict: any HTTP answer, an error status
      included, means the function is up; only a missing answer means offline. */
  predicate ProbeOnline(p: Probe)
    ensures p.HttpError? ==> ProbeOnline(p)
  {
    !p.NoResponse?
  }

  /** The two probes of the system disagree exactly on HTTP error answers,
      which the local server counts as online and `SyncManager` as offline. */
  lemma ProbesDiffer(p: Probe)
    ensures CloudAvailable(p) ==> ProbeOnline(p)
    ensures ProbeOnline(p) && !CloudAvailable(p) <==> p.HttpError?
  {
  }

  /** The answer of GET /api/shipments: the cloud's list, or the cache
      (`offline: true`) with the error of the failed request, if there was one. */
  datatype ShipmentList = Fresh(records: seq<Payload>) | FromCache(data: seq<Payload>, error: Option<string>)

  /** The answer of GET /api/health. */
  datatype Health = Health(status: string, cloudStatus: CloudStatus, timestamp: nat)

  /** The answer of GET /api/sync/status. */
  datatype LocalSyncStatus = LocalSyncStatus(cloudOnline: bool, pendingOperations: nat, unsyncedRecords: nat, lastCheck: nat)

  /** The parsed `data` of every row of a table, in table order. */
  function RowData<R>(t: Table<string, R>, data: R -> Payload): (d: seq<Payload>)
    ensures |d| == |t|
    ensures forall i :: 0 <= i < |t| ==> d[i] == data(t[i].row)
  {
    seq(|t|, i requires 0 <= i < |t| => data(t[i].row))
  }

  /** The bodies of fetched records, in order. */
  function Bodies(rs: seq<Record>): (b: seq<Payload>)
    ensures |b| == |rs|
    ensures forall i :: 0 <= i < |rs| ==> b[i] == rs[i].body
  {
    seq(|rs|, i requires 0 <= i < |rs| => rs[i].body)
  }

  /** The cache after `INSERT OR REPLACE ... synced = 1` of the first `n` fetched records. */
  function CacheAll(t: Shipments, rs: seq<Record>, n: nat): (r: Shipments)
    requires n <= |rs|
    ensures UniqueKeys(t) ==> UniqueKeys(r)
  {
    if n == 0 then t else Upsert(CacheAll(t, rs, n - 1), rs[n - 1].id, Cached(rs[n - 1].body, true))
  }

  /** An id the first `n` fetched records do not carry keeps its cached row. */
  lemma {:induction false} CacheAllUntouched(t: Shipments, rs: seq<Record>, n: nat, id: string)
    requires n <= |rs|
    requires forall k :: 0 <= k < n ==> rs[k].id != id
    ensures Lookup(CacheAll(t, rs, n), id) == Lookup(t, id)
  {
    if n != 0 {
      CacheAllUntouched(t, rs, n - 1, id);
      CacheAllSkips(t, rs, n, id);
    }
  }

  /** Caching one more record of another id leaves the id's row alone. */
  lemma CacheAllSkips(t: Shipments, rs: seq<Record>, n: nat, id: string)
    requires 0 < n <= |rs| && rs[n - 1].id != id
    ensures Lookup(CacheAll(t, rs, n), id) == Lookup(CacheAll(t, rs, n - 1), id)
  {
    UpsertOther(CacheAll(t, rs, n - 1), rs[n - 1].id, Cached(rs[n - 1].body, true), id);
  }

  /** The k-th fetched record is cached, marked synced, unless a later one has its id. */
  lemma {:induction false} CacheAllLatest(t: Shipments, rs: seq<Record>, n: nat, k: nat)
    requires k < n <= |rs|
    requires forall j :: k < j < n ==> rs[j].id != rs[k].id
    ensures Lookup(CacheAll(t, rs, n), rs[k].id) == Some(Cached(rs[k].body, true))
  {
    if k == n - 1 {
      assert CacheAll(t, rs, n) == Upsert(CacheAll(t, rs, n - 1), rs[k].id, Cached(rs[k].body, true));
    } else {
      CacheAllLatest(t, rs, n - 1, k);
      CacheAllSkips(t, rs, n, rs[k].id);
    }
  }

  /** Caching a fetched list: an id the list does not carry keeps its row, and
      an id it carries holds the last record with that id, marked synced. */
  lemma CacheAllEffect(t: Shipments, rs: seq<Record>)
    ensures forall id :: (forall k :: 0 <= k < |rs| ==> rs[k].id != id) ==>
              Lookup(CacheAll(t, rs, |rs|), id) == Lookup(t, id)
    ensures forall k :: 0 <= k < |rs| && (forall j :: k < j < |rs| ==> rs[j].id != rs[k].id) ==>
              Lookup(CacheAll(t, rs, |rs|), rs[k].id) == Some(Cached(rs[k].body, true))
  {
    forall id | forall k :: 0 <= k < |rs| ==> rs[k].id != id
      ensures Lookup(CacheAll(t, rs, |rs|), id) == Lookup(t, id)
    {
      CacheAllUntouched(t, rs, |rs|, id);
    }
    forall k | 0 <= k < |rs| && (forall j :: k < j < |rs| ==> rs[j].id != rs[k].id)
      ensures Lookup(CacheAll(t, rs, |rs|), rs[k].id) == Some(Cached(rs[k].body, true))
    {
      CacheAllLatest(t, rs, |rs|, k);
    }
  }

  /** `{ id: shipId, ...req.body, createdAt }`: a field `id` of the body wins
      over the minted id. */
  function QueuedShipment(shipId: string, body: Payload, createdAt: string): (d: Payload)
    ensures Field(d, "createdAt") == Str(createdAt)
    ensures Field(d, "id") == if "id" in body then body["id"] else Str(shipId)
    ensures forall k :: k in body && k != "createdAt" ==> Field(d, k) == body[k]
    ensures forall k :: k in d <==> k in body || k == "id" || k == "createdAt"
  {
    (map["id" := Str(shipId)] + body)["createdAt" := Str(createdAt)]
  }

  /** `{ ...data, status: 'queued', message, offline: true }`. */
  function QueuedAnswer(data: Payload, message: string): (b: Payload)
    ensures Field(b, "status") == Str("queued") && Field(b, "message") == Str(message) && Field(b, "offline") == Bool(true)
    ensures forall k :: k in data && k != "status" && k != "message" && k != "offline" ==> Field(b, k) == data[k]
  {
    data["status" := Str("queued")]["message" := Str(message)]["offline" := Bool(true)]
  }

  /** The queued answer (status 200) of a create hands back the id under which the
      shipment was queued: the body's own `id` when it has one, otherwise the
      minted one. */
  lemma QueuedCreateAnswer(shipId: string, body: Payload, createdAt: string)
    ensures var d := QueuedShipment(shipId, body, createdAt);
            Field(QueuedAnswer(d, CREATE_QUEUED), "id") == Field(d, "id")
            && Field(QueuedAnswer(d, CREATE_QUEUED), "id") == if "id" in body then body["id"] else Str(shipId)
  {
  }

  /** The body of PUT /api/drivers/:id and /api/vehicles/:id: the request body
      with `updated_at` set. */
  function EntityRow(body: Payload, nowIso: string): (d: Payload)
    ensures Field(d, "updated_at") == Str(nowIso)
    ensures forall k :: k in body && k != "updated_at" ==> Field(d, k) == body[k]
  {
    body["updated_at" := Str(nowIso)]
  }

  /** Replaying a lone queued create whose POST succeeds, and which names no
      cached row as its temporary id, sends that POST, empties the queue and
      leaves the cache alone. */
  lemma LoneCreateReplayed(e: Entry<nat, Op>, shipments: Shipments, replay: nat -> Reply)
    requires e.row.kind.CreateKind? && e.row.retryCount < MAX_RETRIES
    requires TempKey(e.row).None? || !HasKey(shipments, TempKey(e.row).value)
    requires replay(0).Ok?
    ensures var c := ReplayCandidates([e], MAX_RETRIES);
            ReplayCalls(c, |c|) == [PostShipment(e.row.data)]
            && PendingPass(Store([e], shipments), replay) == Store([], shipments)
  {
    var c := ReplayCandidates([e], MAX_RETRIES);
    assert e in c;
    assert c == [e];
    assert !ReplayFails(shipments, e.row, replay(0));
    assert CacheRun(shipments, c, replay, 1) == shipments;
    assert FailVector(shipments, c, replay, 1) == [false];
    assert SettleAll([e], c, [false], 1) == Delete([e], e.key);
  }

  /** A create whose `tempId` is not the key of the one cached row names no
      cached row. */
  lemma TempFree(data: Payload, shipId: string, createdAt: nat)
    requires Field(data, "tempId") != Str(shipId)
    ensures var op := Op(CreateKind, data, 0, createdAt);
            TempKey(op).None? || !HasKey([Entry(shipId, Cached(data, false))], TempKey(op).value)
  {
    var op := Op(CreateKind, data, 0, createdAt);
    var rows := [Entry(shipId, Cached(data, false))];
    if TempKey(op).Some? {
      var temp := TempKey(op).value;
      assert rows[0].key != temp && rows[1..] == [];
      assert Lookup(rows, temp) == Lookup(rows[1..], temp) == None;
    }
  }

  /** A create queued beside its own unsynced cached row, with no `tempId`
      naming that row, is posted twice by one pass whose replay succeeds. */
  lemma CreatePostedTwice(data: Payload, shipId: string, opId: nat, createdAt: nat, replay: nat -> Reply)
    requires Field(data, "tempId") != Str(shipId)
    requires replay(0).Ok?
    ensures var s := Store([Entry(opId, Op(CreateKind, data, 0, createdAt))], [Entry(shipId, Cached(data, false))]);
            PassCalls(s, replay) == [PostShipment(data), PostShipment(data)]
            && PendingPass(s, replay) == Store([], s.shipments)
  {
    var e := Entry(opId, Op(CreateKind, data, 0, createdAt));
    var rows := [Entry(shipId, Cached(data, false))];
    var s := Store([e], rows);
    TempFree(data, shipId, createdAt);
    LoneCreateReplayed(e, rows, replay);
    LoneUnsyncedPosted(shipId, data);
    var c := ReplayCandidates(s.pending, MAX_RETRIES);
    assert PendingPass(s, replay).shipments == rows;
    assert PassCalls(s, replay) == ReplayCalls(c, |c|) + RecordCalls(UnsyncedBatch(rows), 1);
  }

  /** A queued create is posted twice. The server queues `{ id, ...body,
      createdAt }` and adds no `tempId` of its own; unless the client's body
      carries one naming the cached row, replaying the create never re-keys
      that row, which stays unsynced, and the unsynced-records phase of the
      same pass posts the same data again. */
  lemma QueuedCreatePostedTwice(body: Payload, shipId: string, createdAtIso: string, opId: nat, createdAt: nat,
                                replay: nat -> Reply)
    requires Field(body, "tempId") != Str(shipId)
    requires replay(0).Ok?
    ensures var data := QueuedShipment(shipId, body, createdAtIso);
            var s := Store([Entry(opId, Op(CreateKind, data, 0, createdAt))], [Entry(shipId, Cached(data, false))]);
            PassCalls(s, replay) == [PostShipment(data), PostShipment(data)]
            && PendingPass(s, replay) == Store([], s.shipments)
  {
    var data := QueuedShipment(shipId, body, createdAtIso);
    assert Field(data, "tempId") == Field(body, "tempId");
    CreatePostedTwice(data, shipId, opId, createdAt, replay);
  }

  /** A cache holding one unsynced row posts that row's data, once. */
  lemma LoneUnsyncedPosted(id: string, data: Payload)
    ensures var rows := [Entry(id, Cached(data, false))];
            |UnsyncedBatch(rows)| == 1 && RecordCalls(UnsyncedBatch(rows), 1) == [PostShipment(data)]
  {
    var rows := [Entry(id, Cached(data, false))];
    var b := UnsyncedBatch(rows);
    assert rows[0] in b;
    assert b == rows;
  }

  /** The first ten queued operations, in table order (the query has no `ORDER BY`). */
  function LocalBatch(t: Pending): (b: Pending)
    ensures |b| == if |t| <= LOCAL_BATCH then |t| else LOCAL_BATCH
    ensures forall k :: 0 <= k < |b| ==> b[k] == t[k]
  {
    if |t| <= LOCAL_BATCH then t else t[..LOCAL_BATCH]
  }

  /** A local replay fails exactly when its request fails; only creates and
      updates send one. */
  predicate LocalFails(op: Op, reply: Reply) {
    (op.kind.CreateKind? || op.kind.UpdateKind?) && reply.Failed?
  }

  /** The request the local loop sends for `op`: deletes and unknown types send none. */
  function LocalCall(op: Op): (c: seq<Call>)
    ensures |c| == if op.kind.CreateKind? || op.kind.UpdateKind? then 1 else 0
    ensures op.kind.CreateKind? ==> c == [PostShipment(op.data)]
    ensures op.kind.UpdateKind? ==> c == [PutShipment(Field(op.data, "id"), op.data)]
  {
    match op.kind
    case CreateKind => [PostShipment(op.data)]
    case UpdateKind => [PutShipment(Field(op.data, "id"), op.data)]
    case _ => []
  }

  /** Which of the first `n` operations of the batch fail. */
  function LocalFailVector(b: Pending, replies: nat -> Reply, n: nat): (f: seq<bool>)
    requires n <= |b|
    ensures |f| == n
    ensures forall k :: 0 <= k < n ==> f[k] == LocalFails(b[k].row, replies(k))
  {
    if n == 0 then [] else LocalFailVector(b, replies, n - 1) + [LocalFails(b[n - 1].row, replies(n - 1))]
  }

  /** The requests of the first `n` operations of the batch, in order. */
  function LocalCalls(b: Pending, n: nat): (c: seq<Call>)
    requires n <= |b|
    ensures |c| <= n
  {
    if n == 0 then [] else LocalCalls(b, n - 1) + LocalCall(b[n - 1].row)
  }

  /** The local replay loop as a function of the queue and the replies. */
  function LocalPass(t: Pending, replies: nat -> Reply): (r: Pending)
    ensures UniqueKeys(t) ==> UniqueKeys(r)
  {
    var b := LocalBatch(t);
    SettleAll(t, b, LocalFailVector(b, replies, |b|), |b|)
  }

  /** The local replay settles exactly the first ten operations, whatever their
      retry count: each is gone unless its request failed, and then has one
      more retry. No operation is added and the rest keep their rows. */
  lemma LocalPassEffect(t: Pending, replies: nat -> Reply)
    requires UniqueKeys(t)
    ensures var after := LocalPass(t, replies);
            (forall id :: !HasKey(t, id) ==> !HasKey(after, id))
            && (forall k :: LOCAL_BATCH <= k < |t| ==> Lookup(after, t[k].key) == Some(t[k].row))
            && (forall k :: 0 <= k < |t| && k < LOCAL_BATCH ==>
                  Lookup(after, t[k].key) == if LocalFails(t[k].row, replies(k)) then Some(Bumped(t[k].row)) else None)
  {
    var b := LocalBatch(t);
    var after := LocalPass(t, replies);
    assert UniqueKeys(b) by {
      forall i, j | 0 <= i < j < |b| ensures b[i].key != b[j].key {
        assert b[i] == t[i] && b[j] == t[j];
      }
    }
    forall e | e in b ensures e in t {
      var i :| 0 <= i < |b| && b[i] == e;
      assert t[i] == e;
    }
    SettleEffect(t, b, LocalFailVector(b, replies, |b|));
    forall id | !HasKey(t, id) ensures !HasKey(after, id) {
      AbsentKey(t, id);
      forall i | 0 <= i < |b| ensures Keys(b)[i] != id {
        assert b[i] == t[i] && t[i] in t;
      }
    }
    forall k | LOCAL_BATCH <= k < |t| ensures Lookup(after, t[k].key) == Some(t[k].row) {
      forall i | 0 <= i < |b| ensures Keys(b)[i] != t[k].key {
        assert b[i] == t[i];
      }
      assert t[k] in t;
      LookupMember(t, t[k]);
    }
    forall k | 0 <= k < |t| && k < LOCAL_BATCH
      ensures Lookup(after, t[k].key) == if LocalFails(t[k].row, replies(k)) then Some(Bumped(t[k].row)) else None
    {
      assert b[k] == t[k];
    }
  }

  /** Unlike `SyncManager`'s, the local loop has no retry filter: an operation
      already at `MAX_RETRIES` whose request fails again goes past the limit. */
  lemma LocalPassExceedsRetries(t: Pending, replies: nat -> Reply)
    requires UniqueKeys(t) && t != []
    requires t[0].row.retryCount == MAX_RETRIES && t[0].row.kind.CreateKind? && replies(0).Failed?
    ensures Lookup(LocalPass(t, replies), t[0].key) == Some(Bumped(t[0].row))
    ensures Lookup(LocalPass(t, replies), t[0].key).value.retryCount == MAX_RETRIES + 1
  {
    LocalPassEffect(t, replies);
  }

  class LocalServer {
    const db: LocalDatabase
    /** `config.YC_FUNCTIONS_URL`. */
    const functionsUrl: string
    var cloudStatus: CloudStatus

    /** The server starts out assuming the cloud is online. */
    constructor(db: LocalDatabase, functionsUrl: string, now: nat)
      ensures this.db == db && this.functionsUrl == functionsUrl
      ensures cloudStatus == CloudStatus(true, now)
    {
      this.db := db;
      this.functionsUrl := functionsUrl;
      cloudStatus := CloudStatus(true, now);
    }

    /** Whether a create is sent to the cloud at all. */
    predicate CreatesRemotely()
      reads this
    {
      cloudStatus.online && functionsUrl != PLACEHOLDER_URL
    }

    /** `checkCloudConnection`; `probe` is the outcome of GET on the function URL. */
    method CheckCloudConnection(probe: Probe, now: nat)
      modifies this
      ensures cloudStatus == CloudStatus(ProbeOnline(probe), now)
    {
      if probe.Answered? {
        cloudStatus := CloudStatus(true, now);
      } else if probe.HttpError? {
        cloudStatus := CloudStatus(true, now);
      } else {
        cloudStatus := CloudStatus(false, now);
      }
    }

    /** GET /api/health. */
    method GetHealth(now: nat) returns (h: Health)
      ensures h.status == "ok" && h.cloudStatus == cloudStatus && h.timestamp == now
    {
      h := Health("ok", cloudStatus, now);
    }

    /** GET /api/shipments; `reply` answers GET /shipments when one is sent. */
    method GetShipments(reply: ListReply) returns (answer: ShipmentList, calls: seq<Call>)
      requires db.Valid()
      modifies db
      ensures db.Valid()
      ensures calls == if cloudStatus.online then [ListShipments] else []
      ensures cloudStatus.online && reply.Listed? ==>
                answer == Fresh(Bodies(reply.records))
                && db.shipments == CacheAll(old(db.shipments), reply.records, |reply.records|)
      ensures cloudStatus.online && reply.ListFailed? ==>
                answer == FromCache(RowData(old(db.shipments), (c: Cached) => c.data), Some(reply.message)) && db.shipments == old(db.shipments)
      ensures !cloudStatus.online ==> answer == FromCache(RowData(old(db.shipments), (c: Cached) => c.data), None) && db.shipments == old(db.shipments)
      ensures db.pending == old(db.pending) && db.nextOpId == old(db.nextOpId)
      ensures db.drivers == old(db.drivers) && db.vehicles == old(db.vehicles)
    {
      calls := [];
      if cloudStatus.online {
        calls := [ListShipments];
        match reply {
          case Listed(records) =>
            ghost var rows0 := db.shipments;
            for i := 0 to |records|
              invariant db.Valid()
              invariant db.shipments == CacheAll(rows0, records, i)
              invariant db.pending == old(db.pending) && db.nextOpId == old(db.nextOpId)
              invariant db.drivers == old(db.drivers) && db.vehicles == old(db.vehicles)
            {
              db.UpsertShipment(records[i].id, Cached(records[i].body, true));
            }
            answer := Fresh(Bodies(records));
          case ListFailed(message) =>
            answer := FromCache(RowData(db.shipments, (c: Cached) => c.data), Some(message));
        }
      } else {
        answer := FromCache(RowData(db.shipments, (c: Cached) => c.data), None);
      }
    }

    /** POST /api/shipments. `reply` answers the POST to the cloud when one is
        sent; `now` mints the local id and, in seconds, stamps the operation. */
    method CreateShipment(body: Payload, reply: Reply, now: nat, nowIso: string) returns (resp: Response, calls: seq<Call>)
      requires db.Valid()
      modifies db
      ensures db.Valid()
      ensures calls == if CreatesRemotely() then [PostShipment(body)] else []
      ensures CreatesRemotely() && reply.Ok? ==>
                resp == Success(Obj(reply.rec.body))
                && db.shipments == Upsert(old(db.shipments), reply.rec.id, Cached(reply.rec.body, true))
                && db.pending == old(db.pending) && db.nextOpId == old(db.nextOpId)
      ensures !(CreatesRemotely() && reply.Ok?) ==>
                var shipId := MintId("SHIP-", now);
                var data := QueuedShipment(shipId, body, nowIso);
                db.pending == old(db.pending) + [Entry(old(db.nextOpId), Op(CreateKind, data, 0, now / 1000))]
                && db.nextOpId == old(db.nextOpId) + 1
                && db.shipments == Upsert(old(db.shipments), shipId, Cached(data, false))
                && resp == Success(Obj(QueuedAnswer(data, CREATE_QUEUED)))
      ensures db.drivers == old(db.drivers) && db.vehicles == old(db.vehicles)
    {
      calls := [];
      if cloudStatus.online && functionsUrl != PLACEHOLDER_URL {
        calls := [PostShipment(body)];
        if reply.Ok? {
          db.UpsertShipment(reply.rec.id, Cached(reply.rec.body, true));
          resp := Success(Obj(reply.rec.body));
          return;
        }
      }
      var shipId := MintId("SHIP-", now);
      var data := QueuedShipment(shipId, body, nowIso);
      var _ := db.InsertOp(CreateKind, data, now / 1000);
      db.UpsertShipment(shipId, Cached(data, false));
      resp := Success(Obj(QueuedAnswer(data, CREATE_QUEUED)));
    }

    /** PUT /api/shipments/:id. Online, a failed request answers 500 and queues
        nothing; offline, the update is queued and the cache is left alone. */
    method UpdateShipment(id: string, body: Payload, reply: Reply, now: nat) returns (resp: Response, calls: seq<Call>)
      requires db.Valid()
      modifies db
      ensures db.Valid()
      ensures cloudStatus.online ==>
                calls == [PutShipment(Str(id), body)] && db.pending == old(db.pending) && db.nextOpId == old(db.nextOpId)
      ensures cloudStatus.online && reply.Ok? ==>
                resp == Success(Obj(reply.rec.body)) && db.shipments == Upsert(old(db.shipments), id, Cached(reply.rec.body, true))
      ensures cloudStatus.online && reply.Failed? ==>
                resp == ServerError(reply.message) && db.shipments == old(db.shipments)
      ensures !cloudStatus.online ==>
                calls == [] && db.shipments == old(db.shipments)
                && db.pending == old(db.pending) + [Entry(old(db.nextOpId), Op(UpdateKind, map["id" := Str(id)] + body, 0, now / 1000))]
                && db.nextOpId == old(db.nextOpId) + 1
                && resp == Success(Obj(QueuedAnswer(map[], UPDATE_QUEUED)))
      ensures db.drivers == old(db.drivers) && db.vehicles == old(db.vehicles)
    {
      if cloudStatus.online {
        calls := [PutShipment(Str(id), body)];
        match reply {
          case Ok(rec) =>
            db.UpsertShipment(id, Cached(rec.body, true));
            resp := Success(Obj(rec.body));
          case Failed(message) =>
            resp := ServerError(message);
        }
      } else {
        calls := [];
        var _ := db.InsertOp(UpdateKind, map["id" := Str(id)] + body, now / 1000);
        resp := Success(Obj(QueuedAnswer(map[], UPDATE_QUEUED)));
      }
    }

    /** GET /api/statistics: the cloud's answer as it is, or, offline, only the
        number of cached shipments. */
    method GetStatistics(reply: BodyReply) returns (resp: Response, calls: seq<Call>)
      ensures calls == if cloudStatus.online then [ReadStatistics] else []
      ensures cloudStatus.online && reply.Body? ==> resp == Success(Obj(reply.body))
      ensures cloudStatus.online && reply.BodyFailed? ==> resp == ServerError(reply.message)
      ensures !cloudStatus.online ==>
                resp.status == 200 && resp.body.Obj? && Field(resp.body.fields, "total") == Num(|db.shipments|)
                && Field(resp.body.fields, "offline") == Bool(true)
                && Field(resp.body.fields, "message") == Str("Statistics from local cache")
                && resp.body.fields.Keys == {"total", "offline", "message"}
    {
      calls := [];
      if cloudStatus.online {
        calls := [ReadStatistics];
        match reply {
          case Body(b) => resp := Success(Obj(b));
          case BodyFailed(message) => resp := ServerError(message);
        }
      } else {
        resp := Success(Obj(map["total" := Num(|db.shipments|), "offline" := Bool(true),
                                  "message" := Str("Statistics from local cache")]));
      }
    }

    /** GET /api/sync/status: every queued operation counts, stuck ones included. */
    method GetSyncStatus() returns (status: LocalSyncStatus)
      ensures status.cloudOnline == cloudStatus.online && status.lastCheck == cloudStatus.lastCheck
      ensures status.pendingOperations == |db.pending|
      ensures status.unsyncedRecords == UnsyncedCount(db.shipments)
    {
      status := LocalSyncStatus(cloudStatus.online, |db.pending|, UnsyncedCount(db.shipments), cloudStatus.lastCheck);
    }

    /** `syncPendingOperations` of the local server: nothing while offline;
        otherwise the first ten operations are replayed, the cache untouched. */
    method SyncPendingOperations(replies: nat -> Reply) returns (calls: seq<Call>)
      requires db.Valid()
      modifies db
      ensures db.Valid()
      ensures !cloudStatus.online ==> calls == [] && db.pending == old(db.pending)
      ensures cloudStatus.online ==>
                db.pending == LocalPass(old(db.pending), replies)
                && calls == LocalCalls(LocalBatch(old(db.pending)), |LocalBatch(old(db.pending))|)
      ensures db.shipments == old(db.shipments) && db.nextOpId == old(db.nextOpId)
      ensures db.drivers == old(db.drivers) && db.vehicles == old(db.vehicles)
    {
      calls := [];
      if !cloudStatus.online {
        return;
      }
      var pending := LocalBatch(db.pending);
      ghost var p0 := db.pending;
      ghost var fails := LocalFailVector(pending, replies, |pending|);
      if |pending| == 0 {
        return;
      }
      for i := 0 to |pending|
        invariant db.Valid()
        invariant db.pending == SettleAll(p0, pending, fails, i)
        invariant calls == LocalCalls(pending, i)
        invariant db.shipments == old(db.shipments) && db.nextOpId == old(db.nextOpId)
        invariant db.drivers == old(db.drivers) && db.vehicles == old(db.vehicles)
      {
        var op := pending[i];
        var data := op.row.data;
        var failed := false;
        match op.row.kind {
          case CreateKind =>
            calls := calls + [PostShipment(data)];
            failed := replies(i).Failed?;
          case UpdateKind =>
            calls := calls + [PutShipment(Field(data, "id"), data)];
            failed := replies(i).Failed?;
          case _ =>
        }
        if failed {
          db.BumpRetryCount(op.key);
        } else {
          db.DeleteOp(op.key);
        }
      }
    }

    /** POST /api/sync/force. */
    method ForceSync(replies: nat -> Reply) returns (resp: Response, calls: seq<Call>)
      requires db.Valid()
      modifies db
      ensures db.Valid()
      ensures !cloudStatus.online ==> calls == [] && db.pending == old(db.pending)
      ensures cloudStatus.online ==>
                db.pending == LocalPass(old(db.pending), replies)
                && calls == LocalCalls(LocalBatch(old(db.pending)), |LocalBatch(old(db.pending))|)
      ensures resp == Success(Obj(map["status" := Str("success"), "message" := Str("Synchronization completed")]))
      ensures db.shipments == old(db.shipments) && db.nextOpId == old(db.nextOpId)
      ensures db.drivers == old(db.drivers) && db.vehicles == old(db.vehicles)
    {
      calls := SyncPendingOperations(replies);
      resp := Success(Obj(map["status" := Str("success"), "message" := Str("Synchronization completed")]));
    }

    /** GET /api/drivers and GET /api/vehicles. */
    method GetEntities(c: Collection) returns (data: seq<Payload>)
      ensures data == RowData(db.EntityTable(c), (x: Entity) => x.data)
    {
      match c {
        case Drivers => data := RowData(db.drivers, (x: Entity) => x.data);
        case Vehicles => data := RowData(db.vehicles, (x: Entity) => x.data);
      }
    }

    /** PUT /api/drivers/:id and PUT /api/vehicles/:id: an `UPDATE`, so an
        unknown id creates no row; the answer is `{ id, ...row }`. */
    method PutEntity(c: Collection, id: string, body: Payload, nowIso: string) returns (resp: Response)
      requires db.Valid()
      modifies db
      ensures db.Valid()
      ensures db.EntityTable(c) == Modify(old(db.EntityTable(c)), id, _ => Entity(EntityRow(body, nowIso), nowIso))
      ensures resp == Success(Obj(map["id" := Str(id)] + EntityRow(body, nowIso)))
      ensures c.Drivers? ==> db.vehicles == old(db.vehicles)
      ensures c.Vehicles? ==> db.drivers == old(db.drivers)
      ensures db.pending == old(db.pending) && db.nextOpId == old(db.nextOpId) && db.shipments == old(db.shipments)
    {
      var row := EntityRow(body, nowIso);
      db.UpdateEntity(c, id, Entity(row, nowIso));
      resp := Success(Obj(map["id" := Str(id)] + row));
    }

    /** DELETE /api/drivers/:id and DELETE /api/vehicles/:id. */
    method DeleteEntity(c: Collection, id: string) returns (resp: Response)
      requires db.Valid()
      modifies db
      ensures db.Valid()
      ensures db.EntityTable(c) == Delete(old(db.EntityTable(c)), id)
      ensures resp == Success(Obj(MessageBody(if c.Drivers? then "Driver deleted successfully" else "Vehicle deleted successfully")))
      ensures c.Drivers? ==> db.vehicles == old(db.vehicles)
      ensures c.Vehicles? ==> db.drivers == old(db.drivers)
      ensures db.pending == old(db.pending) && db.nextOpId == old(db.nextOpId) && db.shipments == old(db.shipments)
    {
      db.DeleteEntity(c, id);
      resp := Success(Obj(MessageBody(if c.Drivers? then "Driver deleted successfully" else "Vehicle deleted successfully")));
    }
  }

  /** The driver and vehicle PUT never inserts: an unknown id leaves the table
      as it was; a known id gets exactly the new row. */
  lemma EntityUpdateIsUpdate(t: Entities, id: string, row: Entity)
    ensures !HasKey(t, id) ==> Modify(t, id, _ => row) == t
    ensures HasKey(t, id) ==> Lookup(Modify(t, id, _ => row), id) == Some(row)
  {
    if !HasKey(t, id) {
      ModifyAbsent(t, id, _ => row);
    }
  }
}
