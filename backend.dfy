/**
 * The table statements the three backends (the PostgreSQL cloud function, the
 * Supabase cloud function and the Supabase Express server) run for one
 * request, each paired with the answer the handler builds from its result:
 * an insert answered with the stored row, a lookup by key, and an update by
 * key answered with the updated row or 404.
 */
module Backend {
  import opened Wrappers
  import opened Json
  import opened Tables
  import opened Http
  import opened Records
  import opened Statistics

  type Shipments = Table<string, Payload>

  /** The table after a request, and the answer to it. */
  datatype Outcome = Outcome(rows: Shipments, resp: Response)

  /** The message the database reports for an insert that reuses a primary key. */
  const DUPLICATE_KEY: string := "duplicate key value violates unique constraint"

  const SHIPMENT_NOT_FOUND: string := "Shipment not found"
  const ROUTE_NOT_FOUND: string := "Route not found"
  const SHIPMENT_PREFIX: string := "SHIP-"

  /** `INSERT ... RETURNING *` (or `.insert().select().single()`) answered with
      201 and the stored row. A key the table already holds violates the
      primary key: the table is unchanged and the request fails with 500. */
  function Insert(t: Shipments, id: string, record: Payload): (o: Outcome)
    ensures HasKey(t, id) ==> o == Outcome(t, ServerError(DUPLICATE_KEY))
    ensures !HasKey(t, id) ==> o.resp == Created(Obj(record)) && Lookup(o.rows, id) == Some(record)
    ensures !HasKey(t, id) ==> forall j :: j != id ==> Lookup(o.rows, j) == Lookup(t, j)
    ensures UniqueKeys(t) ==> UniqueKeys(o.rows)
  {
    if HasKey(t, id) then Outcome(t, ServerError(DUPLICATE_KEY))
    else
      var e := Entry(id, record);
      forall j ensures Lookup(t + [e], j) == if j == id then Some(record) else Lookup(t, j) {
        LookupAppend(t, [e], j);
      }
      assert UniqueKeys(t) ==> UniqueKeys(t + [e]) by {
        if UniqueKeys(t) { AppendUnique(t, e); }
      }
      Outcome(t + [e], Created(Obj(record)))
  }

  /** `SELECT * ... WHERE id = $1`: the row, or 404 with `missing`. */
  function Fetch(t: Shipments, id: string, missing: string): (r: Response)
    ensures Lookup(t, id).None? ==> r == NotFound(missing)
    ensures Lookup(t, id).Some? ==> r == Success(Obj(Lookup(t, id).value))
  {
    match Lookup(t, id)
    case None => NotFound(missing)
    case Some(row) => Success(Obj(row))
  }

  /** `SELECT *`: every row, answered as an array. */
  function Listing(t: Shipments): (r: Response)
    ensures r.status == 200 && r.body.Arr? && |r.body.items| == |t|
    ensures forall i :: 0 <= i < |t| ==> r.body.items[i] == t[i].row
  {
    Success(Arr(Rows(t)))
  }

  /** `UPDATE ... WHERE id = $1 RETURNING *`, the new row computed from the old
      one by `f`: 200 with the updated row, or 404 with `missing` and no
      change when no row has the key. No other row changes. */
  function UpdateWith(t: Shipments, id: string, f: Payload -> Payload, missing: string): (o: Outcome)
    ensures Lookup(t, id).None? ==> o == Outcome(t, NotFound(missing))
    ensures Lookup(t, id).Some? ==>
              o.resp == Success(Obj(f(Lookup(t, id).value))) && Lookup(o.rows, id) == Some(f(Lookup(t, id).value))
    ensures forall j :: j != id ==> Lookup(o.rows, j) == Lookup(t, j)
    ensures |o.rows| == |t| && (UniqueKeys(t) ==> UniqueKeys(o.rows))
  {
    match Lookup(t, id)
    case None =>
      ModifyAbsent(t, id, f);
      Outcome(t, NotFound(missing))
    case Some(row) => Outcome(Modify(t, id, f), Success(Obj(f(row))))
  }

  /** A row just inserted is what a fetch of its key answers. */
  lemma InsertThenFetch(t: Shipments, id: string, record: Payload, missing: string)
    requires !HasKey(t, id)
    ensures Fetch(Insert(t, id, record).rows, id, missing) == Success(Obj(record))
  {
  }

  /** Deleting a row just inserted gives the table back. */
  lemma InsertThenDelete(t: Shipments, id: string, record: Payload)
    requires !HasKey(t, id)
    ensures Delete(Insert(t, id, record).rows, id) == t
  {
    DeleteAppended(t, Entry(id, record));
  }

  /** After an update that found its row, fetching the key answers exactly
      what the update answered. */
  lemma UpdateThenFetch(t: Shipments, id: string, f: Payload -> Payload, missing: string)
    requires HasKey(t, id)
    ensures Fetch(UpdateWith(t, id, f, missing).rows, id, missing) == UpdateWith(t, id, f, missing).resp
  {
  }

  /** After a delete, fetching the key answers 404, whatever the table held. */
  lemma DeleteThenFetch(t: Shipments, id: string, missing: string)
    ensures Fetch(Delete(t, id), id, missing) == NotFound(missing)
  {
  }

  /** `{ status: 'ok', timestamp }`. */
  function HealthBody(nowIso: string): (b: Payload)
    ensures Field(b, "status") == Str("ok") && Field(b, "timestamp") == Str(nowIso)
  {
    map["status" := Str("ok"), "timestamp" := Str(nowIso)]
  }

  /** `{ message: 'Shipment deleted', id }`. */
  function DeletedBody(id: string): (b: Payload)
    ensures Field(b, "message") == Str("Shipment deleted") && Field(b, "id") == Str(id)
  {
    map["message" := Str("Shipment deleted"), "id" := Str(id)]
  }

  /** A shipment create: a row under `'SHIP-' + now` shaped from the body,
      inserted. */
  function NewShipment(t: Shipments, data: Payload, now: nat, nowIso: string): (o: Outcome)
    ensures var id := MintId(SHIPMENT_PREFIX, now);
            !HasKey(t, id) ==> o.resp.status == 201 && Lookup(o.rows, id) == Some(ShipmentRecord(id, data, nowIso))
    ensures var id := MintId(SHIPMENT_PREFIX, now);
            HasKey(t, id) ==> o == Outcome(t, ServerError(DUPLICATE_KEY))
    ensures forall j :: j != MintId(SHIPMENT_PREFIX, now) ==> Lookup(o.rows, j) == Lookup(t, j)
    ensures UniqueKeys(t) ==> UniqueKeys(o.rows)
  {
    var id := MintId(SHIPMENT_PREFIX, now);
    Insert(t, id, ShipmentRecord(id, data, nowIso))
  }

  /** A Supabase update: the update object built from the body is applied to
      the row under `id`; 404 with `missing` when there is none. */
  function Patch(t: Shipments, id: string, body: Payload, nowIso: string, missing: string): (o: Outcome)
    ensures Lookup(t, id).None? ==> o == Outcome(t, NotFound(missing))
    ensures Lookup(t, id).Some? ==>
              var row := Apply(Lookup(t, id).value, Updates(body, nowIso));
              o.resp == Success(Obj(row)) && Lookup(o.rows, id) == Some(row)
    ensures forall j :: j != id ==> Lookup(o.rows, j) == Lookup(t, j)
    ensures |o.rows| == |t| && (UniqueKeys(t) ==> UniqueKeys(o.rows))
  {
    UpdateWith(t, id, row => Apply(row, Updates(body, nowIso)), missing)
  }

  /** A Supabase delete: the row under `id`, if any, is removed and the answer
      is 200 with `answer` whether or not a row was there. */
  function Discard(t: Shipments, id: string, answer: Payload): (o: Outcome)
    ensures o.resp == Success(Obj(answer)) && !HasKey(o.rows, id)
    ensures forall j :: j != id ==> Lookup(o.rows, j) == Lookup(t, j)
    ensures UniqueKeys(t) ==> UniqueKeys(o.rows)
  {
    Outcome(Delete(t, id), Success(Obj(answer)))
  }

  /** A Supabase delete is idempotent: repeating it changes nothing further
      and answers the same. */
  lemma DiscardTwice(t: Shipments, id: string, answer: Payload)
    ensures Discard(Discard(t, id, answer).rows, id, answer).resp == Discard(t, id, answer).resp
    ensures forall j :: Lookup(Discard(Discard(t, id, answer).rows, id, answer).rows, j) == Lookup(Discard(t, id, answer).rows, j)
  {
  }

  /** The Supabase statistics: `.select('status')` counted in the handler and
      answered as numbers. */
  function CountedStatistics(t: Shipments): (r: Response)
    ensures r.status == 200 && r.body.Obj?
    ensures Field(r.body.fields, "total") == Num(|t|)
    ensures var f := r.body.fields;
            Field(f, "active").Num? && Field(f, "completed").Num? && Field(f, "pending").Num?
            && 0 <= Field(f, "active").n + Field(f, "completed").n + Field(f, "pending").n <= |t|
  {
    TallyBound(StatusesOf(t));
    Success(Obj(NumericBody(Tally(StatusesOf(t)))))
  }
}
