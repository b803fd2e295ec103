/**
 * The PostgreSQL cloud function: one handler that normalises the path,
 * dispatches on path and method, and runs one statement against the
 * `shipments` table. Every error thrown on the way (a body `JSON.parse`
 * rejects, a connection or query failure, a primary-key violation) becomes a
 * 500 answer carrying the error's message.
 */
module CloudFunction {
  import opened Wrappers
  import opened Json
  import opened Tables
  import opened Http
  import opened Routing
  import opened Statistics
  import opened Records
  import opened Backend

  /** The seven columns an update may set. */
  const COLUMNS: seq<string> := ["origin", "destination", "driver", "vehicle", "cargo", "weight", "status"]

  /** The counters as PostgreSQL returns `COUNT(*)` through the driver: as
      decimal strings. */
  function TextBody(c: Counts): (b: Payload)
    ensures Field(b, "total") == Str(NatToString(c.total)) && Field(b, "active") == Str(NatToString(c.active))
    ensures Field(b, "completed") == Str(NatToString(c.completed)) && Field(b, "pending") == Str(NatToString(c.pending))
  {
    map["total" := Str(NatToString(c.total)), "active" := Str(NatToString(c.active)),
        "completed" := Str(NatToString(c.completed)), "pending" := Str(NatToString(c.pending))]
  }

  /** The row `SET col = COALESCE($n, col), updated_at = $9` leaves: a column
      the body gives (neither absent nor null) takes the body's value, every
      other column keeps its old one, and `updated_at` is refreshed. */
  function CoalesceRow(row: Payload, data: Payload, nowIso: string): (r: Payload)
    ensures forall k :: k in COLUMNS ==> Field(r, k) == Coalesce(Field(data, k), Field(row, k))
    ensures Field(r, "updated_at") == Str(nowIso)
    ensures forall k :: k !in COLUMNS && k != "updated_at" ==> Field(r, k) == Field(row, k)
  {
    (row + map k | k in COLUMNS :: Coalesce(Field(data, k), Field(row, k)))["updated_at" := Str(nowIso)]
  }

  /** An update that gives no column changes nothing but `updated_at`; in
      particular the id and the creation time always survive. */
  lemma CoalesceNothingGiven(row: Payload, data: Payload, nowIso: string)
    requires forall k :: k in COLUMNS ==> Field(data, k) == Undefined || Field(data, k) == Null
    ensures forall k :: k != "updated_at" ==> Field(CoalesceRow(row, data, nowIso), k) == Field(row, k)
  {
    forall k | k != "updated_at" ensures Field(CoalesceRow(row, data, nowIso), k) == Field(row, k) {
      if k in COLUMNS {
        assert Field(data, k) == Undefined || Field(data, k) == Null;
      }
    }
  }

  /** Running the same update twice leaves the row the first run left. */
  lemma CoalesceIdempotent(row: Payload, data: Payload, nowIso: string)
    ensures CoalesceRow(CoalesceRow(row, data, nowIso), data, nowIso) == CoalesceRow(row, data, nowIso)
  {
    var once := CoalesceRow(row, data, nowIso);
    var twice := CoalesceRow(once, data, nowIso);
    assert twice.Keys == once.Keys;
    forall k | k in once ensures twice[k] == once[k] {
      assert Field(twice, k) == Field(once, k);
    }
  }

  /** `updateShipment`: the COALESCE update of the row under `id`, or 404. */
  function UpdateOutcome(t: Shipments, id: string, data: Payload, nowIso: string): (o: Outcome)
    ensures Lookup(t, id).None? ==> o == Outcome(t, NotFound(SHIPMENT_NOT_FOUND))
    ensures Lookup(t, id).Some? ==>
              var row := CoalesceRow(Lookup(t, id).value, data, nowIso);
              o.resp == Success(Obj(row)) && Lookup(o.rows, id) == Some(row)
    ensures forall j :: j != id ==> Lookup(o.rows, j) == Lookup(t, j)
    ensures |o.rows| == |t| && (UniqueKeys(t) ==> UniqueKeys(o.rows))
  {
    UpdateWith(t, id, row => CoalesceRow(row, data, nowIso), SHIPMENT_NOT_FOUND)
  }

  /** `deleteShipment`: the row under `id` is removed, or 404 when there is none. */
  function DeleteOutcome(t: Shipments, id: string): (o: Outcome)
    ensures !HasKey(t, id) ==> o == Outcome(t, NotFound(SHIPMENT_NOT_FOUND))
    ensures HasKey(t, id) ==> o.resp == Success(Obj(DeletedBody(id))) && !HasKey(o.rows, id)
    ensures forall j :: j != id ==> Lookup(o.rows, j) == Lookup(t, j)
    ensures UniqueKeys(t) ==> UniqueKeys(o.rows)
  {
    if HasKey(t, id) then Outcome(Delete(t, id), Success(Obj(DeletedBody(id))))
    else Outcome(t, NotFound(SHIPMENT_NOT_FOUND))
  }

  /** `getStatistics`: the counters over the `status` column. */
  function StatisticsAnswer(t: Shipments): (r: Response)
    ensures r.status == 200 && r.body.Obj?
    ensures Field(r.body.fields, "total") == Str(NatToString(|t|))
  {
    Success(Obj(TextBody(Tally(StatusesOf(t)))))
  }

  /** A shipment created and then deleted leaves the table as it was, and the
      delete answers with the id. */
  lemma CreateThenDelete(t: Shipments, data: Payload, now: nat, nowIso: string)
    requires !HasKey(t, MintId(SHIPMENT_PREFIX, now))
    ensures var id := MintId(SHIPMENT_PREFIX, now);
            DeleteOutcome(NewShipment(t, data, now, nowIso).rows, id) == Outcome(t, Success(Obj(DeletedBody(id))))
  {
    var id := MintId(SHIPMENT_PREFIX, now);
    InsertThenDelete(t, id, ShipmentRecord(id, data, nowIso));
  }

  /** A second delete of the same id answers 404 and changes nothing. */
  lemma DeleteTwice(t: Shipments, id: string)
    ensures var o := DeleteOutcome(t, id).rows;
            DeleteOutcome(o, id) == Outcome(o, NotFound(SHIPMENT_NOT_FOUND))
  {
  }

  /** Updating a shipment just created keeps its id and creation time. */
  lemma CreateThenUpdate(t: Shipments, data: Payload, change: Payload, now: nat, createdIso: string, nowIso: string)
    requires !HasKey(t, MintId(SHIPMENT_PREFIX, now))
    ensures var id := MintId(SHIPMENT_PREFIX, now);
            var o := UpdateOutcome(NewShipment(t, data, now, createdIso).rows, id, change, nowIso);
            o.resp.status == 200 && o.resp.body.Obj?
            && Field(o.resp.body.fields, "id") == Str(id)
            && Field(o.resp.body.fields, "created_at") == Str(createdIso)
            && Field(o.resp.body.fields, "updated_at") == Str(nowIso)
  {
    var id := MintId(SHIPMENT_PREFIX, now);
    var record := ShipmentRecord(id, data, createdIso);
    var created := NewShipment(t, data, now, createdIso).rows;
    assert Lookup(created, id) == Some(record);
    var row := CoalesceRow(record, change, nowIso);
    CoalesceKeepsIdentity(record, change, nowIso);
    assert UpdateOutcome(created, id, change, nowIso).resp == Success(Obj(row));
  }

  /** The id and the creation time are not columns an update sets. */
  lemma CoalesceKeepsIdentity(row: Payload, data: Payload, nowIso: string)
    ensures Field(CoalesceRow(row, data, nowIso), "id") == Field(row, "id")
    ensures Field(CoalesceRow(row, data, nowIso), "created_at") == Field(row, "created_at")
  {
    assert "id" !in COLUMNS && "created_at" !in COLUMNS;
  }

  /** What goes wrong with the database, if anything: `client.connect()`
      fails, or the connection is made and the statement then fails. Either
      is thrown and answered with 500 and its message; they differ only in
      when they strike. */
  datatype Fault = NoFault | ConnectFault(message: string) | QueryFault(message: string)

  /** The shipments table of the database the function connects to. */
  class Database {
    var shipments: Shipments

    ghost predicate Valid()
      reads this
    {
      UniqueKeys(shipments)
    }

    constructor(rows: Shipments)
      requires UniqueKeys(rows)
      ensures Valid() && shipments == rows
    {
      shipments := rows;
    }

    /** `createShipment`, given a body already read. */
    method CreateShipment(data: Payload, fault: Fault, now: nat, nowIso: string) returns (resp: Response)
      requires Valid()
      modifies this
      ensures Valid()
      ensures !fault.NoFault? ==> resp == ServerError(fault.message) && shipments == old(shipments)
      ensures fault.NoFault? ==> Outcome(shipments, resp) == NewShipment(old(shipments), data, now, nowIso)
    {
      if !fault.NoFault? {
        return ServerError(fault.message);
      }
      var o := NewShipment(shipments, data, now, nowIso);
      shipments := o.rows;
      resp := o.resp;
    }

    /** `updateShipment`, given a body already read. */
    method UpdateShipment(id: string, data: Payload, fault: Fault, nowIso: string) returns (resp: Response)
      requires Valid()
      modifies this
      ensures Valid()
      ensures !fault.NoFault? ==> resp == ServerError(fault.message) && shipments == old(shipments)
      ensures fault.NoFault? ==> Outcome(shipments, resp) == UpdateOutcome(old(shipments), id, data, nowIso)
    {
      if !fault.NoFault? {
        return ServerError(fault.message);
      }
      var o := UpdateOutcome(shipments, id, data, nowIso);
      shipments := o.rows;
      resp := o.resp;
    }

    /** `deleteShipment`. */
    method DeleteShipment(id: string, fault: Fault) returns (resp: Response)
      requires Valid()
      modifies this
      ensures Valid()
      ensures !fault.NoFault? ==> resp == ServerError(fault.message) && shipments == old(shipments)
      ensures fault.NoFault? ==> Outcome(shipments, resp) == DeleteOutcome(old(shipments), id)
    {
      if !fault.NoFault? {
        return ServerError(fault.message);
      }
      var o := DeleteOutcome(shipments, id);
      shipments := o.rows;
      resp := o.resp;
    }

    /** The handler: the route the path and method select, run against the
        table. The reading routes never change the table. A create or an
        update parses its body first, so rejected text fails before the
        database is touched; it then connects, and only after that reads
        `data.origin`, so a `null` body throws only once the connection is
        made, and before the statement runs. */
    method Handle(e: Event, fault: Fault, now: nat, nowIso: string) returns (resp: Response)
      requires Valid()
      modifies this
      ensures Valid()
      ensures var route := Dispatch(PathOf(e), MethodOf(e));
              !(route.CreateRoute? || route.UpdateRoute? || route.DeleteRoute?) ==> shipments == old(shipments)
      ensures Dispatch(PathOf(e), MethodOf(e)) == HealthRoute ==> resp == Success(Obj(HealthBody(nowIso)))
      ensures Dispatch(PathOf(e), MethodOf(e)) == NoRoute ==> resp == NotFound(ROUTE_NOT_FOUND)
      ensures var route := Dispatch(PathOf(e), MethodOf(e));
              (route.ListRoute? || route.GetRoute? || route.DeleteRoute? || route.StatisticsRoute?) && !fault.NoFault? ==>
                resp == ServerError(fault.message) && shipments == old(shipments)
      ensures Dispatch(PathOf(e), MethodOf(e)) == ListRoute && fault.NoFault? ==> resp == Listing(old(shipments))
      ensures var route := Dispatch(PathOf(e), MethodOf(e));
              route.GetRoute? && fault.NoFault? ==> resp == Fetch(old(shipments), route.id, SHIPMENT_NOT_FOUND)
      ensures Dispatch(PathOf(e), MethodOf(e)) == StatisticsRoute && fault.NoFault? ==>
                resp == StatisticsAnswer(old(shipments))
      ensures var route := Dispatch(PathOf(e), MethodOf(e));
              (route.CreateRoute? || route.UpdateRoute?) && e.body.Garbled? ==>
                resp == ServerError(e.body.error) && shipments == old(shipments)
      ensures var route := Dispatch(PathOf(e), MethodOf(e));
              (route.CreateRoute? || route.UpdateRoute?) && !e.body.Garbled? && fault.ConnectFault? ==>
                resp == ServerError(fault.message) && shipments == old(shipments)
      ensures var route := Dispatch(PathOf(e), MethodOf(e));
              (route.CreateRoute? || route.UpdateRoute?) && e.body.NullText? && !fault.ConnectFault? ==>
                resp == ServerError(NULL_BODY_READ) && shipments == old(shipments)
      ensures var route := Dispatch(PathOf(e), MethodOf(e));
              (route.CreateRoute? || route.UpdateRoute?) && ParseBody(e.body).Ok? && !fault.NoFault? ==>
                resp == ServerError(fault.message) && shipments == old(shipments)
      ensures Dispatch(PathOf(e), MethodOf(e)) == CreateRoute && ParseBody(e.body).Ok? && fault.NoFault? ==>
                Outcome(shipments, resp) == NewShipment(old(shipments), ParseBody(e.body).value, now, nowIso)
      ensures var route := Dispatch(PathOf(e), MethodOf(e));
              route.UpdateRoute? && ParseBody(e.body).Ok? && fault.NoFault? ==>
                Outcome(shipments, resp) == UpdateOutcome(old(shipments), route.id, ParseBody(e.body).value, nowIso)
      ensures var route := Dispatch(PathOf(e), MethodOf(e));
              route.DeleteRoute? && fault.NoFault? ==> Outcome(shipments, resp) == DeleteOutcome(old(shipments), route.id)
    {
      var path := PathOf(e);
      var verb := MethodOf(e);
      match Dispatch(path, verb)
      case HealthRoute =>
        resp := Success(Obj(HealthBody(nowIso)));
      case ListRoute =>
        resp := if !fault.NoFault? then ServerError(fault.message) else Listing(shipments);
      case CreateRoute =>
        if e.body.Garbled? {
          resp := ServerError(e.body.error);
        } else if fault.ConnectFault? {
          resp := ServerError(fault.message);
        } else {
          match ParseBody(e.body) {
            case Err(message) =>
              resp := ServerError(message);
            case Ok(data) =>
              resp := CreateShipment(data, fault, now, nowIso);
          }
        }
      case GetRoute(id) =>
        resp := if !fault.NoFault? then ServerError(fault.message) else Fetch(shipments, id, SHIPMENT_NOT_FOUND);
      case UpdateRoute(id) =>
        if e.body.Garbled? {
          resp := ServerError(e.body.error);
        } else if fault.ConnectFault? {
          resp := ServerError(fault.message);
        } else {
          match ParseBody(e.body) {
            case Err(message) =>
              resp := ServerError(message);
            case Ok(data) =>
              resp := UpdateShipment(id, data, fault, nowIso);
          }
        }
      case DeleteRoute(id) =>
        resp := DeleteShipment(id, fault);
      case StatisticsRoute =>
        resp := if !fault.NoFault? then ServerError(fault.message) else StatisticsAnswer(shipments);
      case NoRoute =>
        resp := NotFound(ROUTE_NOT_FOUND);
    }
  }
}
