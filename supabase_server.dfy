/**
 * The Express API server backed by Supabase: list, create, update and delete
 * for shipments, drivers and vehicles, the shipment statistics, and health
 * and sync answers that report on the connection but never queue anything.
 * Each query the client sends either answers or reports an error; an error,
 * and anything thrown, is answered with 500 and the error's message.
 */
module SupabaseServer {
  import opened Wrappers
  import opened Json
  import opened Tables
  import opened Http
  import opened Statistics
  import opened Records
  import opened Backend

  /** The three tables the server exposes. */
  datatype Resource = ShipmentTable | DriverTable | VehicleTable

  /** How the connectivity query went: answered, answered with an error, or threw. */
  datatype Check = Reachable | Refused | Threw

  /** The prefix of the ids a create mints. */
  function Prefix(r: Resource): string {
    match r
    case ShipmentTable => SHIPMENT_PREFIX
    case DriverTable => "DRV"
    case VehicleTable => "VH"
  }

  /** The row a create inserts. */
  function Shape(r: Resource, id: string, body: Payload, nowIso: string): (row: Payload)
    ensures Field(row, "id") == Str(id) && Field(row, "created_at") == Str(nowIso) && Field(row, "updated_at") == Str(nowIso)
    ensures Truthy(Field(row, "status"))
  {
    match r
    case ShipmentTable => ShipmentRecord(id, body, nowIso)
    case DriverTable => DriverRecord(id, body, nowIso)
    case VehicleTable => VehicleRecord(id, body, nowIso)
  }

  /** The 404 message of an update that finds no row. */
  function Missing(r: Resource): string {
    match r
    case ShipmentTable => SHIPMENT_NOT_FOUND
    case DriverTable => "Driver not found"
    case VehicleTable => "Vehicle not found"
  }

  /** The answer of a delete; only the shipment one repeats the id. */
  function DeletedAnswer(r: Resource, id: string): (b: Payload)
    ensures r.ShipmentTable? <==> Field(b, "id") == Str(id)
    ensures Field(b, "message").Str?
  {
    match r
    case ShipmentTable => map["message" := Str("Shipment deleted successfully"), "id" := Str(id)]
    case DriverTable => MessageBody("Driver deleted successfully")
    case VehicleTable => MessageBody("Vehicle deleted successfully")
  }

  /** A create: a row under `prefix + now` shaped from the body, inserted. */
  function CreateOutcome(r: Resource, t: Shipments, body: Payload, now: nat, nowIso: string): (o: Outcome)
    ensures var id := MintId(Prefix(r), now);
            !HasKey(t, id) ==> o.resp == Created(Obj(Shape(r, id, body, nowIso))) && Lookup(o.rows, id) == Some(Shape(r, id, body, nowIso))
    ensures HasKey(t, MintId(Prefix(r), now)) ==> o == Outcome(t, ServerError(DUPLICATE_KEY))
    ensures forall j :: j != MintId(Prefix(r), now) ==> Lookup(o.rows, j) == Lookup(t, j)
    ensures UniqueKeys(t) ==> UniqueKeys(o.rows)
  {
    var id := MintId(Prefix(r), now);
    Insert(t, id, Shape(r, id, body, nowIso))
  }

  /** The shipment create is the one both cloud functions run. */
  lemma ShipmentCreateShared(t: Shipments, body: Payload, now: nat, nowIso: string)
    ensures CreateOutcome(ShipmentTable, t, body, now, nowIso) == NewShipment(t, body, now, nowIso)
  {
  }

  /** Ids minted for different resources never collide, whatever the instants. */
  lemma PrefixesDistinct(r: Resource, s: Resource, a: nat, b: nat)
    requires r != s
    ensures MintId(Prefix(r), a) != MintId(Prefix(s), b)
  {
    var x := MintId(Prefix(r), a);
    var y := MintId(Prefix(s), b);
    assert x[..|Prefix(r)|] == Prefix(r) && y[..|Prefix(s)|] == Prefix(s);
    assert x[0] == Prefix(r)[0] && y[0] == Prefix(s)[0];
  }

  /** `/api/health`: always `ok`; `database` tells how the query went. */
  function HealthAnswer(c: Check, nowIso: string): (r: Response)
    ensures r.status == 200 && r.body.Obj? && Field(r.body.fields, "status") == Str("ok")
    ensures Field(r.body.fields, "database") == Str("connected") <==> c == Reachable
    ensures Field(r.body.fields, "database") == Str("disconnected") <==> c == Refused
    ensures Field(r.body.fields, "database") == Str("error") <==> c == Threw
    ensures Field(r.body.fields, "timestamp") == Str(nowIso)
  {
    var database := match c case Reachable => "connected" case Refused => "disconnected" case Threw => "error";
    Success(Obj(map["status" := Str("ok"), "database" := Str(database), "timestamp" := Str(nowIso)]))
  }

  /** `/api/sync/status`: nothing is ever pending; online exactly when the
      query answered without error. */
  function SyncStatusAnswer(c: Check, nowIso: string): (r: Response)
    ensures r.status == 200 && r.body.Obj?
    ensures Field(r.body.fields, "cloudOnline") == Bool(c == Reachable)
    ensures Field(r.body.fields, "pendingOperations") == Num(0) && Field(r.body.fields, "unsyncedRecords") == Num(0)
    ensures Field(r.body.fields, "lastCheck") == Str(nowIso)
  {
    Success(Obj(map["cloudOnline" := Bool(c == Reachable), "pendingOperations" := Num(0),
                    "unsyncedRecords" := Num(0), "lastCheck" := Str(nowIso)]))
  }

  /** The Supabase project the server talks to. */
  class Server {
    var shipments: Shipments
    var drivers: Shipments
    var vehicles: Shipments

    ghost predicate Valid()
      reads this
    {
      UniqueKeys(shipments) && UniqueKeys(drivers) && UniqueKeys(vehicles)
    }

    constructor(s: Shipments, d: Shipments, v: Shipments)
      requires UniqueKeys(s) && UniqueKeys(d) && UniqueKeys(v)
      ensures Valid() && shipments == s && drivers == d && vehicles == v
    {
      shipments, drivers, vehicles := s, d, v;
    }

    /** The table behind a resource. */
    function TableOf(r: Resource): Shipments
      reads this
    {
      match r
      case ShipmentTable => shipments
      case DriverTable => drivers
      case VehicleTable => vehicles
    }

    /** Writes an outcome's table back, or answers 500 when the client
        reported `fault`; the other tables never change. */
    method Commit(r: Resource, o: Outcome, fault: Option<string>) returns (resp: Response)
      requires Valid() && UniqueKeys(o.rows)
      modifies this
      ensures Valid()
      ensures fault.Some? ==> resp == ServerError(fault.value) && TableOf(r) == old(TableOf(r))
      ensures fault.None? ==> TableOf(r) == o.rows && resp == o.resp
      ensures forall s :: s != r ==> TableOf(s) == old(TableOf(s))
    {
      if fault.Some? {
        return ServerError(fault.value);
      }
      match r {
        case ShipmentTable => shipments := o.rows;
        case DriverTable => drivers := o.rows;
        case VehicleTable => vehicles := o.rows;
      }
      resp := o.resp;
    }

    /** `GET /api/<resource>`. */
    method List(r: Resource, fault: Option<string>) returns (resp: Response)
      ensures fault.Some? ==> resp == ServerError(fault.value)
      ensures fault.None? ==> resp == Listing(TableOf(r))
    {
      resp := if fault.Some? then ServerError(fault.value) else Listing(TableOf(r));
    }

    /** `POST /api/<resource>`. */
    method Create(r: Resource, body: Payload, fault: Option<string>, now: nat, nowIso: string) returns (resp: Response)
      requires Valid()
      modifies this
      ensures Valid()
      ensures fault.Some? ==> resp == ServerError(fault.value) && TableOf(r) == old(TableOf(r))
      ensures fault.None? ==> Outcome(TableOf(r), resp) == CreateOutcome(r, old(TableOf(r)), body, now, nowIso)
      ensures forall s :: s != r ==> TableOf(s) == old(TableOf(s))
    {
      resp := Commit(r, CreateOutcome(r, TableOf(r), body, now, nowIso), fault);
    }

    /** `PUT /api/<resource>/:id`: the body minus its keys, with a fresh
        `updated_at`, applied to the row; 404 when there is none. */
    method Update(r: Resource, id: string, body: Payload, fault: Option<string>, nowIso: string) returns (resp: Response)
      requires Valid()
      modifies this
      ensures Valid()
      ensures fault.Some? ==> resp == ServerError(fault.value) && TableOf(r) == old(TableOf(r))
      ensures fault.None? ==> Outcome(TableOf(r), resp) == Patch(old(TableOf(r)), id, body, nowIso, Missing(r))
      ensures forall s :: s != r ==> TableOf(s) == old(TableOf(s))
    {
      resp := Commit(r, Patch(TableOf(r), id, body, nowIso, Missing(r)), fault);
    }

    /** `DELETE /api/<resource>/:id`: success whether or not the row existed. */
    method Delete(r: Resource, id: string, fault: Option<string>) returns (resp: Response)
      requires Valid()
      modifies this
      ensures Valid()
      ensures fault.Some? ==> resp == ServerError(fault.value) && TableOf(r) == old(TableOf(r))
      ensures fault.None? ==> Outcome(TableOf(r), resp) == Discard(old(TableOf(r)), id, DeletedAnswer(r, id))
      ensures forall s :: s != r ==> TableOf(s) == old(TableOf(s))
    {
      resp := Commit(r, Discard(TableOf(r), id, DeletedAnswer(r, id)), fault);
    }

    /** `GET /api/statistics`. */
    method StatisticsOf(fault: Option<string>) returns (resp: Response)
      ensures fault.Some? ==> resp == ServerError(fault.value)
      ensures fault.None? ==> resp == CountedStatistics(shipments)
    {
      resp := if fault.Some? then ServerError(fault.value) else CountedStatistics(shipments);
    }

    /** `POST /api/sync/force`: a fixed success answer; no table changes. */
    method ForceSync() returns (resp: Response)
      ensures resp.status == 200 && resp.body.Obj?
      ensures Field(resp.body.fields, "status") == Str("success")
      ensures Field(resp.body.fields, "message") == Str("Using Supabase - always in sync")
    {
      resp := Success(Obj(map["status" := Str("success"), "message" := Str("Using Supabase - always in sync")]));
    }
  }
}
