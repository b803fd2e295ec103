/**
 * The Supabase cloud function: the same path normalisation and routes as the
 * PostgreSQL function, preceded by a CORS preflight answer, and run against
 * the project's `shipments` table through the Supabase client. Updates send
 * the body minus its keys; a delete answers success whether or not a row was
 * there; statistics are counted in the handler and answered as numbers.
 */
module SupabaseFunction {
  import opened Wrappers
  import opened Json
  import opened Tables
  import opened Http
  import opened Routing
  import opened Statistics
  import opened Records
  import opened Backend

  /** The preflight answer: 200 with the empty string as body. */
  function Preflight(): (r: Response)
    ensures r.status == 200 && r.body == Blank
  {
    Success(Blank)
  }

  /** `.update(updates).eq('id', id).select().single()` on the shipments. */
  function UpdateOutcome(t: Shipments, id: string, body: Payload, nowIso: string): (o: Outcome)
    ensures Lookup(t, id).None? ==> o == Outcome(t, NotFound(SHIPMENT_NOT_FOUND))
    ensures Lookup(t, id).Some? ==>
              o.resp.status == 200 && o.resp.body.Obj? && Lookup(o.rows, id) == Some(o.resp.body.fields)
              && Field(o.resp.body.fields, "id") == Field(Lookup(t, id).value, "id")
              && Field(o.resp.body.fields, "created_at") == Field(Lookup(t, id).value, "created_at")
              && Field(o.resp.body.fields, "updated_at") == Str(nowIso)
    ensures forall j :: j != id ==> Lookup(o.rows, j) == Lookup(t, j)
    ensures UniqueKeys(t) ==> UniqueKeys(o.rows)
  {
    var o := Patch(t, id, body, nowIso, SHIPMENT_NOT_FOUND);
    if Lookup(t, id).Some? then
      UpdateKeepsIdentity(Lookup(t, id).value, body, nowIso);
      o
    else o
  }

  /** `.delete().eq('id', id)`: always answered with the id. */
  function DeleteOutcome(t: Shipments, id: string): (o: Outcome)
    ensures o.resp == Success(Obj(DeletedBody(id)))
    ensures !HasKey(o.rows, id) && forall j :: j != id ==> Lookup(o.rows, j) == Lookup(t, j)
    ensures UniqueKeys(t) ==> UniqueKeys(o.rows)
  {
    Discard(t, id, DeletedBody(id))
  }

  /** Four shipments with statuses pending, active, completed and in transit
      count as `{ total: 4, active: 2, completed: 1, pending: 1 }`. */
  lemma StatisticsExample(t: Shipments)
    requires |t| == 4
    requires Field(t[0].row, "status") == Str("pending") && Field(t[1].row, "status") == Str("active")
    requires Field(t[2].row, "status") == Str("completed") && Field(t[3].row, "status") == Str("in_transit")
    ensures CountedStatistics(t) == Success(Obj(NumericBody(Counts(4, 2, 1, 1))))
  {
    assert StatusesOf(t) == [Str("pending"), Str("active"), Str("completed"), Str("in_transit")];
    TallyExample();
  }

  /** A delete of an id no row has still answers success and changes nothing. */
  lemma DeleteUnknown(t: Shipments, id: string)
    requires !HasKey(t, id)
    ensures DeleteOutcome(t, id).resp.status == 200
    ensures forall j :: Lookup(DeleteOutcome(t, id).rows, j) == Lookup(t, j)
  {
  }

  /** The shipments table of the Supabase project the function talks to. */
  class Project {
    var shipments: Shipments

    ghost predicate Valid()
      reads this
    {
      UniqueKeys(shipments)
    }

    constructor(rows: Shipments)
      requires UniqueKeys(rows)
      ensures Valid() && shipments == rows
    {
      shipments := rows;
    }

    /** Runs a writing request's outcome unless the client reports `fault`. */
    method Commit(o: Outcome, fault: Option<string>) returns (resp: Response)
      requires Valid() && UniqueKeys(o.rows)
      modifies this
      ensures Valid()
      ensures fault.Some? ==> resp == ServerError(fault.value) && shipments == old(shipments)
      ensures fault.None? ==> shipments == o.rows && resp == o.resp
    {
      if fault.Some? {
        return ServerError(fault.value);
      }
      shipments := o.rows;
      resp := o.resp;
    }

    /** The handler. `fault` is the error the client reports for the request's
        query, if any; it is thrown and answered with 500. A `null` body throws
        in a create, which reads `body.origin`, but not in an update, which
        only spreads it. */
    method Handle(e: Event, fault: Option<string>, now: nat, nowIso: string) returns (resp: Response)
      requires Valid()
      modifies this
      ensures Valid()
      ensures MethodOf(e) == "OPTIONS" ==> resp == Preflight() && shipments == old(shipments)
      ensures var route := Dispatch(PathOf(e), MethodOf(e));
              MethodOf(e) == "OPTIONS" || !(route.CreateRoute? || route.UpdateRoute? || route.DeleteRoute?) ==>
                shipments == old(shipments)
      ensures MethodOf(e) != "OPTIONS" && Dispatch(PathOf(e), MethodOf(e)) == HealthRoute ==>
                resp == Success(Obj(HealthBody(nowIso)))
      ensures MethodOf(e) != "OPTIONS" && Dispatch(PathOf(e), MethodOf(e)) == NoRoute ==>
                resp == NotFound(ROUTE_NOT_FOUND)
      ensures var route := Dispatch(PathOf(e), MethodOf(e));
              (MethodOf(e) != "OPTIONS" && fault.Some?
               && (route.ListRoute? || route.GetRoute? || route.DeleteRoute? || route.StatisticsRoute?)) ==>
                resp == ServerError(fault.value) && shipments == old(shipments)
      ensures MethodOf(e) != "OPTIONS" && Dispatch(PathOf(e), MethodOf(e)) == ListRoute && fault.None? ==>
                resp == Listing(old(shipments))
      ensures var route := Dispatch(PathOf(e), MethodOf(e));
              MethodOf(e) != "OPTIONS" && route.GetRoute? && fault.None? ==>
                resp == Fetch(old(shipments), route.id, SHIPMENT_NOT_FOUND)
      ensures MethodOf(e) != "OPTIONS" && Dispatch(PathOf(e), MethodOf(e)) == StatisticsRoute && fault.None? ==>
                resp == CountedStatistics(old(shipments))
      ensures MethodOf(e) != "OPTIONS" && Dispatch(PathOf(e), MethodOf(e)) == CreateRoute && ParseBody(e.body).Err? ==>
                resp == ServerError(ParseBody(e.body).message) && shipments == old(shipments)
      ensures MethodOf(e) != "OPTIONS" && Dispatch(PathOf(e), MethodOf(e)) == CreateRoute && ParseBody(e.body).Ok? && fault.Some? ==>
                resp == ServerError(fault.value) && shipments == old(shipments)
      ensures (MethodOf(e) != "OPTIONS" && Dispatch(PathOf(e), MethodOf(e)) == CreateRoute
               && ParseBody(e.body).Ok? && fault.None?) ==>
                Outcome(shipments, resp) == NewShipment(old(shipments), ParseBody(e.body).value, now, nowIso)
      ensures var route := Dispatch(PathOf(e), MethodOf(e));
              MethodOf(e) != "OPTIONS" && route.UpdateRoute? && SpreadBody(e.body).Err? ==>
                resp == ServerError(SpreadBody(e.body).message) && shipments == old(shipments)
      ensures var route := Dispatch(PathOf(e), MethodOf(e));
              MethodOf(e) != "OPTIONS" && route.UpdateRoute? && SpreadBody(e.body).Ok? && fault.Some? ==>
                resp == ServerError(fault.value) && shipments == old(shipments)
      ensures var route := Dispatch(PathOf(e), MethodOf(e));
              MethodOf(e) != "OPTIONS" && route.UpdateRoute? && SpreadBody(e.body).Ok? && fault.None? ==>
                Outcome(shipments, resp) == UpdateOutcome(old(shipments), route.id, SpreadBody(e.body).value, nowIso)
      ensures var route := Dispatch(PathOf(e), MethodOf(e));
              MethodOf(e) != "OPTIONS" && route.DeleteRoute? && fault.None? ==>
                Outcome(shipments, resp) == DeleteOutcome(old(shipments), route.id)
    {
      var verb := MethodOf(e);
      if verb == "OPTIONS" {
        return Preflight();
      }
      var path := PathOf(e);
      match Dispatch(path, verb)
      case HealthRoute =>
        resp := Success(Obj(HealthBody(nowIso)));
      case ListRoute =>
        resp := if fault.Some? then ServerError(fault.value) else Listing(shipments);
      case CreateRoute =>
        match ParseBody(e.body) {
          case Err(message) =>
            resp := ServerError(message);
          case Ok(body) =>
            resp := Commit(NewShipment(shipments, body, now, nowIso), fault);
        }
      case GetRoute(id) =>
        resp := if fault.Some? then ServerError(fault.value) else Fetch(shipments, id, SHIPMENT_NOT_FOUND);
      case UpdateRoute(id) =>
        match SpreadBody(e.body) {
          case Err(message) =>
            resp := ServerError(message);
          case Ok(body) =>
            resp := Commit(UpdateOutcome(shipments, id, body, nowIso), fault);
        }
      case DeleteRoute(id) =>
        resp := Commit(DeleteOutcome(shipments, id), fault);
      case StatisticsRoute =>
        resp := if fault.Some? then ServerError(fault.value) else CountedStatistics(shipments);
      case NoRoute =>
        resp := NotFound(ROUTE_NOT_FOUND);
    }
  }
}
