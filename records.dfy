/**
 * How the backends shape the records they store: the row a create inserts
 * (minted id, defaults, timestamps) and the object a Supabase update sends
 * (the body without its keys, with a fresh `updated_at`).
 */
module Records {
  import opened Json

  /** The shipment row a create inserts. A field the body lacks is stored as
      NULL; a falsy driver or vehicle becomes NULL; a falsy status becomes
      `pending`; both timestamps are the creation instant. */
  function ShipmentRecord(id: string, body: Payload, nowIso: string): (r: Payload)
    ensures Field(r, "id") == Str(id)
    ensures Field(r, "driver") == Or(Field(body, "driver"), Null) && Field(r, "vehicle") == Or(Field(body, "vehicle"), Null)
    ensures Field(r, "status") == Or(Field(body, "status"), Str("pending")) && Truthy(Field(r, "status"))
    ensures Field(r, "origin") == Bind(Field(body, "origin")) && Field(r, "destination") == Bind(Field(body, "destination"))
    ensures Field(r, "cargo") == Bind(Field(body, "cargo")) && Field(r, "weight") == Bind(Field(body, "weight"))
    ensures Field(r, "created_at") == Str(nowIso) && Field(r, "updated_at") == Str(nowIso)
  {
    map["id" := Str(id),
        "origin" := Bind(Field(body, "origin")),
        "destination" := Bind(Field(body, "destination")),
        "driver" := Or(Field(body, "driver"), Null),
        "vehicle" := Or(Field(body, "vehicle"), Null),
        "cargo" := Bind(Field(body, "cargo")),
        "weight" := Bind(Field(body, "weight")),
        "status" := Or(Field(body, "status"), Str("pending")),
        "created_at" := Str(nowIso),
        "updated_at" := Str(nowIso)]
  }

  /** The driver row `POST /api/drivers` inserts: status defaults to `active`. */
  function DriverRecord(id: string, body: Payload, nowIso: string): (r: Payload)
    ensures Field(r, "id") == Str(id)
    ensures Field(r, "status") == Or(Field(body, "status"), Str("active")) && Truthy(Field(r, "status"))
    ensures Field(r, "name") == Bind(Field(body, "name")) && Field(r, "phone") == Bind(Field(body, "phone"))
    ensures Field(r, "license") == Bind(Field(body, "license"))
    ensures Field(r, "created_at") == Str(nowIso) && Field(r, "updated_at") == Str(nowIso)
  {
    map["id" := Str(id),
        "name" := Bind(Field(body, "name")),
        "phone" := Bind(Field(body, "phone")),
        "license" := Bind(Field(body, "license")),
        "status" := Or(Field(body, "status"), Str("active")),
        "created_at" := Str(nowIso),
        "updated_at" := Str(nowIso)]
  }

  /** The vehicle row `POST /api/vehicles` inserts: type defaults to `truck`
      and status to `available`. */
  function VehicleRecord(id: string, body: Payload, nowIso: string): (r: Payload)
    ensures Field(r, "id") == Str(id)
    ensures Field(r, "type") == Or(Field(body, "type"), Str("truck")) && Truthy(Field(r, "type"))
    ensures Field(r, "status") == Or(Field(body, "status"), Str("available")) && Truthy(Field(r, "status"))
    ensures Field(r, "number") == Bind(Field(body, "number")) && Field(r, "brand") == Bind(Field(body, "brand"))
    ensures Field(r, "model") == Bind(Field(body, "model")) && Field(r, "capacity") == Bind(Field(body, "capacity"))
    ensures Field(r, "year") == Bind(Field(body, "year"))
    ensures Field(r, "created_at") == Str(nowIso) && Field(r, "updated_at") == Str(nowIso)
  {
    map["id" := Str(id),
        "number" := Bind(Field(body, "number")),
        "brand" := Bind(Field(body, "brand")),
        "model" := Bind(Field(body, "model")),
        "type" := Or(Field(body, "type"), Str("truck")),
        "capacity" := Bind(Field(body, "capacity")),
        "year" := Bind(Field(body, "year")),
        "status" := Or(Field(body, "status"), Str("available")),
        "created_at" := Str(nowIso),
        "updated_at" := Str(nowIso)]
  }

  /** `{ ...body, updated_at }` with `id` and `created_at` deleted. */
  function Updates(body: Payload, nowIso: string): (u: Payload)
    ensures "id" !in u && "created_at" !in u
    ensures Field(u, "updated_at") == Str(nowIso)
    ensures forall k :: k in body && k != "id" && k != "created_at" && k != "updated_at" ==> k in u && u[k] == body[k]
    ensures u.Keys == (body.Keys + {"updated_at"}) - {"id", "created_at"}
  {
    body["updated_at" := Str(nowIso)] - {"id", "created_at"}
  }

  /** `UPDATE ... SET <columns of u>`: the row with the sent columns replaced. */
  function Apply(row: Payload, u: Payload): (r: Payload)
    ensures forall k :: k in u ==> Field(r, k) == u[k]
    ensures forall k :: k !in u ==> Field(r, k) == Field(row, k)
  {
    row + u
  }

  /** An update can neither re-key a row nor rewrite its creation time, and it
      always refreshes `updated_at`, whatever the body carries. */
  lemma UpdateKeepsIdentity(row: Payload, body: Payload, nowIso: string)
    ensures Field(Apply(row, Updates(body, nowIso)), "id") == Field(row, "id")
    ensures Field(Apply(row, Updates(body, nowIso)), "created_at") == Field(row, "created_at")
    ensures Field(Apply(row, Updates(body, nowIso)), "updated_at") == Str(nowIso)
  {
  }

  /** Sending the same update twice is sending it once. */
  lemma UpdateIdempotent(row: Payload, body: Payload, nowIso: string)
    ensures Apply(Apply(row, Updates(body, nowIso)), Updates(body, nowIso)) == Apply(row, Updates(body, nowIso))
  {
  }

  /** A row freshly created and then updated keeps its id and creation time. */
  lemma CreateThenUpdate(id: string, body: Payload, change: Payload, createdIso: string, nowIso: string)
    ensures var r := Apply(ShipmentRecord(id, body, createdIso), Updates(change, nowIso));
            Field(r, "id") == Str(id) && Field(r, "created_at") == Str(createdIso) && Field(r, "updated_at") == Str(nowIso)
  {
    UpdateKeepsIdentity(ShipmentRecord(id, body, createdIso), change, nowIso);
  }
}
