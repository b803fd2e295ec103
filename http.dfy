/**
 * What a handler answers: an HTTP status and a JSON body (an object, an
 * array of objects, or the empty string). Headers are not modelled.
 */
module Http {
  import opened Json

  datatype Doc = Obj(fields: Payload) | Arr(items: seq<Payload>) | Blank

  datatype Response = Response(status: nat, body: Doc)

  /** `{ error: message }`, the body of every error answer. */
  function ErrorBody(message: string): (b: Payload)
    ensures Field(b, "error") == Str(message) && |b| == 1
  {
    map["error" := Str(message)]
  }

  /** `{ message: text }`. */
  function MessageBody(text: string): (b: Payload)
    ensures Field(b, "message") == Str(text) && |b| == 1
  {
    map["message" := Str(text)]
  }

  /** An answer with status 200 carrying `d`. */
  function Success(d: Doc): (r: Response)
    ensures r.status == 200 && r.body == d
  {
    Response(200, d)
  }

  /** An answer with status 201 carrying `d`. */
  function Created(d: Doc): (r: Response)
    ensures r.status == 201 && r.body == d
  {
    Response(201, d)
  }

  /** An answer with status 404 and `{ error: message }`. */
  function NotFound(message: string): (r: Response)
    ensures r.status == 404 && r.body.Obj? && Field(r.body.fields, "error") == Str(message)
  {
    Response(404, Obj(ErrorBody(message)))
  }

  /** An answer with status 500 and `{ error: message }`. */
  function ServerError(message: string): (r: Response)
    ensures r.status == 500 && r.body.Obj? && Field(r.body.fields, "error") == Str(message)
  {
    Response(500, Obj(ErrorBody(message)))
  }
}
