/**
 * The cloud as the local side sees it. Every remote call is an oracle: it
 * either answers with the canonical record or fails with a message.
 */
module Remote {
  import opened Json

  /** A record as the cloud function returns it: `response.data.id` and the
      whole of `response.data`. */
  datatype Record = Record(id: string, body: Payload)

  /** The outcome of one POST, PUT or DELETE sent to the cloud function. */
  datatype Reply = Ok(rec: Record) | Failed(message: string)

  /** The outcome of a GET whose answer is passed on as it is. */
  datatype BodyReply = Body(body: Payload) | BodyFailed(message: string)

  /** The outcome of listing shipments with GET /shipments. */
  datatype ListReply = Listed(records: seq<Record>) | ListFailed(message: string)

  /** The outcome of one connectivity probe: a 2xx answer, an answer with an
      HTTP error status (axios rejects with `error.response` set), or no
      answer at all (timeout, refused connection, DNS failure). */
  datatype Probe = Answered | HttpError(status: int) | NoResponse
}
