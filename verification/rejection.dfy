/** The error mapper: every way a request can be rejected becomes an HTTP status and a JSON
    body of a machine code and a message. */
module Rejection {
  import opened Wrappers
  import opened Api

  /** The rejections the mapper distinguishes: an unmatched route, an `ApiError` raised by the
      handler, a request body that did not decode, and anything else the framework rejects
      with. */
  datatype Rejection =
    | NotFound
    | Api(error: ApiError)
    | BodyDeserializeError
    | Unhandled

  datatype ErrorReply = ErrorReply(status: nat, body: ErrorResponse)

  /** Checked in the order: not found, handler error, body decoding, anything else. */
  function HandleRejection(err: Rejection): (r: ErrorReply)
    ensures r.status in {400, 404, 500, 502}
    ensures r.status == 404 <==> err.NotFound?
    ensures err.Api? ==> r.body.message == err.error.msg
    ensures err.NotFound? ==> r.body == ErrorResponse("not_found", "Not Found")
    ensures err.Api? && err.error.BadRequest? ==> r.status == 400 && r.body.error == "bad_request"
    ensures err.Api? && err.error.TEIError? ==> r.status == 502 && r.body.error == "tei_error"
    ensures err.Api? && err.error.InternalError? ==> r.status == 500 && r.body.error == "internal_error"
    ensures err.BodyDeserializeError? ==>
              r == ErrorReply(400, ErrorResponse("invalid_json", "Invalid JSON in request body"))
    ensures err.Unhandled? ==> r == ErrorReply(500, ErrorResponse("internal_error", "Internal Server Error"))
  {
    match err
    case NotFound => ErrorReply(404, ErrorResponse("not_found", "Not Found"))
    case Api(BadRequest(msg)) => ErrorReply(400, ErrorResponse("bad_request", msg))
    case Api(TEIError(msg)) => ErrorReply(502, ErrorResponse("tei_error", msg))
    case Api(InternalError(msg)) => ErrorReply(500, ErrorResponse("internal_error", msg))
    case BodyDeserializeError => ErrorReply(400, ErrorResponse("invalid_json", "Invalid JSON in request body"))
    case Unhandled => ErrorReply(500, ErrorResponse("internal_error", "Internal Server Error"))
  }

  /** Reads a handler error back from its reply, by its code and message. */
  function ApiErrorOf(reply: ErrorReply): Option<ApiError> {
    match reply.body.error
    case "bad_request" => Some(BadRequest(reply.body.message))
    case "tei_error" => Some(TEIError(reply.body.message))
    case "internal_error" => Some(InternalError(reply.body.message))
    case _ => None
  }

  /** A handler error's reply carries it completely: its kind in the code, its message
      unchanged. */
  lemma ApiErrorRoundTrip(e: ApiError)
    ensures ApiErrorOf(HandleRejection(Api(e))) == Some(e)
  {
  }

  /** The status depends on the machine code alone. */
  lemma StatusDeterminedByCode(a: Rejection, b: Rejection)
    ensures HandleRejection(a).body.error == HandleRejection(b).body.error ==>
              HandleRejection(a).status == HandleRejection(b).status
  {
  }

  /** A client-side status (4xx) is given exactly to the client's faults: an unmatched route,
      a bad request and a body that did not decode. The rest get 5xx, and 502 only for the
      backend. */
  lemma ClientFaultsAreFourHundreds(err: Rejection)
    ensures HandleRejection(err).status < 500 <==>
              err.NotFound? || err.BodyDeserializeError? || (err.Api? && err.error.BadRequest?)
    ensures HandleRejection(err).status == 502 <==> err.Api? && err.error.TEIError?
  {
  }
}
