/** The records that cross the proxy's two boundaries: the chat UI's rerank request and
    response, the scoring backend (TEI) request and reply entries, and the error taxonomy. */
module Api {
  import opened Wrappers

  /** The inbound rerank request. `model` and `topN` are accepted and never consulted. */
  datatype OpenWebUIRequest = OpenWebUIRequest(
    query: string,
    documents: seq<string>,
    model: Option<string>,
    topN: Option<nat>)

  /** The request sent to the backend; a document's position in `texts` is its index. */
  datatype TEIRequest = TEIRequest(query: string, texts: seq<string>)

  /** One entry of the backend's reply: a document position and its relevance score. Scores
      are reals, so NaN does not arise. */
  datatype TEIRankResult = TEIRankResult(index: nat, score: real)

  /** One entry of the outbound response. */
  datatype RankResult = RankResult(index: nat, relevanceScore: real)

  datatype OpenWebUIResponse = OpenWebUIResponse(results: seq<RankResult>)

  /** The errors the rerank handler raises, each carrying its message. */
  datatype ApiError =
    | BadRequest(msg: string)
    | TEIError(msg: string)
    | InternalError(msg: string)

  /** The JSON error body: a machine code and a human-readable message. */
  datatype ErrorResponse = ErrorResponse(error: string, message: string)
}
