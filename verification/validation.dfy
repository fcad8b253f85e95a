/** Input validation of a rerank request, run before anything is sent to the backend. */
module Validation {
  import opened Wrappers
  import opened Text
  import opened Api

  /** The batch limit used when none is configured. */
  const DefaultMaxBatchSize: nat := 1000

  const EmptyQueryMessage: string := "Query cannot be empty"
  const EmptyDocumentsMessage: string := "Documents list cannot be empty"
  const TooManyDocumentsPrefix: string := "Too many documents, max: "

  /** The rejection message for an over-long document list; it ends with the limit in decimal. */
  function TooManyDocumentsMessage(maxBatchSize: nat): string {
    TooManyDocumentsPrefix + NatToString(maxBatchSize)
  }

  /** What the handler accepts: a query with a non-whitespace character and between one and
      `maxBatchSize` documents. */
  predicate Acceptable(req: OpenWebUIRequest, maxBatchSize: nat) {
    HasVisibleChar(req.query) && 1 <= |req.documents| <= maxBatchSize
  }

  /** The three checks, in order; the first that fails decides the message. */
  function Validate(req: OpenWebUIRequest, maxBatchSize: nat): (r: Outcome<ApiError>)
    ensures r.Pass? <==> Acceptable(req, maxBatchSize)
    ensures r.Fail? ==> r.error.BadRequest?
  {
    BlankIffAllWhitespace(req.query);
    if IsBlank(req.query) then
      Fail(BadRequest(EmptyQueryMessage))
    else if |req.documents| == 0 then
      Fail(BadRequest(EmptyDocumentsMessage))
    else if |req.documents| > maxBatchSize then
      Fail(BadRequest(TooManyDocumentsMessage(maxBatchSize)))
    else
      Pass
  }

  /** The limit can be read back from the over-long-list message, so the message names the
      limit and two different limits give two different messages. */
  lemma TooManyDocumentsMessageNamesLimit(maxBatchSize: nat)
    ensures var m := TooManyDocumentsMessage(maxBatchSize);
            && |m| > |TooManyDocumentsPrefix|
            && m[..|TooManyDocumentsPrefix|] == TooManyDocumentsPrefix
            && AllDigits(m[|TooManyDocumentsPrefix|..])
            && DecimalValue(m[|TooManyDocumentsPrefix|..]) == maxBatchSize
  {
    var m := TooManyDocumentsMessage(maxBatchSize);
    assert m[|TooManyDocumentsPrefix|..] == NatToString(maxBatchSize);
    DecimalRoundTrip(maxBatchSize);
  }

  /** The three messages are pairwise distinct, so a caller can tell which check failed. */
  lemma ValidationMessagesDistinct(maxBatchSize: nat)
    ensures EmptyQueryMessage != EmptyDocumentsMessage
    ensures EmptyQueryMessage != TooManyDocumentsMessage(maxBatchSize)
    ensures EmptyDocumentsMessage != TooManyDocumentsMessage(maxBatchSize)
  {
    var m := TooManyDocumentsMessage(maxBatchSize);
    assert EmptyQueryMessage[0] == 'Q' && EmptyDocumentsMessage[0] == 'D';
    assert m[0] == 'T';
  }
}
