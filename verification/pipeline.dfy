/** The rerank handler end to end: validate, translate, call the backend, check the reply's
    length, rank; and the reply the `/rerank` route sends for each result. The backend is a
    parameter: a total function from the request sent to how the call ended. */
module Pipeline {
  import opened Wrappers
  import opened Text
  import opened Api
  import opened Validation
  import opened Backend
  import opened Ranking
  import opened Rejection

  /** The backend request: the query unchanged and the documents, one text each, in order. */
  function Translate(req: OpenWebUIRequest): (r: TEIRequest)
    ensures r.query == req.query
    ensures |r.texts| == |req.documents|
    ensures forall k :: 0 <= k < |req.documents| ==> r.texts[k] == req.documents[k]
  {
    TEIRequest(req.query, req.documents)
  }

  /** The rerank handler. All or nothing: either a ranked list or one error. It succeeds
      exactly when the request is acceptable and the backend gave a decoded 2xx reply with one
      entry per document, and then answers the ranking of the reply's entries. It rejects a
      request as bad exactly when the request is not acceptable, so the backend never turns an
      acceptable request into a bad request, and a list of exactly the limit passes. */
  function HandleRerank(req: OpenWebUIRequest, maxBatchSize: nat, backend: TEIRequest -> BackendOutcome)
    : (r: Result<OpenWebUIResponse, ApiError>)
    ensures r.Success? <==> Acceptable(req, maxBatchSize) && GoodReply(backend(Translate(req)), |req.documents|)
    ensures r.Success? ==> r.value == OpenWebUIResponse(Rank(backend(Translate(req)).body.parsed.value))
    ensures r.Failure? && r.error.BadRequest? <==> !Acceptable(req, maxBatchSize)
    ensures Acceptable(req, maxBatchSize) && ReceiveScores(backend(Translate(req))).Failure? ==>
              r == Failure(ReceiveScores(backend(Translate(req))).error)
  {
    match Validate(req, maxBatchSize)
    case Fail(e) => Failure(e)
    case Pass =>
      match ReceiveScores(backend(Translate(req)))
      case Failure(e) => Failure(e)
      case Success(scores) =>
        match CheckLength(scores, |req.documents|)
        case Failure(e) => Failure(e)
        case Success(checked) => Success(OpenWebUIResponse(Rank(checked)))
  }

  /** A blank query is rejected first, whatever the documents and the backend. */
  lemma EmptyQueryRejectedFirst(req: OpenWebUIRequest, maxBatchSize: nat, backend: TEIRequest -> BackendOutcome)
    requires forall k :: 0 <= k < |req.query| ==> IsWhitespace(req.query[k])
    ensures HandleRerank(req, maxBatchSize, backend) == Failure(BadRequest(EmptyQueryMessage))
  {
    BlankIffAllWhitespace(req.query);
  }

  /** With a usable query, an empty document list is rejected. */
  lemma EmptyDocumentsRejected(req: OpenWebUIRequest, maxBatchSize: nat, backend: TEIRequest -> BackendOutcome)
    requires HasVisibleChar(req.query) && req.documents == []
    ensures HandleRerank(req, maxBatchSize, backend) == Failure(BadRequest(EmptyDocumentsMessage))
  {
    BlankIffAllWhitespace(req.query);
  }

  /** With a usable query, more documents than the limit are rejected with a message from
      which the limit can be read back. */
  lemma TooManyDocumentsRejected(req: OpenWebUIRequest, maxBatchSize: nat, backend: TEIRequest -> BackendOutcome)
    requires HasVisibleChar(req.query) && |req.documents| > maxBatchSize
    ensures HandleRerank(req, maxBatchSize, backend) == Failure(BadRequest(TooManyDocumentsMessage(maxBatchSize)))
    ensures var m := TooManyDocumentsMessage(maxBatchSize);
            var p := |TooManyDocumentsPrefix|;
            && m[..p] == TooManyDocumentsPrefix
            && AllDigits(m[p..])
            && DecimalValue(m[p..]) == maxBatchSize
  {
    BlankIffAllWhitespace(req.query);
    TooManyDocumentsMessageNamesLimit(maxBatchSize);
  }

  /** An unacceptable request never reaches the backend: its result does not depend on it. */
  lemma RejectedBeforeBackend(req: OpenWebUIRequest, maxBatchSize: nat,
                              b1: TEIRequest -> BackendOutcome, b2: TEIRequest -> BackendOutcome)
    requires !Acceptable(req, maxBatchSize)
    ensures HandleRerank(req, maxBatchSize, b1) == HandleRerank(req, maxBatchSize, b2)
  {
  }

  /** The backend is consulted on the translated request only. */
  lemma BackendSeesTranslation(req: OpenWebUIRequest, maxBatchSize: nat,
                               b1: TEIRequest -> BackendOutcome, b2: TEIRequest -> BackendOutcome)
    requires b1(TEIRequest(req.query, req.documents)) == b2(TEIRequest(req.query, req.documents))
    ensures HandleRerank(req, maxBatchSize, b1) == HandleRerank(req, maxBatchSize, b2)
  {
  }

  /** The requested result count and model name change nothing: no truncation happens. */
  lemma TopNAndModelIgnored(req: OpenWebUIRequest, maxBatchSize: nat, backend: TEIRequest -> BackendOutcome,
                            model: Option<string>, topN: Option<nat>)
    ensures HandleRerank(req.(model := model, topN := topN), maxBatchSize, backend) ==
            HandleRerank(req, maxBatchSize, backend)
  {
    var req' := req.(model := model, topN := topN);
    assert Translate(req') == Translate(req);
  }

  /** A decoded 2xx reply whose length differs from the number of documents is a backend
      error, and no results are returned. */
  lemma LengthMismatchRejected(req: OpenWebUIRequest, maxBatchSize: nat, backend: TEIRequest -> BackendOutcome)
    requires Acceptable(req, maxBatchSize)
    requires var o := backend(Translate(req));
             o.Replied? && IsSuccess(o.status) && o.body.BodyText? && o.body.parsed.Some?
             && |o.body.parsed.value| != |req.documents|
    ensures HandleRerank(req, maxBatchSize, backend) == Failure(TEIError(LengthMismatchMessage))
  {
  }

  /** The backend gave a decoded 2xx reply with one entry per document. */
  predicate GoodReply(o: BackendOutcome, documentCount: nat) {
    && o.Replied? && IsSuccess(o.status) && o.body.BodyText? && o.body.parsed.Some?
    && |o.body.parsed.value| == documentCount
  }

  /** For an acceptable request and a good reply, the response holds exactly the backend's
      entries, one per document, each index with its own score, ordered by non-increasing
      relevance, equal scores in backend order; and it is the only list with those
      properties. */
  lemma SuccessRanksBackendEntries(req: OpenWebUIRequest, maxBatchSize: nat, backend: TEIRequest -> BackendOutcome)
    requires Acceptable(req, maxBatchSize)
    requires GoodReply(backend(Translate(req)), |req.documents|)
    ensures HandleRerank(req, maxBatchSize, backend).Success?
    ensures var scores := backend(Translate(req)).body.parsed.value;
            var results := HandleRerank(req, maxBatchSize, backend).value.results;
            && |results| == |req.documents|
            && (forall i, j :: 0 <= i < j < |results| ==> results[i].relevanceScore >= results[j].relevanceScore)
            && multiset(AsScored(results)) == multiset(scores)
            && KeepsTieOrder(scores, AsScored(results))
            && AsScored(results) == SortByScore(scores)
  {
    var scores := backend(Translate(req)).body.parsed.value;
    var results := Rank(scores);
    assert SortedByScore(AsScored(results));
    StableSortCharacterized(scores, AsScored(results));
  }

  /** The two example scores, sorted: the higher one first. */
  lemma ExampleSorted()
    ensures Rank([TEIRankResult(0, 0.1), TEIRankResult(1, 0.9)]) == [RankResult(1, 0.9), RankResult(0, 0.1)]
  {
    var scores := [TEIRankResult(0, 0.1), TEIRankResult(1, 0.9)];
    var sorted := [TEIRankResult(1, 0.9), TEIRankResult(0, 0.1)];
    assert scores[1..] == [TEIRankResult(1, 0.9)];
    assert SortByScore(scores[1..]) == [TEIRankResult(1, 0.9)];
    assert SortByScore(scores) == sorted;
    assert ToRankResults(sorted) == [RankResult(1, 0.9), RankResult(0, 0.1)];
  }

  /** The example request passes validation. */
  lemma ExampleAccepted()
    ensures Validate(OpenWebUIRequest("q", ["a dog", "a cat"], None, None), DefaultMaxBatchSize) == Pass
  {
    var query := "q";
    assert !IsWhitespace(query[0]);
    assert HasVisibleChar(query);
  }

  /** Two documents scored 0.1 and 0.9 come back with the second first, each index keeping
      its score. */
  lemma IndexMappingExample(backend: TEIRequest -> BackendOutcome)
    requires backend(TEIRequest("q", ["a dog", "a cat"])) ==
             Replied(200, "OK", BodyText("[{\"index\":0,\"score\":0.1},{\"index\":1,\"score\":0.9}]", Some([TEIRankResult(0, 0.1), TEIRankResult(1, 0.9)])))
    ensures HandleRerank(OpenWebUIRequest("q", ["a dog", "a cat"], None, None), DefaultMaxBatchSize, backend) ==
            Success(OpenWebUIResponse([RankResult(1, 0.9), RankResult(0, 0.1)]))
  {
    var req := OpenWebUIRequest("q", ["a dog", "a cat"], None, None);
    var scores := [TEIRankResult(0, 0.1), TEIRankResult(1, 0.9)];
    ExampleAccepted();
    assert ReceiveScores(backend(Translate(req))) == Success(scores);
    assert CheckLength(scores, |req.documents|) == Success(scores);
    ExampleSorted();
  }

  /** What the route's reply body holds. */
  datatype ReplyBody =
    | Ranked(response: OpenWebUIResponse)
    | Error(error: ErrorResponse)

  datatype HttpReply = HttpReply(status: nat, body: ReplyBody)

  /** The error reply the route sends for a rejection. */
  function RejectionReply(rej: Rejection): HttpReply {
    var reply := HandleRejection(rej);
    HttpReply(reply.status, Error(reply.body))
  }

  /** The `/rerank` route: `body` is the decoded request body, `None` when it was not valid
      JSON of the request's shape. Failures go through the error mapper. It answers 200
      exactly when the body decoded and the handler succeeded, and then with the handler's
      ranking; otherwise with 400, 500 or 502 and an error body. */
  function RerankRoute(body: Option<OpenWebUIRequest>, maxBatchSize: nat, backend: TEIRequest -> BackendOutcome)
    : (r: HttpReply)
    ensures r.status == 200 <==> body.Some? && HandleRerank(body.value, maxBatchSize, backend).Success?
    ensures r.status == 200 ==> r.body == Ranked(HandleRerank(body.value, maxBatchSize, backend).value)
    ensures r.status != 200 ==> r.body.Error? && r.status in {400, 500, 502}
  {
    match body
    case None => RejectionReply(BodyDeserializeError)
    case Some(req) =>
      match HandleRerank(req, maxBatchSize, backend)
      case Success(resp) => HttpReply(200, Ranked(resp))
      case Failure(e) => RejectionReply(Api(e))
  }

  /** A body that is not valid request JSON gets 400 `invalid_json`. */
  lemma MalformedBodyIsInvalidJson(maxBatchSize: nat, backend: TEIRequest -> BackendOutcome)
    ensures RerankRoute(None, maxBatchSize, backend) ==
            HttpReply(400, Error(ErrorResponse("invalid_json", "Invalid JSON in request body")))
  {
  }

  /** A handler error reaches the caller with its kind's status and code and its message
      unchanged. */
  lemma HandlerErrorReachesCaller(req: OpenWebUIRequest, maxBatchSize: nat, backend: TEIRequest -> BackendOutcome)
    requires HandleRerank(req, maxBatchSize, backend).Failure?
    ensures var e := HandleRerank(req, maxBatchSize, backend).error;
            var r := RerankRoute(Some(req), maxBatchSize, backend);
            && r.body.Error?
            && r.body.error.message == e.msg
            && (e.BadRequest? ==> r.status == 400 && r.body.error.error == "bad_request")
            && (e.TEIError? ==> r.status == 502 && r.body.error.error == "tei_error")
            && (e.InternalError? ==> r.status == 500 && r.body.error.error == "internal_error")
  {
    var e := HandleRerank(req, maxBatchSize, backend).error;
    assert RerankRoute(Some(req), maxBatchSize, backend) == RejectionReply(Api(e));
  }

  /** A failed backend call for an acceptable request reaches the caller as 502 `tei_error`,
      or 500 `internal_error` when the client could not be built, with the call's message. */
  lemma BackendErrorReachesCaller(req: OpenWebUIRequest, maxBatchSize: nat, backend: TEIRequest -> BackendOutcome)
    requires Acceptable(req, maxBatchSize)
    requires ReceiveScores(backend(Translate(req))).Failure?
    ensures var e := ReceiveScores(backend(Translate(req))).error;
            var r := RerankRoute(Some(req), maxBatchSize, backend);
            && (e.TEIError? ==> r == HttpReply(502, Error(ErrorResponse("tei_error", e.msg))))
            && (e.InternalError? ==> r == HttpReply(500, Error(ErrorResponse("internal_error", e.msg))))
  {
  }

  /** For an acceptable request, a non-2xx backend reply reaches the caller as 502 `tei_error`
      with the message naming the backend's status and quoting its body. */
  lemma BackendStatusErrorReachesCaller(req: OpenWebUIRequest, maxBatchSize: nat, backend: TEIRequest -> BackendOutcome)
    requires Acceptable(req, maxBatchSize)
    requires backend(Translate(req)).Replied? && !IsSuccess(backend(Translate(req)).status)
    ensures var o := backend(Translate(req));
            RerankRoute(Some(req), maxBatchSize, backend) ==
              HttpReply(502, Error(ErrorResponse("tei_error", StatusErrorMessage(o.status, o.reason, ErrorText(o.body)))))
  {
  }

  /** For an acceptable request, a 2xx backend reply that does not decode reaches the caller as
      502 `tei_error` quoting the raw body. */
  lemma MalformedBackendJsonReachesCaller(req: OpenWebUIRequest, maxBatchSize: nat, backend: TEIRequest -> BackendOutcome)
    requires Acceptable(req, maxBatchSize)
    requires var o := backend(Translate(req));
             o.Replied? && IsSuccess(o.status) && o.body.BodyText? && o.body.parsed.None?
    ensures RerankRoute(Some(req), maxBatchSize, backend) ==
              HttpReply(502, Error(ErrorResponse("tei_error", InvalidFormatPrefix + backend(Translate(req)).body.raw)))
  {
  }
}
