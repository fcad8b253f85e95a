# Rerank proxy — a Dafny model

The rerank proxy accepts a chat-UI rerank request (a query and a list of candidate documents),
forwards it to a text-relevance scoring backend (TEI) in the backend's own format, and returns the
backend's scored entries sorted by descending relevance. Failures become an HTTP status and a JSON
body of a machine code and a message.

This project models the request pipeline of `handle_rerank` and the error mapping of
`handle_rejection`. The HTTP server, the JSON layer and the network call are cut away:

- `Validation` — the three input checks, in order, the first failure deciding the message. The
  blank-query check models `str::trim` exactly: Unicode White_Space, and the slice between the
  leading and the trailing whitespace (`Text.LeadingWhitespace`, `Text.TrailingWhitespaceStart`).
  The over-long-list message renders the limit in decimal (`Text.NatToString`), and the limit can
  be read back from it.
- `Pipeline.Translate` — the backend request: the query and the documents, copied in order.
- `Backend` — the backend call is a parameter of the handler: a total function from the request
  sent to how the call ended (client not built, transport failure, or a reply with a status, a
  reason phrase and the body read). Reading the body gives the raw text and what decoding it as an
  array of `{index, score}` gave. `ReceiveScores` turns that into the scored entries or the error
  the handler raises, and `CheckLength` requires one entry per document.
- `Ranking` — a stable insertion sort by score, highest first. It is proved sorted,
  multiset-preserving (every index stays with its own score) and tie-order-preserving. It is also
  proved unique: any sorted, tie-preserving arrangement equals it. So it is exactly what a stable
  `sort_by` on a total order produces. `top_n` is never applied.
- `Rejection.HandleRejection` — the exhaustive map from rejection kind to status and code.
- `Pipeline.HandleRerank` / `Pipeline.RerankRoute` — the handler and the reply of the `/rerank`
  route.

The batch limit is an explicit parameter; `Validation.DefaultMaxBatchSize` is 1000.

## Model

| member | source | states |
|---|---|---|
| Text.IsWhitespace | src/main.rs:112 | a character counts as whitespace exactly when its code point is one of the 25 White_Space code points of the Unicode Character Database, listed one by one |
| Text.LeadingWhitespace | src/main.rs:112 | the count of leading characters that trimming drops: all of them are whitespace and the next character, if any, is not |
| Text.TrailingWhitespaceStart | src/main.rs:112 | where the trailing whitespace begins: every character from there on is whitespace and the one before it, if any, is not |
| Text.Trim | src/main.rs:112 | trimming keeps exactly the slice of the input that starts after its leading whitespace, with only whitespace after the slice, and a non-empty result neither starts nor ends with whitespace |
| Text.BlankIffAllWhitespace | src/main.rs:112 | `IsBlank`, a query that trims to empty, holds exactly when every character is Unicode whitespace, that is, when the query has no visible character |
| Text.NatToString | src/main.rs:134 | the decimal rendering of a count is non-empty, all digits, and has no leading zero |
| Text.DecimalRoundTrip | src/main.rs:134 | reading back the rendering of n gives n |
| Text.CanonicalDigitsRoundTrip | src/main.rs:134 | every canonical digit string is the rendering of its own value, so rendering and reading back are inverse |
| Text.NatToStringInjective | src/main.rs:134 | different numbers render differently |
| Validation.Validate | src/main.rs:111-136 | a request passes exactly when its query has a visible character and it has between 1 and the limit documents; every rejection is a BadRequest |
| Validation.TooManyDocumentsMessageNamesLimit | src/main.rs:131-136 | `TooManyDocumentsMessage`, the over-long-list message, is the fixed prefix followed by digits whose value is the limit |
| Validation.ValidationMessagesDistinct | src/main.rs:112-136 | the three validation messages are pairwise distinct, so the failing check can be identified |
| Backend.ReceiveScores | src/main.rs:153-221 | the call (`IsSuccess` being a 2xx status) yields scores exactly for a 2xx reply whose body was read and decoded, and then the decoded entries; client construction failure is the only InternalError; no backend failure is a BadRequest |
| Backend.StatusErrorMessage | src/main.rs:185-188 | the non-2xx message starts with the fixed prefix followed by the status code in decimal, readable back, and ends with the error text |
| Backend.StatusErrorReportsStatusAndBody | src/main.rs:177-189 | a non-2xx reply is a TEIError with the status message for its status, reason phrase and error text; `ErrorText` is the reply body, or "Unknown error" when the body could not be read |
| Backend.InvalidFormatQuotesBody | src/main.rs:211-221 | a 2xx body that does not decode is a TEIError quoting the raw body |
| Backend.SendFailureQuotesCause | src/main.rs:164-175 | a transport failure is a TEIError quoting its cause |
| Backend.ClientBuildFailureIsInternal | src/main.rs:153-161 | a client that could not be built is an InternalError "HTTP client creation failed" |
| Backend.UnreadableBodyReported | src/main.rs:192-197 | a 2xx reply whose body could not be read is a TEIError "Failed to read response from TEI service" |
| Backend.CheckLength | src/main.rs:224-233 | the scores pass exactly when there is one per document, unchanged; otherwise the length-mismatch TEIError |
| Ranking.Insert | src/main.rs:249 | inserting into a score-sorted list keeps it sorted and adds exactly the new entry |
| Ranking.SortByScore | src/main.rs:249 | the result is non-increasing by score and is a permutation of the input |
| Ranking.SortKeepsTieOrder | src/main.rs:249 | the sort is stable: for every score, the entries with that score keep their input order |
| Ranking.SortedTieOrderUnique | src/main.rs:249 | two score-sorted lists that agree on every group of equally scored entries are equal |
| Ranking.StableSortCharacterized | src/main.rs:249 | a list is sorted and keeps tie order relative to the input exactly when it is the sort's result |
| Ranking.ToRankResults | src/main.rs:250-256 | the response has one entry per sorted backend entry, in the same order, with the same index and its score as the relevance score |
| Ranking.RankResultsRoundTrip | src/main.rs:250-256 | renaming `score` to `relevance_score` loses nothing: reading the response entries back gives the sorted backend entries |
| Ranking.Rank | src/main.rs:242-256 | the output has as many entries as the input, is non-increasing by relevance score, holds exactly the backend's (index, score) pairs with their multiplicities, and keeps equal scores in backend order |
| Rejection.HandleRejection | src/main.rs:287-307 | every rejection maps to one of 400, 404, 500, 502; 404 exactly for not-found, with `not_found` "Not Found"; a handler error keeps its message, with 400 `bad_request`, 502 `tei_error` or 500 `internal_error` by kind; an undecodable body gets 400 `invalid_json` "Invalid JSON in request body"; anything else gets 500 `internal_error` "Internal Server Error" |
| Rejection.ApiErrorRoundTrip | src/main.rs:289-294 | a handler error can be read back from its reply's code and message |
| Rejection.StatusDeterminedByCode | src/main.rs:287-307 | two rejections with the same machine code get the same status |
| Rejection.ClientFaultsAreFourHundreds | src/main.rs:287-307 | the status is below 500 exactly for not-found, bad-request and undecodable-body rejections, and 502 exactly for TEI errors |
| Pipeline.Translate | src/main.rs:139-142 | the backend request has the inbound query and the inbound documents as texts, same length, same elements, same order |
| Pipeline.HandleRerank | src/main.rs:94-271 | the handler succeeds exactly when the request is acceptable and the backend gave a decoded 2xx reply with one entry per document, and then answers the ranking of that reply's entries; for an acceptable request whose backend call failed it answers that call's error unchanged; it answers BadRequest exactly when the request is not acceptable, so a list of exactly the limit passes |
| Pipeline.EmptyQueryRejectedFirst | src/main.rs:112-117 | an all-whitespace query gives BadRequest "Query cannot be empty", whatever the documents and the backend |
| Pipeline.EmptyDocumentsRejected | src/main.rs:119-124 | with a visible query, no documents gives BadRequest "Documents list cannot be empty" |
| Pipeline.TooManyDocumentsRejected | src/main.rs:131-136 | with a visible query, more documents than the limit gives BadRequest with a message from which the limit reads back |
| Pipeline.RejectedBeforeBackend | src/main.rs:111-164 | the result for an unacceptable request does not depend on the backend |
| Pipeline.BackendSeesTranslation | src/main.rs:139-175 | the result depends on the backend only through its answer to the query and documents copied as they are |
| Pipeline.TopNAndModelIgnored | src/main.rs:240-258 | changing `top_n` or `model` never changes the result |
| Pipeline.LengthMismatchRejected | src/main.rs:224-233 | a decoded reply whose length differs from the document count gives the length-mismatch TEIError and no results |
| Pipeline.SuccessRanksBackendEntries | src/main.rs:224-258 | for an acceptable request and a decoded 2xx reply with one entry per document, the handler succeeds with one result per document, sorted by non-increasing relevance, a permutation of the backend's pairs, ties in backend order, and equal to the unique such arrangement |
| Pipeline.IndexMappingExample | src/main.rs:242-256 | documents scored 0.1 and 0.9 come back as index 1 with 0.9, then index 0 with 0.1 |
| Pipeline.RerankRoute | src/main.rs:75-80 | the route answers 200 with the handler's ranking exactly when the body decoded and the handler succeeded, and otherwise 400, 500 or 502 with an error body |
| Pipeline.MalformedBodyIsInvalidJson | src/main.rs:295-303 | `RejectionReply` sends the error mapper's status and body; an undecodable request body gets 400 `invalid_json` "Invalid JSON in request body" |
| Pipeline.BackendErrorReachesCaller | src/main.rs:153-293 | for an acceptable request, a failed backend call reaches the caller with its message, as 502 `tei_error`, or 500 `internal_error` when the client could not be built |
| Pipeline.BackendStatusErrorReachesCaller | src/main.rs:177-292 | for an acceptable request, a non-2xx backend reply reaches the caller as 502 `tei_error` with the message naming the status and quoting the body |
| Pipeline.MalformedBackendJsonReachesCaller | src/main.rs:213-292 | for an acceptable request, a 2xx backend body that does not decode reaches the caller as 502 `tei_error` quoting the raw body |
| Pipeline.HandlerErrorReachesCaller | src/main.rs:287-294 | a handler error reaches the caller with its message unchanged and 400 `bad_request`, 502 `tei_error` or 500 `internal_error` by kind |

## Left out

- Reading the environment (`TEI_ENDPOINT`, the port, `MAX_CLIENT_BATCH_SIZE`, src/main.rs:54-60 and 126-129): the batch limit is a parameter, and an unparsable setting falling back to 1000 is not modelled.
- Server wiring (src/main.rs:67-91): the health endpoint, CORS policy, route composition and startup are framework plumbing. Rejections that warp raises on its own (method not allowed, unsupported media type, …) appear only as the `Unhandled` kind.
- The HTTP exchange with the backend (src/main.rs:153-197): client construction, the POST, the 30-second timeout and reading the body are I/O. Each way they can end is a variant of `Backend.BackendOutcome`.
- JSON decoding and encoding: decoding the backend body is abstract (`BodyText.parsed`), and decoding the inbound body is the `Option` given to `Pipeline.RerankRoute`. Pretty-printed debug output and all logging (src/main.rs:98-109, 144-150, 199-209, 235-238, 260-269) are left out because they do not affect the result.
- Backend.StatusDisplay: the status's canonical reason phrase (and the fallback when it has none) is an input, not a table. Status codes are unbounded naturals, not `u16`.
- Ranking.Rank: scores are reals, so NaN and the comparator's fallback to `Equal` for incomparable scores are not modelled. With NaN the source's order is unspecified.
- Backend indices are trusted, as in the source: nothing checks that they are in range or distinct.
- Async execution: there is no shared state between requests, so nothing concurrent is modelled.
