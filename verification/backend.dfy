/** The backend call, as the handler sees its outcome. The HTTP exchange itself (client
    construction, POST with a 30-second timeout, reading the body, JSON decoding) is not
    modelled; each way it can end is one variant of `BackendOutcome`, and this module turns an
    outcome into either the backend's scored entries or the `ApiError` the handler raises. */
module Backend {
  import opened Wrappers
  import opened Text
  import opened Api

  /** What reading the reply body gave: a failure, or the raw text together with what JSON
      decoding of it as an array of `{index, score}` gave (`None` when decoding failed). */
  datatype BodyRead =
    | Unreadable
    | BodyText(raw: string, parsed: Option<seq<TEIRankResult>>)

  /** How the backend call ended. `reason` is the status's canonical reason phrase, which
      the status's display form prints after the code. */
  datatype BackendOutcome =
    | ClientBuildFailed
    | SendFailed(cause: string)
    | Replied(status: nat, reason: string, body: BodyRead)

  const ClientBuildFailedMessage: string := "HTTP client creation failed"
  const ConnectFailedPrefix: string := "Failed to connect to TEI service: "
  const StatusErrorPrefix: string := "TEI service error "
  const UnknownErrorText: string := "Unknown error"
  const ReadFailedMessage: string := "Failed to read response from TEI service"
  const InvalidFormatPrefix: string :=
    "Invalid response format from TEI service. Expected array of scores, got: "
  const LengthMismatchMessage: string := "TEI response length doesn't match input documents"

  /** A 2xx status. */
  predicate IsSuccess(status: nat) {
    200 <= status <= 299
  }

  /** The display form of a status: its code in decimal, a space, its reason phrase. */
  function StatusDisplay(status: nat, reason: string): string {
    NatToString(status) + " " + reason
  }

  /** The body text quoted in a non-2xx error, or a placeholder when it could not be read. */
  function ErrorText(body: BodyRead): string {
    match body
    case Unreadable => UnknownErrorText
    case BodyText(raw, _) => raw
  }

  /** The scored entries of a successful call, or the error the handler raises for the
      outcome. Only a 2xx reply whose body was read and decoded succeeds; every failure is a
      backend error except a client that could not be built, which is an internal one. */
  function ReceiveScores(outcome: BackendOutcome): (r: Result<seq<TEIRankResult>, ApiError>)
    ensures r.Success? <==>
      && outcome.Replied?
      && IsSuccess(outcome.status)
      && outcome.body.BodyText?
      && outcome.body.parsed.Some?
    ensures r.Success? ==> r.value == outcome.body.parsed.value
    ensures r.Failure? ==> (r.error.InternalError? <==> outcome.ClientBuildFailed?)
    ensures r.Failure? ==> !r.error.BadRequest?
  {
    match outcome
    case ClientBuildFailed =>
      Failure(InternalError(ClientBuildFailedMessage))
    case SendFailed(cause) =>
      Failure(TEIError(ConnectFailedPrefix + cause))
    case Replied(status, reason, body) =>
      if !IsSuccess(status) then
        Failure(TEIError(StatusErrorMessage(status, reason, ErrorText(body))))
      else
        match body
        case Unreadable =>
          Failure(TEIError(ReadFailedMessage))
        case BodyText(raw, None) =>
          Failure(TEIError(InvalidFormatPrefix + raw))
        case BodyText(_, Some(scores)) =>
          Success(scores)
  }

  /** The only check between request and reply: one scored entry per submitted document. */
  function CheckLength(scores: seq<TEIRankResult>, expected: nat): (r: Result<seq<TEIRankResult>, ApiError>)
    ensures r.Success? <==> |scores| == expected
    ensures r.Success? ==> r.value == scores
    ensures r.Failure? ==> r.error == TEIError(LengthMismatchMessage)
  {
    if |scores| != expected then Failure(TEIError(LengthMismatchMessage)) else Success(scores)
  }

  /** The message for a non-2xx reply: the fixed prefix, the status code in decimal (readable
      back), the reason phrase, and the error text at the end. */
  function StatusErrorMessage(status: nat, reason: string, text: string): (m: string)
    ensures var p := |StatusErrorPrefix|;
            var d := NatToString(status);
            && p + |d| <= |m|
            && m[..p] == StatusErrorPrefix
            && m[p..p + |d|] == d
            && DecimalValue(d) == status
            && |text| <= |m|
            && m[|m| - |text|..] == text
  {
    ConcatSlices(StatusErrorPrefix, NatToString(status), " ", reason, ": ", text);
    DecimalRoundTrip(status);
    StatusErrorPrefix + StatusDisplay(status, reason) + ": " + text
  }

  /** The first part, the second part, and the last part of a six-part concatenation
      (grouped as the status message is) can be sliced back out of it. */
  lemma ConcatSlices(a: string, b: string, c: string, d: string, e: string, f: string)
    ensures var m := a + (b + c + d) + e + f;
            && |a| + |b| <= |m| && |f| <= |m|
            && m[..|a|] == a
            && m[|a|..|a| + |b|] == b
            && m[|m| - |f|..] == f
  {
    var m := a + (b + c + d) + e + f;
    assert m[..|a|] == a;
    assert m[|a|..|a| + |b|] == b;
    assert m[|m| - |f|..] == f;
  }

  /** A non-2xx reply is a backend error carrying the status message built from its status,
      reason phrase and body text (or the placeholder when the body could not be read). */
  lemma StatusErrorReportsStatusAndBody(status: nat, reason: string, body: BodyRead)
    requires !IsSuccess(status)
    ensures ReceiveScores(Replied(status, reason, body)) ==
              Failure(TEIError(StatusErrorMessage(status, reason, ErrorText(body))))
    ensures body.Unreadable? ==> ErrorText(body) == UnknownErrorText
    ensures body.BodyText? ==> ErrorText(body) == body.raw
  {
  }

  /** A 2xx reply that does not decode is reported with the raw body it sent. */
  lemma InvalidFormatQuotesBody(status: nat, reason: string, raw: string)
    requires IsSuccess(status)
    ensures var r := ReceiveScores(Replied(status, reason, BodyText(raw, None)));
            && r.Failure? && r.error.TEIError?
            && r.error.msg == InvalidFormatPrefix + raw
  {
  }

  /** A transport failure is reported as a backend error quoting its cause. */
  lemma SendFailureQuotesCause(cause: string)
    ensures var r := ReceiveScores(SendFailed(cause));
            && r.Failure? && r.error.TEIError?
            && r.error.msg == ConnectFailedPrefix + cause
  {
  }

  /** A client that could not be built is the one internal error, with its fixed message. */
  lemma ClientBuildFailureIsInternal()
    ensures ReceiveScores(ClientBuildFailed) == Failure(InternalError(ClientBuildFailedMessage))
    ensures ClientBuildFailedMessage == "HTTP client creation failed"
  {
  }

  /** A 2xx reply whose body could not be read is a backend error with its fixed message. */
  lemma UnreadableBodyReported(status: nat, reason: string)
    requires IsSuccess(status)
    ensures ReceiveScores(Replied(status, reason, Unreadable)) == Failure(TEIError(ReadFailedMessage))
    ensures ReadFailedMessage == "Failed to read response from TEI service"
  {
  }
}
