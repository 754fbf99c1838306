/**
 * The request validator of `restartVM`: the one condition that decides whether a
 * report is refused with 403 before any remote call is made.
 */
module Gate {
  import opened Wrappers

  /** The parts of the inbound HTTP request the function reads. */
  datatype Request = Request(
    headerSecret: Option<string>,   // header `x-custom-secret`
    payloadSecret: Option<string>,  // body field `secret`
    responseState: string           // body field `responseState`
  )

  /** The health signals the function acts on. */
  datatype Signal = NotResponding | RequestTimeout | ReportingError(detail: string)

  const ReportingErrorPrefix: string := "Reporting Error"
  const NotRespondingText: string := "Not Responding"
  const RequestTimeoutText: string := "Request Timeout"

  /** The text a monitor sends for a signal. */
  function Render(s: Signal): string {
    match s
    case NotResponding => NotRespondingText
    case RequestTimeout => RequestTimeoutText
    case ReportingError(detail) => ReportingErrorPrefix + detail
  }

  /**
   * Parses `responseState`. The prefix test comes first, as in the source; the three
   * accepted shapes cannot overlap, so the order does not change which texts are accepted.
   */
  function Classify(state: string): (r: Option<Signal>)
    ensures r.Some? <==>
      (ReportingErrorPrefix <= state || state == NotRespondingText || state == RequestTimeoutText)
    ensures r.Some? ==> Render(r.value) == state
  {
    if ReportingErrorPrefix <= state then
      assert state == ReportingErrorPrefix + state[|ReportingErrorPrefix|..];
      Some(ReportingError(state[|ReportingErrorPrefix|..]))
    else if state == NotRespondingText then Some(NotResponding)
    else if state == RequestTimeoutText then Some(RequestTimeout)
    else None
  }

  /** Rendering a signal and classifying the text gives the signal back. */
  lemma ClassifyRender(s: Signal)
    ensures Classify(Render(s)) == Some(s)
  {
    match s
    case NotResponding =>
      assert NotRespondingText[0] != ReportingErrorPrefix[0];
    case RequestTimeout =>
      assert RequestTimeoutText[2] != ReportingErrorPrefix[2];
    case ReportingError(detail) =>
      assert (ReportingErrorPrefix + detail)[..|ReportingErrorPrefix|] == ReportingErrorPrefix;
      assert (ReportingErrorPrefix + detail)[|ReportingErrorPrefix|..] == detail;
  }

  /**
   * Authentication: either channel equal to the configured secret suffices. Equality is on
   * optional values because JavaScript's `!==` treats two `undefined`s as equal.
   */
  predicate Authenticated(secret: Option<string>, req: Request)
    ensures secret.Some? ==>
      (Authenticated(secret, req) <==> secret.value in OfferedSecrets(req))
    ensures secret.None? ==>
      (Authenticated(secret, req) <==> req.headerSecret.None? || req.payloadSecret.None?)
  {
    req.headerSecret == secret || req.payloadSecret == secret
  }

  /** The secrets a request actually carries, over both channels. */
  function OfferedSecrets(req: Request): set<string> {
    (if req.headerSecret.Some? then {req.headerSecret.value} else {}) +
    (if req.payloadSecret.Some? then {req.payloadSecret.value} else {})
  }

  /** The negation of the refusal condition: authenticated and carrying an accepted signal. */
  predicate Admits(secret: Option<string>, req: Request)
    ensures Admits(secret, req) <==>
      (req.headerSecret == secret || req.payloadSecret == secret) &&
      (ReportingErrorPrefix <= req.responseState || req.responseState == NotRespondingText ||
       req.responseState == RequestTimeoutText)
  {
    Authenticated(secret, req) && Classify(req.responseState).Some?
  }
}
