/**
 * The error taxonomy of the client and the classifier that turns a failed
 * HTTP call (ureq's error) into one of its variants (src/error.rs).
 */
module Errors {
  import opened Common

  /** Stand-in for `ureq::Transport`: a failure with no HTTP response, carried and never inspected. */
  datatype TransportFailure = TransportFailure(description: string)

  /** Stand-in for `std::io::Error`, carried by `DeserializeError`. */
  datatype IoFailure = IoFailure(description: string)

  /** The service's error envelope `{ "error": ..., "error_message": ... }`. */
  datatype RawError = RawError(errorMessage: string, error: string)

  datatype Error =
    | ApiUnavailable(message: string)
    | MissingKey(message: string)
    | BadKey(message: string)
    | TooManyRequests(message: string)
    | TooManyDecks(message: string)
    | TooManyCardsInDeck(message: string)
    | TooManyCardsTotal(message: string)
    | BadDeck(message: string)
    | BadVid(message: string)
    | BadSid(message: string)
    | BadRid(message: string)
    | BadImage(message: string)
    | BadAudio(message: string)
    | BadRequest(message: string)
    | BadSentence(message: string)
    | BadTranslation(message: string)
    | DeserializeError(cause: IoFailure)
    | Transport(failure: TransportFailure)
    | Unhandled(code: u16, raw: RawError)

  datatype ErrorKind =
    | ApiUnavailable
    | MissingKey
    | BadKey
    | BadRequest
    | BadDeck
    | BadVid
    | BadSid
    | BadRid
    | BadImage
    | BadAudio
    | BadSentence
    | BadTranslation
    | TooManyRequests
    | TooManyDecks
    | TooManyCardsInDeck
    | TooManyCardsTotal
    | Transport
    | DeserializeError
    | Unhandled

  /** `Error::kind`: every variant is tagged with the kind of the same name. */
  function Kind(e: Error): (k: ErrorKind)
    ensures k.ApiUnavailable? <==> e.ApiUnavailable?
    ensures k.MissingKey? <==> e.MissingKey?
    ensures k.BadKey? <==> e.BadKey?
    ensures k.BadRequest? <==> e.BadRequest?
    ensures k.BadDeck? <==> e.BadDeck?
    ensures k.BadVid? <==> e.BadVid?
    ensures k.BadSid? <==> e.BadSid?
    ensures k.BadRid? <==> e.BadRid?
    ensures k.BadImage? <==> e.BadImage?
    ensures k.BadAudio? <==> e.BadAudio?
    ensures k.BadSentence? <==> e.BadSentence?
    ensures k.BadTranslation? <==> e.BadTranslation?
    ensures k.TooManyRequests? <==> e.TooManyRequests?
    ensures k.TooManyDecks? <==> e.TooManyDecks?
    ensures k.TooManyCardsInDeck? <==> e.TooManyCardsInDeck?
    ensures k.TooManyCardsTotal? <==> e.TooManyCardsTotal?
    ensures k.Transport? <==> e.Transport?
    ensures k.DeserializeError? <==> e.DeserializeError?
    ensures k.Unhandled? <==> e.Unhandled?
  {
    match e
    case MissingKey(_) => ErrorKind.MissingKey
    case BadKey(_) => ErrorKind.BadKey
    case BadRequest(_) => ErrorKind.BadRequest
    case Transport(_) => ErrorKind.Transport
    case Unhandled(_, _) => ErrorKind.Unhandled
    case TooManyRequests(_) => ErrorKind.TooManyRequests
    case ApiUnavailable(_) => ErrorKind.ApiUnavailable
    case TooManyDecks(_) => ErrorKind.TooManyDecks
    case TooManyCardsInDeck(_) => ErrorKind.TooManyCardsInDeck
    case TooManyCardsTotal(_) => ErrorKind.TooManyCardsTotal
    case BadDeck(_) => ErrorKind.BadDeck
    case BadVid(_) => ErrorKind.BadVid
    case BadSid(_) => ErrorKind.BadSid
    case BadRid(_) => ErrorKind.BadRid
    case BadImage(_) => ErrorKind.BadImage
    case BadAudio(_) => ErrorKind.BadAudio
    case BadSentence(_) => ErrorKind.BadSentence
    case BadTranslation(_) => ErrorKind.BadTranslation
    case DeserializeError(_) => ErrorKind.DeserializeError
  }

  /**
   * A failed call as ureq reports it: an HTTP status with its body, or a
   * transport failure. `body` is the result of decoding the response body as
   * a `RawError`; `None` means the body did not decode.
   */
  datatype UreqError =
    | Status(code: u16, body: Option<RawError>)
    | Transport(failure: TransportFailure)

  /** The kinds the classifier can yield. */
  predicate Classifiable(k: ErrorKind)
  {
    k.MissingKey? || k.BadKey? || k.TooManyRequests? || k.BadRequest? || k.Unhandled? || k.Transport?
  }

  /**
   * `impl From<ureq::Error> for Error`. The result is `None` exactly where
   * the source's `.unwrap()` panics: a status whose body is not an envelope.
   */
  function FromUreq(r: UreqError): (e: Option<Error>)
    ensures e.None? <==> r.Status? && r.body.None?
    ensures e.Some? ==> Classifiable(Kind(e.value))
    ensures r.Transport? <==> e.Some? && e.value.Transport?
    ensures r.Transport? ==> e == Some(Error.Transport(r.failure))
    ensures e.Some? && e.value.Unhandled? ==> r.Status? && e.value.code == r.code && Some(e.value.raw) == r.body
    ensures r.Status? && r.code !in {400, 403, 429} && r.body.Some? ==> e == Some(Error.Unhandled(r.code, r.body.value))
  {
    match r
    case Status(code, body) =>
      if body.None? then None
      else
        var raw := body.value;
        if code == 403 then
          if raw.error != "bad_key" then Some(Error.Unhandled(code, raw))
          else if raw.errorMessage == "missing API key" then Some(Error.MissingKey(raw.errorMessage))
          else if raw.errorMessage == "invalid API key" then Some(Error.BadKey(raw.errorMessage))
          else Some(Error.Unhandled(code, raw))
        else if code == 429 then
          if raw.error != "too_many_requests" then Some(Error.Unhandled(code, raw))
          else Some(Error.TooManyRequests(raw.errorMessage))
        else if code == 400 then
          if raw.errorMessage == "bad_request" then Some(Error.BadRequest(raw.errorMessage))
          else Some(Error.Unhandled(code, raw))
        else Some(Error.Unhandled(code, raw))
    case Transport(a) => Some(Error.Transport(a))
  }

  /** Classification of a status whose body decoded to `raw`. */
  function ClassifyStatus(code: u16, raw: RawError): Error
  {
    FromUreq(UreqError.Status(code, Some(raw))).value
  }

  // The decision table, one row per lemma, each stated in both directions
  // over every status code and every envelope.

  lemma MissingKeyRow(code: u16, raw: RawError)
    ensures var e := ClassifyStatus(code, raw); e.MissingKey? <==> code == 403 && raw.error == "bad_key" && raw.errorMessage == "missing API key"
    ensures var e := ClassifyStatus(code, raw); e.MissingKey? ==> e.message == raw.errorMessage
  {
  }

  lemma BadKeyRow(code: u16, raw: RawError)
    ensures var e := ClassifyStatus(code, raw); e.BadKey? <==> code == 403 && raw.error == "bad_key" && raw.errorMessage == "invalid API key"
    ensures var e := ClassifyStatus(code, raw); e.BadKey? ==> e.message == raw.errorMessage
  {
  }

  lemma TooManyRequestsRow(code: u16, raw: RawError)
    ensures var e := ClassifyStatus(code, raw); e.TooManyRequests? <==> code == 429 && raw.error == "too_many_requests"
    ensures var e := ClassifyStatus(code, raw); e.TooManyRequests? ==> e.message == raw.errorMessage
  {
  }

  lemma BadRequestRow(code: u16, raw: RawError)
    ensures var e := ClassifyStatus(code, raw); e.BadRequest? <==> code == 400 && raw.errorMessage == "bad_request"
    ensures var e := ClassifyStatus(code, raw); e.BadRequest? ==> e.message == raw.errorMessage
  {
  }

  /** Everything the table does not name falls through to `Unhandled`, carrying the status and envelope unchanged. */
  lemma UnhandledRow(code: u16, raw: RawError)
    ensures var e := ClassifyStatus(code, raw); e.Unhandled? <==>
              && !(code == 403 && raw.error == "bad_key" && raw.errorMessage in {"missing API key", "invalid API key"})
              && !(code == 429 && raw.error == "too_many_requests")
              && !(code == 400 && raw.errorMessage == "bad_request")
    ensures var e := ClassifyStatus(code, raw); e.Unhandled? ==> e == Error.Unhandled(code, raw)
  {
  }

  /** 403 consults `error` first: an envelope whose `error` is not "bad_key" is unhandled whatever its message. */
  lemma ForbiddenNeedsBadKey(raw: RawError)
    requires raw.error != "bad_key"
    ensures ClassifyStatus(403, raw) == Error.Unhandled(403, raw)
  {
  }

  /** 429 consults only `error`: changing the message changes nothing but the carried text. */
  lemma TooManyRequestsIgnoresMessage(error: string, m1: string, m2: string)
    ensures Kind(ClassifyStatus(429, RawError(m1, error))) == Kind(ClassifyStatus(429, RawError(m2, error)))
  {
  }

  /** 400 consults only `error_message`: the `error` code plays no part. */
  lemma BadRequestIgnoresError(message: string, e1: string, e2: string)
    ensures Kind(ClassifyStatus(400, RawError(message, e1))) == Kind(ClassifyStatus(400, RawError(message, e2)))
  {
  }
}
