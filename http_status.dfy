/**
 * The status tables of core/src/destination/http.ts. HTTP status codes and
 * the internal status codes a lane reports are translated in both
 * directions. The internal codes are the string-literal unions the source
 * types them with (informational, success, client-error and server-error
 * codes), and each table is the function it stands for.
 */
module HttpStatus {
  import opened Wrappers
  import opened Values
  import Js

  /** The 1xx and 3xx internal codes. */
  datatype InformationalCode =
    | Continue
    | SwitchingProtocol
    | MultipleChoices
    | MovedPermanently
    | Found
    | NotModified

  /** The 2xx internal codes. */
  datatype SuccessCode =
    | Ok
    | Created
    | Accepted
    | NonAuthorative
    | NoContent
    | ResetContent
    | PartialContent
    | MultiStatus
    | AlreadyReported
    | ImUsed

  /** The 4xx internal codes. */
  datatype ClientErrorCode =
    | BadRequest
    | Unauthorized
    | PaymentRequired
    | Forbidden
    | ResourceNotFound
    | NotAllowed
    | NotAcceptable
    | ProxyAuthenticationRequired
    | RequestTimeout
    | Conflict
    | Gone
    | LengthRequired
    | PreconditionFailed
    | PayloadTooLarge
    | UriTooLong
    | UnsupportedMediaType
    | RangeNotSatisfiable
    | ExpectationFailed
    | IAmATeapot
    | MisdirectedRequest
    | UnprocessableEntity
    | Locked
    | FailedDependency
    | TooEarly
    | UpgradeRequired
    | PreconditionRequired
    | TooManyRequests
    | RequestHeaderFieldsTooLarge
    | UnavailableForLegalReasons

  /** The 5xx internal codes. */
  datatype ServerErrorCode =
    | InternalError
    | NotImplemented
    | BadGateway
    | ServiceUnavailable
    | GatewayTimeout
    | HttpVersionNotSupported
    | VariantAlsoNegotiates
    | InsufficientStorage
    | LoopDetected
    | NotExtended
    | NetworkAuthenticationRequired

  /** An internal status code, by the class its type places it in. */
  datatype InternalCode =
    | Informational(informational: InformationalCode)
    | Success(success: SuccessCode)
    | ClientError(clientError: ClientErrorCode)
    | ServerError(serverError: ServerErrorCode)

  /** The error codes: those errorCodeToHttpStatus is keyed by. */
  predicate IsErrorCode(c: InternalCode)
  {
    c.ClientError? || c.ServerError?
  }

  function InformationalName(c: InformationalCode): string
  {
    match c
    case Continue => "continue"
    case SwitchingProtocol => "switching-protocol"
    case MultipleChoices => "multiple-choices"
    case MovedPermanently => "moved-permanently"
    case Found => "found"
    case NotModified => "not-modified"
  }

  function SuccessName(c: SuccessCode): string
  {
    match c
    case Ok => "ok"
    case Created => "created"
    case Accepted => "accepted"
    case NonAuthorative => "non-authorative"
    case NoContent => "no-content"
    case ResetContent => "reset-content"
    case PartialContent => "partial-content"
    case MultiStatus => "multi-status"
    case AlreadyReported => "already-reported"
    case ImUsed => "im-used"
  }

  function ClientErrorName(c: ClientErrorCode): string
  {
    match c
    case BadRequest => "bad-request"
    case Unauthorized => "unauthorized"
    case PaymentRequired => "payment-required"
    case Forbidden => "forbidden"
    case ResourceNotFound => "resource-not-found"
    case NotAllowed => "not-allowed"
    case NotAcceptable => "not-acceptable"
    case ProxyAuthenticationRequired => "proxy-authentication-required"
    case RequestTimeout => "request-timeout"
    case Conflict => "conflict"
    case Gone => "gone"
    case LengthRequired => "length-required"
    case PreconditionFailed => "precondition-failed"
    case PayloadTooLarge => "payload-too-large"
    case UriTooLong => "uri-too-long"
    case UnsupportedMediaType => "unsupported-media-type"
    case RangeNotSatisfiable => "range-not-satisfiable"
    case ExpectationFailed => "expectation-failed"
    case IAmATeapot => "i-am-a-teapot"
    case MisdirectedRequest => "misdirected-request"
    case UnprocessableEntity => "unprocessable-entity"
    case Locked => "locked"
    case FailedDependency => "failed-dependency"
    case TooEarly => "too-early"
    case UpgradeRequired => "upgrade-required"
    case PreconditionRequired => "precondition-required"
    case TooManyRequests => "too-many-requests"
    case RequestHeaderFieldsTooLarge => "request-header-fields-too-large"
    case UnavailableForLegalReasons => "unavailable-for-legal-reasons"
  }

  function ServerErrorName(c: ServerErrorCode): string
  {
    match c
    case InternalError => "internal-error"
    case NotImplemented => "not-implemented"
    case BadGateway => "bad-gateway"
    case ServiceUnavailable => "service-unavailable"
    case GatewayTimeout => "gateway-timeout"
    case HttpVersionNotSupported => "http-version-not-supported"
    case VariantAlsoNegotiates => "variant-also-negotiates"
    case InsufficientStorage => "insufficient-storage"
    case LoopDetected => "loop-detected"
    case NotExtended => "not-extended"
    case NetworkAuthenticationRequired => "network-authentication-required"
  }

  /** The string each internal code is written as. */
  function CodeName(c: InternalCode): string
  {
    match c
    case Informational(i) => InformationalName(i)
    case Success(s) => SuccessName(s)
    case ClientError(e) => ClientErrorName(e)
    case ServerError(e) => ServerErrorName(e)
  }

  /**
   * The internal code a string names, if any: what indexing a table keyed
   * by internal codes with an arbitrary string finds. Names are told apart
   * by their length first.
   */
  function ParseCode(s: string): Option<InternalCode>
  {
    match |s|
    case 2 =>
      if s == "ok" then Some(Success(SuccessCode.Ok))
      else None
    case 4 =>
      if s == "gone" then Some(ClientError(Gone))
      else None
    case 5 =>
      if s == "found" then Some(Informational(Found))
      else None
    case 6 =>
      if s == "locked" then Some(ClientError(Locked))
      else None
    case 7 =>
      if s == "created" then Some(Success(Created))
      else if s == "im-used" then Some(Success(ImUsed))
      else None
    case 8 =>
      if s == "continue" then Some(Informational(Continue))
      else if s == "accepted" then Some(Success(Accepted))
      else if s == "conflict" then Some(ClientError(Conflict))
      else None
    case 9 =>
      if s == "forbidden" then Some(ClientError(Forbidden))
      else if s == "too-early" then Some(ClientError(TooEarly))
      else None
    case 10 =>
      if s == "no-content" then Some(Success(NoContent))
      else None
    case 11 =>
      if s == "bad-request" then Some(ClientError(BadRequest))
      else if s == "not-allowed" then Some(ClientError(NotAllowed))
      else if s == "bad-gateway" then Some(ServerError(BadGateway))
      else None
    case 12 =>
      if s == "multi-status" then Some(Success(MultiStatus))
      else if s == "not-modified" then Some(Informational(NotModified))
      else if s == "unauthorized" then Some(ClientError(Unauthorized))
      else if s == "uri-too-long" then Some(ClientError(UriTooLong))
      else if s == "not-extended" then Some(ServerError(NotExtended))
      else None
    case 13 =>
      if s == "reset-content" then Some(Success(ResetContent))
      else if s == "i-am-a-teapot" then Some(ClientError(IAmATeapot))
      else if s == "loop-detected" then Some(ServerError(LoopDetected))
      else None
    case 14 =>
      if s == "not-acceptable" then Some(ClientError(NotAcceptable))
      else if s == "internal-error" then Some(ServerError(InternalError))
      else None
    case 15 =>
      if s == "non-authorative" then Some(Success(NonAuthorative))
      else if s == "partial-content" then Some(Success(PartialContent))
      else if s == "request-timeout" then Some(ClientError(RequestTimeout))
      else if s == "length-required" then Some(ClientError(LengthRequired))
      else if s == "not-implemented" then Some(ServerError(NotImplemented))
      else if s == "gateway-timeout" then Some(ServerError(GatewayTimeout))
      else None
    case 16 =>
      if s == "already-reported" then Some(Success(AlreadyReported))
      else if s == "multiple-choices" then Some(Informational(MultipleChoices))
      else if s == "payment-required" then Some(ClientError(PaymentRequired))
      else if s == "upgrade-required" then Some(ClientError(UpgradeRequired))
      else None
    case 17 =>
      if s == "moved-permanently" then Some(Informational(MovedPermanently))
      else if s == "payload-too-large" then Some(ClientError(PayloadTooLarge))
      else if s == "failed-dependency" then Some(ClientError(FailedDependency))
      else if s == "too-many-requests" then Some(ClientError(TooManyRequests))
      else None
    case 18 =>
      if s == "switching-protocol" then Some(Informational(SwitchingProtocol))
      else if s == "resource-not-found" then Some(ClientError(ResourceNotFound))
      else if s == "expectation-failed" then Some(ClientError(ExpectationFailed))
      else None
    case 19 =>
      if s == "precondition-failed" then Some(ClientError(PreconditionFailed))
      else if s == "misdirected-request" then Some(ClientError(MisdirectedRequest))
      else if s == "service-unavailable" then Some(ServerError(ServiceUnavailable))
      else None
    case 20 =>
      if s == "unprocessable-entity" then Some(ClientError(UnprocessableEntity))
      else if s == "insufficient-storage" then Some(ServerError(InsufficientStorage))
      else None
    case 21 =>
      if s == "range-not-satisfiable" then Some(ClientError(RangeNotSatisfiable))
      else if s == "precondition-required" then Some(ClientError(PreconditionRequired))
      else None
    case 22 =>
      if s == "unsupported-media-type" then Some(ClientError(UnsupportedMediaType))
      else None
    case 23 =>
      if s == "variant-also-negotiates" then Some(ServerError(VariantAlsoNegotiates))
      else None
    case 26 =>
      if s == "http-version-not-supported" then Some(ServerError(HttpVersionNotSupported))
      else None
    case 29 =>
      if s == "proxy-authentication-required" then Some(ClientError(ProxyAuthenticationRequired))
      else if s == "unavailable-for-legal-reasons" then Some(ClientError(UnavailableForLegalReasons))
      else None
    case 31 =>
      if s == "request-header-fields-too-large" then Some(ClientError(RequestHeaderFieldsTooLarge))
      else if s == "network-authentication-required" then Some(ServerError(NetworkAuthenticationRequired))
      else None
    case _ => None
  }

  /** httpErrorStatusToInternal (lines 19-63): the 4xx and 5xx statuses. */
  function HttpErrorStatusToInternal(status: int): Option<InternalCode>
  {
    match status
    case 400 => Some(ClientError(BadRequest))
    case 401 => Some(ClientError(Unauthorized))
    case 402 => Some(ClientError(PaymentRequired))
    case 403 => Some(ClientError(Forbidden))
    case 404 => Some(ClientError(ResourceNotFound))
    case 405 => Some(ClientError(NotAllowed))
    case 406 => Some(ClientError(NotAcceptable))
    case 407 => Some(ClientError(ProxyAuthenticationRequired))
    case 408 => Some(ClientError(RequestTimeout))
    case 409 => Some(ClientError(Conflict))
    case 410 => Some(ClientError(Gone))
    case 411 => Some(ClientError(LengthRequired))
    case 412 => Some(ClientError(PreconditionFailed))
    case 413 => Some(ClientError(PayloadTooLarge))
    case 414 => Some(ClientError(UriTooLong))
    case 415 => Some(ClientError(UnsupportedMediaType))
    case 416 => Some(ClientError(RangeNotSatisfiable))
    case 417 => Some(ClientError(ExpectationFailed))
    case 418 => Some(ClientError(IAmATeapot))
    case 421 => Some(ClientError(MisdirectedRequest))
    case 422 => Some(ClientError(UnprocessableEntity))
    case 423 => Some(ClientError(Locked))
    case 424 => Some(ClientError(FailedDependency))
    case 425 => Some(ClientError(TooEarly))
    case 426 => Some(ClientError(UpgradeRequired))
    case 428 => Some(ClientError(PreconditionRequired))
    case 429 => Some(ClientError(TooManyRequests))
    case 431 => Some(ClientError(RequestHeaderFieldsTooLarge))
    case 451 => Some(ClientError(UnavailableForLegalReasons))
    case 500 => Some(ServerError(InternalError))
    case 501 => Some(ServerError(NotImplemented))
    case 502 => Some(ServerError(BadGateway))
    case 503 => Some(ServerError(ServiceUnavailable))
    case 504 => Some(ServerError(GatewayTimeout))
    case 505 => Some(ServerError(HttpVersionNotSupported))
    case 506 => Some(ServerError(VariantAlsoNegotiates))
    case 507 => Some(ServerError(InsufficientStorage))
    case 508 => Some(ServerError(LoopDetected))
    case 510 => Some(ServerError(NotExtended))
    case 511 => Some(ServerError(NetworkAuthenticationRequired))
    case _ => None
  }

  /**
   * httpStatusToInternal (lines 78-99): the 1xx, 2xx and 3xx entries
   * written out, merged with the error table by `Object.assign`.
   */
  function HttpStatusToInternal(status: int): Option<InternalCode>
  {
    if HttpErrorStatusToInternal(status).Some? then HttpErrorStatusToInternal(status)
    else
      match status
      case 100 => Some(Informational(Continue))
      case 101 => Some(Informational(SwitchingProtocol))
      case 200 => Some(Success(SuccessCode.Ok))
      case 201 => Some(Success(Created))
      case 202 => Some(Success(Accepted))
      case 203 => Some(Success(NonAuthorative))
      case 204 => Some(Success(NoContent))
      case 205 => Some(Success(ResetContent))
      case 206 => Some(Success(PartialContent))
      case 207 => Some(Success(MultiStatus))
      case 208 => Some(Success(AlreadyReported))
      case 226 => Some(Success(ImUsed))
      case 300 => Some(Informational(MultipleChoices))
      case 301 => Some(Informational(MovedPermanently))
      case 302 => Some(Informational(Found))
      case 304 => Some(Informational(NotModified))
      case _ => None
  }

  /** errorCodeToHttpStatus (lines 101-143), defined on the error codes. */
  function ErrorCodeToHttpStatus(c: InternalCode): Option<int>
  {
    match c
    case ClientError(BadRequest) => Some(400)
    case ClientError(Unauthorized) => Some(401)
    case ClientError(PaymentRequired) => Some(402)
    case ClientError(Forbidden) => Some(403)
    case ClientError(ResourceNotFound) => Some(404)
    case ClientError(NotAllowed) => Some(405)
    case ClientError(NotAcceptable) => Some(406)
    case ClientError(ProxyAuthenticationRequired) => Some(407)
    case ClientError(RequestTimeout) => Some(408)
    case ClientError(Conflict) => Some(409)
    case ClientError(Gone) => Some(410)
    case ClientError(LengthRequired) => Some(411)
    case ClientError(PreconditionFailed) => Some(412)
    case ClientError(PayloadTooLarge) => Some(413)
    case ClientError(UriTooLong) => Some(414)
    case ClientError(UnsupportedMediaType) => Some(415)
    case ClientError(RangeNotSatisfiable) => Some(416)
    case ClientError(ExpectationFailed) => Some(417)
    case ClientError(IAmATeapot) => Some(418)
    case ClientError(MisdirectedRequest) => Some(421)
    case ClientError(UnprocessableEntity) => Some(422)
    case ClientError(Locked) => Some(423)
    case ClientError(FailedDependency) => Some(424)
    case ClientError(TooEarly) => Some(425)
    case ClientError(UpgradeRequired) => Some(426)
    case ClientError(PreconditionRequired) => Some(428)
    case ClientError(TooManyRequests) => Some(429)
    case ClientError(RequestHeaderFieldsTooLarge) => Some(431)
    case ClientError(UnavailableForLegalReasons) => Some(451)
    case ServerError(InternalError) => Some(500)
    case ServerError(NotImplemented) => Some(501)
    case ServerError(BadGateway) => Some(502)
    case ServerError(ServiceUnavailable) => Some(503)
    case ServerError(GatewayTimeout) => Some(504)
    case ServerError(HttpVersionNotSupported) => Some(505)
    case ServerError(VariantAlsoNegotiates) => Some(506)
    case ServerError(InsufficientStorage) => Some(507)
    case ServerError(LoopDetected) => Some(508)
    case ServerError(NotExtended) => Some(510)
    case ServerError(NetworkAuthenticationRequired) => Some(511)
    case _ => None
  }

  /** successCodeToHttpStatus (lines 145-157), defined on the 2xx codes. */
  function SuccessCodeToHttpStatus(c: InternalCode): Option<int>
  {
    match c
    case Success(Ok) => Some(200)
    case Success(Created) => Some(201)
    case Success(Accepted) => Some(202)
    case Success(NonAuthorative) => Some(203)
    case Success(NoContent) => Some(204)
    case Success(ResetContent) => Some(205)
    case Success(PartialContent) => Some(206)
    case Success(MultiStatus) => Some(207)
    case Success(AlreadyReported) => Some(208)
    case Success(ImUsed) => Some(226)
    case _ => None
  }

  /**
   * internalStatusToHttpStatus (lines 159-171): `Object.assign` of the 1xx
   * and 3xx entries, the success table and the error table, so a later table
   * wins where keys are shared.
   */
  function InternalStatusToHttpStatus(c: InternalCode): Option<int>
  {
    if ErrorCodeToHttpStatus(c).Some? then ErrorCodeToHttpStatus(c)
    else if SuccessCodeToHttpStatus(c).Some? then SuccessCodeToHttpStatus(c)
    else
      match c
      case Informational(Continue) => Some(100)
      case Informational(SwitchingProtocol) => Some(101)
      case Informational(MultipleChoices) => Some(300)
      case Informational(MovedPermanently) => Some(301)
      case Informational(Found) => Some(302)
      case Informational(NotModified) => Some(304)
      case _ => None
  }

  /** `errorCodeToHttpStatus[code]` for a code held as a string. */
  function ErrorStatusOfName(code: string): Option<int>
  {
    match ParseCode(code)
    case Some(c) => ErrorCodeToHttpStatus(c)
    case None => None
  }

  /** `internalStatusToHttpStatus[code]` for a code held as a string. */
  function InternalStatusOfName(code: string): Option<int>
  {
    match ParseCode(code)
    case Some(c) => InternalStatusToHttpStatus(c)
    case None => None
  }

  /**
   * The status a value stands for when it indexes a table keyed by HTTP
   * statuses: JavaScript turns the index into a property key first, so the
   * number 404 and the string "404" find the same entry.
   */
  function StatusKey(key: Value): Option<int>
  {
    Js.IntKey(Js.ToStr(key))
  }

  /** A number indexes the entry of that status. */
  lemma StatusKeyOfNumber(n: int)
    ensures StatusKey(Num(n)) == Some(n)
  {
    Js.IntKeyOfIntToString(n);
  }

  /** `httpErrorStatusToInternal[key]` for an index of any type. */
  function ErrorCodeAtKey(key: Value): Option<InternalCode>
  {
    match StatusKey(key)
    case Some(n) => HttpErrorStatusToInternal(n)
    case None => None
  }

  /** `httpStatusToInternal[key]` for an index of any type. */
  function InternalCodeAtKey(key: Value): Option<InternalCode>
  {
    match StatusKey(key)
    case Some(n) => HttpStatusToInternal(n)
    case None => None
  }

  /** The HTTP methods of a request, as the `HttpMethod` type lists them. */
  const HttpMethods: seq<string> := ["GET", "PUT", "POST", "DELETE", "PATCH", "HEAD", "OPTIONS", "CONNECT", "TRACE"]

  // Names

  /** Each code of a class, or of a group of a class, is read back from its name. */
  lemma ParseCodeNameInformational(c: InformationalCode)
    ensures ParseCode(CodeName(Informational(c))) == Some(Informational(c))
  {
  }

  lemma ParseCodeNameSuccess(c: SuccessCode)
    ensures ParseCode(CodeName(Success(c))) == Some(Success(c))
  {
  }

  lemma ParseCodeNameClientErrorA(c: ClientErrorCode)
    requires c.BadRequest? || c.Unauthorized? || c.PaymentRequired? || c.Forbidden? ||
             c.ResourceNotFound? || c.NotAllowed? || c.NotAcceptable? || c.ProxyAuthenticationRequired? ||
             c.RequestTimeout? || c.Conflict?
    ensures ParseCode(CodeName(ClientError(c))) == Some(ClientError(c))
  {
  }

  lemma ParseCodeNameClientErrorB(c: ClientErrorCode)
    requires c.Gone? || c.LengthRequired? || c.PreconditionFailed? || c.PayloadTooLarge? ||
             c.UriTooLong? || c.UnsupportedMediaType? || c.RangeNotSatisfiable? || c.ExpectationFailed? ||
             c.IAmATeapot? || c.MisdirectedRequest?
    ensures ParseCode(CodeName(ClientError(c))) == Some(ClientError(c))
  {
  }

  lemma ParseCodeNameClientErrorC(c: ClientErrorCode)
    requires c.UnprocessableEntity? || c.Locked? || c.FailedDependency? || c.TooEarly? ||
             c.UpgradeRequired? || c.PreconditionRequired? || c.TooManyRequests? || c.RequestHeaderFieldsTooLarge? ||
             c.UnavailableForLegalReasons?
    ensures ParseCode(CodeName(ClientError(c))) == Some(ClientError(c))
  {
  }

  lemma ParseCodeNameServerErrorA(c: ServerErrorCode)
    requires c.InternalError? || c.NotImplemented? || c.BadGateway? || c.ServiceUnavailable? ||
             c.GatewayTimeout? || c.HttpVersionNotSupported?
    ensures ParseCode(CodeName(ServerError(c))) == Some(ServerError(c))
  {
  }

  lemma ParseCodeNameServerErrorB(c: ServerErrorCode)
    requires c.VariantAlsoNegotiates? || c.InsufficientStorage? || c.LoopDetected? || c.NotExtended? ||
             c.NetworkAuthenticationRequired?
    ensures ParseCode(CodeName(ServerError(c))) == Some(ServerError(c))
  {
  }

  /** Every internal code is read back from its name, so no two codes share a name. */
  lemma ParseCodeName(c: InternalCode)
    ensures ParseCode(CodeName(c)) == Some(c)
  {
    match c
    case Informational(i) => ParseCodeNameInformational(i);
    case Success(s) => ParseCodeNameSuccess(s);
    case ClientError(e) =>
      if e.BadRequest? || e.Unauthorized? || e.PaymentRequired? || e.Forbidden? ||
         e.ResourceNotFound? || e.NotAllowed? || e.NotAcceptable? || e.ProxyAuthenticationRequired? ||
         e.RequestTimeout? || e.Conflict? {
        ParseCodeNameClientErrorA(e);
      } else if e.Gone? || e.LengthRequired? || e.PreconditionFailed? || e.PayloadTooLarge? ||
                e.UriTooLong? || e.UnsupportedMediaType? || e.RangeNotSatisfiable? || e.ExpectationFailed? ||
                e.IAmATeapot? || e.MisdirectedRequest? {
        ParseCodeNameClientErrorB(e);
      } else {
        ParseCodeNameClientErrorC(e);
      }
    case ServerError(e) =>
      if e.InternalError? || e.NotImplemented? || e.BadGateway? || e.ServiceUnavailable? ||
         e.GatewayTimeout? || e.HttpVersionNotSupported? {
        ParseCodeNameServerErrorA(e);
      } else {
        ParseCodeNameServerErrorB(e);
      }
  }

  // Tables

  /** Every error status is translated to an error code that translates back to it. */
  lemma ErrorStatusRoundTrip(status: int)
    requires HttpErrorStatusToInternal(status).Some?
    ensures ErrorCodeToHttpStatus(HttpErrorStatusToInternal(status).value) == Some(status)
  {
  }

  /** The error table holds 4xx and 5xx statuses only. */
  lemma ErrorStatusRange(status: int)
    requires HttpErrorStatusToInternal(status).Some?
    ensures 400 <= status < 600
  {
  }

  /**
   * errorCodeToHttpStatus is defined exactly on the error codes, and
   * httpErrorStatusToInternal translates each of their statuses back.
   */
  lemma ErrorCodeRoundTrip(c: InternalCode)
    ensures ErrorCodeToHttpStatus(c).Some? <==> IsErrorCode(c)
    ensures ErrorCodeToHttpStatus(c).Some? ==> HttpErrorStatusToInternal(ErrorCodeToHttpStatus(c).value) == Some(c)
  {
  }

  /** internalStatusToHttpStatus inverts httpStatusToInternal on every status it covers. */
  lemma InternalStatusRoundTrip(status: int)
    requires HttpStatusToInternal(status).Some?
    ensures InternalStatusToHttpStatus(HttpStatusToInternal(status).value) == Some(status)
  {
    if HttpErrorStatusToInternal(status).Some? {
      ErrorStatusRoundTrip(status);
    }
  }

  /** Every internal code has an HTTP status, which httpStatusToInternal translates back. */
  lemma InternalCodeRoundTrip(c: InternalCode)
    ensures InternalStatusToHttpStatus(c).Some?
    ensures HttpStatusToInternal(InternalStatusToHttpStatus(c).value) == Some(c)
  {
    ErrorCodeRoundTrip(c);
  }

  /** successCodeToHttpStatus covers the success codes, with 2xx statuses that translate back. */
  lemma SuccessCodeRoundTrip(c: InternalCode)
    ensures SuccessCodeToHttpStatus(c).Some? <==> c.Success?
    ensures SuccessCodeToHttpStatus(c).Some? ==> 200 <= SuccessCodeToHttpStatus(c).value < 300
    ensures SuccessCodeToHttpStatus(c).Some? ==> HttpStatusToInternal(SuccessCodeToHttpStatus(c).value) == Some(c)
  {
  }
}
