/**
 * `TurnstileError`, its internal description (`Display`), its status code
 * and the public error response the host renders for it.
 */
module Errors {
  import opened Json
  import Reqwest

  datatype TurnstileError =
    | TokenNotFound
    | InvalidTokenFormat
    | ClientIPNotFound
    | VerificationFailed(reason: string)
    | NetworkError(cause: Reqwest.Error)

  const BadRequest: nat := 400
  const ServiceUnavailable: nat := 503

  const ErrorCode := "captcha_verification_failed"
  const InvalidTokenMessage := "CAPTCHA verification failed: invalid token"
  const ClientInfoMissingMessage := "CAPTCHA verification failed: client information missing"
  const TryAgainMessage := "CAPTCHA verification failed: please try again"
  const UnavailableMessage := "CAPTCHA service temporarily unavailable"

  const VerificationFailedPrefix := "Turnstile verification failed: "
  const NetworkErrorPrefix := "Network error during Turnstile verification: "

  /** An HTTP response as built by actix-web: status, content type and JSON body. */
  datatype HttpResponse = HttpResponse(status: nat, contentType: string, body: Value)

  /** Both errors are the same variant, whatever payload they carry. */
  predicate SameVariant(e1: TurnstileError, e2: TurnstileError)
  {
    match (e1, e2)
    case (TokenNotFound, TokenNotFound) => true
    case (InvalidTokenFormat, InvalidTokenFormat) => true
    case (ClientIPNotFound, ClientIPNotFound) => true
    case (VerificationFailed(_), VerificationFailed(_)) => true
    case (NetworkError(_), NetworkError(_)) => true
    case _ => false
  }

  /**
   * The internal description (the `#[error]` texts). Unlike the public
   * message, it ends with the payload: the rejection reason or the
   * transport error's own description.
   */
  function Display(e: TurnstileError): (s: string)
    ensures |s| > 0
    ensures e.VerificationFailed? ==> |e.reason| < |s| && s[|s| - |e.reason|..] == e.reason
    ensures e.NetworkError? ==> |e.cause.detail| < |s| && s[|s| - |e.cause.detail|..] == e.cause.detail
  {
    match e
    case TokenNotFound => "Turnstile token not found in request headers"
    case InvalidTokenFormat => "Invalid Turnstile token format"
    case ClientIPNotFound => "Client IP address not found"
    case VerificationFailed(reason) => VerificationFailedPrefix + reason
    case NetworkError(cause) => NetworkErrorPrefix + cause.detail
  }

  /** `ResponseError::status_code`: 503 exactly for a network error, 400 otherwise. */
  function StatusCode(e: TurnstileError): (code: nat)
    ensures code == ServiceUnavailable <==> e.NetworkError?
    ensures code == BadRequest <==> !e.NetworkError?
  {
    match e
    case NetworkError(_) => ServiceUnavailable
    case _ => BadRequest
  }

  /**
   * The public message of `error_response`: one of four fixed texts, fixed
   * by the variant alone, so that no payload reaches the client.
   */
  function PublicMessage(e: TurnstileError): (m: string)
    ensures m in {InvalidTokenMessage, ClientInfoMissingMessage, TryAgainMessage, UnavailableMessage}
    ensures m == InvalidTokenMessage <==> e.TokenNotFound? || e.InvalidTokenFormat?
    ensures m == ClientInfoMissingMessage <==> e.ClientIPNotFound?
    ensures m == TryAgainMessage <==> e.VerificationFailed?
    ensures m == UnavailableMessage <==> e.NetworkError?
  {
    match e
    case TokenNotFound | InvalidTokenFormat => InvalidTokenMessage
    case ClientIPNotFound => ClientInfoMissingMessage
    case VerificationFailed(_) => TryAgainMessage
    case NetworkError(_) => UnavailableMessage
  }

  /** The fixed-shape body `{error, message}`. */
  function ErrorBody(e: TurnstileError): (body: Value)
    ensures body.Object? && body.fields.Keys == {"error", "message"}
    ensures Index(body, "error") == String(ErrorCode)
    ensures Index(body, "message") == String(PublicMessage(e))
  {
    Object(map["error" := String(ErrorCode), "message" := String(PublicMessage(e))])
  }

  /**
   * `ResponseError::error_response` as written: the response is built with
   * `HttpResponse::BadRequest()`, so its status is 400 for every variant,
   * including `NetworkError`, for which `StatusCode` says 503.
   */
  function ErrorResponse(e: TurnstileError): (resp: HttpResponse)
    ensures resp.status == BadRequest
    ensures resp.contentType == "application/json"
    ensures resp.body == ErrorBody(e)
  {
    HttpResponse(BadRequest, "application/json", ErrorBody(e))
  }

  /**
   * The response evidently intended: the same body, with the status that
   * `StatusCode` gives, so that a network error renders as 503.
   */
  function IntendedErrorResponse(e: TurnstileError): (resp: HttpResponse)
    ensures resp.status == StatusCode(e)
    ensures resp.status == ServiceUnavailable <==> e.NetworkError?
    ensures resp.contentType == ErrorResponse(e).contentType && resp.body == ErrorResponse(e).body
  {
    HttpResponse(StatusCode(e), "application/json", ErrorBody(e))
  }

  /** The rendered status disagrees with `StatusCode` exactly for network errors. */
  lemma ErrorResponseStatusDisagrees(e: TurnstileError)
    ensures ErrorResponse(e).status != StatusCode(e) <==> e.NetworkError?
    ensures e.NetworkError? ==> ErrorResponse(e).status == 400 && StatusCode(e) == 503
    ensures !e.NetworkError? ==> ErrorResponse(e) == IntendedErrorResponse(e)
  {
  }

  /** Both token failures show the client the same message and body. */
  lemma TokenFailuresLookAlike()
    ensures PublicMessage(TokenNotFound) == PublicMessage(InvalidTokenFormat) == InvalidTokenMessage
    ensures ErrorResponse(TokenNotFound) == ErrorResponse(InvalidTokenFormat)
  {
  }

  /** The response depends on the variant only: no payload is ever echoed. */
  lemma ResponseIgnoresPayload(e1: TurnstileError, e2: TurnstileError)
    requires SameVariant(e1, e2)
    ensures PublicMessage(e1) == PublicMessage(e2)
    ensures ErrorResponse(e1) == ErrorResponse(e2)
    ensures IntendedErrorResponse(e1) == IntendedErrorResponse(e2)
  {
  }

  /** Whatever the rejection reason, the client reads "please try again". */
  lemma ReasonNeverEchoed(r1: string, r2: string)
    ensures PublicMessage(VerificationFailed(r1)) == TryAgainMessage
    ensures ErrorResponse(VerificationFailed(r1)) == ErrorResponse(VerificationFailed(r2))
  {
  }

  /** Whatever the transport failure, the client reads "temporarily unavailable". */
  lemma CauseNeverEchoed(c1: Reqwest.Error, c2: Reqwest.Error)
    ensures PublicMessage(NetworkError(c1)) == UnavailableMessage
    ensures ErrorResponse(NetworkError(c1)) == ErrorResponse(NetworkError(c2))
  {
  }

  /**
   * The internal description keeps what the public response drops: two
   * different rejection reasons give different descriptions but the same
   * response.
   */
  lemma DisplayKeepsReason(r1: string, r2: string)
    requires r1 != r2
    ensures Display(VerificationFailed(r1)) != Display(VerificationFailed(r2))
    ensures ErrorResponse(VerificationFailed(r1)) == ErrorResponse(VerificationFailed(r2))
  {
  }

  /**
   * Likewise for transport failures: two causes with different descriptions
   * stay distinguishable in the internal description, which is what is left
   * for logging, while the client sees one response.
   */
  lemma DisplayKeepsCause(c1: Reqwest.Error, c2: Reqwest.Error)
    requires c1.detail != c2.detail
    ensures Display(NetworkError(c1)) != Display(NetworkError(c2))
    ensures ErrorResponse(NetworkError(c1)) == ErrorResponse(NetworkError(c2))
  {
  }
}
