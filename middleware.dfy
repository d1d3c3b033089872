/**
 * `TurnstileMiddleware::call`: extract the client address and the token,
 * call the verification client once, then forward the request or fail with
 * a `TurnstileError`.
 */
module Middleware {
  import opened Results
  import Json
  import Reqwest
  import opened Config
  import opened Errors
  import opened Turnstile

  const TokenHeader := "cf-turnstile-response"
  const RejectedReason := "Cloudflare rejected the token"

  /** A header value; `text` is `None` when `HeaderValue::to_str` refuses it. */
  datatype HeaderValue = HeaderValue(text: Option<string>)

  /**
   * The parts of an incoming request the gate reads: the address that
   * `realip_remote_addr` resolves (if any) and the headers, keyed by
   * lower-case name.
   */
  datatype ServiceRequest = ServiceRequest(realIpRemoteAddr: Option<string>, headers: map<string, HeaderValue>)

  /** The downstream service's response, passed through untouched. */
  datatype ServiceResponse = ServiceResponse(status: nat, body: string)

  /** `actix_web::Error`: a converted `TurnstileError`, or an error of the downstream service. */
  datatype ActixError = FromTurnstile(error: TurnstileError) | Downstream(detail: string)

  /** The next stage of the pipeline. */
  type Service = ServiceRequest -> Result<ServiceResponse, ActixError>

  /** The middleware: the wrapped service and a copy of the configuration. */
  datatype TurnstileMiddleware = TurnstileMiddleware(service: Service, config: TurnstileConfig)

  /** One call of `verify_cloudflare_turnstile`, with its arguments. */
  datatype VerifyCall = VerifyCall(token: string, remoteip: string, config: TurnstileConfig)

  /** The two signals the gate needs before any network traffic. */
  datatype Signals = Signals(clientIp: string, token: string)

  /** A verdict's effect: the gate's result, and whether the downstream future was awaited. */
  datatype Settled = Settled(result: Result<ServiceResponse, ActixError>, awaited: bool)

  /**
   * What handling one request did: its result, the verification calls made,
   * the requests handed to `service.call`, and whether the future that call
   * returned was awaited.
   */
  datatype Handled = Handled(
    result: Result<ServiceResponse, ActixError>,
    verifyCalls: seq<VerifyCall>,
    serviceCalls: seq<ServiceRequest>,
    awaited: bool)

  /** Both signals are present and the token header reads as text. */
  predicate HasSignals(req: ServiceRequest)
  {
    && req.realIpRemoteAddr.Some?
    && TokenHeader in req.headers
    && req.headers[TokenHeader].text.Some?
  }

  /**
   * The extraction at the start of `call`: the address first, then the
   * header's presence, then whether it reads as text. The first missing
   * signal decides the error.
   */
  function Extract(req: ServiceRequest): (r: Result<Signals, TurnstileError>)
    ensures r == Err(ClientIPNotFound) <==> req.realIpRemoteAddr.None?
    ensures r == Err(TokenNotFound) <==> req.realIpRemoteAddr.Some? && TokenHeader !in req.headers
    ensures r == Err(InvalidTokenFormat) <==>
      req.realIpRemoteAddr.Some? && TokenHeader in req.headers && req.headers[TokenHeader].text.None?
    ensures r.Ok? <==> HasSignals(req)
    ensures r.Ok? ==> r.value == Signals(req.realIpRemoteAddr.value, req.headers[TokenHeader].text.value)
  {
    match req.realIpRemoteAddr
    case None => Err(ClientIPNotFound)
    case Some(ip) =>
      if TokenHeader !in req.headers then Err(TokenNotFound)
      else match req.headers[TokenHeader].text
        case None => Err(InvalidTokenFormat)
        case Some(token) => Ok(Signals(ip, token))
  }

  /**
   * The final three-way match on the verifier's answer. Only
   * `Ok(true)` awaits the downstream future, whose result (response or
   * error) is returned as it is.
   */
  function Dispatch(verdict: Result<bool, Reqwest.Error>, downstream: Result<ServiceResponse, ActixError>): (s: Settled)
    ensures s.awaited <==> verdict == Ok(true)
    ensures s.awaited ==> s.result == downstream
    ensures verdict == Ok(false) ==> s.result == Err(FromTurnstile(VerificationFailed(RejectedReason)))
    ensures verdict.Err? ==> s.result == Err(FromTurnstile(NetworkError(verdict.error)))
  {
    match verdict
    case Ok(true) => Settled(downstream, true)
    case Ok(false) => Settled(Err(FromTurnstile(VerificationFailed(RejectedReason))), false)
    case Err(e) => Settled(Err(FromTurnstile(NetworkError(e))), false)
  }

  /**
   * `TurnstileMiddleware::call` with `client` as the network. A request
   * without both signals fails before anything else happens; otherwise the
   * request is handed to `service.call`, the provider is asked exactly once
   * about the extracted token and address, and the outcome is dispatched.
   */
  function Call(m: TurnstileMiddleware, req: ServiceRequest, client: Reqwest.Client): (h: Handled)
    ensures !HasSignals(req) ==> h.verifyCalls == [] && h.serviceCalls == [] && !h.awaited
    ensures !HasSignals(req) ==> h.result == Err(FromTurnstile(Extract(req).error))
    ensures HasSignals(req) ==>
      && h.verifyCalls == [VerifyCall(req.headers[TokenHeader].text.value, req.realIpRemoteAddr.value, m.config)]
      && h.serviceCalls == [req]
    ensures h.awaited <==> (HasSignals(req) &&
      VerifyCloudflareTurnstile(req.headers[TokenHeader].text.value, req.realIpRemoteAddr.value, m.config, client) == Ok(true))
    ensures h.awaited ==> h.result == m.service(req)
    ensures !h.awaited ==> h.result.Err? && h.result.error.FromTurnstile?
  {
    match Extract(req)
    case Err(e) => Handled(Err(FromTurnstile(e)), [], [], false)
    case Ok(Signals(ip, token)) =>
      var downstream := m.service(req);
      var settled := Dispatch(VerifyCloudflareTurnstile(token, ip, m.config, client), downstream);
      Handled(settled.result, [VerifyCall(token, ip, m.config)], [req], settled.awaited)
  }

  /** Without an address the gate fails with `ClientIPNotFound`, whatever the header holds. */
  lemma ClientIpCheckedFirst(m: TurnstileMiddleware, req: ServiceRequest, client: Reqwest.Client)
    requires req.realIpRemoteAddr.None?
    ensures Call(m, req, client) == Handled(Err(FromTurnstile(ClientIPNotFound)), [], [], false)
  {
  }

  /** With an address but no token header: `TokenNotFound`, and no verification. */
  lemma MissingTokenRejected(m: TurnstileMiddleware, req: ServiceRequest, client: Reqwest.Client)
    requires req.realIpRemoteAddr.Some? && TokenHeader !in req.headers
    ensures Call(m, req, client) == Handled(Err(FromTurnstile(TokenNotFound)), [], [], false)
  {
  }

  /** With an address and a header that is not text: `InvalidTokenFormat`, and no verification. */
  lemma UnreadableTokenRejected(m: TurnstileMiddleware, req: ServiceRequest, client: Reqwest.Client)
    requires req.realIpRemoteAddr.Some? && TokenHeader in req.headers && req.headers[TokenHeader].text.None?
    ensures Call(m, req, client) == Handled(Err(FromTurnstile(InvalidTokenFormat)), [], [], false)
  {
  }

  /** An accepting provider forwards: the downstream result passes through unchanged. */
  lemma AcceptedForwards(m: TurnstileMiddleware, req: ServiceRequest, client: Reqwest.Client)
    requires HasSignals(req)
    requires VerifyCloudflareTurnstile(req.headers[TokenHeader].text.value, req.realIpRemoteAddr.value, m.config, client) == Ok(true)
    ensures Call(m, req, client).result == m.service(req)
    ensures Call(m, req, client).awaited
  {
  }

  /** A rejecting provider gives `VerificationFailed`, and the downstream future is dropped. */
  lemma RejectedFails(m: TurnstileMiddleware, req: ServiceRequest, client: Reqwest.Client)
    requires HasSignals(req)
    requires VerifyCloudflareTurnstile(req.headers[TokenHeader].text.value, req.realIpRemoteAddr.value, m.config, client) == Ok(false)
    ensures Call(m, req, client).result == Err(FromTurnstile(VerificationFailed(RejectedReason)))
    ensures !Call(m, req, client).awaited
  {
  }

  /** A transport failure gives `NetworkError` carrying it, and the downstream future is dropped. */
  lemma TransportFailureFails(m: TurnstileMiddleware, req: ServiceRequest, client: Reqwest.Client, e: Reqwest.Error)
    requires HasSignals(req)
    requires VerifyCloudflareTurnstile(req.headers[TokenHeader].text.value, req.realIpRemoteAddr.value, m.config, client) == Err(e)
    ensures Call(m, req, client).result == Err(FromTurnstile(NetworkError(e)))
    ensures !Call(m, req, client).awaited
  {
  }

  /** Unless the provider accepts, the downstream result cannot influence the outcome. */
  lemma DownstreamIgnoredUnlessAccepted(verdict: Result<bool, Reqwest.Error>,
                                        d1: Result<ServiceResponse, ActixError>, d2: Result<ServiceResponse, ActixError>)
    requires verdict != Ok(true)
    ensures Dispatch(verdict, d1) == Dispatch(verdict, d2)
  {
  }

  /**
   * End to end: the gate forwards exactly when both signals are present and
   * the provider's decoded answer to the siteverify request for them is an
   * object whose `success` is `true`.
   */
  lemma ForwardsIffProviderSaysTrue(m: TurnstileMiddleware, req: ServiceRequest, client: Reqwest.Client)
    ensures Call(m, req, client).awaited <==>
      && HasSignals(req)
      && var x := client(SiteverifyRequest(req.headers[TokenHeader].text.value, req.realIpRemoteAddr.value, m.config));
         x.Received? && x.body.Decodable? && SuccessIsTrue(x.body.json)
  {
  }

  /**
   * The host calls the middleware once per request, through the same value.
   * The network is seen afresh by each request (`networks[i]` answers the
   * i-th request), so one request may time out and its retry succeed. The
   * handled requests come back in order, each exactly as a lone call with
   * its own network would handle it.
   */
  function Serve(m: TurnstileMiddleware, requests: seq<ServiceRequest>, networks: seq<Reqwest.Client>): (hs: seq<Handled>)
    requires |networks| == |requests|
    ensures |hs| == |requests|
    ensures forall i :: 0 <= i < |requests| ==> hs[i] == Call(m, requests[i], networks[i])
  {
    if requests == [] then []
    else [Call(m, requests[0], networks[0])] + Serve(m, requests[1..], networks[1..])
  }

  /** All verification calls made while handling `hs`, in order. */
  function AllVerifyCalls(hs: seq<Handled>): seq<VerifyCall>
  {
    if hs == [] then [] else hs[0].verifyCalls + AllVerifyCalls(hs[1..])
  }

  /** One verification call per request carrying both signals, on that request's signals. */
  function ExpectedVerifyCalls(config: TurnstileConfig, requests: seq<ServiceRequest>): seq<VerifyCall>
  {
    if requests == [] then []
    else
      var rest := ExpectedVerifyCalls(config, requests[1..]);
      match Extract(requests[0])
      case Ok(Signals(ip, token)) => [VerifyCall(token, ip, config)] + rest
      case Err(_) => rest
  }

  /**
   * No verdict is cached or shared between requests: over any run, the
   * provider is asked once for each request with both signals, in arrival
   * order, and never for the others.
   */
  lemma {:induction false} ServeVerifiesEachRequest(m: TurnstileMiddleware, requests: seq<ServiceRequest>,
                                                    networks: seq<Reqwest.Client>)
    requires |networks| == |requests|
    ensures AllVerifyCalls(Serve(m, requests, networks)) == ExpectedVerifyCalls(m.config, requests)
  {
    if requests != [] {
      ServeVerifiesEachRequest(m, requests[1..], networks[1..]);
      var hs := Serve(m, requests, networks);
      assert hs[1..] == Serve(m, requests[1..], networks[1..]);
    }
  }

  // Scenarios of the crate's own tests, with the provider replaced by a fixed answer.

  function Echo(): Service
  {
    _ => Ok(ServiceResponse(200, "hello world"))
  }

  function Answering(js: Json.Value): Reqwest.Client
  {
    _ => Reqwest.Received(200, Reqwest.Decodable(js))
  }

  function TestRequest(): ServiceRequest
  {
    ServiceRequest(Some("192.168.1.1"), map[TokenHeader := HeaderValue(Some("valid_turnstile_token"))])
  }

  /** An accepting provider: the handler's "hello world" response comes back unchanged. */
  lemma AcceptingProviderScenario()
    ensures var m := TurnstileMiddleware(Echo(), New("1x0000000000000000000000000000000AA"));
      var h := Call(m, TestRequest(), Answering(Json.Object(map["success" := Json.Bool(true)])));
      && h.result == Ok(ServiceResponse(200, "hello world"))
      && h.verifyCalls == [VerifyCall("valid_turnstile_token", "192.168.1.1", m.config)]
  {
  }

  /** A rejecting provider: `VerificationFailed`, rendered as 400 "please try again". */
  lemma RejectingProviderScenario()
    ensures var m := TurnstileMiddleware(Echo(), New("2x0000000000000000000000000000000AA"));
      var h := Call(m, TestRequest(), Answering(Json.Object(map["success" := Json.Bool(false)])));
      && h.result == Err(FromTurnstile(VerificationFailed(RejectedReason)))
      && !h.awaited
      && ErrorResponse(h.result.error.error).status == 400
      && ErrorResponse(h.result.error.error).body
         == Json.Object(map["error" := Json.String(ErrorCode), "message" := Json.String(TryAgainMessage)])
  {
  }

  /**
   * A provider that times out: `NetworkError`, whose response is rendered
   * with status 400 as written, and 503 as intended.
   */
  lemma TimeoutScenario(m: TurnstileMiddleware)
    ensures var cause := Reqwest.Error(Reqwest.Timeout, "operation timed out");
      var h := Call(m, TestRequest(), _ => Reqwest.SendFailed(cause));
      && h.result == Err(FromTurnstile(NetworkError(cause)))
      && ErrorResponse(h.result.error.error).status == 400
      && IntendedErrorResponse(h.result.error.error).status == 503
      && PublicMessage(h.result.error.error) == UnavailableMessage
  {
  }

  /** The same valid request twice: two independent forwardings, no verdict reused. */
  lemma RepeatedRequestScenario(m: TurnstileMiddleware, req: ServiceRequest)
    requires HasSignals(req)
    ensures var accepting := Answering(Json.Object(map["success" := Json.Bool(true)]));
      var hs := Serve(m, [req, req], [accepting, accepting]);
      && |hs| == 2 && hs[0] == hs[1]
      && hs[0].awaited && hs[0].result == m.service(req)
      && |AllVerifyCalls(hs)| == 2
  {
    var accepting := Answering(Json.Object(map["success" := Json.Bool(true)]));
    ServeVerifiesEachRequest(m, [req, req], [accepting, accepting]);
    assert [req, req][1..] == [req] && [req][1..] == [];
    var c := VerifyCall(req.headers[TokenHeader].text.value, req.realIpRemoteAddr.value, m.config);
    assert ExpectedVerifyCalls(m.config, [req]) == [c];
    assert ExpectedVerifyCalls(m.config, [req, req]) == [c, c];
  }

  /**
   * A retry by the caller: the first attempt times out and fails with
   * `NetworkError`; the same request sent again, with the provider now
   * answering `success: true`, is forwarded. Nothing of the first attempt
   * carries over to the second.
   */
  lemma RetryAfterTimeoutScenario(m: TurnstileMiddleware, req: ServiceRequest)
    requires HasSignals(req)
    ensures var cause := Reqwest.Error(Reqwest.Timeout, "operation timed out");
      var hs := Serve(m, [req, req], [_ => Reqwest.SendFailed(cause),
                                      Answering(Json.Object(map["success" := Json.Bool(true)]))]);
      && hs[0].result == Err(FromTurnstile(NetworkError(cause))) && !hs[0].awaited
      && hs[1].result == m.service(req) && hs[1].awaited
      && hs[0].verifyCalls == hs[1].verifyCalls
  {
  }
}
