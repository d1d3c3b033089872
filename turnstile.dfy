/**
 * `verify_cloudflare_turnstile`: build the siteverify request, send it once
 * and read the verdict out of the provider's JSON answer.
 */
module Turnstile {
  import opened Results
  import opened Json
  import Reqwest
  import opened Config

  const SiteverifyUrl := "https://challenges.cloudflare.com/turnstile/v0/siteverify"

  /** The JSON payload `{secret, response, remoteip}`. */
  function RequestBody(token: string, remoteip: string, config: TurnstileConfig): (body: Value)
    ensures body.Object? && body.fields.Keys == {"secret", "response", "remoteip"}
    ensures Index(body, "secret") == String(config.secretKey)
    ensures Index(body, "response") == String(token)
    ensures Index(body, "remoteip") == String(remoteip)
  {
    Object(map["secret" := String(config.secretKey), "response" := String(token), "remoteip" := String(remoteip)])
  }

  /** The one request sent: a POST of the payload to the siteverify endpoint. */
  function SiteverifyRequest(token: string, remoteip: string, config: TurnstileConfig): (req: Reqwest.Request)
    ensures req.verb == Reqwest.Post && req.url == SiteverifyUrl
    ensures Index(req.json, "secret") == String(config.secretKey)
    ensures Index(req.json, "response") == String(token)
    ensures Index(req.json, "remoteip") == String(remoteip)
    ensures req.json.Object? && req.json.fields.Keys == {"secret", "response", "remoteip"}
  {
    Reqwest.Request(Reqwest.Post, SiteverifyUrl, RequestBody(token, remoteip, config))
  }

  /** The provider said yes: an object whose `success` field is the JSON boolean `true`. */
  predicate SuccessIsTrue(js: Value)
  {
    js.Object? && "success" in js.fields && js.fields["success"] == Bool(true)
  }

  /**
   * `js["success"].as_bool().unwrap_or(false)`: the permissive decode. Only
   * a literal `true` accepts; a missing field, a non-boolean field or a body
   * that is not an object rejects instead of failing.
   */
  function SuccessVerdict(js: Value): (ok: bool)
    ensures ok <==> SuccessIsTrue(js)
  {
    AsBool(Index(js, "success")).UnwrapOr(false)
  }

  /**
   * What the client makes of one exchange: a send failure or an undecodable
   * body propagates as `Err` (never a boolean); a decoded body gives its
   * verdict. The response's HTTP status is not looked at.
   */
  function ReadVerdict(x: Reqwest.Exchange): (r: Result<bool, Reqwest.Error>)
    ensures r.Err? <==> x.SendFailed? || x.body.Undecodable?
    ensures x.SendFailed? ==> r == Err(x.error)
    ensures x.Received? && x.body.Undecodable? ==> r == Err(x.body.error)
    ensures r == Ok(true) <==> x.Received? && x.body.Decodable? && SuccessIsTrue(x.body.json)
  {
    match x
    case SendFailed(e) => Err(e)
    case Received(_, Undecodable(e)) => Err(e)
    case Received(_, Decodable(js)) => Ok(SuccessVerdict(js))
  }

  /**
   * `verify_cloudflare_turnstile(token, remoteip, config)` over the network
   * `client`: the result is decided by the answer to the siteverify request
   * built from exactly these three arguments.
   */
  function VerifyCloudflareTurnstile(token: string, remoteip: string, config: TurnstileConfig,
                                     client: Reqwest.Client): (r: Result<bool, Reqwest.Error>)
    ensures var x := client(SiteverifyRequest(token, remoteip, config));
      && (r.Err? <==> x.SendFailed? || x.body.Undecodable?)
      && (x.SendFailed? ==> r == Err(x.error))
      && (x.Received? && x.body.Undecodable? ==> r == Err(x.body.error))
      && (r == Ok(true) <==> x.Received? && x.body.Decodable? && SuccessIsTrue(x.body.json))
  {
    ReadVerdict(client(SiteverifyRequest(token, remoteip, config)))
  }

  /** A body without a `success` field rejects; it is not an error. */
  lemma MissingSuccessRejects(m: map<string, Value>)
    requires "success" !in m
    ensures !SuccessVerdict(Object(m))
    ensures ReadVerdict(Reqwest.Received(200, Reqwest.Decodable(Object(m)))) == Ok(false)
  {
  }

  /** A body that is JSON but not an object rejects; it is not an error. */
  lemma NonObjectRejects(js: Value)
    requires !js.Object?
    ensures !SuccessVerdict(js)
    ensures ReadVerdict(Reqwest.Received(200, Reqwest.Decodable(js))) == Ok(false)
  {
  }

  /** A `success` field that is not a boolean (`"true"`, `1`, `null`, …) rejects. */
  lemma NonBooleanSuccessRejects(m: map<string, Value>)
    requires "success" in m && !m["success"].Bool?
    ensures !SuccessVerdict(Object(m))
  {
  }

  /** The verdict depends on the `success` entry alone. */
  lemma VerdictDependsOnlyOnSuccess(m1: map<string, Value>, m2: map<string, Value>)
    requires ("success" in m1 <==> "success" in m2)
    requires "success" in m1 ==> m1["success"] == m2["success"]
    ensures SuccessVerdict(Object(m1)) == SuccessVerdict(Object(m2))
  {
  }

  /** Adding, changing or removing any other field leaves the verdict unchanged. */
  lemma OtherFieldsIgnored(m: map<string, Value>, k: string, x: Value)
    requires k != "success"
    ensures SuccessVerdict(Object(m[k := x])) == SuccessVerdict(Object(m))
    ensures SuccessVerdict(Object(m - {k})) == SuccessVerdict(Object(m))
  {
  }

  /** The provider's HTTP status does not matter, only the decoded body. */
  lemma StatusIgnored(s1: nat, s2: nat, b: Reqwest.Body)
    ensures ReadVerdict(Reqwest.Received(s1, b)) == ReadVerdict(Reqwest.Received(s2, b))
  {
  }
}
