# Turnstile gate for actix-web, modelled in Dafny

This project models the decision logic of `turnstile-actix-web`. That crate is a middleware that checks a Cloudflare Turnstile token before a request reaches the application. For each request the middleware works in this order:

- it reads the client's address, then the `cf-turnstile-response` header, and fails at the first one that is missing or unreadable, without any network call;
- only a request carrying both is sent to Cloudflare's siteverify endpoint, exactly once;
- on the answer it forwards the request, or fails with a `TurnstileError`;
- the host renders such an error as a JSON response with a public message.

Modules, one per part of the crate:

- `Results`: Rust's `Option` and `Result`.
- `Json`: the part of `serde_json::Value` the client uses. This is the six kinds of value, `v[key]` (which gives `Null` for a missing key or a non-object) and `as_bool`.
- `Reqwest`: the transport boundary. It holds the request sent, the possible exchanges (send failed, or a response whose body does or does not decode as JSON) and an opaque `reqwest::Error`. The network is a parameter `client: Request -> Exchange`.
- `Config`: `TurnstileConfig` and `TurnstileConfig::new`.
- `Errors`: `error.rs`. It holds the five error variants, their `Display` texts, `status_code`, the public message and `error_response`.
- `Turnstile`: `turnstile.rs`. It builds the payload and the request, and decodes the `success` verdict permissively.
- `Middleware`: `lib.rs`'s `TurnstileMiddleware::call`. It extracts the two signals in the source's order and dispatches three ways on the verifier's answer.

The downstream service is a function field of `TurnstileMiddleware`. `Call` returns a `Handled` record with four parts:

- the result;
- the verification calls made, with their arguments;
- the requests handed to `service.call`;
- whether the downstream future was awaited.

This lets lemmas state "no verification call was made" and "the downstream future was never awaited". The record is an ordinary field, not a ghost one, so that `Call` stays a compiled function that computes its own trace.

The model follows the code, including four behaviours a reader might not expect:

- `service.call(req)` runs at `lib.rs:100` for every request that carries both signals, before verification. Only awaiting its future depends on the verdict. A rejected request has therefore still been handed to the next stage, whose future is then dropped. The model records both facts separately (`serviceCalls` and `awaited`).
- The rendered status of a `NetworkError` is 400, not 503 (see Findings).
- The public messages are the code's full texts, such as "CAPTCHA verification failed: invalid token".
- The timeout in `TurnstileConfig` is never read. The 5 s transport timeout is fixed in `reqwest_client.rs`.

## Model

| member | source | states |
|---|---|---|
| `Config.New` | turnstile-actix-web/src/lib.rs:22-29 | the configuration keeps the given secret and has timeout `Some(5)` |
| `Json.Index` | turnstile-actix-web/src/turnstile.rs:24 | `v[key]` is the stored field when `v` is an object holding `key`, and `Null` for a missing key or a non-object |
| `Json.AsBool` | turnstile-actix-web/src/turnstile.rs:24 | `as_bool` gives `Some` exactly for JSON booleans, carrying that boolean |
| `Errors.Display` | turnstile-actix-web/src/error.rs:1-17 | every description is non-empty; that of `VerificationFailed` ends with the reason and that of `NetworkError` with the cause's description |
| `Errors.StatusCode` | turnstile-actix-web/src/error.rs:20-25 | 503 if and only if `NetworkError`, 400 if and only if any other variant |
| `Errors.PublicMessage` | turnstile-actix-web/src/error.rs:28-39 | one of four fixed texts; each text is produced by exactly its variant class (both token failures share one) |
| `Errors.ErrorBody` | turnstile-actix-web/src/error.rs:41-44 | an object with exactly the keys `error` and `message`, `error` = "captcha_verification_failed", `message` = the public message |
| `Errors.ErrorResponse` | turnstile-actix-web/src/error.rs:27-45 | as written: status 400 for every variant, JSON content, the fixed-shape body |
| `Errors.IntendedErrorResponse` | turnstile-actix-web/src/error.rs:20-25 | corrected: the same body with the status of `status_code`, so 503 exactly for `NetworkError` |
| `Errors.ErrorResponseStatusDisagrees` | turnstile-actix-web/src/error.rs:20-45 | the rendered status differs from `status_code` exactly for `NetworkError` (400 against 503); elsewhere the two responses agree |
| `Errors.TokenFailuresLookAlike` | turnstile-actix-web/src/error.rs:29-31 | `TokenNotFound` and `InvalidTokenFormat` give the same message and the same response |
| `Errors.ResponseIgnoresPayload` | turnstile-actix-web/src/error.rs:28-44 | two errors of the same variant give the same message and response, whatever their payloads |
| `Errors.ReasonNeverEchoed` | turnstile-actix-web/src/error.rs:35-37 | every rejection reason gives "please try again" and the same response |
| `Errors.CauseNeverEchoed` | turnstile-actix-web/src/error.rs:38 | every transport cause gives "temporarily unavailable" and the same response |
| `Errors.DisplayKeepsReason` | turnstile-actix-web/src/error.rs:12-13 | different reasons give different internal descriptions but the same public response |
| `Errors.DisplayKeepsCause` | turnstile-actix-web/src/error.rs:15-16 | transport causes with different descriptions give different internal descriptions but the same public response |
| `Turnstile.RequestBody` | turnstile-actix-web/src/turnstile.rs:10-14 | an object with exactly the keys `secret`, `response`, `remoteip`, bound to the secret, the token and the address |
| `Turnstile.SiteverifyRequest` | turnstile-actix-web/src/turnstile.rs:16-19 | a POST to the siteverify URL whose JSON body is the three-key payload |
| `Turnstile.SuccessVerdict` | turnstile-actix-web/src/turnstile.rs:24 | true if and only if the body is an object whose `success` field is the JSON boolean `true` |
| `Turnstile.ReadVerdict` | turnstile-actix-web/src/turnstile.rs:16-24 | a send or body-decode failure gives that `Err` and never a boolean; `Ok(true)` if and only if the decoded body says `success: true` |
| `Turnstile.VerifyCloudflareTurnstile` | turnstile-actix-web/src/turnstile.rs:5-25 | the result is decided by the network's answer to the siteverify request for these exact arguments: `Err` exactly on transport or decode failure, `Ok(true)` exactly on `success: true` |
| `Turnstile.MissingSuccessRejects` | turnstile-actix-web/src/turnstile.rs:24 | an object without `success` gives `Ok(false)`, not an error |
| `Turnstile.NonObjectRejects` | turnstile-actix-web/src/turnstile.rs:24 | a JSON body that is not an object gives `Ok(false)`, not an error |
| `Turnstile.NonBooleanSuccessRejects` | turnstile-actix-web/src/turnstile.rs:24 | a `success` that is a string, number, null, array or object rejects |
| `Turnstile.VerdictDependsOnlyOnSuccess` | turnstile-actix-web/src/turnstile.rs:24 | two objects with the same `success` entry get the same verdict |
| `Turnstile.OtherFieldsIgnored` | turnstile-actix-web/src/turnstile.rs:24 | adding, changing or removing any field other than `success` leaves the verdict unchanged |
| `Turnstile.StatusIgnored` | turnstile-actix-web/src/turnstile.rs:16-24 | the provider's HTTP status does not affect the result |
| `Middleware.Extract` | turnstile-actix-web/src/lib.rs:76-97 | `ClientIPNotFound` if and only if no address; `TokenNotFound` if and only if an address but no header; `InvalidTokenFormat` if and only if an address and a non-text header; otherwise the address and the header's text |
| `Middleware.Dispatch` | turnstile-actix-web/src/lib.rs:104-122 | the downstream result is awaited if and only if the verdict is `Ok(true)` and then returned as it is; `Ok(false)` gives `VerificationFailed("Cloudflare rejected the token")`; `Err(e)` gives `NetworkError(e)` |
| `Middleware.Call` | turnstile-actix-web/src/lib.rs:75-123 | without both signals: the extraction error, no verification, no service call; with both: exactly one verification on the extracted token, address and the middleware's config, one service call on the unchanged request; forwarding if and only if the verifier answers `Ok(true)`; every other outcome is a `TurnstileError` |
| `Middleware.ClientIpCheckedFirst` | turnstile-actix-web/src/lib.rs:76-82 | no address gives `ClientIPNotFound` and no calls, whatever the header holds |
| `Middleware.MissingTokenRejected` | turnstile-actix-web/src/lib.rs:84-96 | an address without the header gives `TokenNotFound` and no calls |
| `Middleware.UnreadableTokenRejected` | turnstile-actix-web/src/lib.rs:86-92 | an address with a non-text header gives `InvalidTokenFormat` and no calls |
| `Middleware.AcceptedForwards` | turnstile-actix-web/src/lib.rs:106-110 | `Ok(true)` returns the downstream result unchanged, response or error |
| `Middleware.RejectedFails` | turnstile-actix-web/src/lib.rs:111-116 | `Ok(false)` gives `VerificationFailed("Cloudflare rejected the token")` and never awaits downstream |
| `Middleware.TransportFailureFails` | turnstile-actix-web/src/lib.rs:117-120 | `Err(e)` gives `NetworkError(e)` and never awaits downstream |
| `Middleware.DownstreamIgnoredUnlessAccepted` | turnstile-actix-web/src/lib.rs:104-121 | unless the verdict is `Ok(true)`, the outcome does not depend on the downstream result |
| `Middleware.ForwardsIffProviderSaysTrue` | turnstile-actix-web/src/lib.rs:100-110 | the gate forwards if and only if both signals are present and the decoded siteverify answer for them has `success: true` |
| `Middleware.Serve` | turnstile-actix-web/src/lib.rs:75-105 | a run of requests through the same middleware, each seeing the network afresh, yields in order exactly what a lone call of each request with its own network yields |
| `Middleware.ServeVerifiesEachRequest` | turnstile-actix-web/src/lib.rs:75-105 | over any run, the provider is asked once for each request with both signals, in arrival order, and never for the others |
| `Middleware.AcceptingProviderScenario` | turnstile-actix-web/src/lib.rs:132-163 | with an accepting provider, the handler's "hello world" response comes back unchanged |
| `Middleware.RejectingProviderScenario` | turnstile-actix-web/src/lib.rs:165-213 | with a rejecting provider, the result is `VerificationFailed`, rendered as 400 with body `{error, message: "please try again"}` |
| `Middleware.TimeoutScenario` | turnstile-actix-web/src/lib.rs:117-120 | a timed-out send gives `NetworkError`, rendered 400 as written and 503 as intended, with the message "temporarily unavailable" |
| `Middleware.RepeatedRequestScenario` | turnstile-actix-web/src/lib.rs:75-110 | the same valid request twice against an accepting provider gives two identical, independent forwardings and two verification calls |
| `Middleware.RetryAfterTimeoutScenario` | turnstile-actix-web/src/lib.rs:104-121 | a request whose verification timed out fails with `NetworkError`; the same request retried against an accepting provider is forwarded |

## Left out

- `reqwest_client.rs` (the shared, lazily built HTTP client and its timeouts and pool settings) is not modelled. It is client configuration with no decision logic. The network is the `client` parameter.
- The real HTTP exchange with Cloudflare is an input, not a computation. That covers TLS, DNS, the connection pool, timeouts, and the request going out at most once.
- `TurnstileConfig.timeoutSecs` is kept but never read, as in the code.
- `Turnstile::new`, `new_transform`, `forward_ready!` and the boxed futures are not modelled. They are framework wiring. `TurnstileMiddleware` is built directly from a service and a configuration.
- Asynchrony and cancellation are not modelled. Awaiting is recorded as the `awaited` flag.
- serde_json's serialisation and parsing are not modelled. JSON numbers are integers, because no decision reads them.
- `HeaderValue::to_str` is abstracted as a header value whose `text` is `None` when it refuses, rather than its byte-level rule.
- How `ConnectionInfo::realip_remote_addr` reads forwarding headers is abstracted as an optional address.
- Headers are a map from lower-case name to one value. A repeated header is modelled by the value `get` returns.
- `reqwest::Error` is an opaque value with a kind and a description. Its own `Display` is that description.
- The crate's tests call the live Cloudflare service with test secrets. They appear only as scenario lemmas with a fixed provider answer.

## Findings

| source | as written | input that shows it | evidently intended | confidence | as-written member | corrected member |
|---|---|---|---|---|---|---|
| turnstile-actix-web/src/error.rs:41 | `error_response` builds every response with `HttpResponse::BadRequest()` | `NetworkError(c)` for any cause `c`: the rendered status is 400 while `status_code` returns 503 | the rendered status follows `status_code`, so a transport failure answers 503 | high; not executed | `Errors.ErrorResponseStatusDisagrees` | `Errors.IntendedErrorResponse` |
