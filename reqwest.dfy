/**
 * The HTTP transport seen from the verification client: the request it
 * sends and what can come back. What happens on the wire (DNS, TLS,
 * connection pooling, timeouts) is not modelled; an exchange is an input.
 */
module Reqwest {
  import Json

  datatype Method = Post

  /** A request with a JSON body, as built by `.post(url).json(&body)`. */
  datatype Request = Request(verb: Method, url: string, json: Json.Value)

  /** The broad classes of `reqwest::Error` the core can meet. */
  datatype Kind = Timeout | Connect | Send | Decode

  /** An opaque `reqwest::Error`; `detail` is its internal description. */
  datatype Error = Error(kind: Kind, detail: string)

  /** The body of a response: decodable as JSON (`resp.json()` succeeds) or not. */
  datatype Body = Decodable(json: Json.Value) | Undecodable(error: Error)

  /** One round trip: `send()` failed, or a response with some status arrived. */
  datatype Exchange = SendFailed(error: Error) | Received(status: nat, body: Body)

  /** The network as the client sees it: a request in, an exchange out. */
  type Client = Request -> Exchange
}
