/**
 * The HTTP boundary of the handlers. The network is not modelled: a handler
 * is given the upstream's answer to every request it could send, as the
 * function `net`, and returns the reply it writes together with the
 * requests it actually sent, in order.
 */
module Http {
  import opened JsValue

  /** The process environment, read once at start-up and never changed. */
  datatype Config = Config(appid: string, secret: string, mapKey: string)

  /** An inbound request as the router hands it to a handler. Header names
      are lower-case, as Node delivers them. */
  datatype Inbound = Inbound(
    httpMethod: string,
    path: string,
    query: map<string, string>,
    headers: map<string, string>,
    body: Value)

  /** A request handed to the HTTP client: `params` become the query
      string, `data` the body (`Undefined` for none); a `timeoutMs` of 0
      means that the request sets no timeout. */
  datatype Outbound = Outbound(
    httpMethod: string,
    url: string,
    params: Option<Dict>,
    headers: map<string, string>,
    data: Value,
    timeoutMs: nat)

  /** How the HTTP client's promise settles: with the upstream's response,
      or with an error (a response the client rejects for its status, a
      timeout, any other transport failure). */
  datatype Outcome =
    | Resolved(response: HttpResponse)
    | Rejected(failure: RequestFailure)

  /** The upstream services, as the answer they give to each request. */
  type Network = Outbound -> Outcome

  /** `await` on the HTTP client's promise: a rejection throws the client's error. */
  function Await(o: Outcome): Result<HttpResponse, Value> {
    match o
    case Resolved(response) => Success(response)
    case Rejected(failure) => Failure(Error(RequestError(failure)))
  }

  /** The reply a handler writes: status, the headers it sets explicitly,
      and the body it passes to `res.json` or `res.send`. */
  datatype Reply = Reply(status: int, headers: map<string, string>, body: Value)

  /** `res.json(body)`, whose status defaults to 200. */
  function Json(body: Value): Reply {
    Reply(200, map[], body)
  }

  /** `res.status(status).json(body)`. */
  function JsonWithStatus(status: int, body: Value): Reply {
    Reply(status, map[], body)
  }

  /** What handling one inbound request amounts to: the reply, and the
      upstream requests sent on the way, in order. */
  datatype Handled = Handled(reply: Reply, sent: seq<Outbound>)

  /** A GET request that carries only query parameters. */
  function GetRequest(url: string, params: Dict): Outbound {
    Outbound("GET", url, Some(params), map[], Undefined, 0)
  }
}
