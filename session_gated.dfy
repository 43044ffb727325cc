/**
 * The session-gated gateway (server.js): a forwarded request must carry a
 * WeChat login code in `session_code`, which is exchanged before the
 * request is rebuilt (client `key` overridden, `session_code` deleted) and
 * sent to the map service; failures are mapped to a status by one if/else
 * chain.
 */
module SessionGated {
  import opened JsValue
  import opened Http
  import opened Wechat
  import opened LbsPath

  const MissingSessionCodeMessage := "缺少session_code参数"
  const LoginCheckFailedMessage := "微信登录校验失败"
  const UpstreamErrorMessage := "腾讯位置服务API错误"
  const TimeoutMessage := "请求超时"
  const InternalErrorMessage := "服务内部错误"

  /** The forwarding call's own timeout, in milliseconds. */
  const ForwardTimeoutMs := 10000

  /** The only headers the forwarding call sends. */
  const ForwardHeaders := map["Content-Type" := "application/json", "User-Agent" := "Smart-Itinerary-Backend/1.0.0"]

  /** The one error every failed login check is replaced by. */
  const LoginCheckError := Error(PlainError(LoginCheckFailedMessage))

  /** `verifyWechatLogin`, given how the code-exchange call settled: the
      payload when its `errcode` is falsy; otherwise, and on any transport
      error, the same generic error, which keeps neither the WeChat code
      nor the transport error. */
  function VerifyWechatLogin(o: Outcome): (r: Result<Value, Value>)
    ensures r.Success? <==> o.Resolved? && !IsError(o.response.body)
    ensures r.Success? ==> r.value == o.response.body
    ensures r.Failure? ==> r.error == LoginCheckError
  {
    match Await(o)
    case Failure(_) => Failure(LoginCheckError)
    case Success(resp) =>
      // the error thrown for a truthy errcode is caught and replaced too
      if IsError(resp.body) then Failure(LoginCheckError) else Success(resp.body)
  }

  /** The parameters the map service should receive, field by field: the
      configured key under `key`, nothing under `session_code`, and any
      other name with the body's value when the body has it, the query's
      otherwise. */
  function ExpectedParams(query: map<string, string>, body: Value, mapKey: string): (p: Dict)
    ensures "key" in p && p["key"] == Str(mapKey)
    ensures "session_code" !in p
    ensures forall name :: name != "key" && name != "session_code" ==>
              (name in p <==> name in query || name in Own(body))
    ensures forall name :: name in p && name != "key" && name in Own(body) ==> p[name] == Own(body)[name]
    ensures forall name :: name in p && name != "key" && name !in Own(body) ==> p[name] == Str(query[name])
  {
    map name | name in (query.Keys + Own(body).Keys + {"key"}) - {"session_code"} ::
      if name == "key" then Str(mapKey)
      else if name in Own(body) then Own(body)[name]
      else Str(query[name])
  }

  /** `requestParams`: the query overlaid by the body and the key, then
      `session_code` deleted in place. */
  method ForwardParams(query: map<string, string>, body: Value, mapKey: string) returns (params: Dict)
    ensures params == ExpectedParams(query, body, mapKey)
  {
    params := FromQuery(query) + Own(body) + map["key" := Str(mapKey)];
    params := params - {"session_code"};
    assert params.Keys == ExpectedParams(query, body, mapKey).Keys;
  }

  /** The forwarding call: the inbound method, the upstream URL, fixed
      headers, a 10-second timeout, and the parameters as the query string
      for GET, as the body for POST, and not at all for any other method. */
  function ForwardRequest(httpMethod: string, path: string, params: Dict): (r: Outbound)
    ensures r.httpMethod == httpMethod && r.url == UpstreamUrl(path)
    ensures r.headers == ForwardHeaders && r.timeoutMs == ForwardTimeoutMs
    ensures r.params.Some? <==> httpMethod == "GET"
    ensures r.data != Undefined <==> httpMethod == "POST"
    ensures r.params.Some? ==> r.params.value == params
    ensures r.data != Undefined ==> r.data == Obj(params)
  {
    Outbound(httpMethod, UpstreamUrl(path),
      if httpMethod == "GET" then Some(params) else None,
      ForwardHeaders,
      if httpMethod == "POST" then Obj(params) else Undefined,
      ForwardTimeoutMs)
  }

  /** Every parameter an outbound request carries, in its query string or as
      its object body. */
  function SentParams(r: Outbound): Dict {
    (if r.params.Some? then r.params.value else map[]) + Own(r.data)
  }

  /** `error.response`: present only on a request error whose upstream answered. */
  function ResponseOf(err: Value): Option<HttpResponse> {
    if err.Error? && err.error.RequestError? then err.error.failure.response else None
  }

  /** The catch block's chain. An upstream response takes precedence: its
      status is relayed with its body as `details`. Without one, the
      client's timeout code gives 408, and anything else gives 500 with
      the error's message as `details`. */
  function ErrorReply(err: Value): (r: Reply)
    ensures r.body.Obj?
    ensures ResponseOf(err).Some? ==>
      r.body.fields.Keys == {"error", "details", "code"} && Prop(r.body, "error") == Str(UpstreamErrorMessage)
    ensures ResponseOf(err).None? && Prop(err, "code") == Str("ECONNABORTED") ==>
      r.body.fields.Keys == {"error", "code"} && Prop(r.body, "error") == Str(TimeoutMessage)
    ensures ResponseOf(err).None? && Prop(err, "code") != Str("ECONNABORTED") ==>
      r.body.fields.Keys == {"error", "details", "code"} && Prop(r.body, "error") == Str(InternalErrorMessage)
    ensures ResponseOf(err).Some? ==>
      r.status == ResponseOf(err).value.status &&
      Prop(r.body, "code") == Str("TENCENT_API_ERROR") &&
      Prop(r.body, "details") == ResponseOf(err).value.body
    ensures ResponseOf(err).None? && Prop(err, "code") == Str("ECONNABORTED") ==>
      r.status == 408 && Prop(r.body, "code") == Str("REQUEST_TIMEOUT") && Prop(r.body, "details") == Undefined
    ensures ResponseOf(err).None? && Prop(err, "code") != Str("ECONNABORTED") ==>
      r.status == 500 && Prop(r.body, "code") == Str("INTERNAL_ERROR") &&
      Prop(r.body, "details") == Prop(err, "message")
  {
    match ResponseOf(err)
    case Some(resp) =>
      JsonWithStatus(resp.status,
        Obj(map["error" := Str(UpstreamErrorMessage), "details" := resp.body, "code" := Str("TENCENT_API_ERROR")]))
    case None =>
      if Prop(err, "code") == Str("ECONNABORTED") then
        JsonWithStatus(408, Obj(map["error" := Str(TimeoutMessage), "code" := Str("REQUEST_TIMEOUT")]))
      else
        JsonWithStatus(500,
          Obj(map["error" := Str(InternalErrorMessage), "details" := Prop(err, "message"), "code" := Str("INTERNAL_ERROR")]))
  }

  /** Any method on /api/lbs/(rest). A missing or empty `session_code` is answered 400
      before any upstream call. Otherwise the code is exchanged first; a
      failed exchange is answered 500 `INTERNAL_ERROR` and nothing is
      forwarded. Otherwise exactly one forwarding call follows, whose
      parameters never include `session_code` and whose `key` is the
      configured one; its body is returned with status 200, and its
      failure is mapped by `ErrorReply`. */
  method HandleLbs(cfg: Config, req: Inbound, net: Network) returns (h: Handled)
    ensures !Truthy(QueryParam(req.query, "session_code")) ==>
      h.sent == [] && h.reply.status == 400 && h.reply.body.Obj? && h.reply.body.fields.Keys == {"error", "code"} &&
      Prop(h.reply.body, "error") == Str(MissingSessionCodeMessage) &&
      Prop(h.reply.body, "code") == Str("MISSING_SESSION_CODE")
    ensures Truthy(QueryParam(req.query, "session_code")) ==>
      1 <= |h.sent| <= 2 &&
      h.sent[0] == Code2SessionRequest(cfg.appid, cfg.secret, req.query["session_code"]) &&
      (|h.sent| == 2 <==> VerifyWechatLogin(net(h.sent[0])).Success?)
    ensures |h.sent| == 1 ==>
      h.reply.status == 500 && h.reply.body.Obj? && h.reply.body.fields.Keys == {"error", "details", "code"} &&
      Prop(h.reply.body, "error") == Str(InternalErrorMessage) &&
      Prop(h.reply.body, "details") == Str(LoginCheckFailedMessage) &&
      Prop(h.reply.body, "code") == Str("INTERNAL_ERROR")
    ensures |h.sent| == 2 ==>
      h.sent[1] == ForwardRequest(req.httpMethod, req.path, ExpectedParams(req.query, req.body, cfg.mapKey)) &&
      "session_code" !in SentParams(h.sent[1]) &&
      (req.httpMethod == "GET" || req.httpMethod == "POST" ==> SentParams(h.sent[1])["key"] == Str(cfg.mapKey))
    ensures |h.sent| == 2 && net(h.sent[1]).Resolved? ==>
      h.reply == Json(net(h.sent[1]).response.body)
    ensures |h.sent| == 2 && net(h.sent[1]).Rejected? ==>
      h.reply == ErrorReply(Error(RequestError(net(h.sent[1]).failure)))
  {
    if !Truthy(QueryParam(req.query, "session_code")) {
      var body := Obj(map["error" := Str(MissingSessionCodeMessage), "code" := Str("MISSING_SESSION_CODE")]);
      return Handled(JsonWithStatus(400, body), []);
    }
    var loginRequest := Code2SessionRequest(cfg.appid, cfg.secret, req.query["session_code"]);
    var login := VerifyWechatLogin(net(loginRequest));
    if login.Failure? {
      return Handled(ErrorReply(login.error), [loginRequest]);
    }
    var params := ForwardParams(req.query, req.body, cfg.mapKey);
    var forward := ForwardRequest(req.httpMethod, req.path, params);
    match net(forward) {
      case Resolved(resp) =>
        h := Handled(Json(resp.body), [loginRequest, forward]);
      case Rejected(failure) =>
        h := Handled(ErrorReply(Error(RequestError(failure))), [loginRequest, forward]);
    }
  }
}
