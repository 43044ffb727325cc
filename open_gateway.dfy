/**
 * The open pass-through gateway (server2.js, and the identical router
 * routes/v2.js): login and session check answer with the four-field
 * envelope, failures that escape a handler reach the global error handler,
 * and /api/lbs requests are forwarded with no session check, the client's
 * query, headers and body copied, `key` and `host` overridden, and the
 * upstream's answer relayed.
 */
module OpenGateway {
  import opened JsValue
  import opened Http
  import opened Wechat
  import opened Utils
  import opened LbsPath

  const LoginOkMessage := "登录成功"
  const LoginFailedMessage := "登录失败"
  const MissingParamsMessage := "缺少openid或session_key参数"
  const VerifyOkMessage := "session_key验证成功"
  const ServiceErrorMessage := "服务异常"
  const ServerErrorMessage := "服务器错误"

  /** The `host` header the forwarded request carries. */
  const MapHost := "apis.map.qq.com"

  /** The global error handler: 500, with an envelope of code -1 whose
      message is the error's own `message`, or a fixed text when it has
      none, and whose data is the error itself. */
  function GlobalErrorReply(err: Value): (r: Reply)
    ensures r.status == 500 && AsEnvelope(r.body).Some?
    ensures var e := AsEnvelope(r.body).value;
      e.code == Num(-1) && e.success == Bool(false) && e.data == err && Truthy(e.message)
    ensures Truthy(Prop(err, "message")) ==> AsEnvelope(r.body).value.message == Prop(err, "message")
    ensures !Truthy(Prop(err, "message")) ==> AsEnvelope(r.body).value.message == Str(ServiceErrorMessage)
  {
    JsonWithStatus(500, Response(Num(-1), Bool(false), Or(Prop(err, "message"), Str(ServiceErrorMessage)), err))
  }

  /** GET /login/:code. One code-exchange call; a truthy `errcode` is
      answered 400 with that code and the payload; a transport error
      escapes to the global handler. */
  function Login(cfg: Config, code: string, net: Network): (h: Handled)
    ensures h.sent == [Code2SessionRequest(cfg.appid, cfg.secret, code)]
    ensures var o := net(h.sent[0]);
      o.Resolved? && IsError(o.response.body) ==>
        h.reply.status == 400 &&
        AsEnvelope(h.reply.body) ==
          Some(Envelope(Prop(o.response.body, "errcode"), Bool(false), Str(LoginFailedMessage), o.response.body))
    ensures var o := net(h.sent[0]);
      o.Resolved? && !IsError(o.response.body) ==>
        h.reply.status == 200 &&
        AsEnvelope(h.reply.body) == Some(Envelope(Num(0), Bool(true), Str(LoginOkMessage), o.response.body))
    ensures var o := net(h.sent[0]);
      o.Rejected? ==> h.reply == GlobalErrorReply(Error(RequestError(o.failure)))
  {
    var request := Code2SessionRequest(cfg.appid, cfg.secret, code);
    var reply :=
      match Await(net(request))
      case Failure(err) => GlobalErrorReply(err)
      case Success(resp) =>
        if IsError(resp.body) then
          JsonWithStatus(400, Response(Prop(resp.body, "errcode"), Bool(false), Str(LoginFailedMessage), resp.body))
        else Json(Response(Num(0), Bool(true), Str(LoginOkMessage), resp.body));
    Handled(reply, [request])
  }

  /** Whenever the code exchange is answered, the login reply is an
      envelope carrying the WeChat payload unchanged as `data`, and its
      `code` is 0 exactly when it reports success, which is exactly when
      the status is 200. */
  lemma LoginReplyCarriesPayload(cfg: Config, code: string, net: Network)
    requires net(Code2SessionRequest(cfg.appid, cfg.secret, code)).Resolved?
    ensures var h := Login(cfg, code, net);
      var e := AsEnvelope(h.reply.body);
      e.Some? && e.value.data == net(h.sent[0]).response.body &&
      (e.value.code == Num(0) <==> e.value.success == Bool(true)) &&
      (e.value.success == Bool(true) <==> h.reply.status == 200)
  {
  }

  /** GET /verify. A missing or empty parameter gives 400 with an envelope
      whose data is null, and no upstream call; otherwise the token call,
      then the session check with that token and the session key's
      signature. The check's payload is the success envelope's data, and
      any failure of either call escapes to the global handler. */
  function Verify(cfg: Config, query: map<string, string>, hmac: Hmac, net: Network): (h: Handled)
    ensures !ParamsPresent(query) ==>
      h.sent == [] && h.reply.status == 400 &&
      AsEnvelope(h.reply.body) == Some(Envelope(Num(400), Bool(false), Str(MissingParamsMessage), Null))
    ensures ParamsPresent(query) ==>
      1 <= |h.sent| <= 2 && h.sent[0] == TokenRequest(cfg.appid, cfg.secret) &&
      (|h.sent| == 2 <==> TokenResult(net(h.sent[0])).Success?) &&
      (|h.sent| == 2 ==> h.sent[1] == CheckRequestOf(cfg, query, hmac, net))
    ensures ParamsPresent(query) && |h.sent| == 1 ==>
      h.reply == GlobalErrorReply(TokenResult(net(h.sent[0])).error)
    ensures |h.sent| == 2 ==>
      match CheckSessionResult(net(h.sent[1]))
      case Success(payload) =>
        h.reply.status == 200 &&
        AsEnvelope(h.reply.body) == Some(Envelope(Num(0), Bool(true), Str(VerifyOkMessage), payload))
      case Failure(err) => h.reply == GlobalErrorReply(err)
  {
    var openid := QueryParam(query, "openid");
    var sessionKey := QueryParam(query, "session_key");
    if !Truthy(openid) || !Truthy(sessionKey) then
      var reply := JsonWithStatus(400, Response(Num(400), Bool(false), Str(MissingParamsMessage), Null));
      Handled(reply, [])
    else
      var tokenRequest := TokenRequest(cfg.appid, cfg.secret);
      match TokenResult(net(tokenRequest))
      case Failure(err) => Handled(GlobalErrorReply(err), [tokenRequest])
      case Success(token) =>
        var checkRequest := CheckSessionRequest(token, openid, query["session_key"], hmac);
        match CheckSessionResult(net(checkRequest))
        case Failure(err) => Handled(GlobalErrorReply(err), [tokenRequest, checkRequest])
        case Success(payload) =>
          var reply := Json(Response(Num(0), Bool(true), Str(VerifyOkMessage), payload));
          Handled(reply, [tokenRequest, checkRequest])
  }

  /** A verified session is one WeChat vouched for: a 200 reply to /verify
      means both parameters were present, the token call succeeded, the
      check call carried that token, the openid and the session key's
      signature, and its payload, which is the reply's data, has a falsy
      `errcode`. */
  lemma VerifySuccessMeansCheckPassed(cfg: Config, query: map<string, string>, hmac: Hmac, net: Network)
    requires Verify(cfg, query, hmac, net).reply.status == 200
    ensures ParamsPresent(query)
    ensures var h := Verify(cfg, query, hmac, net);
      |h.sent| == 2 && TokenResult(net(h.sent[0])).Success? &&
      h.sent[1].params.value["access_token"] == TokenOf(cfg, net) &&
      h.sent[1].params.value["signature"] == Str(hmac(query["session_key"])) &&
      h.sent[1].params.value["openid"] == Str(query["openid"]) &&
      net(h.sent[1]).Resolved? && !IsError(net(h.sent[1]).response.body) &&
      AsEnvelope(h.reply.body).value.data == net(h.sent[1]).response.body
  {
  }

  /** `{...req.query, key: TENCENT_MAP_KEY}`: the client's query with `key`
      set to the configured key, whatever the client sent under it; no
      other parameter is added, dropped or changed. */
  function ForwardQuery(query: map<string, string>, mapKey: string): (p: Dict)
    ensures "key" in p && p["key"] == Str(mapKey)
    ensures forall name :: name != "key" ==> (name in p <==> name in query)
    ensures forall name :: name in query && name != "key" ==> p[name] == Str(query[name])
  {
    FromQuery(query) + map["key" := Str(mapKey)]
  }

  /** `{...req.headers, host: 'apis.map.qq.com'}`: every inbound header is
      copied, and `host` names the map service. */
  function ForwardHeaders(headers: map<string, string>): (h: map<string, string>)
    ensures "host" in h && h["host"] == MapHost
    ensures forall name :: name != "host" ==> (name in h <==> name in headers)
    ensures forall name :: name in headers && name != "host" ==> h[name] == headers[name]
  {
    headers + map["host" := MapHost]
  }

  /** The forwarding call: the inbound method, the upstream URL, the
      rewritten query and headers, the body unchanged, no timeout. */
  function ForwardRequest(cfg: Config, req: Inbound): Outbound {
    Outbound(req.httpMethod, UpstreamUrl(req.path), Some(ForwardQuery(req.query, cfg.mapKey)),
             ForwardHeaders(req.headers), req.body, 0)
  }

  /** The upstream's answer, whether the HTTP client resolved with it or
      rejected it for its status. */
  function UpstreamAnswer(o: Outcome): Option<HttpResponse> {
    match o
    case Resolved(resp) => Some(resp)
    case Rejected(failure) => failure.response
  }

  /** ALL /api/lbs/(rest), with no session check: exactly one forwarding
      call. A resolved answer is relayed with its status, headers and body;
      a rejected answer with its status and body; without an answer, 500. */
  function Forward(cfg: Config, req: Inbound, net: Network): (h: Handled)
    ensures h.sent == [ForwardRequest(cfg, req)]
    ensures var o := net(h.sent[0]);
      o.Resolved? ==> h.reply == Reply(o.response.status, o.response.headers, o.response.body)
    ensures var o := net(h.sent[0]);
      o.Rejected? && o.failure.response.Some? ==>
        h.reply == Reply(o.failure.response.value.status, map[], o.failure.response.value.body)
    ensures var o := net(h.sent[0]);
      o.Rejected? && o.failure.response.None? ==>
        h.reply == JsonWithStatus(500, Obj(map["error" := Str(ServerErrorMessage)]))
  {
    var request := ForwardRequest(cfg, req);
    var reply :=
      match net(request)
      case Resolved(resp) => Reply(resp.status, resp.headers, resp.body)
      case Rejected(failure) =>
        match failure.response
        case Some(resp) => Reply(resp.status, map[], resp.body)
        case None => JsonWithStatus(500, Obj(map["error" := Str(ServerErrorMessage)]));
    Handled(reply, [request])
  }

  /** Forwarding is transparent for status and body: whenever the upstream
      answered, with any status, the reply has that status and that body;
      only a request that got no answer is answered 500, and there is no
      timeout case, so a 408 reply means the upstream itself said 408. */
  lemma ForwardRelaysUpstream(cfg: Config, req: Inbound, net: Network)
    ensures var h := Forward(cfg, req, net);
      var answer := UpstreamAnswer(net(ForwardRequest(cfg, req)));
      (answer.Some? ==> h.reply.status == answer.value.status && h.reply.body == answer.value.body) &&
      (answer.None? ==> h.reply.status == 500) &&
      (h.reply.status == 408 ==> answer.Some? && answer.value.status == 408)
  {
  }

  /** Unlike the session-gated gateway, the open one forwards `session_code`
      when the client sends it, and the client's `key` is replaced. */
  lemma OpenForwardKeepsSessionCode(cfg: Config, req: Inbound, net: Network)
    requires "session_code" in req.query
    ensures var p := Forward(cfg, req, net).sent[0].params.value;
      "session_code" in p && p["session_code"] == Str(req.query["session_code"]) && p["key"] == Str(cfg.mapKey)
  {
  }
}
