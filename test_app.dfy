/**
 * The first standalone server (test.js): code login and session check,
 * each answering every failure with HTTP 400 and a body built from the
 * caught error. Its `getAccessToken` is the same as the shared one
 * (`Utils.TokenResult`); its `checkSessionKey` is not, see
 * `LenientCheckResult`.
 */
module TestApp {
  import opened JsValue
  import opened Http
  import opened Wechat
  import opened Utils

  const LoginOkMessage := "临时code登录成功"
  const LoginFailedMessage := "登录失败"
  const MissingParamsMessage := "缺少openid或session_key参数"
  const VerifyOkMessage := "session_key验证成功"
  const VerifyFailedMessage := "验证失败"

  /** This server's `checkSessionKey`: the payload is returned whatever its
      `errcode`; only a transport error throws. */
  function LenientCheckResult(o: Outcome): (r: Result<Value, Value>)
    ensures r.Failure? <==> o.Rejected?
    ensures o.Resolved? ==> r.value == o.response.body
    ensures o.Rejected? ==> r.error == Error(RequestError(o.failure))
  {
    match Await(o)
    case Failure(err) => Failure(err)
    case Success(resp) => Success(resp.body)
  }

  /** Where the shared `checkSessionKey` throws a WeChat error payload,
      this one returns it as a result. */
  lemma LenientCheckKeepsErrorPayload(o: Outcome)
    requires o.Resolved? && IsError(o.response.body)
    ensures CheckSessionResult(o) == Failure(o.response.body)
    ensures LenientCheckResult(o) == Success(o.response.body)
  {
  }

  /** The catch block of both handlers: 400 with `code: err.errcode || -1`,
      `message: err.errmsg || fallback` and `data: err`. */
  function CaughtReply(err: Value, fallback: string): Reply {
    JsonWithStatus(400,
      Response(Or(Prop(err, "errcode"), Num(-1)), Bool(false), Or(Prop(err, "errmsg"), Str(fallback)), err))
  }

  /** GET /login/:code. One code-exchange call; a payload with a truthy
      `errcode` is thrown and caught like a transport error. */
  function Login(cfg: Config, code: string, net: Network): (h: Handled)
    ensures h.sent == [Code2SessionRequest(cfg.appid, cfg.secret, code)]
    ensures var o := net(h.sent[0]);
      o.Resolved? && !IsError(o.response.body) ==>
        h.reply == Json(Response(Num(0), Bool(true), Str(LoginOkMessage), o.response.body))
    ensures var o := net(h.sent[0]);
      o.Resolved? && IsError(o.response.body) ==>
        var p := o.response.body;
        h.reply.status == 400 &&
        AsEnvelope(h.reply.body) ==
          Some(Envelope(Prop(p, "errcode"), Bool(false), Or(Prop(p, "errmsg"), Str(LoginFailedMessage)), p))
    ensures var o := net(h.sent[0]);
      o.Rejected? ==>
        h.reply.status == 400 &&
        AsEnvelope(h.reply.body) ==
          Some(Envelope(Num(-1), Bool(false), Str(LoginFailedMessage), Error(RequestError(o.failure))))
  {
    var request := Code2SessionRequest(cfg.appid, cfg.secret, code);
    var reply :=
      match Await(net(request))
      case Failure(err) => CaughtReply(err, LoginFailedMessage)
      case Success(resp) =>
        if IsError(resp.body) then CaughtReply(resp.body, LoginFailedMessage)
        else Json(Response(Num(0), Bool(true), Str(LoginOkMessage), resp.body));
    Handled(reply, [request])
  }

  /** Every /login reply is an envelope whose `code` is 0 exactly when it
      reports success, which is exactly when the status is 200. */
  lemma LoginCodeZeroIffSuccess(cfg: Config, code: string, net: Network)
    ensures var h := Login(cfg, code, net);
      var e := AsEnvelope(h.reply.body);
      e.Some? && (e.value.code == Num(0) <==> e.value.success == Bool(true)) &&
      (e.value.success == Bool(true) <==> h.reply.status == 200)
  {
  }

  /** The shape of both /verify handlers; `check` interprets the session
      check's outcome. */
  function VerifyUsing(cfg: Config, query: map<string, string>, hmac: Hmac, net: Network,
                       check: Outcome -> Result<Value, Value>): Handled
  {
    var openid := QueryParam(query, "openid");
    var sessionKey := QueryParam(query, "session_key");
    if !Truthy(openid) || !Truthy(sessionKey) then
      Handled(JsonWithStatus(400,
                Obj(map["code" := Num(400), "success" := Bool(false), "message" := Str(MissingParamsMessage)])),
              [])
    else
      var tokenRequest := TokenRequest(cfg.appid, cfg.secret);
      match TokenResult(net(tokenRequest))
      case Failure(err) => Handled(CaughtReply(err, VerifyFailedMessage), [tokenRequest])
      case Success(token) =>
        var checkRequest := CheckSessionRequest(token, openid, query["session_key"], hmac);
        match check(net(checkRequest))
        case Failure(err) => Handled(CaughtReply(err, VerifyFailedMessage), [tokenRequest, checkRequest])
        case Success(payload) =>
          Handled(Json(Response(Num(0), Bool(true), Str(VerifyOkMessage), payload)), [tokenRequest, checkRequest])
  }

  /** GET /verify. A missing or empty parameter gives 400 with no `data`
      field and no upstream call; otherwise the token call and then the
      check call with that token and the session key's signature; any
      failure in either is answered 400 with `code: err.errcode || -1`. */
  function Verify(cfg: Config, query: map<string, string>, hmac: Hmac, net: Network): (h: Handled)
    ensures !ParamsPresent(query) ==>
      h.sent == [] && h.reply.status == 400 && h.reply.body.Obj? &&
      h.reply.body.fields.Keys == {"code", "success", "message"} &&
      Prop(h.reply.body, "code") == Num(400) && Prop(h.reply.body, "success") == Bool(false) &&
      Prop(h.reply.body, "message") == Str(MissingParamsMessage)
    ensures ParamsPresent(query) ==>
      1 <= |h.sent| <= 2 && h.sent[0] == TokenRequest(cfg.appid, cfg.secret) &&
      (|h.sent| == 2 <==> TokenResult(net(h.sent[0])).Success?) &&
      (|h.sent| == 2 ==> h.sent[1] == CheckRequestOf(cfg, query, hmac, net))
    ensures h.reply.status == 200 <==>
      ParamsPresent(query) && |h.sent| == 2 && net(h.sent[1]).Resolved?
    ensures h.reply.status == 200 ==>
      AsEnvelope(h.reply.body) == Some(Envelope(Num(0), Bool(true), Str(VerifyOkMessage), net(h.sent[1]).response.body))
    ensures ParamsPresent(query) && h.reply.status != 200 ==>
      h.reply.status == 400 && AsEnvelope(h.reply.body).Some? &&
      var e := AsEnvelope(h.reply.body).value;
      e.success == Bool(false) && e.code == Or(Prop(e.data, "errcode"), Num(-1))
    ensures ParamsPresent(query) && |h.sent| == 1 && net(h.sent[0]).Resolved? ==>
      var p := net(h.sent[0]).response.body;
      AsEnvelope(h.reply.body) ==
        Some(Envelope(Prop(p, "errcode"), Bool(false), Or(Prop(p, "errmsg"), Str(VerifyFailedMessage)), p))
    ensures ParamsPresent(query) && |h.sent| == 1 && net(h.sent[0]).Rejected? ==>
      AsEnvelope(h.reply.body) ==
        Some(Envelope(Num(-1), Bool(false), Str(VerifyFailedMessage), Error(RequestError(net(h.sent[0]).failure))))
    ensures |h.sent| == 2 && net(h.sent[1]).Rejected? ==>
      h.reply.status == 400 &&
      AsEnvelope(h.reply.body) ==
        Some(Envelope(Num(-1), Bool(false), Str(VerifyFailedMessage), Error(RequestError(net(h.sent[1]).failure))))
  {
    VerifyUsing(cfg, query, hmac, net, LenientCheckResult)
  }

  /** A session the identity service rejects is reported as verified: with
      both parameters present and the token call answered, a check payload
      carrying a truthy `errcode` still yields 200 and `success: true`, with
      that payload as `data`. */
  lemma VerifyAcceptsRejectedSession(cfg: Config, query: map<string, string>, hmac: Hmac, net: Network)
    requires ParamsPresent(query)
    requires net(TokenRequest(cfg.appid, cfg.secret)).Resolved?
    requires !IsError(net(TokenRequest(cfg.appid, cfg.secret)).response.body)
    requires net(CheckRequestOf(cfg, query, hmac, net)).Resolved?
    requires IsError(net(CheckRequestOf(cfg, query, hmac, net)).response.body)
    ensures var h := Verify(cfg, query, hmac, net);
      h.reply.status == 200 &&
      AsEnvelope(h.reply.body) ==
        Some(Envelope(Num(0), Bool(true), Str(VerifyOkMessage), net(CheckRequestOf(cfg, query, hmac, net)).response.body))
  {
  }

  /** /verify with the session check that throws on a truthy `errcode`:
      a success reply means exactly that the identity service accepted the
      session, and a rejection is answered 400 with the service's own
      `errcode`. */
  function VerifyChecked(cfg: Config, query: map<string, string>, hmac: Hmac, net: Network): (h: Handled)
    ensures h.reply.status == 200 ==>
      ParamsPresent(query) && |h.sent| == 2 && net(h.sent[1]).Resolved? &&
      !IsError(net(h.sent[1]).response.body)
    ensures ParamsPresent(query) && TokenResult(net(TokenRequest(cfg.appid, cfg.secret))).Success? &&
            net(CheckRequestOf(cfg, query, hmac, net)).Resolved? &&
            IsError(net(CheckRequestOf(cfg, query, hmac, net)).response.body) ==>
      var p := net(CheckRequestOf(cfg, query, hmac, net)).response.body;
      h.reply.status == 400 &&
      AsEnvelope(h.reply.body) ==
        Some(Envelope(Prop(p, "errcode"), Bool(false), Or(Prop(p, "errmsg"), Str(VerifyFailedMessage)), p))
    ensures ParamsPresent(query) && TokenResult(net(TokenRequest(cfg.appid, cfg.secret))).Success? &&
            net(CheckRequestOf(cfg, query, hmac, net)).Resolved? &&
            !IsError(net(CheckRequestOf(cfg, query, hmac, net)).response.body) ==>
      var p := net(CheckRequestOf(cfg, query, hmac, net)).response.body;
      h.sent == [TokenRequest(cfg.appid, cfg.secret), CheckRequestOf(cfg, query, hmac, net)] &&
      h.reply.status == 200 &&
      AsEnvelope(h.reply.body) == Some(Envelope(Num(0), Bool(true), Str(VerifyOkMessage), p))
  {
    VerifyUsing(cfg, query, hmac, net, CheckSessionResult)
  }
}
