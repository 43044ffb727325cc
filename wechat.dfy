/**
 * The WeChat identity service as the handlers call it: the three request
 * builders (code exchange, access token, session check) and the one test
 * every handler applies to a WeChat payload.
 */
module Wechat {
  import opened JsValue
  import opened Http

  const Code2SessionUrl := "https://api.weixin.qq.com/sns/jscode2session"
  const TokenUrl := "https://api.weixin.qq.com/cgi-bin/token"
  const CheckSessionUrl := "https://api.weixin.qq.com/wxa/checksession"

  /** HMAC-SHA256 of the empty message under the given key, as lower-case
      hex. The digest itself is not modelled: it is whatever function the
      caller supplies. */
  type Hmac = string -> string

  /** A WeChat payload reports a failure exactly when its `errcode` is truthy. */
  predicate IsError(payload: Value) {
    Truthy(Prop(payload, "errcode"))
  }

  /** The failure test in the source's own terms: an `errcode` that is absent or 0 is no failure. */
  lemma NoErrcodeIsNoError(payload: Value)
    requires Prop(payload, "errcode") == Undefined || Prop(payload, "errcode") == Num(0)
    ensures !IsError(payload)
  {
  }

  /** The code-exchange call: GET jscode2session with the app's id and
      secret, the client's code, and grant type `authorization_code`. */
  function Code2SessionRequest(appid: string, secret: string, code: string): (r: Outbound)
    ensures r.httpMethod == "GET" && r.url == Code2SessionUrl && r.params.Some?
    ensures r.params.value.Keys == {"appid", "secret", "js_code", "grant_type"}
    ensures r.params.value["js_code"] == Str(code)
    ensures r.params.value["appid"] == Str(appid) && r.params.value["secret"] == Str(secret)
    ensures r.params.value["grant_type"] == Str("authorization_code")
  {
    GetRequest(Code2SessionUrl,
      map["appid" := Str(appid), "secret" := Str(secret),
          "js_code" := Str(code), "grant_type" := Str("authorization_code")])
  }

  /** The access-token call: GET cgi-bin/token with grant type
      `client_credential` and the app's id and secret. */
  function TokenRequest(appid: string, secret: string): (r: Outbound)
    ensures r.httpMethod == "GET" && r.url == TokenUrl && r.params.Some?
    ensures r.params.value.Keys == {"grant_type", "appid", "secret"}
    ensures r.params.value["grant_type"] == Str("client_credential")
    ensures r.params.value["appid"] == Str(appid) && r.params.value["secret"] == Str(secret)
  {
    GetRequest(TokenUrl,
      map["grant_type" := Str("client_credential"), "appid" := Str(appid), "secret" := Str(secret)])
  }

  /** The session-check call: exactly four query parameters, the token, the
      user's openid, the signature of the empty message under the session
      key, and `sig_method=hmac_sha256`. The signature is a function of the
      session key alone. */
  function CheckSessionRequest(accessToken: Value, openid: Value, sessionKey: string, hmac: Hmac): (r: Outbound)
    ensures r.httpMethod == "GET" && r.url == CheckSessionUrl && r.params.Some?
    ensures r.params.value.Keys == {"access_token", "openid", "signature", "sig_method"}
    ensures r.params.value["access_token"] == accessToken && r.params.value["openid"] == openid
    ensures r.params.value["signature"] == Str(hmac(sessionKey))
    ensures r.params.value["sig_method"] == Str("hmac_sha256")
  {
    var signature := hmac(sessionKey);
    GetRequest(CheckSessionUrl,
      map["access_token" := accessToken, "openid" := openid,
          "signature" := Str(signature), "sig_method" := Str("hmac_sha256")])
  }

  /** Equal session keys give equal signatures, whatever the token and the openid. */
  lemma SignatureDependsOnKeyOnly(t1: Value, o1: Value, t2: Value, o2: Value, key: string, hmac: Hmac)
    ensures CheckSessionRequest(t1, o1, key, hmac).params.value["signature"]
         == CheckSessionRequest(t2, o2, key, hmac).params.value["signature"]
  {
  }

  /** The two session parameters of a /verify request, `openid` and
      `session_key`, are both present and non-empty. */
  predicate ParamsPresent(query: map<string, string>) {
    "openid" in query && query["openid"] != "" && "session_key" in query && query["session_key"] != ""
  }

  /** The token the token call yields, when it is answered. */
  function TokenOf(cfg: Config, net: Network): Value {
    match net(TokenRequest(cfg.appid, cfg.secret))
    case Resolved(resp) => Prop(resp.body, "access_token")
    case Rejected(_) => Undefined
  }

  /** The session-check call of a /verify request whose token call succeeded. */
  function CheckRequestOf(cfg: Config, query: map<string, string>, hmac: Hmac, net: Network): Outbound
    requires ParamsPresent(query)
  {
    CheckSessionRequest(TokenOf(cfg, net), Str(query["openid"]), query["session_key"], hmac)
  }
}
