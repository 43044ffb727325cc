# WeChat login and map-service gateway: a Dafny model

The repository is a small Node/Express back end for a WeChat mini-app. It
exchanges a client's login code for a WeChat session (`/login/:code`),
checks that a session key is still live (`/verify`), and forwards any
request under `/api/lbs/` to the Tencent map service
(`https://apis.map.qq.com`), adding the server's own map key. It does this
in several near-copies:

- `test.js`: login and verify only, every failure answered 400;
- `server.js`: a session-gated forwarder, which exchanges a `session_code`
  before forwarding, deletes it from the forwarded parameters, relays an
  upstream error status as it is, and otherwise maps failures to 400, 408
  or 500 with string codes;
- `server2.js`, and `routes/v2.js`, which is the same code as a router:
  login, verify and an open pass-through forwarder, replying with the
  four-field envelope of `utils.js` and a global error handler.

The model keeps the decision logic of these handlers and replaces the
network with an input. Each handler takes `net: Outbound -> Outcome`, the
answer the upstream services give to each request, and returns
`Handled(reply, sent)`: the status, headers and body it writes, and the
upstream requests it sent, in order. "No upstream call" is `sent == []`.
An `Outcome` is what the HTTP client's promise does: it resolves with a
response, or it rejects with an error carrying a `code` (`ECONNABORTED` when
the request's own timeout elapsed), a `message`, and the upstream response
when there was one.

JavaScript values are modelled by `JsValue.Value`. Property reads (`Prop`),
truthiness (`Truthy`), `||` (`Or`) and object spread (`Own`, map union,
right-biased) follow JavaScript. A WeChat payload is a failure exactly when
its `errcode` is truthy (`Wechat.IsError`). HMAC-SHA256 is a function
parameter `hmac`; it is never computed.

Modules, one per source file or shared concern:

- `JsValue` (`js_value.dfy`): values, errors, property reads, truthiness.
- `Http` (`http.dfy`): inbound and outbound requests, outcomes, replies.
- `Wechat` (`wechat.dfy`): the three identity-service request builders.
- `LbsPath` (`lbs_path.dfy`): `path.replace('/api/lbs', '')` and the upstream URL.
- `Utils` (`utils.dfy`): `utils.js`.
- `TestApp` (`test_app.dfy`): `test.js`.
- `SessionGated` (`session_gated.dfy`): `server.js`. The only imperative part:
  `requestParams` is built by spreading and then `session_code` is deleted
  in place, so `ForwardParams` and the handler `HandleLbs` are methods. They
  are proved against the field-by-field definition `ExpectedParams`.
- `OpenGateway` (`open_gateway.dfy`): `server2.js`. `routes/v2.js:14-66` is
  the same code line for line. Its verify failures reach the global handler
  of `main.js:65-68`, which is identical to `server2.js:119-122`. So the same
  members model it, and the lemmas about them cite the router's lines.

`test.js` defines its own `getAccessToken` (`test.js:18-27`), identical to
`utils.js:52-61`. Both are modelled by `Utils.TokenResult`.

Behaviours of the code a reader might not expect, which the model keeps:

- A `/verify` transport failure is answered 400 in `test.js` and 500 in
  `server2.js`. It is never 408.
- A failed login check in the gated forwarder is answered 500
  `INTERNAL_ERROR`, not 400 `Unauthorized`.
- The open forwarder copies every inbound header and overrides only
  `host`; nothing is allow-listed. The gated forwarder sends two fixed
  headers instead.
- `server.js` sends the parameters, and with them the map key, only for
  GET and POST.
- The open forwarder does not strip `session_code`.

## Model

| member | source | states |
|---|---|---|
| `Wechat.Code2SessionRequest` | test.js:49-55 | the code exchange is a GET to jscode2session with exactly `appid`, `secret`, `js_code` (the client's code) and `grant_type=authorization_code` |
| `Wechat.TokenRequest` | utils.js:52-54 | the token call is a GET to cgi-bin/token with exactly `grant_type=client_credential`, `appid` and `secret` |
| `Wechat.CheckSessionRequest` | utils.js:76-85 | the session check sends exactly four parameters: the token, the openid, the signature (HMAC of the empty message under the session key) and `sig_method=hmac_sha256` |
| `Wechat.SignatureDependsOnKeyOnly` | utils.js:77 | equal session keys give equal signatures, whatever the token and the openid |
| `Wechat.NoErrcodeIsNoError` | utils.js:57 | a payload whose `errcode` is absent or 0 is not a failure |
| `Utils.Response` | utils.js:16-23 | the envelope has exactly the fields `code`, `success`, `message`, `data`, each equal to its argument |
| `Utils.EnvelopeRoundTrip` | utils.js:16-23 | an envelope reads back as the four arguments it was built from, and only that envelope reads back as them |
| `Utils.TokenResult` | utils.js:52-61 | `getAccessToken` fails exactly on a transport error or a truthy `errcode`; the payload itself, unchanged, is thrown; with any falsy `errcode` it returns exactly `access_token` |
| `Utils.CheckSessionResult` | utils.js:87-91 | `checkSessionKey` fails exactly on a transport error or a truthy `errcode`, and passes the payload on unchanged whether it throws it or returns it |
| `LbsPath.IndexOf` | server.js:56 | the search behind `replace` finds the first occurrence of the pattern, or reports that there is none |
| `LbsPath.RemoveFirst` | server2.js:54 | `replace(pat, '')` removes the first occurrence only: putting the pattern back where it was removed restores the path; without an occurrence the path is unchanged |
| `LbsPath.UpstreamUrlOfRoutedPath` | routes/v2.js:45-46 | for an inbound path `/api/lbs` + rest, the upstream URL is `https://apis.map.qq.com` + rest |
| `LbsPath.UpstreamUrlWithoutPrefix` | server.js:56-57 | a path that does not contain `/api/lbs` is appended to the base unchanged |
| `TestApp.LenientCheckResult` | test.js:30-44 | this `checkSessionKey` fails only on a transport error and otherwise returns the payload as it is |
| `TestApp.LenientCheckKeepsErrorPayload` | test.js:42-43 | a payload with a truthy `errcode`, which the shared `checkSessionKey` throws, is returned here as a result |
| `TestApp.Login` | test.js:47-77 | one code-exchange call; success gives 200 `{0, true, msg, payload}`; a truthy `errcode` gives 400 with `code = errcode`, `message = errmsg` or the fixed text, and the payload as `data`; a transport error gives 400 with `code -1` |
| `TestApp.LoginCodeZeroIffSuccess` | test.js:63-75 | every /login reply is an envelope whose `code` is 0 exactly when it reports success, which is exactly when the status is 200 |
| `TestApp.Verify` | test.js:80-109 | missing or empty `openid`/`session_key` gives 400 `{400, false, 缺少openid或session_key参数}` with no `data` field and no upstream call; otherwise the token call, then the check call built from that token; 200 exactly when the check call was answered; every other reply is 400 with `code = err.errcode || -1` and `data = err`, where a token payload WeChat rejected is itself `err` (its `errcode` and `errmsg` are relayed) and a transport error of either call gives `(-1, false, 验证失败, the client error)` |
| `TestApp.VerifyAcceptsRejectedSession` | test.js:93-100 | a check payload with a truthy `errcode` still gives 200 and `success: true`, with that payload as `data` |
| `TestApp.VerifyChecked` | test.js:92-107 | with the throwing check, a 200 reply happens exactly when the check payload has a falsy `errcode`: an accepted session gets 200 with `(0, true, msg, payload)`, and a rejected session is answered 400 with WeChat's own `errcode` |
| `SessionGated.VerifyWechatLogin` | server.js:15-36 | the login check returns the payload exactly when the call was answered with a falsy `errcode`; every failure, WeChat or transport, becomes the same generic error |
| `SessionGated.ExpectedParams` | server.js:59-67 | the forwarded parameters field by field: `key` is the configured key whatever the client sent, `session_code` is absent, and any other name has the body's value if the body has one, else the query's |
| `SessionGated.ForwardParams` | server.js:60-67 | spreading query, body and key, then deleting `session_code` in place, yields exactly `ExpectedParams` |
| `SessionGated.ForwardRequest` | server.js:72-82 | the forwarding call keeps the method, targets the upstream URL, sends the two fixed headers and a 10 s timeout, and carries the parameters as the query for GET, as the body for POST, and nowhere for any other method |
| `SessionGated.ErrorReply` | server.js:87-110 | an upstream response takes precedence: its status is relayed with exactly `error` (the fixed upstream-error text), `details` (its body) and `code: TENCENT_API_ERROR`; else `ECONNABORTED` gives 408 with exactly `error` (the fixed timeout text) and `code: REQUEST_TIMEOUT`; else 500 with exactly `error` (the fixed internal-error text), `details` (the error's message) and `code: INTERNAL_ERROR` |
| `SessionGated.HandleLbs` | server.js:39-112 | missing `session_code` gives 400 with exactly `error` (the fixed text) and `code: MISSING_SESSION_CODE`, with no upstream call; a failed login check gives 500 `INTERNAL_ERROR` whose `details` is the fixed `微信登录校验失败`, whatever WeChat or the transport said, and nothing is forwarded; otherwise one forwarding call that never carries `session_code` and carries the configured `key` for GET and POST; its body is answered 200, and its failure is mapped by `ErrorReply` |
| `OpenGateway.GlobalErrorReply` | server2.js:119-122 | an escaped error gives 500 with envelope `(-1, false, err.message or the fixed text, err)`; the message is never empty |
| `OpenGateway.Login` | server2.js:23-38 | one code-exchange call; a truthy `errcode` gives 400 with envelope `(errcode, false, msg, payload)`; otherwise 200 with `(0, true, msg, payload)`; a transport error goes to the global handler |
| `OpenGateway.LoginReplyCarriesPayload` | routes/v2.js:23-28 | whenever the code exchange is answered, the reply's `data` is the payload unchanged, and `code` is 0 exactly on success, which is exactly a 200 |
| `OpenGateway.Verify` | server2.js:41-49 | missing or empty parameters give 400 with envelope `(400, false, msg, null)` and no token or check call; otherwise the token call, then the check call with that token; success gives `(0, true, msg, payload)` with the check payload unchanged; any failure goes to the global handler |
| `OpenGateway.VerifySuccessMeansCheckPassed` | routes/v2.js:37-39 | a 200 reply means both parameters were present, the token call succeeded, the check call carried that token, the openid and the signature of the session key, and WeChat's check payload, the reply's `data`, had a falsy `errcode` |
| `OpenGateway.ForwardQuery` | server2.js:61 | the forwarded query is the client's query with `key` set to the configured key; no other parameter is added, dropped or changed |
| `OpenGateway.ForwardHeaders` | server2.js:60 | every inbound header is copied, and `host` is `apis.map.qq.com` |
| `OpenGateway.Forward` | server2.js:52-75 | exactly one forwarding call with the body unchanged; a resolved answer is relayed with its status, headers and body; a rejected answer with its status and body; no answer gives 500 `{error}` |
| `OpenGateway.ForwardRelaysUpstream` | routes/v2.js:56-64 | whenever the upstream answered, with any status, the reply has that status and body; only an unanswered request gives 500, and a 408 reply only comes from an upstream 408 |
| `OpenGateway.OpenForwardKeepsSessionCode` | routes/v2.js:52 | the open forwarder passes a client `session_code` through, while the client's `key` is still replaced |

## Left out

- Network I/O, DNS and timers: every upstream call is an input `Outcome`. The HTTP client's own defaults are not modelled: its added headers, its URL encoding of parameters, and its rule that only 2xx statuses resolve.
- HMAC-SHA256 and hex encoding (Node's `crypto`): the signer is a function parameter.
- Express plumbing: CORS, the body parsers, route matching, `app.listen` and console logging. The handler receives the method, path, query, headers and parsed body.
- `asyncHandler` (utils.js:36-38): an error escaping a handler goes straight to the global handler.
- `main.js` (route mounting, version literals, the 404 handler), `/health` (a wall-clock timestamp), and `/test` and `/test-key` (fixed single upstream calls). The 404 and unhandled-error middleware of `server.js` are also left out: the forwarding handler catches every error itself.
- JSON serialisation: a reply body is the value handed to `res.json` or `res.send`. How an `Error` instance serialises, and the difference between `send` and `json` for strings, are not modelled.
- The order of object properties and of query-string parameters: maps are unordered.
- Query values are strings. The arrays and nested objects that the extended query parser builds from repeated or bracketed keys are not modelled. Neither are array values and array bodies.
- Reading a property of a `null` or `undefined` payload throws a `TypeError` in JavaScript. `JsValue.Prop` gives `undefined` instead; WeChat answers with JSON objects.
- The `response` of a thrown value is read only from HTTP-client errors. The handlers' catch blocks receive no other thrown objects.
- Unset environment variables: the configuration holds strings.
- Numbers are integers (`JsValue.Num(n: int)`): the fractional numbers of JSON, such as the coordinates in map-service answers, are not modelled. No property stated here depends on a number's value beyond `errcode`, status codes and the envelope's integer codes.

## Findings

| source | as written | input that shows it | evidently intended | confidence | as-written member | corrected member |
|---|---|---|---|---|---|---|
| test.js:42-43 | the test server's `checkSessionKey` returns the check payload without looking at `errcode`, so `/verify` answers 200 with `success: true` for a session that WeChat rejected | `GET /verify?openid=o&session_key=k`, token call answered `{access_token: "t"}`, session check answered `{errcode: 87009, errmsg: "invalid signature"}` | a truthy `errcode` fails the check, as in utils.js:88-90, and the reply is 400 with `code = errcode` | high; not executed | `TestApp.VerifyAcceptsRejectedSession` | `TestApp.VerifyChecked` |
