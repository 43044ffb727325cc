/**
 * The shared helpers: the four-field response envelope, and the result
 * interpretation of the access-token and session-check calls.
 */
module Utils {
  import opened JsValue
  import opened Http
  import opened Wechat

  /** `response(code, success, message, data)`: a record with exactly the
      four fields, each holding its argument. */
  function Response(code: Value, success: Value, message: Value, data: Value): (r: Value)
    ensures r.Obj? && r.fields.Keys == {"code", "success", "message", "data"}
    ensures Prop(r, "code") == code && Prop(r, "success") == success
    ensures Prop(r, "message") == message && Prop(r, "data") == data
  {
    Obj(map["code" := code, "success" := success, "message" := message, "data" := data])
  }

  /** The four fields of an envelope. */
  datatype Envelope = Envelope(code: Value, success: Value, message: Value, data: Value)

  /** Reads a reply body back as an envelope: a plain object with exactly
      the four fields. */
  function AsEnvelope(v: Value): Option<Envelope> {
    if v.Obj? && v.fields.Keys == {"code", "success", "message", "data"} then
      Some(Envelope(v.fields["code"], v.fields["success"], v.fields["message"], v.fields["data"]))
    else None
  }

  /** The envelope is read back as built, and it is the only value that
      reads back as those four fields. */
  lemma EnvelopeRoundTrip(v: Value, code: Value, success: Value, message: Value, data: Value)
    ensures AsEnvelope(Response(code, success, message, data)) == Some(Envelope(code, success, message, data))
    ensures AsEnvelope(v) == Some(Envelope(code, success, message, data)) ==> v == Response(code, success, message, data)
  {
  }

  /** `getAccessToken`'s result, given how its call settled: a transport
      error propagates, a payload with a truthy `errcode` is thrown itself,
      unchanged, and for any falsy `errcode` the payload's `access_token`
      is returned. */
  function TokenResult(o: Outcome): (r: Result<Value, Value>)
    ensures r.Failure? <==> o.Rejected? || IsError(o.response.body)
    ensures o.Rejected? ==> r.error == Error(RequestError(o.failure))
    ensures o.Resolved? && r.Failure? ==> r.error == o.response.body
    ensures o.Resolved? && !IsError(o.response.body) ==> r == Success(Prop(o.response.body, "access_token"))
  {
    match Await(o)
    case Failure(e) => Failure(e)
    case Success(resp) =>
      if IsError(resp.body) then Failure(resp.body) else Success(Prop(resp.body, "access_token"))
  }

  /** `checkSessionKey`'s result, given how its call settled: a transport
      error propagates, a payload with a truthy `errcode` is thrown
      unchanged, and any other payload is returned unchanged. */
  function CheckSessionResult(o: Outcome): (r: Result<Value, Value>)
    ensures r.Failure? <==> o.Rejected? || IsError(o.response.body)
    ensures o.Rejected? ==> r.error == Error(RequestError(o.failure))
    ensures o.Resolved? ==> (if r.Success? then r.value else r.error) == o.response.body
  {
    match Await(o)
    case Failure(e) => Failure(e)
    case Success(resp) => if IsError(resp.body) then Failure(resp.body) else Success(resp.body)
  }
}
