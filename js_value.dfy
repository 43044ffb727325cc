/**
 * The JavaScript values the handlers read and build: decoded JSON bodies,
 * parsed query strings, the errors the HTTP client raises, and the three
 * pieces of JavaScript semantics the handlers lean on: property reads,
 * truthiness and `||`.
 */
module JsValue {

  datatype Option<+T> = None | Some(value: T)

  /** What an `await` produces: a value, or whatever was thrown. */
  datatype Result<+T, +E> = Success(value: T) | Failure(error: E)

  /** A JavaScript value. `Obj` is a plain object (a decoded JSON object, a
      parsed query or body, an object literal); `Error` is an `Error` instance. */
  datatype Value =
    | Undefined
    | Null
    | Bool(b: bool)
    | Num(n: int)
    | Str(s: string)
    | Obj(fields: map<string, Value>)
    | Error(error: ErrorObject)

  datatype ErrorObject =
    | RequestError(failure: RequestFailure)  // raised by the HTTP client
    | PlainError(message: string)            // `new Error(message)`

  /** What the HTTP client attaches to the error it raises: its `code`
      ("ECONNABORTED" when the request's own timeout elapsed), its `message`,
      and the upstream `response` when the upstream did answer, with a status
      the client rejects. */
  datatype RequestFailure = RequestFailure(code: string, message: string, response: Option<HttpResponse>)

  /** An upstream HTTP response: status, headers and the decoded body. */
  datatype HttpResponse = HttpResponse(status: int, headers: map<string, string>, body: Value)

  /** A plain object's own properties. */
  type Dict = map<string, Value>

  /** The property read `v.name`. The `response` of a request error is read
      through its typed field instead. */
  function Prop(v: Value, name: string): Value {
    match v
    case Obj(fields) => if name in fields then fields[name] else Undefined
    case Error(RequestError(f)) =>
      if name == "code" then Str(f.code)
      else if name == "message" then Str(f.message)
      else Undefined
    case Error(PlainError(m)) => if name == "message" then Str(m) else Undefined
    case _ => Undefined
  }

  /** JavaScript truthiness: `undefined`, `null`, `false`, `0` and `""` are falsy. */
  predicate Truthy(v: Value) {
    match v
    case Undefined => false
    case Null => false
    case Bool(b) => b
    case Num(n) => n != 0
    case Str(s) => s != ""
    case _ => true
  }

  /** `a || b`: the left operand when it is truthy, the right one otherwise. */
  function Or(a: Value, b: Value): Value {
    if Truthy(a) then a else b
  }

  /** The properties that `{...v}` copies: a plain object's own fields, and
      nothing for `undefined`, `null` and the other values a body parser
      never produces. */
  function Own(v: Value): Dict {
    if v.Obj? then v.fields else map[]
  }

  /** A parsed query string seen as an object whose values are strings. */
  function FromQuery(query: map<string, string>): Dict {
    map name | name in query :: Str(query[name])
  }

  /** `req.query.name`: the string, or `undefined` when the parameter is absent. */
  function QueryParam(query: map<string, string>, name: string): (v: Value)
    ensures Truthy(v) <==> name in query && query[name] != ""
  {
    if name in query then Str(query[name]) else Undefined
  }
}
