/** JavaScript values as the two handlers see them: request bodies and vendor
    replies are parsed JSON, and a property that is not there reads as
    `undefined`.  Also the few runtime TypeErrors the handlers can raise on
    such values, and the HTTP shapes shared by both handlers. */
module JsValues {

  datatype Option<T> = None | Some(value: T)

  /** A JSON value, plus `undefined` for an absent property.  Numbers are
      integers here (see README, "Left out"). */
  datatype Value =
    | Undefined
    | Null
    | Bool(b: bool)
    | Num(n: int)
    | Str(s: string)
    | Arr(items: seq<Value>)
    | Obj(fields: map<string, Value>)

  /** JavaScript truthiness: `!v` is true exactly when `Truthy(v)` is false. */
  predicate Truthy(v: Value) {
    match v
    case Undefined => false
    case Null => false
    case Bool(b) => b
    case Num(n) => n != 0
    case Str(s) => s != ""
    case Arr(_) => true
    case Obj(_) => true
  }

  predicate Nullish(v: Value) {
    v.Undefined? || v.Null?
  }

  /** `a || b` */
  function Or(a: Value, b: Value): Value {
    if Truthy(a) then a else b
  }

  /** `v.key` on a value that is not null or undefined.  Only own keys of
      objects are looked at: none of the keys the handlers read is a property
      of a primitive, an array or `Object.prototype`. */
  function Prop(v: Value, key: string): Value {
    match v
    case Obj(m) => if key in m then m[key] else Undefined
    case _ => Undefined
  }

  /** The TypeErrors the modelled code can raise. */
  datatype Fault =
    | ReadOfNullish(receiver: Value, key: string)   // `v.key` with v null or undefined
    | NotAFunction(callee: string)                  // `x.f()` where x has no method f

  /** The `message` of the error, in the wording of the V8 engine. */
  function Message(f: Fault): (m: string)
    ensures m != ""
  {
    match f
    case ReadOfNullish(v, key) =>
      "Cannot read properties of " + (if v.Null? then "null" else "undefined") + " (reading '" + key + "')"
    case NotAFunction(callee) => callee + " is not a function"
  }

  /** A computation that either yields a value or throws a TypeError. */
  datatype Result<T> = Ok(value: T) | Throw(fault: Fault)

  /** `v.key`, throwing when `v` is null or undefined. */
  function Get(v: Value, key: string): (r: Result<Value>)
    ensures Nullish(v) <==> r.Throw?
    ensures r.Throw? ==> r.fault == ReadOfNullish(v, key)
    ensures r.Ok? ==> r.value == Prop(v, key)
  {
    if Nullish(v) then Throw(ReadOfNullish(v, key)) else Ok(Prop(v, key))
  }

  /** `v?.key` */
  function OptionalProp(v: Value, key: string): Value {
    if Nullish(v) then Undefined else Prop(v, key)
  }

  /** `{ error: msg }`, the error body both handlers use. */
  function ErrorBody(msg: string): Value {
    Obj(map["error" := Str(msg)])
  }
}

/** What the serverless framework gives a handler and what it sends back. */
module Http {
  import opened JsValues

  /** `res.status(code).end()` has no body; `res.status(code).json(v)` has `v`. */
  datatype Response = Response(status: int, body: Option<Value>)

  /** The environment the handlers read: the vendor API key and the public
      base URL used for the redirect and cancel links. */
  datatype Env = Env(apiKey: Option<string>, baseUrl: Option<string>)

  /** `!process.env.KEY` is false: set and not the empty string. */
  predicate HasApiKey(env: Env) {
    env.apiKey.Some? && env.apiKey.value != ""
  }

  /** What the vendor answered: its HTTP status and its parsed JSON body. */
  datatype VendorReply = VendorReply(status: int, data: Value)

  /** `response.ok` of the fetch API: a 2xx status. */
  predicate ReplyOk(reply: VendorReply) {
    200 <= reply.status <= 299
  }

  /** `${x}` for a value read from `process.env`. */
  function EnvText(x: Option<string>): string {
    match x
    case Some(s) => s
    case None => "undefined"
  }
}
