/** The slice of JavaScript's value semantics the application relies on:
    JSON-shaped values, truthiness, `typeof`, property and index access
    (with the TypeError thrown on null and undefined), the string a value
    turns into inside a template literal, and the shapes of HTTP exchanges. */
module JsValues {
  import opened Base

  /** A JavaScript value as it comes out of `JSON.parse`, plus `undefined`.
      Numbers are integers in this model. */
  datatype JsValue =
    | Undefined
    | Null
    | Bool(b: bool)
    | Num(n: int)
    | Str(s: string)
    | Arr(elems: seq<JsValue>)
    | Obj(props: map<string, JsValue>)

  predicate IsNullish(v: JsValue) {
    v == Undefined || v == Null
  }

  /** `Boolean(v)`: false exactly for undefined, null, false, 0 and ''. */
  predicate Truthy(v: JsValue) {
    match v
    case Undefined => false
    case Null => false
    case Bool(b) => b
    case Num(n) => n != 0
    case Str(s) => s != ""
    case Arr(_) => true
    case Obj(_) => true
  }

  /** `typeof v`. */
  function TypeOf(v: JsValue): (t: string)
    ensures t == "object" <==> v.Null? || v.Arr? || v.Obj?
  {
    match v
    case Undefined => "undefined"
    case Null => "object"
    case Bool(_) => "boolean"
    case Num(_) => "number"
    case Str(_) => "string"
    case Arr(_) => "object"
    case Obj(_) => "object"
  }

  /** The message V8 gives the TypeError for reading a property of null or undefined. */
  function ReadNullishMessage(v: JsValue, key: string): string
    requires IsNullish(v)
  {
    "Cannot read properties of " + (if v.Null? then "null" else "undefined") + " (reading '" + key + "')"
  }

  /** `v[key]` for a named property; only plain objects carry the named
      properties this application reads. */
  function Get(v: JsValue, key: string): (r: Result<JsValue, string>)
    ensures r.Err? <==> IsNullish(v)
    ensures v.Obj? ==> r == Ok(if key in v.props then v.props[key] else Undefined)
  {
    match v
    case Undefined => Err(ReadNullishMessage(v, key))
    case Null => Err(ReadNullishMessage(v, key))
    case Obj(m) => Ok(if key in m then m[key] else Undefined)
    case _ => Ok(Undefined)
  }

  /** `v[key]` on a value already known not to be null or undefined. */
  function Prop(v: JsValue, key: string): JsValue
    requires !IsNullish(v)
  {
    Get(v, key).value
  }

  /** `v[i]` for an index: array elements, string characters, or the object
      property named by the index's decimal form. */
  function At(v: JsValue, i: nat): (r: Result<JsValue, string>)
    ensures r.Err? <==> IsNullish(v)
    ensures v.Arr? ==> r == Ok(if i < |v.elems| then v.elems[i] else Undefined)
  {
    match v
    case Undefined => Err(ReadNullishMessage(v, IntToDecimal(i)))
    case Null => Err(ReadNullishMessage(v, IntToDecimal(i)))
    case Arr(xs) => Ok(if i < |xs| then xs[i] else Undefined)
    case Str(s) => Ok(if i < |s| then Str([s[i]]) else Undefined)
    case Obj(m) => var k := IntToDecimal(i); Ok(if k in m then m[k] else Undefined)
    case _ => Ok(Undefined)
  }

  /** `String(v)`, which is also what `${v}` inserts into a template literal. */
  function ToDisplayString(v: JsValue): string
    decreases v, 1
  {
    match v
    case Undefined => "undefined"
    case Null => "null"
    case Bool(b) => if b then "true" else "false"
    case Num(n) => IntToDecimal(n)
    case Str(s) => s
    case Arr(xs) => JoinElements(xs)
    case Obj(_) => "[object Object]"
  }

  /** `Array.prototype.join(',')`: null and undefined elements print as ''. */
  function JoinElements(xs: seq<JsValue>): string
    decreases xs, 0
  {
    if |xs| == 0 then ""
    else
      var head := if IsNullish(xs[0]) then "" else ToDisplayString(xs[0]);
      if |xs| == 1 then head else head + "," + JoinElements(xs[1..])
  }

  /** `${v || fallback}`: the value's text when it is truthy, the fallback otherwise. */
  function OrDefault(v: JsValue, fallback: string): (s: string)
    ensures !Truthy(v) ==> s == fallback
    ensures v.Str? && v.s != "" ==> s == v.s
  {
    if Truthy(v) then ToDisplayString(v) else fallback
  }

  /** What an element's `textContent` shows after being assigned `v`. */
  function TextContent(v: JsValue): string {
    if IsNullish(v) then "" else ToDisplayString(v)
  }

  /** An object literal with the given properties. */
  function Object1(k: string, v: JsValue): JsValue {
    Obj(map[k := v])
  }

  function Object2(k1: string, v1: JsValue, k2: string, v2: JsValue): JsValue {
    Obj(map[k1 := v1, k2 := v2])
  }

  // ---------------------------------------------------------------------
  // HTTP as seen by the code: what `fetch` produced, and what a handler sent
  // ---------------------------------------------------------------------

  /** `response.ok`. */
  predicate IsOkStatus(status: int) {
    200 <= status <= 299
  }

  /** The outcome of one `fetch` followed by `response.json()`: either the
      server answered (with a body that parsed or a parse error message) or
      the request itself failed. */
  datatype FetchOutcome =
    | Responded(status: int, body: Result<JsValue, string>)
    | NetworkError(message: string)

  /** An incoming request to a serverless handler: its HTTP method and parsed body. */
  datatype ProxyRequest = ProxyRequest(verb: string, body: JsValue)

  /** What a handler writes back: a JSON body or a plain-text body. */
  datatype Payload = Json(value: JsValue) | Text(text: string)

  datatype HttpResponse = HttpResponse(status: int, headers: map<string, string>, payload: Payload)

  /** An outgoing request made with `fetch`. */
  datatype OutgoingRequest = OutgoingRequest(url: string, verb: string, headers: map<string, string>, body: JsValue)

  const JSON_HEADERS: map<string, string> := map["Content-Type" := "application/json"]

  /** `res.status(status).json(body)`. */
  function JsonResponse(status: int, body: JsValue): HttpResponse {
    HttpResponse(status, JSON_HEADERS, Json(body))
  }

  /** The `{error: message}` bodies every handler answers failures with. */
  function ErrorBody(message: string): JsValue {
    Object1("error", Str(message))
  }

  /** What the generative-AI library's `generateContent(prompt)` followed by
      `response.text()` produced: a text (possibly empty), or a thrown error,
      with a message or without one. */
  datatype Generation = Generated(text: string) | GenerationFailed(message: Option<string>)
}
