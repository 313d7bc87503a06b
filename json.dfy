/**
 * Parsed JSON bodies and the few JavaScript operations the script applies to
 * them: reading a property, testing it for truthiness (`x || y`, `x ? y : z`)
 * and converting it to text inside a template literal (`${x}`).
 */
module Json {
  import opened JsText

  /** A value `response.json()` can produce. Numbers are limited to integers. */
  datatype Json =
    | JNull
    | JBool(b: bool)
    | JNum(n: int)
    | JStr(s: string)
    | JArr(items: seq<Json>)
    | JObj(fields: map<string, Json>)

  /** A JavaScript value as a property read yields it: a JSON value, or `undefined`. */
  datatype JsValue = Undefined | Val(json: Json)

  /** A plain object built by the script, such as a form payload: keys to JavaScript values. */
  type JsObject = map<string, JsValue>

  /** A JSON object whose only key is `message`, as the script builds for placeholders and errors. */
  function MessageObject(text: string): Json {
    JObj(map["message" := JStr(text)])
  }

  /**
   * `v.key` for a value that is not `null` (reading a property of `null` throws,
   * and callers treat that case first). Only objects have the keys the script
   * reads (`error`, `detail`, `message`, `id`, `deleted`): on strings, numbers,
   * booleans and arrays these are `undefined`.
   */
  function Prop(v: Json, key: string): (r: JsValue)
    requires v != JNull
    ensures r.Val? <==> v.JObj? && key in v.fields
    ensures r.Val? ==> r.json == v.fields[key]
  {
    match v
    case JObj(fields) => if key in fields then Val(fields[key]) else Undefined
    case _ => Undefined
  }

  /** The five falsy values a property read can yield, listed as in ECMAScript's ToBoolean table. */
  const FALSY_VALUES: set<JsValue> := {Undefined, Val(JNull), Val(JBool(false)), Val(JNum(0)), Val(JStr(""))}

  /** JavaScript truthiness: `undefined`, `null`, `false`, `0` and `""` are falsy, everything else truthy. */
  predicate Truthy(v: JsValue)
    ensures Truthy(v) <==> v !in FALSY_VALUES
  {
    match v
    case Undefined => false
    case Val(JNull) => false
    case Val(JBool(b)) => b
    case Val(JNum(n)) => n != 0
    case Val(JStr(s)) => s != ""
    case Val(JArr(_)) => true
    case Val(JObj(_)) => true
  }

  /**
   * The text `String(v)` gives a JSON value, which is what `${v}` inserts: an
   * array is its elements' texts joined with commas (`null` elements as empty
   * text) and any object is `[object Object]`.
   */
  function Text(v: Json): (r: string)
    ensures v.JStr? ==> r == v.s
    ensures v.JNum? ==> r == IntToString(v.n)
    ensures v.JArr? && v.items == [] ==> r == ""
    ensures v.JObj? ==> r == "[object Object]"
  {
    match v
    case JNull => "null"
    case JBool(b) => if b then "true" else "false"
    case JNum(n) => IntToString(n)
    case JStr(s) => s
    case JArr(items) =>
      Join(seq(|items|, i requires 0 <= i < |items| => if items[i] == JNull then "" else Text(items[i])), ",")
    case JObj(_) => "[object Object]"
  }

  /** `${v}` for a value that may be `undefined`. */
  function Interpolate(v: JsValue): (r: string)
    ensures v == Undefined ==> r == "undefined"
    ensures v.Val? && v.json.JStr? ==> r == v.json.s
  {
    match v
    case Undefined => "undefined"
    case Val(j) => Text(j)
  }
}
