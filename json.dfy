/**
 * JSON documents as `JSON.parse` hands them to JavaScript code, and the
 * JavaScript property access `value[key]` on such a document.
 * Parsing itself is not modelled: callers receive `JSON.parse` as a function
 * from strings to `Parsed`.
 */
module Json {
  import opened Wrappers

  /** A parsed JSON value. Numbers are integers in this model. */
  datatype Json =
    | JNull
    | JBool(b: bool)
    | JNumber(n: int)
    | JString(s: string)
    | JArray(items: seq<Json>)
    | JObject(members: map<string, Json>)

  /** The outcome of `JSON.parse`: it either throws a SyntaxError or returns a value. */
  datatype Parsed = SyntaxError | Value(value: Json)

  /** A JavaScript value read out of a parsed document: `undefined` when the
      property does not exist. */
  datatype JsValue = Undefined | Defined(json: Json)

  /** The outcome of evaluating `value[key]`: reading a property of `null`
      throws a TypeError. */
  datatype Access = TypeError | Read(result: JsValue)

  /** `value[key]` for a key that names no built-in property of the String,
      Number, Boolean, Array or Object prototypes and is not an array index
      (such as the two keys the stats reader uses): reading from `null`
      throws, an object yields its member or `undefined`, and every other
      value has no such property. */
  function Property(value: Json, key: string): (r: Access)
    ensures r.TypeError? <==> value.JNull?
    ensures value.JObject? && key in value.members ==> r == Read(Defined(value.members[key]))
    ensures r.Read? && r.result.Defined? ==> value.JObject? && key in value.members
  {
    match value
    case JNull => TypeError
    case JObject(members) => Read(if key in members then Defined(members[key]) else Undefined)
    case _ => Read(Undefined)
  }

  /** JavaScript's ToNumber on a value read from a parsed document, with
      `None` standing for NaN: `null` is 0, booleans are 0 or 1, numbers are
      themselves, and `undefined`, strings, arrays and objects are taken to be
      NaN. */
  function ToNumber(v: JsValue): Option<int> {
    match v
    case Defined(JNumber(n)) => Some(n)
    case Defined(JNull) => Some(0)
    case Defined(JBool(b)) => Some(if b then 1 else 0)
    case _ => None
  }

  /** JavaScript's `v > bound` for a value read from a parsed document and a
      number. Both sides are converted to numbers and a comparison with NaN
      is false; against a bound of at least 1 only a number larger than the
      bound compares greater. */
  function GreaterThan(v: JsValue, bound: int): (gt: bool)
    ensures gt <==> ToNumber(v).Some? && ToNumber(v).value > bound
    ensures v.Undefined? ==> !gt
    ensures bound >= 1 ==> (gt <==> v.Defined? && v.json.JNumber? && v.json.n > bound)
  {
    match v
    case Undefined => false
    case Defined(JNumber(n)) => n > bound
    case Defined(JNull) => 0 > bound
    case Defined(JBool(b)) => (if b then 1 else 0) > bound
    case Defined(_) => false
  }
}
