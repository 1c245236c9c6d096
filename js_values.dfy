/** The few JavaScript values the action inspects, and JavaScript's notion of
    truthiness, which decides every early return of the action. */
module JsValues {

  /** A JavaScript value as produced by the event payload or by the YAML
      loader. Numbers are mathematical reals; `NaN` is kept apart because it
      is the one non-zero-looking number that is falsy. */
  datatype JsValue =
    | Undefined
    | Null
    | Bool(b: bool)
    | Number(n: real)
    | NaN
    | Str(s: string)
    | Array(elements: seq<JsValue>)
    | Object(properties: map<string, JsValue>)

  /** ToBoolean of section 7.1.2 of ECMA-262: what `if (x)` and `!x` test.
      Every array and every object is truthy, the empty ones included. */
  predicate Truthy(v: JsValue) {
    match v
    case Undefined => false
    case Null => false
    case Bool(b) => b
    case Number(n) => n != 0.0
    case NaN => false
    case Str(s) => s != ""
    case Array(_) => true
    case Object(_) => true
  }

  /** The property read `v[key]` on a value that is neither `undefined` nor
      `null` (reading from those throws): an own property of an object, or
      `undefined`. */
  function Get(v: JsValue, key: string): (r: JsValue)
    requires v != Undefined && v != Null
    ensures v.Object? && key in v.properties ==> r == v.properties[key]
    ensures r != Undefined ==> v.Object? && key in v.properties
  {
    if v.Object? && key in v.properties then v.properties[key] else Undefined
  }
}
