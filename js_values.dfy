/**
 The few JavaScript value semantics the template registry relies on: which
 configuration values are falsy (so that `x || y` falls back to `y`), and how a
 value is turned into text inside a template literal such as `${a}-${b}`.
 */
module JsValues {

  /** A configuration value as the registry sees it. Configuration fields are
      strings or booleans, absent fields are `undefined`, and the caller's extra
      parameters are an array of strings. */
  datatype Value =
    | Undefined
    | Str(s: string)
    | Bool(b: bool)
    | Strings(items: seq<string>)

  /** JavaScript truthiness: `undefined`, `""` and `false` are falsy; every
      other value here, including an empty array, is truthy. */
  predicate Truthy(v: Value) {
    match v
    case Undefined => false
    case Str(s) => s != ""
    case Bool(b) => b
    case Strings(_) => true
  }

  /** JavaScript `x || y`: the left operand when it is truthy, else the right. */
  function Or(x: Value, y: Value): (r: Value)
    ensures Truthy(x) ==> r == x
    ensures !Truthy(x) ==> r == y
    ensures Truthy(r) <==> Truthy(x) || Truthy(y)
  {
    if Truthy(x) then x else y
  }

  /** Elements of an array converted to text, separated by commas, as
      `Array.prototype.toString` does. */
  function JoinWithCommas(items: seq<string>): string
  {
    if |items| == 0 then ""
    else if |items| == 1 then items[0]
    else items[0] + "," + JoinWithCommas(items[1..])
  }

  /** The text a value contributes to a template literal (`String(v)`). */
  function ToJsString(v: Value): (r: string)
    ensures v.Str? ==> r == v.s
    ensures v.Undefined? ==> r == "undefined"
  {
    match v
    case Undefined => "undefined"
    case Str(s) => s
    case Bool(b) => if b then "true" else "false"
    case Strings(items) => JoinWithCommas(items)
  }
}
