/** The JavaScript values that flow through the functions file, and `Boolean(v)`. */
module Js {

  /** A JavaScript value as read from a request body or a stored document.
      Numbers are reals (NaN is not modelled); objects other than arrays are not needed. */
  datatype Value =
    | Undefined
    | Null
    | Bool(b: bool)
    | Num(n: real)
    | Str(s: string)
    | Array(items: seq<Value>)

  /** `Boolean(v)`: the values that `filter(Boolean)` keeps. */
  predicate Truthy(v: Value)
  {
    match v
    case Undefined => false
    case Null => false
    case Bool(b) => b
    case Num(n) => n != 0.0
    case Str(s) => s != ""
    case Array(_) => true
  }
}
