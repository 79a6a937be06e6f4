/** JavaScript values as the two hooks and the message handler see them. */
module Js {

  /** A JavaScript value. Objects (arrays, functions, boxed strings) are opaque references. */
  datatype JsValue =
    | Undefined
    | Null
    | Bool(b: bool)
    | Number(n: real)
    | NaN
    | Str(s: string)
    | Object(ref: nat)

  /** JavaScript truthiness: `false`, `0`, `NaN`, `""`, `null` and `undefined` are falsy. */
  predicate Truthy(v: JsValue)
    ensures Truthy(v) <==> v !in {Undefined, Null, Bool(false), Number(0.0), NaN, Str("")}
  {
    match v
    case Undefined => false
    case Null => false
    case Bool(b) => b
    case Number(n) => n != 0.0
    case NaN => false
    case Str(s) => s != ""
    case Object(_) => true
  }

  /** The `a || b` operator: `a` when it is truthy, otherwise `b`. */
  function Or(a: JsValue, b: JsValue): (r: JsValue)
    ensures Truthy(a) ==> r == a
    ensures !Truthy(a) ==> r == b
    ensures Truthy(r) <==> Truthy(a) || Truthy(b)
  {
    if Truthy(a) then a else b
  }

  /** A plain object: its own properties. */
  type Record = map<string, JsValue>

  /** Property access `o.name`: `undefined` when the property is absent. */
  function Get(o: Record, name: string): JsValue
  {
    if name in o then o[name] else Undefined
  }
}
