/** The JavaScript values a caller can hand to the optional drawing arguments,
    and the two pieces of JavaScript semantics the drawing routines rely on:
    truthiness and the `||` operator that supplies a default. */
module JsValues {

  /** A JavaScript value as far as truthiness can tell them apart.
      Numbers are reals; `NaN` is kept as its own case because it is falsy.
      Objects and functions are `Obj`, identified by an opaque number. */
  datatype JsValue =
    | Undefined
    | Null
    | Bool(b: bool)
    | Num(n: real)
    | NaN
    | Str(s: string)
    | Obj(id: nat)

  /** JavaScript's ToBoolean: `undefined`, `null`, `false`, `0`, `NaN` and
      the empty string are falsy, everything else is truthy. */
  predicate Truthy(v: JsValue) {
    match v
    case Undefined => false
    case Null => false
    case Bool(b) => b
    case Num(n) => n != 0.0
    case NaN => false
    case Str(s) => s != ""
    case Obj(_) => true
  }

  /** The value of the JavaScript expression `a || b`: the left operand when it
      is truthy, otherwise the right one. It is one of its operands, and it is
      truthy exactly when at least one operand is. */
  function Or(a: JsValue, b: JsValue): (r: JsValue)
    ensures r == a || r == b
    ensures Truthy(r) <==> Truthy(a) || Truthy(b)
    ensures Truthy(a) ==> r == a
    ensures !Truthy(a) ==> r == b
  {
    if Truthy(a) then a else b
  }

  /** With a truthy default, `a || d` never yields a falsy value, and it
      keeps `a` exactly when `a` is truthy. */
  lemma OrWithTruthyDefault(a: JsValue, d: JsValue)
    requires Truthy(d)
    ensures Truthy(Or(a, d))
    ensures Or(a, d) == a <==> Truthy(a) || a == d
  {
  }
}
