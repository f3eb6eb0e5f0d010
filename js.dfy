/** The few JavaScript value semantics the modelled code relies on:
    truthiness, `||`, property lookup on plain objects, loose equality. */
module Js {

  /** A primitive JavaScript value. Numbers are modelled as integers. */
  datatype Value = Undefined | Null | Bool(b: bool) | Num(n: int) | Str(s: string)

  /** A plain object: its own enumerable properties. */
  type Obj = map<string, Value>

  /** `o[key]`: a missing property reads as `undefined`. */
  function Get(o: Obj, key: string): Value {
    if key in o then o[key] else Undefined
  }

  /** JavaScript truthiness: `undefined`, `null`, `false`, `0` and `""` are falsy. */
  predicate Truthy(v: Value) {
    match v
    case Undefined => false
    case Null => false
    case Bool(b) => b
    case Num(n) => n != 0
    case Str(s) => s != ""
  }

  /** `a || b`: the first operand when it is truthy, the second otherwise. */
  function Or(a: Value, b: Value): (r: Value)
    ensures Truthy(r) <==> Truthy(a) || Truthy(b)
    ensures r == a || r == b
  {
    if Truthy(a) then a else b
  }

  predicate Nullish(v: Value) {
    v.Undefined? || v.Null?
  }

  /** `a == b` restricted to what the model needs: equal values, or both
      nullish (`null == undefined`). */
  predicate LooseEq(a: Value, b: Value) {
    a == b || (Nullish(a) && Nullish(b))
  }

  /** lodash `_.isBoolean`. */
  predicate IsBoolean(v: Value) {
    v.Bool?
  }

  /** lodash `_.isEmpty` on a primitive: only a non-empty string is non-empty. */
  predicate IsEmpty(v: Value) {
    !(v.Str? && v.s != "")
  }
}
