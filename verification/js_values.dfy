/**
 The slice of JavaScript's value model that the damage-report handler
 touches: the JSON-shaped values a parsed request body can hold, the
 `undefined` that reading a missing property yields, truthiness (the test
 behind `!x`, `if (x)` and `x || d`) and `typeof x === "number"`.
 */
module JsValues {

  /** A JavaScript number, kept abstract: no floating-point arithmetic is
      modelled, only the distinctions truthiness and `typeof` depend on.
      Negative zero is folded into `Finite(0.0)`; both are falsy. */
  datatype Number = NaN | Finite(value: real) | Infinity(negative: bool)

  datatype JVal =
    | Undefined
    | Null
    | Bool(b: bool)
    | Num(n: Number)
    | Str(s: string)
    | Arr(items: seq<JVal>)
    | Obj(props: map<string, JVal>)

  /** JavaScript truthiness: `false`, `0`, `NaN`, `""`, `null` and
      `undefined` are falsy; every other value, including empty arrays and
      empty objects, is truthy. */
  predicate Truthy(v: JVal) {
    match v
    case Undefined => false
    case Null => false
    case Bool(b) => b
    case Num(n) => !n.NaN? && n != Finite(0.0)
    case Str(s) => s != ""
    case Arr(_) => true
    case Obj(_) => true
  }

  /** `typeof v === "number"`; true for `NaN` and `0` alike. */
  predicate IsNumber(v: JVal) {
    v.Num?
  }

  /** The value of `a || b`. */
  function Or(a: JVal, b: JVal): JVal {
    if Truthy(a) then a else b
  }

  /** Reading property `key` of `v` (`v.key`, or a destructuring pattern).
      Only own properties of objects are modelled; a missing property, and
      any named property of a non-object, reads as `undefined`. */
  function Get(v: JVal, key: string): JVal {
    if v.Obj? && key in v.props then v.props[key] else Undefined
  }

  /** A one-property object `{ key: value }`. */
  function Single(key: string, value: JVal): JVal {
    Obj(map[key := value])
  }
}
