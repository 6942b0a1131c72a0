/**
 * The slice of JavaScript value semantics the dashboard relies on: scalar values,
 * truthiness, `||`, `String(...)` and the number-parsing built-ins.
 *
 * `parseFloat`, `parseInt(., 10)` and `Number.prototype.toString` are not modelled
 * here; they are fields of an `Engine` that every operation using them receives, so
 * every property proved holds for any behaviour of those built-ins.
 */
module Js {
  import opened Wrappers

  /** A JavaScript number. Infinities and the sign of zero are not modelled. */
  datatype Number = NaN | Num(value: real)

  /** A scalar JavaScript value as it arrives from JSON or from a form field. */
  datatype Value = Undefined | Null | Bool(b: bool) | Number(n: Number) | Str(s: string)

  /** The engine's own primitives, left abstract. */
  datatype Engine = Engine(
    parseFloat: string -> Number,
    parseInt10: string -> Number,
    numberToString: real -> string)

  /** ToBoolean: the falsy values are undefined, null, false, NaN, 0 and "". */
  predicate Truthy(v: Value) {
    match v
    case Undefined => false
    case Null => false
    case Bool(b) => b
    case Number(n) => n.Num? && n.value != 0.0
    case Str(s) => s != ""
  }

  /** `a || b`. */
  function Or(a: Value, b: Value): Value {
    if Truthy(a) then a else b
  }

  /** `String(v)`. */
  function ToString(eng: Engine, v: Value): string {
    match v
    case Undefined => "undefined"
    case Null => "null"
    case Bool(b) => if b then "true" else "false"
    case Number(n) => (match n case NaN => "NaN" case Num(x) => eng.numberToString(x))
    case Str(s) => s
  }

  /** `parseFloat(v)`: the argument is converted to a string first. */
  function ParseFloat(eng: Engine, v: Value): Number {
    eng.parseFloat(ToString(eng, v))
  }

  /** `parseInt(v, 10)`. */
  function ParseInt10(eng: Engine, v: Value): Number {
    eng.parseInt10(ToString(eng, v))
  }

  /** `Math.abs`. */
  function Abs(n: Number): Number {
    match n
    case NaN => NaN
    case Num(x) => Num(if x < 0.0 then -x else x)
  }

  /** `-n`. */
  function Negate(n: Number): Number {
    match n
    case NaN => NaN
    case Num(x) => Num(-x)
  }

  /** `a + b` on numbers: NaN is absorbing. */
  function Add(a: Number, b: Number): Number {
    if a.NaN? || b.NaN? then NaN else Num(a.value + b.value)
  }

  /** `n || 0` where `n` is a number: NaN and 0 both give 0. */
  function OrZero(n: Number): (r: real)
    ensures r != 0.0 <==> Truthy(Number(n))
    ensures r != 0.0 ==> n == Num(r)
  {
    if Truthy(Number(n)) then n.value else 0.0
  }

  /** `n || null` where `n` is a number: NaN and 0 both give null. */
  function OrNull(n: Number): (r: Option<real>)
    ensures r.Some? <==> Truthy(Number(n))
    ensures r.Some? ==> n == Num(r.value) && r.value != 0.0
  {
    if Truthy(Number(n)) then Some(n.value) else None
  }

  /** A string field that the backend sends as a string, or as null / undefined (None). */
  function TextOr(s: Option<string>, default: string): (r: string)
    ensures s.Some? && s.value != "" ==> r == s.value
    ensures s.None? || s.value == "" ==> r == default
  {
    if s.Some? && s.value != "" then s.value else default
  }
}
