/**
 * The JavaScript values that reach the modelled code untyped: backend rows read as `any` or
 * `unknown`, and the number produced by `parseFloat`.
 */
module Js {

  /** A JavaScript value, as far as the modelled code distinguishes values. */
  datatype Value =
    | Undefined
    | Null
    | Bool(b: bool)
    | Num(x: real)
    | Str(s: string)
    | Array(items: seq<Value>)
    | Object

  /** `v === undefined || v === null`, the test behind `??` and `?.`. */
  predicate IsNullish(v: Value) {
    v.Undefined? || v.Null?
  }

  /** `Boolean(v)`: false exactly for undefined, null, false, 0 and "". */
  predicate Truthy(v: Value) {
    match v
    case Undefined => false
    case Null => false
    case Bool(b) => b
    case Num(x) => x != 0.0
    case Str(s) => s != ""
    case Array(_) => true
    case Object => true
  }

  /** `v ?? fallback`. */
  function Coalesce(v: Value, fallback: Value): Value {
    if IsNullish(v) then fallback else v
  }

  /** A backend row read without a type: column name to value. */
  type Row = map<string, Value>

  /** `row.key`: a missing column reads as undefined. */
  function Get(row: Row, key: string): Value {
    if key in row then row[key] else Undefined
  }

  /** The result of `parseFloat`: a number or NaN. Infinities are left out. */
  datatype Number = NaN | Finite(x: real)

  /** `n < bound`; every comparison with NaN is false. */
  predicate Below(n: Number, bound: real) {
    n.Finite? && n.x < bound
  }

  /** `n > bound`; every comparison with NaN is false. */
  predicate Above(n: Number, bound: real) {
    n.Finite? && n.x > bound
  }
}
