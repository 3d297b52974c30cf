/** The C++ `double` of the player: a real number, or NaN. Rounding and infinities are not modelled. */
module Doubles {

  datatype Double = NaN | Num(r: real)

  function Add(a: Double, b: Double): Double {
    if a.Num? && b.Num? then Num(a.r + b.r) else NaN
  }

  function Sub(a: Double, b: Double): Double {
    if a.Num? && b.Num? then Num(a.r - b.r) else NaN
  }

  /** `a > b` in C++: false as soon as one side is NaN. */
  predicate Gt(a: Double, b: Double) {
    a.Num? && b.Num? && a.r > b.r
  }

  predicate Ge(a: Double, b: Double) {
    a.Num? && b.Num? && a.r >= b.r
  }

  /** FFMAX(a, b), that is `a > b ? a : b`. */
  function FFMax(a: Double, b: Double): Double {
    if Gt(a, b) then a else b
  }

  /** FFMIN(a, b), that is `a > b ? b : a`. */
  function FFMin(a: Double, b: Double): Double {
    if Gt(a, b) then b else a
  }

  function Abs(x: real): (r: real)
    ensures r >= 0.0 && (r == x || r == -x)
  {
    if x < 0.0 then -x else x
  }

  function Max(a: real, b: real): (r: real)
    ensures r >= a && r >= b && (r == a || r == b)
  {
    if a >= b then a else b
  }
}
