/**
 * The part of JavaScript's number semantics that the map scaling touches.
 * A finite double is stood in for by an exact rational (no rounding); the
 * three IEEE-754 special values that a division by zero can produce are kept.
 */
module JsNumber {

  datatype Number = Finite(value: real) | PosInfinity | NegInfinity | NaN

  /** `n / d` for two integer-valued numbers: a zero divisor gives an infinity or NaN, never an error. */
  function Divide(n: int, d: int): (q: Number)
    ensures q.Finite? <==> d != 0
    ensures d != 0 ==> q.value * (d as real) == n as real
    ensures q == NaN <==> n == 0 && d == 0
    ensures q == PosInfinity <==> n > 0 && d == 0
  {
    if d != 0 then Finite(n as real / d as real)
    else if n > 0 then PosInfinity
    else if n < 0 then NegInfinity
    else NaN
  }

  /** `x > c` for a finite constant `c`: every comparison with NaN is false. */
  predicate GreaterThan(x: Number, c: real)
  {
    match x
    case Finite(v) => v > c
    case PosInfinity => true
    case NegInfinity => false
    case NaN => false
  }

  /** `base + x * factor` for finite constants with `factor > 0`. */
  function ScaleShift(x: Number, base: real, factor: real): (y: Number)
    requires factor > 0.0
    ensures y.Finite? <==> x.Finite?
    ensures y == NaN <==> x == NaN
  {
    match x
    case Finite(v) => Finite(base + v * factor)
    case PosInfinity => PosInfinity
    case NegInfinity => NegInfinity
    case NaN => NaN
  }
}
