/**
 * The JavaScript numbers the health report can hold. Arithmetic on finite
 * values is exact here; what is kept of IEEE 754 is that a division by zero
 * does not fail but yields an infinity, or NaN for 0 / 0, and that those
 * values then flow through multiplication and comparison.
 */
module JsNumber {

  datatype Num = Finite(value: real) | PosInfinity | NegInfinity | NaN

  /** `a / b` for finite operands. */
  function Quotient(a: real, b: real): Num {
    if b != 0.0 then Finite(a / b)
    else if a > 0.0 then PosInfinity
    else if a < 0.0 then NegInfinity
    else NaN
  }

  /** `n * 100`. */
  function Percent(n: Num): Num {
    match n
    case Finite(v) => Finite(v * 100.0)
    case _ => n
  }

  /** `n >= c`: false for NaN. */
  predicate AtLeast(n: Num, c: real) {
    match n
    case Finite(v) => v >= c
    case PosInfinity => true
    case _ => false
  }

  /** `n > c`: false for NaN. */
  predicate Above(n: Num, c: real) {
    match n
    case Finite(v) => v > c
    case PosInfinity => true
    case _ => false
  }

  /** `n < c`: false for NaN. */
  predicate Below(n: Num, c: real) {
    match n
    case Finite(v) => v < c
    case NegInfinity => true
    case _ => false
  }

  /**
   * A quotient is finite exactly when the divisor is not 0, and then
   * multiplying back by the divisor gives the dividend; 0 / 0 alone is NaN.
   */
  lemma QuotientInverse(a: real, b: real)
    ensures Quotient(a, b).Finite? <==> b != 0.0
    ensures b != 0.0 ==> Quotient(a, b).value * b == a
    ensures Quotient(a, b).NaN? <==> a == 0.0 && b == 0.0
  {
  }

  /** NaN fails every comparison; an infinity passes exactly the comparisons that point its way. */
  lemma ComparisonsOfNonFinite(n: Num, c: real)
    requires !n.Finite?
    ensures n.NaN? ==> !AtLeast(n, c) && !Above(n, c) && !Below(n, c)
    ensures n.PosInfinity? ==> AtLeast(n, c) && Above(n, c) && !Below(n, c)
    ensures n.NegInfinity? ==> !AtLeast(n, c) && !Above(n, c) && Below(n, c)
  {
  }
}
