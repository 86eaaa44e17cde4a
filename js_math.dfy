/** The few pieces of JavaScript number semantics the valuation relies on:
    a division whose divisor may be zero, `Math.min`, `Math.max`, and the
    properties of `Math.log10` and `Math.pow(10, _)` that the proofs assume.
    Values are exact reals; rounding of IEEE-754 doubles is not modelled. */
module JsMath {

  /** A JavaScript number as far as the valuation needs one: a finite value,
      or one of the special values that a division by zero produces. */
  datatype Num = Finite(value: real) | PosInfinity | NegInfinity | NaN

  /** `a / b` in JavaScript for finite operands. The zero divisor that can
      arise here is a difference of two equal numbers, which IEEE-754 makes
      +0, so a positive numerator gives +Infinity and a negative one -Infinity. */
  function Divide(a: real, b: real): (r: Num)
    ensures r.Finite? <==> b != 0.0
    ensures r.Finite? ==> r.value * b == a
    ensures r.NaN? <==> a == 0.0 && b == 0.0
    ensures r.PosInfinity? <==> a > 0.0 && b == 0.0
    ensures r.NegInfinity? <==> a < 0.0 && b == 0.0
  {
    if b != 0.0 then Finite(a / b)
    else if a > 0.0 then PosInfinity
    else if a < 0.0 then NegInfinity
    else NaN
  }

  /** The order of JavaScript numbers; NaN is not below or above anything. */
  predicate AtMost(a: Num, b: Num)
  {
    if a.NaN? || b.NaN? then false
    else if a.NegInfinity? || b.PosInfinity? then true
    else if a.PosInfinity? || b.NegInfinity? then false
    else a.value <= b.value
  }

  /** `Math.min(a, b)`: NaN if either argument is NaN, else the smaller one. */
  function Min(a: Num, b: Num): (r: Num)
    ensures r.NaN? <==> a.NaN? || b.NaN?
    ensures !r.NaN? ==> (r == a || r == b) && AtMost(r, a) && AtMost(r, b)
  {
    if a.NaN? || b.NaN? then NaN else if AtMost(a, b) then a else b
  }

  /** `Math.max(a, b)`: NaN if either argument is NaN, else the larger one. */
  function Max(a: Num, b: Num): (r: Num)
    ensures r.NaN? <==> a.NaN? || b.NaN?
    ensures !r.NaN? ==> (r == a || r == b) && AtMost(a, r) && AtMost(b, r)
  {
    if a.NaN? || b.NaN? then NaN else if AtMost(a, b) then b else a
  }

  /** `Math.max(0, Math.min(1, x))`: every number other than NaN lands in [0,1];
      a value already in [0,1] is kept, one outside goes to the nearer end. */
  function Clamp01(x: Num): (r: Num)
    ensures r.NaN? <==> x.NaN?
    ensures !x.NaN? ==> r.Finite? && 0.0 <= r.value <= 1.0
    ensures x.Finite? && 0.0 <= x.value <= 1.0 ==> r == x
    ensures x.PosInfinity? || (x.Finite? && x.value > 1.0) ==> r == Finite(1.0)
    ensures x.NegInfinity? || (x.Finite? && x.value < 0.0) ==> r == Finite(0.0)
  {
    Max(Finite(0.0), Min(Finite(1.0), x))
  }

  /** Clamping keeps the order of any two numbers. */
  lemma ClampMonotone(x: Num, y: Num)
    requires AtMost(x, y)
    ensures AtMost(Clamp01(x), Clamp01(y))
  {
  }

  /** What the proofs assume of `Math.log10`: it is strictly increasing on the positive reals. */
  ghost predicate StrictlyIncreasingOnPositives(log10: real -> real)
  {
    forall x, y :: 0.0 < x < y ==> log10(x) < log10(y)
  }

  /** What the proofs assume of `Math.pow(10, _)`: every power of ten is positive. */
  ghost predicate PositiveValued(pow10: real -> real)
  {
    forall e :: pow10(e) > 0.0
  }

  /** `Math.pow(10, _)` is strictly increasing in its exponent. */
  ghost predicate StrictlyIncreasing(pow10: real -> real)
  {
    forall e, e' :: e < e' ==> pow10(e) < pow10(e')
  }

  /** `Math.log10` undoes `Math.pow(10, _)`. */
  ghost predicate LogUndoesPow(log10: real -> real, pow10: real -> real)
  {
    forall e :: log10(pow10(e)) == e
  }
}
