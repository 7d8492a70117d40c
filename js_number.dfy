/**
 * The part of JavaScript number semantics the dashboard relies on: IEEE division by zero
 * yields an infinity or NaN, `Math.round` rounds half up, comparisons with NaN are false,
 * and `Math.min` propagates NaN. Finite values are exact reals (no rounding error).
 */
module JsNumber {

  datatype Number = Finite(value: real) | PositiveInfinity | NegativeInfinity | NaN

  /**
   * `a / b` on two finite numbers: finite exactly when the divisor is non-zero, and then the
   * number that multiplied by b gives back a; otherwise an infinity of a's sign, or NaN for 0/0.
   */
  function Divide(a: real, b: real): (r: Number)
    ensures r.Finite? <==> b != 0.0
    ensures r.Finite? ==> r.value * b == a
    ensures !r.Finite? ==> (r == PositiveInfinity <==> a > 0.0) && (r == NegativeInfinity <==> a < 0.0)
    ensures !r.Finite? ==> (r == NaN <==> a == 0.0)
  {
    if b != 0.0 then Finite(a / b)
    else if a > 0.0 then PositiveInfinity
    else if a < 0.0 then NegativeInfinity
    else NaN
  }

  /**
   * `x * k` for a positive finite factor `k` (the code only ever multiplies by 100): dividing
   * the result by k gives x back, the sign is kept, and infinities and NaN pass through.
   */
  function Scale(x: Number, k: real): (r: Number)
    requires k > 0.0
    ensures x.Finite? <==> r.Finite?
    ensures r.Finite? ==> r.value / k == x.value
    ensures r.Finite? ==> (r.value > 0.0 <==> x.value > 0.0) && (r.value < 0.0 <==> x.value < 0.0)
    ensures !x.Finite? ==> r == x
  {
    match x
    case Finite(v) => Finite(v * k)
    case _ => x
  }

  /** `Math.round`: the integer nearest to x, halves rounded towards +Infinity. */
  function Round(x: Number): (r: Number)
  {
    match x
    case Finite(v) => Finite((v + 0.5).Floor as real)
    case _ => x
  }

  /** `x > k` for a finite k; false whenever x is NaN. */
  predicate GreaterThan(x: Number, k: real)
  {
    match x
    case Finite(v) => v > k
    case PositiveInfinity => true
    case NegativeInfinity => false
    case NaN => false
  }

  /** `Math.min(x, k)` for a finite k; NaN if x is NaN. */
  function Min(x: Number, k: real): Number
  {
    match x
    case Finite(v) => Finite(if v <= k then v else k)
    case PositiveInfinity => Finite(k)
    case NegativeInfinity => NegativeInfinity
    case NaN => NaN
  }

  /** `Math.abs` on a finite number. */
  function Abs(v: real): (r: real)
    ensures r >= 0.0
    ensures r == v || r == -v
  {
    if v < 0.0 then -v else v
  }

  /** Math.round of a finite value is an integer within one half of it. */
  lemma RoundIsNearest(v: real)
    ensures Round(Finite(v)).Finite?
    ensures Round(Finite(v)).value == Round(Finite(v)).value.Floor as real
    ensures v - 0.5 < Round(Finite(v)).value <= v + 0.5
  {
    var p := (v + 0.5).Floor;
    assert p as real <= v + 0.5 < p as real + 1.0;
  }

  /** Math.min(x, k) never exceeds k unless x is NaN, and never exceeds x either. */
  lemma MinIsBounded(x: Number, k: real)
    ensures x != NaN ==> !GreaterThan(Min(x, k), k)
    ensures x.Finite? ==> Min(x, k).value <= x.value
    ensures x.Finite? && x.value >= 0.0 && k >= 0.0 ==> 0.0 <= Min(x, k).value <= k
  {
  }
}
