/**
 * The few numeric built-ins the generator relies on, stated over
 * mathematical reals: Python's two-argument `max`/`min`, the
 * `max(lo, min(x, hi))` clamp idiom and `int()` truncation.
 */
module RealOps {

  /** Python's `max(a, b)`: the larger argument. */
  function Max(a: real, b: real): (m: real)
    ensures m >= a && m >= b
    ensures m == a || m == b
  {
    if b > a then b else a
  }

  /** Python's `min(a, b)`: the smaller argument. */
  function Min(a: real, b: real): (m: real)
    ensures m <= a && m <= b
    ensures m == a || m == b
  {
    if b < a then b else a
  }

  /**
   * `max(lo, min(x, hi))`: for a non-empty interval the result lies in it,
   * an in-range value is left alone, and an out-of-range value is moved to
   * the nearer end.
   */
  function Clamp(x: real, lo: real, hi: real): (r: real)
    ensures lo <= hi ==> lo <= r <= hi
    ensures lo <= x <= hi ==> r == x
    ensures lo <= hi && x < lo ==> r == lo
    ensures lo <= hi && hi < x ==> r == hi
  {
    Max(lo, Min(x, hi))
  }

  /** Python's `int(x)` on a float: truncation toward zero. */
  function TruncateTowardZero(x: real): (n: int)
    ensures 0.0 <= x ==> n as real <= x < n as real + 1.0
    ensures x < 0.0 ==> n as real - 1.0 < x <= n as real
  {
    if x >= 0.0 then x.Floor else -((-x).Floor)
  }

  /** A stand-in for `sin`: any function whose values lie in [-1, 1]. */
  ghost predicate SineLike(sine: real -> real)
  {
    forall x :: -1.0 <= sine(x) <= 1.0
  }

  /** Products of lower bounds bound products from below (all factors non-negative). */
  lemma MulMonotone(a: real, b: real, lowA: real, lowB: real)
    requires 0.0 <= lowA <= a
    requires 0.0 <= lowB <= b
    ensures lowA * lowB <= a * b
  {
    assert a * b - lowA * lowB == a * (b - lowB) + lowB * (a - lowA);
    assert a * (b - lowB) >= 0.0;
    assert lowB * (a - lowA) >= 0.0;
  }
}
