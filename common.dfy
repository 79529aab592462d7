/** Element-wise numeric helpers shared by both dataset generators:
    numpy's clip and integer cast, the zero-safe ratios of the derived
    columns, and the Bernoulli label draw. */
module Numeric {

  /** `np.clip` on one element: `min(max(x, lo), hi)`. */
  function Clip(x: int, lo: int, hi: int): (r: int)
    ensures r <= hi
    ensures lo <= hi ==> lo <= r
    ensures lo <= x <= hi ==> r == x
    ensures x > hi ==> r == hi
    ensures x < lo && lo <= hi ==> r == lo
  {
    var m := if x < lo then lo else x;
    if m > hi then hi else m
  }

  /** `np.clip` on a floating-point element. */
  function ClipReal(x: real, lo: real, hi: real): (r: real)
    ensures r <= hi
    ensures lo <= hi ==> lo <= r
    ensures lo <= x <= hi ==> r == x
    ensures x > hi ==> r == hi
    ensures x < lo && lo <= hi ==> r == lo
  {
    var m := if x < lo then lo else x;
    if m > hi then hi else m
  }

  function Min(x: real, y: real): real { if x <= y then x else y }

  function MaxInt(x: int, y: int): int { if x >= y then x else y }

  /** `.astype(int)` on a float: truncation toward zero, not floor. */
  function TruncToInt(x: real): (t: int)
    ensures 0.0 <= x ==> 0 <= t && t as real <= x < t as real + 1.0
    ensures x < 0.0 ==> t <= 0 && t as real - 1.0 < x <= t as real
  {
    if x >= 0.0 then x.Floor else -((-x).Floor)
  }

  /** `num / den.replace(0, nan)` followed by `fillna(0)`: the plain
      quotient, or 0 where the denominator is 0. */
  function SafeQuotient(num: int, den: int): (q: real)
    ensures den == 0 ==> q == 0.0
    ensures den != 0 ==> q * den as real == num as real
  {
    if den == 0 then 0.0 else num as real / den as real
  }

  /** The same quotient scaled to a percentage, `* 100`. */
  function SafeRate(num: int, den: int): (r: real)
    ensures den == 0 ==> r == 0.0
    ensures den != 0 ==> r * den as real == num as real * 100.0
  {
    SafeQuotient(num, den) * 100.0
  }

  lemma RateWithinPercent(num: int, den: int)
    requires 0 <= num <= den
    ensures 0.0 <= SafeRate(num, den) <= 100.0
  {
  }

  /** `np.random.binomial(1, p)`, with the library's randomness taken as
      one uniform draw `u` in [0, 1): the outcome is 1 exactly when `u < p`. */
  function Bernoulli(p: real, u: real): (outcome: int)
    ensures outcome == 0 || outcome == 1
    ensures outcome == 1 <==> u < p
  {
    if u < p then 1 else 0
  }

  lemma BernoulliMonotone(p: real, q: real, u: real)
    requires p <= q
    ensures Bernoulli(p, u) <= Bernoulli(q, u)
  {
  }

  /** A calibration from risk score to dropout probability that never
      lowers the probability when the score rises, as the logistic
      `1 / (1 + exp(-(s - m) / k))` with k > 0 does. */
  ghost predicate Monotone(calibrate: real -> real)
  {
    forall x: real, y: real :: x <= y ==> calibrate(x) <= calibrate(y)
  }
}
