/** Numeric building blocks the fuzz engine takes from the C++ standard library:
    std::clamp, std::round, the constant M_PI, and std::tanh / std::sin, which
    are known here only through their ranges. */
module Numerics {

  /** M_PI to 16 significant digits (the shortest decimal of the same double). */
  const Pi: real := 3.141592653589793

  function Abs(x: real): (r: real)
    ensures r >= 0.0 && (r == x || r == -x)
  {
    if x < 0.0 then -x else x
  }

  /** Any hyperbolic-tangent implementation: its values lie strictly inside (-1, 1). */
  ghost predicate TanhLike(f: real -> real) { forall x: real :: -1.0 < f(x) < 1.0 }

  /** Any sine implementation: its values lie in [-1, 1]. */
  ghost predicate SineLike(f: real -> real) { forall x: real :: -1.0 <= f(x) <= 1.0 }

  /** std::clamp(v, lo, hi): lo when v < lo, hi when hi < v, v otherwise.
      The standard leaves lo > hi undefined, hence the precondition. */
  function Clamp(v: real, lo: real, hi: real): (r: real)
    requires lo <= hi
    ensures lo <= r <= hi
    ensures lo <= v <= hi ==> r == v
    ensures v < lo ==> r == lo
    ensures hi < v ==> r == hi
  {
    if v < lo then lo else if hi < v then hi else v
  }

  /** Clamping is monotone: a larger value never clamps to a smaller one. */
  lemma ClampMonotone(v: real, w: real, lo: real, hi: real)
    requires lo <= hi && v <= w
    ensures Clamp(v, lo, hi) <= Clamp(w, lo, hi)
  {
  }

  /** std::round: the nearest integer, halves rounded away from zero. */
  function Round(y: real): (n: int)
    ensures -0.5 <= y - n as real <= 0.5
    ensures y - n as real == 0.5 ==> y < 0.0
    ensures y - n as real == -0.5 ==> y > 0.0
  {
    if y >= 0.0 then (y + 0.5).Floor else -((-y + 0.5).Floor)
  }

  /** No integer is closer to y than Round(y). */
  lemma RoundIsNearest(y: real, m: int)
    ensures Abs(y - Round(y) as real) <= Abs(y - m as real)
  {
    var n := Round(y);
    if m < n {
      assert m as real <= n as real - 1.0;
    } else if m > n {
      assert m as real >= n as real + 1.0;
    }
  }

  /** Rounding commutes with negation, which is what "away from zero" buys. */
  lemma RoundOdd(y: real)
    ensures Round(-y) == -Round(y)
  {
  }

  /** Integers are fixed points of rounding. */
  lemma RoundInteger(k: int)
    ensures Round(k as real) == k
  {
  }

  /** k raised to the n-th power. */
  function Pow(k: real, n: nat): (r: real)
    ensures 0.0 <= k <= 1.0 ==> 0.0 <= r <= 1.0
    ensures 0.0 <= k < 1.0 && n > 0 ==> r < 1.0
  {
    if n == 0 then 1.0
    else
      var p := Pow(k, n - 1);
      assert 0.0 <= k <= 1.0 ==> 0.0 * p <= k * p <= 1.0 * p;
      k * p
  }
}
