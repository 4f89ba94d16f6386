/** Real and integer arithmetic used by the Adam optimizer loop: the fixed
    hyper-parameters, powers of the decay rates, the ceiling division that sizes
    the moment arrays, the minimum of the objective trace and the parameter
    update. Reals stand for floating-point numbers; rounding is not
    modelled. */
module AdamNumerics {

  const Alpha: real := 0.001
  const Beta1: real := 0.9
  const Beta2: real := 0.999
  const Eps: real := 0.00000001

  function Pow(x: real, n: nat): real
  {
    if n == 0 then 1.0 else x * Pow(x, n - 1)
  }

  /** A decay rate in [0, 1) raised to a positive power stays in [0, 1). */
  lemma {:induction false} PowInUnitInterval(x: real, n: nat)
    requires 0.0 <= x < 1.0 && n >= 1
    ensures 0.0 <= Pow(x, n) < 1.0
  {
    if n > 1 {
      PowInUnitInterval(x, n - 1);
      var p := Pow(x, n - 1);
      assert x * p <= x * 1.0;
    }
  }

  /** For every step t >= 1 both bias-correction denominators are positive. */
  lemma BiasDenominatorsPositive(t: nat)
    requires t >= 1
    ensures 1.0 - Pow(Beta1, t) > 0.0 && 1.0 - Pow(Beta2, t) > 0.0
  {
    PowInUnitInterval(Beta1, t);
    PowInUnitInterval(Beta2, t);
  }

  /** The ceiling of a / b for a non-negative a and a positive b. */
  function CeilDiv(a: int, b: int): (r: int)
    requires a >= 0 && b >= 1
    ensures r >= 0
  {
    (a + b - 1) / b
  }

  /** CeilDiv(a, b) is the least number of windows of width b that cover a
      samples: r windows cover them and r - 1 do not. */
  lemma CeilDivBounds(a: int, b: int)
    requires a >= 0 && b >= 1
    ensures (CeilDiv(a, b) - 1) * b < a <= CeilDiv(a, b) * b
  {
    var q := (a + b - 1) / b;
    assert a + b - 1 == q * b + (a + b - 1) % b;
  }

  /** If r * b > x * b with b positive then r > x. */
  lemma MulCancel(x: int, r: int, b: int)
    requires b >= 1 && x * b < r * b
    ensures x < r
  {
    assert (r - x) * b == r * b - x * b;
  }

  /** The least value of a non-empty sequence (numpy's amin). */
  function Min(s: seq<real>): real
    requires |s| > 0
  {
    if |s| == 1 then s[0]
    else
      var rest := Min(s[1..]);
      if s[0] <= rest then s[0] else rest
  }

  /** Min(s) is one of the values of s and no value of s is below it. */
  lemma {:induction false} MinIsLeast(s: seq<real>)
    requires |s| > 0
    ensures Min(s) in s
    ensures forall j :: 0 <= j < |s| ==> Min(s) <= s[j]
  {
    if |s| > 1 {
      MinIsLeast(s[1..]);
      assert forall j :: 1 <= j < |s| ==> s[j] == s[1..][j - 1];
    }
  }

  /** Overwriting slot p with a value that is not the new minimum keeps the
      minimum that another slot q already held. */
  lemma MinAfterUpdate(s: seq<real>, p: nat, q: nat, w: real)
    requires p < |s| && q < |s| && p != q && s[q] == Min(s)
    requires Min(s[p := w]) != w
    ensures Min(s[p := w]) == s[q]
  {
    var s' := s[p := w];
    MinIsLeast(s);
    MinIsLeast(s');
    var x :| 0 <= x < |s'| && s'[x] == Min(s');
    assert x != p;
    assert s'[x] == s[x] >= s[q];
    assert Min(s') <= s'[q] == s[q];
  }

  /** The first-moment recurrence: the decayed average beta1 * m + (1 - beta1) * g. */
  function FirstMoment(m: real, g: real): real
  {
    Beta1 * m + (1.0 - Beta1) * g
  }

  /** The second-moment recurrence: the decayed average of the squared
      gradient beta2 * v + (1 - beta2) * g^2. */
  function SecondMoment(v: real, g: real): real
  {
    Beta2 * v + (1.0 - Beta2) * (g * g)
  }

  /** The second moment and its bias-corrected value stay non-negative when
      the previous second moment is. */
  lemma SecondMomentNonNegative(v: real, g: real, t: nat)
    requires v >= 0.0 && t >= 1
    ensures 1.0 - Pow(Beta2, t) > 0.0
    ensures SecondMoment(v, g) >= 0.0
    ensures SecondMoment(v, g) / (1.0 - Pow(Beta2, t)) >= 0.0
  {
    BiasDenominatorsPositive(t);
    assert g * g >= 0.0;
    var num, den := SecondMoment(v, g), 1.0 - Pow(Beta2, t);
    assert num == (num / den) * den;
  }

  ghost predicate SqrtNonNegative(sqrt: real -> real)
  {
    forall y :: 0.0 <= y ==> 0.0 <= sqrt(y)
  }

  /** The parameter update z - Alpha * mHat / (sqrt(vHat) + Eps). The square
      root is a parameter that maps non-negative reals to non-negative reals,
      so the denominator is at least Eps. */
  function AdamUpdate(z: real, mHat: real, vHat: real, sqrt: real -> real): real
    requires vHat >= 0.0 && SqrtNonNegative(sqrt)
  {
    z - Alpha * mHat / (sqrt(vHat) + Eps)
  }
}
