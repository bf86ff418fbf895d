/** The statistics the feature extractors compute concretely (mean, population
    variance, minimum, maximum) and the algebra of z-normalisation. */
module Stats {

  function Sum(xs: seq<real>): real
  {
    if xs == [] then 0.0 else xs[0] + Sum(xs[1..])
  }

  /** np.mean of a non-empty sequence. */
  function Average(xs: seq<real>): real
    requires |xs| > 0
  {
    Sum(xs) / (|xs| as real)
  }

  /** The sum of squared deviations of `xs` from `m`. */
  function SquaredDeviation(xs: seq<real>, m: real): real
  {
    if xs == [] then 0.0 else (xs[0] - m) * (xs[0] - m) + SquaredDeviation(xs[1..], m)
  }

  /** np.var of a non-empty sequence: the population variance (divisor n). */
  function PopVariance(xs: seq<real>): real
    requires |xs| > 0
  {
    SquaredDeviation(xs, Average(xs)) / (|xs| as real)
  }

  lemma {:induction false} SquaredDeviationNonNegative(xs: seq<real>, m: real)
    ensures SquaredDeviation(xs, m) >= 0.0
  {
    if xs != [] {
      SquaredDeviationNonNegative(xs[1..], m);
      SquareNonNegative(xs[0] - m);
    }
  }

  /** The population variance is never negative. */
  lemma PopVarianceNonNegative(xs: seq<real>)
    requires |xs| > 0
    ensures PopVariance(xs) >= 0.0
  {
    SquaredDeviationNonNegative(xs, Average(xs));
  }

  /** Values that all equal m have no deviation from m. */
  lemma {:induction false} SquaredDeviationOfConstant(xs: seq<real>, m: real)
    requires forall i :: 0 <= i < |xs| ==> xs[i] == m
    ensures SquaredDeviation(xs, m) == 0.0
  {
    if xs != [] {
      assert xs[0] - m == 0.0;
      assert forall i :: 0 <= i < |xs[1..]| ==> xs[1..][i] == xs[i + 1];
      SquaredDeviationOfConstant(xs[1..], m);
    }
  }

  /** Equal values have population variance zero: the case in which z_normalize
      would divide by zero. */
  lemma ConstantHasZeroVariance(xs: seq<real>)
    requires |xs| > 0 && forall i :: 0 <= i < |xs| ==> xs[i] == xs[0]
    ensures Average(xs) == xs[0]
    ensures PopVariance(xs) == 0.0
  {
    AverageBetween(xs, xs[0], xs[0]);
    SquaredDeviationOfConstant(xs, xs[0]);
  }

  /** Bounds on every element bound the sum: n·lo <= Sum(xs) <= n·hi. */
  lemma {:induction false} SumBounds(xs: seq<real>, lo: real, hi: real)
    requires forall i :: 0 <= i < |xs| ==> lo <= xs[i] <= hi
    ensures (|xs| as real) * lo <= Sum(xs) <= (|xs| as real) * hi
  {
    if xs != [] {
      var n := |xs[1..]| as real;
      assert forall i :: 0 <= i < |xs[1..]| ==> xs[1..][i] == xs[i + 1];
      SumBounds(xs[1..], lo, hi);
      assert (|xs| as real) * lo == n * lo + lo;
      assert (|xs| as real) * hi == n * hi + hi;
    }
  }

  /** np.mean of a non-empty sequence lies between its np.min and its np.max. */
  lemma AverageWithinRange(xs: seq<real>)
    requires |xs| > 0
    ensures Min(xs) <= Average(xs) <= Max(xs)
  {
    AverageBetween(xs, Min(xs), Max(xs));
  }

  lemma AverageBetween(xs: seq<real>, lo: real, hi: real)
    requires |xs| > 0
    requires forall i :: 0 <= i < |xs| ==> lo <= xs[i] <= hi
    ensures lo <= Average(xs) <= hi
  {
    var s, n := Sum(xs), |xs| as real;
    SumBounds(xs, lo, hi);
    assert n * lo <= s <= n * hi;
    BetweenQuotient(s, n, lo, hi);
  }

  /** np.min of a non-empty sequence: an element that is below or equal to every element. */
  function Min(xs: seq<real>): (r: real)
    requires |xs| > 0
    ensures r in xs
    ensures forall i :: 0 <= i < |xs| ==> r <= xs[i]
  {
    if |xs| == 1 then xs[0]
    else
      var rest := Min(xs[1..]);
      assert forall i :: 1 <= i < |xs| ==> xs[i] == xs[1..][i - 1];
      if xs[0] <= rest then xs[0] else rest
  }

  /** np.max of a non-empty sequence: an element that is above or equal to every element. */
  function Max(xs: seq<real>): (r: real)
    requires |xs| > 0
    ensures r in xs
    ensures forall i :: 0 <= i < |xs| ==> xs[i] <= r
  {
    if |xs| == 1 then xs[0]
    else
      var rest := Max(xs[1..]);
      assert forall i :: 1 <= i < |xs| ==> xs[i] == xs[1..][i - 1];
      if xs[0] >= rest then xs[0] else rest
  }

  /** Every element shifted by `m` and divided by `d`, in order. */
  function Affine(xs: seq<real>, m: real, d: real): (r: seq<real>)
    requires d != 0.0
    ensures |r| == |xs|
    ensures forall i :: 0 <= i < |xs| ==> r[i] == (xs[i] - m) / d
  {
    if xs == [] then [] else [(xs[0] - m) / d] + Affine(xs[1..], m, d)
  }

  lemma {:induction false} SumAffine(xs: seq<real>, m: real, d: real)
    requires d != 0.0
    ensures d * Sum(Affine(xs, m, d)) == Sum(xs) - (|xs| as real) * m
  {
    if xs != [] {
      assert Affine(xs, m, d)[1..] == Affine(xs[1..], m, d);
      SumAffine(xs[1..], m, d);
      MulDivCancel(xs[0] - m, d);
      Distribute(d, (xs[0] - m) / d, Sum(Affine(xs[1..], m, d)));
    }
  }

  lemma {:induction false} SquaredDeviationAffine(xs: seq<real>, m: real, d: real)
    requires d != 0.0
    ensures d * d * SquaredDeviation(Affine(xs, m, d), 0.0) == SquaredDeviation(xs, m)
  {
    if xs != [] {
      assert Affine(xs, m, d)[1..] == Affine(xs[1..], m, d);
      SquaredDeviationAffine(xs[1..], m, d);
      SquareOfQuotient(xs[0] - m, d);
      Distribute(d * d, ((xs[0] - m) / d - 0.0) * ((xs[0] - m) / d - 0.0),
                 SquaredDeviation(Affine(xs[1..], m, d), 0.0));
    }
  }

  /** The score of one value: its distance from the mean, divided by the variance. */
  function ZScore(x: real, mean: real, variance: real): real
    requires variance != 0.0
  {
    (x - mean) / variance
  }

  /** What Signal.z_normalize writes: each value minus the mean, divided by the
      population variance (not by the standard deviation). */
  function ZNormalized(xs: seq<real>): (r: seq<real>)
    requires |xs| > 0 && PopVariance(xs) != 0.0
    ensures |r| == |xs|
    ensures forall i :: 0 <= i < |xs| ==> r[i] == ZScore(xs[i], Average(xs), PopVariance(xs))
  {
    Affine(xs, Average(xs), PopVariance(xs))
  }

  /** The z-normalised values have mean zero. */
  lemma ZNormalizedMean(xs: seq<real>)
    requires |xs| > 0 && PopVariance(xs) != 0.0
    ensures Average(ZNormalized(xs)) == 0.0
  {
    SumAffine(xs, Average(xs), PopVariance(xs));
    MulDivCancel(Sum(xs), |xs| as real);
    ProductZero(PopVariance(xs), Sum(ZNormalized(xs)));
  }

  /** Because the divisor is the variance v rather than its square root, the
      z-normalised values have variance 1/v, which is 1 only when v is 1. */
  lemma ZNormalizedVariance(xs: seq<real>)
    requires |xs| > 0 && PopVariance(xs) != 0.0
    ensures PopVariance(ZNormalized(xs)) == 1.0 / PopVariance(xs)
  {
    var m, v, n := Average(xs), PopVariance(xs), |xs| as real;
    var zs := ZNormalized(xs);
    var s := SquaredDeviation(zs, 0.0);
    ZNormalizedMean(xs);
    assert PopVariance(zs) == s / n;
    SquaredDeviationAffine(xs, m, v);
    assert v * v * s == SquaredDeviation(xs, m);
    // SquaredDeviation(xs, m) == n * v, by the definition of PopVariance
    MulDivCancel(SquaredDeviation(xs, m), n);
    VarianceStep(v, n, s);
  }

  // Small facts of real arithmetic, each proved on its own so that the
  // nonlinear reasoning stays local.

  lemma SquareNonNegative(e: real)
    ensures e * e >= 0.0
  {
  }

  lemma MulDivCancel(x: real, d: real)
    requires d != 0.0
    ensures d * (x / d) == x && (x / d) * d == x
  {
  }

  lemma BetweenQuotient(s: real, n: real, lo: real, hi: real)
    requires n > 0.0 && n * lo <= s <= n * hi
    ensures lo <= s / n <= hi
  {
  }

  lemma Distribute(c: real, a: real, b: real)
    ensures c * a + c * b == c * (a + b)
  {
  }

  lemma ProductZero(a: real, b: real)
    requires a != 0.0 && a * b == 0.0
    ensures b == 0.0
  {
  }

  lemma SquareOfQuotient(a: real, d: real)
    requires d != 0.0
    ensures d * d * ((a / d - 0.0) * (a / d - 0.0)) == a * a
  {
    MulDivCancel(a, d);
    assert d * d * ((a / d) * (a / d)) == (d * (a / d)) * (d * (a / d));
  }

  /** From v*v*s == n*v (n > 0, v != 0) it follows that s / n == 1 / v. */
  lemma VarianceStep(v: real, n: real, s: real)
    requires v != 0.0 && n > 0.0 && v * v * s == n * v
    ensures s / n == 1.0 / v
  {
    assert v * (v * s - n) == 0.0;
    ProductZero(v, v * s - n);
    assert v * s == n;
    assert s == n / v;
  }
}
