/**
 * The arithmetic behind the forecasts: the exact mean of a list of day counts,
 * Python's `int()` applied to it, the sample variance that `statistics.stdev`
 * takes the square root of, and the integer test that decides the standard
 * deviation thresholds without any floating point.
 */
module CycleMath {

  function Sum(xs: seq<int>): int {
    if |xs| == 0 then 0 else xs[0] + Sum(xs[1..])
  }

  function SumSquares(xs: seq<int>): int {
    if |xs| == 0 then 0 else xs[0] * xs[0] + SumSquares(xs[1..])
  }

  /** The exact arithmetic mean (what `statistics.mean` approximates). */
  function Mean(xs: seq<int>): real
    requires |xs| > 0
  {
    Sum(xs) as real / |xs| as real
  }

  lemma MeanTimesCount(xs: seq<int>)
    requires |xs| > 0
    ensures Mean(xs) * (|xs| as real) == Sum(xs) as real
  {
  }

  /** Python's `int()` on a number: it drops the fraction, rounding toward zero. */
  function Truncate(r: real): (t: int)
    ensures r >= 0.0 ==> 0 <= t && t as real <= r < t as real + 1.0
    ensures r < 0.0 ==> t <= 0 && t as real - 1.0 < r <= t as real
  {
    if r >= 0.0 then r.Floor else -((-r).Floor)
  }

  // ---------------------------------------------------------------------------
  // Bounds on a mean
  // ---------------------------------------------------------------------------

  lemma {:induction false} SumAtLeast(xs: seq<int>, lo: int)
    requires forall i :: 0 <= i < |xs| ==> lo <= xs[i]
    ensures lo * |xs| <= Sum(xs)
  {
    if |xs| > 0 {
      SumAtLeast(xs[1..], lo);
      assert lo * |xs| == lo + lo * (|xs| - 1);
    }
  }

  lemma {:induction false} SumAtMost(xs: seq<int>, hi: int)
    requires forall i :: 0 <= i < |xs| ==> xs[i] <= hi
    ensures Sum(xs) <= hi * |xs|
  {
    if |xs| > 0 {
      SumAtMost(xs[1..], hi);
      assert hi * |xs| == hi + hi * (|xs| - 1);
    }
  }

  /** A mean is no smaller than a lower bound of its values. */
  lemma MeanAtLeast(xs: seq<int>, lo: int)
    requires |xs| > 0
    requires forall i :: 0 <= i < |xs| ==> lo <= xs[i]
    ensures lo as real <= Mean(xs)
  {
    SumAtLeast(xs, lo);
    MeanTimesCount(xs);
    CastProduct(lo, |xs|);
    ScaleLe(lo as real, Mean(xs), |xs| as real);
  }

  /** A mean is no larger than an upper bound of its values. */
  lemma MeanAtMost(xs: seq<int>, hi: int)
    requires |xs| > 0
    requires forall i :: 0 <= i < |xs| ==> xs[i] <= hi
    ensures Mean(xs) <= hi as real
  {
    SumAtMost(xs, hi);
    MeanTimesCount(xs);
    CastProduct(hi, |xs|);
    ScaleLe(Mean(xs), hi as real, |xs| as real);
  }

  /** Scaling both sides by a positive factor keeps an inequality. */
  lemma ScaleLe(a: real, b: real, c: real)
    requires c > 0.0
    ensures a <= b <==> a * c <= b * c
  {
    if a <= b {
      assert (b - a) * c >= 0.0;
    } else {
      assert (a - b) * c > 0.0;
    }
  }

  lemma CastProduct(a: int, b: int)
    ensures (a * b) as real == (a as real) * (b as real)
  {
  }

  // ---------------------------------------------------------------------------
  // int() of a mean
  // ---------------------------------------------------------------------------

  lemma QuotientBetween(q: real, x: real, n: real, s: real)
    requires n > 0.0 && x * n == s
    requires q * n <= s < (q + 1.0) * n
    ensures q <= x < q + 1.0
  {
    ScaleLe(q, x, n);
    ScaleLe(q + 1.0, x, n);
  }

  lemma FloorIs(x: real, q: int)
    requires q as real <= x < q as real + 1.0
    ensures x.Floor == q
  {
    var f := x.Floor;
    assert f as real <= x < f as real + 1.0;
    assert f as real < q as real + 1.0;
    assert q as real < f as real + 1.0;
  }

  /** Real division of naturals, rounded down, is Dafny's integer division. */
  lemma FloorOfQuotient(s: int, n: int)
    requires s >= 0 && n > 0
    ensures (s as real) / (n as real) >= 0.0
    ensures ((s as real) / (n as real)).Floor == s / n
  {
    var q := s / n;
    assert q * n <= s < (q + 1) * n;
    CastProduct(q, n);
    CastProduct(q + 1, n);
    var x := (s as real) / (n as real);
    QuotientBetween(q as real, x, n as real, s as real);
    FloorIs(x, q);
  }

  /**
   * For n values whose sum s is not negative, `int(mean(xs))` is the integer
   * quotient of the sum by the count: no floating point is needed.
   */
  lemma TruncatedMeanIsQuotient(xs: seq<int>, s: int, n: int)
    requires |xs| == n > 0 && Sum(xs) == s >= 0
    ensures Truncate(Mean(xs)) == s / n
  {
    FloorOfQuotient(s, n);
  }

  lemma QuotientNonNegative(a: int, b: int)
    requires a >= 0 && b > 0
    ensures a / b >= 0
  {
  }

  // ---------------------------------------------------------------------------
  // Sample variance and the integer threshold test
  // ---------------------------------------------------------------------------

  /**
   * The sum of squared deviations of `xs` from `m`, added up in one pass from a
   * running total of 0. `SumOfSquaredDeviations` below is the same sum written as
   * plain recursion, and `AccumulatedIsSum` proves the two equal. The sample
   * variance uses this running-total form because unfolding it one step adds no
   * arithmetic fact about the mean, which keeps the proofs about the variance small.
   */
  function SquaredDeviations(xs: seq<int>, m: real): real {
    AccumulateSquaredDeviations(xs, m, 0.0)
  }

  /** Adds the squared deviation of each value of `xs` from `m` to the running total `acc`, first value first. */
  function AccumulateSquaredDeviations(xs: seq<int>, m: real, acc: real): real {
    if |xs| == 0 then acc
    else AccumulateSquaredDeviations(xs[1..], m, acc + (xs[0] as real - m) * (xs[0] as real - m))
  }

  /** The sum of squared deviations as a recursive sum: (x0 - m)^2 plus the sum over the rest. */
  function SumOfSquaredDeviations(xs: seq<int>, m: real): real {
    if |xs| == 0 then 0.0 else (xs[0] as real - m) * (xs[0] as real - m) + SumOfSquaredDeviations(xs[1..], m)
  }

  /** The running total ends at its start value plus the recursive sum. */
  lemma {:induction false} AccumulatedIsSum(xs: seq<int>, m: real, acc: real)
    ensures AccumulateSquaredDeviations(xs, m, acc) == acc + SumOfSquaredDeviations(xs, m)
  {
    if |xs| > 0 {
      AccumulatedIsSum(xs[1..], m, acc + (xs[0] as real - m) * (xs[0] as real - m));
    }
  }

  /** The sample variance (divisor n - 1): the square of what `statistics.stdev` returns. */
  function SampleVariance(xs: seq<int>): real
    requires |xs| >= 2
  {
    SquaredDeviations(xs, Mean(xs)) / (|xs| - 1) as real
  }

  /** n * (sum of squares) - (sum)^2, which is n * (n - 1) times the sample variance. */
  function Dispersion(xs: seq<int>): int {
    |xs| * SumSquares(xs) - Sum(xs) * Sum(xs)
  }

  /** q - 2ms + nm^2: the squared deviations from m, written with the count n, sum s and sum of squares q. */
  function Expanded(q: real, s: real, n: real, m: real): real {
    q - 2.0 * m * s + n * m * m
  }

  lemma ExpandStep(x: real, m: real, q: real, s: real, n: real)
    ensures (x - m) * (x - m) + Expanded(q, s, n, m) == Expanded(x * x + q, x + s, n + 1.0, m)
  {
  }

  lemma SumsStep(xs: seq<int>)
    requires |xs| > 0
    ensures SumSquares(xs) as real == (xs[0] as real) * (xs[0] as real) + SumSquares(xs[1..]) as real
    ensures Sum(xs) as real == xs[0] as real + Sum(xs[1..]) as real
    ensures |xs| as real == |xs[1..]| as real + 1.0
  {
    CastProduct(xs[0], xs[0]);
  }

  /** The squared deviations from any m, in terms of the count, the sum and the sum of squares. */
  lemma SquaredDeviationsExpand(xs: seq<int>, m: real)
    ensures SquaredDeviations(xs, m) == Expanded(SumSquares(xs) as real, Sum(xs) as real, |xs| as real, m)
  {
    AccumulatedIsSum(xs, m, 0.0);
    SumOfSquaredDeviationsExpand(xs, m);
  }

  lemma {:induction false} SumOfSquaredDeviationsExpand(xs: seq<int>, m: real)
    ensures SumOfSquaredDeviations(xs, m) == Expanded(SumSquares(xs) as real, Sum(xs) as real, |xs| as real, m)
  {
    if |xs| > 0 {
      var rest := xs[1..];
      SumOfSquaredDeviationsExpand(rest, m);
      SumsStep(xs);
      ExpandStep(xs[0] as real, m, SumSquares(rest) as real, Sum(rest) as real, |rest| as real);
    }
  }

  lemma DeviationAlgebra(n: real, s: real, q: real, m: real, dev: real)
    requires m * n == s
    requires dev == q - 2.0 * m * s + n * m * m
    ensures n * dev == n * q - s * s
  {
    assert n * dev == n * q - 2.0 * (m * n) * s + (m * n) * (m * n);
  }

  lemma ScaleQuotient(v: real, dev: real, n: real, n1: real, w: real)
    requires n1 > 0.0 && v == dev / n1 && w == n * n1
    ensures v * w == n * dev
  {
    assert v * n1 == dev;
    assert v * (n * n1) == n * (v * n1);
  }

  /** The variance identity on plain numbers: n values of sum s and sum of squares q, mean m. */
  lemma VarianceFromSums(n: int, s: int, q: int, m: real, dev: real, v: real)
    requires n >= 2 && m * (n as real) == s as real
    requires dev == Expanded(q as real, s as real, n as real, m)
    requires v == dev / (n - 1) as real
    ensures v * ((n * (n - 1)) as real) == (n * q - s * s) as real
  {
    assert dev == q as real - 2.0 * m * (s as real) + (n as real) * m * m;
    DeviationAlgebra(n as real, s as real, q as real, m, dev);
    CastProduct(n, n - 1);
    CastProduct(n, q);
    CastProduct(s, s);
    ScaleQuotient(v, dev, n as real, (n - 1) as real, (n * (n - 1)) as real);
  }

  /** The sample variance times n(n - 1) is the dispersion n * (sum of squares) - (sum)^2. */
  lemma VarianceIdentity(xs: seq<int>)
    requires |xs| >= 2
    ensures SampleVariance(xs) * ((|xs| * (|xs| - 1)) as real) == Dispersion(xs) as real
  {
    var n, s, q, m := |xs|, Sum(xs), SumSquares(xs), Mean(xs);
    var dev := SquaredDeviations(xs, m);
    var v := SampleVariance(xs);
    SquaredDeviationsExpand(xs, m);
    MeanTimesCount(xs);
    assert v == dev / (n - 1) as real;
    VarianceFromSums(n, s, q, m, dev, v);
    assert Dispersion(xs) == n * q - s * s;
  }

  /**
   * The standard deviation is at most `k` exactly when the sample variance is at
   * most `k * k`, which holds exactly when the dispersion is at most k^2 n (n - 1).
   */
  lemma VarianceAtMost(xs: seq<int>, k: nat)
    requires |xs| >= 2
    ensures SampleVariance(xs) <= (k * k) as real <==> Dispersion(xs) <= k * k * (|xs| * (|xs| - 1))
  {
    VarianceIdentity(xs);
    ScaledBound(SampleVariance(xs), k * k, |xs|, Dispersion(xs));
  }

  /** Comparing v with a bound is comparing v * n(n - 1) with the bound scaled alike. */
  lemma ScaledBound(v: real, bound: int, n: int, d: int)
    requires n >= 2
    requires v * ((n * (n - 1)) as real) == d as real
    ensures v <= bound as real <==> d <= bound * (n * (n - 1))
  {
    var w := n * (n - 1);
    assert w > 0;
    CastProduct(bound, w);
    ScaleLe(v, bound as real, w as real);
  }

  /** The two standard deviation thresholds shared by both labellings, in days. */
  const TightStdev: nat := 2
  const ModerateStdev: nat := 5

  /** How widely a list of cycle lengths spreads: stdev <= 2, 2 < stdev <= 5, stdev > 5. */
  datatype Spread = Tight | Moderate | Wide

  /** The band of `xs`, decided on integers only. */
  function SpreadOf(xs: seq<int>): Spread
    requires |xs| >= 2
  {
    var w := |xs| * (|xs| - 1);
    var d := Dispersion(xs);
    if d <= TightStdev * TightStdev * w then Tight
    else if d <= ModerateStdev * ModerateStdev * w then Moderate
    else Wide
  }

  /** The integer test picks the band the sample variance falls in. */
  lemma SpreadBands(xs: seq<int>)
    requires |xs| >= 2
    ensures SpreadOf(xs) == Tight <==> SampleVariance(xs) <= (TightStdev * TightStdev) as real
    ensures SpreadOf(xs) == Moderate
        <==> (TightStdev * TightStdev) as real < SampleVariance(xs) <= (ModerateStdev * ModerateStdev) as real
    ensures SpreadOf(xs) == Wide <==> SampleVariance(xs) > (ModerateStdev * ModerateStdev) as real
  {
    VarianceAtMost(xs, TightStdev);
    VarianceAtMost(xs, ModerateStdev);
  }
}
