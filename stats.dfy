/** Sample statistics over price series: the mean (Python's
    statistics.mean, pandas' rolling mean) and the sample variance with the
    N - 1 divisor (statistics.stdev, pandas' rolling std, squared). */
module Stats {

  function Sum(xs: seq<real>): real
  {
    if xs == [] then 0.0 else Sum(xs[..|xs| - 1]) + xs[|xs| - 1]
  }

  function Mean(xs: seq<real>): real
    requires |xs| > 0
  {
    Sum(xs) / (|xs| as real)
  }

  /** Sum of squared deviations from `m`. */
  function SquaredDeviations(xs: seq<real>, m: real): real
  {
    if xs == [] then 0.0
    else SquaredDeviations(xs[..|xs| - 1], m) + (xs[|xs| - 1] - m) * (xs[|xs| - 1] - m)
  }

  /** Sample variance (Bessel-corrected); undefined below two samples. */
  function SampleVariance(xs: seq<real>): real
    requires |xs| >= 2
  {
    SquaredDeviations(xs, Mean(xs)) / ((|xs| - 1) as real)
  }

  /** `sd` is the sample standard deviation of `xs`: the non-negative root
      of the sample variance. */
  ghost predicate IsSampleStdev(sd: real, xs: seq<real>)
    requires |xs| >= 2
  {
    sd >= 0.0 && sd * sd == SampleVariance(xs)
  }

  ghost predicate AllAtLeast(xs: seq<real>, lo: real)
  {
    forall i :: 0 <= i < |xs| ==> lo <= xs[i]
  }

  ghost predicate AllAtMost(xs: seq<real>, hi: real)
  {
    forall i :: 0 <= i < |xs| ==> xs[i] <= hi
  }

  lemma {:induction false} SumBounds(xs: seq<real>, lo: real, hi: real)
    requires AllAtLeast(xs, lo) && AllAtMost(xs, hi)
    ensures (|xs| as real) * lo <= Sum(xs) <= (|xs| as real) * hi
  {
    if xs != [] {
      var init := xs[..|xs| - 1];
      assert AllAtLeast(init, lo) && AllAtMost(init, hi) by {
        forall i | 0 <= i < |init| ensures lo <= init[i] <= hi {
          assert init[i] == xs[i];
        }
      }
      SumBounds(init, lo, hi);
      assert (|xs| as real) * lo == (|init| as real) * lo + lo;
      assert (|xs| as real) * hi == (|init| as real) * hi + hi;
    }
  }

  /** The mean lies between any lower and any upper bound of the samples. */
  lemma MeanBounds(xs: seq<real>, lo: real, hi: real)
    requires |xs| > 0 && AllAtLeast(xs, lo) && AllAtMost(xs, hi)
    ensures lo <= Mean(xs) <= hi
  {
    SumBounds(xs, lo, hi);
    var n := |xs| as real;
    assert n * lo <= Sum(xs) <= n * hi;
    DivMonotone(n * lo, Sum(xs), n);
    DivMonotone(Sum(xs), n * hi, n);
    CancelFactor(n, lo);
    CancelFactor(n, hi);
  }

  lemma CancelFactor(n: real, x: real)
    requires n > 0.0
    ensures (n * x) / n == x
  {}

  lemma DivMonotone(a: real, b: real, n: real)
    requires a <= b && n > 0.0
    ensures a / n <= b / n
  {
    assert a / n == a * (1.0 / n) && b / n == b * (1.0 / n);
  }

  lemma {:induction false} SquaredDeviationsNonnegative(xs: seq<real>, m: real)
    ensures SquaredDeviations(xs, m) >= 0.0
  {
    if xs != [] {
      SquaredDeviationsNonnegative(xs[..|xs| - 1], m);
      var d := xs[|xs| - 1] - m;
      assert d * d >= 0.0;
    }
  }

  lemma SampleVarianceNonnegative(xs: seq<real>)
    requires |xs| >= 2
    ensures SampleVariance(xs) >= 0.0
  {
    SquaredDeviationsNonnegative(xs, Mean(xs));
    DivMonotone(0.0, SquaredDeviations(xs, Mean(xs)), (|xs| - 1) as real);
  }

  lemma {:induction false} SquaredDeviationsOfConstant(xs: seq<real>, c: real)
    requires AllAtLeast(xs, c) && AllAtMost(xs, c)
    ensures SquaredDeviations(xs, c) == 0.0
  {
    if xs != [] {
      var init := xs[..|xs| - 1];
      assert AllAtLeast(init, c) && AllAtMost(init, c) by {
        forall i | 0 <= i < |init| ensures init[i] == c {
          assert init[i] == xs[i];
        }
      }
      SquaredDeviationsOfConstant(init, c);
      assert xs[|xs| - 1] == c;
    }
  }

  /** A constant series has that constant as its mean and no variance, so its
      sample standard deviation is 0. */
  lemma ConstantSeriesStats(xs: seq<real>, c: real, sd: real)
    requires |xs| >= 2 && AllAtLeast(xs, c) && AllAtMost(xs, c)
    requires IsSampleStdev(sd, xs)
    ensures Mean(xs) == c && SampleVariance(xs) == 0.0 && sd == 0.0
  {
    MeanBounds(xs, c, c);
    SquaredDeviationsOfConstant(xs, c);
    assert SampleVariance(xs) == 0.0;
    ZeroProduct(sd, sd);
  }

  lemma ZeroProduct(a: real, b: real)
    requires a * b == 0.0 && a >= 0.0 && b >= 0.0
    ensures a == 0.0 || b == 0.0
  {}
}
