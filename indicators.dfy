/** Technical indicators over a candle source column (close prices by
    default): Bollinger bands from a trailing rolling window, and the Relative
    Strength Index from non-adjusted exponentially weighted averages of gains
    and losses. The pandas columns become sequences; pandas' NaN becomes None. */
module Indicators {
  import opened Types
  import opened Stats

  // ---------------------------------------------------------------------------
  // Bollinger bands
  // ---------------------------------------------------------------------------

  /** One output record: lower band, simple moving average, upper band. */
  datatype BandRow = BandRow(boll: Option<real>, sma: real, bolu: Option<real>)

  /** What pandas raises while an indicator is built: a DataFrame made from no
      candles has no source column (KeyError), and a rolling window of length
      0 is below its min_periods of 1 (ValueError). */
  datatype IndicatorError = MissingColumn | WindowTooSmall

  /** create_indicator's outcome: the columns, or the exception it raises. */
  datatype Built<T> = Computed(value: T) | Raised(error: IndicatorError)

  /** The trailing window of at most `length` values ending at index i
      (a rolling window with min_periods=1 narrows at the start). */
  function Window(xs: seq<real>, i: nat, length: nat): (w: seq<real>)
    requires length >= 1 && i < |xs|
    ensures |w| == if i + 1 < length then i + 1 else length
    ensures forall j :: 0 <= j < |w| ==> w[j] == xs[i + 1 - |w| + j]
  {
    if i + 1 < length then xs[..i + 1] else xs[i + 1 - length .. i + 1]
  }

  /** `stdev` returns the sample standard deviation of every window of two or
      more values; pandas' rolling std stands behind it. */
  ghost predicate IsSampleStdevFunction(stdev: seq<real> -> real)
  {
    forall w: seq<real> {:trigger stdev(w)} :: |w| >= 2 ==> IsSampleStdev(stdev(w), w)
  }

  /** Row i: the window mean, and the bands at numStdev deviations from it. The
      sample deviation of a one-value window is NaN, so its bands are None. */
  function BandAt(xs: seq<real>, i: nat, length: nat, numStdev: real, stdev: seq<real> -> real): (row: BandRow)
    requires length >= 1 && i < |xs|
    ensures row.bolu.None? <==> row.boll.None?
    ensures row.bolu.None? <==> i == 0 || length == 1
    ensures row.bolu.Some? ==> row.bolu.value - row.sma == row.sma - row.boll.value
  {
    var w := Window(xs, i, length);
    var sma := Mean(w);
    if |w| < 2 then BandRow(None, sma, None)
    else BandRow(Some(sma - stdev(w) * numStdev), sma, Some(sma + stdev(w) * numStdev))
  }

  /** BollingerBands.create_indicator as called: the source column is looked
      up before the window is built, so no candles raise KeyError whatever
      the length, and a zero length raises ValueError. */
  function BollingerIndicator(xs: seq<real>, length: nat, numStdev: real, stdev: seq<real> -> real): (r: Built<seq<BandRow>>)
    ensures r == Raised(MissingColumn) <==> xs == []
    ensures r == Raised(WindowTooSmall) <==> xs != [] && length == 0
    ensures r.Computed? ==> length >= 1 && |r.value| == |xs| > 0
    ensures r.Computed? ==> forall i :: 0 <= i < |xs| ==> r.value[i] == BandAt(xs, i, length, numStdev, stdev)
  {
    if xs == [] then Raised(MissingColumn)
    else if length == 0 then Raised(WindowTooSmall)
    else Computed(Bollinger(xs, length, numStdev, stdev))
  }

  /** The columns of BollingerBands.create_indicator: one record per candle. */
  function Bollinger(xs: seq<real>, length: nat, numStdev: real, stdev: seq<real> -> real): (rows: seq<BandRow>)
    requires length >= 1
    ensures |rows| == |xs|
  {
    seq(|xs|, i requires 0 <= i < |xs| => BandAt(xs, i, length, numStdev, stdev))
  }

  /** Row i's average is the mean of the last min(length, i + 1) values, and
      its bands are undefined exactly for a one-value window: at row 0, or
      everywhere when length is 1. A defined band lies numStdev deviations of
      that window above (bolu) or below (boll) the average, the deviation
      being the window's sample deviation whenever `stdev` computes one. */
  lemma BollingerRows(xs: seq<real>, length: nat, numStdev: real, stdev: seq<real> -> real, i: nat)
    requires length >= 1 && i < |xs|
    ensures var r := Bollinger(xs, length, numStdev, stdev)[i];
            var n := if i + 1 < length then i + 1 else length;
            var w := xs[i + 1 - n .. i + 1];
            && r.sma == Mean(w)
            && (r.boll.None? <==> (i == 0 || length == 1))
            && (r.bolu.None? <==> (i == 0 || length == 1))
            && (r.bolu.Some? ==> r.bolu.value == r.sma + numStdev * stdev(w))
            && (r.boll.Some? ==> r.boll.value == r.sma - numStdev * stdev(w))
            && (r.bolu.Some? && IsSampleStdevFunction(stdev) ==>
                  var sd := stdev(w); sd >= 0.0 && sd * sd == SampleVariance(w))
  {
    var w := Window(xs, i, length);
    var n := if i + 1 < length then i + 1 else length;
    assert w == xs[i + 1 - n .. i + 1];
  }

  /** With non-negative numStdev and a genuine sample deviation, every defined
      row has boll <= sma <= bolu, symmetric around sma. */
  lemma BandsOrdered(xs: seq<real>, length: nat, numStdev: real, stdev: seq<real> -> real, i: nat)
    requires length >= 1 && i < |xs|
    requires numStdev >= 0.0 && IsSampleStdevFunction(stdev)
    ensures var r := Bollinger(xs, length, numStdev, stdev)[i];
            r.boll.Some? ==>
              (&& r.bolu.Some?
               && r.boll.value <= r.sma <= r.bolu.value
               && r.bolu.value - r.sma == r.sma - r.boll.value)
  {
    var w := Window(xs, i, length);
    if |w| >= 2 {
      assert IsSampleStdev(stdev(w), w);
      assert stdev(w) * numStdev >= 0.0;
    }
  }

  /** The moving average stays within any bounds of the source values. */
  lemma SmaWithinBounds(xs: seq<real>, length: nat, numStdev: real, stdev: seq<real> -> real,
                        i: nat, lo: real, hi: real)
    requires length >= 1 && i < |xs|
    requires AllAtLeast(xs, lo) && AllAtMost(xs, hi)
    ensures lo <= Bollinger(xs, length, numStdev, stdev)[i].sma <= hi
  {
    var w := Window(xs, i, length);
    assert AllAtLeast(w, lo) && AllAtMost(w, hi) by {
      forall j | 0 <= j < |w| ensures lo <= w[j] <= hi {
        assert w[j] == xs[i + 1 - |w| + j];
      }
    }
    MeanBounds(w, lo, hi);
  }

  /** On a flat price series the bands collapse onto the average. */
  lemma FlatSeriesBands(xs: seq<real>, c: real, length: nat, numStdev: real, stdev: seq<real> -> real, i: nat)
    requires length >= 2 && 1 <= i < |xs|
    requires AllAtLeast(xs, c) && AllAtMost(xs, c) && IsSampleStdevFunction(stdev)
    ensures Bollinger(xs, length, numStdev, stdev)[i] == BandRow(Some(c), c, Some(c))
  {
    var w := Window(xs, i, length);
    assert AllAtLeast(w, c) && AllAtMost(w, c) by {
      forall j | 0 <= j < |w| ensures w[j] == c {
        assert w[j] == xs[i + 1 - |w| + j];
      }
    }
    assert IsSampleStdev(stdev(w), w);
    ConstantSeriesStats(w, c, stdev(w));
  }

  // ---------------------------------------------------------------------------
  // Relative Strength Index
  // ---------------------------------------------------------------------------

  /** `diff()` without its leading NaN: d[j] is x[j + 1] - x[j]. */
  function Deltas(xs: seq<real>): (d: seq<real>)
    ensures |d| == if xs == [] then 0 else |xs| - 1
    ensures forall j :: 0 <= j < |d| ==> d[j] == xs[j + 1] - xs[j]
  {
    if |xs| <= 1 then [] else seq(|xs| - 1, j requires 0 <= j < |xs| - 1 => xs[j + 1] - xs[j])
  }

  /** `clip(lower=0)`. */
  function Gain(d: real): real { if d > 0.0 then d else 0.0 }

  /** `-1 * clip(upper=0)`. */
  function Loss(d: real): real { -1.0 * (if d < 0.0 then d else 0.0) }

  /** Gains and losses are never negative, at most one is non-zero, and
      their difference gives back the price change. */
  lemma GainLossSplit(d: real)
    ensures Gain(d) >= 0.0 && Loss(d) >= 0.0
    ensures Gain(d) - Loss(d) == d
    ensures Gain(d) == 0.0 || Loss(d) == 0.0
  {}

  function Gains(ds: seq<real>): (g: seq<real>)
    ensures |g| == |ds|
  {
    seq(|ds|, j requires 0 <= j < |ds| => Gain(ds[j]))
  }

  function Losses(ds: seq<real>): (l: seq<real>)
    ensures |l| == |ds|
  {
    seq(|ds|, j requires 0 <= j < |ds| => Loss(ds[j]))
  }

  /** The smoothing factor for center of mass `com`: 1 / (1 + com). */
  function Alpha(com: nat): (a: real)
    ensures 0.0 < a <= 1.0
  {
    1.0 / (1.0 + com as real)
  }

  /** One smoothing step: move a fraction alpha from p towards x. */
  function Blend(p: real, x: real, alpha: real): real
  {
    (1.0 - alpha) * p + alpha * x
  }

  /** `ewm(alpha, adjust=False).mean()` over the defined values: the first
      average is the first value, each later one moves a fraction alpha from
      the previous average towards the new value. */
  function Ewma(v: seq<real>, alpha: real): (e: seq<real>)
    ensures |e| == |v|
  {
    if |v| <= 1 then v
    else
      var prev := Ewma(v[..|v| - 1], alpha);
      prev + [Blend(prev[|prev| - 1], v[|v| - 1], alpha)]
  }

  /** The recursion e[0] = v[0], e[t] = (1 - alpha) e[t - 1] + alpha v[t],
      read index by index. */
  lemma {:induction false} EwmaRecurrence(v: seq<real>, alpha: real, t: nat)
    requires t < |v|
    ensures t == 0 ==> Ewma(v, alpha)[0] == v[0]
    ensures t > 0 ==> Ewma(v, alpha)[t] == (1.0 - alpha) * Ewma(v, alpha)[t - 1] + alpha * v[t]
  {
    if |v| > 1 && t < |v| - 1 {
      var init := v[..|v| - 1];
      EwmaRecurrence(init, alpha, t);
      assert Ewma(v, alpha)[t] == Ewma(init, alpha)[t];
      if t > 0 {
        assert Ewma(v, alpha)[t - 1] == Ewma(init, alpha)[t - 1];
      }
    }
  }

  /** The next average is a weighted mean of the previous one and the new
      value, with weight alpha in (0, 1] on the new value. */
  lemma BlendBetween(p: real, x: real, alpha: real)
    requires 0.0 < alpha <= 1.0
    ensures p <= x ==> p <= Blend(p, x, alpha) <= x
    ensures x <= p ==> x <= Blend(p, x, alpha) <= p
    ensures p < x ==> p < Blend(p, x, alpha)
  {
    var d := x - p;
    var m := alpha * d;
    var n := (1.0 - alpha) * d;
    assert Blend(p, x, alpha) == p + m;
    assert Blend(p, x, alpha) == x - n;
    if p <= x {
      ProductNonnegative(alpha, d);
      ProductNonnegative(1.0 - alpha, d);
    }
    if x <= p {
      ProductNonnegative(alpha, -d);
      ProductNonnegative(1.0 - alpha, -d);
      assert m == -(alpha * -d) && n == -((1.0 - alpha) * -d);
    }
    if p < x {
      ProductPositive(alpha, d);
    }
  }

  lemma ProductNonnegative(a: real, b: real)
    requires a >= 0.0 && b >= 0.0
    ensures a * b >= 0.0
  {}

  lemma ProductPositive(a: real, b: real)
    requires a > 0.0 && b > 0.0
    ensures a * b > 0.0
  {}

  /** Ewma of v is the Ewma of v without its last value, extended by one. */
  lemma EwmaSnoc(v: seq<real>, alpha: real)
    requires |v| > 1
    ensures var prev := Ewma(v[..|v| - 1], alpha);
            && Ewma(v, alpha) == prev + [Blend(prev[|prev| - 1], v[|v| - 1], alpha)]
            && forall j :: 0 <= j < |prev| ==> Ewma(v, alpha)[j] == prev[j]
  {}

  /** The averages never fall below a lower bound of their inputs; averages
      of gains and of losses are never negative. */
  lemma {:induction false} EwmaLowerBound(v: seq<real>, alpha: real, lo: real)
    requires 0.0 < alpha <= 1.0 && AllAtLeast(v, lo)
    ensures AllAtLeast(Ewma(v, alpha), lo)
  {
    if |v| > 1 {
      var init := v[..|v| - 1];
      assert AllAtLeast(init, lo) by {
        forall j | 0 <= j < |init| ensures lo <= init[j] {
          assert init[j] == v[j];
        }
      }
      EwmaLowerBound(init, alpha, lo);
      EwmaSnoc(v, alpha);
      var prev := Ewma(init, alpha);
      BlendBetween(prev[|prev| - 1], v[|v| - 1], alpha);
    }
  }

  /** The averages never rise above an upper bound of their inputs. */
  lemma {:induction false} EwmaUpperBound(v: seq<real>, alpha: real, hi: real)
    requires 0.0 < alpha <= 1.0 && AllAtMost(v, hi)
    ensures AllAtMost(Ewma(v, alpha), hi)
  {
    if |v| > 1 {
      var init := v[..|v| - 1];
      assert AllAtMost(init, hi) by {
        forall j | 0 <= j < |init| ensures init[j] <= hi {
          assert init[j] == v[j];
        }
      }
      EwmaUpperBound(init, alpha, hi);
      EwmaSnoc(v, alpha);
      var prev := Ewma(init, alpha);
      BlendBetween(prev[|prev| - 1], v[|v| - 1], alpha);
    }
  }

  /** Averages of inputs all strictly above a bound stay strictly above it. */
  lemma {:induction false} EwmaStrictLowerBound(v: seq<real>, alpha: real, lo: real)
    requires 0.0 < alpha <= 1.0
    requires forall j :: 0 <= j < |v| ==> lo < v[j]
    ensures forall j :: 0 <= j < |v| ==> lo < Ewma(v, alpha)[j]
  {
    if |v| > 1 {
      var init := v[..|v| - 1];
      assert forall j :: 0 <= j < |init| ==> lo < init[j] by {
        forall j | 0 <= j < |init| ensures lo < init[j] {
          assert init[j] == v[j];
        }
      }
      EwmaStrictLowerBound(init, alpha, lo);
      EwmaSnoc(v, alpha);
      var prev := Ewma(init, alpha);
      BlendBetween(prev[|prev| - 1], v[|v| - 1], alpha);
    }
  }

  lemma GainsLossesNonnegative(ds: seq<real>)
    ensures AllAtLeast(Gains(ds), 0.0) && AllAtLeast(Losses(ds), 0.0)
  {
    forall j | 0 <= j < |ds| ensures Gains(ds)[j] >= 0.0 && Losses(ds)[j] >= 0.0 {
      GainLossSplit(ds[j]);
    }
  }

  /** 100 - 100 / (1 + up / down) with pandas' float division: a zero
      `down` gives rs = inf and RSI 100 when up > 0, and NaN (None) when up is
      also 0. */
  function RsiOf(up: real, down: real): (r: Option<real>)
    requires up >= 0.0 && down >= 0.0
    ensures r.None? <==> up == 0.0 && down == 0.0
    ensures down == 0.0 && up > 0.0 ==> r == Some(100.0)
    ensures r.Some? ==> 0.0 <= r.value <= 100.0
    ensures down > 0.0 ==> r.value < 100.0
  {
    if down > 0.0 then Some(100.0 - 100.0 / (1.0 + up / down))
    else if up > 0.0 then Some(100.0)
    else None
  }

  /** RelativeStrengthIndicator.create_indicator as called: no candles
      raise KeyError on the source column; otherwise one value per candle, the
      first undefined. */
  function RsiIndicator(xs: seq<real>, length: nat): (r: Built<seq<Option<real>>>)
    ensures r == Raised(MissingColumn) <==> xs == []
    ensures r.Raised? ==> r.error == MissingColumn
    ensures r.Computed? ==> |r.value| == |xs| > 0 && r.value[0] == None
    ensures r.Computed? ==> r.value == Rsi(xs, length)
  {
    if xs == [] then Raised(MissingColumn) else Computed(Rsi(xs, length))
  }

  /** The column of RelativeStrengthIndicator.create_indicator: one value per
      candle; the first is NaN because diff() has no earlier price. */
  function Rsi(xs: seq<real>, length: nat): (r: seq<Option<real>>)
    ensures |r| == |xs|
    ensures |xs| > 0 ==> r[0] == None
  {
    if xs == [] then []
    else
      var ds := Deltas(xs);
      var up := Ewma(Gains(ds), Alpha(length));
      var down := Ewma(Losses(ds), Alpha(length));
      assert AllAtLeast(up, 0.0) && AllAtLeast(down, 0.0) by {
        GainsLossesNonnegative(ds);
        EwmaLowerBound(Gains(ds), Alpha(length), 0.0);
        EwmaLowerBound(Losses(ds), Alpha(length), 0.0);
      }
      [None] + seq(|ds|, j requires 0 <= j < |ds| => RsiOf(up[j], down[j]))
  }

  /** With a non-negative average gain and a positive average loss, RSI lies
      in [0, 100). */
  lemma RsiOfRange(up: real, down: real)
    requires up >= 0.0 && down > 0.0
    ensures RsiOf(up, down).Some?
    ensures 0.0 <= RsiOf(up, down).value < 100.0
  {
    var rs := up / down;
    assert rs >= 0.0;
    assert 100.0 / (1.0 + rs) <= 100.0 by {
      assert 100.0 == (1.0 + rs) * (100.0 / (1.0 + rs));
      assert 100.0 / (1.0 + rs) > 0.0;
    }
  }

  /** Every defined RSI value lies in [0, 100], and below 100 whenever the
      loss average is positive. */
  lemma RsiRange(xs: seq<real>, length: nat, t: nat)
    requires 1 <= t < |xs|
    ensures var v := Rsi(xs, length)[t];
            v.Some? ==> 0.0 <= v.value <= 100.0
    ensures Ewma(Losses(Deltas(xs)), Alpha(length))[t - 1] > 0.0 ==>
              Rsi(xs, length)[t].Some? && Rsi(xs, length)[t].value < 100.0
  {
    var ds := Deltas(xs);
    var up := Ewma(Gains(ds), Alpha(length));
    var down := Ewma(Losses(ds), Alpha(length));
    GainsLossesNonnegative(ds);
    EwmaLowerBound(Gains(ds), Alpha(length), 0.0);
    EwmaLowerBound(Losses(ds), Alpha(length), 0.0);
    assert Rsi(xs, length)[t] == RsiOf(up[t - 1], down[t - 1]);
    if down[t - 1] > 0.0 {
      RsiOfRange(up[t - 1], down[t - 1]);
    }
  }

  ghost predicate StrictlyIncreasing(xs: seq<real>)
  {
    forall i :: 0 < i < |xs| ==> xs[i - 1] < xs[i]
  }

  /** Closes that only ever rise have no losses, so from the second candle on
      RSI is 100. */
  lemma RsiOfRisingSeries(xs: seq<real>, length: nat, t: nat)
    requires StrictlyIncreasing(xs) && 1 <= t < |xs|
    ensures Rsi(xs, length)[t] == Some(100.0)
  {
    var ds := Deltas(xs);
    var a := Alpha(length);
    var gains, losses := Gains(ds), Losses(ds);
    assert forall j :: 0 <= j < |ds| ==> gains[j] > 0.0 by {
      forall j | 0 <= j < |ds| ensures gains[j] > 0.0 {
        assert ds[j] == xs[j + 1] - xs[j];
      }
    }
    assert AllAtLeast(losses, 0.0) && AllAtMost(losses, 0.0) by {
      forall j | 0 <= j < |ds| ensures losses[j] == 0.0 {
        assert ds[j] == xs[j + 1] - xs[j];
      }
    }
    EwmaStrictLowerBound(gains, a, 0.0);
    EwmaLowerBound(losses, a, 0.0);
    EwmaUpperBound(losses, a, 0.0);
    var up, down := Ewma(gains, a)[t - 1], Ewma(losses, a)[t - 1];
    assert up > 0.0 && down == 0.0;
    RsiAt(xs, length, t);
  }

  /** The RSI of candle `t` is that of the smoothed gain and loss at the
      price change ending at `t`. */
  lemma RsiAt(xs: seq<real>, length: nat, t: nat)
    requires 1 <= t < |xs|
    ensures var ds := Deltas(xs);
            var up := Ewma(Gains(ds), Alpha(length))[t - 1];
            var down := Ewma(Losses(ds), Alpha(length))[t - 1];
            up >= 0.0 && down >= 0.0 ==> Rsi(xs, length)[t] == RsiOf(up, down)
  {
    var ds := Deltas(xs);
    var ups, downs := Ewma(Gains(ds), Alpha(length)), Ewma(Losses(ds), Alpha(length));
    GainsLossesNonnegative(ds);
    EwmaLowerBound(Gains(ds), Alpha(length), 0.0);
    EwmaLowerBound(Losses(ds), Alpha(length), 0.0);
    var tail := seq(|ds|, j requires 0 <= j < |ds| => RsiOf(ups[j], downs[j]));
    assert Rsi(xs, length) == [None] + tail;
    assert ([None] + tail)[t] == tail[t - 1] == RsiOf(ups[t - 1], downs[t - 1]);
  }

  /** Fifteen rising closes with the default length 14 end at RSI 100. */
  lemma RsiRisingExample(xs: seq<real>)
    requires |xs| == 15 && StrictlyIncreasing(xs)
    ensures Rsi(xs, 14)[14] == Some(100.0)
  {
    RsiOfRisingSeries(xs, 14, 14);
  }
}
