/** Order sizing shared by the trend system and the mean-reversion bot:
    a notional divided by the index price, truncated to the market's step
    size, then raised to the exchange minimum. */
module Sizing {

  /** A value that is a whole number of steps. */
  ghost predicate IsStepMultiple(x: real, step: real)
    requires step > 0.0
  {
    (x / step).Floor as real == x / step
  }

  /** Python's float `x % step` for a non-zero step (zero raises
      ZeroDivisionError): the remainder has the sign of the divisor, so it
      lies in [0, step) for a positive step and in (step, 0] for a negative
      one. */
  function PyMod(x: real, step: real): (m: real)
    requires step != 0.0
    ensures step > 0.0 ==> 0.0 <= m < step
    ensures step < 0.0 ==> step < m <= 0.0
  {
    var q := (x / step).Floor as real;
    if step > 0.0 then
      FloorTimesStep(x, step);
      x - q * step
    else
      FloorTimesNegativeStep(x, step);
      x - q * step
  }

  /** Multiplying floor(x / step) <= x / step < floor(x / step) + 1 through by
      the positive step. */
  lemma FloorTimesStep(x: real, step: real)
    requires step > 0.0
    ensures (x / step).Floor as real * step <= x < ((x / step).Floor as real + 1.0) * step
  {
    var q := (x / step).Floor as real;
    var d := x / step;
    assert q <= d < q + 1.0;
    assert x == d * step;
    MulLeq(q, d, step);
    MulLess(d, q + 1.0, step);
    assert x < (q + 1.0) * step;
  }

  /** The same through a negative step, which reverses the inequalities. */
  lemma FloorTimesNegativeStep(x: real, step: real)
    requires step < 0.0
    ensures ((x / step).Floor as real + 1.0) * step < x <= (x / step).Floor as real * step
  {
    var q := (x / step).Floor as real;
    var d := x / step;
    var c := -step;
    assert q <= d < q + 1.0;
    assert x == d * step;
    MulLeq(q, d, c);
    MulLess(d, q + 1.0, c);
    Negate(q, c);
    Negate(d, c);
    Negate(q + 1.0, c);
    assert q * step == -(q * c);
    assert d * step == -(d * c);
    assert (q + 1.0) * step == -((q + 1.0) * c);
    assert x <= q * step;
    assert (q + 1.0) * step < x;
  }

  lemma Negate(a: real, c: real)
    ensures a * -c == -(a * c)
  {}

  lemma MulLeq(a: real, b: real, c: real)
    requires a <= b && c > 0.0
    ensures a * c <= b * c
  {}

  lemma MulLess(a: real, b: real, c: real)
    requires a < b && c > 0.0
    ensures a * c < b * c
  {}

  /** `size - size % step`: the size truncated to whole steps. */
  function StepFloor(x: real, step: real): real
    requires step != 0.0
  {
    x - PyMod(x, step)
  }

  /** The truncated size is a whole number of steps, not above the raw size,
      and less than one step below it. */
  lemma StepFloorBounds(x: real, step: real)
    requires step > 0.0
    ensures IsStepMultiple(StepFloor(x, step), step)
    ensures StepFloor(x, step) <= x < StepFloor(x, step) + step
  {
    var k := (x / step).Floor;
    assert StepFloor(x, step) == k as real * step;
    assert (k as real * step) / step == k as real;
  }

  /** Truncation never rounds down past a whole number of steps that is
      itself not above the raw size: it yields the greatest such multiple. */
  lemma StepFloorGreatest(x: real, step: real, m: real)
    requires step > 0.0
    requires IsStepMultiple(m, step) && m <= x
    ensures m <= StepFloor(x, step)
  {
    var k := (x / step).Floor;
    var j := (m / step).Floor;
    assert StepFloor(x, step) == k as real * step;
    assert m / step <= x / step by {
      assert m * (1.0 / step) <= x * (1.0 / step);
    }
    assert j <= k;
    assert m == j as real * step by {
      assert m == (m / step) * step;
    }
    assert j as real * step <= k as real * step;
  }

  /** Truncating a larger size never gives a smaller result. */
  lemma StepFloorMonotone(x: real, y: real, step: real)
    requires step > 0.0 && x <= y
    ensures StepFloor(x, step) <= StepFloor(y, step)
  {
    StepFloorBounds(x, step);
    StepFloorGreatest(y, step, StepFloor(x, step));
  }

  function Min(a: real, b: real): real { if a <= b then a else b }
  function Max(a: real, b: real): real { if a >= b then a else b }

  /** The size of an entry order worth `notional` in quote currency:
      notional / indexPrice, truncated to whole steps, then raised to at least
      the exchange minimum order size. */
  function OrderSize(notional: real, indexPrice: real, step: real, minOrderSize: real): (size: real)
    requires indexPrice != 0.0 && step != 0.0
    ensures size >= minOrderSize
    ensures size == minOrderSize || size == StepFloor(notional / indexPrice, step)
  {
    Max(StepFloor(notional / indexPrice, step), minOrderSize)
  }

  /** Before the minimum-size floor, the order size is a whole number of steps
      no larger than notional / indexPrice and within one step of it. */
  lemma OrderSizeStepAligned(notional: real, indexPrice: real, step: real, minOrderSize: real)
    requires indexPrice > 0.0 && step > 0.0
    ensures var pre := StepFloor(notional / indexPrice, step);
            && IsStepMultiple(pre, step)
            && pre <= notional / indexPrice < pre + step
            && OrderSize(notional, indexPrice, step, minOrderSize) == Max(pre, minOrderSize)
  {
    StepFloorBounds(notional / indexPrice, step);
  }

  /** A larger notional never gives a smaller order. */
  lemma OrderSizeMonotone(n1: real, n2: real, indexPrice: real, step: real, minOrderSize: real)
    requires indexPrice > 0.0 && step > 0.0 && n1 <= n2
    ensures OrderSize(n1, indexPrice, step, minOrderSize) <= OrderSize(n2, indexPrice, step, minOrderSize)
  {
    assert n1 / indexPrice <= n2 / indexPrice by {
      assert n1 * (1.0 / indexPrice) <= n2 * (1.0 / indexPrice);
    }
    StepFloorMonotone(n1 / indexPrice, n2 / indexPrice, step);
  }

  /** The trend system's entry notional: equity times the equity ratio,
      capped at the maximum position size. */
  function RiskNotional(equity: real, maxEquityRatio: real, maxPositionSize: real): (n: real)
    ensures n <= maxPositionSize && n <= equity * maxEquityRatio
    ensures n == maxPositionSize || n == equity * maxEquityRatio
  {
    Min(equity * maxEquityRatio, maxPositionSize)
  }

  /** With a non-negative equity ratio, more equity never gives a smaller
      entry order. */
  lemma RiskSizeMonotoneInEquity(e1: real, e2: real, ratio: real, cap: real,
                                 indexPrice: real, step: real, minOrderSize: real)
    requires indexPrice > 0.0 && step > 0.0 && ratio >= 0.0 && e1 <= e2
    ensures OrderSize(RiskNotional(e1, ratio, cap), indexPrice, step, minOrderSize)
         <= OrderSize(RiskNotional(e2, ratio, cap), indexPrice, step, minOrderSize)
  {
    var p1, p2 := e1 * ratio, e2 * ratio;
    if ratio > 0.0 {
      MulLeq(e1, e2, ratio);
    } else {
      assert ratio == 0.0;
      assert p1 == 0.0 && p2 == 0.0;
    }
    assert p1 <= p2;
    assert RiskNotional(e1, ratio, cap) <= RiskNotional(e2, ratio, cap) by {
      assert RiskNotional(e1, ratio, cap) == Min(p1, cap);
      assert RiskNotional(e2, ratio, cap) == Min(p2, cap);
    }
    OrderSizeMonotone(RiskNotional(e1, ratio, cap), RiskNotional(e2, ratio, cap), indexPrice, step, minOrderSize);
  }

  /** equity 10000, ratio 0.1, index price 2000, step 0.001, minimum 0.01:
      the raw size 0.5 is already whole steps and above the minimum. */
  lemma SizingExample()
    ensures OrderSize(RiskNotional(10000.0, 0.1, 10000.0), 2000.0, 0.001, 0.01) == 0.5
  {
    assert RiskNotional(10000.0, 0.1, 10000.0) == 1000.0;
    assert 1000.0 / 2000.0 == 0.5;
    assert 0.5 / 0.001 == 500.0;
    assert (500.0).Floor == 500;
    assert PyMod(0.5, 0.001) == 0.0;
  }
}
