/** The weight each value has in the recursive averages: the newest counts most, and every step back counts for a fixed
    share less (quant/indicators/moving_average.py, quant/indicators/volatility.py, quant/indicators/oscillators.py). */
module Weights {
  import opened Rounding
  import opened Indicators
  import opened Oscillators

  function Power(x: real, n: nat): real {
    if n == 0 then 1.0 else Times(x, Power(x, n - 1))
  }

  /** The values from `lo` up to `hi`, the one at j counted for x to the power of its distance from `at`. */
  function Weighted(values: seq<real>, lo: nat, hi: nat, at: nat, x: real): real
    requires lo <= hi <= |values| && hi <= at + 1
  {
    if lo == hi then 0.0 else Weighted(values, lo, hi - 1, at, x) + Times(Power(x, at + 1 - hi), values[hi - 1])
  }

  /** One step further away everything counts for one factor more. */
  lemma {:induction false} WeightedLater(values: seq<real>, lo: nat, hi: nat, at: nat, x: real)
    requires lo <= hi <= |values| && hi <= at + 1
    ensures Weighted(values, lo, hi, at + 1, x) == Times(x, Weighted(values, lo, hi, at, x))
    decreases hi
  {
    hide Times;
    if lo == hi {
      TimesDistributes(x, 0.0, 0.0);
    } else {
      WeightedLater(values, lo, hi - 1, at, x);
      var w, v := Power(x, at + 1 - hi), values[hi - 1];
      TimesDistributes(x, Weighted(values, lo, hi - 1, at, x), Times(w, v));
      Grouped(x, w, v);
    }
  }

  lemma Grouped(x: real, y: real, z: real)
    ensures Times(Times(x, y), z) == Times(x, Times(y, z))
  {
    assert (x * y) * z == x * (y * z);
  }

  /** The closed form of an average that keeps a share of itself and takes the rest from the newest value. */
  function Closed(values: seq<real>, period: nat, i: nat, keep: real): real
    requires 0 < period <= i + 1 && i < |values|
  {
    Times(Power(keep, i + 1 - period), Mean(values, 0, period))
      + Times(1.0 - keep, Weighted(values, period, i + 1, i, keep))
  }

  lemma ClosedStep(values: seq<real>, period: nat, i: nat, keep: real)
    requires 0 < period <= i && i < |values|
    ensures Closed(values, period, i, keep) ==
      Times(keep, Closed(values, period, i - 1, keep)) + Times(1.0 - keep, values[i])
  {
    hide Times, Mean;
    var mean, sum, rest := Mean(values, 0, period), Weighted(values, period, i, i - 1, keep), 1.0 - keep;
    WeightedLater(values, period, i, i - 1, keep);
    assert Power(keep, 0) == 1.0;
    TimesDistributes(values[i], 0.0, 0.0);
    Grouped(keep, Power(keep, i - period), mean);
    TimesDistributes(keep, Times(Power(keep, i - period), mean), Times(rest, sum));
    TimesDistributes(rest, Times(keep, sum), values[i]);
    Grouped(keep, rest, sum);
    Grouped(rest, keep, sum);
    TimesCommutes(keep, rest);
  }

  lemma ClosedStart(values: seq<real>, period: nat, keep: real)
    requires 0 < period <= |values|
    ensures Closed(values, period, period - 1, keep) == Mean(values, 0, period)
  {
    hide Times, Mean;
    TimesDistributes(Mean(values, 0, period), 0.0, 0.0);
    TimesDistributes(1.0 - keep, 0.0, 0.0);
  }

  /** An exponential average of period n gives each value 2/(n+1) of what is left by the later ones, and the mean of the
      first n what is left by all of them. */
  lemma {:induction false} EmaWeights(values: seq<real>, period: nat, i: nat)
    requires 0 < period <= i + 1 && i < |values|
    ensures EmaValue(values, period, i) == Closed(values, period, i, 1.0 - 2.0 / (period as real + 1.0))
    decreases i
  {
    hide Times, Over, Mean, Closed;
    var share := 2.0 / (period as real + 1.0);
    ClosedStart(values, period, 1.0 - share);
    if i + 1 > period {
      EmaWeights(values, period, i - 1);
      ClosedStep(values, period, i, 1.0 - share);
      var prev := EmaValue(values, period, i - 1);
      assert Over(2.0, (period + 1) as real) == share by { OverIs(2.0, (period + 1) as real); }
      TimesCommutes(values[i] - prev, share);
      TimesDistributes(share, values[i], prev);
      TimesDistributes(1.0, share, prev);
      TimesDistributes(prev, 0.0, 0.0);
      assert 1.0 - (1.0 - share) == share;
    }
  }

  lemma OverIs(x: real, y: real)
    requires y != 0.0
    ensures Over(x, y) == x / y
  {
  }

  /** A smoothed average of period n gives each value 1/n of what is left by the later ones. */
  lemma {:induction false} WilderWeights(values: seq<real>, period: nat, i: nat)
    requires 0 < period <= i + 1 && i < |values|
    ensures WilderValue(values, period, i) == Closed(values, period, i, 1.0 - 1.0 / period as real)
    decreases i
  {
    hide Times, Over, Mean, Closed;
    var n := period as real;
    var share := 1.0 / n;
    ClosedStart(values, period, 1.0 - share);
    if i + 1 > period {
      WilderWeights(values, period, i - 1);
      ClosedStep(values, period, i, 1.0 - share);
      Shares(WilderValue(values, period, i - 1), values[i], n);
    }
  }

  lemma Shares(prev: real, value: real, n: real)
    requires n > 0.0
    ensures Over(Times(prev, n - 1.0) + value, n) == Times(1.0 - 1.0 / n, prev) + Times(1.0 - (1.0 - 1.0 / n), value)
  {
    var share := 1.0 / n;
    assert n * share == 1.0;
    assert (prev * (n - 1.0) + value) / n == (prev * (n - 1.0) + value) * share;
    assert (prev * (n - 1.0)) * share == prev * (n * share) - prev * share;
    assert (prev * (n - 1.0) + value) * share == (prev * (n - 1.0)) * share + value * share;
  }

  // ----- what a newer price does -----

  /** Moving the newest value moves the average by its share of that, and by nothing else. */
  lemma EmaFollowsTheLatest(values: seq<real>, period: nat, step: real)
    requires 0 < period < |values|
    ensures var last := |values| - 1;
      var moved := values[last := values[last] + step];
      EmaValue(moved, period, last) == EmaValue(values, period, last) + Times(step, 2.0 / (period as real + 1.0))
  {
    hide Times, Over;
    var last, share := |values| - 1, 2.0 / (period as real + 1.0);
    var moved := values[last := values[last] + step];
    assert moved[..last] == values[..last];
    EmaPrefix(values, period, last, last - 1);
    EmaPrefix(moved, period, last, last - 1);
    var prev := EmaValue(values, period, last - 1);
    assert Over(2.0, (period + 1) as real) == share by { OverIs(2.0, (period + 1) as real); }
    TimesDistributes(values[last] - prev, step, share);
  }

  /** With a faster average under a slower one, a higher newest price lifts the MACD line, by the difference of the two
      shares: the line leans to the latest. */
  lemma MacdLeansToTheLatest(values: seq<real>, fast: nat, slow: nat, step: real)
    requires 0 < fast < slow < |values| && step > 0.0
    ensures var last := |values| - 1;
      var moved := values[last := values[last] + step];
      var before, after := LineAt(values, fast, slow, last), LineAt(moved, fast, slow, last);
      && before.Some? && after.Some?
      && after.value - before.value == Times(step, 2.0 / (fast as real + 1.0) - 2.0 / (slow as real + 1.0)) > 0.0
  {
    hide Times, Over, EmaValue;
    EmaFollowsTheLatest(values, fast, step);
    EmaFollowsTheLatest(values, slow, step);
    var quick, calm := 2.0 / (fast as real + 1.0), 2.0 / (slow as real + 1.0);
    TimesDistributes(step, quick, calm);
    SmallerShare(fast as real + 1.0, slow as real + 1.0);
    TimesSign(step, quick - calm);
  }

  lemma SmallerShare(x: real, y: real)
    requires 0.0 < x < y
    ensures 2.0 / x > 2.0 / y
  {
    assert 2.0 / x - 2.0 / y == 2.0 * (y - x) / (x * y);
  }
}
