/** Incremental indicators against their definitions (moving averages, true range and its average). Every
    series has one entry per input, None while it is warming up. */
module Indicators {
  import opened Wrappers
  import opened Rounding

  type Series = seq<Option<real>>

  // ----- simple moving average -----

  function SumRange(values: seq<real>, lo: int, hi: int): real
    requires 0 <= lo <= hi <= |values|
  {
    if lo == hi then 0.0 else SumRange(values, lo, hi - 1) + values[hi - 1]
  }

  function Mean(values: seq<real>, lo: int, hi: int): real
    requires 0 <= lo < hi <= |values|
  {
    Over(SumRange(values, lo, hi), (hi - lo) as real)
  }

  /** The mean of the last `period` values, once there are that many. */
  function SmaAt(values: seq<real>, period: nat, i: nat): Option<real>
    requires period > 0 && i < |values|
  {
    if i + 1 < period then None else Some(Mean(values, i + 1 - period, i + 1))
  }

  function Sma(values: seq<real>, period: nat): Series
    requires period > 0
  {
    seq(|values|, i requires 0 <= i < |values| => SmaAt(values, period, i))
  }

  lemma {:induction false} SumRangeDropFirst(values: seq<real>, lo: int, hi: int)
    requires 0 <= lo < hi <= |values|
    ensures SumRange(values, lo, hi) == values[lo] + SumRange(values, lo + 1, hi)
  {
    if lo + 1 < hi {
      SumRangeDropFirst(values, lo, hi - 1);
    }
  }

  lemma {:induction false} SumRangePrefix(values: seq<real>, n: int, lo: int, hi: int)
    requires 0 <= lo <= hi <= n <= |values|
    ensures SumRange(values[..n], lo, hi) == SumRange(values, lo, hi)
  {
    if lo < hi {
      SumRangePrefix(values, n, lo, hi - 1);
    }
  }

  /** The rolling sum adds the newest value and subtracts the one that left the window. */
  method SmaRolling(values: seq<real>, period: int) returns (result: Option<Series>)
    ensures period <= 0 ==> result == None
    ensures period > 0 ==> result == Some(Sma(values, period))
  {
    if period <= 0 {
      return None;
    }
    var out := new Option<real>[|values|](_ => None);
    var windowSum := 0.0;
    for i := 0 to |values|
      invariant windowSum == SumRange(values, if i < period then 0 else i - period, i)
      invariant forall j | 0 <= j < i :: out[j] == SmaAt(values, period, j)
      invariant forall j | i <= j < |values| :: out[j] == None
    {
      windowSum := windowSum + values[i];
      if i >= period {
        SumRangeDropFirst(values, i - period, i + 1);
        windowSum := windowSum - values[i - period];
      }
      if i >= period - 1 {
        out[i] := Some(Over(windowSum, period as real));
      }
    }
    assert out[..] == Sma(values, period);
    return Some(out[..]);
  }

  lemma SmaIsCausal(values: seq<real>, period: nat, n: nat)
    requires period > 0 && n <= |values|
    ensures Sma(values[..n], period) == Sma(values, period)[..n]
  {
    forall i | 0 <= i < n ensures Sma(values[..n], period)[i] == Sma(values, period)[i] {
      if i + 1 >= period {
        SumRangePrefix(values, n, i + 1 - period, i + 1);
      }
    }
  }

  /** lo and hi enclose the values from `from` up to and including index i. */
  ghost predicate Encloses(values: seq<real>, from: int, i: int, lo: real, hi: real)
    requires 0 <= from && i < |values|
  {
    forall j | from <= j <= i :: lo <= values[j] <= hi
  }

  lemma {:induction false} SumRangeBounds(values: seq<real>, from: int, to: int, lo: real, hi: real)
    requires 0 <= from <= to <= |values| && forall j | from <= j < to :: lo <= values[j] <= hi
    ensures Times((to - from) as real, lo) <= SumRange(values, from, to) <= Times((to - from) as real, hi)
  {
    hide Times;
    TimesDistributes(lo, 0.0, 0.0);
    TimesDistributes(hi, 0.0, 0.0);
    if from < to {
      SumRangeBounds(values, from, to - 1, lo, hi);
      TimesDistributes((to - 1 - from) as real, 1.0, lo);
      TimesDistributes((to - 1 - from) as real, 1.0, hi);
      assert (to - from) as real == (to - 1 - from) as real + 1.0;
    }
  }

  /** A mean lies between the bounds of what it averages. */
  lemma MeanBounds(values: seq<real>, from: int, to: int, lo: real, hi: real)
    requires 0 <= from < to <= |values| && forall j | from <= j < to :: lo <= values[j] <= hi
    ensures lo <= Mean(values, from, to) <= hi
  {
    SumRangeBounds(values, from, to, lo, hi);
    QuotientBounds(SumRange(values, from, to), (to - from) as real, lo, hi);
  }

  lemma QuotientBounds(x: real, n: real, lo: real, hi: real)
    requires n > 0.0 && Times(n, lo) <= x <= Times(n, hi)
    ensures lo <= Over(x, n) <= hi
  {
  }

  // ----- exponential moving average -----

  /** Seeded with the mean of the first `period` values, then moved toward each new value. */
  function EmaValue(values: seq<real>, period: nat, i: nat): real
    requires 0 < period <= i + 1 && i < |values|
    decreases i
  {
    if i + 1 == period then Mean(values, 0, period)
    else
      var prev := EmaValue(values, period, i - 1);
      Times(values[i] - prev, Over(2.0, (period + 1) as real)) + prev
  }

  function EmaAt(values: seq<real>, period: nat, i: nat): Option<real>
    requires period > 0 && i < |values|
  {
    if i + 1 < period then None else Some(EmaValue(values, period, i))
  }

  function Ema(values: seq<real>, period: nat): Series
    requires period > 0
  {
    seq(|values|, i requires 0 <= i < |values| => EmaAt(values, period, i))
  }

  method EmaRolling(values: seq<real>, period: int) returns (result: Option<Series>)
    ensures period <= 0 ==> result == None
    ensures period > 0 ==> result == Some(Ema(values, period))
  {
    if period <= 0 {
      return None;
    }
    var out := new Option<real>[|values|](_ => None);
    if |values| < period {
      assert out[..] == Ema(values, period);
      return Some(out[..]);
    }
    var multiplier := Over(2.0, (period + 1) as real);
    var prev := Mean(values, 0, period);
    out[period - 1] := Some(prev);
    for i := period to |values|
      invariant prev == EmaValue(values, period, i - 1)
      invariant forall j | 0 <= j < i :: out[j] == EmaAt(values, period, j)
      invariant forall j | i <= j < |values| :: out[j] == None
    {
      prev := Times(values[i] - prev, multiplier) + prev;
      out[i] := Some(prev);
    }
    assert out[..] == Ema(values, period);
    return Some(out[..]);
  }

  lemma {:induction false} EmaPrefix(values: seq<real>, period: nat, n: nat, i: nat)
    requires 0 < period <= i + 1 && i < n <= |values|
    ensures EmaValue(values[..n], period, i) == EmaValue(values, period, i)
    decreases i
  {
    hide Times, Over;
    if i + 1 == period {
      SumRangePrefix(values, n, 0, period);
    } else {
      EmaPrefix(values, period, n, i - 1);
    }
  }

  lemma EmaIsCausal(values: seq<real>, period: nat, n: nat)
    requires period > 0 && n <= |values|
    ensures Ema(values[..n], period) == Ema(values, period)[..n]
  {
    forall i | 0 <= i < n ensures Ema(values[..n], period)[i] == Ema(values, period)[i] {
      if i + 1 >= period {
        EmaPrefix(values, period, n, i);
      }
    }
  }

  /** Moving a fraction w of the way from a to b stays between bounds of both. */
  lemma BlendBounds(a: real, b: real, w: real, lo: real, hi: real)
    requires 0.0 <= w <= 1.0 && lo <= a <= hi && lo <= b <= hi
    ensures lo <= Times(b - a, w) + a <= hi
  {
    hide Times;
    TimesDistributes(b, a, w);
    TimesDistributes(w, 0.0, 0.0);
    BlendIsAverage(a, b, w);
    TimesSign(w, b - lo);
    TimesSign(w, hi - b);
    TimesSign(1.0 - w, a - lo);
    TimesSign(1.0 - w, hi - a);
    TimesDistributes(w, b, lo);
    TimesDistributes(w, hi, b);
    TimesDistributes(1.0 - w, a, lo);
    TimesDistributes(1.0 - w, hi, a);
    TimesDistributes(w, 1.0 - w, lo);
    TimesDistributes(w, 1.0 - w, hi);
    TimesDistributes(lo, 0.0, 0.0);
    TimesDistributes(hi, 0.0, 0.0);
  }

  lemma BlendIsAverage(a: real, b: real, w: real)
    ensures Times(b - a, w) + a == Times(w, b) + Times(1.0 - w, a)
  {
  }

  lemma EmaWeight(period: nat)
    requires period > 0
    ensures 0.0 < Over(2.0, (period + 1) as real) <= 1.0
  {
  }

  /** An EMA never leaves the range of the values it has consumed. */
  lemma {:induction false} EmaStaysWithin(values: seq<real>, period: nat, i: nat, lo: real, hi: real)
    requires 0 < period <= i + 1 && i < |values| && Encloses(values, 0, i, lo, hi)
    ensures lo <= EmaValue(values, period, i) <= hi
    decreases i
  {
    hide Times, Over;
    if i + 1 == period {
      MeanBounds(values, 0, period, lo, hi);
    } else {
      EmaStaysWithin(values, period, i - 1, lo, hi);
      EmaWeight(period);
      BlendBounds(EmaValue(values, period, i - 1), values[i], Over(2.0, (period + 1) as real), lo, hi);
    }
  }

  // ----- true range and its average -----

  function TrueRangeAt(high: seq<real>, low: seq<real>, close: seq<real>, i: nat): real
    requires i < |close| && |close| <= |high| && |close| <= |low|
  {
    if i == 0 then high[0] - low[0]
    else Max(Max(high[i] - low[i], Abs(high[i] - close[i - 1])), Abs(low[i] - close[i - 1]))
  }

  function TrueRange(high: seq<real>, low: seq<real>, close: seq<real>): seq<real>
    requires |close| <= |high| && |close| <= |low|
  {
    seq(|close|, i requires 0 <= i < |close| => TrueRangeAt(high, low, close, i))
  }

  /** The true range is the bar's range stretched to reach the previous close; on bars whose high is not
      below their low it is never negative. */
  lemma TrueRangeMeaning(high: seq<real>, low: seq<real>, close: seq<real>, i: nat)
    requires i < |close| && |close| <= |high| && |close| <= |low| && low[i] <= high[i]
    ensures i > 0 ==> TrueRangeAt(high, low, close, i) == Max(high[i], close[i - 1]) - Min(low[i], close[i - 1])
    ensures TrueRangeAt(high, low, close, i) >= 0.0
  {
  }

  method TrueRangeFilled(high: seq<real>, low: seq<real>, close: seq<real>) returns (tr: seq<real>)
    requires |close| <= |high| && |close| <= |low|
    ensures tr == TrueRange(high, low, close)
  {
    var out := new real[|close|](_ => 0.0);
    for i := 0 to |close|
      invariant forall j | 0 <= j < i :: out[j] == TrueRangeAt(high, low, close, j)
    {
      if i == 0 {
        out[i] := high[i] - low[i];
      } else {
        out[i] := Max(Max(high[i] - low[i], Abs(high[i] - close[i - 1])), Abs(low[i] - close[i - 1]));
      }
    }
    assert out[..] == TrueRange(high, low, close);
    return out[..];
  }

  /** Wilder's smoothing: the mean of the first `period`, then each value counted for 1/period. */
  function WilderValue(values: seq<real>, period: nat, i: nat): real
    requires 0 < period <= i + 1 && i < |values|
    decreases i
  {
    if i + 1 == period then Mean(values, 0, period)
    else Over(Times(WilderValue(values, period, i - 1), (period - 1) as real) + values[i], period as real)
  }

  function WilderAt(values: seq<real>, period: nat, i: nat): Option<real>
    requires period > 0 && i < |values|
  {
    if i + 1 < period then None else Some(WilderValue(values, period, i))
  }

  function Atr(high: seq<real>, low: seq<real>, close: seq<real>, period: nat): Series
    requires period > 0 && |close| <= |high| && |close| <= |low|
  {
    seq(|close|, i requires 0 <= i < |close| => WilderAt(TrueRange(high, low, close), period, i))
  }

  method AtrRolling(high: seq<real>, low: seq<real>, close: seq<real>, period: int) returns (result: Option<Series>)
    requires |close| <= |high| && |close| <= |low|
    ensures period <= 0 ==> result == None
    ensures period > 0 ==> result == Some(Atr(high, low, close, period))
  {
    hide Times, Over, Mean, TrueRangeAt;
    if period <= 0 {
      return None;
    }
    var tr := TrueRangeFilled(high, low, close);
    var out := new Option<real>[|close|](_ => None);
    if |close| < period {
      assert out[..] == Atr(high, low, close, period);
      return Some(out[..]);
    }
    var prev := Mean(tr, 0, period);
    out[period - 1] := Some(prev);
    for i := period to |close|
      invariant prev == WilderValue(tr, period, i - 1)
      invariant forall j | 0 <= j < i :: out[j] == WilderAt(tr, period, j)
      invariant forall j | i <= j < |close| :: out[j] == None
    {
      prev := Over(Times(prev, (period - 1) as real) + tr[i], period as real);
      out[i] := Some(prev);
    }
    assert out[..] == Atr(high, low, close, period);
    return Some(out[..]);
  }

  lemma {:induction false} WilderPrefix(values: seq<real>, period: nat, n: nat, i: nat)
    requires 0 < period <= i + 1 && i < n <= |values|
    ensures WilderValue(values[..n], period, i) == WilderValue(values, period, i)
    decreases i
  {
    hide Times, Over;
    if i + 1 == period {
      SumRangePrefix(values, n, 0, period);
    } else {
      WilderPrefix(values, period, n, i - 1);
    }
  }

  lemma AtrIsCausal(high: seq<real>, low: seq<real>, close: seq<real>, period: nat, n: nat)
    requires period > 0 && n <= |close| == |high| == |low|
    ensures Atr(high[..n], low[..n], close[..n], period) == Atr(high, low, close, period)[..n]
  {
    var tr := TrueRange(high, low, close);
    assert TrueRange(high[..n], low[..n], close[..n]) == tr[..n];
    forall i | 0 <= i < n ensures WilderAt(tr[..n], period, i) == WilderAt(tr, period, i) {
      if i + 1 >= period {
        WilderPrefix(tr, period, n, i);
      }
    }
  }

  /** Wilder's average never leaves the range of what it has consumed. */
  lemma {:induction false} WilderStaysWithin(values: seq<real>, period: nat, i: nat, lo: real, hi: real)
    requires 0 < period <= i + 1 && i < |values| && Encloses(values, 0, i, lo, hi)
    ensures lo <= WilderValue(values, period, i) <= hi
    decreases i
  {
    hide Times, Over;
    if i + 1 == period {
      MeanBounds(values, 0, period, lo, hi);
    } else {
      WilderStaysWithin(values, period, i - 1, lo, hi);
      WilderStepBounds(WilderValue(values, period, i - 1), values[i], period, lo, hi);
    }
  }

  lemma WilderStepBounds(prev: real, value: real, period: nat, lo: real, hi: real)
    requires period > 0 && lo <= prev <= hi && lo <= value <= hi
    ensures lo <= Over(Times(prev, (period - 1) as real) + value, period as real) <= hi
  {
    hide Times, Over;
    var n := (period - 1) as real;
    TimesSign(n, prev - lo);
    TimesSign(n, hi - prev);
    TimesDistributes(n, prev, lo);
    TimesDistributes(n, hi, prev);
    TimesDistributes(n, 1.0, lo);
    TimesDistributes(n, 1.0, hi);
    TimesDistributes(lo, 0.0, 0.0);
    TimesDistributes(hi, 0.0, 0.0);
    TimesCommutes(prev, n);
    assert period as real == n + 1.0;
    QuotientBounds(Times(prev, n) + value, period as real, lo, hi);
  }
}
