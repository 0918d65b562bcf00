/** RSI and MACD (quant/indicators/oscillators.py): the running averages and the index alignment of the
    code against closed definitions over the whole series. */
module Oscillators {
  import opened Wrappers
  import opened Rounding
  import opened Indicators

  // ----- RSI -----

  /** Upward moves, one per pair of neighbours. */
  function Gains(values: seq<real>): (g: seq<real>)
    ensures |g| == if values == [] then 0 else |values| - 1
    ensures forall k | 0 <= k < |g| :: g[k] >= 0.0
  {
    if values == [] then []
    else seq(|values| - 1, k requires 0 <= k < |values| - 1 => Max(values[k + 1] - values[k], 0.0))
  }

  /** Downward moves, as positive amounts. */
  function Losses(values: seq<real>): (l: seq<real>)
    ensures |l| == if values == [] then 0 else |values| - 1
    ensures forall k | 0 <= k < |l| :: l[k] >= 0.0
  {
    if values == [] then []
    else seq(|values| - 1, k requires 0 <= k < |values| - 1 => Max(-(values[k + 1] - values[k]), 0.0))
  }

  lemma MovesAt(values: seq<real>, i: nat)
    requires 0 < i < |values|
    ensures Gains(values)[i - 1] == Max(values[i] - values[i - 1], 0.0)
    ensures Losses(values)[i - 1] == Max(-(values[i] - values[i - 1]), 0.0)
    ensures Losses(values)[i - 1] == 0.0 <==> values[i - 1] <= values[i]
  {
  }

  lemma MovesPrefix(values: seq<real>, n: nat)
    requires 0 < n <= |values|
    ensures Gains(values[..n]) == Gains(values)[..n - 1] && Losses(values[..n]) == Losses(values)[..n - 1]
  {
  }

  function FromAverages(gain: real, loss: real): real
    requires gain >= 0.0 && loss >= 0.0
  {
    if loss == 0.0 then 100.0 else 100.0 - Over(100.0, 1.0 + Over(gain, loss))
  }

  lemma {:induction false} AverageNonNegative(values: seq<real>, period: nat, i: nat)
    requires 0 < period <= i + 1 && i < |values|
    requires forall k | 0 <= k < |values| :: values[k] >= 0.0
    ensures WilderValue(values, period, i) >= 0.0
    decreases i
  {
    hide Times, Over;
    if i + 1 == period {
      SumNonNegative(values, 0, period);
      NonNegativeOver(SumRange(values, 0, period), period as real);
    } else {
      AverageNonNegative(values, period, i - 1);
      TimesSign(WilderValue(values, period, i - 1), (period - 1) as real);
      NonNegativeOver(Times(WilderValue(values, period, i - 1), (period - 1) as real) + values[i], period as real);
    }
  }

  lemma {:induction false} SumNonNegative(values: seq<real>, lo: int, hi: int)
    requires 0 <= lo <= hi <= |values| && forall k | lo <= k < hi :: values[k] >= 0.0
    ensures SumRange(values, lo, hi) >= 0.0
    ensures SumRange(values, lo, hi) == 0.0 <==> forall k | lo <= k < hi :: values[k] == 0.0
  {
    if lo < hi {
      SumNonNegative(values, lo, hi - 1);
    }
  }

  lemma NonNegativeOver(x: real, n: real)
    requires x >= 0.0 && n > 0.0
    ensures Over(x, n) >= 0.0
    ensures Over(x, n) == 0.0 <==> x == 0.0
  {
  }

  function RsiAt(values: seq<real>, period: nat, i: nat): Option<real>
    requires period > 0 && i < |values|
  {
    if i < period then None
    else
      AverageNonNegative(Gains(values), period, i - 1);
      AverageNonNegative(Losses(values), period, i - 1);
      Some(FromAverages(WilderValue(Gains(values), period, i - 1), WilderValue(Losses(values), period, i - 1)))
  }

  function Rsi(values: seq<real>, period: nat): Series
    requires period > 0
  {
    seq(|values|, i requires 0 <= i < |values| => RsiAt(values, period, i))
  }

  method RsiRolling(values: seq<real>, period: int) returns (result: Option<Series>)
    ensures period <= 0 ==> result == None
    ensures period > 0 ==> result == Some(Rsi(values, period))
  {
    hide Times, Over, FromAverages, Gains, Losses;
    if period <= 0 {
      return None;
    }
    var n := |values|;
    var out := new Option<real>[n](_ => None);
    if n <= period {
      assert out[..] == Rsi(values, period);
      return Some(out[..]);
    }
    ghost var up, down := Gains(values), Losses(values);
    var gains, losses := 0.0, 0.0;
    for i := 1 to period + 1
      invariant forall j | 0 <= j < n :: out[j] == None
      invariant gains == SumRange(up, 0, i - 1) && losses == SumRange(down, 0, i - 1)
    {
      MovesAt(values, i);
      var change := values[i] - values[i - 1];
      gains, losses := gains + Max(change, 0.0), losses + Max(-change, 0.0);
    }
    var avgGain, avgLoss := Over(gains, period as real), Over(losses, period as real);
    AverageNonNegative(up, period, period - 1);
    AverageNonNegative(down, period, period - 1);
    out[period] := Some(FromAverages(avgGain, avgLoss));
    for i := period + 1 to n
      invariant avgGain == WilderValue(up, period, i - 2) && avgLoss == WilderValue(down, period, i - 2)
      invariant forall j | 0 <= j < i :: out[j] == RsiAt(values, period, j)
      invariant forall j | i <= j < n :: out[j] == None
    {
      MovesAt(values, i);
      var change := values[i] - values[i - 1];
      var gain, loss := Max(change, 0.0), Max(-change, 0.0);
      avgGain := Over(Times(avgGain, (period - 1) as real) + gain, period as real);
      avgLoss := Over(Times(avgLoss, (period - 1) as real) + loss, period as real);
      AverageNonNegative(up, period, i - 1);
      AverageNonNegative(down, period, i - 1);
      out[i] := Some(FromAverages(avgGain, avgLoss));
    }
    assert out[..] == Rsi(values, period);
    return Some(out[..]);
  }

  /** The index is the share of upward movement in all movement, in percent. */
  lemma RsiIsUpwardShare(gain: real, loss: real)
    requires gain >= 0.0 && loss >= 0.0
    ensures 0.0 <= FromAverages(gain, loss) <= 100.0
    ensures FromAverages(gain, loss) == 100.0 <==> loss == 0.0
    ensures loss > 0.0 ==> (FromAverages(gain, loss) == 0.0 <==> gain == 0.0)
    ensures gain + loss > 0.0 ==> Times(FromAverages(gain, loss), gain + loss) == 100.0 * gain
  {
    if loss > 0.0 {
      ShareOf(gain, loss);
      var share := Over(100.0, 1.0 + Over(gain, loss));
      assert Times(share, gain + loss) == 100.0 * loss;
      ShareBounds(share, gain, loss);
    }
  }

  lemma ShareOf(gain: real, loss: real)
    requires gain >= 0.0 && loss > 0.0
    ensures Over(gain, loss) >= 0.0
    ensures Times(Over(100.0, 1.0 + Over(gain, loss)), gain + loss) == 100.0 * loss
  {
    var rs := Over(gain, loss);
    assert rs * loss == gain;
    assert gain + loss == (1.0 + rs) * loss;
    var share := Over(100.0, 1.0 + rs);
    assert share * (1.0 + rs) == 100.0;
    assert share * ((1.0 + rs) * loss) == (share * (1.0 + rs)) * loss;
  }

  lemma ShareBounds(share: real, gain: real, loss: real)
    requires gain >= 0.0 && loss > 0.0 && Times(share, gain + loss) == 100.0 * loss
    ensures 0.0 < share <= 100.0
    ensures share == 100.0 <==> gain == 0.0
  {
    TimesDistributes(100.0, share, gain + loss);
    FactorSign(share, gain + loss);
    FactorSign(100.0 - share, gain + loss);
  }

  /** Wilder's average forgets nothing: with a period of two or more it is zero only if everything was. */
  lemma {:induction false} AverageIsZero(values: seq<real>, period: nat, i: nat)
    requires 2 <= period <= i + 1 && i < |values|
    requires forall k | 0 <= k < |values| :: values[k] >= 0.0
    ensures WilderValue(values, period, i) == 0.0 <==> forall k | 0 <= k <= i :: values[k] == 0.0
    decreases i
  {
    hide Times, Over;
    if i + 1 == period {
      SumNonNegative(values, 0, period);
      NonNegativeOver(SumRange(values, 0, period), period as real);
    } else {
      AverageIsZero(values, period, i - 1);
      AverageNonNegative(values, period, i - 1);
      var prev := WilderValue(values, period, i - 1);
      TimesSign(prev, (period - 1) as real);
      TimesDistributes((period - 1) as real, 0.0, 0.0);
      TimesDistributes(0.0, 0.0, (period - 1) as real);
      NonNegativeOver(Times(prev, (period - 1) as real) + values[i], period as real);
    }
  }

  lemma NeverFell(values: seq<real>, i: nat)
    requires i < |values|
    ensures (forall k | 0 <= k <= i - 1 :: Losses(values)[k] == 0.0) <==>
      forall k | 0 < k <= i :: values[k - 1] <= values[k]
  {
    forall k | 0 < k <= i ensures Losses(values)[k - 1] == 0.0 <==> values[k - 1] <= values[k] {
      MovesAt(values, k);
    }
    if forall k | 0 < k <= i :: values[k - 1] <= values[k] {
      forall k | 0 <= k <= i - 1 ensures Losses(values)[k] == 0.0 {
        assert values[k + 1 - 1] <= values[k + 1];
      }
    }
  }

  /** RSI lies in [0, 100], and with a period of two or more it reads 100 exactly while the series has
      never fallen. */
  lemma RsiReadsHundredExactly(values: seq<real>, period: nat, i: nat)
    requires 0 < period <= i < |values|
    ensures 0.0 <= RsiAt(values, period, i).value <= 100.0
    ensures period >= 2 ==>
              (RsiAt(values, period, i).value == 100.0 <==> forall k | 0 < k <= i :: values[k - 1] <= values[k])
    ensures period == 1 ==> (RsiAt(values, period, i).value == 100.0 <==> values[i - 1] <= values[i])
  {
    hide Times, Over, FromAverages, Gains, Losses;
    var up, down := Gains(values), Losses(values);
    AverageNonNegative(up, period, i - 1);
    AverageNonNegative(down, period, i - 1);
    RsiIsUpwardShare(WilderValue(up, period, i - 1), WilderValue(down, period, i - 1));
    if period >= 2 {
      NeverFell(values, i);
      AverageIsZero(down, period, i - 1);
    } else {
      MovesAt(values, i);
      PeriodOneIsLast(down, i - 1);
    }
  }

  lemma PeriodOneIsLast(values: seq<real>, i: nat)
    requires i < |values|
    ensures WilderValue(values, 1, i) == values[i]
  {
    if i == 0 {
      assert SumRange(values, 0, 0) == 0.0;
    }
  }

  lemma RsiIsCausal(values: seq<real>, period: nat, n: nat)
    requires period > 0 && n <= |values|
    ensures Rsi(values[..n], period) == Rsi(values, period)[..n]
  {
    hide Times, Over, FromAverages, Gains, Losses;
    forall i | period <= i < n ensures RsiAt(values[..n], period, i) == RsiAt(values, period, i) {
      MovesPrefix(values, n);
      WilderPrefix(Gains(values), period, n - 1, i - 1);
      WilderPrefix(Losses(values), period, n - 1, i - 1);
    }
  }

  // ----- MACD -----

  datatype MacdLines = MacdLines(line: Series, signalLine: Series, histogram: Series)

  function Longer(fast: nat, slow: nat): nat {
    if fast < slow then slow else fast
  }

  /** The gap between the two averages from the first index where both exist. */
  function Gaps(values: seq<real>, fast: nat, slow: nat): seq<real>
    requires 0 < fast && 0 < slow && Longer(fast, slow) <= |values|
  {
    var first := Longer(fast, slow) - 1;
    seq(|values| - first, k requires 0 <= k < |values| - first =>
      EmaValue(values, fast, first + k) - EmaValue(values, slow, first + k))
  }

  function LineAt(values: seq<real>, fast: nat, slow: nat, i: nat): Option<real>
    requires 0 < fast && 0 < slow && i < |values|
  {
    if i + 1 < Longer(fast, slow) then None else Some(EmaValue(values, fast, i) - EmaValue(values, slow, i))
  }

  /** The signal needs `signal` gaps, so it starts at index max(fast, slow) + signal - 2. */
  function SignalAt(values: seq<real>, fast: nat, slow: nat, signal: nat, i: nat): Option<real>
    requires 0 < fast && 0 < slow && 0 < signal && i < |values|
  {
    var first := Longer(fast, slow) - 1;
    if i < first + signal - 1 then None else Some(EmaValue(Gaps(values, fast, slow), signal, i - first))
  }

  function HistogramAt(values: seq<real>, fast: nat, slow: nat, signal: nat, i: nat): Option<real>
    requires 0 < fast && 0 < slow && 0 < signal && i < |values|
  {
    if i < Longer(fast, slow) + signal - 2 then None
    else Some(LineAt(values, fast, slow, i).value - SignalAt(values, fast, slow, signal, i).value)
  }

  function Macd(values: seq<real>, fast: nat, slow: nat, signal: nat): MacdLines
    requires 0 < fast && 0 < slow && 0 < signal
  {
    MacdLines(
      seq(|values|, i requires 0 <= i < |values| => LineAt(values, fast, slow, i)),
      seq(|values|, i requires 0 <= i < |values| => SignalAt(values, fast, slow, signal, i)),
      seq(|values|, i requires 0 <= i < |values| => HistogramAt(values, fast, slow, signal, i)))
  }

  function Difference(a: Option<real>, b: Option<real>): Option<real> {
    if a.Some? && b.Some? then Some(a.value - b.value) else None
  }

  /** A bad signal period is noticed only once there is a gap to smooth. */
  predicate MacdRaises(values: seq<real>, fast: int, slow: int, signal: int) {
    fast <= 0 || slow <= 0 || (signal <= 0 && Longer(fast, slow) <= |values|)
  }

  /** The signal line: the gaps gathered from the first valid index on, smoothed, and put back in place. */
  method SmoothFrom(values: seq<real>, line: Series, fast: nat, slow: nat, signal: int, firstValid: nat)
    returns (smoothed: Option<Series>)
    requires 0 < fast && 0 < slow && firstValid <= |values| == |line|
    requires forall i | 0 <= i < |values| :: line[i] == LineAt(values, fast, slow, i)
    requires firstValid < |values| ==> firstValid == Longer(fast, slow) - 1
    requires firstValid == |values| ==> |values| < Longer(fast, slow)
    ensures smoothed.None? <==> firstValid < |values| && signal <= 0
    ensures smoothed.Some? ==> |smoothed.value| == |values|
    ensures smoothed.Some? && signal > 0 ==>
              forall i | 0 <= i < |values| :: smoothed.value[i] == SignalAt(values, fast, slow, signal, i)
    ensures smoothed.Some? && signal <= 0 ==> forall i | 0 <= i < |values| :: smoothed.value[i] == None
  {
    hide Times, Over, SumRange, EmaValue;
    var n := |values|;
    var out := new Option<real>[n](_ => None);
    if firstValid < n {
      var gaps: seq<real> := [];
      for i := firstValid to n
        invariant forall j | 0 <= j < n :: out[j] == None
        invariant gaps == Gaps(values, fast, slow)[..i - firstValid]
      {
        gaps := gaps + [line[i].value];
      }
      assert gaps == Gaps(values, fast, slow);
      var smooth := EmaRolling(gaps, signal);
      if smooth.None? {
        return None;
      }
      for offset := 0 to |gaps|
        invariant forall i | 0 <= i < firstValid + offset :: out[i] == SignalAt(values, fast, slow, signal, i)
        invariant forall i | firstValid + offset <= i < n :: out[i] == None
      {
        out[firstValid + offset] := smooth.value[offset];
      }
    }
    return Some(out[..]);
  }

  method MacdAligned(values: seq<real>, fast: int, slow: int, signal: int) returns (result: Option<MacdLines>)
    ensures result.None? <==> MacdRaises(values, fast, slow, signal)
    ensures result.Some? && signal > 0 ==> result.value == Macd(values, fast, slow, signal)
    ensures result.Some? && signal <= 0 ==>
              result.value == var none := seq(|values|, _ => None); MacdLines(none, none, none)
  {
    hide Times, Over, SumRange, EmaValue, Gaps;
    var fastEma := EmaRolling(values, fast);
    if fastEma.None? {
      return None;
    }
    var slowEma := EmaRolling(values, slow);
    if slowEma.None? {
      return None;
    }
    var n := |values|;
    var line := seq(n, i requires 0 <= i < n => Difference(fastEma.value[i], slowEma.value[i]));
    assert forall i | 0 <= i < n :: line[i] == LineAt(values, fast, slow, i);
    var firstValid := 0;
    while firstValid < n && line[firstValid].None?
      invariant 0 <= firstValid <= n && firstValid < Longer(fast, slow)
    {
      firstValid := firstValid + 1;
    }
    var smoothed := SmoothFrom(values, line, fast, slow, signal, firstValid);
    if smoothed.None? {
      return None;
    }
    var signalLine := smoothed.value;
    var histogram := seq(n, i requires 0 <= i < n => Difference(line[i], signalLine[i]));
    result := Some(MacdLines(line, signalLine, histogram));
    if signal > 0 {
      assert forall i | 0 <= i < n :: signalLine[i] == SignalAt(values, fast, slow, signal, i);
      assert forall i | 0 <= i < n :: histogram[i] == HistogramAt(values, fast, slow, signal, i);
    }
  }

  /** All three lines at index i depend on the first i + 1 values only. */
  lemma MacdIsCausal(values: seq<real>, fast: nat, slow: nat, signal: nat, n: nat)
    requires 0 < fast && 0 < slow && 0 < signal && n <= |values|
    ensures var part, whole := Macd(values[..n], fast, slow, signal), Macd(values, fast, slow, signal);
      part.line == whole.line[..n] && part.signalLine == whole.signalLine[..n] && part.histogram == whole.histogram[..n]
  {
    hide Times, Over, SumRange, EmaValue;
    var first := Longer(fast, slow) - 1;
    forall i | first <= i < n
      ensures EmaValue(values[..n], fast, i) == EmaValue(values, fast, i)
      ensures EmaValue(values[..n], slow, i) == EmaValue(values, slow, i)
    {
      EmaPrefix(values, fast, n, i);
      EmaPrefix(values, slow, n, i);
    }
    if first < n {
      assert Gaps(values[..n], fast, slow) == Gaps(values, fast, slow)[..n - first];
      forall i | first + signal - 1 <= i < n
        ensures SignalAt(values[..n], fast, slow, signal, i) == SignalAt(values, fast, slow, signal, i)
      {
        EmaPrefix(Gaps(values, fast, slow), signal, n - first, i - first);
      }
    }
  }
}
