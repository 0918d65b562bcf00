/** One-pass maximum drawdown (quant/indicators/returns.py) against the definition by pairs of points. */
module Drawdown {
  import opened Rounding

  /** The highest value up to and including index j. */
  function PeakTo(values: seq<real>, j: nat): real
    requires j < |values|
    decreases j
  {
    if j == 0 then values[0] else Max(PeakTo(values, j - 1), values[j])
  }

  /** The change from a level to a value, as a fraction of the level; nothing is measured from zero. */
  function Decline(level: real, value: real): real {
    if level == 0.0 then 0.0 else Over(value - level, level)
  }

  function FromPeak(values: seq<real>, j: nat): real
    requires j < |values|
  {
    Decline(PeakTo(values, j), values[j])
  }

  /** `worst` is the lowest of zero and every point's distance from its running peak, which is what the
      one-pass loop returns. */
  ghost predicate OnePass(values: seq<real>, worst: real) {
    && worst <= 0.0
    && (forall j | 0 <= j < |values| :: worst <= FromPeak(values, j))
    && (worst == 0.0 || exists j | 0 <= j < |values| :: worst == FromPeak(values, j))
  }

  /** The result is the lowest of zero and every point's distance from the peak before it. */
  method MaxDrawdown(values: seq<real>) returns (worst: real)
    ensures OnePass(values, worst)
  {
    hide Over;
    if values == [] {
      return 0.0;
    }
    var peak := values[0];
    worst := 0.0;
    for i := 0 to |values|
      invariant peak == if i == 0 then values[0] else PeakTo(values, i - 1)
      invariant worst <= 0.0 && forall j | 0 <= j < i :: worst <= FromPeak(values, j)
      invariant worst == 0.0 || exists j | 0 <= j < i :: worst == FromPeak(values, j)
    {
      peak := Max(peak, values[i]);
      var drawdown := if peak == 0.0 then 0.0 else Over(values[i] - peak, peak);
      assert drawdown == FromPeak(values, i);
      worst := Min(worst, drawdown);
    }
  }

  lemma {:induction false} PeakIsHighest(values: seq<real>, j: nat) returns (at: nat)
    requires j < |values|
    ensures at <= j && PeakTo(values, j) == values[at]
    ensures forall i | 0 <= i <= j :: values[i] <= PeakTo(values, j)
  {
    at := j;
    if j > 0 {
      var before := PeakIsHighest(values, j - 1);
      if PeakTo(values, j) != values[j] { at := before; }
    }
  }

  lemma DeclineScales(level: real, value: real)
    requires level > 0.0
    ensures Times(1.0 + Decline(level, value), level) == value
  {
    TimesOver(value - level, level);
    var d := Decline(level, value);
    assert (1.0 + d) * level == level + level * d;
  }

  /** A fall to the same non-negative value looks worse the higher it started. */
  lemma HigherStartFallsFurther(low: real, high: real, value: real)
    requires 0.0 < low <= high && 0.0 <= value
    ensures Decline(high, value) <= Decline(low, value)
    ensures -1.0 <= Decline(high, value)
    ensures -1.0 == Decline(high, value) <==> value == 0.0
  {
    hide Decline, Times;
    DeclineScales(low, value);
    DeclineScales(high, value);
    var a, b := 1.0 + Decline(high, value), 1.0 + Decline(low, value);
    FactorOrder(a, b, low, high, value);
  }

  lemma FactorOrder(a: real, b: real, low: real, high: real, value: real)
    requires 0.0 < low <= high && 0.0 <= value && Times(a, high) == value == Times(b, low)
    ensures 0.0 <= a <= b
    ensures a == 0.0 <==> value == 0.0
  {
    hide Times;
    FactorSign(a, high);
    FactorSign(b, low);
    FactorSign(a - b, high);
    TimesDistributes(a, b, high);
    TimesDistributes(b, high, low);
    TimesSign(b, high - low);
  }

  /** On a curve that starts above zero and never goes below it, the one pass finds the largest decline over
      all ordered pairs of points: no pair is worse, and some pair attains it. It lies in [-1, 0], and reaches
      -1 exactly when the curve touches zero. */
  lemma DrawdownIsWorstPair(values: seq<real>, worst: real)
    requires values != [] && values[0] > 0.0 && (forall k | 0 <= k < |values| :: values[k] >= 0.0)
    requires OnePass(values, worst)
    ensures forall i, j | 0 <= i <= j < |values| && values[i] > 0.0 :: worst <= Decline(values[i], values[j])
    ensures exists i, j | 0 <= i <= j < |values| && values[i] > 0.0 :: worst == Decline(values[i], values[j])
    ensures -1.0 <= worst <= 0.0
    ensures worst == -1.0 <==> exists k | 0 <= k < |values| :: values[k] == 0.0
  {
    hide Over, Decline;
    forall i, j | 0 <= i <= j < |values| && values[i] > 0.0 ensures worst <= Decline(values[i], values[j]) {
      var _ := PeakIsHighest(values, j);
      HigherStartFallsFurther(values[i], PeakTo(values, j), values[j]);
      assert worst <= FromPeak(values, j);
    }
    var low, high := AttainingPair(values, worst);
    HigherStartFallsFurther(values[low], values[low], values[high]);
    forall k | 0 <= k < |values| && values[k] == 0.0 ensures worst <= -1.0 {
      HigherStartFallsFurther(values[0], values[0], values[k]);
    }
  }

  lemma AttainingPair(values: seq<real>, worst: real) returns (i: nat, j: nat)
    requires values != [] && values[0] > 0.0 && OnePass(values, worst)
    ensures i <= j < |values| && values[i] > 0.0 && worst == Decline(values[i], values[j])
  {
    hide Over;
    if worst == 0.0 {
      i, j := 0, 0;
      NoMoveNoDecline(values[0]);
    } else {
      j :| 0 <= j < |values| && worst == FromPeak(values, j);
      i := PeakIsHighest(values, j);
      assert values[0] <= PeakTo(values, j);
    }
  }

  lemma NoMoveNoDecline(level: real)
    ensures Decline(level, level) == 0.0
  {
  }

  /** Below zero the running peak is no longer the worst starting point: on 2, 1, -1 the pass reports -1.5,
      while the fall from 1 to -1 is -2. */
  lemma BelowZeroThePeakIsNotWorst()
    ensures OnePass([2.0, 1.0, -1.0], -1.5) && Decline(1.0, -1.0) == -2.0
  {
    var values := [2.0, 1.0, -1.0];
    assert PeakTo(values, 0) == 2.0;
    assert PeakTo(values, 1) == 2.0;
    assert PeakTo(values, 2) == 2.0;
    assert FromPeak(values, 2) == -1.5;
  }
}
