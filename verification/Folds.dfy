/** Walk-forward folds and leakage control (experiments/walkforward.py, experiments/config.py,
    backtesting/walk_forward.py). Dates are day numbers; instants are ticks. */
module Folds {
  import opened Wrappers
  import opened MarketData
  import Ordering

  // ----- periods -----

  /** A half-open range of days. */
  datatype DayRange = DayRange(start: int, end: int) {
    predicate Valid() {
      start < end
    }

    predicate Contains(day: int) {
      start <= day < end
    }
  }

  type Period = range: DayRange | range.Valid() witness DayRange(0, 1)

  /** The last three stand for a period that ends no later than it starts, a date before the calendar's first,
      and the first element of an empty slice. */
  datatype FoldError = BadArgument | Leakage | TooShort | EmptyPeriod | OutOfCalendar | EmptySlice

  const FIRST_DAY := 1

  datatype Outcome<+T> = Made(value: T) | Failed(error: FoldError)

  /** The ordering check on the periods an experiment names: each starts no earlier than the one before
      it ends. */
  predicate InOrder(periods: seq<Period>) {
    forall i | 0 <= i < |periods| - 1 :: periods[i].end <= periods[i + 1].start
  }

  /** Checking neighbours is enough: no day lies in two periods of an accepted list. */
  lemma {:induction false} OrderedPeriodsAreDisjoint(periods: seq<Period>, i: int, j: int, day: int)
    requires InOrder(periods) && 0 <= i < j < |periods|
    ensures periods[i].end <= periods[j].start
    ensures !(periods[i].Contains(day) && periods[j].Contains(day))
    decreases j
  {
    if i < j - 1 {
      OrderedPeriodsAreDisjoint(periods, i, j - 1, day);
    }
  }

  // ----- folds -----

  datatype Fold = Fold(index: nat, train: Period, validation: Option<Period>, test: Period) {
    function Periods(): seq<Period> {
      if validation.Some? then [train, validation.value, test] else [train, test]
    }
  }

  function MakeFold(index: nat, train: Period, validation: Option<Period>, test: Period): Outcome<Fold> {
    if validation.Some? then
      if validation.value.start < train.end then Failed(Leakage)
      else if test.start < validation.value.end then Failed(Leakage)
      else Made(Fold(index, train, validation, test))
    else if test.start < train.end then Failed(Leakage)
    else Made(Fold(index, train, validation, test))
  }

  /** A fold exists exactly when its periods pass the ordering check, so a constructed fold never tests on
      a day it trained or validated on. */
  lemma FoldMeansNoLeak(index: nat, train: Period, validation: Option<Period>, test: Period, day: int)
    ensures MakeFold(index, train, validation, test).Made? <==> InOrder(Fold(index, train, validation, test).Periods())
    ensures MakeFold(index, train, validation, test).Made? && test.Contains(day) ==>
              !train.Contains(day) && train.end <= day && (validation.Some? ==> !validation.value.Contains(day))
  {
    var periods := Fold(index, train, validation, test).Periods();
    if InOrder(periods) {
      assert periods[0].end <= periods[1].start;
      assert validation.Some? ==> periods[1].end <= periods[2].start;
    }
  }

  datatype Plan = Plan(train: nat, validation: nat, test: nat, step: nat, anchored: bool) {
    predicate Valid() {
      train >= 1 && test >= 1 && step >= 1
    }

    function Length(): nat {
      train + validation + test
    }
  }

  /** The fold at position k of a plan over a period. */
  function FoldAt(period: Period, plan: Plan, k: nat): Fold
    requires plan.Valid()
  {
    var start := period.start + Product(plan.step, k);
    var trainEnd := start + plan.train;
    var validationEnd := trainEnd + plan.validation;
    Fold(
      k,
      DayRange(if plan.anchored then period.start else start, trainEnd),
      if plan.validation > 0 then Some(DayRange(trainEnd, validationEnd)) else None,
      DayRange(validationEnd, validationEnd + plan.test))
  }

  function Product(x: nat, k: nat): (p: nat) {
    x * k
  }

  lemma ProductSteps(x: nat, k: nat)
    ensures Product(x, k + 1) == Product(x, k) + x
    ensures Product(x, 0) == 0
  {
  }

  lemma {:induction false} ProductMonotone(x: nat, i: nat, j: nat)
    requires i <= j
    ensures Product(x, i) <= Product(x, j)
  {
  }

  /** How many folds fit: none, or one more than the number of whole steps left over. */
  function FoldCount(days: nat, plan: Plan): nat
    requires plan.Valid()
  {
    if days < plan.Length() then 0 else (days - plan.Length()) / plan.step + 1
  }

  lemma CountIsWholeSteps(days: nat, plan: Plan, k: nat)
    requires plan.Valid() && Product(plan.step, k) + plan.Length() > days
    requires k > 0 ==> Product(plan.step, k - 1) + plan.Length() <= days
    ensures FoldCount(days, plan) == k
  {
    if k > 0 {
      WholeSteps(days - plan.Length(), plan.step, k - 1);
    }
  }

  lemma WholeSteps(x: nat, step: nat, q: nat)
    requires step >= 1 && Product(step, q) <= x < Product(step, q + 1)
    ensures x / step == q
  {
    var r := x - step * q;
    assert x == step * q + r && 0 <= r < step;
    if x / step < q { ProductMonotone(step, x / step + 1, q); }
    if x / step > q { ProductMonotone(step, q + 1, x / step); }
  }

  lemma StepsTaken(x: nat, step: nat)
    requires step >= 1
    ensures Product(step, x / step) <= x < Product(step, x / step) + step
  {
  }

  /** Stepping back by s days: an anchored fold runs out of training days before the calendar does. */
  ghost predicate TrainingRunsOut(period: Period, trainDays: int, s: nat, anchored: bool) {
    anchored && exists k: nat :: Product(s, k) >= trainDays && period.start - Product(s, k) >= FIRST_DAY
  }

  lemma CalendarRunsOutFirst(period: Period, trainDays: int, s: nat, k: nat, anchored: bool)
    requires anchored ==> Product(s, k) < trainDays
    requires period.start - Product(s, k + 1) < FIRST_DAY
    ensures !TrainingRunsOut(period, trainDays, s, anchored)
  {
    forall other: nat
      ensures anchored ==> Product(s, other) < trainDays || period.start - Product(s, other) < FIRST_DAY
    {
      if other <= k { ProductMonotone(s, other, k); } else { ProductMonotone(s, k + 1, other); }
    }
  }

  /** Terminates for every step; a step of zero days means the default. Negative validation days are the one
      way to trip a fold's own leakage check, and a negative step never makes folds: it walks back until an
      anchored training period is empty or the calendar ends. */
  method RollingFolds(
    period: Period, trainDays: int, validationDays: int, testDays: int, stepDays: Option<int>, anchored: bool)
    returns (folds: Outcome<seq<Fold>>)
    ensures trainDays < 1 || testDays < 1 ==> folds == Failed(BadArgument)
    ensures trainDays >= 1 && testDays >= 1 && period.end - period.start < trainDays + validationDays + testDays ==>
              folds == Failed(TooShort)
    ensures trainDays >= 1 && testDays >= 1 && validationDays < 0
            && period.end - period.start >= trainDays + validationDays + testDays ==>
              folds == Failed(Leakage)
    ensures trainDays >= 1 && testDays >= 1 && validationDays >= 0
            && period.end - period.start >= trainDays + validationDays + testDays ==>
              var step := if stepDays.Some? && stepDays.value != 0 then stepDays.value else testDays;
              if step < 0 then
                folds == Failed(
                  if TrainingRunsOut(period, trainDays, -step, anchored) then EmptyPeriod else OutOfCalendar)
              else
                var plan := Plan(trainDays, validationDays, testDays, step, anchored);
                && folds.Made? && |folds.value| == FoldCount(period.end - period.start, plan)
                && forall k | 0 <= k < |folds.value| :: folds.value[k] == FoldAt(period, plan, k)
  {
    hide Product;
    if trainDays < 1 || testDays < 1 {
      return Failed(BadArgument);
    }
    var step := if stepDays.Some? && stepDays.value != 0 then stepDays.value else testDays;
    ghost var pace := if step < 0 then -step else step;
    ghost var plan := Plan(trainDays, if validationDays < 0 then 0 else validationDays, testDays, pace, anchored);
    var made: seq<Fold> := [];
    var index := 0;
    var trainStart := period.start;
    ProductSteps(pace, 0);
    while true
      invariant index == |made|
      invariant step > 0 ==> trainStart == period.start + Product(pace, index)
      invariant step < 0 ==> trainStart == period.start - Product(pace, index)
      invariant index > 0 ==> validationDays >= 0
      invariant step > 0 ==> forall k | 0 <= k < index :: made[k] == FoldAt(period, plan, k)
      invariant step > 0 && index > 0 ==>
                  Product(pace, index - 1) + trainDays + validationDays + testDays <= period.end - period.start
      invariant step < 0 && index > 0 ==> trainDays + validationDays + testDays <= period.end - period.start
      invariant step < 0 && index > 0 ==> trainStart >= FIRST_DAY
      decreases if step > 0 then period.end - trainStart else trainStart
    {
      var trainEnd := trainStart + trainDays;
      var validationEnd := trainEnd + validationDays;
      var testEnd := validationEnd + testDays;
      if testEnd > period.end {
        break;
      }
      if anchored && trainEnd <= period.start {
        return Failed(EmptyPeriod);
      }
      var validation := if validationDays > 0 then Some(DayRange(trainEnd, validationEnd)) else None;
      var fold := MakeFold(
        index, DayRange(if anchored then period.start else trainStart, trainEnd), validation,
        DayRange(validationEnd, testEnd));
      if fold.Failed? {
        return Failed(fold.error);
      }
      made := made + [fold.value];
      ProductSteps(pace, index);
      index := index + 1;
      trainStart := trainStart + step;
      if trainStart < FIRST_DAY && step < 0 {
        CalendarRunsOutFirst(period, trainDays, pace, index - 1, anchored);
        return Failed(OutOfCalendar);
      }
    }
    if made == [] {
      return Failed(TooShort);
    }
    CountIsWholeSteps(period.end - period.start, plan, index);
    return Made(made);
  }

  /** Every fold stays inside the period, in order, and its training ends before anything is tested; the
      folds fill the period: one more would not fit. */
  lemma FoldsStayInside(period: Period, plan: Plan, k: nat)
    requires plan.Valid() && k < FoldCount(period.end - period.start, plan)
    ensures var fold := FoldAt(period, plan, k);
      && InOrder(fold.Periods())
      && period.start <= fold.train.start && fold.test.end <= period.end
      && (plan.anchored ==> fold.train.start == period.start)
      && (!plan.anchored ==> fold.train.end - fold.train.start == plan.train)
    ensures var count := FoldCount(period.end - period.start, plan);
      FoldAt(period, plan, count - 1).test.end + plan.step > period.end
  {
    var spare := period.end - period.start - plan.Length();
    var count := FoldCount(period.end - period.start, plan);
    hide Product;
    ProductMonotone(plan.step, k, count - 1);
    StepsTaken(spare, plan.step);
  }

  /** How a fold is laid out: the first begins with the period and each next one a step later; training, then
      validation if there is any, then testing follow without a gap, each for its own number of days. */
  lemma FoldsAreLaidOut(period: Period, plan: Plan, k: nat)
    requires plan.Valid()
    ensures var fold, next := FoldAt(period, plan, k), FoldAt(period, plan, k + 1);
      && fold.index == k && next.train.end == fold.train.end + plan.step
      && FoldAt(period, plan, 0).train == DayRange(period.start, period.start + plan.train)
      && (if plan.anchored then fold.train.start == period.start else fold.train.end - fold.train.start == plan.train)
      && (fold.validation.Some? <==> plan.validation > 0)
      && (fold.validation.Some? ==> fold.validation.value == DayRange(fold.train.end, fold.train.end + plan.validation))
      && fold.test == DayRange(fold.train.end + plan.validation, fold.train.end + plan.validation + plan.test)
  {
    hide Product;
    ProductSteps(plan.step, k);
    ProductSteps(plan.step, 0);
  }

  /** Test windows never overlap exactly when the step is no shorter than a test window, and leave no gap
      exactly when it is no longer. */
  lemma TestsTile(period: Period, plan: Plan, i: nat, j: nat)
    requires plan.Valid() && i < j
    ensures FoldAt(period, plan, i + 1).test.start - FoldAt(period, plan, i).test.end == plan.step - plan.test
    ensures plan.step >= plan.test ==> FoldAt(period, plan, i).test.end <= FoldAt(period, plan, j).test.start
    ensures plan.step < plan.test ==> FoldAt(period, plan, i + 1).test.Contains(FoldAt(period, plan, i).test.end - 1)
  {
    hide Product;
    ProductSteps(plan.step, i);
    ProductMonotone(plan.step, i + 1, j);
  }

  /** With the default step each day from the first test day to the last lies in the test window of exactly
      one fold. */
  lemma EachDayTestedOnce(period: Period, plan: Plan, day: int) returns (k: nat)
    requires plan.Valid() && plan.step == plan.test
    requires var count := FoldCount(period.end - period.start, plan);
      count > 0 && FoldAt(period, plan, 0).test.start <= day < FoldAt(period, plan, count - 1).test.end
    ensures k < FoldCount(period.end - period.start, plan) && FoldAt(period, plan, k).test.Contains(day)
    ensures forall other: nat | FoldAt(period, plan, other).test.Contains(day) :: other == k
  {
    var count := FoldCount(period.end - period.start, plan);
    var offset := day - FoldAt(period, plan, 0).test.start;
    k := offset / plan.step;
    StepsTaken(offset, plan.step);
    ProductSteps(plan.step, 0);
    ProductSteps(plan.step, count - 1);
    hide Product;
    if k >= count { ProductMonotone(plan.step, count, k); }
    forall other: nat | FoldAt(period, plan, other).test.Contains(day) ensures other == k {
      ProductSteps(plan.step, other);
      WholeSteps(offset, plan.step, other);
    }
  }

  // ----- what a strategy may see -----

  const TICKS_PER_DAY := 86400000000

  function DayOf(instant: int): int {
    instant / TICKS_PER_DAY
  }

  /** The instant a bar could have been acted on. */
  function AvailableAt(bar: PriceBar, lag: Option<int>): int {
    bar.ts + if lag.Some? then lag.value else 0
  }

  function AvailableDay(bar: PriceBar, lag: Option<int>): int {
    DayOf(AvailableAt(bar, lag))
  }

  function EarlierThan(day: int, lag: Option<int>): PriceBar -> bool {
    bar => AvailableDay(bar, lag) < day
  }

  function Within(period: Period, lag: Option<int>): PriceBar -> bool {
    bar => period.Contains(AvailableDay(bar, lag))
  }

  function InPeriod(bars: seq<PriceBar>, period: Period, lag: Option<int>): seq<PriceBar> {
    Filter(bars, Within(period, lag))
  }

  function Before(bars: seq<PriceBar>, day: int, lag: Option<int>): seq<PriceBar> {
    Filter(bars, EarlierThan(day, lag))
  }

  /** A bar is in a period's slice, or before it, by the instant it could have been acted on: its stamp and the lag,
      against the midnights that begin and end the period. */
  lemma SlicedByInstants(bars: seq<PriceBar>, period: Period, lag: Option<int>, bar: PriceBar)
    ensures var known := bar.ts + if lag.Some? then lag.value else 0;
      && (bar in InPeriod(bars, period, lag) <==>
            bar in bars && period.start * 86400000000 <= known < period.end * 86400000000)
      && (bar in Before(bars, period.start, lag) <==> bar in bars && known < period.start * 86400000000)
  {
    FilterMembers(bars, Within(period, lag));
    FilterMembers(bars, EarlierThan(period.start, lag));
    WholeDays(AvailableAt(bar, lag), period.start);
    WholeDays(AvailableAt(bar, lag), period.end);
  }

  lemma WholeDays(instant: int, day: int)
    ensures instant / 86400000000 < day <==> instant < day * 86400000000
  {
  }

  function LastOf(bars: seq<PriceBar>, count: nat): seq<PriceBar> {
    if count < |bars| then bars[|bars| - count..] else bars
  }

  function Sliced(bars: seq<PriceBar>, period: Period, warmup: int, lag: Option<int>): seq<PriceBar> {
    var ordered := SortBars(bars);
    (if warmup > 0 then LastOf(Before(ordered, period.start, lag), warmup) else []) + InPeriod(ordered, period, lag)
  }

  method SliceBars(history: History, period: Period, warmup: int, lag: Option<int>) returns (out: History)
    ensures out == map ticker | ticker in history && Sliced(history[ticker], period, warmup, lag) != []
                     :: Sliced(history[ticker], period, warmup, lag)
  {
    hide Sliced;
    out := map[];
    var left := history.Keys;
    while left != {}
      invariant left <= history.Keys
      invariant out == map ticker | ticker in history.Keys - left && Sliced(history[ticker], period, warmup, lag) != []
                         :: Sliced(history[ticker], period, warmup, lag)
      decreases |left|
    {
      ghost var some := Ordering.Member(left);
      var ticker: Ticker :| ticker in left;
      var kept := SliceOne(history[ticker], period, warmup, lag);
      if kept != [] {
        out := out[ticker := kept];
      }
      left := left - {ticker};
    }
  }

  method SliceOne(bars: seq<PriceBar>, period: Period, warmup: int, lag: Option<int>) returns (kept: seq<PriceBar>)
    ensures kept == Sliced(bars, period, warmup, lag)
  {
    var ordered := SortBars(bars);
    kept := InPeriod(ordered, period, lag);
    if warmup > 0 {
      kept := LastOf(Before(ordered, period.start, lag), warmup) + kept;
    }
  }

  /** How many bars of an ordered series become available before a day. */
  function CountBefore(bars: seq<PriceBar>, day: int, lag: Option<int>): (n: nat)
    ensures n <= |bars|
  {
    if bars == [] || AvailableDay(bars[0], lag) >= day then 0 else 1 + CountBefore(bars[1..], day, lag)
  }

  lemma DaysKeepOrder(bars: seq<PriceBar>, i: int, j: int, lag: Option<int>)
    requires InTimeOrder(bars) && 0 <= i <= j < |bars|
    ensures AvailableDay(bars[i], lag) <= AvailableDay(bars[j], lag)
  {
  }

  lemma AllFrom(bars: seq<PriceBar>, day: int, lag: Option<int>)
    requires InTimeOrder(bars) && (bars != [] ==> AvailableDay(bars[0], lag) >= day)
    ensures forall bar | bar in bars :: AvailableDay(bar, lag) >= day
  {
    forall i | 0 <= i < |bars| ensures AvailableDay(bars[i], lag) >= day {
      DaysKeepOrder(bars, 0, i, lag);
    }
  }

  /** In an ordered series the bars available before a day come first. */
  lemma {:induction false} BeforeIsPrefix(bars: seq<PriceBar>, day: int, lag: Option<int>)
    requires InTimeOrder(bars)
    ensures Before(bars, day, lag) == bars[..CountBefore(bars, day, lag)]
  {
    hide AvailableDay;
    if bars != [] {
      var first, rest := bars[0], bars[1..];
      if AvailableDay(first, lag) >= day {
        AllFrom(bars, day, lag);
        FilterNone(bars, EarlierThan(day, lag));
      } else {
        BeforeIsPrefix(rest, day, lag);
        hide Filter;
        FilterCons(first, rest, EarlierThan(day, lag));
        assert bars == [first] + rest;
        assert bars[..1 + CountBefore(rest, day, lag)] == [first] + rest[..CountBefore(rest, day, lag)];
      }
    }
  }

  /** The bars of the period are the run between those before its start and those before its end. */
  lemma {:induction false} PeriodIsRun(bars: seq<PriceBar>, period: Period, lag: Option<int>)
    requires InTimeOrder(bars)
    ensures var lo, hi := CountBefore(bars, period.start, lag), CountBefore(bars, period.end, lag);
      lo <= hi && InPeriod(bars, period, lag) == bars[lo..hi]
  {
    hide AvailableDay;
    if bars != [] {
      hide Filter;
      var first, rest := bars[0], bars[1..];
      if AvailableDay(first, lag) >= period.start {
        AllFrom(bars, period.start, lag);
        FilterSame(bars, Within(period, lag), EarlierThan(period.end, lag));
        BeforeIsPrefix(bars, period.end, lag);
      } else {
        PeriodIsRun(rest, period, lag);
        FilterCons(first, rest, Within(period, lag));
        var lo, hi := CountBefore(rest, period.start, lag), CountBefore(rest, period.end, lag);
        hide *;
        assert bars == [first] + rest;
        TailSlice(first, rest, lo, hi);
      }
    }
  }

  lemma TailSlice(first: PriceBar, rest: seq<PriceBar>, lo: nat, hi: nat)
    requires lo <= hi <= |rest|
    ensures ([first] + rest)[lo + 1..hi + 1] == rest[lo..hi]
  {
  }

  /** The slice is one contiguous run of the sorted series: every bar that becomes available inside the
      period, led by at most `warmup` earlier ones -- exactly that many if there are so many. */
  lemma SliceIsContiguous(
    bars: seq<PriceBar>, period: Period, warmup: int, lag: Option<int>)
    returns (from: nat, to: nat)
    ensures from <= CountBefore(SortBars(bars), period.start, lag) <= to <= |bars| == |SortBars(bars)|
    ensures Sliced(bars, period, warmup, lag) == SortBars(bars)[from..to]
    ensures to == CountBefore(SortBars(bars), period.end, lag)
    ensures var earlier := CountBefore(SortBars(bars), period.start, lag);
      earlier - from == if warmup <= 0 then 0 else if warmup < earlier then warmup else earlier
  {
    hide SortBars, CountBefore, Before, InPeriod, Stamped, InTimeOrder;
    var ordered := SortBars(bars);
    SortBarsCorrect(bars, 0);
    SameSize(ordered, bars);
    BeforeIsPrefix(ordered, period.start, lag);
    PeriodIsRun(ordered, period, lag);
    var earlier := CountBefore(ordered, period.start, lag);
    to := CountBefore(ordered, period.end, lag);
    from := if warmup <= 0 then earlier else if warmup < earlier then earlier - warmup else 0;
    assert ordered[from..earlier] + ordered[earlier..to] == ordered[from..to];
  }

  lemma SameSize(a: seq<PriceBar>, b: seq<PriceBar>)
    requires multiset(a) == multiset(b)
    ensures |a| == |b|
  {
    assert |multiset(a)| == |a| && |multiset(b)| == |b|;
  }

  /** The check that no bar is stamped at or after the cutoff day. */
  predicate NoFutureBars(bars: seq<PriceBar>, cutoff: int) {
    forall i | 0 <= i < |bars| :: DayOf(bars[i].ts) < cutoff
  }

  /** A slice always passes the future-bar check at the end of its period exactly when the lag is not
      negative: with any negative lag some series fails it. */
  lemma SlicesPassExactly(lag: Option<int>, warmup: int)
    ensures lag.None? || lag.value >= 0 <==>
            forall bars: seq<PriceBar>, period: Period :: NoFutureBars(Sliced(bars, period, warmup, lag), period.end)
  {
    if lag.None? || lag.value >= 0 {
      forall bars: seq<PriceBar>, period: Period ensures NoFutureBars(Sliced(bars, period, warmup, lag), period.end) {
        SlicePasses(bars, period, warmup, lag);
      }
    } else {
      var bars, period := [PriceBar(0, 1.0, 1.0, 1.0, 1.0, 0, "1d", "x")], DayRange(DayOf(lag.value), 0);
      assert SortBars(bars) == bars by { assert SortBars([]) == []; }
      assert InPeriod(bars, period, lag) == bars;
      var sliced := Sliced(bars, period, warmup, lag);
      assert sliced[|sliced| - 1] == bars[0];
      assert !NoFutureBars(sliced, period.end);
    }
  }

  lemma SlicePasses(bars: seq<PriceBar>, period: Period, warmup: int, lag: Option<int>)
    requires lag.None? || lag.value >= 0
    ensures NoFutureBars(Sliced(bars, period, warmup, lag), period.end)
  {
    var sliced := Sliced(bars, period, warmup, lag);
    FilterMembers(SortBars(bars), EarlierThan(period.start, lag));
    FilterMembers(SortBars(bars), Within(period, lag));
    forall i | 0 <= i < |sliced| ensures DayOf(sliced[i].ts) < period.end {
      assert sliced[i] in Before(SortBars(bars), period.start, lag)
        || sliced[i] in InPeriod(SortBars(bars), period, lag);
      assert AvailableDay(sliced[i], lag) < period.end;
    }
  }

  // ----- index-based walk-forward windows -----

  datatype Segment = Segment(trainStart: int, trainEnd: int, testStart: int, testEnd: int)

  function SegmentAt(timeline: seq<int>, train: nat, test: nat, step: nat, k: nat): Segment
    requires train >= 1 && test >= 1 && Product(step, k) + train + test <= |timeline|
  {
    var start := Product(step, k);
    Segment(timeline[start], timeline[start + train - 1], timeline[start + train], timeline[start + train + test - 1])
  }

  /** A slice with Python's bounds: negative ones count from the end, and none is out of range. */
  function Slice(timeline: seq<int>, from: int, to: int): seq<int> {
    var a, b := Bound(|timeline|, from), Bound(|timeline|, to);
    if a < b then timeline[a..b] else []
  }

  function Bound(length: nat, i: int): nat {
    if i >= length then length else if i >= 0 then i else if i + length >= 0 then i + length else 0
  }

  lemma SliceBounds(timeline: seq<int>, from: int, to: int)
    ensures 0 <= from <= to <= |timeline| ==> Slice(timeline, from, to) == timeline[from..to]
    ensures Slice(timeline, from, to) != [] ==> to + |timeline| > 0
  {
  }

  /** A step of zero would repeat the first window for ever. A negative one never makes windows: it walks out
      of the timeline to an empty slice. */
  method Split(timeline: seq<int>, train: nat, test: nat, step: int) returns (windows: Outcome<seq<Segment>>)
    requires train >= 1 && test >= 1 && (step == 0 ==> |timeline| < train + test)
    ensures |timeline| < train + test ==> windows == Made([])
    ensures |timeline| >= train + test && step < 0 ==> windows == Failed(EmptySlice)
    ensures |timeline| >= train + test && step > 0 ==>
              && windows.Made? && |windows.value| == FoldCount(|timeline|, Plan(train, 0, test, step, false))
              && forall k | 0 <= k < |windows.value| ::
                   Product(step, k) + train + test <= |timeline|
                     && windows.value[k] == SegmentAt(timeline, train, test, step, k)
  {
    hide Product, Slice;
    var made: seq<Segment> := [];
    var start := 0;
    ghost var pace: nat := if step > 0 then step else 1;
    ProductSteps(pace, 0);
    while start + train + test <= |timeline|
      invariant step > 0 ==> start == Product(pace, |made|)
      invariant made == [] ==> start == 0
      invariant made != [] ==> train + test <= |timeline|
      invariant step < 0 ==> start <= 0
      invariant step > 0 && |made| > 0 ==> Product(pace, |made| - 1) + train + test <= |timeline|
      invariant step > 0 ==> forall k | 0 <= k < |made| ::
                  Product(step, k) + train + test <= |timeline| && made[k] == SegmentAt(timeline, train, test, step, k)
      decreases if step > 0 then |timeline| - start else start + train + |timeline|
    {
      var trainSlice := Slice(timeline, start, start + train);
      var testSlice := Slice(timeline, start + train, start + train + test);
      SliceBounds(timeline, start, start + train);
      SliceBounds(timeline, start + train, start + train + test);
      if trainSlice == [] || testSlice == [] {
        return Failed(EmptySlice);
      }
      ProductSteps(pace, |made|);
      made := made + [Segment(trainSlice[0], trainSlice[|trainSlice| - 1], testSlice[0], testSlice[|testSlice| - 1])];
      start := start + step;
    }
    if step > 0 {
      CountIsWholeSteps(|timeline|, Plan(train, 0, test, step, false), |made|);
    }
    return Made(made);
  }

  /** On a strictly increasing timeline every window trains strictly before it tests, and with the default
      step the closed test ranges of different windows share no instant. */
  lemma WindowsDoNotLeak(timeline: seq<int>, train: nat, test: nat, step: nat, i: nat, j: nat)
    requires train >= 1 && test >= 1 && step >= 1 && i <= j && Product(step, j) + train + test <= |timeline|
    requires forall m, n | 0 <= m < n < |timeline| :: timeline[m] < timeline[n]
    ensures Product(step, i) + train + test <= |timeline|
    ensures var window := SegmentAt(timeline, train, test, step, i);
      && window.trainStart <= window.trainEnd < window.testStart <= window.testEnd
      && window.trainStart == timeline[Product(step, i)] && window.trainEnd == timeline[Product(step, i) + train - 1]
      && window.testStart == timeline[Product(step, i) + train]
      && window.testEnd == timeline[Product(step, i) + train + test - 1]
    ensures step >= test && i < j ==>
              SegmentAt(timeline, train, test, step, i).testEnd < SegmentAt(timeline, train, test, step, j).testStart
  {
    hide Product;
    ProductMonotone(step, i, j);
    if i < j {
      ProductSteps(step, i);
      ProductMonotone(step, i + 1, j);
    }
  }
}
