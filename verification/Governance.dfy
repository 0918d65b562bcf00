/** The budget ledger (ai/governance.py). Its windows prune and forget: each is the log of everything ever
    recorded less the entries pruning has popped off the front. What that forgets is harmless while clock
    readings arrive in order, cautious in a trailing window when they do not, and wrong for a calendar
    month exactly when a check pops an entry of the current month. */
module Governance {
  import opened Wrappers
  import opened Rounding
  import opened AiTypes
  import opened Windows

  // ----- budgets -----

  datatype WindowRule = WindowRule(name: string, span: Span, limit: real)

  datatype Budget = Budget(perRequest: real, warnRatio: real, rules: seq<WindowRule>)

  datatype BudgetState = Healthy | Warning | Exceeded

  datatype BudgetVerdict = BudgetVerdict(
    state: BudgetState, window: Option<string>, spent: Option<real>, limit: Option<real>)

  const HEALTHY := BudgetVerdict(Healthy, None, None, None)

  /** The configured windows: a limit of zero or less means no such window. */
  function Configure(
    perRequest: real, perHour: real, perDay: real, perMonth: real, warnRatio: real, monthOf: int -> int)
    : Budget
  {
    Budget(perRequest, warnRatio,
      (if perHour > 0.0 then [WindowRule("hour", Trailing(HOUR), perHour)] else [])
      + (if perDay > 0.0 then [WindowRule("day", Trailing(DAY), perDay)] else [])
      + (if perMonth > 0.0 then [WindowRule("month", CalendarMonth(monthOf), perMonth)] else []))
  }

  /** The first window, if any, whose spending plus the amount passes its limit scaled by the ratio. */
  function FirstOver(rules: seq<WindowRule>, log: seq<Entry>, amount: real, now: int, ratio: real): Option<WindowRule> {
    if rules == [] then None
    else if Spend(rules[0].span, log, now) + amount > Times(rules[0].limit, ratio) then Some(rules[0])
    else FirstOver(rules[1..], log, amount, now, ratio)
  }

  /** The budget check against everything ever recorded. */
  function CheckBudget(budget: Budget, log: seq<Entry>, projected: Cost, now: int): BudgetVerdict {
    if projected.None? then HEALTHY
    else
      var amount := projected.value;
      if budget.perRequest > 0.0 && amount > budget.perRequest then
        BudgetVerdict(Exceeded, Some("request"), Some(amount), Some(budget.perRequest))
      else
        var over := FirstOver(budget.rules, log, amount, now, 1.0);
        if over.Some? then
          BudgetVerdict(Exceeded, Some(over.value.name), Some(Spend(over.value.span, log, now)), Some(over.value.limit))
        else
          var near := FirstOver(budget.rules, log, amount, now, budget.warnRatio);
          if near.Some? then
            BudgetVerdict(Warning, Some(near.value.name), Some(Spend(near.value.span, log, now)),
              Some(near.value.limit))
          else HEALTHY
  }

  lemma {:induction false} FirstOverNone(rules: seq<WindowRule>, log: seq<Entry>, amount: real, now: int, ratio: real)
    ensures FirstOver(rules, log, amount, now, ratio).None? <==>
            forall i | 0 <= i < |rules| :: Spend(rules[i].span, log, now) + amount <= Times(rules[i].limit, ratio)
  {
    if rules != [] {
      FirstOverNone(rules[1..], log, amount, now, ratio);
      forall i | 1 <= i < |rules| ensures rules[i] == rules[1..][i - 1] {}
    }
  }

  /** A projection passes exactly when it fits the per-request ceiling and every window, or is unknown. */
  lemma AllowedMeansEveryWindowFits(budget: Budget, log: seq<Entry>, projected: Cost, now: int)
    ensures CheckBudget(budget, log, projected, now).state != Exceeded <==>
            projected.Some? ==>
              && (budget.perRequest > 0.0 ==> projected.value <= budget.perRequest)
              && forall i | 0 <= i < |budget.rules| ::
                   Spend(budget.rules[i].span, log, now) + projected.value <= budget.rules[i].limit
  {
    if projected.Some? {
      FirstOverNone(budget.rules, log, projected.value, now, 1.0);
      forall i | 0 <= i < |budget.rules| ensures Times(budget.rules[i].limit, 1.0) == budget.rules[i].limit {}
    }
  }

  /** Window i is the first that the amount would take past its limit scaled by the ratio. */
  ghost predicate FirstPast(rules: seq<WindowRule>, log: seq<Entry>, amount: real, now: int, ratio: real, i: int) {
    && 0 <= i < |rules| && Spend(rules[i].span, log, now) + amount > Times(rules[i].limit, ratio)
    && forall j | 0 <= j < i :: Spend(rules[j].span, log, now) + amount <= Times(rules[j].limit, ratio)
  }

  lemma {:induction false} FirstOverIsFirst(
    rules: seq<WindowRule>, log: seq<Entry>, amount: real, now: int, ratio: real)
    ensures forall i | FirstPast(rules, log, amount, now, ratio, i) ::
              FirstOver(rules, log, amount, now, ratio) == Some(rules[i])
  {
    hide Times, Spend;
    if rules != [] {
      FirstOverIsFirst(rules[1..], log, amount, now, ratio);
      forall i | FirstPast(rules, log, amount, now, ratio, i) && i > 0
        ensures FirstPast(rules[1..], log, amount, now, ratio, i - 1)
      {
        assert rules[1..][i - 1] == rules[i];
        forall j | 0 <= j < i - 1 ensures rules[1..][j] == rules[j + 1] {}
      }
    }
  }

  ghost predicate Names(verdict: BudgetVerdict, rule: WindowRule, log: seq<Entry>, now: int) {
    verdict.window == Some(rule.name) && verdict.spent == Some(Spend(rule.span, log, now))
      && verdict.limit == Some(rule.limit)
  }

  /** What a verdict says of a known projection: over the per-request ceiling first; then the first window it would
      take past its limit; then, as a warning, the first it would take past the warning share of its limit, with
      what that window has spent; healthy when there is none. */
  lemma VerdictMeans(budget: Budget, log: seq<Entry>, amount: real, now: int)
    ensures var verdict := CheckBudget(budget, log, Some(amount), now);
      if budget.perRequest > 0.0 && amount > budget.perRequest then
        verdict == BudgetVerdict(Exceeded, Some("request"), Some(amount), Some(budget.perRequest))
      else
        && (forall i | FirstPast(budget.rules, log, amount, now, 1.0, i) ::
              verdict.state == Exceeded && Names(verdict, budget.rules[i], log, now))
        && ((forall i :: !FirstPast(budget.rules, log, amount, now, 1.0, i)) ==>
              && (forall i | FirstPast(budget.rules, log, amount, now, budget.warnRatio, i) ::
                    verdict.state == Warning && Names(verdict, budget.rules[i], log, now))
              && ((forall i :: !FirstPast(budget.rules, log, amount, now, budget.warnRatio, i)) ==> verdict == HEALTHY))
  {
    hide Times, Spend;
    FirstOverIsFirst(budget.rules, log, amount, now, 1.0);
    FirstOverIsFirst(budget.rules, log, amount, now, budget.warnRatio);
    SomeIsFirst(budget.rules, log, amount, now, 1.0);
    SomeIsFirst(budget.rules, log, amount, now, budget.warnRatio);
  }

  lemma {:induction false} SomeIsFirst(rules: seq<WindowRule>, log: seq<Entry>, amount: real, now: int, ratio: real)
    ensures FirstOver(rules, log, amount, now, ratio).Some? ==> exists i :: FirstPast(rules, log, amount, now, ratio, i)
  {
    hide Times, Spend;
    if rules != [] {
      SomeIsFirst(rules[1..], log, amount, now, ratio);
      if Spend(rules[0].span, log, now) + amount > Times(rules[0].limit, ratio) {
        assert FirstPast(rules, log, amount, now, ratio, 0);
      } else if i :| FirstPast(rules[1..], log, amount, now, ratio, i) {
        forall j | 1 <= j < |rules| ensures rules[j] == rules[1..][j - 1] {}
        assert FirstPast(rules, log, amount, now, ratio, i + 1);
      }
    }
  }

  /** From the settings: a known projection passes exactly when it is within the per-request ceiling, and what was
      spent in the closed hour of 3600 seconds, in the closed day of 86400 and in the calendar month, each with it,
      is within that window's ceiling. A ceiling of zero or less constrains nothing. */
  lemma SettingsDecide(
    perRequest: real, perHour: real, perDay: real, perMonth: real, warnRatio: real, monthOf: int -> int,
    log: seq<Entry>, amount: real, now: int)
    ensures var budget := Configure(perRequest, perHour, perDay, perMonth, warnRatio, monthOf);
      CheckBudget(budget, log, Some(amount), now).state != Exceeded <==>
        && (perRequest > 0.0 ==> amount <= perRequest)
        && (perHour > 0.0 ==> Spend(Trailing(3600 * 1000000), log, now) + amount <= perHour)
        && (perDay > 0.0 ==> Spend(Trailing(86400 * 1000000), log, now) + amount <= perDay)
        && (perMonth > 0.0 ==> Spend(CalendarMonth(monthOf), log, now) + amount <= perMonth)
  {
    hide Spend, CheckBudget;
    var budget := Configure(perRequest, perHour, perDay, perMonth, warnRatio, monthOf);
    AllowedMeansEveryWindowFits(budget, log, Some(amount), now);
    ConfiguredWindows(perRequest, perHour, perDay, perMonth, warnRatio, monthOf);
  }

  /** The configured windows are those of the positive ceilings, each with its own width, name and ceiling, in
      this order. */
  lemma ConfiguredWindows(
    perRequest: real, perHour: real, perDay: real, perMonth: real, warnRatio: real, monthOf: int -> int)
    ensures var budget := Configure(perRequest, perHour, perDay, perMonth, warnRatio, monthOf);
      var hour, day := WindowRule("hour", Trailing(3600 * 1000000), perHour),
        WindowRule("day", Trailing(86400 * 1000000), perDay);
      var month := WindowRule("month", CalendarMonth(monthOf), perMonth);
      && budget.perRequest == perRequest && budget.warnRatio == warnRatio
      && (forall i | 0 <= i < |budget.rules| ::
            budget.rules[i] in {hour, day, month} && budget.rules[i].limit > 0.0)
      && (perHour > 0.0 ==> |budget.rules| > 0 && budget.rules[0] == hour)
      && (perDay > 0.0 ==>
            var i := if perHour > 0.0 then 1 else 0;
            |budget.rules| > i && budget.rules[i] == day)
      && (perMonth > 0.0 ==> |budget.rules| > 0 && budget.rules[|budget.rules| - 1] == month)
  {
  }

  /** A charge is remembered exactly once, and an unknown cost is not remembered as zero. */
  function Charge(log: seq<Entry>, cost: Cost, now: int): seq<Entry> {
    if cost.None? then log else log + [Entry(now, cost.value)]
  }

  lemma FirstOverStep(rules: seq<WindowRule>, log: seq<Entry>, amount: real, now: int, ratio: real, i: nat)
    requires i <= |rules|
    ensures FirstOver(rules[i..], log, amount, now, ratio) ==
            if i == |rules| then None
            else if Spend(rules[i].span, log, now) + amount > Times(rules[i].limit, ratio) then Some(rules[i])
            else FirstOver(rules[i + 1..], log, amount, now, ratio)
  {
    if i < |rules| {
      assert rules[i..][1..] == rules[i + 1..];
    }
  }

  // ----- what pruning leaves -----

  /** The deque of a window: the log without its first `popped` entries. */
  function Kept(log: seq<Entry>, popped: nat): seq<Entry> {
    if popped <= |log| then log[popped..] else []
  }

  /** Pruning pops entries off the front until one is inside the window that ends now. */
  function Popped(span: Span, log: seq<Entry>, popped: nat, now: int): nat
    decreases |log| - popped
  {
    if popped < |log| && !Inside(span, log[popped].at, now) then Popped(span, log, popped + 1, now) else popped
  }

  /** One pass over the windows from the i-th on, each pruned as it is visited, up to the first that the
      amount would take past its limit. */
  function Sweep(rules: seq<WindowRule>, log: seq<Entry>, popped: seq<nat>, amount: real, now: int, ratio: real, i: nat)
    : (Option<nat>, seq<nat>)
    requires i <= |rules| == |popped|
    decreases |rules| - i
  {
    if i == |rules| then (None, popped)
    else
      var next := popped[i := Popped(rules[i].span, log, popped[i], now)];
      if Total(Kept(log, next[i])) + amount > Times(rules[i].limit, ratio) then (Some(i), next)
      else Sweep(rules, log, next, amount, now, ratio, i + 1)
  }

  function Overdrawn(budget: Budget, log: seq<Entry>, popped: seq<nat>, state: BudgetState, i: nat): BudgetVerdict
    requires i < |budget.rules| == |popped|
  {
    BudgetVerdict(state, Some(budget.rules[i].name), Some(Total(Kept(log, popped[i]))), Some(budget.rules[i].limit))
  }

  /** The check as the ledger makes it: the verdict, and what it has popped by then. */
  function CheckPruned(budget: Budget, log: seq<Entry>, popped: seq<nat>, projected: Cost, now: int)
    : (r: (BudgetVerdict, seq<nat>))
    requires |popped| == |budget.rules|
    ensures |r.1| == |popped|
  {
    if projected.None? then (HEALTHY, popped)
    else if budget.perRequest > 0.0 && projected.value > budget.perRequest then
      (BudgetVerdict(Exceeded, Some("request"), projected, Some(budget.perRequest)), popped)
    else
      var (over, after) := Sweep(budget.rules, log, popped, projected.value, now, 1.0, 0);
      if over.Some? then
        SweepShape(budget.rules, log, popped, projected.value, now, 1.0, 0);
        (Overdrawn(budget, log, after, Exceeded, over.value), after)
      else
        SweepShape(budget.rules, log, popped, projected.value, now, 1.0, 0);
        var (near, final) := Sweep(budget.rules, log, after, projected.value, now, budget.warnRatio, 0);
        SweepShape(budget.rules, log, after, projected.value, now, budget.warnRatio, 0);
        if near.Some? then (Overdrawn(budget, log, final, Warning, near.value), final) else (HEALTHY, final)
  }

  lemma {:induction false} SweepShape(
    rules: seq<WindowRule>, log: seq<Entry>, popped: seq<nat>, amount: real, now: int, ratio: real, i: nat)
    requires i <= |rules| == |popped|
    ensures var (over, after) := Sweep(rules, log, popped, amount, now, ratio, i);
      && |after| == |popped| && (over.Some? ==> i <= over.value < |rules|)
      && (forall j | 0 <= j < |popped| ::
           after[j] == popped[j] || after[j] == Popped(rules[j].span, log, popped[j], now))
      && (forall j | 0 <= j < i :: after[j] == popped[j])
      && (over.None? ==> forall j | i <= j < |rules| ::
            && after[j] == Popped(rules[j].span, log, popped[j], now)
            && Total(Kept(log, after[j])) + amount <= Times(rules[j].limit, ratio))
    decreases |rules| - i
  {
    hide Popped, Kept, Total, Times;
    if i < |rules| {
      SweepShape(rules, log, popped[i := Popped(rules[i].span, log, popped[i], now)], amount, now, ratio, i + 1);
    }
  }

  lemma {:induction false} PoppedShape(span: Span, log: seq<Entry>, popped: nat, now: int)
    requires popped <= |log|
    ensures var after := Popped(span, log, popped, now);
      && popped <= after <= |log|
      && (forall k | popped <= k < after :: !Inside(span, log[k].at, now))
      && (after < |log| ==> Inside(span, log[after].at, now))
    decreases |log| - popped
  {
    if popped < |log| && !Inside(span, log[popped].at, now) {
      PoppedShape(span, log, popped + 1, now);
    }
  }

  /** Popping again with the same reading pops nothing more. */
  lemma PoppedTwice(span: Span, log: seq<Entry>, popped: nat, now: int)
    ensures Popped(span, log, Popped(span, log, popped, now), now) == Popped(span, log, popped, now)
  {
    if popped <= |log| {
      PoppedShape(span, log, popped, now);
    }
  }

  /** What a check does to each window, and what it means that it let a projection through. */
  lemma CheckPrunedShape(budget: Budget, log: seq<Entry>, popped: seq<nat>, projected: Cost, now: int, i: nat)
    requires |popped| == |budget.rules| && i < |budget.rules|
    ensures var (verdict, after) := CheckPruned(budget, log, popped, projected, now);
      && |after| == |popped|
      && (after[i] == popped[i] || after[i] == Popped(budget.rules[i].span, log, popped[i], now))
      && (verdict.state != Exceeded && projected.Some? ==>
            && after[i] == Popped(budget.rules[i].span, log, popped[i], now)
            && Total(Kept(log, after[i])) + projected.value <= budget.rules[i].limit)
  {
    hide Sweep, Popped, Kept, Total;
    if projected.Some? {
      SweepShape(budget.rules, log, popped, projected.value, now, 1.0, 0);
      var (_, after) := Sweep(budget.rules, log, popped, projected.value, now, 1.0, 0);
      SweepShape(budget.rules, log, after, projected.value, now, budget.warnRatio, 0);
      PoppedTwice(budget.rules[i].span, log, popped[i], now);
      assert Times(budget.rules[i].limit, 1.0) == budget.rules[i].limit;
    }
  }

  // ----- clock readings that arrive in order -----

  /** What has been popped is outside the window that ends now, and so outside every later one. */
  ghost predicate Gone(span: Span, log: seq<Entry>, popped: nat, now: int) {
    popped <= |log| && forall k | 0 <= k < popped :: !Inside(span, log[k].at, now)
  }

  ghost predicate Punctual(rules: seq<WindowRule>, log: seq<Entry>, popped: seq<nat>, now: int) {
    && |popped| == |rules| && Chronological(log, now)
    && forall i | 0 <= i < |rules| :: WellFormed(rules[i].span) && Gone(rules[i].span, log, popped[i], now)
  }

  lemma GoneLater(span: Span, log: seq<Entry>, popped: nat, now: int, later: int)
    requires WellFormed(span) && NotLater(log, now) && Gone(span, log, popped, now) && now <= later
    ensures Gone(span, log, popped, later)
  {
    forall k | 0 <= k < popped ensures !Inside(span, log[k].at, later) {
      if Inside(span, log[k].at, later) {
        InsideShrinks(span, log[k].at, log[k].at, now, later);
      }
    }
  }

  lemma {:induction false} SpendOfKept(span: Span, log: seq<Entry>, popped: nat, now: int)
    requires popped <= |log|
    requires forall i | 0 <= i < popped :: !Inside(span, log[i].at, now)
    ensures NonNegative(log) ==> Spend(span, log, now) <= Total(log[popped..])
    ensures (forall i | popped <= i < |log| :: log[i].at <= now && Inside(span, log[i].at, now)) ==>
              Spend(span, log, now) == Total(log[popped..])
    decreases |log|
  {
    hide Spend, Total, Inside;
    if log == [] {
      NothingSpent(span, now);
    } else {
      var front, last := log[..|log| - 1], log[|log| - 1];
      assert log == front + [last];
      SpendSnoc(span, front, last, now);
      if popped == |log| {
        SpendOfKept(span, front, |front|, now);
        assert front[|front|..] == [] == log[popped..];
        NothingSpent(span, now);
      } else {
        SpendOfKept(span, front, popped, now);
        assert log[popped..] == front[popped..] + [last];
        SpendSnoc(span, front[popped..], last, now);
      }
    }
  }

  lemma NothingSpent(span: Span, now: int)
    ensures Spend(span, [], now) == Total([]) == 0.0
  {
  }

  /** A trailing window is only ever cautious: a reading that is old when it is used pops nothing that the
      window of this moment still counts. */
  lemma TrailingPopsOnlyPast(span: Span, log: seq<Entry>, popped: nat, stamp: int, now: int)
    requires span.Trailing? && Gone(span, log, popped, now) && stamp <= now
    ensures Gone(span, log, Popped(span, log, popped, stamp), now)
  {
    PoppedShape(span, log, popped, stamp);
  }

  /** A calendar month is safe from a reading of the same month, however old. */
  lemma SameMonthPopsOnlyPast(span: Span, log: seq<Entry>, popped: nat, stamp: int, now: int)
    requires span.CalendarMonth? && Gone(span, log, popped, now) && span.monthOf(stamp) == span.monthOf(now)
    ensures Gone(span, log, Popped(span, log, popped, stamp), now)
  {
    PoppedShape(span, log, popped, stamp);
  }

  /** With a reading of an earlier month it is safe exactly when no entry of the current month comes before
      the first entry of the reading's own month, which is where the popping stops. */
  lemma OldMonthPopsOnlyPastExactly(span: Span, log: seq<Entry>, popped: nat, stamp: int, now: int)
    requires span.CalendarMonth? && Gone(span, log, popped, now) && span.monthOf(stamp) != span.monthOf(now)
    ensures Gone(span, log, Popped(span, log, popped, stamp), now) <==>
            forall k | popped <= k < |log| && span.monthOf(log[k].at) == span.monthOf(now) ::
              exists j :: popped <= j < k && span.monthOf(log[j].at) == span.monthOf(stamp)
  {
    PoppedShape(span, log, popped, stamp);
    var after := Popped(span, log, popped, stamp);
    if Gone(span, log, after, now) {
      forall k | popped <= k < |log| && span.monthOf(log[k].at) == span.monthOf(now)
        ensures exists j :: popped <= j < k && span.monthOf(log[j].at) == span.monthOf(stamp)
      {
        assert Inside(span, log[k].at, now) && after <= k;
        assert Inside(span, log[after].at, stamp) && after != k;
      }
    } else {
      var k :| 0 <= k < after && Inside(span, log[k].at, now);
      assert popped <= k;
    }
  }

  /** In order, the pruned deque holds exactly what the full history counts. */
  lemma PrunedIsExact(span: Span, log: seq<Entry>, popped: nat, latest: int, now: int)
    requires WellFormed(span) && Chronological(log, latest) && Gone(span, log, popped, latest) && latest <= now
    ensures var after := Popped(span, log, popped, now);
      Gone(span, log, after, now) && Total(Kept(log, after)) == Spend(span, log, now)
  {
    hide Inside, Total, Spend, WellFormed;
    var after := Popped(span, log, popped, now);
    GoneLater(span, log, popped, latest, now);
    PoppedShape(span, log, popped, now);
    forall i | after <= i < |log| ensures Inside(span, log[i].at, now) {
      InsideShrinks(span, log[after].at, log[i].at, now, now);
    }
    SpendOfKept(span, log, after, now);
  }

  /** In order, a sweep finds what the full history finds. */
  lemma {:induction false} SweepIsExact(
    rules: seq<WindowRule>, log: seq<Entry>, popped: seq<nat>, amount: real, latest: int, now: int, ratio: real, i: nat)
    requires i <= |rules| && Punctual(rules, log, popped, latest) && latest <= now
    ensures var (over, after) := Sweep(rules, log, popped, amount, now, ratio, i);
      && Punctual(rules, log, after, now)
      && (if over.None? then FirstOver(rules[i..], log, amount, now, ratio).None?
          else
            && over.value < |rules| && FirstOver(rules[i..], log, amount, now, ratio) == Some(rules[over.value])
            && Total(Kept(log, after[over.value])) == Spend(rules[over.value].span, log, now))
    decreases |rules| - i
  {
    hide Popped, Kept, Total, Times, Spend, Gone, WellFormed;
    FirstOverStep(rules, log, amount, now, ratio, i);
    PunctualLater(rules, log, popped, latest, now);
    if i < |rules| {
      PrunedIsExact(rules[i].span, log, popped[i], latest, now);
      var next := popped[i := Popped(rules[i].span, log, popped[i], now)];
      SweepShape(rules, log, next, amount, now, ratio, i + 1);
      SweepIsExact(rules, log, next, amount, now, now, ratio, i + 1);
    }
  }

  lemma PunctualLater(rules: seq<WindowRule>, log: seq<Entry>, popped: seq<nat>, now: int, later: int)
    requires Punctual(rules, log, popped, now) && now <= later
    ensures Punctual(rules, log, popped, later)
  {
    hide Gone, WellFormed;
    forall i | 0 <= i < |rules| ensures Gone(rules[i].span, log, popped[i], later) {
      GoneLater(rules[i].span, log, popped[i], now, later);
    }
  }

  /** While clock readings arrive in order, forgetting changes no verdict. */
  lemma PrunedCheckIsExact(budget: Budget, log: seq<Entry>, popped: seq<nat>, projected: Cost, latest: int, now: int)
    requires Punctual(budget.rules, log, popped, latest) && latest <= now
    ensures var (verdict, after) := CheckPruned(budget, log, popped, projected, now);
      verdict == CheckBudget(budget, log, projected, now) && Punctual(budget.rules, log, after, now)
  {
    hide Sweep, FirstOver, Spend, Total, Kept, Gone, WellFormed;
    PunctualLater(budget.rules, log, popped, latest, now);
    if projected.Some? {
      assert budget.rules[0..] == budget.rules;
      SweepIsExact(budget.rules, log, popped, projected.value, latest, now, 1.0, 0);
      var (over, after) := Sweep(budget.rules, log, popped, projected.value, now, 1.0, 0);
      SweepIsExact(budget.rules, log, after, projected.value, now, now, budget.warnRatio, 0);
      var full := FirstOver(budget.rules, log, projected.value, now, 1.0);
      assert over.Some? <==> full.Some?;
      if over.Some? {
        assert CheckPruned(budget, log, popped, projected, now).0 == CheckBudget(budget, log, projected, now);
      } else {
        var (near, final) := Sweep(budget.rules, log, after, projected.value, now, budget.warnRatio, 0);
        var nearFull := FirstOver(budget.rules, log, projected.value, now, budget.warnRatio);
        assert near.Some? <==> nearFull.Some?;
        assert CheckPruned(budget, log, popped, projected, now).0 == CheckBudget(budget, log, projected, now);
      }
    }
  }

  /** A new charge, stamped in order, keeps the windows punctual. */
  lemma ChargeIsPunctual(rules: seq<WindowRule>, log: seq<Entry>, popped: seq<nat>, cost: Cost, latest: int, now: int)
    requires Punctual(rules, log, popped, latest) && latest <= now
    ensures Punctual(rules, Charge(log, cost, now), popped, now)
  {
    PunctualLater(rules, log, popped, latest, now);
  }

  class Window {
    const rule: WindowRule
    var entries: seq<Entry>
    ghost var log: seq<Entry>
    ghost var popped: nat

    /** What is left is the tail of everything ever appended. */
    ghost predicate Valid()
      reads this
    {
      popped <= |log| && entries == log[popped..]
    }

    constructor (rule: WindowRule)
      ensures Valid() && this.rule == rule && log == [] && popped == 0
    {
      this.rule := rule;
      entries, log, popped := [], [], 0;
    }

    /** Pops entries off the front while they are outside the window that ends now, for good. */
    method Prune(now: int)
      requires Valid()
      modifies this
      ensures Valid() && log == old(log)
      ensures popped == Popped(rule.span, log, old(popped), now)
    {
      while entries != [] && !Inside(rule.span, entries[0].at, now)
        invariant Valid() && log == old(log)
        invariant Popped(rule.span, log, popped, now) == Popped(rule.span, log, old(popped), now)
        decreases |entries|
      {
        assert entries[0] == log[popped];
        entries := entries[1..];
        popped := popped + 1;
      }
      if popped < |log| {
        assert entries[0] == log[popped];
      }
    }

    method Spent(now: int) returns (spent: real)
      requires Valid()
      modifies this
      ensures Valid() && log == old(log)
      ensures popped == Popped(rule.span, log, old(popped), now) && spent == Total(Kept(log, popped))
    {
      Prune(now);
      spent := Total(entries);
    }

    method Append(amount: real, now: int)
      requires Valid()
      modifies this
      ensures Valid() && log == old(log) + [Entry(now, amount)] && popped == old(popped)
    {
      entries := entries + [Entry(now, amount)];
      log := log + [Entry(now, amount)];
    }
  }

  /** What the configured windows have in common, whatever the settings say. */
  lemma ConfiguredWell(
    perRequest: real, perHour: real, perDay: real, perMonth: real, warnRatio: real, monthOf: int -> int)
    requires WellFormed(CalendarMonth(monthOf))
    ensures var rules := Configure(perRequest, perHour, perDay, perMonth, warnRatio, monthOf).rules;
      forall i | 0 <= i < |rules| :: WellFormed(rules[i].span) && rules[i].limit > 0.0
  {
  }

  class BudgetLedger {
    const budget: Budget
    const windows: seq<Window>
    ghost var log: seq<Entry>

    ghost predicate Distinct() {
      forall i, j | 0 <= i < j < |windows| :: windows[i] != windows[j]
    }

    /** Every window has been told the whole log. */
    ghost predicate InStep(log: seq<Entry>)
      reads windows
    {
      && |windows| == |budget.rules|
      && forall i | 0 <= i < |windows| ::
           windows[i].Valid() && windows[i].rule == budget.rules[i] && windows[i].log == log
    }

    ghost predicate Valid()
      reads this, windows
    {
      Distinct() && InStep(log)
    }

    /** How much of the log each window has popped. */
    ghost function Counts(): (counts: seq<nat>)
      reads windows
      ensures |counts| == |windows|
    {
      seq(|windows|, i requires 0 <= i < |windows| reads windows => windows[i].popped)
    }

    constructor (perRequest: real, perHour: real, perDay: real, perMonth: real, warnRatio: real, monthOf: int -> int)
      ensures Valid() && fresh(windows) && log == [] && forall i | 0 <= i < |windows| :: Counts()[i] == 0
      ensures budget == Configure(perRequest, perHour, perDay, perMonth, warnRatio, monthOf)
    {
      hide Configure, Window.Valid;
      var settings := Configure(perRequest, perHour, perDay, perMonth, warnRatio, monthOf);
      var built: seq<Window> := [];
      for i := 0 to |settings.rules|
        invariant |built| == i && fresh(built)
        invariant forall j, k | 0 <= j < k < i :: built[j] != built[k]
        invariant forall j | 0 <= j < i ::
                    built[j].Valid() && built[j].rule == settings.rules[j] && built[j].log == [] && built[j].popped == 0
      {
        var window := new Window(settings.rules[i]);
        built := built + [window];
      }
      budget, windows, log := settings, built, [];
    }

    /** The first window over its scaled limit, visiting windows in order and pruning as it goes. */
    method Scan(amount: real, now: int, ratio: real) returns (over: Option<Window>, spent: real, ghost at: nat)
      requires Valid()
      modifies windows
      ensures Valid()
      ensures Sweep(budget.rules, log, old(Counts()), amount, now, ratio, 0)
              == (if over.None? then None else Some(at), Counts())
      ensures over.Some? ==> at < |windows| && over.value == windows[at] && spent == Total(Kept(log, Counts()[at]))
    {
      hide Times, Total, Kept, Popped, Window.Valid;
      ghost var goal := Sweep(budget.rules, log, Counts(), amount, now, ratio, 0);
      for i := 0 to |windows|
        invariant Valid()
        invariant goal == Sweep(budget.rules, log, Counts(), amount, now, ratio, i)
      {
        ghost var before := Counts();
        spent := windows[i].Spent(now);
        assert Counts() == before[i := Popped(budget.rules[i].span, log, before[i], now)];
        if spent + amount > Times(windows[i].rule.limit, ratio) {
          return Some(windows[i]), spent, i;
        }
      }
      return None, 0.0, 0;
    }

    /** The verdict and the popping of the specification, whatever order the clock readings come in. */
    method Check(projected: Cost, now: int) returns (verdict: BudgetVerdict)
      requires Valid()
      modifies windows
      ensures Valid()
      ensures (verdict, Counts()) == CheckPruned(budget, log, old(Counts()), projected, now)
    {
      hide Sweep, Total, Kept;
      if projected.None? {
        return HEALTHY;
      }
      var amount := projected.value;
      if budget.perRequest > 0.0 && amount > budget.perRequest {
        return BudgetVerdict(Exceeded, Some("request"), Some(amount), Some(budget.perRequest));
      }
      var over, spent, at := Scan(amount, now, 1.0);
      if over.Some? {
        return BudgetVerdict(Exceeded, Some(over.value.rule.name), Some(spent), Some(over.value.rule.limit));
      }
      over, spent, at := Scan(amount, now, budget.warnRatio);
      if over.Some? {
        return BudgetVerdict(Warning, Some(over.value.rule.name), Some(spent), Some(over.value.rule.limit));
      }
      return HEALTHY;
    }

    method Record(cost: Cost, now: int)
      requires Valid()
      modifies this`log, windows
      ensures Valid() && log == Charge(old(log), cost, now) && Counts() == old(Counts())
    {
      hide Window.Valid;
      if cost.Some? {
        ghost var longer, counts := log + [Entry(now, cost.value)], Counts();
        for i := 0 to |windows|
          invariant log == old(log)
          invariant forall j | 0 <= j < |windows| :: windows[j].Valid() && windows[j].rule == budget.rules[j]
                      && windows[j].popped == counts[j]
          invariant forall j | 0 <= j < i :: windows[j].log == longer
          invariant forall j | i <= j < |windows| :: windows[j].log == log
        {
          windows[i].Append(cost.value, now);
        }
        log := longer;
      }
    }
  }
}
