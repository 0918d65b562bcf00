/** Price-bar validation (data/normalization/validation.py): a bad bar is recorded and dropped, never
    repaired. */
module Validation {
  import opened Wrappers
  import opened Rounding
  import opened MarketData

  datatype Field = Open | High | Low | Close

  /** A bar as a provider delivered it; the prices in `missing` are absent or not numbers. */
  datatype Reading = Reading(bar: PriceBar, missing: set<Field>)

  datatype Code =
    | MissingValue(field: Field)
    | NonPositivePrice(field: Field)
    | HighBelowLow
    | HighBelowBody
    | LowAboveBody
    | NegativeVolume
    | FutureTimestamp
    | DuplicateTimestamp
    | UnorderedTimestamps

  datatype Issue = Issue(code: Code, ts: int) {
    /** Everything is an error except arriving out of order. */
    predicate IsError() {
      code != UnorderedTimestamps
    }
  }

  const FUTURE_TOLERANCE := 86400000000

  function PriceOf(bar: PriceBar, field: Field): real {
    match field
    case Open => bar.open
    case High => bar.high
    case Low => bar.low
    case Close => bar.close
  }

  function CheckField(reading: Reading, field: Field): Option<Code> {
    if field in reading.missing then Some(MissingValue(field))
    else if PriceOf(reading.bar, field) <= 0.0 then Some(NonPositivePrice(field))
    else None
  }

  function FirstOf(a: Option<Code>, b: Option<Code>): Option<Code> {
    if a.Some? then a else b
  }

  function CheckShape(bar: PriceBar, now: int): Option<Code> {
    if bar.high < bar.low then Some(HighBelowLow)
    else if bar.high < Max(bar.open, bar.close) then Some(HighBelowBody)
    else if bar.low > Min(bar.open, bar.close) then Some(LowAboveBody)
    else if bar.volume < 0 then Some(NegativeVolume)
    else if bar.ts > now + FUTURE_TOLERANCE then Some(FutureTimestamp)
    else None
  }

  /** The first thing wrong with a bar on its own. */
  function CheckBar(reading: Reading, now: int): Option<Code> {
    FirstOf(CheckField(reading, Open),
    FirstOf(CheckField(reading, High),
    FirstOf(CheckField(reading, Low),
    FirstOf(CheckField(reading, Close), CheckShape(reading.bar, now)))))
  }

  /** What it takes to pass: all four prices, positive, the body inside the range, real volume, and no
      stamp more than a day ahead. */
  lemma PassesExactly(reading: Reading, now: int)
    ensures CheckBar(reading, now).None? <==>
            var bar := reading.bar;
            && reading.missing == {}
            && 0.0 < bar.low <= bar.open <= bar.high && bar.low <= bar.close <= bar.high
            && bar.volume >= 0 && bar.ts <= now + 24 * 3600 * 1000000
  {
    if CheckBar(reading, now).None? {
      forall field: Field ensures field !in reading.missing {
        match field
        case Open =>
        case High =>
        case Low =>
        case Close =>
      }
    }
  }

  /** What the code says of the bar is so: a price is missing or not positive; or, with four positive prices, the body
      is outside the range, the volume negative, or the stamp more than a day ahead. */
  ghost predicate Wrong(reading: Reading, now: int, code: Code) {
    var bar := reading.bar;
    var priced := reading.missing == {} && bar.open > 0.0 && bar.high > 0.0 && bar.low > 0.0 && bar.close > 0.0;
    match code
    case MissingValue(field) => field in reading.missing
    case NonPositivePrice(Open) => Open !in reading.missing && bar.open <= 0.0
    case NonPositivePrice(High) => High !in reading.missing && bar.high <= 0.0
    case NonPositivePrice(Low) => Low !in reading.missing && bar.low <= 0.0
    case NonPositivePrice(Close) => Close !in reading.missing && bar.close <= 0.0
    case HighBelowLow => priced && bar.high < bar.low
    case HighBelowBody => priced && (bar.high < bar.open || bar.high < bar.close)
    case LowAboveBody => priced && (bar.low > bar.open || bar.low > bar.close)
    case NegativeVolume => priced && bar.volume < 0
    case FutureTimestamp => priced && bar.ts - now > 24 * 3600 * 1000000
    case DuplicateTimestamp => false
    case UnorderedTimestamps => false
  }

  lemma CodesTellTheTruth(reading: Reading, now: int)
    ensures CheckBar(reading, now).Some? ==> Wrong(reading, now, CheckBar(reading, now).value)
  {
    if CheckField(reading, Open).None? && CheckField(reading, High).None? && CheckField(reading, Low).None?
       && CheckField(reading, Close).None? {
      forall field: Field ensures field !in reading.missing {
        match field
        case Open =>
        case High =>
        case Low =>
        case Close =>
      }
    }
  }

  // ----- a whole delivery -----

  predicate Seen(bars: seq<PriceBar>, ts: int) {
    exists i :: 0 <= i < |bars| && bars[i].ts == ts
  }

  /** The bars kept, in order of arrival: each passes on its own and is the first with its stamp. */
  function Accepted(readings: seq<Reading>, now: int): seq<PriceBar> {
    if readings == [] then [] else
      var kept, last := Accepted(readings[..|readings| - 1], now), readings[|readings| - 1];
      if CheckBar(last, now).Some? || Seen(kept, last.bar.ts) then kept else kept + [last.bar]
  }

  predicate Disordered(issues: seq<Issue>) {
    exists i :: 0 <= i < |issues| && issues[i].code == UnorderedTimestamps
  }

  /** What one more reading adds to the issues. */
  function Raised(kept: seq<PriceBar>, issues: seq<Issue>, last: Reading, now: int): seq<Issue> {
    var wrong := CheckBar(last, now);
    if wrong.Some? then [Issue(wrong.value, last.bar.ts)]
    else if Seen(kept, last.bar.ts) then [Issue(DuplicateTimestamp, last.bar.ts)]
    else if kept != [] && last.bar.ts < kept[|kept| - 1].ts && !Disordered(issues) then
      [Issue(UnorderedTimestamps, last.bar.ts)]
    else []
  }

  function Issues(readings: seq<Reading>, now: int): seq<Issue> {
    if readings == [] then [] else
      var front, last := readings[..|readings| - 1], readings[|readings| - 1];
      Issues(front, now) + Raised(Accepted(front, now), Issues(front, now), last, now)
  }

  datatype Report = Report(checked: nat, valid: seq<PriceBar>, issues: seq<Issue>) {
    function Errors(): seq<Issue> {
      Filter(issues, (issue: Issue) => issue.IsError())
    }

    predicate IsClean() {
      Errors() == []
    }

    function Rejected(): int {
      checked - |valid|
    }
  }

  function Validate(readings: seq<Reading>, now: int): Report {
    Report(|readings|, SortBars(Accepted(readings, now)), Issues(readings, now))
  }

  method ValidatePriceBars(readings: seq<Reading>, now: int) returns (report: Report)
    ensures report == Validate(readings, now)
  {
    hide CheckBar, Disordered, Seen, Accepted, Issues;
    NoIssues(now);
    var valid: seq<PriceBar>, issues: seq<Issue> := [], [];
    var seen: set<int> := {};
    var previous: Option<int> := None;
    var unorderedReported := false;
    for i := 0 to |readings|
      invariant valid == Accepted(readings[..i], now) && issues == Issues(readings[..i], now)
      invariant forall ts :: ts in seen <==> Seen(valid, ts)
      invariant previous == if valid == [] then None else Some(valid[|valid| - 1].ts)
      invariant unorderedReported == Disordered(issues)
    {
      var reading := readings[i];
      OneMoreReading(readings, i, now);
      var wrong := CheckBar(reading, now);
      if wrong.Some? {
        OneMoreIssue(issues, Issue(wrong.value, reading.bar.ts));
        OwnIssuesAreErrors(reading, now);
        issues := issues + [Issue(wrong.value, reading.bar.ts)];
        continue;
      }
      if reading.bar.ts in seen {
        OneMoreIssue(issues, Issue(DuplicateTimestamp, reading.bar.ts));
        issues := issues + [Issue(DuplicateTimestamp, reading.bar.ts)];
        continue;
      }
      if previous.Some? && reading.bar.ts < previous.value && !unorderedReported {
        unorderedReported := true;
        OneMoreIssue(issues, Issue(UnorderedTimestamps, reading.bar.ts));
        issues := issues + [Issue(UnorderedTimestamps, reading.bar.ts)];
      }
      seen := seen + {reading.bar.ts};
      previous := Some(reading.bar.ts);
      OneMoreSeen(valid, reading.bar);
      valid := valid + [reading.bar];
    }
    assert readings[..|readings|] == readings;
    return Report(|readings|, SortBars(valid), issues);
  }

  lemma OneMoreIssue(issues: seq<Issue>, issue: Issue)
    ensures Disordered(issues + [issue]) <==> Disordered(issues) || !issue.IsError()
  {
    var more := issues + [issue];
    if i :| 0 <= i < |issues| && issues[i].code == UnorderedTimestamps {
      assert more[i] == issues[i];
    }
    assert more[|issues|] == issue;
  }

  lemma OwnIssuesAreErrors(reading: Reading, now: int)
    ensures CheckBar(reading, now).Some? ==> CheckBar(reading, now).value != UnorderedTimestamps
  {
  }

  lemma OneMoreSeen(bars: seq<PriceBar>, bar: PriceBar)
    ensures forall ts :: Seen(bars + [bar], ts) <==> Seen(bars, ts) || ts == bar.ts
  {
    var more := bars + [bar];
    forall ts ensures Seen(more, ts) <==> Seen(bars, ts) || ts == bar.ts {
      if i :| 0 <= i < |bars| && bars[i].ts == ts {
        assert more[i] == bars[i];
      }
      assert more[|bars|] == bar;
    }
  }

  // ----- what is kept -----

  /** Reading i is good on its own and no earlier good reading carries its stamp. */
  ghost predicate FirstGood(readings: seq<Reading>, now: int, i: int) {
    && 0 <= i < |readings| && CheckBar(readings[i], now).None?
    && forall j | 0 <= j < i && readings[j].bar.ts == readings[i].bar.ts :: CheckBar(readings[j], now).Some?
  }

  lemma FirstGoodSnoc(front: seq<Reading>, last: Reading, now: int, i: int)
    ensures i < |front| ==> (FirstGood(front + [last], now, i) <==> FirstGood(front, now, i))
  {
    hide CheckBar;
    var readings := front + [last];
    if 0 <= i < |front| {
      assert readings[i] == front[i];
      assert forall j | 0 <= j < i :: readings[j] == front[j];
    }
  }

  lemma {:induction false} SeenMeansGood(readings: seq<Reading>, now: int, ts: int)
    ensures Seen(Accepted(readings, now), ts) <==>
            exists i :: 0 <= i < |readings| && readings[i].bar.ts == ts && CheckBar(readings[i], now).None?
    decreases |readings|
  {
    hide CheckBar;
    if readings != [] {
      var front, last := readings[..|readings| - 1], readings[|readings| - 1];
      SeenMeansGood(front, now, ts);
      OneMoreSeen(Accepted(front, now), last.bar);
      assert forall i | 0 <= i < |front| :: readings[i] == front[i];
    }
  }

  /** A bar is kept exactly when it is the first good one with its stamp. */
  lemma {:induction false} KeptExactly(readings: seq<Reading>, now: int, bar: PriceBar)
    ensures bar in Accepted(readings, now) <==> exists i :: FirstGood(readings, now, i) && readings[i].bar == bar
    decreases |readings|
  {
    hide CheckBar;
    if readings != [] {
      hide FirstGood, Seen;
      var front, last := readings[..|readings| - 1], readings[|readings| - 1];
      KeptExactly(front, now, bar);
      assert readings == front + [last];
      forall i | i < |front| ensures FirstGood(readings, now, i) <==> FirstGood(front, now, i) {
        FirstGoodSnoc(front, last, now, i);
      }
      InRange(readings, now);
      InRange(front, now);
      LastIsFirstGood(readings, now);
    }
  }

  lemma InRange(readings: seq<Reading>, now: int)
    ensures forall i | FirstGood(readings, now, i) :: 0 <= i < |readings|
  {
  }

  lemma LastIsFirstGood(readings: seq<Reading>, now: int)
    requires readings != []
    ensures var front, last := readings[..|readings| - 1], readings[|readings| - 1];
      FirstGood(readings, now, |readings| - 1) <==>
      CheckBar(last, now).None? && !Seen(Accepted(front, now), last.bar.ts)
  {
    hide CheckBar, Accepted, Seen;
    var front, last := readings[..|readings| - 1], readings[|readings| - 1];
    SeenMeansGood(front, now, last.bar.ts);
    assert forall j | 0 <= j < |front| :: front[j] == readings[j];
  }

  lemma {:induction false} AcceptedDistinct(readings: seq<Reading>, now: int)
    ensures DistinctStamps(Accepted(readings, now))
    decreases |readings|
  {
    hide CheckBar;
    if readings != [] {
      AcceptedDistinct(readings[..|readings| - 1], now);
    }
  }

  ghost predicate DistinctStamps(bars: seq<PriceBar>) {
    forall i, j | 0 <= i < j < |bars| :: bars[i].ts != bars[j].ts
  }

  ghost predicate StrictlyInTime(bars: seq<PriceBar>) {
    forall i, j | 0 <= i < j < |bars| :: bars[i].ts < bars[j].ts
  }

  lemma OrderedDistinct(bars: seq<PriceBar>)
    requires InTimeOrder(bars) && DistinctStamps(bars)
    ensures StrictlyInTime(bars)
  {
  }

  lemma {:induction false} InsertDistinct(bars: seq<PriceBar>, bar: PriceBar)
    requires DistinctStamps(bars) && !Seen(bars, bar.ts)
    ensures DistinctStamps(InsertBar(bars, bar))
    ensures forall ts :: Seen(InsertBar(bars, bar), ts) <==> Seen(bars, ts) || ts == bar.ts
  {
    OneMoreSeen(bars, bar);
    if bars != [] && bars[|bars| - 1].ts > bar.ts {
      var front, last := bars[..|bars| - 1], bars[|bars| - 1];
      assert bars == front + [last];
      OneMoreSeen(front, last);
      InsertDistinct(front, bar);
      OneMoreSeen(InsertBar(front, bar), last);
      assert !Seen(InsertBar(front, bar), last.ts);
      DistinctSnoc(InsertBar(front, bar), last);
    } else {
      DistinctSnoc(bars, bar);
    }
  }

  lemma DistinctSnoc(bars: seq<PriceBar>, bar: PriceBar)
    ensures DistinctStamps(bars + [bar]) <==> DistinctStamps(bars) && !Seen(bars, bar.ts)
  {
    var more := bars + [bar];
    if DistinctStamps(more) {
      forall i | 0 <= i < |bars| ensures bars[i].ts != bar.ts { assert more[i].ts != more[|bars|].ts; }
      assert forall i | 0 <= i < |bars| :: more[i] == bars[i];
    }
  }

  lemma {:induction false} SortDistinct(bars: seq<PriceBar>)
    requires DistinctStamps(bars)
    ensures StrictlyInTime(SortBars(bars)) && |SortBars(bars)| == |bars|
    ensures forall x :: x in SortBars(bars) <==> x in bars
  {
    hide SortBars, DistinctStamps, InTimeOrder, StrictlyInTime, Stamped;
    SortBarsCorrect(bars, 0);
    SortKeepsDistinct(bars);
    OrderedDistinct(SortBars(bars));
    var sorted := SortBars(bars);
    assert |multiset(sorted)| == |sorted| && |multiset(bars)| == |bars|;
    forall x ensures x in sorted <==> x in bars {
      assert x in multiset(sorted) <==> x in multiset(bars);
    }
  }

  lemma {:induction false} SortKeepsDistinct(bars: seq<PriceBar>)
    requires DistinctStamps(bars)
    ensures DistinctStamps(SortBars(bars)) && forall ts :: Seen(SortBars(bars), ts) <==> Seen(bars, ts)
  {
    hide InsertBar, Seen, DistinctStamps;
    if bars == [] {
      assert SortBars(bars) == bars;
    } else {
      var front, last := bars[..|bars| - 1], bars[|bars| - 1];
      assert bars == front + [last];
      DistinctSnoc(front, last);
      OneMoreSeen(front, last);
      SortKeepsDistinct(front);
      InsertDistinct(SortBars(front), last);
    }
  }

  /** The valid bars of a report are strictly increasing in time and are exactly the first good bar of every
      stamp that has one. */
  lemma ValidBarsExactly(readings: seq<Reading>, now: int, bar: PriceBar)
    ensures StrictlyInTime(Validate(readings, now).valid)
    ensures bar in Validate(readings, now).valid <==> exists i :: FirstGood(readings, now, i) && readings[i].bar == bar
  {
    hide Accepted, CheckBar, FirstGood, SortBars;
    AcceptedDistinct(readings, now);
    SortDistinct(Accepted(readings, now));
    KeptExactly(readings, now, bar);
  }

  // ----- what is reported -----

  function ErrorsIn(issues: seq<Issue>): nat {
    |Filter(issues, (issue: Issue) => issue.IsError())|
  }

  lemma ErrorsAppend(issues: seq<Issue>, issue: Issue)
    ensures ErrorsIn(issues + [issue]) == ErrorsIn(issues) + if issue.IsError() then 1 else 0
  {
    FilterAppend(issues, [issue], (issue: Issue) => issue.IsError());
  }

  /** Every bar is accounted for: rejected bars are the errors, one each; a clean report kept everything.
      There is at most one warning, and it is there exactly when the kept bars had to be reordered. */
  lemma {:induction false} RejectionsAreErrors(readings: seq<Reading>, now: int)
    ensures |Issues(readings, now)| == ErrorsIn(Issues(readings, now)) + if Disordered(Issues(readings, now)) then 1
      else 0
    ensures |readings| - |Accepted(readings, now)| == ErrorsIn(Issues(readings, now))
    ensures Disordered(Issues(readings, now)) <==> !InTimeOrder(Accepted(readings, now))
    decreases |readings|
  {
    hide CheckBar, Filter, ErrorsIn, Disordered, InTimeOrder, Seen;
    if readings == [] {
      NoIssues(now);
    } else {
      var front, last := readings[..|readings| - 1], readings[|readings| - 1];
      RejectionsAreErrors(front, now);
      var before := Issues(front, now);
      var raised := Raised(Accepted(front, now), before, last, now);
      OwnIssuesAreErrors(last, now);
      OrderSnoc(Accepted(front, now), last.bar);
      if raised != [] {
        assert raised == [raised[0]];
        ErrorsAppend(before, raised[0]);
        OneMoreIssue(before, raised[0]);
      } else {
        assert before + raised == before;
      }
    }
  }

  lemma NoIssues(now: int)
    ensures ErrorsIn([]) == 0 && !Disordered([]) && InTimeOrder([]) && forall ts :: !Seen([], ts)
    ensures Accepted([], now) == [] && Issues([], now) == []
  {
  }

  lemma OneMoreReading(readings: seq<Reading>, i: nat, now: int)
    requires i < |readings|
    ensures var kept, issues, last := Accepted(readings[..i], now), Issues(readings[..i], now), readings[i];
      && Accepted(readings[..i + 1], now) ==
         (if CheckBar(last, now).Some? || Seen(kept, last.bar.ts) then kept else kept + [last.bar])
      && Issues(readings[..i + 1], now) == issues + Raised(kept, issues, last, now)
  {
    assert readings[..i + 1][..i] == readings[..i];
  }

  lemma OrderSnoc(bars: seq<PriceBar>, bar: PriceBar)
    ensures InTimeOrder(bars + [bar]) <==> InTimeOrder(bars) && (bars != [] ==> bars[|bars| - 1].ts <= bar.ts)
  {
    var more := bars + [bar];
    if InTimeOrder(more) {
      assert forall i | 0 <= i < |bars| :: more[i] == bars[i];
      assert bars != [] ==> more[|bars| - 1].ts <= more[|bars|].ts;
    }
  }

  lemma ReportBalances(readings: seq<Reading>, now: int)
    ensures var report := Validate(readings, now);
      && report.Rejected() == |report.Errors()| >= 0
      && (report.IsClean() <==> |report.valid| == |readings|)
      && |report.issues| - |report.Errors()| == if InTimeOrder(Accepted(readings, now)) then 0 else 1
  {
    hide Issues, Accepted, SortBars, CheckBar, Disordered, InTimeOrder, Filter;
    RejectionsAreErrors(readings, now);
    AcceptedDistinct(readings, now);
    SortDistinct(Accepted(readings, now));
    assert |Validate(readings, now).Errors()| == ErrorsIn(Issues(readings, now));
  }

  // ----- validating twice -----

  function AsReadings(bars: seq<PriceBar>): seq<Reading> {
    seq(|bars|, i requires 0 <= i < |bars| => Reading(bars[i], {}))
  }

  lemma {:induction false} SortOfOrdered(bars: seq<PriceBar>)
    requires InTimeOrder(bars)
    ensures SortBars(bars) == bars
  {
    if bars != [] {
      SortOfOrdered(bars[..|bars| - 1]);
    }
  }

  lemma ReadingsSnoc(front: seq<PriceBar>, last: PriceBar)
    ensures AsReadings(front + [last]) == AsReadings(front) + [Reading(last, {})]
  {
  }

  /** A good bar later than everything kept is kept, and raises nothing. */
  lemma GoodLaterKept(readings: seq<Reading>, last: Reading, now: int)
    requires CheckBar(last, now).None?
    requires forall i | 0 <= i < |Accepted(readings, now)| :: Accepted(readings, now)[i].ts < last.bar.ts
    ensures Accepted(readings + [last], now) == Accepted(readings, now) + [last.bar]
    ensures Issues(readings + [last], now) == Issues(readings, now)
  {
    hide CheckBar, Disordered;
    assert (readings + [last])[..|readings|] == readings;
  }

  lemma {:induction false} GoodInOrderKept(bars: seq<PriceBar>, now: int)
    requires StrictlyInTime(bars)
    requires forall i | 0 <= i < |bars| :: CheckBar(Reading(bars[i], {}), now).None?
    ensures Accepted(AsReadings(bars), now) == bars && Issues(AsReadings(bars), now) == []
    decreases |bars|
  {
    hide CheckBar;
    if bars != [] {
      hide Accepted, Issues, AsReadings;
      var front, last := bars[..|bars| - 1], bars[|bars| - 1];
      GoodInOrderKept(front, now);
      assert bars == front + [last];
      ReadingsSnoc(front, last);
      GoodLaterKept(AsReadings(front), Reading(last, {}), now);
    }
  }

  /** Validation is idempotent: its output, checked again at the same time or later, comes back unchanged
      and without a single issue. */
  lemma RevalidationIsClean(readings: seq<Reading>, now: int, later: int)
    requires now <= later
    ensures var valid := Validate(readings, now).valid;
      Validate(AsReadings(valid), later) == Report(|valid|, valid, [])
  {
    hide Accepted, Issues, SortBars, FirstGood, CheckBar;
    var valid := Validate(readings, now).valid;
    AcceptedDistinct(readings, now);
    SortDistinct(Accepted(readings, now));
    forall i | 0 <= i < |valid| ensures CheckBar(Reading(valid[i], {}), later).None? {
      KeptPasses(readings, now, later, valid[i]);
    }
    GoodInOrderKept(valid, later);
    SortOfOrdered(valid);
  }

  lemma KeptPasses(readings: seq<Reading>, now: int, later: int, bar: PriceBar)
    requires now <= later && bar in Accepted(readings, now)
    ensures CheckBar(Reading(bar, {}), later).None?
  {
    hide Accepted, CheckBar;
    KeptExactly(readings, now, bar);
    var i :| FirstGood(readings, now, i) && readings[i].bar == bar;
    PassesExactly(readings[i], now);
    PassesExactly(Reading(bar, {}), later);
  }
}
