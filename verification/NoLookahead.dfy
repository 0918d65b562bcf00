/** A backtest cannot see the future: a run through instant t is a function of the bars stamped at or
    before t, whatever the strategy and the sizer do (backtesting/market_view.py, backtesting/engine.py). */
module NoLookahead {
  import opened Wrappers
  import opened Accounting
  import opened Ordering
  import opened MarketData
  import opened Backtest

  lemma {:induction false} FillAllAgrees(rules: Rules, orders: seq<Order>, a: History, b: History, now: int, book: Book)
    requires AgreeThrough(a, b, now)
    ensures FillAll(rules, orders, a, now, book) == FillAll(rules, orders, b, now, book)
  {
    if orders != [] {
      var ticker := orders[|orders| - 1].signal.ticker;
      FillAllAgrees(rules, orders[..|orders| - 1], a, b, now, book);
      assert BarAt(a, ticker, now) == BarAt(b, ticker, now) by {
        FirstAtInPast(Series(a, ticker), now, now);
        FirstAtInPast(Series(b, ticker), now, now);
        assert UpTo(Series(a, ticker), now) == UpTo(Series(b, ticker), now);
      }
    }
  }

  lemma AgreeEarlier(a: History, b: History, t: int, now: int)
    requires AgreeThrough(a, b, t) && now <= t
    ensures AgreeThrough(a, b, now)
  {
    forall ticker ensures UpTo(Series(a, ticker), now) == UpTo(Series(b, ticker), now) {
      UpToIdempotent(Series(a, ticker), now, t);
      UpToIdempotent(Series(b, ticker), now, t);
      assert UpTo(Series(a, ticker), t) == UpTo(Series(b, ticker), t);
    }
  }

  /** Non-interference: over any timeline that stays at or before t, two histories that agree
      through t drive the engine through identical states -- cash, positions, lots, fills, trades,
      equity points, pending orders and the strategy's own memory. */
  lemma {:induction false} StatesAgree<S>(
    rules: Rules, strategy: Strategy<S>, a: History, b: History, timeline: seq<int>, t: int)
    requires AgreeThrough(a, b, t)
    requires forall i | 0 <= i < |timeline| :: timeline[i] <= t
    ensures RunThrough(rules, strategy, a, timeline) == RunThrough(rules, strategy, b, timeline)
  {
    if timeline != [] {
      var front, now := timeline[..|timeline| - 1], timeline[|timeline| - 1];
      StatesAgree(rules, strategy, a, b, front, t);
      AgreeEarlier(a, b, t, now);
      ViewsAgree(a, b, t, now);
      var before := RunThrough(rules, strategy, a, front);
      if before.Ok? {
        FillAllAgrees(rules, before.value.pending, a, b, now, before.value.book);
      }
    }
  }

  lemma PrepareAgrees(a: History, b: History, t: int)
    requires AgreeThrough(a, b, t)
    ensures AgreeThrough(Prepare(a), Prepare(b), t)
  {
    forall ticker ensures UpTo(Series(Prepare(a), ticker), t) == UpTo(Series(Prepare(b), ticker), t) {
      SortCommutesWithCut(Series(a, ticker), t);
      SortCommutesWithCut(Series(b, ticker), t);
      assert Series(Prepare(a), ticker) == SortBars(Series(a, ticker));
      assert Series(Prepare(b), ticker) == SortBars(Series(b, ticker));
      assert UpTo(Series(a, ticker), t) == UpTo(Series(b, ticker), t);
    }
  }

  /** Histories that agree through t have the same instants through t. */
  lemma StampsAgree(a: History, b: History, t: int, ts: int)
    requires AgreeThrough(a, b, t) && ts <= t && ts in Stamps(a)
    ensures ts in Stamps(b)
  {
    var ticker, i :| ticker in a && 0 <= i < |a[ticker]| && a[ticker][i].ts == ts;
    var bar := a[ticker][i];
    UpToMembers(Series(a, ticker), t);
    UpToMembers(Series(b, ticker), t);
    assert UpTo(Series(a, ticker), t) == UpTo(Series(b, ticker), t);
    assert bar in Series(b, ticker);
    var j :| 0 <= j < |b[ticker]| && b[ticker][j] == bar;
  }

  predicate CutAt(end: Option<int>, t: int) {
    end.None? || t <= end.value
  }

  /** The instants through t come first in every timeline that reaches t, and are the same for
      histories that agree through t. */
  lemma TimelinePrefix(a: History, b: History, t: int, start: Option<int>, end: Option<int>)
    requires AgreeThrough(a, b, t) && CutAt(end, t)
    ensures Timeline(a, start, Some(t)) <= Timeline(b, start, end)
    ensures forall i | 0 <= i < |Timeline(a, start, Some(t))| :: Timeline(a, start, Some(t))[i] <= t
  {
    hide StampsWithin, Sorted;
    StampsCut(a, b, t, start, end);
    SortedPrefix(StampsWithin(b, start, end), t);
    NothingLater(StampsWithin(a, start, Some(t)), t);
  }

  lemma NothingLater(stamps: set<int>, t: int)
    requires forall ts | ts in stamps :: ts <= t
    ensures forall i | 0 <= i < |Sorted(stamps)| :: Sorted(stamps)[i] <= t
  {
    assert forall i | 0 <= i < |Sorted(stamps)| :: Sorted(stamps)[i] in stamps;
  }

  lemma StampsCut(a: History, b: History, t: int, start: Option<int>, end: Option<int>)
    requires AgreeThrough(a, b, t) && CutAt(end, t)
    ensures StampsWithin(a, start, Some(t)) == set ts | ts in StampsWithin(b, start, end) && ts <= t
  {
    var whole, cut := StampsWithin(b, start, end), StampsWithin(a, start, Some(t));
    var low := set ts | ts in whole && ts <= t;
    forall ts | ts in cut ensures ts in low { StampsAgree(a, b, t, ts); }
    forall ts | ts in low ensures ts in cut { StampsAgree(b, a, t, ts); }
    assert cut == low;
  }

  /** What a later step can do to an earlier state: only add to its records. */
  ghost predicate Extends<S>(later: State<S>, earlier: State<S>) {
    && earlier.curve <= later.curve
    && earlier.book.fills <= later.book.fills
    && earlier.book.closed <= later.book.closed
    && earlier.book.unfilled <= later.book.unfilled
  }

  lemma {:induction false} FillAllExtends(rules: Rules, orders: seq<Order>, h: History, now: int, book: Book)
    requires FillAll(rules, orders, h, now, book).Ok?
    ensures var after := FillAll(rules, orders, h, now, book).value;
      book.fills <= after.fills && book.closed <= after.closed && book.unfilled <= after.unfilled
  {
    if orders != [] {
      FillAllExtends(rules, orders[..|orders| - 1], h, now, book);
    }
  }

  lemma {:induction false} RunExtends<S>(
    rules: Rules, strategy: Strategy<S>, h: History, timeline: seq<int>, prefix: seq<int>)
    requires prefix <= timeline && RunThrough(rules, strategy, h, timeline).Ok?
    ensures RunThrough(rules, strategy, h, prefix).Ok?
    ensures Extends(RunThrough(rules, strategy, h, timeline).value, RunThrough(rules, strategy, h, prefix).value)
  {
    if prefix != timeline {
      var front, now := timeline[..|timeline| - 1], timeline[|timeline| - 1];
      RunExtends(rules, strategy, h, front, prefix);
      var before := RunThrough(rules, strategy, h, front).value;
      FillAllExtends(rules, before.pending, h, now, before.book);
    }
  }

  lemma {:induction false} CurveFollowsTimeline<S>(rules: Rules, strategy: Strategy<S>, h: History, timeline: seq<int>)
    requires RunThrough(rules, strategy, h, timeline).Ok?
    ensures var curve := RunThrough(rules, strategy, h, timeline).value.curve;
      |curve| == |timeline| && forall i | 0 <= i < |timeline| :: curve[i].timestamp == timeline[i]
  {
    if timeline != [] {
      CurveFollowsTimeline(rules, strategy, h, timeline[..|timeline| - 1]);
    }
  }

  /** The first result's unfilled records are a prefix of the second's, except for trailing orders
      that were still queued when the first run stopped. */
  ghost predicate SameButForQueue(cut: seq<Unfilled>, whole: seq<Unfilled>) {
    exists k | 0 <= k <= |cut| :: cut[..k] <= whole && forall i | k <= i < |cut| :: cut[i].reason == NoBarToFillAgainst
  }

  ghost predicate IsPrefixRun(cut: BacktestResult, whole: BacktestResult) {
    && cut.curve <= whole.curve
    && cut.fills <= whole.fills
    && cut.closed <= whole.closed
    && SameButForQueue(cut.unfilled, whole.unfilled)
  }

  lemma FinishExtends<S>(prefix: seq<int>, timeline: seq<int>, earlier: State<S>, later: State<S>)
    requires prefix != [] && timeline != [] && Extends(later, earlier)
    ensures IsPrefixRun(Finish(prefix, earlier), Finish(timeline, later))
  {
    var cut, whole := Finish(prefix, earlier), Finish(timeline, later);
    assert cut.unfilled[..|earlier.book.unfilled|] == earlier.book.unfilled;
  }

  /** A run has one equity point per instant of its timeline, in order. */
  lemma CurveIsTimeline<S>(rules: Rules, strategy: Strategy<S>, bars: History, start: Option<int>, end: Option<int>)
    requires Run(rules, strategy, bars, start, end).Ok?
    ensures var times, curve := Timeline(Prepare(bars), start, end), Run(rules, strategy, bars, start, end).value.curve;
      |curve| == |times| && forall i | 0 <= i < |curve| :: curve[i].timestamp == times[i]
  {
    var times := Timeline(Prepare(bars), start, end);
    if times != [] {
      CurveFollowsTimeline(rules, strategy, Prepare(bars), times);
    }
  }

  lemma PreparedRunIsPrefix<S>(
    rules: Rules, strategy: Strategy<S>, a: History, b: History, t: int, prefix: seq<int>, timeline: seq<int>)
    requires AgreeThrough(a, b, t) && prefix != [] && prefix <= timeline
    requires forall i | 0 <= i < |prefix| :: prefix[i] <= t
    requires RunThrough(rules, strategy, b, timeline).Ok?
    ensures RunThrough(rules, strategy, a, prefix).Ok?
    ensures IsPrefixRun(Finish(prefix, RunThrough(rules, strategy, a, prefix).value),
                        Finish(timeline, RunThrough(rules, strategy, b, timeline).value))
  {
    RunExtends(rules, strategy, b, timeline, prefix);
    StatesAgree(rules, strategy, a, b, prefix, t);
    FinishExtends(prefix, timeline, RunThrough(rules, strategy, a, prefix).value,
                  RunThrough(rules, strategy, b, timeline).value);
  }

  /** The anti-lookahead contract on whole runs. Take any two data sets that agree on every bar
      stamped at or before t. The run over the first, stopped at t, is a prefix of the run over the
      second, however far that goes: the same equity points, fills and closed trades come first, and
      the unfilled records differ only in the orders the stopped run leaves in its queue. */
  lemma NoLookahead<S>(
    rules: Rules, strategy: Strategy<S>, a: History, b: History, t: int, start: Option<int>, end: Option<int>)
    requires AgreeThrough(a, b, t) && CutAt(end, t)
    requires Run(rules, strategy, b, start, end).Ok?
    ensures Run(rules, strategy, a, start, Some(t)).Ok?
    ensures IsPrefixRun(Run(rules, strategy, a, start, Some(t)).value, Run(rules, strategy, b, start, end).value)
  {
    var ha, hb := Prepare(a), Prepare(b);
    PrepareAgrees(a, b, t);
    TimelinePrefix(ha, hb, t, start, end);
    var prefix, timeline := Timeline(ha, start, Some(t)), Timeline(hb, start, end);
    if prefix == [] {
      assert NOTHING_RUN.unfilled[..0] == [];
    } else {
      PreparedRunIsPrefix(rules, strategy, ha, hb, t, prefix, timeline);
    }
  }
}
