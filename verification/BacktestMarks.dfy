/** What a run reports, read off the price bars themselves: the instants it visits, the marks on its equity curve
    and what it leaves unfilled (backtesting/engine.py, backtesting/market_view.py). */
module BacktestMarks {
  import opened Wrappers
  import opened Rounding
  import opened Accounting
  import opened Ordering
  import opened MarketData
  import opened Backtest
  import BacktestCash
  import BacktestOrders
  import NoLookahead

  // ----- marks -----

  /** The value of a position by the bars: its quantity at the close of the latest bar stamped by now; at cost when
      there is no such bar; nothing when it is closed. */
  ghost predicate Marked(bars: seq<PriceBar>, now: int, state: PositionState, value: real) {
    && (state.quantity <= 0.0 ==> value == 0.0)
    && (state.quantity > 0.0 ==>
          && (forall i | IsLatest(bars, now, i) :: value == Times(state.quantity, bars[i].close))
          && ((forall bar | bar in bars :: bar.ts > now) ==> value == Times(state.quantity, state.averageCost)))
  }

  lemma MarksAreCloses(history: History, now: int, positions: map<Ticker, PositionState>, ticker: Ticker)
    ensures Marked(Series(history, ticker), now, Held(positions, ticker),
      MarkedValue(positions, ViewAt(history, now), ticker))
  {
    hide Times, ViewAt, UpTo, Series, Held, EndsWithLatest, MarketView.CurrentPrice;
    var bars, state := Series(history, ticker), Held(positions, ticker);
    var view, cut := ViewAt(history, now), UpTo(bars, now);
    ViewHolds(history, now, ticker);
    PriceIsLastClose(view, ticker, cut);
    CutEndsWithLatest(bars, now);
    ValuedByTheCut(bars, cut, now, state, MarkedValue(positions, view, ticker));
  }

  lemma PriceIsLastClose(view: MarketView, ticker: Ticker, cut: seq<PriceBar>)
    requires Series(view.history, ticker) == cut
    ensures view.CurrentPrice(ticker) == if cut == [] then None else Some(cut[|cut| - 1].close)
  {
  }

  /** A value taken from the end of what is known by now is taken from the latest bar. */
  lemma ValuedByTheCut(bars: seq<PriceBar>, cut: seq<PriceBar>, now: int, state: PositionState, value: real)
    requires EndsWithLatest(bars, cut, now)
    requires value == if state.quantity <= 0.0 then 0.0
                      else Times(state.quantity, if cut == [] then state.averageCost else cut[|cut| - 1].close)
    ensures Marked(bars, now, state, value)
  {
    hide Times;
  }

  /** In the series a run works on the last bar stamped by an instant is a latest one of those delivered. */
  lemma LatestOfDelivery(bars: History, ticker: Ticker, now: int, i: int)
    requires ticker in bars && IsLatest(Series(Prepare(bars), ticker), now, i)
    ensures var latest := Series(Prepare(bars), ticker)[i];
      latest in bars[ticker] && forall bar | bar in bars[ticker] && bar.ts <= now :: bar.ts <= latest.ts
  {
    hide SortBars;
    SortBarsCorrect(bars[ticker], 0);
    LatestInOrder(SortBars(bars[ticker]), now, i);
    forall bar ensures bar in SortBars(bars[ticker]) <==> bar in bars[ticker] {
      SortedHolds(bars[ticker], bar);
    }
  }

  /** The point reports this book at this instant, with the positions marked by the bars. */
  ghost predicate PointOf(rules: Rules, history: History, now: int, book: Book, point: EquityPoint) {
    && point.timestamp == now && point.cash == rules.R(book.cash)
    && exists marks: int -> real ::
         && (forall t | t in book.positions :: Marked(Series(history, t), now, book.positions[t], marks(t)))
         && point.positionsValue == rules.R(SumOver(book.positions.Keys, marks))
         && point.equity == rules.R(book.cash + SumOver(book.positions.Keys, marks))
  }

  lemma PointsAreMarked(rules: Rules, history: History, now: int, book: Book)
    ensures PointOf(rules, history, now, book, Point(rules, book, ViewAt(history, now)))
  {
    hide SumOver, MarkedValue, ViewAt, Marked;
    var marks := Marks(book.positions, ViewAt(history, now));
    forall t | t in book.positions ensures Marked(Series(history, t), now, book.positions[t], marks(t)) {
      MarksAreCloses(history, now, book.positions, t);
    }
    assert ViewAt(history, now).timestamp == now by { ViewIsNow(history, now); }
  }

  lemma ViewIsNow(history: History, now: int)
    ensures ViewAt(history, now).timestamp == now
  {
  }

  /** Over every run, each point of the equity curve reports the book as its instant left it, every open position
      at the close of its latest bar stamped by that instant. */
  lemma {:induction false} CurveIsMarkedToClose<S>(
    rules: Rules, strategy: Strategy<S>, history: History, timeline: seq<int>, i: int)
    requires RunThrough(rules, strategy, history, timeline).Ok? && 0 <= i < |timeline|
    ensures RunThrough(rules, strategy, history, timeline[..i + 1]).Ok?
    ensures var curve := RunThrough(rules, strategy, history, timeline).value.curve;
      && |curve| == |timeline|
      && PointOf(rules, history, timeline[i], RunThrough(rules, strategy, history, timeline[..i + 1]).value.book,
           curve[i])
    decreases |timeline|
  {
    hide FillAll, Queue, Point, PointOf;
    var front := timeline[..|timeline| - 1];
    NoLookahead.CurveFollowsTimeline(rules, strategy, history, timeline);
    if i < |front| {
      CurveIsMarkedToClose(rules, strategy, history, front, i);
      assert front[..i + 1] == timeline[..i + 1];
    } else {
      assert timeline[..i + 1] == timeline;
      PointsAreMarked(rules, history, timeline[i], RunThrough(rules, strategy, history, timeline).value.book);
    }
  }

  // ----- the instants of a run -----

  /** A run visits, in order and once, exactly the instants that some bar of some series bears and that lie in the
      closed window it was given. */
  lemma TimelineIsExact(bars: History, start: Option<int>, end: Option<int>)
    ensures var timeline := Timeline(Prepare(bars), start, end);
      && StrictlyIncreasing(timeline)
      && forall ts :: ts in timeline <==>
           && (start.Some? ==> start.value <= ts) && (end.Some? ==> ts <= end.value)
           && exists t, bar :: t in bars && bar in bars[t] && bar.ts == ts
  {
    hide Sorted, SortBars;
    var history := Prepare(bars);
    forall ts ensures ts in Stamps(history) <==> exists t, bar :: t in bars && bar in bars[t] && bar.ts == ts {
      if ts in Stamps(history) {
        var t, i :| t in history && 0 <= i < |history[t]| && history[t][i].ts == ts;
        SortedHolds(bars[t], history[t][i]);
        assert t in bars && history[t][i] in bars[t];
      }
      if t, bar :| t in bars && bar in bars[t] && bar.ts == ts {
        SortedHolds(bars[t], bar);
        assert bar in history[t];
      }
    }
  }

  lemma SortedHolds(bars: seq<PriceBar>, bar: PriceBar)
    ensures bar in SortBars(bars) <==> bar in bars
  {
    SortBarsCorrect(bars, 0);
    assert bar in multiset(SortBars(bars)) <==> bar in multiset(bars);
  }


  // ----- how the bars were delivered -----

  lemma {:induction false} StampedIsPresent(bars: seq<PriceBar>, t: int)
    ensures Stamped(bars, t) != [] <==> exists bar :: bar in bars && bar.ts == t
    ensures bars != [] && bars[|bars| - 1].ts == t ==>
              Stamped(bars, t) != [] && Stamped(bars, t)[|Stamped(bars, t)| - 1] == bars[|bars| - 1]
  {
    if bars != [] {
      var front, last := bars[..|bars| - 1], bars[|bars| - 1];
      StampedIsPresent(front, t);
      assert bars == front + [last];
    }
  }

  ghost predicate SameAtEach(a: seq<PriceBar>, b: seq<PriceBar>) {
    forall t :: Stamped(a, t) == Stamped(b, t)
  }

  lemma SameEmptiness(a: seq<PriceBar>, b: seq<PriceBar>)
    requires SameAtEach(a, b)
    ensures a == [] <==> b == []
  {
    hide Stamped;
    if a != [] { StampedIsPresent(a, a[0].ts); StampedIsPresent(b, a[0].ts); }
    if b != [] { StampedIsPresent(b, b[0].ts); StampedIsPresent(a, b[0].ts); }
  }

  lemma SameLast(a: seq<PriceBar>, b: seq<PriceBar>)
    requires InTimeOrder(a) && InTimeOrder(b) && SameAtEach(a, b) && a != [] && b != []
    ensures a[|a| - 1] == b[|b| - 1]
  {
    hide Stamped;
    var x, y := a[|a| - 1], b[|b| - 1];
    StampedIsPresent(a, x.ts);
    StampedIsPresent(b, x.ts);
    StampedIsPresent(a, y.ts);
    StampedIsPresent(b, y.ts);
    assert Stamped(a, x.ts) == Stamped(b, x.ts) && Stamped(a, y.ts) == Stamped(b, y.ts);
    assert x.ts <= y.ts && y.ts <= x.ts;
  }

  lemma SameWithoutLast(front: seq<PriceBar>, rest: seq<PriceBar>, last: PriceBar)
    requires SameAtEach(front + [last], rest + [last])
    ensures SameAtEach(front, rest)
  {
    hide Stamped;
    forall t ensures Stamped(front, t) == Stamped(rest, t) {
      Appended(front, last, t);
      Appended(rest, last, t);
      assert Stamped(front + [last], t) == Stamped(rest + [last], t);
      var x, y := Stamped(front, t), Stamped(rest, t);
      if last.ts == t {
        assert |x + [last]| == |y + [last]| && x == (x + [last])[..|x|] && y == (y + [last])[..|y|];
      }
    }
  }

  /** A series in time order is determined by what it holds at each instant. */
  lemma {:induction false} OrderedIsDetermined(a: seq<PriceBar>, b: seq<PriceBar>)
    requires InTimeOrder(a) && InTimeOrder(b) && SameAtEach(a, b)
    ensures a == b
    decreases |a|
  {
    hide SameAtEach;
    SameEmptiness(a, b);
    if a != [] {
      SameLast(a, b);
      var front, rest, last := a[..|a| - 1], b[..|b| - 1], a[|a| - 1];
      assert a == front + [last] && b == rest + [last];
      SameWithoutLast(front, rest, last);
      OrderedIsDetermined(front, rest);
    }
  }

  /** The same bars for each ticker, those of one instant in the same order. */
  ghost predicate SameDelivery(a: History, b: History) {
    a.Keys == b.Keys && forall ticker | ticker in a :: SameAtEach(a[ticker], b[ticker])
  }

  lemma SameSorted(a: seq<PriceBar>, b: seq<PriceBar>)
    requires SameAtEach(a, b)
    ensures SortBars(a) == SortBars(b) && (a == [] <==> b == [])
  {
    hide SortBars, Stamped;
    SameEmptiness(a, b);
    forall t ensures Stamped(SortBars(a), t) == Stamped(SortBars(b), t) {
      SortBarsCorrect(a, t);
      SortBarsCorrect(b, t);
    }
    SortBarsCorrect(a, 0);
    SortBarsCorrect(b, 0);
    OrderedIsDetermined(SortBars(a), SortBars(b));
  }

  /** The order bars are delivered in has no say: runs over the same bars are the same run. */
  lemma DeliveryOrderHasNoSay<S>(
    rules: Rules, strategy: Strategy<S>, a: History, b: History, start: Option<int>, end: Option<int>)
    requires SameDelivery(a, b)
    ensures Run(rules, strategy, a, start, end) == Run(rules, strategy, b, start, end)
  {
    hide SortBars, SameAtEach, RunThrough, Timeline;
    forall ticker | ticker in a
      ensures SortBars(a[ticker]) == SortBars(b[ticker]) && (a[ticker] == [] <==> b[ticker] == [])
    {
      SameSorted(a[ticker], b[ticker]);
    }
    assert Prepare(a) == Prepare(b);
  }

  // ----- what is left at the end -----

  ghost predicate NoneLeftOver(book: Book) {
    forall i | 0 <= i < |book.unfilled| :: book.unfilled[i].reason != NoBarToFillAgainst
  }

  lemma OrderLeavesNone(rules: Rules, order: Order, history: History, now: int, book: Book)
    requires NoneLeftOver(book) && FillOrder(rules, order, history, now, book).Ok?
    ensures NoneLeftOver(FillOrder(rules, order, history, now, book).value)
  {
    hide Times, Over, Size, ApplyBuy, ApplySell;
  }

  /** A finished run spans its first and its last instant; its last unfilled records, and no others, are for want of
      a later bar: one for each order the strategy queued at the last instant, in order. */
  lemma LastQueueIsLeftOver<S>(
    rules: Rules, strategy: Strategy<S>, bars: History, start: Option<int>, end: Option<int>)
    requires Run(rules, strategy, bars, start, end).Ok? && Timeline(Prepare(bars), start, end) != []
    ensures var result, timeline := Run(rules, strategy, bars, start, end).value, Timeline(Prepare(bars), start, end);
      var pending := RunThrough(rules, strategy, Prepare(bars), timeline).value.pending;
      && result.span == Some((timeline[0], timeline[|timeline| - 1]))
      && |result.unfilled| >= |pending|
      && (forall i | 0 <= i < |result.unfilled| ::
            result.unfilled[i].reason == NoBarToFillAgainst <==> i >= |result.unfilled| - |pending|)
      && forall i | 0 <= i < |pending| ::
           var record := result.unfilled[|result.unfilled| - |pending| + i];
           && record.ticker == pending[i].signal.ticker && record.action == pending[i].signal.action
           && record.queuedAt == timeline[|timeline| - 1]
  {
    hide FillOrder, RunThrough, Timeline, Prepare;
    var history, timeline := Prepare(bars), Timeline(Prepare(bars), start, end);
    var inv := (b: Book) => NoneLeftOver(b);
    forall order, t, b | inv(b) && FillOrder(rules, order, history, t, b).Ok?
      ensures inv(FillOrder(rules, order, history, t, b).value)
    {
      OrderLeavesNone(rules, order, history, t, b);
    }
    BacktestCash.RunKeeps(rules, strategy, history, timeline, inv);
    BacktestOrders.PendingQueuedLast(rules, strategy, history, timeline);
  }
}
