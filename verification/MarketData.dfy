/** Price series and the sliced view a strategy is shown (backtesting/market_view.py).
    Instants are integers; tickers are integers that stand for the ordered ticker strings. */
module MarketData {
  import opened Wrappers
  import opened Ordering

  type Ticker = int

  datatype PriceBar = PriceBar(
    ts: int, open: real, high: real, low: real, close: real, volume: int, interval: string, source: string)

  type History = map<Ticker, seq<PriceBar>>

  function Series(h: History, ticker: Ticker): seq<PriceBar> {
    if ticker in h then h[ticker] else []
  }

  /** The bars stamped at or before t, in order. */
  function UpTo(bars: seq<PriceBar>, t: int): seq<PriceBar> {
    if bars == [] then [] else
      var front, last := bars[..|bars| - 1], bars[|bars| - 1];
      if last.ts <= t then UpTo(front, t) + [last] else UpTo(front, t)
  }

  /** Two histories hold the same bars through instant t, whatever comes after. */
  ghost predicate AgreeThrough(a: History, b: History, t: int) {
    forall ticker :: UpTo(Series(a, ticker), t) == UpTo(Series(b, ticker), t)
  }

  // ----- sorted(bars, key=ts): stable -----

  ghost predicate InTimeOrder(bars: seq<PriceBar>) {
    forall i, j | 0 <= i < j < |bars| :: bars[i].ts <= bars[j].ts
  }

  function InsertBar(bars: seq<PriceBar>, bar: PriceBar): seq<PriceBar> {
    if bars == [] || bars[|bars| - 1].ts <= bar.ts then bars + [bar]
    else InsertBar(bars[..|bars| - 1], bar) + [bars[|bars| - 1]]
  }

  function SortBars(bars: seq<PriceBar>): seq<PriceBar> {
    if bars == [] then [] else InsertBar(SortBars(bars[..|bars| - 1]), bars[|bars| - 1])
  }

  /** The subsequence of bars stamped exactly t. */
  function Stamped(bars: seq<PriceBar>, t: int): seq<PriceBar> {
    if bars == [] then [] else
      var front, last := bars[..|bars| - 1], bars[|bars| - 1];
      if last.ts == t then Stamped(front, t) + [last] else Stamped(front, t)
  }

  lemma {:induction false} InsertBarContents(bars: seq<PriceBar>, bar: PriceBar)
    ensures multiset(InsertBar(bars, bar)) == multiset(bars) + multiset{bar}
  {
    if bars != [] && bars[|bars| - 1].ts > bar.ts {
      var front, last := bars[..|bars| - 1], bars[|bars| - 1];
      InsertBarContents(front, bar);
      assert bars == front + [last];
    }
  }

  lemma {:induction false} InsertBarShape(bars: seq<PriceBar>, bar: PriceBar)
    requires InTimeOrder(bars)
    ensures InTimeOrder(InsertBar(bars, bar))
    ensures multiset(InsertBar(bars, bar)) == multiset(bars) + multiset{bar}
  {
    InsertBarContents(bars, bar);
    if bars != [] && bars[|bars| - 1].ts > bar.ts {
      var front, last := bars[..|bars| - 1], bars[|bars| - 1];
      InsertBarShape(front, bar);
      var placed := InsertBar(front, bar);
      forall i | 0 <= i < |placed| ensures placed[i].ts <= last.ts {
        assert placed[i] in multiset(placed);
        assert placed[i] in front || placed[i] == bar;
      }
    }
  }

  lemma Appended(front: seq<PriceBar>, last: PriceBar, t: int)
    ensures UpTo(front + [last], t) == if last.ts <= t then UpTo(front, t) + [last] else UpTo(front, t)
    ensures Stamped(front + [last], t) == if last.ts == t then Stamped(front, t) + [last] else Stamped(front, t)
  {
    var bars := front + [last];
    assert bars[..|bars| - 1] == front;
  }

  lemma {:induction false} InsertBarUpTo(bars: seq<PriceBar>, bar: PriceBar, t: int)
    requires InTimeOrder(bars)
    ensures UpTo(InsertBar(bars, bar), t) == if bar.ts <= t then InsertBar(UpTo(bars, t), bar) else UpTo(bars, t)
  {
    if bars == [] || bars[|bars| - 1].ts <= bar.ts {
      Appended(bars, bar, t);
      UpToKeepsOrder(bars, t);
    } else {
      var front, last := bars[..|bars| - 1], bars[|bars| - 1];
      InsertBarUpTo(front, bar, t);
      Appended(InsertBar(front, bar), last, t);
      if last.ts <= t {
        var kept := UpTo(bars, t);
        assert kept[..|kept| - 1] == UpTo(front, t);
      }
    }
  }

  lemma {:induction false} InsertBarStable(bars: seq<PriceBar>, bar: PriceBar, t: int)
    requires InTimeOrder(bars)
    ensures Stamped(InsertBar(bars, bar), t) == if bar.ts == t then Stamped(bars, t) + [bar] else Stamped(bars, t)
  {
    if bars == [] || bars[|bars| - 1].ts <= bar.ts {
      Appended(bars, bar, t);
    } else {
      var front, last := bars[..|bars| - 1], bars[|bars| - 1];
      InsertBarStable(front, bar, t);
      Appended(InsertBar(front, bar), last, t);
      if last.ts == t {
        assert bar.ts < t;
      }
    }
  }

  lemma {:induction false} UpToKeepsOrder(bars: seq<PriceBar>, t: int)
    requires InTimeOrder(bars)
    ensures InTimeOrder(UpTo(bars, t))
    ensures forall bar :: bar in UpTo(bars, t) <==> bar in bars && bar.ts <= t
    ensures bars != [] ==> forall bar | bar in UpTo(bars, t) :: bar.ts <= bars[|bars| - 1].ts
  {
    if bars != [] {
      var front, last := bars[..|bars| - 1], bars[|bars| - 1];
      UpToKeepsOrder(front, t);
      assert bars == front + [last];
    }
  }

  /** Sorting gives a time-ordered permutation in which bars of one instant keep their order. */
  lemma {:induction false} SortBarsCorrect(bars: seq<PriceBar>, t: int)
    ensures InTimeOrder(SortBars(bars))
    ensures multiset(SortBars(bars)) == multiset(bars)
    ensures Stamped(SortBars(bars), t) == Stamped(bars, t)
    decreases |bars|
  {
    hide InsertBar;
    if bars != [] {
      var front, last := SplitLast(bars);
      SortBarsCorrect(front, t);
      SortAppended(front, last);
      InsertBarShape(SortBars(front), last);
      InsertBarStable(SortBars(front), last, t);
      Appended(front, last, t);
    }
  }

  lemma SortAppended(front: seq<PriceBar>, last: PriceBar)
    ensures SortBars(front + [last]) == InsertBar(SortBars(front), last)
  {
    assert (front + [last])[..|front|] == front;
  }

  /** Cutting a history at t before sorting or after it is the same. */
  lemma {:induction false} SortCommutesWithCut(bars: seq<PriceBar>, t: int)
    ensures UpTo(SortBars(bars), t) == SortBars(UpTo(bars, t))
    decreases |bars|
  {
    hide InsertBar;
    if bars != [] {
      var front, last := SplitLast(bars);
      SortBarsCorrect(front, t);
      SortCommutesWithCut(front, t);
      SortAppended(front, last);
      InsertBarUpTo(SortBars(front), last, t);
      Appended(front, last, t);
      SortAppended(UpTo(front, t), last);
    }
  }

  // ----- MarketView -----

  datatype MarketView = MarketView(timestamp: int, history: History) {

    function Tickers(): seq<Ticker> {
      Sorted(history.Keys)
    }

    /** Python's `history[-lookback:]`: note that a lookback of zero selects everything. */
    function Bars(ticker: Ticker, lookback: Option<int>): seq<PriceBar> {
      var bars := Series(history, ticker);
      match lookback
      case None => bars
      case Some(k) =>
        if 0 < k < |bars| then bars[|bars| - k..]
        else if 0 <= -k <= |bars| then bars[-k..]
        else if k > 0 then bars
        else []
    }

    function Closes(ticker: Ticker): seq<real> {
      var bars := Series(history, ticker);
      seq(|bars|, i requires 0 <= i < |bars| => bars[i].close)
    }

    function CurrentBar(ticker: Ticker): Option<PriceBar> {
      var bars := Series(history, ticker);
      if bars == [] then None else Some(bars[|bars| - 1])
    }

    function CurrentPrice(ticker: Ticker): Option<real> {
      match CurrentBar(ticker)
      case None => None
      case Some(bar) => Some(bar.close)
    }

    predicate IsCurrent(ticker: Ticker) {
      CurrentBar(ticker).Some? && CurrentBar(ticker).value.ts == timestamp
    }
  }

  function ViewAt(h: History, now: int): MarketView {
    MarketView(now, map ticker | ticker in h && UpTo(h[ticker], now) != [] :: UpTo(h[ticker], now))
  }

  lemma {:induction false} UpToIdempotent(bars: seq<PriceBar>, now: int, t: int)
    requires now <= t
    ensures UpTo(UpTo(bars, t), now) == UpTo(bars, now)
  {
    if bars != [] {
      var front, last := bars[..|bars| - 1], bars[|bars| - 1];
      UpToIdempotent(front, now, t);
      Appended(UpTo(front, t), last, now);
    }
  }

  /** A view is a function of the bars at or before its instant and of nothing else. */
  lemma ViewsAgree(a: History, b: History, t: int, now: int)
    requires now <= t && AgreeThrough(a, b, t)
    ensures ViewAt(a, now) == ViewAt(b, now)
  {
    forall ticker ensures UpTo(Series(a, ticker), now) == UpTo(Series(b, ticker), now) {
      UpToIdempotent(Series(a, ticker), now, t);
      UpToIdempotent(Series(b, ticker), now, t);
    }
    var va, vb := ViewAt(a, now).history, ViewAt(b, now).history;
    forall ticker ensures ticker in va <==> ticker in vb {
      assert UpTo(Series(a, ticker), now) == UpTo(Series(b, ticker), now);
    }
    forall ticker | ticker in va ensures va[ticker] == vb[ticker] {
      assert UpTo(Series(a, ticker), now) == UpTo(Series(b, ticker), now);
    }
  }

  lemma {:induction false} UpToMembers(bars: seq<PriceBar>, t: int)
    ensures forall bar :: bar in UpTo(bars, t) <==> bar in bars && bar.ts <= t
  {
    if bars != [] {
      UpToMembers(bars[..|bars| - 1], t);
      assert bars == bars[..|bars| - 1] + [bars[|bars| - 1]];
    }
  }

  /** Python's slice keeps bars of the series only. */
  lemma LookbackSelects(view: MarketView, ticker: Ticker, lookback: Option<int>)
    ensures forall bar | bar in view.Bars(ticker, lookback) :: bar in Series(view.history, ticker)
    ensures view.Bars(ticker, None) == Series(view.history, ticker)
    ensures view.Bars(ticker, Some(0)) == Series(view.history, ticker)
  {
  }

  lemma ViewHolds(h: History, now: int, ticker: Ticker)
    ensures Series(ViewAt(h, now).history, ticker) == UpTo(Series(h, ticker), now)
  {
  }

  /** No accessor, at any lookback, reaches past the view's instant; and every bar the market
      had printed by then is there. */
  lemma AccessorsStayInThePast(h: History, now: int, ticker: Ticker, lookback: Option<int>)
    ensures var view := ViewAt(h, now);
      && (forall bar | bar in view.Bars(ticker, lookback) :: bar.ts <= now && bar in Series(h, ticker))
      && (forall bar :: bar in view.Bars(ticker, None) <==> bar in Series(h, ticker) && bar.ts <= now)
      && view.Bars(ticker, Some(0)) == view.Bars(ticker, None)
      && (view.CurrentBar(ticker).Some? ==> view.CurrentBar(ticker).value in view.Bars(ticker, None))
      && (view.CurrentBar(ticker).None? <==> forall bar | bar in Series(h, ticker) :: bar.ts > now)
  {
    hide MarketView.Bars, ViewAt, UpTo, Series;
    UpToMembers(Series(h, ticker), now);
    ViewHolds(h, now, ticker);
    LookbackSelects(ViewAt(h, now), ticker, lookback);
    var bars := Series(ViewAt(h, now).history, ticker);
    if bars == [] {
      assert forall bar | bar in Series(h, ticker) :: bar !in UpTo(Series(h, ticker), now);
    } else {
      assert bars[|bars| - 1] in bars;
    }
  }

  /** What the accessors read: a positive lookback gives the last so many bars or all there are, a negative one
      drops as many from the front; closes are the bars' closes in order, and the current price is the last. */
  lemma AccessorsReadTheSeries(view: MarketView, ticker: Ticker, lookback: int)
    ensures var bars, some, closes := view.Bars(ticker, None), view.Bars(ticker, Some(lookback)), view.Closes(ticker);
      && (lookback > 0 ==> |some| == (if lookback < |bars| then lookback else |bars|))
      && (lookback <= 0 ==> |some| == (if |bars| + lookback > 0 then |bars| + lookback else 0))
      && (forall i | 0 <= i < |some| :: some[i] == bars[|bars| - |some| + i])
      && |closes| == |bars| && (forall i | 0 <= i < |bars| :: closes[i] == bars[i].close)
      && view.CurrentPrice(ticker) == (if closes == [] then None else Some(closes[|closes| - 1]))
      && (view.IsCurrent(ticker) <==> bars != [] && bars[|bars| - 1].ts == view.timestamp)
    ensures StrictlyIncreasing(view.Tickers()) && (ticker in view.Tickers() <==> ticker in view.history)
  {
    LookbackReads(view, ticker, lookback);
    hide MarketView.Bars, Series;
    var bars, closes := Series(view.history, ticker), view.Closes(ticker);
    assert view.Bars(ticker, None) == bars;
    assert |closes| == |bars|;
  }

  lemma LookbackReads(view: MarketView, ticker: Ticker, lookback: int)
    ensures var bars, some := Series(view.history, ticker), view.Bars(ticker, Some(lookback));
      && view.Bars(ticker, None) == bars
      && (lookback > 0 ==> |some| == (if lookback < |bars| then lookback else |bars|))
      && (lookback <= 0 ==> |some| == (if |bars| + lookback > 0 then |bars| + lookback else 0))
      && |some| <= |bars| && some == bars[|bars| - |some|..]
  {
    hide Series;
    var bars, some := Series(view.history, ticker), view.Bars(ticker, Some(lookback));
    if 0 < lookback < |bars| {
      assert some == bars[|bars| - lookback..];
    } else if lookback <= 0 && |bars| + lookback >= 0 {
      assert some == bars[-lookback..] && |some| == |bars| + lookback;
    } else if lookback > 0 {
      assert some == bars == bars[0..];
    } else {
      assert some == [] == bars[|bars|..];
    }
  }

  /** The last of the bars stamped by now: the latest, in a series in time order. */
  ghost predicate IsLatest(bars: seq<PriceBar>, now: int, i: int) {
    0 <= i < |bars| && bars[i].ts <= now && forall j | i < j < |bars| :: bars[j].ts > now
  }

  lemma LatestInOrder(bars: seq<PriceBar>, now: int, i: int)
    requires InTimeOrder(bars) && IsLatest(bars, now, i)
    ensures forall bar | bar in bars && bar.ts <= now :: bar.ts <= bars[i].ts
  {
  }

  /** What is left by a cut ends with the last bar stamped by then. */
  ghost predicate EndsWithLatest(bars: seq<PriceBar>, cut: seq<PriceBar>, now: int) {
    && (cut == [] <==> forall bar | bar in bars :: bar.ts > now)
    && (forall i | IsLatest(bars, now, i) :: cut != [] && cut[|cut| - 1] == bars[i])
    && (cut != [] ==> exists i :: IsLatest(bars, now, i))
  }

  lemma {:induction false} CutEndsWithLatest(bars: seq<PriceBar>, now: int)
    ensures EndsWithLatest(bars, UpTo(bars, now), now)
    decreases |bars|
  {
    if bars != [] {
      var front, last := bars[..|bars| - 1], bars[|bars| - 1];
      assert bars == front + [last];
      hide UpTo, EndsWithLatest;
      CutEndsWithLatest(front, now);
      Appended(front, last, now);
      if last.ts <= now {
        KeptIsLatest(front, last, UpTo(front, now), now);
      } else {
        DroppedChangesNothing(front, last, UpTo(front, now), now);
      }
    }
  }

  lemma KeptIsLatest(front: seq<PriceBar>, last: PriceBar, cut: seq<PriceBar>, now: int)
    requires last.ts <= now
    ensures EndsWithLatest(front + [last], cut + [last], now)
  {
    var bars := front + [last];
    assert bars[|front|] == last && last in bars;
    assert IsLatest(bars, now, |front|);
  }

  lemma DroppedChangesNothing(front: seq<PriceBar>, last: PriceBar, cut: seq<PriceBar>, now: int)
    requires last.ts > now && EndsWithLatest(front, cut, now)
    ensures EndsWithLatest(front + [last], cut, now)
  {
    forall i ensures IsLatest(front + [last], now, i) <==> IsLatest(front, now, i) {
      LatestOfFront(front, last, now, i);
    }
  }

  lemma LatestOfFront(front: seq<PriceBar>, last: PriceBar, now: int, i: int)
    requires last.ts > now
    ensures IsLatest(front + [last], now, i) <==> IsLatest(front, now, i)
  {
    var bars := front + [last];
    assert bars[|front|] == last && forall j | 0 <= j < |front| :: bars[j] == front[j];
  }

  // ----- the bar an order fills against -----

  /** The first bar stamped exactly now. */
  function FirstAt(bars: seq<PriceBar>, now: int): Option<PriceBar> {
    if bars == [] then None
    else if bars[0].ts == now then Some(bars[0])
    else FirstAt(bars[1..], now)
  }

  function BarAt(h: History, ticker: Ticker, now: int): Option<PriceBar> {
    FirstAt(Series(h, ticker), now)
  }

  lemma {:induction false} FirstAtAppend(bars: seq<PriceBar>, bar: PriceBar, now: int)
    ensures FirstAt(bars + [bar], now) ==
            if FirstAt(bars, now).Some? then FirstAt(bars, now) else if bar.ts == now then Some(bar) else None
  {
    if bars != [] {
      FirstAtAppend(bars[1..], bar, now);
      assert (bars + [bar])[1..] == bars[1..] + [bar];
    }
  }

  lemma {:induction false} FirstAtInPast(bars: seq<PriceBar>, now: int, t: int)
    requires now <= t
    ensures FirstAt(UpTo(bars, t), now) == FirstAt(bars, now)
  {
    if bars != [] {
      var front, last := bars[..|bars| - 1], bars[|bars| - 1];
      FirstAtInPast(front, now, t);
      assert bars == front + [last];
      FirstAtAppend(front, last, now);
      FirstAtAppend(UpTo(front, t), last, now);
    }
  }

  /** An order fills against the first bar of its series stamped now. */
  lemma {:induction false} BarAtIsFirst(bars: seq<PriceBar>, now: int, i: nat)
    requires i < |bars| && bars[i].ts == now && forall j | 0 <= j < i :: bars[j].ts != now
    ensures FirstAt(bars, now) == Some(bars[i])
    decreases i
  {
    if i > 0 {
      BarAtIsFirst(bars[1..], now, i - 1);
    }
  }

  lemma {:induction false} FirstAtMember(bars: seq<PriceBar>, now: int)
    ensures FirstAt(bars, now).Some? ==> FirstAt(bars, now).value in bars && FirstAt(bars, now).value.ts == now
    ensures FirstAt(bars, now).None? ==> forall bar | bar in bars :: bar.ts != now
  {
    if bars != [] {
      FirstAtMember(bars[1..], now);
    }
  }
}
