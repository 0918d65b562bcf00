/** What the shipped strategies act on, read off the price bars themselves (backtesting/strategy.py). */
module StrategyTerms {
  import opened Wrappers
  import opened Rounding
  import opened MarketData
  import opened Indicators
  import opened Strategies

  /** The first n bars of the series are those stamped by now. */
  ghost predicate Known(bars: seq<PriceBar>, now: int, n: int) {
    && 0 <= n <= |bars| && (forall i | 0 <= i < n :: bars[i].ts <= now)
    && (forall i | n <= i < |bars| :: bars[i].ts > now)
  }

  lemma {:induction false} CutIsKnown(bars: seq<PriceBar>, now: int, n: int)
    requires Known(bars, now, n)
    ensures UpTo(bars, now) == bars[..n]
    decreases |bars|
  {
    hide UpTo;
    if bars == [] {
      CutOfNothing(now);
    } else {
      var front, last := bars[..|bars| - 1], bars[|bars| - 1];
      Appended(front, last, now);
      CutIsKnown(front, now, if n == |bars| then |front| else n);
      assert bars == front + [last] && front[..|front|] == front;
      if n < |bars| {
        assert front[..n] == bars[..n];
      }
    }
  }

  lemma CutOfNothing(now: int)
    ensures UpTo([], now) == []
  {
  }

  /** Closing prices from one bar up to another, added up. */
  function Closing(bars: seq<PriceBar>, lo: nat, hi: nat): real
    requires lo <= hi <= |bars|
  {
    if lo == hi then 0.0 else Closing(bars, lo, hi - 1) + bars[hi - 1].close
  }

  lemma {:induction false} ClosesAddUp(bars: seq<PriceBar>, closes: seq<real>, lo: nat, hi: nat)
    requires lo <= hi <= |closes| <= |bars| && forall i | 0 <= i < |closes| :: closes[i] == bars[i].close
    ensures SumRange(closes, lo, hi) == Closing(bars, lo, hi)
    decreases hi
  {
    if lo < hi {
      ClosesAddUp(bars, closes, lo, hi - 1);
    }
  }

  lemma MeansCompare(a: real, m: real, b: real, n: real)
    requires m > 0.0 && n > 0.0
    ensures Over(a, m) > Over(b, n) <==> Times(a, n) > Times(b, m)
  {
    var x, y := Over(a, m), Over(b, n);
    assert x * m == a && y * n == b;
    assert Times(a, n) - Times(b, m) == (x - y) * (m * n);
    assert m * n > 0.0;
    ProductSign(x - y, m * n);
  }

  lemma ProductSign(x: real, y: real)
    requires y > 0.0
    ensures x > 0.0 <==> x * y > 0.0
  {
  }

  /** What a view shows of a ticker. */
  lemma ViewShows(history: History, now: int, ticker: Ticker, n: int)
    requires Known(MarketData.Series(history, ticker), now, n)
    ensures var bars, view := MarketData.Series(history, ticker), ViewAt(history, now);
      && |view.Closes(ticker)| == n && (forall i | 0 <= i < n :: view.Closes(ticker)[i] == bars[i].close)
      && (view.IsCurrent(ticker) <==> n > 0 && bars[n - 1].ts == now)
      && (ticker in view.Tickers() <==> n > 0)
  {
    hide UpTo, ViewAt, MarketData.Series;
    var bars := MarketData.Series(history, ticker);
    assert 0 <= n <= |bars|;
    ViewHolds(history, now, ticker);
    CutIsKnown(bars, now, n);
    ViewIs(history, now, ticker);
    hide Known;
    ViewReads(ViewAt(history, now), ticker, bars[..n]);
  }

  lemma ViewReads(view: MarketView, ticker: Ticker, bars: seq<PriceBar>)
    requires MarketData.Series(view.history, ticker) == bars
    ensures |view.Closes(ticker)| == |bars| && (forall i | 0 <= i < |bars| :: view.Closes(ticker)[i] == bars[i].close)
    ensures view.IsCurrent(ticker) <==> bars != [] && bars[|bars| - 1].ts == view.timestamp
  {
  }

  lemma ViewIs(history: History, now: int, ticker: Ticker)
    ensures var view := ViewAt(history, now);
      view.timestamp == now && (ticker in view.Tickers() <==> MarketData.Series(view.history, ticker) != [])
  {
    hide UpTo;
  }

  /** The crossover judges a ticker at an instant exactly when it has a bar stamped then and at least `slow` bars by
      then; and finds it rising exactly when its last `fast` closes, on average, are above its last `slow`. */
  lemma VerdictOfBars(rule: Cross, history: History, now: int, ticker: Ticker, n: int)
    requires Known(MarketData.Series(history, ticker), now, n)
    ensures var bars, verdict := MarketData.Series(history, ticker), Verdict(rule, ViewAt(history, now), ticker);
      && (verdict.Some? <==> n >= rule.slow && bars[n - 1].ts == now)
      && (verdict.Some? ==>
            (verdict.value <==> Times(Closing(bars, n - rule.fast, n), rule.slow as real)
                                > Times(Closing(bars, n - rule.slow, n), rule.fast as real)))
  {
    hide Times, Over, ViewAt, SumRange, Closing, MarketView.Closes, MarketView.IsCurrent;
    var bars, closes := MarketData.Series(history, ticker), ViewAt(history, now).Closes(ticker);
    ViewShows(history, now, ticker, n);
    if n >= rule.slow {
      ClosesAddUp(bars, closes, n - rule.fast, n);
      ClosesAddUp(bars, closes, n - rule.slow, n);
      MeansCompare(Closing(bars, n - rule.fast, n), rule.fast as real, Closing(bars, n - rule.slow, n),
        rule.slow as real);
    }
  }

  /** Buy and hold can buy a ticker at an instant exactly when it is listed, or nothing is, and some bar of it is
      stamped then. */
  lemma BuyableByItsBars(tickers: Option<seq<Ticker>>, history: History, now: int, ticker: Ticker, n: int)
    requires Known(MarketData.Series(history, ticker), now, n) && InTimeOrder(MarketData.Series(history, ticker))
    ensures Buyable(tickers, ViewAt(history, now), ticker) <==>
            && (tickers.Some? ==> ticker in tickers.value)
            && exists bar :: bar in MarketData.Series(history, ticker) && bar.ts == now
  {
    hide ViewAt, MarketView.Closes, MarketView.IsCurrent, MarketView.Tickers;
    var bars := MarketData.Series(history, ticker);
    ViewShows(history, now, ticker, n);
    if bar :| bar in bars && bar.ts == now {
      var i :| 0 <= i < |bars| && bars[i] == bar;
      assert i < n && bars[i].ts <= bars[n - 1].ts;
    }
    if n > 0 && bars[n - 1].ts == now {
      assert bars[n - 1] in bars;
    }
  }
}
