/** Since when a position has been open: lots and closed trades keep the instant of the buy that opened them
    (backtesting/engine.py). */
module Openings {
  import opened Wrappers
  import opened Rounding
  import opened MarketData
  import opened Backtest

  /** When the ticker's lot last came into being, watching only whether it has one: it opens with the order that
      finds none and leaves one, and is gone with the order that leaves none. */
  ghost function OpenedBy(
    rules: Rules, orders: seq<Order>, history: History, now: int, book: Book, ticker: Ticker, since: Option<int>)
    : Option<int>
  {
    if orders == [] || FillAll(rules, orders, history, now, book).Err? then since
    else
      var front := orders[..|orders| - 1];
      var before, after := FillAll(rules, front, history, now, book), FillAll(rules, orders, history, now, book);
      if ticker !in after.value.lots then None
      else if ticker in before.value.lots then OpenedBy(rules, front, history, now, book, ticker, since)
      else Some(now)
  }

  ghost function OpenSince<S>(
    rules: Rules, strategy: Strategy<S>, history: History, timeline: seq<int>, ticker: Ticker)
    : Option<int>
  {
    if timeline == [] || RunThrough(rules, strategy, history, timeline).Err? then None
    else
      var front, now := timeline[..|timeline| - 1], timeline[|timeline| - 1];
      var before := RunThrough(rules, strategy, history, front).value;
      OpenedBy(rules, before.pending, history, now, before.book, ticker,
        OpenSince(rules, strategy, history, front, ticker))
  }

  /** The lot knows when it opened. */
  ghost predicate Knows(book: Book, ticker: Ticker, since: Option<int>) {
    since == if ticker in book.lots then Some(book.lots[ticker].openedAt) else None
  }

  /** One order: a lot that stays keeps its opening, a new one opens now; a trade it closes carries the opening of
      the lot it is sold from, and closes now. */
  lemma OrderKeepsOpening(rules: Rules, order: Order, history: History, now: int, book: Book, ticker: Ticker)
    requires FillOrder(rules, order, history, now, book).Ok?
    ensures var after := FillOrder(rules, order, history, now, book).value;
      && (ticker in after.lots && ticker in book.lots ==> after.lots[ticker].openedAt == book.lots[ticker].openedAt)
      && (ticker in after.lots && ticker !in book.lots ==> after.lots[ticker].openedAt == now)
      && book.closed <= after.closed && |after.closed| <= |book.closed| + 1
      && (|after.closed| > |book.closed| ==>
            var trade := after.closed[|book.closed|];
            trade.ticker in book.lots && trade.openedAt == book.lots[trade.ticker].openedAt && trade.closedAt == now)
  {
    hide Times, Over, Size;
  }

  lemma {:induction false} OrdersKnow(
    rules: Rules, orders: seq<Order>, history: History, now: int, book: Book, ticker: Ticker, since: Option<int>)
    requires FillAll(rules, orders, history, now, book).Ok? && Knows(book, ticker, since)
    ensures Knows(FillAll(rules, orders, history, now, book).value, ticker,
                  OpenedBy(rules, orders, history, now, book, ticker, since))
  {
    hide FillOrder;
    if orders != [] {
      var front, last := orders[..|orders| - 1], orders[|orders| - 1];
      OrdersKnow(rules, front, history, now, book, ticker, since);
      OrderKeepsOpening(rules, last, history, now, FillAll(rules, front, history, now, book).value, ticker);
    }
  }

  /** At every instant of every run a lot's opening is the instant its position was opened from none. */
  lemma {:induction false} LotsKnowTheirOpening<S>(
    rules: Rules, strategy: Strategy<S>, history: History, timeline: seq<int>, ticker: Ticker)
    requires RunThrough(rules, strategy, history, timeline).Ok?
    ensures Knows(RunThrough(rules, strategy, history, timeline).value.book, ticker,
                  OpenSince(rules, strategy, history, timeline, ticker))
  {
    hide FillAll, OpenedBy, Knows;
    if timeline == [] {
      NothingOpen(rules, strategy, ticker);
    } else {
      var front, now := timeline[..|timeline| - 1], timeline[|timeline| - 1];
      var before := RunThrough(rules, strategy, history, front).value;
      LotsKnowTheirOpening(rules, strategy, history, front, ticker);
      OrdersKnow(rules, before.pending, history, now, before.book, ticker,
        OpenSince(rules, strategy, history, front, ticker));
    }
  }

  lemma NothingOpen<S>(rules: Rules, strategy: Strategy<S>, ticker: Ticker)
    ensures Knows(Start(rules, strategy).book, ticker, None)
  {
  }

  lemma {:induction false} TradeHasItsOrder(
    rules: Rules, orders: seq<Order>, history: History, now: int, book: Book, k: nat)
    returns (j: nat)
    requires FillAll(rules, orders, history, now, book).Ok?
    requires |book.closed| <= k < |FillAll(rules, orders, history, now, book).value.closed|
    ensures j < |orders| && FillAll(rules, orders[..j], history, now, book).Ok?
    ensures var met, trade := FillAll(rules, orders[..j], history, now, book).value,
                              FillAll(rules, orders, history, now, book).value.closed[k];
      && |met.closed| == k && trade.ticker in met.lots
      && trade.openedAt == met.lots[trade.ticker].openedAt && trade.closedAt == now
    decreases |orders|
  {
    hide FillOrder;
    var front, last := orders[..|orders| - 1], orders[|orders| - 1];
    var before := FillAll(rules, front, history, now, book).value;
    OrderKeepsOpening(rules, last, history, now, before, 0);
    if k < |before.closed| {
      j := TradeHasItsOrder(rules, front, history, now, book, k);
      assert front[..j] == orders[..j];
    } else {
      j := |orders| - 1;
    }
  }

  lemma {:induction false} ClosedGrows(rules: Rules, orders: seq<Order>, history: History, now: int, book: Book)
    requires FillAll(rules, orders, history, now, book).Ok?
    ensures book.closed <= FillAll(rules, orders, history, now, book).value.closed
  {
    hide FillOrder;
    if orders != [] {
      var front, last := orders[..|orders| - 1], orders[|orders| - 1];
      ClosedGrows(rules, front, history, now, book);
      OrderKeepsOpening(rules, last, history, now, FillAll(rules, front, history, now, book).value, 0);
    }
  }

  /** Every closed trade of every run was opened at the instant its position was last opened from none, as it stood
      when the sale met it -- instant i, order j -- and closed at that sale's instant. */
  lemma {:induction false} TradesKeepTheirOpening<S>(
    rules: Rules, strategy: Strategy<S>, history: History, timeline: seq<int>, k: nat)
    returns (i: nat, j: nat)
    requires RunThrough(rules, strategy, history, timeline).Ok?
    requires k < |RunThrough(rules, strategy, history, timeline).value.book.closed|
    ensures i < |timeline| && RunThrough(rules, strategy, history, timeline[..i]).Ok?
    ensures var st := RunThrough(rules, strategy, history, timeline[..i]).value;
      var trade := RunThrough(rules, strategy, history, timeline).value.book.closed[k];
      && j < |st.pending| && FillAll(rules, st.pending[..j], history, timeline[i], st.book).Ok?
      && |FillAll(rules, st.pending[..j], history, timeline[i], st.book).value.closed| == k
      && trade.closedAt == timeline[i]
      && Some(trade.openedAt) ==
         OpenedBy(rules, st.pending[..j], history, timeline[i], st.book, trade.ticker,
                  OpenSince(rules, strategy, history, timeline[..i], trade.ticker))
    decreases |timeline|
  {
    hide FillAll, OpenedBy, Queue;
    var front, now := timeline[..|timeline| - 1], timeline[|timeline| - 1];
    var before := RunThrough(rules, strategy, history, front).value;
    var trade := RunThrough(rules, strategy, history, timeline).value.book.closed[k];
    ClosedGrows(rules, before.pending, history, now, before.book);
    if k < |before.book.closed| {
      i, j := TradesKeepTheirOpening(rules, strategy, history, front, k);
      assert front[..i] == timeline[..i];
    } else {
      i := |timeline| - 1;
      j := TradeHasItsOrder(rules, before.pending, history, now, before.book, k);
      LotsKnowTheirOpening(rules, strategy, history, front, trade.ticker);
      OrdersKnow(rules, before.pending[..j], history, now, before.book, trade.ticker,
                 OpenSince(rules, strategy, history, front, trade.ticker));
    }
  }
}
