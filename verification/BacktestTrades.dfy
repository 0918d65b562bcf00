/** The records a backtest leaves behind tell what happened: closed trades are the sales, lots and trades
    know the buy that opened them, and an unfilled order says why. */
module BacktestTrades {
  import opened Wrappers
  import opened Rounding
  import opened Accounting
  import opened MarketData
  import opened Backtest
  import opened BacktestCash
  import opened BacktestLots

  function SalesOf(fills: seq<Fill>): seq<Fill> {
    if fills == [] then [] else
      var front, last := fills[..|fills| - 1], fills[|fills| - 1];
      if last.action == Sell then SalesOf(front) + [last] else SalesOf(front)
  }

  lemma SalesSnoc(fills: seq<Fill>, fill: Fill)
    ensures SalesOf(fills + [fill]) == if fill.action == Sell then SalesOf(fills) + [fill] else SalesOf(fills)
  {
    assert (fills + [fill])[..|fills|] == fills;
  }

  /** The trade and the sale are the same event. */
  predicate Reports(trade: ClosedTrade, sale: Fill) {
    && trade.ticker == sale.ticker && trade.quantity == sale.quantity && trade.exitPrice == sale.price
    && trade.closedAt == sale.timestamp && trade.pnl == sale.realizedPnl
  }

  ghost predicate AllReport(closed: seq<ClosedTrade>, sales: seq<Fill>) {
    |closed| == |sales| && forall i | 0 <= i < |closed| :: Reports(closed[i], sales[i])
  }

  /** Some buy of this ticker was filled at this instant. */
  ghost predicate BoughtAt(fills: seq<Fill>, ticker: Ticker, at: int) {
    exists k :: 0 <= k < |fills| && fills[k].ticker == ticker && fills[k].action == Buy && fills[k].timestamp == at
  }

  lemma StillBought(fills: seq<Fill>, fill: Fill)
    ensures forall ticker, at | BoughtAt(fills, ticker, at) :: BoughtAt(fills + [fill], ticker, at)
    ensures fill.action == Buy ==> BoughtAt(fills + [fill], fill.ticker, fill.timestamp)
  {
    var more := fills + [fill];
    forall ticker, at | BoughtAt(fills, ticker, at) ensures BoughtAt(more, ticker, at) {
      var k :| 0 <= k < |fills| && fills[k].ticker == ticker && fills[k].action == Buy && fills[k].timestamp == at;
      assert more[k] == fills[k];
    }
    assert more[|fills|] == fill;
  }

  ghost predicate TradesAreSales(book: Book) {
    && AllReport(book.closed, SalesOf(book.fills))
    && (forall t | t in book.lots :: BoughtAt(book.fills, t, book.lots[t].openedAt))
    && (forall i | 0 <= i < |book.closed| :: BoughtAt(book.fills, book.closed[i].ticker, book.closed[i].openedAt))
  }

  lemma BoughtKeepsTrades(rules: Rules, signal: Signal, open: real, price: real, quantity: real, now: int, book: Book)
    requires TradesAreSales(book) && Bought(rules, signal, open, price, quantity, now, book).Ok?
    ensures TradesAreSales(Bought(rules, signal, open, price, quantity, now, book).value)
  {
    hide Times, Over, ApplyBuy, SalesOf, BoughtAt, AllReport;
    var after := Bought(rules, signal, open, price, quantity, now, book).value;
    SalesSnoc(book.fills, after.fills[|book.fills|]);
    StillBought(book.fills, after.fills[|book.fills|]);
  }

  lemma SoldKeepsTrades(rules: Rules, signal: Signal, open: real, price: real, quantity: real, now: int, book: Book)
    requires LotsMirror(rules, book) && TradesAreSales(book) && quantity > 0.0
    requires Sold(rules, signal, open, price, quantity, now, book).Ok?
    ensures TradesAreSales(Sold(rules, signal, open, price, quantity, now, book).value)
  {
    hide Times, Over, SalesOf, BoughtAt;
    var held := Held(book.positions, signal.ticker);
    assert held.quantity > 0.0 && signal.ticker in book.lots;
    hide ApplySell, LotsMirror;
    var after := Sold(rules, signal, open, price, quantity, now, book).value;
    SalesSnoc(book.fills, after.fills[|book.fills|]);
    StillBought(book.fills, after.fills[|book.fills|]);
    assert after.closed == book.closed + [after.closed[|book.closed|]];
  }

  lemma OrderKeepsTrades(rules: Rules, order: Order, history: History, now: int, book: Book)
    requires LotsMirror(rules, book) && TradesAreSales(book) && FillOrder(rules, order, history, now, book).Ok?
    ensures TradesAreSales(FillOrder(rules, order, history, now, book).value)
  {
    hide Times, Over, Size, LotsMirror, Bought, Sold, TradesAreSales;
    var signal := order.signal;
    var found := BarAt(history, signal.ticker, now);
    var held := Held(book.positions, signal.ticker).quantity;
    if found.Some? {
      var open, price := found.value.open, rules.config.SlippagePrice(found.value.open, signal.action);
      if signal.action == Buy && SizeBuy(rules, signal, price, book.cash, held).value.Sized? {
        var quantity := SizeBuy(rules, signal, price, book.cash, held).value.quantity;
        BoughtKeepsTrades(rules, signal, open, price, quantity, now, book);
      } else if signal.action == Sell && held > 0.0 && SellQuantity(held, signal.strength) > 0.0 {
        SoldKeepsTrades(rules, signal, open, price, SellQuantity(held, signal.strength), now, book);
      } else {
        SameRecords(book, FillOrder(rules, order, history, now, book).value);
      }
    } else {
      SameRecords(book, FillOrder(rules, order, history, now, book).value);
    }
  }

  lemma SameRecords(book: Book, after: Book)
    requires TradesAreSales(book) && after.closed == book.closed && after.fills == book.fills && after.lots == book.lots
    ensures TradesAreSales(after)
  {
  }

  /** At every instant of every run the closed trades are the sales, in order, event for event; and every
      open lot and every closed trade was opened by a buy of its ticker that is on record. */
  lemma ClosedTradesAreSales<S>(rules: Rules, strategy: Strategy<S>, history: History, timeline: seq<int>)
    requires RunThrough(rules, strategy, history, timeline).Ok?
    ensures TradesAreSales(RunThrough(rules, strategy, history, timeline).value.book)
  {
    hide LotsMirror, TradesAreSales, FillOrder;
    var inv := (b: Book) => LotsMirror(rules, b) && TradesAreSales(b);
    forall order, t, b | inv(b) && FillOrder(rules, order, history, t, b).Ok?
      ensures inv(FillOrder(rules, order, history, t, b).value)
    {
      OrderKeepsMirror(rules, order, history, t, b);
      OrderKeepsTrades(rules, order, history, t, b);
    }
    NothingYet(rules, strategy);
    RunKeeps(rules, strategy, history, timeline, inv);
  }

  lemma NothingYet<S>(rules: Rules, strategy: Strategy<S>)
    ensures LotsMirror(rules, Start(rules, strategy).book) && TradesAreSales(Start(rules, strategy).book)
  {
  }

  /** A closed trade's return is its price move over its entry price, which is the average cost of the
      position it was sold from; the quantity sold has no part in it. Like its prices it is rounded once. */
  lemma TradeReportsReturn(rules: Rules, signal: Signal, open: real, price: real, quantity: real, now: int, book: Book)
    requires LotsMirror(rules, book) && quantity > 0.0
    requires Sold(rules, signal, open, price, quantity, now, book).Ok?
    ensures var after := Sold(rules, signal, open, price, quantity, now, book).value;
      var trade, entry := after.closed[|book.closed|], Held(book.positions, signal.ticker).averageCost;
      && |after.closed| == |book.closed| + 1
      && trade.entryPrice == entry && trade.exitPrice == rules.R(price) && trade.quantity == rules.R(quantity)
      && trade.returnPct == (if entry > 0.0 then rules.R(Over(price - entry, entry)) else 0.0)
      && (entry > 0.0 ==> Abs(trade.returnPct - Over(price - entry, entry)) <= Slack(rules.precision))
  {
    hide Times, Over, RoundQuantity;
    var entry := book.lots[signal.ticker].entryPrice;
    HeldIsStored(rules, book, signal.ticker);
    RoundFixesGrid(rules.precision, entry);
    if entry > 0.0 {
      ShareOfCost(quantity, price - entry, entry);
      RoundNear(rules.precision, Over(price - entry, entry));
    }
  }

  lemma ShareOfCost(quantity: real, gain: real, entry: real)
    requires quantity > 0.0 && entry > 0.0
    ensures Times(entry, quantity) > 0.0
    ensures Over(Times(quantity, gain), Times(entry, quantity)) == Over(gain, entry)
  {
    TimesSign(entry, quantity);
    var x := Over(Times(quantity, gain), Times(entry, quantity));
    assert x * (entry * quantity) == quantity * gain;
    assert (x * entry) * quantity == gain * quantity;
    SameFactor(x * entry, gain, quantity);
    SameQuotient(x, gain, entry);
  }

  lemma SameQuotient(x: real, y: real, z: real)
    requires z > 0.0 && x * z == y
    ensures x == Over(y, z)
  {
  }

  lemma SameFactor(x: real, y: real, q: real)
    requires q > 0.0 && x * q == y * q
    ensures x == y
  {
  }

  /** An unfilled record says truly why: there was no bar, nothing to sell, or nothing the sizer wanted; and
      only a missing bar keeps the instant the order was queued. */
  lemma UnfilledSaysWhy(rules: Rules, order: Order, history: History, now: int, book: Book)
    requires FillOrder(rules, order, history, now, book).Ok?
    ensures var after := FillOrder(rules, order, history, now, book).value;
      var signal := order.signal;
      var bar, held := BarAt(history, signal.ticker, now), Held(book.positions, signal.ticker).quantity;
      after.unfilled != book.unfilled ==>
        && after.unfilled == book.unfilled + [after.unfilled[|book.unfilled|]]
        && var record := after.unfilled[|book.unfilled|];
           && record.ticker == signal.ticker && record.action == signal.action
           && (record.reason == DidNotTrade <==> bar.None?)
           && (record.reason == NothingToSell <==> bar.Some? && signal.action == Sell && held <= 0.0)
           && (record.reason == SizedToZero <==> bar.Some? && signal.action == Buy)
           && record.queuedAt == if record.reason == DidNotTrade then order.queuedAt else now
  {
    hide Size, Bought, Sold, Times, Over;
    BuysAndSalesRefuseNothing(rules, order, history, now, book);
  }

  lemma BuysAndSalesRefuseNothing(rules: Rules, order: Order, history: History, now: int, book: Book)
    ensures forall signal, open, price, quantity | Bought(rules, signal, open, price, quantity, now, book).Ok? ::
              Bought(rules, signal, open, price, quantity, now, book).value.unfilled == book.unfilled
    ensures forall signal, open, price, quantity | quantity > 0.0
      && Sold(rules, signal, open, price, quantity, now, book).Ok? ::
              Sold(rules, signal, open, price, quantity, now, book).value.unfilled == book.unfilled
  {
    hide Times, Over, ApplyBuy, ApplySell;
  }
}
