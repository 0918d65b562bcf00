/** A backtest and a paper portfolio that carry out the same trades end with the same positions, the same cash
    and the same realized profits (backtesting/engine.py, data/storage/portfolio_repository.py). */
module Parity {
  import opened Rounding
  import opened Accounting
  import opened MarketData
  import opened Backtest
  import opened BacktestCash
  import opened PaperPortfolio

  /** The fill is the record of the trade: the same side, instant and instrument, the commission of its amounts,
      and all of them rounded. */
  predicate Records(rules: Rules, fill: Fill, trade: Trade) {
    && fill.ticker == trade.asset && fill.timestamp == trade.at
    && fill.action == (if trade.side == BuySide then Buy else Sell)
    && fill.quantity == rules.R(trade.quantity) && fill.price == rules.R(trade.price)
    && trade.fees == rules.config.CommissionOn(Times(trade.quantity, trade.price))
    && fill.commission == rules.R(trade.fees)
  }

  /** The paper portfolio that starts with the same cash and is given these trades accepts every one of them,
      writes the profit the fills report, and stands where the book stands. */
  ghost predicate Twins(rules: Rules, book: Book, trades: seq<Trade>) {
    && |trades| == |book.fills| && (forall i | 0 <= i < |trades| :: Records(rules, book.fills[i], trades[i]))
    && var paper := AfterTrades(rules.precision, rules.config.initialCash, trades);
       && paper.cash == book.cash && Representable(rules.precision, book.cash)
       && (forall asset :: StateOf(paper.positions, asset) == Held(book.positions, asset))
       && |paper.ledger| == |trades|
       && forall i | 0 <= i < |trades| :: paper.ledger[i].realizedPnl == book.fills[i].realizedPnl
  }

  ghost predicate HasTwin(rules: Rules, book: Book) {
    exists trades :: Twins(rules, book, trades)
  }

  /** One more trade, taken by both. */
  lemma TwinsTrade(rules: Rules, book: Book, trades: seq<Trade>, trade: Trade, effect: Effect, after: Book)
    requires Twins(rules, book, trades)
    requires Effects(rules.precision, Held(book.positions, trade.asset), trade) == Ok(effect)
    requires trade.side == BuySide ==> book.cash + effect.cashDelta >= 0.0
    requires Representable(rules.precision, effect.cashDelta)
    requires after.cash == book.cash + effect.cashDelta
    requires after.positions == book.positions[trade.asset := effect.state]
    requires |after.fills| == |book.fills| + 1 && after.fills == book.fills + [after.fills[|book.fills|]]
    requires Records(rules, after.fills[|book.fills|], trade)
    requires after.fills[|book.fills|].realizedPnl == effect.realizedPnl
    ensures Twins(rules, after, trades + [trade])
  {
    hide Effects, Records;
    var all, p, cash := trades + [trade], rules.precision, rules.config.initialCash;
    assert all[..|all| - 1] == trades && all[|trades|] == trade;
    GridSum(p, book.cash, effect.cashDelta);
    RoundFixesGrid(p, after.cash);
    var before, paper := AfterTrades(p, cash, trades), AfterTrades(p, cash, all);
    assert RecordTrade(p, before, trade) == Ok(paper);
    assert paper.ledger == before.ledger + [LedgerRow(trade, effect)];
    forall asset ensures StateOf(paper.positions, asset) == Held(after.positions, asset) {
      assert StateOf(before.positions, asset) == Held(book.positions, asset);
    }
  }

  lemma BuyHasTwin(rules: Rules, signal: Signal, open: real, price: real, quantity: real, now: int, book: Book)
    requires HasTwin(rules, book) && Bought(rules, signal, open, price, quantity, now, book).Ok?
    requires Times(quantity, price) + rules.config.CommissionOn(Times(quantity, price)) <= book.cash
    ensures HasTwin(rules, Bought(rules, signal, open, price, quantity, now, book).value)
  {
    hide Times, Over, Twins, Round6, Config.CommissionOn;
    var trades :| Twins(rules, book, trades);
    var fees, after := rules.config.CommissionOn(Times(quantity, price)),
                       Bought(rules, signal, open, price, quantity, now, book).value;
    var trade := Trade(signal.ticker, BuySide, quantity, price, fees, now, 0);
    var effect := Effects(rules.precision, Held(book.positions, signal.ticker), trade).value;
    TwinsHaveGridCash(rules, book, trades);
    var gross := Times(quantity, price) + fees;
    RoundNear(rules.precision, -gross);
    ZeroOnGrid(rules.precision);
    GridSum(rules.precision, 0.0, book.cash);
    RoundKeepsBound(rules.precision, -book.cash, -gross);
    TwinsTrade(rules, book, trades, trade, effect, after);
  }

  lemma TwinsHaveGridCash(rules: Rules, book: Book, trades: seq<Trade>)
    requires Twins(rules, book, trades)
    ensures Representable(rules.precision, book.cash)
  {
  }

  lemma SaleHasTwin(rules: Rules, signal: Signal, open: real, price: real, quantity: real, now: int, book: Book)
    requires HasTwin(rules, book) && quantity > 0.0 && Sold(rules, signal, open, price, quantity, now, book).Ok?
    ensures HasTwin(rules, Sold(rules, signal, open, price, quantity, now, book).value)
  {
    hide Times, Over, Twins, Round6, Config.CommissionOn, CloseLot;
    var trades :| Twins(rules, book, trades);
    var fees, after := rules.config.CommissionOn(Times(quantity, price)),
                       Sold(rules, signal, open, price, quantity, now, book).value;
    var trade := Trade(signal.ticker, SellSide, quantity, price, fees, now, 0);
    var effect := Effects(rules.precision, Held(book.positions, signal.ticker), trade).value;
    RoundNear(rules.precision, Times(quantity, price) - fees);
    RoundNear(rules.precision, Times(quantity, price - Held(book.positions, signal.ticker).averageCost) - fees);
    RoundFixesGrid(rules.precision, effect.realizedPnl);
    SoldFills(rules, signal, open, price, quantity, now, book);
    TwinsTrade(rules, book, trades, trade, effect, after);
  }

  lemma SoldFills(rules: Rules, signal: Signal, open: real, price: real, quantity: real, now: int, book: Book)
    requires quantity > 0.0
    ensures forall effect :: CloseLot(rules, signal.ticker, price, quantity, now, book, effect).fills == book.fills
  {
    hide Times, Over;
  }

  lemma OrderKeepsTwin(rules: Rules, order: Order, history: History, now: int, book: Book)
    requires HasTwin(rules, book) && FillOrder(rules, order, history, now, book).Ok?
    ensures HasTwin(rules, FillOrder(rules, order, history, now, book).value)
  {
    hide Times, Over, Size, HasTwin, Bought, Sold, Config.CommissionOn;
    var signal := order.signal;
    var found := BarAt(history, signal.ticker, now);
    var held := Held(book.positions, signal.ticker).quantity;
    SameTwin(rules, book, FillOrder(rules, order, history, now, book).value);
    if found.Some? {
      var open, price := found.value.open, rules.config.SlippagePrice(found.value.open, signal.action);
      if signal.action == Buy && SizeBuy(rules, signal, price, book.cash, held).value.Sized? {
        var quantity := SizeBuy(rules, signal, price, book.cash, held).value.quantity;
        BoughtAtAPrice(rules, signal, open, price, quantity, now, book);
        SizedIsAffordable(rules, signal, price, book.cash, held);
        BuyHasTwin(rules, signal, open, price, quantity, now, book);
      } else if signal.action == Sell && held > 0.0 && SellQuantity(held, signal.strength) > 0.0 {
        SaleHasTwin(rules, signal, open, price, SellQuantity(held, signal.strength), now, book);
      }
    }
  }

  lemma BoughtAtAPrice(rules: Rules, signal: Signal, open: real, price: real, quantity: real, now: int, book: Book)
    requires Bought(rules, signal, open, price, quantity, now, book).Ok?
    ensures price > 0.0
  {
    hide Times, Over;
  }

  lemma SameTwin(rules: Rules, book: Book, after: Book)
    requires HasTwin(rules, book)
    ensures after.cash == book.cash && after.positions == book.positions && after.fills == book.fills ==>
      HasTwin(rules, after)
  {
    var trades :| Twins(rules, book, trades);
    if after.cash == book.cash && after.positions == book.positions && after.fills == book.fills {
      assert Twins(rules, after, trades);
    }
  }

  lemma StartHasTwin<S>(rules: Rules, strategy: Strategy<S>)
    requires Representable(rules.precision, rules.config.initialCash)
    ensures HasTwin(rules, Start(rules, strategy).book)
  {
    assert Twins(rules, Start(rules, strategy).book, []);
  }

  /** Parity: at every instant of every run, the trades behind the fills, given to a paper portfolio with the
      same starting cash, are all accepted and leave it with the same cash, and every instrument with the same
      quantity, average cost and realized profit, at either precision. */
  lemma PaperParity<S>(rules: Rules, strategy: Strategy<S>, history: History, timeline: seq<int>)
    returns (trades: seq<Trade>)
    requires Representable(rules.precision, rules.config.initialCash)
    requires RunThrough(rules, strategy, history, timeline).Ok?
    ensures Twins(rules, RunThrough(rules, strategy, history, timeline).value.book, trades)
  {
    hide FillOrder, Twins, RunThrough;
    StartHasTwin(rules, strategy);
    var inv := (b: Book) => HasTwin(rules, b);
    forall order, t, b | inv(b) && FillOrder(rules, order, history, t, b).Ok?
      ensures inv(FillOrder(rules, order, history, t, b).value)
    {
      OrderKeepsTwin(rules, order, history, t, b);
    }
    RunKeeps(rules, strategy, history, timeline, inv);
    trades :| Twins(rules, RunThrough(rules, strategy, history, timeline).value.book, trades);
  }
}
