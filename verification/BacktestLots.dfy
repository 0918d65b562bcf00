/** The engine keeps three accounts of the same trades -- positions, open lots, and fill records.
    They agree after every order, and together they account for all the money. */
module BacktestLots {
  import opened Wrappers
  import opened Rounding
  import opened Accounting
  import opened Ordering
  import opened MarketData
  import opened Backtest
  import opened BacktestCash

  // ----- lots mirror positions -----

  ghost predicate LotMirrors(lot: Lot, state: PositionState) {
    lot.quantity == state.quantity && lot.entryPrice == state.averageCost
  }

  /** Every lot describes its ticker's position, and every open position has its lot. */
  ghost predicate LotsMirror(rules: Rules, book: Book) {
    && (forall t | t in book.positions :: Stored(rules.precision, book.positions[t]))
    && (forall t | t in book.lots :: t in book.positions && LotMirrors(book.lots[t], book.positions[t]))
    && (forall t | t in book.positions :: book.positions[t].quantity > 0.0 ==> t in book.lots)
  }

  lemma HeldIsStored(rules: Rules, book: Book, ticker: Ticker)
    requires LotsMirror(rules, book)
    ensures Stored(rules.precision, Held(book.positions, ticker))
  {
    ZeroOnGrid(rules.precision);
  }

  lemma BoughtMirrors(rules: Rules, signal: Signal, open: real, price: real, quantity: real, now: int, book: Book)
    requires LotsMirror(rules, book) && Bought(rules, signal, open, price, quantity, now, book).Ok?
    ensures LotsMirror(rules, Bought(rules, signal, open, price, quantity, now, book).value)
  {
    hide Times, Over, ApplyBuy, Stored;
    HeldIsStored(rules, book, signal.ticker);
    var commission := rules.config.CommissionOn(Times(quantity, price));
    EffectsAreStored(rules.precision, Held(book.positions, signal.ticker), quantity, price, commission);
  }

  lemma SoldMirrors(rules: Rules, signal: Signal, open: real, price: real, quantity: real, now: int, book: Book)
    requires LotsMirror(rules, book) && quantity > 0.0
    requires Sold(rules, signal, open, price, quantity, now, book).Ok?
    ensures LotsMirror(rules, Sold(rules, signal, open, price, quantity, now, book).value)
  {
    hide Times, Over, Stored;
    var held := Held(book.positions, signal.ticker);
    HeldIsStored(rules, book, signal.ticker);
    var commission := rules.config.CommissionOn(Times(quantity, price));
    EffectsAreStored(rules.precision, held, quantity, price, commission);
    SoldStateKeepsCost(rules.precision, held, quantity, price, commission);
  }

  lemma SoldStateKeepsCost(p: Precision, s: PositionState, quantity: real, price: real, fees: real)
    requires Stored(p, s) && ApplySell(p, s, quantity, price, fees).Ok?
    ensures var e := ApplySell(p, s, quantity, price, fees).value;
      e.state.quantity > 0.0 ==> e.state.averageCost == s.averageCost
  {
    hide Times;
    RoundFixesGrid(p, s.averageCost);
    ZeroOnGrid(p);
    RoundFixesGrid(p, 0.0);
  }

  lemma OrderKeepsMirror(rules: Rules, order: Order, history: History, now: int, book: Book)
    requires LotsMirror(rules, book) && FillOrder(rules, order, history, now, book).Ok?
    ensures LotsMirror(rules, FillOrder(rules, order, history, now, book).value)
  {
    hide Times, Over, Size, LotsMirror, ApplyBuy, ApplySell;
    var signal := order.signal;
    var found := BarAt(history, signal.ticker, now);
    var held := Held(book.positions, signal.ticker).quantity;
    if found.Some? {
      var open, price := found.value.open, rules.config.SlippagePrice(found.value.open, signal.action);
      if signal.action == Buy && SizeBuy(rules, signal, price, book.cash, held).value.Sized? {
        var quantity := SizeBuy(rules, signal, price, book.cash, held).value.quantity;
        BoughtMirrors(rules, signal, open, price, quantity, now, book);
      } else if signal.action == Sell && held > 0.0 && SellQuantity(held, signal.strength) > 0.0 {
        SoldMirrors(rules, signal, open, price, SellQuantity(held, signal.strength), now, book);
      } else {
        SamePositions(rules, book, FillOrder(rules, order, history, now, book).value);
      }
    } else {
      SamePositions(rules, book, FillOrder(rules, order, history, now, book).value);
    }
  }

  lemma SamePositions(rules: Rules, book: Book, after: Book)
    requires LotsMirror(rules, book) && after.positions == book.positions && after.lots == book.lots
    ensures LotsMirror(rules, after)
  {
  }

  /** Throughout every run lots mirror positions. */
  lemma LotsAlwaysMirror<S>(rules: Rules, strategy: Strategy<S>, history: History, timeline: seq<int>)
    requires RunThrough(rules, strategy, history, timeline).Ok?
    ensures LotsMirror(rules, RunThrough(rules, strategy, history, timeline).value.book)
  {
    var inv := (b: Book) => LotsMirror(rules, b);
    forall order, t, b | inv(b) && FillOrder(rules, order, history, t, b).Ok?
      ensures inv(FillOrder(rules, order, history, t, b).value)
    {
      OrderKeepsMirror(rules, order, history, t, b);
    }
    RunKeeps(rules, strategy, history, timeline, inv);
  }

  /** A buy leaves a lot of positive size exactly when the new holding does not round away: always in
      exact arithmetic, and above half a millionth of a unit in the code. Only then can a lot stand
      without an open position. */
  lemma LotIsOpenUnlessDust(rules: Rules, signal: Signal, open: real, price: real, quantity: real, now: int, book: Book)
    requires Bought(rules, signal, open, price, quantity, now, book).Ok?
    ensures var after := Bought(rules, signal, open, price, quantity, now, book).value;
      && signal.ticker in after.lots && signal.ticker in after.positions
      && (after.lots[signal.ticker].quantity > 0.0 <==> after.positions[signal.ticker].quantity > 0.0)
      && (after.lots[signal.ticker].quantity > 0.0 <==>
          Held(book.positions, signal.ticker).quantity + quantity > Slack(rules.precision))
  {
    hide Times, Over;
    DustRoundsAway(Held(book.positions, signal.ticker).quantity + quantity);
  }

  // ----- exact arithmetic has no dust -----

  /** In exact arithmetic no lot is empty. */
  ghost predicate NoEmptyLots(rules: Rules, book: Book) {
    rules.precision.Exact? ==> forall t | t in book.lots :: book.lots[t].quantity > 0.0
  }

  lemma OrderKeepsLotsFull(rules: Rules, order: Order, history: History, now: int, book: Book)
    requires NoEmptyLots(rules, book) && FillOrder(rules, order, history, now, book).Ok?
    ensures NoEmptyLots(rules, FillOrder(rules, order, history, now, book).value)
  {
    hide Times, Over, Size;
  }

  /** At every instant of every run in exact arithmetic a ticker has a lot if and only if its position is
      open; the engine's own arithmetic keeps one direction, and the other up to dust. */
  lemma LotsAreOpenPositions<S>(
    rules: Rules, strategy: Strategy<S>, history: History, timeline: seq<int>, ticker: Ticker)
    requires RunThrough(rules, strategy, history, timeline).Ok?
    ensures var book := RunThrough(rules, strategy, history, timeline).value.book;
      && (Held(book.positions, ticker).quantity > 0.0 ==> ticker in book.lots)
      && (rules.precision.Exact? ==> (ticker in book.lots <==> Held(book.positions, ticker).quantity > 0.0))
  {
    LotsAlwaysMirror(rules, strategy, history, timeline);
    var inv := (b: Book) => NoEmptyLots(rules, b);
    forall order, t, b | inv(b) && FillOrder(rules, order, history, t, b).Ok?
      ensures inv(FillOrder(rules, order, history, t, b).value)
    {
      OrderKeepsLotsFull(rules, order, history, t, b);
    }
    RunKeeps(rules, strategy, history, timeline, inv);
  }

  // ----- realized profit, three ways -----

  function TradePnl(closed: seq<ClosedTrade>): real {
    if closed == [] then 0.0 else TradePnl(closed[..|closed| - 1]) + closed[|closed| - 1].pnl
  }

  function FillPnl(fills: seq<Fill>): real {
    if fills == [] then 0.0 else FillPnl(fills[..|fills| - 1]) + fills[|fills| - 1].realizedPnl
  }

  function Sales(fills: seq<Fill>): nat {
    if fills == [] then 0 else
      Sales(fills[..|fills| - 1]) + if fills[|fills| - 1].action == Sell then 1 else 0
  }

  ghost function Realized(positions: map<Ticker, PositionState>): int -> real {
    t => Held(positions, t).realizedPnl
  }

  ghost function PositionPnl(book: Book): real {
    SumOver(book.positions.Keys, Realized(book.positions))
  }

  /** Closed trades and fills report the same profit; the positions' own totals differ from it by at
      most one unit per sale, and not at all in exact arithmetic. */
  ghost predicate ProfitsAgree(rules: Rules, book: Book) {
    && TradePnl(book.closed) == FillPnl(book.fills)
    && Abs(PositionPnl(book) - FillPnl(book.fills)) <= 2.0 * Slack(rules.precision) * Sales(book.fills) as real
  }

  lemma PnlSnoc(fills: seq<Fill>, fill: Fill)
    ensures FillPnl(fills + [fill]) == FillPnl(fills) + fill.realizedPnl
    ensures Sales(fills + [fill]) == Sales(fills) + if fill.action == Sell then 1 else 0
  {
    assert (fills + [fill])[..|fills|] == fills;
  }

  lemma TradeSnoc(closed: seq<ClosedTrade>, trade: ClosedTrade)
    ensures TradePnl(closed + [trade]) == TradePnl(closed) + trade.pnl
  {
    assert (closed + [trade])[..|closed|] == closed;
  }

  /** Replacing one ticker's state changes the total by that ticker's change. */
  lemma PositionPnlChange(before: Book, after: Book, ticker: Ticker, state: PositionState)
    requires after.positions == before.positions[ticker := state]
    ensures PositionPnl(after) == PositionPnl(before) - Held(before.positions, ticker).realizedPnl + state.realizedPnl
  {
    assert after.positions.Keys == before.positions.Keys + {ticker};
    SumChange(before.positions.Keys, Realized(before.positions), Realized(after.positions), ticker);
  }

  lemma SoldReports(rules: Rules, signal: Signal, open: real, price: real, quantity: real, now: int, book: Book)
    requires LotsMirror(rules, book) && quantity > 0.0
    requires Sold(rules, signal, open, price, quantity, now, book).Ok?
    ensures var after := Sold(rules, signal, open, price, quantity, now, book).value;
      var state := Held(after.positions, signal.ticker);
      && |after.fills| == |book.fills| + 1 && after.fills == book.fills + [after.fills[|book.fills|]]
      && |after.closed| == |book.closed| + 1 && after.closed == book.closed + [after.closed[|book.closed|]]
      && after.fills[|book.fills|].action == Sell
      && after.closed[|book.closed|].pnl == after.fills[|book.fills|].realizedPnl
      && after.positions == book.positions[signal.ticker := state]
      && Abs(state.realizedPnl - (
           Held(book.positions, signal.ticker).realizedPnl + after.fills[|book.fills|].realizedPnl))
         <= 2.0 * Slack(rules.precision)
  {
    hide Times, Over, RoundQuantity;
    var p, held := rules.precision, Held(book.positions, signal.ticker);
    HeldIsStored(rules, book, signal.ticker);
    var realized := Times(quantity, price - held.averageCost) - rules.config.CommissionOn(Times(quantity, price));
    RoundShift(p, held.realizedPnl, realized);
    RoundNear(p, realized);
    RoundFixesGrid(p, Round(p, realized));
    assert held.quantity > 0.0;
  }

  lemma BoughtKeepsProfits(rules: Rules, signal: Signal, open: real, price: real, quantity: real, now: int, book: Book)
    requires ProfitsAgree(rules, book) && Bought(rules, signal, open, price, quantity, now, book).Ok?
    ensures ProfitsAgree(rules, Bought(rules, signal, open, price, quantity, now, book).value)
  {
    hide Times, Over, TradePnl, FillPnl, Sales, PositionPnl;
    var after := Bought(rules, signal, open, price, quantity, now, book).value;
    PositionPnlChange(book, after, signal.ticker, after.positions[signal.ticker]);
    PnlSnoc(book.fills, after.fills[|book.fills|]);
  }

  lemma SoldKeepsProfits(rules: Rules, signal: Signal, open: real, price: real, quantity: real, now: int, book: Book)
    requires LotsMirror(rules, book) && ProfitsAgree(rules, book) && quantity > 0.0
    requires Sold(rules, signal, open, price, quantity, now, book).Ok?
    ensures ProfitsAgree(rules, Sold(rules, signal, open, price, quantity, now, book).value)
  {
    hide Sold, LotsMirror, TradePnl, FillPnl, Sales, PositionPnl;
    var after := Sold(rules, signal, open, price, quantity, now, book).value;
    SoldReports(rules, signal, open, price, quantity, now, book);
    PositionPnlChange(book, after, signal.ticker, after.positions[signal.ticker]);
    PnlSnoc(book.fills, after.fills[|book.fills|]);
    TradeSnoc(book.closed, after.closed[|book.closed|]);
  }

  lemma OrderKeepsProfits(rules: Rules, order: Order, history: History, now: int, book: Book)
    requires LotsMirror(rules, book) && ProfitsAgree(rules, book)
    requires FillOrder(rules, order, history, now, book).Ok?
    ensures ProfitsAgree(rules, FillOrder(rules, order, history, now, book).value)
  {
    hide Times, Over, Size, LotsMirror, Bought, Sold, TradePnl, FillPnl, Sales, PositionPnl;
    var signal := order.signal;
    var found := BarAt(history, signal.ticker, now);
    var held := Held(book.positions, signal.ticker).quantity;
    SamePnl(book, FillOrder(rules, order, history, now, book).value);
    if found.Some? {
      var open, price := found.value.open, rules.config.SlippagePrice(found.value.open, signal.action);
      if signal.action == Buy && SizeBuy(rules, signal, price, book.cash, held).value.Sized? {
        var quantity := SizeBuy(rules, signal, price, book.cash, held).value.quantity;
        BoughtKeepsProfits(rules, signal, open, price, quantity, now, book);
      } else if signal.action == Sell && held > 0.0 && SellQuantity(held, signal.strength) > 0.0 {
        SoldKeepsProfits(rules, signal, open, price, SellQuantity(held, signal.strength), now, book);
      }
    }
  }

  lemma SamePnl(book: Book, after: Book)
    ensures after.positions == book.positions ==> PositionPnl(after) == PositionPnl(book)
  {
    if after.positions == book.positions {
      SumAgree(book.positions.Keys, Realized(book.positions), Realized(after.positions));
    }
  }

  lemma StartProfitsAgree<S>(rules: Rules, strategy: Strategy<S>)
    ensures LotsMirror(rules, Start(rules, strategy).book) && ProfitsAgree(rules, Start(rules, strategy).book)
  {
  }

  /** At every instant of every run the three records of realized profit agree. */
  lemma ProfitsAlwaysAgree<S>(rules: Rules, strategy: Strategy<S>, history: History, timeline: seq<int>)
    requires RunThrough(rules, strategy, history, timeline).Ok?
    ensures ProfitsAgree(rules, RunThrough(rules, strategy, history, timeline).value.book)
  {
    StartProfitsAgree(rules, strategy);
    hide LotsMirror, ProfitsAgree, FillOrder;
    var inv := (b: Book) => LotsMirror(rules, b) && ProfitsAgree(rules, b);
    forall order, t, b | inv(b) && FillOrder(rules, order, history, t, b).Ok?
      ensures inv(FillOrder(rules, order, history, t, b).value)
    {
      OrderKeepsMirror(rules, order, history, t, b);
      OrderKeepsProfits(rules, order, history, t, b);
    }
    RunKeeps(rules, strategy, history, timeline, inv);
  }
}
