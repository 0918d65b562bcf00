/** Conservation over whole runs, in the exact arithmetic that the six-decimal accounting approximates:
    no money appears or disappears, and the fill records account for every movement of cash. */
module BacktestMoney {
  import opened Wrappers
  import opened Rounding
  import opened Accounting
  import opened Conservation
  import opened Ordering
  import opened MarketData
  import opened Backtest
  import opened BacktestCash
  import opened BacktestLots

  function StatesOf(positions: map<Ticker, PositionState>): int -> PositionState {
    t => Held(positions, t)
  }

  /** Cash plus what the positions are carried at, less the profit already realized. */
  ghost function NetWorth(book: Book): real {
    book.cash + SumOver(book.positions.Keys, CarriedBy(StatesOf(book.positions)))
  }

  /** The cash a fill record says changed hands. */
  function FillCash(fill: Fill): real {
    match fill.action
    case Buy => -(Times(fill.quantity, fill.price) + fill.commission)
    case Sell => Times(fill.quantity, fill.price) - fill.commission
    case Hold => 0.0
  }

  function FillsCash(fills: seq<Fill>): real {
    if fills == [] then 0.0 else FillsCash(fills[..|fills| - 1]) + FillCash(fills[|fills| - 1])
  }

  lemma FillsCashSnoc(fills: seq<Fill>, fill: Fill)
    ensures FillsCash(fills + [fill]) == FillsCash(fills) + FillCash(fill)
  {
    assert (fills + [fill])[..|fills|] == fills;
  }

  ghost predicate Accounted(initial: real, book: Book) {
    NetWorth(book) == initial && book.cash == initial + FillsCash(book.fills)
  }

  lemma NetWorthChange(before: Book, after: Book, ticker: Ticker, state: PositionState)
    requires after.positions == before.positions[ticker := state]
    ensures NetWorth(after) - after.cash ==
            NetWorth(before) - before.cash - Carried(Held(before.positions, ticker)) + Carried(state)
  {
    hide Carried, SumOver;
    assert after.positions.Keys == before.positions.Keys + {ticker};
    CarriedChange(before.positions.Keys, StatesOf(before.positions), StatesOf(after.positions), ticker);
  }

  lemma BoughtAccounted(
    rules: Rules, signal: Signal, open: real, price: real, quantity: real, now: int, initial: real, book: Book)
    requires rules.precision.Exact? && Accounted(initial, book)
    requires Bought(rules, signal, open, price, quantity, now, book).Ok?
    ensures Accounted(initial, Bought(rules, signal, open, price, quantity, now, book).value)
  {
    hide Times, Over, FillsCash, NetWorth, Carried;
    var held := Held(book.positions, signal.ticker);
    var after := Bought(rules, signal, open, price, quantity, now, book).value;
    var commission := rules.config.CommissionOn(Times(quantity, price));
    BuyConserves(Exact, held, quantity, price, commission);
    TimesDistributes(held.quantity + quantity + 1.0, 0.0, 0.0);
    NetWorthChange(book, after, signal.ticker, after.positions[signal.ticker]);
    FillsCashSnoc(book.fills, after.fills[|book.fills|]);
  }

  lemma SoldAccounted(
    rules: Rules, signal: Signal, open: real, price: real, quantity: real, now: int, initial: real, book: Book)
    requires rules.precision.Exact? && Accounted(initial, book) && quantity > 0.0
    requires Sold(rules, signal, open, price, quantity, now, book).Ok?
    ensures Accounted(initial, Sold(rules, signal, open, price, quantity, now, book).value)
  {
    hide Times, Over, FillsCash, NetWorth, Carried, CloseLot;
    var held := Held(book.positions, signal.ticker);
    var after := Sold(rules, signal, open, price, quantity, now, book).value;
    SellConserves(Exact, held, quantity, price, rules.config.CommissionOn(Times(quantity, price)));
    NetWorthChange(book, after, signal.ticker, after.positions[signal.ticker]);
    FillsCashSnoc(book.fills, after.fills[|book.fills|]);
  }

  lemma OrderKeepsAccounts(rules: Rules, order: Order, history: History, now: int, initial: real, book: Book)
    requires rules.precision.Exact? && Accounted(initial, book)
    requires FillOrder(rules, order, history, now, book).Ok?
    ensures Accounted(initial, FillOrder(rules, order, history, now, book).value)
  {
    hide Times, Over, Size, ApplyBuy, ApplySell, FillsCash, Bought, Sold;
    var signal := order.signal;
    var found := BarAt(history, signal.ticker, now);
    var held := Held(book.positions, signal.ticker).quantity;
    if found.Some? {
      var open, price := found.value.open, rules.config.SlippagePrice(found.value.open, signal.action);
      if signal.action == Buy && SizeBuy(rules, signal, price, book.cash, held).value.Sized? {
        var quantity := SizeBuy(rules, signal, price, book.cash, held).value.quantity;
        BoughtAccounted(rules, signal, open, price, quantity, now, initial, book);
      } else if signal.action == Sell && held > 0.0 && SellQuantity(held, signal.strength) > 0.0 {
        SoldAccounted(rules, signal, open, price, SellQuantity(held, signal.strength), now, initial, book);
      } else {
        SameNetWorth(book, FillOrder(rules, order, history, now, book).value);
      }
    } else {
      SameNetWorth(book, FillOrder(rules, order, history, now, book).value);
    }
  }

  lemma SameNetWorth(book: Book, after: Book)
    requires after.positions == book.positions && after.cash == book.cash
    ensures NetWorth(after) == NetWorth(book)
  {
    SumAgree(book.positions.Keys, CarriedBy(StatesOf(book.positions)), CarriedBy(StatesOf(after.positions)));
  }

  /** In exact arithmetic a run conserves money: cash and carried positions less realized profit equal
      the starting cash at every instant, and the fills explain the whole change in cash. */
  lemma MoneyIsConserved<S>(rules: Rules, strategy: Strategy<S>, history: History, timeline: seq<int>)
    requires rules.precision.Exact? && RunThrough(rules, strategy, history, timeline).Ok?
    ensures Accounted(rules.config.initialCash, RunThrough(rules, strategy, history, timeline).value.book)
  {
    var initial := rules.config.initialCash;
    var inv := (b: Book) => Accounted(initial, b);
    forall order, t, b | inv(b) && FillOrder(rules, order, history, t, b).Ok?
      ensures inv(FillOrder(rules, order, history, t, b).value)
    {
      OrderKeepsAccounts(rules, order, history, t, initial, b);
    }
    RunKeeps(rules, strategy, history, timeline, inv);
  }

  /** What a position would gain if closed at its mark. */
  ghost function Unrealized(positions: map<Ticker, PositionState>, view: MarketView): int -> real {
    t => MarkedValue(positions, view, t) - Times(Held(positions, t).quantity, Held(positions, t).averageCost)
  }

  lemma {:induction false} SumSplits(keys: set<int>, positions: map<Ticker, PositionState>, view: MarketView)
    ensures SumOver(keys, Marks(positions, view)) ==
            SumOver(keys, Unrealized(positions, view)) + SumOver(keys, CarriedBy(StatesOf(positions)))
              + SumOver(keys, Realized(positions))
  {
    hide Times;
    if keys != {} {
      SumSplits(keys - {Least(keys)}, positions, view);
    }
  }

  /** Equity is explained: at every instant the reported equity is the starting cash plus realized
      profit plus unrealized profit. */
  lemma EquityIsExplained<S>(rules: Rules, strategy: Strategy<S>, history: History, timeline: seq<int>)
    requires rules.precision.Exact? && timeline != []
    requires RunThrough(rules, strategy, history, timeline).Ok?
    ensures var st := RunThrough(rules, strategy, history, timeline).value;
      var view := ViewAt(history, timeline[|timeline| - 1]);
      var point := st.curve[|st.curve| - 1];
      && point.timestamp == timeline[|timeline| - 1]
      && point.equity == point.cash + point.positionsValue
      && point.equity == rules.config.initialCash + FillPnl(st.book.fills)
                         + SumOver(st.book.positions.Keys, Unrealized(st.book.positions, view))
  {
    hide Times, Over;
    MoneyIsConserved(rules, strategy, history, timeline);
    ProfitsAlwaysAgree(rules, strategy, history, timeline);
    var st := RunThrough(rules, strategy, history, timeline).value;
    SumSplits(st.book.positions.Keys, st.book.positions, ViewAt(history, timeline[|timeline| - 1]));
  }
}
