/** How far six-decimal rounding can move the money of a backtest. Fills are of any quantity, on the grid or
    not, so the bound of one fill depends on the size and the cost of the position it touches. */
module BacktestDrift {
  import opened Wrappers
  import opened Rounding
  import opened Accounting
  import opened Conservation
  import opened MarketData
  import opened Backtest
  import opened BacktestLots
  import opened BacktestMoney

  // ----- along a run -----

  ghost function OrderRoom(rules: Rules, order: Order, before: Book, after: Book): real {
    if after.fills == before.fills then 0.0
    else Room(rules.precision, Held(before.positions, order.signal.ticker), Held(after.positions, order.signal.ticker))
  }

  ghost function FillAllRoom(rules: Rules, orders: seq<Order>, history: History, now: int, book: Book): real {
    if orders == [] || FillAll(rules, orders, history, now, book).Err? then 0.0
    else
      var front, last := orders[..|orders| - 1], orders[|orders| - 1];
      var before, after := FillAll(rules, front, history, now, book), FillAll(rules, orders, history, now, book);
      FillAllRoom(rules, front, history, now, book) + OrderRoom(rules, last, before.value, after.value)
  }

  /** The room of every fill of a run, added up. */
  ghost function RunRoom<S>(rules: Rules, strategy: Strategy<S>, history: History, timeline: seq<int>): real {
    if timeline == [] || RunThrough(rules, strategy, history, timeline).Err? then 0.0
    else
      var front, now := timeline[..|timeline| - 1], timeline[|timeline| - 1];
      var before := RunThrough(rules, strategy, history, front).value;
      RunRoom(rules, strategy, history, front) + FillAllRoom(rules, before.pending, history, now, before.book)
  }

  lemma BoughtDrifts(rules: Rules, signal: Signal, open: real, price: real, quantity: real, now: int, book: Book)
    requires Bought(rules, signal, open, price, quantity, now, book).Ok?
    ensures var after := Bought(rules, signal, open, price, quantity, now, book).value;
      && after.fills != book.fills
      && Abs(NetWorth(after) - NetWorth(book)) <=
           Room(rules.precision, Held(book.positions, signal.ticker), Held(after.positions, signal.ticker))
  {
    hide Times, Over, NetWorth, Carried, Room, ApplyBuy;
    var after := Bought(rules, signal, open, price, quantity, now, book).value;
    var commission := rules.config.CommissionOn(Times(quantity, price));
    BuyDrifts(rules.precision, Held(book.positions, signal.ticker), quantity, price, commission);
    NetWorthChange(book, after, signal.ticker, after.positions[signal.ticker]);
    assert |after.fills| == |book.fills| + 1;
  }

  lemma SoldDrifts(rules: Rules, signal: Signal, open: real, price: real, quantity: real, now: int, book: Book)
    requires Sold(rules, signal, open, price, quantity, now, book).Ok? && quantity > 0.0
    requires Stored(rules.precision, Held(book.positions, signal.ticker))
    ensures var after := Sold(rules, signal, open, price, quantity, now, book).value;
      && after.fills != book.fills
      && Abs(NetWorth(after) - NetWorth(book)) <=
           Room(rules.precision, Held(book.positions, signal.ticker), Held(after.positions, signal.ticker))
  {
    hide Times, Over, NetWorth, Carried, Room, ApplySell, CloseLot;
    var after := Sold(rules, signal, open, price, quantity, now, book).value;
    var commission := rules.config.CommissionOn(Times(quantity, price));
    SellDrifts(rules.precision, Held(book.positions, signal.ticker), quantity, price, commission);
    NetWorthChange(book, after, signal.ticker, after.positions[signal.ticker]);
    assert |after.fills| == |book.fills| + 1;
  }

  lemma OrderDrifts(rules: Rules, order: Order, history: History, now: int, book: Book)
    requires LotsMirror(rules, book) && FillOrder(rules, order, history, now, book).Ok?
    ensures var after := FillOrder(rules, order, history, now, book).value;
      Abs(NetWorth(after) - NetWorth(book)) <= OrderRoom(rules, order, book, after)
  {
    hide Times, Over, Size, ApplyBuy, ApplySell, Bought, Sold, Room, NetWorth, LotsMirror;
    var signal := order.signal;
    var found := BarAt(history, signal.ticker, now);
    var held := Held(book.positions, signal.ticker).quantity;
    var after := FillOrder(rules, order, history, now, book).value;
    HeldIsStored(rules, book, signal.ticker);
    if found.Some? {
      var open, price := found.value.open, rules.config.SlippagePrice(found.value.open, signal.action);
      if signal.action == Buy && SizeBuy(rules, signal, price, book.cash, held).value.Sized? {
        var quantity := SizeBuy(rules, signal, price, book.cash, held).value.quantity;
        BoughtDrifts(rules, signal, open, price, quantity, now, book);
      } else if signal.action == Sell && held > 0.0 && SellQuantity(held, signal.strength) > 0.0 {
        SoldDrifts(rules, signal, open, price, SellQuantity(held, signal.strength), now, book);
      } else {
        SameNetWorth(book, after);
      }
    } else {
      SameNetWorth(book, after);
    }
  }

  lemma {:induction false} FillAllDrifts(rules: Rules, orders: seq<Order>, history: History, now: int, book: Book)
    requires LotsMirror(rules, book) && FillAll(rules, orders, history, now, book).Ok?
    ensures LotsMirror(rules, FillAll(rules, orders, history, now, book).value)
    ensures Abs(NetWorth(FillAll(rules, orders, history, now, book).value) - NetWorth(book))
            <= FillAllRoom(rules, orders, history, now, book)
  {
    hide FillOrder, NetWorth, LotsMirror, OrderRoom;
    if orders != [] {
      var front, last := orders[..|orders| - 1], orders[|orders| - 1];
      FillAllDrifts(rules, front, history, now, book);
      var before := FillAll(rules, front, history, now, book).value;
      OrderDrifts(rules, last, history, now, before);
      OrderKeepsMirror(rules, last, history, now, before);
    }
  }

  lemma StartWorth<S>(rules: Rules, strategy: Strategy<S>)
    ensures NetWorth(Start(rules, strategy).book) == rules.config.initialCash
  {
  }

  lemma {:induction false} ExactHasNoRoom(rules: Rules, orders: seq<Order>, history: History, now: int, book: Book)
    ensures rules.precision.Exact? ==> FillAllRoom(rules, orders, history, now, book) == 0.0
  {
    hide FillAll;
    if orders != [] {
      ExactHasNoRoom(rules, orders[..|orders| - 1], history, now, book);
    }
  }

  lemma StepDrifts<S>(rules: Rules, strategy: Strategy<S>, history: History, now: int, st: State<S>)
    requires LotsMirror(rules, st.book) && Step(rules, strategy, history, now, st).Ok?
    ensures Abs(NetWorth(Step(rules, strategy, history, now, st).value.book) - NetWorth(st.book))
            <= FillAllRoom(rules, st.pending, history, now, st.book)
  {
    hide FillAll, NetWorth, LotsMirror, FillAllRoom, Queue, Point, ViewAt;
    FillAllDrifts(rules, st.pending, history, now, st.book);
  }

  /** Rounded money stays explained: at every instant of every run, cash plus positions at cost less
      realized profit is within the added-up rounding room of the fills of the starting cash -- half a
      millionth for every unit held and every unit of cost a fill touches, and nothing between fills. */
  lemma {:induction false} DriftStaysInRoom<S>(
    rules: Rules, strategy: Strategy<S>, history: History, timeline: seq<int>)
    requires RunThrough(rules, strategy, history, timeline).Ok?
    ensures Abs(NetWorth(RunThrough(rules, strategy, history, timeline).value.book) - rules.config.initialCash)
            <= RunRoom(rules, strategy, history, timeline)
  {
    hide Step, LotsMirror, FillAllRoom, NetWorth;
    if timeline == [] {
      StartWorth(rules, strategy);
    } else {
      var front := timeline[..|timeline| - 1];
      DriftStaysInRoom(rules, strategy, history, front);
      LotsAlwaysMirror(rules, strategy, history, front);
      StepDrifts(rules, strategy, history, timeline[|timeline| - 1], RunThrough(rules, strategy, history, front).value);
    }
  }

  /** In exact arithmetic there is no room at all, and the law is conservation. */
  lemma {:induction false} ExactRunHasNoRoom<S>(
    rules: Rules, strategy: Strategy<S>, history: History, timeline: seq<int>)
    requires rules.precision.Exact?
    ensures RunRoom(rules, strategy, history, timeline) == 0.0
  {
    hide RunThrough, FillAllRoom;
    if timeline != [] && RunThrough(rules, strategy, history, timeline).Ok? {
      var front, now := timeline[..|timeline| - 1], timeline[|timeline| - 1];
      EarlierRunsToo(rules, strategy, history, timeline);
      ExactRunHasNoRoom(rules, strategy, history, front);
      var before := RunThrough(rules, strategy, history, front).value;
      ExactHasNoRoom(rules, before.pending, history, now, before.book);
    }
  }
}
