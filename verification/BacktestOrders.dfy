/** What becomes of the orders a strategy queues, and where every fill comes from. */
module BacktestOrders {
  import opened Wrappers
  import opened Rounding
  import opened Accounting
  import opened Ordering
  import opened MarketData
  import opened Backtest
  import BacktestCash

  /** Which instrument, and which side of it. */
  datatype Intent = Intent(ticker: Ticker, action: Action)

  function IntentOf(order: Order): Intent {
    Intent(order.signal.ticker, order.signal.action)
  }

  function Filled(fills: seq<Fill>): multiset<Intent> {
    if fills == [] then multiset{} else
      var last := fills[|fills| - 1];
      Filled(fills[..|fills| - 1]) + multiset{Intent(last.ticker, last.action)}
  }

  function Refused(unfilled: seq<Unfilled>): multiset<Intent> {
    if unfilled == [] then multiset{} else
      var last := unfilled[|unfilled| - 1];
      Refused(unfilled[..|unfilled| - 1]) + multiset{Intent(last.ticker, last.action)}
  }

  function Wanted(orders: seq<Order>): multiset<Intent> {
    if orders == [] then multiset{} else
      Wanted(orders[..|orders| - 1]) + multiset{IntentOf(orders[|orders| - 1])}
  }

  /** What the sizer asks for cannot be afforded, and neither can any part of it. */
  predicate NothingAffordable(config: Config, wanted: real, price: real, cash: real) {
    var unitCost := Times(price, config.CostFactor());
    && wanted > 0.0 && Times(wanted, price) + config.CommissionOn(Times(wanted, price)) > cash
    && unitCost != 0.0 && (if unitCost > 0.0 then cash <= 0.0 else cash >= 0.0)
  }

  /** At a positive price and a commission that does not pay the buyer, that is to want something with no cash. */
  lemma NothingAffordableMeans(config: Config, wanted: real, price: real, cash: real)
    requires price > 0.0 && config.commissionBps > -10000.0
    ensures NothingAffordable(config, wanted, price, cash) <==> wanted > 0.0 && cash <= 0.0
  {
    hide Times;
    TimesSign(price, config.CostFactor());
    if wanted > 0.0 {
      TimesSign(wanted, price);
      TimesSign(Times(wanted, price), config.CostFactor());
      BacktestCash.CommissionIsAShare(config, Times(wanted, price));
    }
  }

  function WantedOf(rules: Rules, signal: Signal, price: real, book: Book): real {
    var estimate := Max(book.cash + Times(Held(book.positions, signal.ticker).quantity, price), book.cash);
    Size(rules.sizer, signal, price, estimate, book.cash)
  }

  /** The orders that leave no trace: selling none of an open position, and buying when a sizer asks for
      more than nothing although no cash buys anything. */
  predicate LeavesNoRecord(rules: Rules, order: Order, history: History, now: int, book: Book) {
    var signal := order.signal;
    var found := BarAt(history, signal.ticker, now);
    found.Some? &&
    match signal.action
    case Buy =>
      var price := rules.config.SlippagePrice(found.value.open, Buy);
      NothingAffordable(rules.config, WantedOf(rules, signal, price, book), price, book.cash)
    case Sell => Held(book.positions, signal.ticker).quantity > 0.0 && signal.strength <= 0.0
    case Hold => true
  }

  lemma DroppedExactly(rules: Rules, signal: Signal, price: real, book: Book)
    ensures SizeBuy(rules, signal, price, book.cash, Held(book.positions, signal.ticker).quantity) == Ok(Dropped)
            <==> NothingAffordable(rules.config, WantedOf(rules, signal, price, book), price, book.cash)
  {
    hide Times, Over, Size;
    var unitCost := Times(price, rules.config.CostFactor());
    if unitCost != 0.0 {
      SignOfOver(book.cash, unitCost);
    }
  }

  lemma SignOfOver(x: real, y: real)
    requires y != 0.0
    ensures Over(x, y) <= 0.0 <==> if y > 0.0 then x <= 0.0 else x >= 0.0
  {
  }

  /** Every order has exactly one outcome: one fill of its ticker and side, one unfilled record of its
      ticker and side, or -- exactly when `LeavesNoRecord` -- nothing at all. */
  lemma OneOutcome(rules: Rules, order: Order, history: History, now: int, book: Book)
    requires FillOrder(rules, order, history, now, book).Ok?
    ensures var after := FillOrder(rules, order, history, now, book).value;
      var lost := LeavesNoRecord(rules, order, history, now, book);
      && (lost ==> after == book)
      && (!lost ==> Filled(after.fills) + Refused(after.unfilled)
                    == Filled(book.fills) + Refused(book.unfilled) + multiset{IntentOf(order)})
      && |after.fills| + |after.unfilled| == |book.fills| + |book.unfilled| + if lost then 0 else 1
  {
    hide Filled, Refused;
    OneRecord(rules, order, history, now, book);
    var after := FillOrder(rules, order, history, now, book).value;
    if |after.fills| > |book.fills| {
      FilledSnoc(book.fills, after.fills[|book.fills|]);
    } else if |after.unfilled| > |book.unfilled| {
      RefusedSnoc(book.unfilled, after.unfilled[|book.unfilled|]);
    }
  }

  /** The same, on the sequences of records themselves. */
  lemma OneRecord(rules: Rules, order: Order, history: History, now: int, book: Book)
    requires FillOrder(rules, order, history, now, book).Ok?
    ensures var after := FillOrder(rules, order, history, now, book).value;
      var intent := IntentOf(order);
      if LeavesNoRecord(rules, order, history, now, book) then after == book
      else
        || (after.unfilled == book.unfilled && |after.fills| == |book.fills| + 1
            && after.fills == book.fills + [after.fills[|book.fills|]]
            && Intent(after.fills[|book.fills|].ticker, after.fills[|book.fills|].action) == intent)
        || (after.fills == book.fills && |after.unfilled| == |book.unfilled| + 1
            && after.unfilled == book.unfilled + [after.unfilled[|book.unfilled|]]
            && Intent(after.unfilled[|book.unfilled|].ticker, after.unfilled[|book.unfilled|].action) == intent)
  {
    hide Times, Over, Size, RoundQuantity, NothingAffordable, WantedOf;
    var held := Held(book.positions, order.signal.ticker).quantity;
    var found := BarAt(history, order.signal.ticker, now);
    if found.Some? && order.signal.action == Buy {
      DroppedExactly(rules, order.signal, rules.config.SlippagePrice(found.value.open, Buy), book);
    }
    if order.signal.action == Sell && held > 0.0 {
      SellsSomething(held, order.signal.strength);
    }
  }

  lemma SellsSomething(held: real, strength: real)
    requires held > 0.0
    ensures SellQuantity(held, strength) > 0.0 <==> strength > 0.0
    ensures SellQuantity(held, strength) <= held
    ensures strength >= 1.0 ==> SellQuantity(held, strength) == held
  {
    var share := Max(0.0, Min(1.0, strength));
    TimesSign(held, share);
    TimesDistributes(held, 0.0, 0.0);
    TimesDistributes(held, 1.0, share);
    TimesSign(held, 1.0 - share);
    assert Times(held, 1.0) == held;
  }

  /** The shipped sizers never ask for more than nothing when there is no cash or no price. */
  lemma ShippedSizersNeedCash(sizer: Sizer, signal: Signal, price: real, equity: real, cash: real)
    requires sizer.Shipped() && Size(sizer, signal, price, equity, cash) > 0.0
    ensures price > 0.0 && cash > 0.0
    ensures Size(sizer, signal, price, equity, cash) <= Over(cash, price)
  {
    if price > 0.0 {
      OverSign(cash, price);
      if sizer.FixedFraction? {
        var budget := Min(Times(Times(equity, sizer.fraction), signal.strength), cash);
        OverSign(budget, price);
        OverMonotone(budget, cash, price);
      }
    }
  }

  lemma OverMonotone(x: real, y: real, z: real)
    requires x <= y && z > 0.0
    ensures Over(x, z) <= Over(y, z)
  {
  }

  /** With a shipped sizer and positive strength nothing is lost. */
  lemma ShippedOrdersLeaveRecords(rules: Rules, order: Order, history: History, now: int, book: Book)
    requires rules.sizer.Shipped() && rules.config.commissionBps > -10000.0
    requires order.signal.action != Hold && order.signal.strength > 0.0
    ensures !LeavesNoRecord(rules, order, history, now, book)
  {
    hide Times, Over, Size;
    var signal := order.signal;
    var found := BarAt(history, signal.ticker, now);
    if found.Some? && signal.action == Buy {
      var price := rules.config.SlippagePrice(found.value.open, Buy);
      var estimate := Max(book.cash + Times(Held(book.positions, signal.ticker).quantity, price), book.cash);
      if WantedOf(rules, signal, price, book) > 0.0 {
        ShippedSizersNeedCash(rules.sizer, signal, price, estimate, book.cash);
        NothingAffordableMeans(rules.config, WantedOf(rules, signal, price, book), price, book.cash);
      }
    }
  }

  /** All non-HOLD signals of a run, in the order the strategy gave them. */
  ghost function Emitted<S>(rules: Rules, strategy: Strategy<S>, history: History, timeline: seq<int>): seq<Order> {
    if timeline == [] then [] else
      var front, now := timeline[..|timeline| - 1], timeline[|timeline| - 1];
      var before := RunThrough(rules, strategy, history, front);
      if before.Err? then [] else
        Emitted(rules, strategy, history, front)
        + Queue(strategy.onBar(before.value.strategy, ViewAt(history, now)).1, now)
  }

  ghost predicate PositiveStrength(orders: seq<Order>) {
    forall i | 0 <= i < |orders| :: orders[i].signal.strength > 0.0
  }

  lemma FilledSnoc(fills: seq<Fill>, fill: Fill)
    ensures Filled(fills + [fill]) == Filled(fills) + multiset{Intent(fill.ticker, fill.action)}
  {
    assert (fills + [fill])[..|fills|] == fills;
  }

  lemma RefusedSnoc(unfilled: seq<Unfilled>, record: Unfilled)
    ensures Refused(unfilled + [record]) == Refused(unfilled) + multiset{Intent(record.ticker, record.action)}
  {
    assert (unfilled + [record])[..|unfilled|] == unfilled;
  }

  lemma WantedSnoc(orders: seq<Order>, order: Order)
    ensures Wanted(orders + [order]) == Wanted(orders) + multiset{IntentOf(order)}
  {
    assert (orders + [order])[..|orders|] == orders;
  }

  lemma WantedAppendStep(a: seq<Order>, front: seq<Order>, last: Order, b: seq<Order>)
    requires b == front + [last] && Wanted(a + front) == Wanted(a) + Wanted(front)
    ensures Wanted(a + b) == Wanted(a) + Wanted(b)
  {
    hide Wanted;
    assert a + b == (a + front) + [last];
    WantedSnoc(a + front, last);
    WantedSnoc(front, last);
  }

  lemma {:induction false} WantedAppends(a: seq<Order>, b: seq<Order>)
    ensures Wanted(a + b) == Wanted(a) + Wanted(b)
    decreases |b|
  {
    if |b| == 0 {
      assert a + b == a && b == [];
    } else {
      var front, last := SplitLast(b);
      WantedAppends(a, front);
      WantedAppendStep(a, front, last, b);
    }
  }

  /** What is queued is every signal but the holds, in the order given, stamped now. */
  lemma {:induction false} QueueKeepsOrder(signals: seq<Signal>, now: int)
    ensures var wanted := Filter(signals, (signal: Signal) => signal.action != Hold);
      && |Queue(signals, now)| == |wanted|
      && forall i | 0 <= i < |wanted| :: Queue(signals, now)[i] == Order(wanted[i], now)
    decreases |signals|
  {
    if signals != [] {
      var front, last := signals[..|signals| - 1], signals[|signals| - 1];
      QueueKeepsOrder(front, now);
      FilterAppend(front, [last], (signal: Signal) => signal.action != Hold);
      assert signals == front + [last] && [last][1..] == [];
    }
  }

  lemma {:induction false} QueueHasNoHolds(signals: seq<Signal>, now: int)
    ensures forall i | 0 <= i < |Queue(signals, now)| ::
              Queue(signals, now)[i].signal.action != Hold && Queue(signals, now)[i].queuedAt == now
              && Queue(signals, now)[i].signal in signals
  {
    if signals != [] {
      QueueHasNoHolds(signals[..|signals| - 1], now);
    }
  }

  /** The orders of one instant that leave no record. */
  function LostOf(rules: Rules, orders: seq<Order>, history: History, now: int, book: Book): multiset<Intent> {
    if orders == [] || FillAll(rules, orders[..|orders| - 1], history, now, book).Err? then multiset{}
    else
      var front, last := orders[..|orders| - 1], orders[|orders| - 1];
      LostOf(rules, front, history, now, book)
      + if LeavesNoRecord(rules, last, history, now, FillAll(rules, front, history, now, book).value)
        then multiset{IntentOf(last)} else multiset{}
  }

  ghost function LostSoFar<S>(
    rules: Rules, strategy: Strategy<S>, history: History, timeline: seq<int>)
    : multiset<Intent>
  {
    if timeline == [] then multiset{} else
      var front, now := timeline[..|timeline| - 1], timeline[|timeline| - 1];
      var before := RunThrough(rules, strategy, history, front);
      if before.Err? then multiset{}
      else
        LostSoFar(rules, strategy, history, front)
        + LostOf(rules, before.value.pending, history, now, before.value.book)
  }

  lemma {:induction false} AllOrdersAccounted(rules: Rules, orders: seq<Order>, history: History, now: int, book: Book)
    requires FillAll(rules, orders, history, now, book).Ok?
    ensures var after, lost := FillAll(rules, orders, history, now, book).value,
      LostOf(rules, orders, history, now, book);
      && Filled(after.fills) + Refused(after.unfilled) + lost ==
           Filled(book.fills) + Refused(book.unfilled) + Wanted(orders)
      && |after.fills| + |after.unfilled| + |lost| == |book.fills| + |book.unfilled| + |orders|
  {
    hide FillOrder, Filled, Refused, LeavesNoRecord;
    if orders != [] {
      var front, last := orders[..|orders| - 1], orders[|orders| - 1];
      AllOrdersAccounted(rules, front, history, now, book);
      var before := FillAll(rules, front, history, now, book).value;
      OneOutcome(rules, last, history, now, before);
      OneMore(Filled(before.fills) + Refused(before.unfilled), LostOf(rules, front, history, now, book),
              Filled(book.fills) + Refused(book.unfilled), Wanted(front), multiset{IntentOf(last)});
    }
  }

  lemma OneMore(
    kept: multiset<Intent>, lost: multiset<Intent>, base: multiset<Intent>, wanted: multiset<Intent>,
    one: multiset<Intent>)
    requires kept + lost == base + wanted
    ensures (kept + one) + lost == base + (wanted + one) && kept + (lost + one) == base + (wanted + one)
  {
    assert (kept + one) + lost == (kept + lost) + one;
    assert kept + (lost + one) == (kept + lost) + one;
    assert base + (wanted + one) == (base + wanted) + one;
  }

  /** At every instant, for every sizer and every strength, the signals given so far are the fills, the
      unfilled records, the queue, and the orders that were lost: buys of something with no cash, and sales
      of no part of an open position. */
  lemma {:induction false} SignalsAreAccounted<S>(
    rules: Rules, strategy: Strategy<S>, history: History, timeline: seq<int>)
    requires RunThrough(rules, strategy, history, timeline).Ok?
    ensures var st := RunThrough(rules, strategy, history, timeline).value;
      var emitted, lost := Emitted(rules, strategy, history, timeline), LostSoFar(rules, strategy, history, timeline);
      && Filled(st.book.fills) + Refused(st.book.unfilled) + Wanted(st.pending) + lost == Wanted(emitted)
      && |st.book.fills| + |st.book.unfilled| + |st.pending| + |lost| == |emitted|
  {
    hide FillAll, Filled, Refused, Wanted, LostOf, Queue;
    if timeline == [] {
      NothingYet();
    } else {
      var front, now := timeline[..|timeline| - 1], timeline[|timeline| - 1];
      var before := RunThrough(rules, strategy, history, front).value;
      var queued := Queue(strategy.onBar(before.strategy, ViewAt(history, now)).1, now);
      assert Emitted(rules, strategy, history, timeline) == Emitted(rules, strategy, history, front) + queued;
      SignalsAreAccounted(rules, strategy, history, front);
      AllOrdersAccounted(rules, before.pending, history, now, before.book);
      WantedAppends(Emitted(rules, strategy, history, front), queued);
    }
  }

  lemma NothingYet()
    ensures Filled([]) == Refused([]) == Wanted([]) == multiset{}
  {
  }

  lemma {:induction false} NothingLostOf(rules: Rules, orders: seq<Order>, history: History, now: int, book: Book)
    requires rules.sizer.Shipped() && rules.config.commissionBps > -10000.0
    requires forall i | 0 <= i < |orders| :: orders[i].signal.action != Hold
    requires PositiveStrength(orders)
    ensures LostOf(rules, orders, history, now, book) == multiset{}
  {
    hide FillAll, LeavesNoRecord;
    if orders != [] && FillAll(rules, orders[..|orders| - 1], history, now, book).Ok? {
      var front, last := orders[..|orders| - 1], orders[|orders| - 1];
      NothingLostOf(rules, front, history, now, book);
      ShippedOrdersLeaveRecords(rules, last, history, now, FillAll(rules, front, history, now, book).value);
    }
  }

  lemma {:induction false} NothingLostSoFar<S>(
    rules: Rules, strategy: Strategy<S>, history: History, timeline: seq<int>)
    requires rules.sizer.Shipped() && rules.config.commissionBps > -10000.0
    requires PositiveStrength(Emitted(rules, strategy, history, timeline))
    requires RunThrough(rules, strategy, history, timeline).Ok?
    ensures LostSoFar(rules, strategy, history, timeline) == multiset{}
    ensures var pending := RunThrough(rules, strategy, history, timeline).value.pending;
      PositiveStrength(pending) && forall i | 0 <= i < |pending| :: pending[i].signal.action != Hold
  {
    hide FillAll, LostOf, Queue;
    if timeline != [] {
      var front, now := timeline[..|timeline| - 1], timeline[|timeline| - 1];
      var before := RunThrough(rules, strategy, history, front).value;
      var queued := Queue(strategy.onBar(before.strategy, ViewAt(history, now)).1, now);
      var earlier := Emitted(rules, strategy, history, front);
      assert Emitted(rules, strategy, history, timeline) == earlier + queued;
      forall i | 0 <= i < |earlier| ensures earlier[i].signal.strength > 0.0 {
        assert earlier[i] == (earlier + queued)[i];
      }
      forall i | 0 <= i < |queued| ensures queued[i].signal.strength > 0.0 {
        assert queued[i] == (earlier + queued)[|earlier| + i];
      }
      NothingLostSoFar(rules, strategy, history, front);
      NothingLostOf(rules, before.pending, history, now, before.book);
      QueueHasNoHolds(strategy.onBar(before.strategy, ViewAt(history, now)).1, now);
    }
  }

  /** With a shipped sizer and positive strengths nothing is lost, and the signals given so far are the
      fills, the unfilled records and the queue. */
  lemma SignalsAreConserved<S>(
    rules: Rules, strategy: Strategy<S>, history: History, timeline: seq<int>)
    requires rules.sizer.Shipped() && rules.config.commissionBps > -10000.0
    requires PositiveStrength(Emitted(rules, strategy, history, timeline))
    requires RunThrough(rules, strategy, history, timeline).Ok?
    ensures var st := RunThrough(rules, strategy, history, timeline).value;
      var emitted := Emitted(rules, strategy, history, timeline);
      && Filled(st.book.fills) + Refused(st.book.unfilled) + Wanted(st.pending) == Wanted(emitted)
      && |st.book.fills| + |st.book.unfilled| + |st.pending| == |emitted|
  {
    hide RunThrough, Emitted, LostSoFar, Filled, Refused, Wanted;
    NothingLostSoFar(rules, strategy, history, timeline);
    SignalsAreAccounted(rules, strategy, history, timeline);
  }

  lemma LeftOverStep(unfilled: seq<Unfilled>, front: seq<Order>, last: Order, pending: seq<Order>)
    requires pending == front + [last]
    requires Refused(unfilled + LeftOver(front)) == Refused(unfilled) + Wanted(front)
    ensures Refused(unfilled + LeftOver(pending)) == Refused(unfilled) + Wanted(pending)
  {
    hide Wanted, Refused;
    var record := Unfilled(last.signal.ticker, last.signal.action, last.queuedAt, NoBarToFillAgainst);
    assert unfilled + LeftOver(pending) == (unfilled + LeftOver(front)) + [record];
    RefusedSnoc(unfilled + LeftOver(front), record);
    WantedSnoc(front, last);
  }

  lemma {:induction false} LeftOverRefused(unfilled: seq<Unfilled>, pending: seq<Order>)
    ensures Refused(unfilled + LeftOver(pending)) == Refused(unfilled) + Wanted(pending)
    decreases |pending|
  {
    if |pending| == 0 {
      assert unfilled + LeftOver(pending) == unfilled && pending == [];
    } else {
      var front, last := SplitLast(pending);
      LeftOverRefused(unfilled, front);
      LeftOverStep(unfilled, front, last, pending);
    }
  }

  /** Order accounting over a finished run, for every sizer and every strength: each non-HOLD signal became one
      fill, one unfilled record or one lost order, side by side and ticker by ticker. */
  lemma OrdersAreAccounted<S>(
    rules: Rules, strategy: Strategy<S>, bars: History, start: Option<int>, end: Option<int>)
    requires Run(rules, strategy, bars, start, end).Ok?
    ensures var result, history := Run(rules, strategy, bars, start, end).value, Prepare(bars);
      var emitted := Emitted(rules, strategy, history, Timeline(history, start, end));
      var lost := LostSoFar(rules, strategy, history, Timeline(history, start, end));
      && Filled(result.fills) + Refused(result.unfilled) + lost == Wanted(emitted)
      && |result.fills| + |result.unfilled| + |lost| == |emitted|
  {
    hide Filled, Refused, Wanted, RunThrough, Timeline, Prepare;
    var history := Prepare(bars);
    var timeline := Timeline(history, start, end);
    if timeline == [] {
      NothingYet();
    } else {
      SignalsAreAccounted(rules, strategy, history, timeline);
      var st := RunThrough(rules, strategy, history, timeline).value;
      LeftOverRefused(st.book.unfilled, st.pending);
    }
  }

  /** Order conservation: when strengths are positive and the sizer is a shipped one, a finished run
      has turned every non-HOLD signal into exactly one fill or exactly one unfilled record. */
  lemma OrdersAreConserved<S>(
    rules: Rules, strategy: Strategy<S>, bars: History, start: Option<int>, end: Option<int>)
    requires rules.sizer.Shipped() && rules.config.commissionBps > -10000.0
    requires PositiveStrength(Emitted(rules, strategy, Prepare(bars), Timeline(Prepare(bars), start, end)))
    requires Run(rules, strategy, bars, start, end).Ok?
    ensures var result := Run(rules, strategy, bars, start, end).value;
      var emitted := Emitted(rules, strategy, Prepare(bars), Timeline(Prepare(bars), start, end));
      && Filled(result.fills) + Refused(result.unfilled) == Wanted(emitted)
      && |result.fills| + |result.unfilled| == |emitted|
  {
    hide Filled, Refused, Wanted, RunThrough, Timeline, Prepare, Emitted, Sorted;
    OrdersAreAccounted(rules, strategy, bars, start, end);
    if Timeline(Prepare(bars), start, end) != [] {
      NothingLostSoFar(rules, strategy, Prepare(bars), Timeline(Prepare(bars), start, end));
    }
  }

  // ----- causality -----

  /** A fill of q units of an order, priced at the bar's open moved against the trader, with the
      commission and the slippage that quantity and price imply. */
  ghost predicate PricedAt(rules: Rules, fill: Fill, bar: PriceBar, q: real) {
    var price := rules.config.SlippagePrice(bar.open, fill.action);
    && q > 0.0
    && fill.quantity == rules.R(q)
    && fill.price == rules.R(price)
    && fill.commission == rules.R(rules.config.CommissionOn(Times(q, price)))
    && fill.slippage == rules.R(Times(Abs(price - bar.open), q))
    && fill.timestamp == bar.ts
  }

  ghost predicate FillsOrder(rules: Rules, fill: Fill, order: Order, history: History, now: int) {
    && fill.ticker == order.signal.ticker && fill.action == order.signal.action && fill.reason == order.signal.reason
    && fill.timestamp == now
    && BarAt(history, fill.ticker, now).Some?
    && exists q :: PricedAt(rules, fill, BarAt(history, fill.ticker, now).value, q)
  }

  /** Instant i of the timeline filled an order that the strategy queued at instant i - 1. */
  ghost predicate CausedAt<S>(
    rules: Rules, strategy: Strategy<S>, history: History, timeline: seq<int>, fill: Fill, i: int)
    requires 1 <= i < |timeline|
  {
    var before := RunThrough(rules, strategy, history, timeline[..i]);
    && before.Ok?
    && exists order :: order in before.value.pending && order.queuedAt == timeline[i - 1]
                       && FillsOrder(rules, fill, order, history, timeline[i])
  }

  lemma {:induction false} NewFillsHaveOrders(
    rules: Rules, orders: seq<Order>, history: History, now: int, book: Book, k: int)
    requires FillAll(rules, orders, history, now, book).Ok?
    requires |book.fills| <= k < |FillAll(rules, orders, history, now, book).value.fills|
    ensures var fill := FillAll(rules, orders, history, now, book).value.fills[k];
      exists i :: 0 <= i < |orders| && FillsOrder(rules, fill, orders[i], history, now)
  {
    hide Times, Over, Size, RoundQuantity;
    var front, last := orders[..|orders| - 1], orders[|orders| - 1];
    var before := FillAll(rules, front, history, now, book).value;
    if k < |before.fills| {
      NewFillsHaveOrders(rules, front, history, now, book, k);
      var i :| 0 <= i < |front| && FillsOrder(rules, before.fills[k], front[i], history, now);
      assert orders[i] == front[i];
    } else {
      LastFillIsItsOrder(rules, last, history, now, before);
      assert orders[|orders| - 1] == last;
    }
  }

  lemma LastFillIsItsOrder(rules: Rules, order: Order, history: History, now: int, book: Book)
    requires FillOrder(rules, order, history, now, book).Ok?
    ensures var fills := FillOrder(rules, order, history, now, book).value.fills;
      fills == book.fills || (|fills| == |book.fills| + 1 && book.fills <= fills
                              && FillsOrder(rules, fills[|book.fills|], order, history, now))
  {
    hide Times, Over, Size, RoundQuantity;
    var fills := FillOrder(rules, order, history, now, book).value.fills;
    var signal := order.signal;
    var found := BarAt(history, signal.ticker, now);
    if fills != book.fills && found.Some? {
      var bar, fill := found.value, fills[|book.fills|];
      FirstAtMember(Series(history, signal.ticker), now);
      var held := Held(book.positions, signal.ticker).quantity;
      var price := rules.config.SlippagePrice(bar.open, signal.action);
      if signal.action == Buy {
        assert PricedAt(rules, fill, bar, SizeBuy(rules, signal, price, book.cash, held).value.quantity);
      } else {
        assert PricedAt(rules, fill, bar, SellQuantity(held, signal.strength));
      }
    }
  }

  /** The fills and the unfilled records an instant adds answer different orders of the queue, in its order:
      the k-th new fill answers order filled[k] and the k-th new record order refused[k]. */
  ghost predicate Answers(
    rules: Rules, orders: seq<Order>, history: History, now: int, book: Book, after: Book, filled: seq<int>,
      refused: seq<int>)
  {
    && book.fills <= after.fills && book.unfilled <= after.unfilled
    && |filled| == |after.fills| - |book.fills| && |refused| == |after.unfilled| - |book.unfilled|
    && StrictlyIncreasing(filled) && StrictlyIncreasing(refused)
    && (forall k | 0 <= k < |filled| :: 0 <= filled[k] < |orders|
          && FillsOrder(rules, after.fills[|book.fills| + k], orders[filled[k]], history, now))
    && (forall k | 0 <= k < |refused| :: 0 <= refused[k] < |orders|
          && var record := after.unfilled[|book.unfilled| + k];
             Intent(record.ticker, record.action) == IntentOf(orders[refused[k]]))
    && (forall k, l | 0 <= k < |filled| && 0 <= l < |refused| :: filled[k] != refused[l])
  }

  lemma {:induction false} OrdersAreAnswered(rules: Rules, orders: seq<Order>, history: History, now: int, book: Book)
    returns (filled: seq<int>, refused: seq<int>)
    requires FillAll(rules, orders, history, now, book).Ok?
    ensures var after := FillAll(rules, orders, history, now, book).value;
      Answers(rules, orders, history, now, book, after, filled, refused)
    decreases |orders|
  {
    hide FillOrder, Answers, LeavesNoRecord, FillsOrder;
    filled, refused := [], [];
    if orders == [] {
      NoneAnswered(rules, history, now, book);
    } else {
      var front, last := orders[..|orders| - 1], orders[|orders| - 1];
      filled, refused := OrdersAreAnswered(rules, front, history, now, book);
      var before := FillAll(rules, front, history, now, book).value;
      var after := FillAll(rules, orders, history, now, book).value;
      OneRecord(rules, last, history, now, before);
      LastFillIsItsOrder(rules, last, history, now, before);
      assert orders == front + [last];
      if |after.fills| > |before.fills| {
        FillAnswers(rules, front, last, history, now, book, before, after, filled, refused);
        filled := filled + [|front|];
      } else if |after.unfilled| > |before.unfilled| {
        RefusalAnswers(rules, front, last, history, now, book, before, after, filled, refused);
        refused := refused + [|front|];
      } else {
        NothingAnswers(rules, front, last, history, now, book, before, filled, refused);
      }
    }
  }

  lemma NoneAnswered(rules: Rules, history: History, now: int, book: Book)
    ensures Answers(rules, [], history, now, book, book, [], [])
  {
  }

  lemma NothingAnswers(
    rules: Rules, front: seq<Order>, last: Order, history: History, now: int, book: Book, before: Book,
    filled: seq<int>, refused: seq<int>)
    requires Answers(rules, front, history, now, book, before, filled, refused)
    ensures Answers(rules, front + [last], history, now, book, before, filled, refused)
  {
    hide FillsOrder;
    assert forall i | 0 <= i < |front| :: (front + [last])[i] == front[i];
  }

  lemma FillAnswers(
    rules: Rules, front: seq<Order>, last: Order, history: History, now: int, book: Book, before: Book, after: Book,
    filled: seq<int>, refused: seq<int>)
    requires Answers(rules, front, history, now, book, before, filled, refused)
    requires after.unfilled == before.unfilled && |after.fills| == |before.fills| + 1
    requires after.fills == before.fills + [after.fills[|before.fills|]]
    requires FillsOrder(rules, after.fills[|before.fills|], last, history, now)
    ensures Answers(rules, front + [last], history, now, book, after, filled + [|front|], refused)
  {
    hide FillsOrder;
    var all, orders := filled + [|front|], front + [last];
    forall k | 0 <= k < |all| ensures 0 <= all[k] < |orders|
      && FillsOrder(rules, after.fills[|book.fills| + k], orders[all[k]], history, now)
    {
      if k < |filled| {
        assert orders[all[k]] == front[filled[k]] && after.fills[|book.fills| + k] == before.fills[|book.fills| + k];
      } else {
        assert orders[all[k]] == last && |book.fills| + k == |before.fills|;
      }
    }
  }

  lemma RefusalAnswers(
    rules: Rules, front: seq<Order>, last: Order, history: History, now: int, book: Book, before: Book, after: Book,
    filled: seq<int>, refused: seq<int>)
    requires Answers(rules, front, history, now, book, before, filled, refused)
    requires after.fills == before.fills && |after.unfilled| == |before.unfilled| + 1
    requires after.unfilled == before.unfilled + [after.unfilled[|before.unfilled|]]
    requires var record := after.unfilled[|before.unfilled|];
      Intent(record.ticker, record.action) == IntentOf(last)
    ensures Answers(rules, front + [last], history, now, book, after, filled, refused + [|front|])
  {
    hide FillsOrder;
    var all, orders := refused + [|front|], front + [last];
    forall k | 0 <= k < |all| ensures 0 <= all[k] < |orders|
      && Intent(after.unfilled[|book.unfilled| + k].ticker, after.unfilled[|book.unfilled| + k].action) ==
           IntentOf(orders[all[k]])
    {
      if k < |refused| {
        assert orders[all[k]] == front[refused[k]]
          && after.unfilled[|book.unfilled| + k] == before.unfilled[|book.unfilled| + k];
      } else {
        assert orders[all[k]] == last && |book.unfilled| + k == |before.unfilled|;
      }
    }
    assert forall k | 0 <= k < |filled| :: orders[filled[k]] == front[filled[k]];
  }

  /** At every instant of a run the new fills and the new unfilled records answer different orders that the
      strategy queued one instant earlier: no order is filled twice, none is both filled and refused, and
      each fill is its own order's, at this bar's open. */
  lemma InstantAnswersItsQueue<S>(rules: Rules, strategy: Strategy<S>, history: History, timeline: seq<int>)
    returns (filled: seq<int>, refused: seq<int>)
    requires timeline != [] && RunThrough(rules, strategy, history, timeline).Ok?
    ensures var now := timeline[|timeline| - 1];
      var before := RunThrough(rules, strategy, history, timeline[..|timeline| - 1]).value;
      var after := RunThrough(rules, strategy, history, timeline).value;
      && Answers(rules, before.pending, history, now, before.book, after.book, filled, refused)
      && forall i | 0 <= i < |before.pending| ::
           |timeline| >= 2 && before.pending[i].queuedAt == timeline[|timeline| - 2]
  {
    hide FillAll, Queue, Answers;
    var front, now := timeline[..|timeline| - 1], timeline[|timeline| - 1];
    var before := RunThrough(rules, strategy, history, front).value;
    filled, refused := OrdersAreAnswered(rules, before.pending, history, now, before.book);
    PendingQueuedLast(rules, strategy, history, front);
  }

  lemma {:induction false} PendingQueuedLast<S>(
    rules: Rules, strategy: Strategy<S>, history: History, timeline: seq<int>)
    requires RunThrough(rules, strategy, history, timeline).Ok?
    ensures var pending := RunThrough(rules, strategy, history, timeline).value.pending;
      if timeline == [] then pending == []
      else forall i | 0 <= i < |pending| :: pending[i].queuedAt == timeline[|timeline| - 1]
  {
    if timeline != [] {
      var front, now := timeline[..|timeline| - 1], timeline[|timeline| - 1];
      var before := RunThrough(rules, strategy, history, front).value;
      QueueHasNoHolds(strategy.onBar(before.strategy, ViewAt(history, now)).1, now);
    }
  }

  /** Causality: every fill was made at some instant i >= 1 of the timeline, for an order the strategy
      queued on seeing instant i - 1, at the open of instant i's bar. Nothing fills on the bar that
      prompted it. */
  lemma {:induction false} FillsAreCaused<S>(
    rules: Rules, strategy: Strategy<S>, history: History, timeline: seq<int>, k: int)
    requires RunThrough(rules, strategy, history, timeline).Ok?
    requires 0 <= k < |RunThrough(rules, strategy, history, timeline).value.book.fills|
    ensures var fill := RunThrough(rules, strategy, history, timeline).value.book.fills[k];
      exists i :: 1 <= i < |timeline| && CausedAt(rules, strategy, history, timeline, fill, i)
  {
    hide FillAll, Queue, FillsOrder;
    var front, now := timeline[..|timeline| - 1], timeline[|timeline| - 1];
    var before := RunThrough(rules, strategy, history, front).value;
    var after := RunThrough(rules, strategy, history, timeline).value;
    FillAllGrows(rules, before.pending, history, now, before.book);
    if k < |before.book.fills| {
      FillsAreCaused(rules, strategy, history, front, k);
      var i :| 1 <= i < |front| && CausedAt(rules, strategy, history, front, before.book.fills[k], i);
      assert timeline[..i] == front[..i];
      assert CausedAt(rules, strategy, history, timeline, after.book.fills[k], i);
    } else {
      NewFillsHaveOrders(rules, before.pending, history, now, before.book, k);
      var j :| 0 <= j < |before.pending| && FillsOrder(rules, after.book.fills[k], before.pending[j], history, now);
      PendingQueuedLast(rules, strategy, history, front);
      assert before.pending[j] in before.pending;
      assert CausedAt(rules, strategy, history, timeline, after.book.fills[k], |timeline| - 1);
    }
  }

  lemma {:induction false} FillAllGrows(rules: Rules, orders: seq<Order>, history: History, now: int, book: Book)
    requires FillAll(rules, orders, history, now, book).Ok?
    ensures book.fills <= FillAll(rules, orders, history, now, book).value.fills
  {
    if orders != [] {
      FillAllGrows(rules, orders[..|orders| - 1], history, now, book);
    }
  }

  /** Slippage is adverse: with non-negative slippage a buy pays at least the open, and a sale receives
      at most the open unless the open is below the floor price. */
  lemma SlippageIsAdverse(config: Config, open: real)
    requires config.slippageBps >= 0.0 && open > 0.0
    ensures config.SlippagePrice(open, Buy) >= open
    ensures 0.0 < config.SlippagePrice(open, Sell)
    ensures config.SlippagePrice(open, Sell) <= open <==> open >= FLOOR_PRICE
    ensures config.SlippagePrice(open, Hold) == open
  {
    TimesSign(open, config.slippageBps);
  }
}
