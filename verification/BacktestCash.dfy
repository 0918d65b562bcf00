/** What every order keeps true of the book, and so every run: cash, and the absence of failures. */
module BacktestCash {
  import opened Wrappers
  import opened Rounding
  import opened Accounting
  import opened MarketData
  import opened Backtest

  /** Induction over a run: what every order preserves holds of the book at every instant. */
  lemma {:induction false} FillAllKeeps(
    rules: Rules, orders: seq<Order>, history: History, now: int, book: Book, inv: Book -> bool)
    requires inv(book)
    requires forall order, t, b ::
               inv(b) && FillOrder(rules, order, history, t, b).Ok? ==>
                 inv(FillOrder(rules, order, history, t, b).value)
    requires FillAll(rules, orders, history, now, book).Ok?
    ensures inv(FillAll(rules, orders, history, now, book).value)
  {
    if orders != [] {
      FillAllKeeps(rules, orders[..|orders| - 1], history, now, book, inv);
    }
  }

  lemma {:induction false} RunKeeps<S>(
    rules: Rules, strategy: Strategy<S>, history: History, timeline: seq<int>, inv: Book -> bool)
    requires inv(Start(rules, strategy).book)
    requires forall order, t, b ::
               inv(b) && FillOrder(rules, order, history, t, b).Ok? ==>
                 inv(FillOrder(rules, order, history, t, b).value)
    requires RunThrough(rules, strategy, history, timeline).Ok?
    ensures inv(RunThrough(rules, strategy, history, timeline).value.book)
  {
    if timeline != [] {
      var front, now := timeline[..|timeline| - 1], timeline[|timeline| - 1];
      RunKeeps(rules, strategy, history, front, inv);
      var before := RunThrough(rules, strategy, history, front).value;
      FillAllKeeps(rules, before.pending, history, now, before.book, inv);
    }
  }

  // ----- cash -----

  /** Cash is a whole number of millionths and is not negative. */
  ghost predicate CashSafe(p: Precision, cash: real) {
    cash >= 0.0 && Representable(p, cash)
  }

  lemma CommissionIsAShare(config: Config, notional: real)
    requires notional >= 0.0
    ensures notional + config.CommissionOn(notional) == Times(notional, config.CostFactor())
    ensures config.commissionBps <= 10000.0 ==> config.CommissionOn(notional) <= notional
  {
    assert config.CommissionOn(notional) == Times(notional, config.commissionBps) / 10000.0;
    assert Times(notional, config.commissionBps) / 10000.0 == Times(notional, config.commissionBps / 10000.0);
    TimesDistributes(notional, 1.0, config.commissionBps / 10000.0);
    TimesDistributes(notional, 10000.0, config.commissionBps);
    if config.commissionBps <= 10000.0 {
      TimesSign(notional, 10000.0 - config.commissionBps);
    }
  }

  lemma TimesAssociates(x: real, y: real, z: real)
    ensures Times(Times(x, y), z) == Times(x, Times(y, z))
  {
    assert (x * y) * z == x * (y * z);
  }

  /** Whatever the sizer asks for, the quantity bought costs no more than the cash there is, commission
      included: either the wish was affordable, or it was trimmed to spend exactly all of it. */
  lemma SizedIsAffordable(rules: Rules, signal: Signal, price: real, cash: real, held: real)
    requires SizeBuy(rules, signal, price, cash, held).Ok?
    requires SizeBuy(rules, signal, price, cash, held).value.Sized?
    requires price > 0.0
    ensures var q := SizeBuy(rules, signal, price, cash, held).value.quantity;
      q > 0.0 && Times(q, price) + rules.config.CommissionOn(Times(q, price)) <= cash
  {
    hide Times, Over, Size;
    var wanted := Size(rules.sizer, signal, price, Max(cash + Times(held, price), cash), cash);
    if Times(wanted, price) + rules.config.CommissionOn(Times(wanted, price)) > cash {
      var unitCost := Times(price, rules.config.CostFactor());
      var q := Over(cash, unitCost);
      TimesSign(q, price);
      CommissionIsAShare(rules.config, Times(q, price));
      TimesAssociates(q, price, rules.config.CostFactor());
      TimesOver(cash, unitCost);
      assert Times(q, unitCost) == Times(unitCost, q) by { TimesCommutes(q, unitCost); }
    }
  }

  lemma BuyKeepsCash(rules: Rules, signal: Signal, bar: PriceBar, now: int, book: Book)
    requires CashSafe(rules.precision, book.cash)
    requires FillBuy(rules, signal, bar, now, book).Ok?
    ensures CashSafe(rules.precision, FillBuy(rules, signal, bar, now, book).value.cash)
  {
    hide Times, Over, Size, RoundQuantity;
    var p, price := rules.precision, rules.config.SlippagePrice(bar.open, Buy);
    var held := Held(book.positions, signal.ticker);
    var sizing := SizeBuy(rules, signal, price, book.cash, held.quantity).value;
    if sizing.Sized? && price > 0.0 {
      var q := sizing.quantity;
      SizedIsAffordable(rules, signal, price, book.cash, held.quantity);
      var gross := Times(q, price) + rules.config.CommissionOn(Times(q, price));
      RoundNear(p, -gross);
      ZeroOnGrid(p);
      GridSum(p, 0.0, book.cash);
      RoundKeepsBound(p, -book.cash, -gross);
      GridSum(p, book.cash, Round(p, -gross));
    }
  }

  lemma SellKeepsCash(rules: Rules, signal: Signal, bar: PriceBar, now: int, book: Book)
    requires CashSafe(rules.precision, book.cash) && rules.config.commissionBps <= 10000.0
    requires FillSell(rules, signal, bar, now, book).Ok?
    ensures CashSafe(rules.precision, FillSell(rules, signal, bar, now, book).value.cash)
  {
    hide Times, Over, RoundQuantity;
    var p, price := rules.precision, rules.config.SlippagePrice(bar.open, Sell);
    var held := Held(book.positions, signal.ticker);
    var q := SellQuantity(held.quantity, signal.strength);
    if held.quantity > 0.0 && q > 0.0 {
      var notional := Times(q, price);
      TimesSign(q, price);
      CommissionIsAShare(rules.config, notional);
      var proceeds := notional - rules.config.CommissionOn(notional);
      RoundNear(p, proceeds);
      ZeroOnGrid(p);
      RoundKeepsBound(p, 0.0, proceeds);
      GridSum(p, book.cash, Round(p, proceeds));
    }
  }

  /** Cash never goes negative and never leaves the six-decimal grid, whatever the strategy, the sizer,
      the prices and the slippage: it takes only starting cash that is safe and a commission that is no
      more than the whole notional. */
  lemma CashStaysSafe<S>(rules: Rules, strategy: Strategy<S>, history: History, timeline: seq<int>)
    requires CashSafe(rules.precision, rules.config.initialCash) && rules.config.commissionBps <= 10000.0
    requires RunThrough(rules, strategy, history, timeline).Ok?
    ensures CashSafe(rules.precision, RunThrough(rules, strategy, history, timeline).value.book.cash)
  {
    var inv := (b: Book) => CashSafe(rules.precision, b.cash);
    forall order, t, b | inv(b) && FillOrder(rules, order, history, t, b).Ok?
      ensures inv(FillOrder(rules, order, history, t, b).value)
    {
      var bar := BarAt(history, order.signal.ticker, t);
      if bar.Some? && order.signal.action == Buy {
        BuyKeepsCash(rules, order.signal, bar.value, t, b);
      } else if bar.Some? && order.signal.action == Sell {
        SellKeepsCash(rules, order.signal, bar.value, t, b);
      }
    }
    RunKeeps(rules, strategy, history, timeline, inv);
  }

  /** Every equity point reports that cash unchanged, and so never a negative one. */
  lemma {:induction false} ReportedCashNeverNegative<S>(
    rules: Rules, strategy: Strategy<S>, history: History, timeline: seq<int>)
    requires CashSafe(rules.precision, rules.config.initialCash) && rules.config.commissionBps <= 10000.0
    requires RunThrough(rules, strategy, history, timeline).Ok?
    ensures var st := RunThrough(rules, strategy, history, timeline).value;
      && (forall i | 0 <= i < |st.curve| :: st.curve[i].cash >= 0.0)
      && (timeline != [] ==> st.curve != [] && st.curve[|st.curve| - 1].cash == st.book.cash)
  {
    if timeline != [] {
      ReportedCashNeverNegative(rules, strategy, history, timeline[..|timeline| - 1]);
      CashStaysSafe(rules, strategy, history, timeline);
      RoundFixesGrid(rules.precision, RunThrough(rules, strategy, history, timeline).value.book.cash);
    }
  }

  // ----- failures -----

  ghost predicate TradablePrices(history: History) {
    forall ticker, bar | ticker in history && bar in history[ticker] :: bar.open > 0.0
  }

  /** On bars with positive opens no order can make the engine fail, for any sizer: fill prices are
      positive, quantities bought are positive, and nothing is sold that is not held. */
  lemma OrderNeverFails(rules: Rules, order: Order, history: History, now: int, book: Book)
    requires TradablePrices(history)
    requires rules.config.commissionBps > -10000.0 && rules.config.slippageBps > -10000.0
    ensures FillOrder(rules, order, history, now, book).Ok?
  {
    var signal := order.signal;
    var found := BarAt(history, signal.ticker, now);
    if found.Some? {
      FirstAtMember(Series(history, signal.ticker), now);
      var open := found.value.open;
      if signal.action == Buy {
        hide Over, Size;
        var price := rules.config.SlippagePrice(open, Buy);
        TimesDistributes(open, rules.config.slippageBps, -10000.0);
        TimesSign(open, rules.config.slippageBps - -10000.0);
        TimesSign(price, rules.config.CostFactor());
      } else if signal.action == Sell {
        hide Times, Over, RoundQuantity;
      }
    }
  }

  lemma {:induction false} FillAllNeverFails(rules: Rules, orders: seq<Order>, history: History, now: int, book: Book)
    requires TradablePrices(history)
    requires rules.config.commissionBps > -10000.0 && rules.config.slippageBps > -10000.0
    ensures FillAll(rules, orders, history, now, book).Ok?
  {
    if orders != [] {
      FillAllNeverFails(rules, orders[..|orders| - 1], history, now, book);
      var before := FillAll(rules, orders[..|orders| - 1], history, now, book).value;
      OrderNeverFails(rules, orders[|orders| - 1], history, now, before);
    }
  }

  lemma {:induction false} RunNeverFails<S>(rules: Rules, strategy: Strategy<S>, history: History, timeline: seq<int>)
    requires TradablePrices(history)
    requires rules.config.commissionBps > -10000.0 && rules.config.slippageBps > -10000.0
    ensures RunThrough(rules, strategy, history, timeline).Ok?
  {
    if timeline != [] {
      var front, now := timeline[..|timeline| - 1], timeline[|timeline| - 1];
      RunNeverFails(rules, strategy, history, front);
      var before := RunThrough(rules, strategy, history, front).value;
      FillAllNeverFails(rules, before.pending, history, now, before.book);
    }
  }
}
