/** What a sizer's answer is worth, and what a run buys and sells because of it (backtesting/sizing.py,
    backtesting/engine.py). */
module BacktestSizing {
  import opened Rounding
  import opened MarketData
  import opened Backtest
  import opened BacktestOrders

  lemma OverTimes(x: real, y: real)
    requires y != 0.0
    ensures Times(Over(x, y), y) == x
  {
    hide Times, Over;
    TimesOver(x, y);
    TimesCommutes(Over(x, y), y);
  }

  lemma TimesKeepsOrder(x: real, y: real, z: real)
    requires z > 0.0
    ensures x <= y <==> Times(x, z) <= Times(y, z)
    ensures x < y <==> Times(x, z) < Times(y, z)
  {
  }

  /** A fraction of equity, scaled by strength, or all the cash if that is less. */
  lemma FractionOfEquity(sizer: Sizer, signal: Signal, price: real, equity: real, cash: real)
    requires sizer.FixedFraction? && price > 0.0
    ensures Times(Size(sizer, signal, price, equity, cash), price)
            == Max(0.0, Min(Times(Times(equity, sizer.fraction), signal.strength), cash))
  {
    hide Times, Over;
    var budget := Min(Times(Times(equity, sizer.fraction), signal.strength), cash);
    OverTimes(budget, price);
    OverSign(budget, price);
    TimesDistributes(price, 0.0, 0.0);
    TimesDistributes(0.0, price, price);
  }

  /** So many units, scaled by strength, or what the cash buys if that is less. */
  lemma UnitsOrWhatCashBuys(sizer: Sizer, signal: Signal, price: real, equity: real, cash: real)
    requires sizer.FixedQuantity? && price > 0.0
    ensures var units := Times(sizer.units, signal.strength);
      Times(Size(sizer, signal, price, equity, cash), price) == Min(Times(units, price), cash)
  {
    hide Times, Over;
    OverTimes(cash, price);
    TimesKeepsOrder(Over(cash, price), Times(sizer.units, signal.strength), price);
  }

  /** As many units as lose the given share of equity, scaled by strength, when the price falls by the stop
      distance -- or as the cash buys, which then lose less. */
  lemma StopLosesTheRisk(sizer: Sizer, signal: Signal, price: real, equity: real, cash: real)
    requires sizer.RiskBased? && price > 0.0
    ensures var risked := Times(equity, Times(sizer.riskPerTrade, signal.strength));
      Times(Size(sizer, signal, price, equity, cash), Times(price, sizer.stopDistance))
      == Max(0.0, Min(risked, Times(cash, sizer.stopDistance)))
  {
    hide Times, Over;
    var distance := sizer.stopDistance;
    var fall, risked := Times(price, distance), Times(equity, Times(sizer.riskPerTrade, signal.strength));
    TimesSign(price, distance);
    TimesDistributes(price, 1.0, distance);
    TimesCommutes(price, 1.0);
    StopBelowPrice(price, distance);
    assert Abs(price - Times(price, 1.0 - distance)) == fall;
    var full, most := Over(risked, fall), Over(cash, price);
    OverTimes(risked, fall);
    OverTimes(cash, price);
    BacktestCash.TimesAssociates(most, price, distance);
    TimesKeepsOrder(full, most, fall);
    TimesKeepsOrder(most, full, fall);
    TimesKeepsOrder(0.0, full, fall);
    TimesKeepsOrder(0.0, most, fall);
    TimesDistributes(0.0, fall, fall);
  }

  /** No price, nothing asked for. */
  lemma NoPriceNoSize(sizer: Sizer, signal: Signal, price: real, equity: real, cash: real)
    requires sizer.Shipped() && price <= 0.0
    ensures Size(sizer, signal, price, equity, cash) <= 0.0
  {
  }

  // ----- what a buy spends -----

  /** What a shipped sizer means to put into a position, cash aside. */
  function Intended(sizer: Sizer, signal: Signal, price: real, equity: real): real
    requires sizer.Shipped()
  {
    match sizer
    case FixedFraction(fraction) => Times(Times(equity, fraction), signal.strength)
    case FixedQuantity(units) => Times(Times(units, signal.strength), price)
    case RiskBased(risk, distance) => Over(Times(equity, Times(risk, signal.strength)), distance)
  }

  lemma WantsTheIntended(sizer: Sizer, signal: Signal, price: real, equity: real, cash: real)
    requires sizer.Shipped() && price > 0.0 && Size(sizer, signal, price, equity, cash) > 0.0
    ensures Times(Size(sizer, signal, price, equity, cash), price) == Min(Intended(sizer, signal, price, equity), cash)
  {
    hide Times, Over, Size;
    var q := Size(sizer, signal, price, equity, cash);
    TimesSign(q, price);
    match sizer
    case FixedFraction(_) => FractionOfEquity(sizer, signal, price, equity, cash);
    case FixedQuantity(_) => UnitsOrWhatCashBuys(sizer, signal, price, equity, cash);
    case RiskBased(risk, distance) =>
      var risked := Times(equity, Times(risk, signal.strength));
      StopLosesTheRisk(sizer, signal, price, equity, cash);
      BacktestCash.TimesAssociates(q, price, distance);
      TimesSign(Times(q, price), distance);
      OverTimes(risked, distance);
      TimesKeepsOrder(Over(risked, distance), cash, distance);
      TimesKeepsOrder(Times(q, price), cash, distance);
      TimesKeepsOrder(cash, Times(q, price), distance);
      TimesKeepsOrder(Times(q, price), Over(risked, distance), distance);
      TimesKeepsOrder(Over(risked, distance), Times(q, price), distance);
  }

  /** A buy is the wish, or, if that with its commission is more than there is, what spends all the cash. */
  lemma WishOrAllTheCash(rules: Rules, signal: Signal, price: real, book: Book)
    requires price > 0.0 && rules.config.commissionBps > -10000.0
    requires var held := Held(book.positions, signal.ticker).quantity;
      SizeBuy(rules, signal, price, book.cash, held).Ok? && SizeBuy(rules, signal, price, book.cash, held).value.Sized?
    ensures var held, wanted := Held(book.positions, signal.ticker).quantity, WantedOf(rules, signal, price, book);
      var q, factor := SizeBuy(rules, signal, price, book.cash, held).value.quantity,
        1.0 + rules.config.commissionBps / 10000.0;
      && wanted > 0.0 && q > 0.0
      && Times(Times(q, price), factor) == Min(Times(Times(wanted, price), factor), book.cash)
  {
    hide Times, Over, Size;
    var wanted := WantedOf(rules, signal, price, book);
    var held := Held(book.positions, signal.ticker).quantity;
    var q, factor := SizeBuy(rules, signal, price, book.cash, held).value.quantity, rules.config.CostFactor();
    TimesSign(wanted, price);
    TimesSign(price, factor);
    BacktestCash.CommissionIsAShare(rules.config, Times(wanted, price));
    BacktestCash.TimesAssociates(q, price, factor);
    OverTimes(book.cash, Times(price, factor));
  }

  /** A shipped sizer's buy puts in what is intended for the equity at the fill price, or the cash, or what
      the cash pays for with its commission, whichever is least. */
  lemma BuySpends(rules: Rules, signal: Signal, price: real, book: Book)
    requires rules.sizer.Shipped() && price > 0.0 && rules.config.commissionBps > -10000.0
    requires var held := Held(book.positions, signal.ticker).quantity;
      SizeBuy(rules, signal, price, book.cash, held).Ok? && SizeBuy(rules, signal, price, book.cash, held).value.Sized?
    ensures var held := Held(book.positions, signal.ticker).quantity;
      var q, factor := SizeBuy(rules, signal, price, book.cash, held).value.quantity,
        1.0 + rules.config.commissionBps / 10000.0;
      var intended := Intended(rules.sizer, signal, price, book.cash + Times(held, price));
      q > 0.0 && Times(q, price) == Min(intended, Min(book.cash, Over(book.cash, factor)))
  {
    hide Times, Over, Size, Intended, SizeBuy;
    var held := Held(book.positions, signal.ticker).quantity;
    var q, factor := SizeBuy(rules, signal, price, book.cash, held).value.quantity,
      1.0 + rules.config.commissionBps / 10000.0;
    var wanted := WantedOf(rules, signal, price, book);
    WishOrAllTheCash(rules, signal, price, book);
    TimesSign(held, price);
    ShippedSizersNeedCash(rules.sizer, signal, price, book.cash + Times(held, price), book.cash);
    WantsTheIntended(rules.sizer, signal, price, book.cash + Times(held, price), book.cash);
    OverTimes(book.cash, factor);
    var spent, most := Times(q, price), Over(book.cash, factor);
    TimesKeepsOrder(Times(wanted, price), most, factor);
    TimesKeepsOrder(spent, most, factor);
    TimesKeepsOrder(most, spent, factor);
    TimesKeepsOrder(spent, Times(wanted, price), factor);
    TimesKeepsOrder(Times(wanted, price), spent, factor);
  }

  // ----- prices and shares -----

  /** A fill's price is the open moved against the trader by the configured basis points of it, and never below
      the floor. */
  lemma SlippageInBasisPoints(config: Config, open: real)
    ensures config.SlippagePrice(open, Buy) == Times(open, 1.0 + config.slippageBps / 10000.0)
    ensures config.SlippagePrice(open, Sell) == Max(Times(open, 1.0 - config.slippageBps / 10000.0), 0.000000001)
  {
    var share := config.slippageBps / 10000.0;
    assert Times(open, config.slippageBps) / 10000.0 == Times(open, share);
    TimesDistributes(open, 1.0, share);
    TimesCommutes(open, 1.0);
  }

  /** A sale is its strength's share of the holding, the whole of it at full strength and beyond. */
  lemma SellsItsShare(held: real, strength: real)
    requires held >= 0.0
    ensures SellQuantity(held, strength) ==
            if strength <= 0.0 then 0.0 else if strength < 1.0 then Times(held, strength) else held
  {
    hide Times;
    TimesDistributes(held, 1.0, strength);
    TimesSign(held, 1.0 - strength);
    TimesCommutes(held, 1.0);
    TimesDistributes(0.0, held, held);
  }

  // ----- over a run -----

  /** The fill is what its order means for the book it met: a buy of what is intended or of all that the cash
      pays for, a sale of its share, both at the open moved by the slippage. */
  ghost predicate MeantFor(rules: Rules, signal: Signal, open: real, before: Book, fill: Fill)
    requires rules.sizer.Shipped() && rules.config.commissionBps > -10000.0
  {
    var held := Held(before.positions, signal.ticker).quantity;
    var factor, share := 1.0 + rules.config.commissionBps / 10000.0, rules.config.slippageBps / 10000.0;
    exists q: real, price: real :: Amounts(rules, fill, q, price)
      && match fill.action
         case Buy =>
           price == Times(open, 1.0 + share)
           && Times(q, price) ==
              Min(Intended(rules.sizer, signal, price, before.cash + Times(held, price)),
                  Min(before.cash, Over(before.cash, factor)))
         case Sell =>
           price == Max(Times(open, 1.0 - share), 0.000000001) && q == Times(held, Min(signal.strength, 1.0))
         case Hold => false
  }

  predicate Amounts(rules: Rules, fill: Fill, q: real, price: real) {
    q > 0.0 && price > 0.0 && fill.quantity == rules.R(q) && fill.price == rules.R(price)
  }

  lemma OrderMeansItsFill(rules: Rules, order: Order, history: History, now: int, book: Book)
    requires rules.sizer.Shipped() && rules.config.commissionBps > -10000.0
    requires FillOrder(rules, order, history, now, book).Ok?
    ensures var fills := FillOrder(rules, order, history, now, book).value.fills;
      fills != book.fills ==>
        && |fills| == |book.fills| + 1 && BarAt(history, order.signal.ticker, now).Some?
        && MeantFor(rules, order.signal, BarAt(history, order.signal.ticker, now).value.open, book, fills[|book.fills|])
  {
    hide Times, Over, Size, SizeBuy, Bought, Sold, SellQuantity, Intended, Config.SlippagePrice;
    var signal := order.signal;
    var found := BarAt(history, signal.ticker, now);
    if found.Some? {
      var open, held := found.value.open, Held(book.positions, signal.ticker).quantity;
      var price := rules.config.SlippagePrice(open, signal.action);
      SlippageInBasisPoints(rules.config, open);
      if signal.action == Buy && SizeBuy(rules, signal, price, book.cash, held).value.Sized? {
        var q := SizeBuy(rules, signal, price, book.cash, held).value.quantity;
        BoughtRecords(rules, signal, open, price, q, now, book);
        BuySpends(rules, signal, price, book);
        assert Amounts(rules, Bought(rules, signal, open, price, q, now, book).value.fills[|book.fills|], q, price);
      } else if signal.action == Sell && held > 0.0 && SellQuantity(held, signal.strength) > 0.0 {
        var q := SellQuantity(held, signal.strength);
        SoldRecords(rules, signal, open, price, q, now, book);
        SellsItsShare(held, signal.strength);
        TimesCommutes(held, 1.0);
        TimesDistributes(held, 1.0, 1.0);
        assert Amounts(rules, Sold(rules, signal, open, price, q, now, book).value.fills[|book.fills|], q, price);
      }
    }
  }

  lemma BoughtRecords(rules: Rules, signal: Signal, open: real, price: real, quantity: real, now: int, book: Book)
    requires Bought(rules, signal, open, price, quantity, now, book).Ok?
    ensures price > 0.0 && quantity > 0.0
    ensures var fills := Bought(rules, signal, open, price, quantity, now, book).value.fills;
      |fills| == |book.fills| + 1 && fills[|book.fills|].action == Buy
        && Amounts(rules, fills[|book.fills|], quantity, price)
  {
    hide Times, Over;
  }

  lemma SoldRecords(rules: Rules, signal: Signal, open: real, price: real, quantity: real, now: int, book: Book)
    requires quantity > 0.0 && Sold(rules, signal, open, price, quantity, now, book).Ok?
    ensures var fills := Sold(rules, signal, open, price, quantity, now, book).value.fills;
      |fills| == |book.fills| + 1 && fills[|book.fills|].action == Sell
        && Amounts(rules, fills[|book.fills|], quantity, price)
  {
    hide Times, Over;
  }

  /** The order of the queue that made the k-th fill, and the book it met. */
  lemma {:induction false} FillHasItsBook(
    rules: Rules, orders: seq<Order>, history: History, now: int, book: Book, k: nat)
    returns (j: nat)
    requires rules.sizer.Shipped() && rules.config.commissionBps > -10000.0
    requires FillAll(rules, orders, history, now, book).Ok?
    requires |book.fills| <= k < |FillAll(rules, orders, history, now, book).value.fills|
    ensures j < |orders| && FillAll(rules, orders[..j], history, now, book).Ok?
    ensures var before, signal := FillAll(rules, orders[..j], history, now, book).value, orders[j].signal;
      && |before.fills| == k && BarAt(history, signal.ticker, now).Some?
      && MeantFor(rules, signal, BarAt(history, signal.ticker, now).value.open, before,
                  FillAll(rules, orders, history, now, book).value.fills[k])
    decreases |orders|
  {
    hide FillOrder, MeantFor;
    var front, last := orders[..|orders| - 1], orders[|orders| - 1];
    var before := FillAll(rules, front, history, now, book).value;
    LastFillIsItsOrder(rules, last, history, now, before);
    if k < |before.fills| {
      j := FillHasItsBook(rules, front, history, now, book, k);
      assert front[..j] == orders[..j];
    } else {
      OrderMeansItsFill(rules, last, history, now, before);
      j := |orders| - 1;
    }
  }

  /** Over every run with a shipped sizer, every fill is what the order it answers means for the book that order
      met: instant i, order j of the queue, and the book after the orders before it. */
  lemma {:induction false} FillsAreMeant<S>(
    rules: Rules, strategy: Strategy<S>, history: History, timeline: seq<int>, k: nat)
    returns (i: nat, j: nat)
    requires rules.sizer.Shipped() && rules.config.commissionBps > -10000.0
    requires RunThrough(rules, strategy, history, timeline).Ok?
    requires k < |RunThrough(rules, strategy, history, timeline).value.book.fills|
    ensures i < |timeline| && RunThrough(rules, strategy, history, timeline[..i]).Ok?
    ensures var st := RunThrough(rules, strategy, history, timeline[..i]).value;
      && j < |st.pending|
      && var met, signal := FillAll(rules, st.pending[..j], history, timeline[i], st.book), st.pending[j].signal;
         && met.Ok? && |met.value.fills| == k && BarAt(history, signal.ticker, timeline[i]).Some?
         && MeantFor(rules, signal, BarAt(history, signal.ticker, timeline[i]).value.open, met.value,
                     RunThrough(rules, strategy, history, timeline).value.book.fills[k])
    decreases |timeline|
  {
    hide FillAll, Queue, MeantFor;
    var front, now := timeline[..|timeline| - 1], timeline[|timeline| - 1];
    var before := RunThrough(rules, strategy, history, front).value;
    FillAllGrows(rules, before.pending, history, now, before.book);
    if k < |before.book.fills| {
      i, j := FillsAreMeant(rules, strategy, history, front, k);
      assert front[..i] == timeline[..i];
    } else {
      j := FillHasItsBook(rules, before.pending, history, now, before.book, k);
      i := |timeline| - 1;
    }
  }
}
