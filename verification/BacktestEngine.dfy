/** The engine in the form the source gives it: one loop over the timeline that updates cash,
    positions, lots and result lists in place. Each method is proved to compute `Backtest`'s functions,
    so everything proved about those holds of this code. */
module BacktestEngine {
  import opened Wrappers
  import opened Rounding
  import opened Accounting
  import opened Ordering
  import opened MarketData
  import opened Backtest

  /** The value of a method that may raise: None on success. */
  ghost predicate Follows(spec: Result<Book>, failure: Option<Error>, book: Book) {
    match spec
    case Ok(expected) => failure == None && book == expected
    case Err(error) => failure == Some(error)
  }

  lemma MarkOf(positions: map<Ticker, PositionState>, view: MarketView, ticker: Ticker)
    requires ticker in positions
    ensures var state, price := positions[ticker], view.CurrentPrice(ticker);
      Marks(positions, view)(ticker) ==
      if state.quantity > 0.0
      then Times(state.quantity, if price.Some? then price.value else state.averageCost)
      else 0.0
  {
    hide Times, MarketView.CurrentPrice;
  }

  /** What one run mutates: the engine's local variables and the result under construction. */
  class Ledger {
    var cash: real
    var positions: map<Ticker, PositionState>
    var openLots: map<Ticker, Lot>
    var fills: seq<Fill>
    var closedTrades: seq<ClosedTrade>
    var unfilled: seq<Unfilled>

    constructor (initialCash: real)
      ensures Contents() == Book(initialCash, map[], map[], [], [], [])
    {
      cash := initialCash;
      positions, openLots := map[], map[];
      fills, closedTrades, unfilled := [], [], [];
    }

    function Contents(): Book
      reads this
    {
      Book(cash, positions, openLots, fills, closedTrades, unfilled)
    }

    method FillBuy(rules: Rules, signal: Signal, bar: PriceBar, now: int) returns (failure: Option<Error>)
      modifies this
      ensures Follows(Backtest.FillBuy(rules, signal, bar, now, old(Contents())), failure, Contents())
    {
      hide Times, Over, Size;
      var price := rules.config.SlippagePrice(bar.open, Buy);
      var slippageCost := Abs(price - bar.open);
      var state := Held(positions, signal.ticker);
      var estimate := cash + Times(state.quantity, price);
      var quantity := Size(rules.sizer, signal, price, Max(estimate, cash), cash);
      if quantity <= 0.0 {
        unfilled := unfilled + [Unfilled(signal.ticker, Buy, now, SizedToZero)];
        return None;
      }
      var commission := rules.config.CommissionOn(Times(quantity, price));
      if Times(quantity, price) + commission > cash {
        var unitCost := Times(price, rules.config.CostFactor());
        if unitCost == 0.0 {
          return Some(DivisionByZero);
        }
        quantity := Max(0.0, Over(cash, unitCost));
        commission := rules.config.CommissionOn(Times(quantity, price));
      }
      if quantity <= 0.0 {
        return None;
      }
      var applied := ApplyBuy(rules.precision, state, quantity, price, commission);
      if applied.Err? {
        return Some(applied.error);
      }
      var effect := applied.value;
      positions := positions[signal.ticker := effect.state];
      cash := cash + effect.cashDelta;
      var openedAt := if signal.ticker in openLots then openLots[signal.ticker].openedAt else now;
      openLots := openLots[signal.ticker := Lot(effect.state.quantity, effect.state.averageCost, openedAt)];
      fills := fills + [Fill(
        signal.ticker, Buy, rules.R(quantity), rules.R(price), rules.R(commission),
        rules.R(Times(slippageCost, quantity)), now, 0.0, signal.reason)];
      return None;
    }

    method FillSell(rules: Rules, signal: Signal, bar: PriceBar, now: int) returns (failure: Option<Error>)
      modifies this
      ensures Follows(Backtest.FillSell(rules, signal, bar, now, old(Contents())), failure, Contents())
    {
      hide Times, Over;
      var price := rules.config.SlippagePrice(bar.open, Sell);
      var slippageCost := Abs(price - bar.open);
      var state := Held(positions, signal.ticker);
      if state.quantity <= 0.0 {
        unfilled := unfilled + [Unfilled(signal.ticker, Sell, now, NothingToSell)];
        return None;
      }
      var quantity := SellQuantity(state.quantity, signal.strength);
      if quantity <= 0.0 {
        return None;
      }
      var commission := rules.config.CommissionOn(Times(quantity, price));
      var applied := ApplySell(rules.precision, state, quantity, price, commission);
      if applied.Err? {
        return Some(applied.error);
      }
      var effect := applied.value;
      positions := positions[signal.ticker := effect.state];
      cash := cash + effect.cashDelta;
      if signal.ticker in openLots {
        var lot := openLots[signal.ticker];
        var returnPct := 0.0;
        if lot.entryPrice > 0.0 {
          TimesSign(lot.entryPrice, quantity);
          returnPct := rules.R(Over(Times(quantity, price - lot.entryPrice), Times(lot.entryPrice, quantity)));
        }
        closedTrades := closedTrades + [ClosedTrade(
          signal.ticker, rules.R(quantity), rules.R(lot.entryPrice), rules.R(price),
          lot.openedAt, now, rules.R(effect.realizedPnl), returnPct)];
        if effect.state.quantity <= 0.0 {
          openLots := openLots - {signal.ticker};
        } else {
          openLots := openLots[signal.ticker := Lot(effect.state.quantity, lot.entryPrice, lot.openedAt)];
        }
      }
      fills := fills + [Fill(
        signal.ticker, Sell, rules.R(quantity), rules.R(price), rules.R(commission),
        rules.R(Times(slippageCost, quantity)), now, rules.R(effect.realizedPnl), signal.reason)];
      return None;
    }

    method ExecutePending(
      rules: Rules, pending: seq<Order>, history: History, now: int)
      returns (failure: Option<Error>)
      modifies this
      ensures Follows(FillAll(rules, pending, history, now, old(Contents())), failure, Contents())
    {
      for i := 0 to |pending|
        invariant FillAll(rules, pending[..i], history, now, old(Contents())) == Ok(Contents())
      {
        hide Backtest.FillBuy, Backtest.FillSell;
        var signal := pending[i].signal;
        var before, done := pending[..i], pending[..i + 1];
        assert done[..|done| - 1] == before && done[|done| - 1] == pending[i];
        ghost var step := FillOrder(rules, pending[i], history, now, Contents());
        assert FillAll(rules, done, history, now, old(Contents())) == step;
        var found := BarAt(history, signal.ticker, now);
        failure := None;
        if found.None? {
          unfilled := unfilled + [Unfilled(signal.ticker, signal.action, pending[i].queuedAt, DidNotTrade)];
        } else if signal.action == Buy {
          failure := FillBuy(rules, signal, found.value, now);
        } else if signal.action == Sell {
          failure := FillSell(rules, signal, found.value, now);
        }
        assert Follows(step, failure, Contents());
        if failure.Some? {
          FailurePropagates(rules, pending, i + 1, history, now, old(Contents()));
          return failure;
        }
      }
      assert pending[..|pending|] == pending;
      return None;
    }

    method Equity(view: MarketView) returns (equity: real)
      ensures equity == Backtest.Equity(cash, positions, view)
    {
      hide Times, SumOver, Sorted, MarkedValue, MarketView.CurrentPrice;
      var value := 0.0;
      var tickers := Sorted(positions.Keys);
      ghost var left, marks := positions.Keys, Marks(positions, view);
      for i := 0 to |tickers|
        invariant tickers[i..] == Sorted(left) && left <= positions.Keys
        invariant value + SumOver(left, marks) == SumOver(positions.Keys, marks)
      {
        SortedStep(left, marks);
        var ticker := tickers[i];
        assert ticker == tickers[i..][0] && tickers[i + 1..] == tickers[i..][1..];
        var state := positions[ticker];
        if state.quantity > 0.0 {
          var price := view.CurrentPrice(ticker);
          value := value + Times(state.quantity, if price.Some? then price.value else state.averageCost);
        }
        MarkOf(positions, view, ticker);
        left := left - {ticker};
      }
      NothingLeft(left, marks);
      equity := cash + value;
    }
  }

  lemma NothingRun<S>(rules: Rules, strategy: Strategy<S>, history: History)
    ensures RunThrough(rules, strategy, history, []) == Ok(Start(rules, strategy))
  {
  }

  lemma RunStep<S>(rules: Rules, strategy: Strategy<S>, history: History, timeline: seq<int>, i: int)
    requires 0 <= i < |timeline|
    ensures var before := RunThrough(rules, strategy, history, timeline[..i]);
      RunThrough(rules, strategy, history, timeline[..i + 1]) ==
      if before.Ok? then Step(rules, strategy, history, timeline[i], before.value) else before
  {
    var done := timeline[..i + 1];
    assert done[..|done| - 1] == timeline[..i] && done[|done| - 1] == timeline[i];
  }

  lemma {:induction false} FailurePropagates(
    rules: Rules, orders: seq<Order>, i: int, history: History, now: int, book: Book)
    requires 0 <= i <= |orders| && FillAll(rules, orders[..i], history, now, book).Err?
    ensures FillAll(rules, orders, history, now, book) == Err(FillAll(rules, orders[..i], history, now, book).error)
  {
    if i == |orders| {
      assert orders[..i] == orders;
    } else {
      var front := orders[..|orders| - 1];
      assert front[..i] == orders[..i];
      FailurePropagates(rules, front, i, history, now, book);
    }
  }

  lemma {:induction false} RunFailurePropagates<S>(
    rules: Rules, strategy: Strategy<S>, history: History, timeline: seq<int>, i: int)
    requires 0 <= i <= |timeline| && RunThrough(rules, strategy, history, timeline[..i]).Err?
    ensures RunThrough(rules, strategy, history, timeline) ==
            Err(RunThrough(rules, strategy, history, timeline[..i]).error)
  {
    if i == |timeline| {
      assert timeline[..i] == timeline;
    } else {
      var front := timeline[..|timeline| - 1];
      assert front[..i] == timeline[..i];
      RunFailurePropagates(rules, strategy, history, front, i);
    }
  }

  class Engine {
    const rules: Rules

    constructor (config: Config, sizer: Sizer)
      ensures rules == Rules(SixPlaces, config, sizer)
    {
      rules := Rules(SixPlaces, config, sizer);
    }

    method Run<S>(strategy: Strategy<S>, bars: History, start: Option<int>, end: Option<int>)
      returns (result: Result<BacktestResult>)
      ensures result == Backtest.Run(rules, strategy, bars, start, end)
    {
      hide RunThrough, Step, Prepare, Timeline;
      var history := Prepare(bars);
      var timeline := Timeline(history, start, end);
      if timeline == [] {
        return Ok(NOTHING_RUN);
      }
      NothingRun(rules, strategy, history);
      var ledger := new Ledger(rules.config.initialCash);
      var memory := strategy.start;
      var pending: seq<Order> := [];
      var curve: seq<EquityPoint> := [];
      for i := 0 to |timeline|
        invariant RunThrough(rules, strategy, history, timeline[..i]) ==
                  Ok(State(ledger.Contents(), memory, pending, curve))
      {
        RunStep(rules, strategy, history, timeline, i);
        var failure, point;
        failure, memory, pending, point := Advance(strategy, history, timeline[i], ledger, memory, pending, curve);
        if failure.Some? {
          RunFailurePropagates(rules, strategy, history, timeline, i + 1);
          return Err(failure.value);
        }
        curve := curve + [point];
      }
      assert timeline[..|timeline|] == timeline;
      ledger.unfilled := ledger.unfilled + LeftOver(pending);
      return Ok(BacktestResult(
        Some((timeline[0], timeline[|timeline| - 1])), curve, ledger.fills, ledger.closedTrades, ledger.unfilled));
    }

    /** The body of the loop over the timeline. */
    method Advance<S>(
      strategy: Strategy<S>, history: History, now: int, ledger: Ledger, memory: S, pending: seq<Order>,
      ghost curve: seq<EquityPoint>)
      returns (failure: Option<Error>, next: S, queued: seq<Order>, point: EquityPoint)
      modifies ledger
      ensures var spec := Step(rules, strategy, history, now, State(old(ledger.Contents()), memory, pending, curve));
        if spec.Err? then failure == Some(spec.error)
        else failure == None && spec.value == State(ledger.Contents(), next, queued, curve + [point])
    {
      hide FillAll, Backtest.Equity;
      failure := ledger.ExecutePending(rules, pending, history, now);
      if failure.Some? {
        return failure, memory, pending, EquityPoint(now, 0.0, 0.0, 0.0);
      }
      var view := ViewAt(history, now);
      var equity := ledger.Equity(view);
      var (after, signals) := strategy.onBar(memory, view);
      next := after;
      queued := QueueSignals(signals, now);
      point := EquityPoint(now, rules.R(ledger.cash), rules.R(equity - ledger.cash), rules.R(equity));
    }

    method QueueSignals(signals: seq<Signal>, now: int) returns (pending: seq<Order>)
      ensures pending == Queue(signals, now)
    {
      pending := [];
      for i := 0 to |signals|
        invariant pending == Queue(signals[..i], now)
      {
        assert signals[..i + 1][..i] == signals[..i];
        if signals[i].action != Hold {
          pending := pending + [Order(signals[i], now)];
        }
      }
      assert signals[..|signals|] == signals;
    }
  }
}
