/** The backtest engine as functions on values (backtesting/engine.py, schemas.py, sizing.py).
    `BacktestEngine.dfy` runs the same steps by updating state in place and is proved against this. */
module Backtest {
  import opened Wrappers
  import opened Rounding
  import opened Accounting
  import opened Ordering
  import opened MarketData

  // ----- value types -----

  datatype Action = Buy | Sell | Hold

  datatype Signal = Signal(ticker: Ticker, action: Action, strength: real, reason: string)

  datatype Order = Order(signal: Signal, queuedAt: int)

  datatype Lot = Lot(quantity: real, entryPrice: real, openedAt: int)

  datatype Fill = Fill(
    ticker: Ticker, action: Action, quantity: real, price: real, commission: real, slippage: real,
    timestamp: int, realizedPnl: real, reason: string)

  datatype ClosedTrade = ClosedTrade(
    ticker: Ticker, quantity: real, entryPrice: real, exitPrice: real,
    openedAt: int, closedAt: int, pnl: real, returnPct: real)

  datatype Reason = NoBarToFillAgainst | DidNotTrade | SizedToZero | NothingToSell

  datatype Unfilled = Unfilled(ticker: Ticker, action: Action, queuedAt: int, reason: Reason)

  datatype EquityPoint = EquityPoint(timestamp: int, cash: real, positionsValue: real, equity: real)

  // ----- costs -----

  const FLOOR_PRICE := 0.000000001

  datatype Config = Config(initialCash: real, commissionBps: real, slippageBps: real) {

    function CommissionOn(notional: real): real {
      Times(Abs(notional), commissionBps) / 10000.0
    }

    function SlippagePrice(price: real, action: Action): real {
      var adjustment := Times(price, slippageBps) / 10000.0;
      match action
      case Buy => price + adjustment
      case Sell => Max(price - adjustment, FLOOR_PRICE)
      case Hold => price
    }

    /** One unit of notional with its commission. */
    function CostFactor(): real {
      1.0 + commissionBps / 10000.0
    }
  }

  // ----- sizers -----

  datatype SizingRule =
    | FixedFraction(fraction: real)
    | FixedQuantity(units: real)
    | RiskBased(riskPerTrade: real, stopDistance: real)
    | Custom(size: (Signal, real, real, real) -> real)
  {
    /** What the sizers' constructors insist on. */
    predicate Valid() {
      match this
      case FixedFraction(fraction) => 0.0 < fraction <= 1.0
      case FixedQuantity(units) => units > 0.0
      case RiskBased(risk, distance) => 0.0 < risk <= 1.0 && distance > 0.0
      case Custom(_) => true
    }

    predicate Shipped() {
      !Custom?
    }
  }

  type Sizer = s: SizingRule | s.Valid() witness FixedFraction(0.1)

  /** Units to buy so that a stop-out costs the given share of equity (quant/performance/risk.py). */
  function PositionSize(equity: real, risk: real, entry: real, stop: real): real
    requires entry != stop
  {
    Over(Times(equity, risk), Abs(entry - stop))
  }

  function Size(sizer: Sizer, signal: Signal, price: real, equity: real, cash: real): real {
    match sizer
    case FixedFraction(fraction) =>
      if price <= 0.0 then 0.0
      else Max(0.0, Over(Min(Times(Times(equity, fraction), signal.strength), cash), price))
    case FixedQuantity(units) =>
      Min(Times(units, signal.strength), if price > 0.0 then Over(cash, price) else 0.0)
    case RiskBased(risk, distance) =>
      if price <= 0.0 then 0.0
      else
        StopBelowPrice(price, distance);
        var quantity := PositionSize(equity, Times(risk, signal.strength), price, Times(price, 1.0 - distance));
        Max(0.0, Min(quantity, Over(cash, price)))
    case Custom(size) => size(signal, price, equity, cash)
  }

  lemma StopBelowPrice(price: real, distance: real)
    requires price > 0.0 && distance > 0.0
    ensures Times(price, 1.0 - distance) < price
  {
    TimesDistributes(price, 1.0, distance);
    TimesSign(price, distance);
  }

  // ----- the book an order fills into -----

  datatype Book = Book(
    cash: real,
    positions: map<Ticker, PositionState>,
    lots: map<Ticker, Lot>,
    fills: seq<Fill>,
    closed: seq<ClosedTrade>,
    unfilled: seq<Unfilled>)

  datatype Rules = Rules(precision: Precision, config: Config, sizer: Sizer) {
    function R(x: real): real {
      Round(precision, x)
    }
  }

  function Held(positions: map<Ticker, PositionState>, ticker: Ticker): PositionState {
    if ticker in positions then positions[ticker] else FLAT
  }

  function Reject(book: Book, ticker: Ticker, action: Action, queuedAt: int, reason: Reason): Book {
    book.(unfilled := book.unfilled + [Unfilled(ticker, action, queuedAt, reason)])
  }

  /** Outcome of sizing a buy: no quantity wanted, nothing affordable, or a quantity. */
  datatype Sizing = Refused | Dropped | Sized(quantity: real)

  function SizeBuy(rules: Rules, signal: Signal, price: real, cash: real, held: real): Result<Sizing> {
    var wanted := Size(rules.sizer, signal, price, Max(cash + Times(held, price), cash), cash);
    if wanted <= 0.0 then Ok(Refused)
    else if Times(wanted, price) + rules.config.CommissionOn(Times(wanted, price)) <= cash then Ok(Sized(wanted))
    else
      var unitCost := Times(price, rules.config.CostFactor());
      if unitCost == 0.0 then Err(DivisionByZero)
      else
        var trimmed := Max(0.0, Over(cash, unitCost));
        if trimmed <= 0.0 then Ok(Dropped) else Ok(Sized(trimmed))
  }

  function Bought(rules: Rules, signal: Signal, open: real, price: real, quantity: real, now: int, book: Book)
    : Result<Book>
  {
    var commission := rules.config.CommissionOn(Times(quantity, price));
    var effect :- ApplyBuy(rules.precision, Held(book.positions, signal.ticker), quantity, price, commission);
    var openedAt := if signal.ticker in book.lots then book.lots[signal.ticker].openedAt else now;
    var fill := Fill(
      signal.ticker, Buy, rules.R(quantity), rules.R(price), rules.R(commission),
      rules.R(Times(Abs(price - open), quantity)), now, 0.0, signal.reason);
    Ok(book.(
      cash := book.cash + effect.cashDelta,
      positions := book.positions[signal.ticker := effect.state],
      lots := book.lots[signal.ticker := Lot(effect.state.quantity, effect.state.averageCost, openedAt)],
      fills := book.fills + [fill]))
  }

  function FillBuy(rules: Rules, signal: Signal, bar: PriceBar, now: int, book: Book): Result<Book> {
    var price := rules.config.SlippagePrice(bar.open, Buy);
    var sizing :- SizeBuy(rules, signal, price, book.cash, Held(book.positions, signal.ticker).quantity);
    match sizing
    case Refused => Ok(Reject(book, signal.ticker, Buy, now, SizedToZero))
    case Dropped => Ok(book)
    case Sized(quantity) => Bought(rules, signal, bar.open, price, quantity, now, book)
  }

  function SellQuantity(held: real, strength: real): real {
    Min(held, Times(held, Max(0.0, Min(1.0, strength))))
  }

  function CloseLot(rules: Rules, ticker: Ticker, price: real, quantity: real, now: int, book: Book, effect: Effect)
    : Book
    requires quantity > 0.0
  {
    if ticker !in book.lots then book
    else
      var lot := book.lots[ticker];
      var returnPct :=
        if lot.entryPrice > 0.0 then
          TimesSign(lot.entryPrice, quantity);
          rules.R(Over(Times(quantity, price - lot.entryPrice), Times(lot.entryPrice, quantity)))
        else 0.0;
      var trade := ClosedTrade(
        ticker, rules.R(quantity), rules.R(lot.entryPrice), rules.R(price),
        lot.openedAt, now, rules.R(effect.realizedPnl), returnPct);
      book.(
        closed := book.closed + [trade],
        lots := if effect.state.quantity <= 0.0 then book.lots - {ticker}
                else book.lots[ticker := Lot(effect.state.quantity, lot.entryPrice, lot.openedAt)])
  }

  function Sold(rules: Rules, signal: Signal, open: real, price: real, quantity: real, now: int, book: Book)
    : Result<Book>
  {
    var commission := rules.config.CommissionOn(Times(quantity, price));
    var effect :- ApplySell(rules.precision, Held(book.positions, signal.ticker), quantity, price, commission);
    var fill := Fill(
      signal.ticker, Sell, rules.R(quantity), rules.R(price), rules.R(commission),
      rules.R(Times(Abs(price - open), quantity)), now, rules.R(effect.realizedPnl), signal.reason);
    var traded := CloseLot(rules, signal.ticker, price, quantity, now, book, effect);
    Ok(traded.(
      cash := book.cash + effect.cashDelta,
      positions := book.positions[signal.ticker := effect.state],
      fills := book.fills + [fill]))
  }

  function FillSell(rules: Rules, signal: Signal, bar: PriceBar, now: int, book: Book): Result<Book> {
    var price := rules.config.SlippagePrice(bar.open, Sell);
    var held := Held(book.positions, signal.ticker).quantity;
    if held <= 0.0 then Ok(Reject(book, signal.ticker, Sell, now, NothingToSell))
    else
      var quantity := SellQuantity(held, signal.strength);
      if quantity <= 0.0 then Ok(book)
      else Sold(rules, signal, bar.open, price, quantity, now, book)
  }

  function FillOrder(rules: Rules, order: Order, history: History, now: int, book: Book): Result<Book> {
    var signal := order.signal;
    match BarAt(history, signal.ticker, now)
    case None => Ok(Reject(book, signal.ticker, signal.action, order.queuedAt, DidNotTrade))
    case Some(bar) =>
      match signal.action
      case Buy => FillBuy(rules, signal, bar, now, book)
      case Sell => FillSell(rules, signal, bar, now, book)
      case Hold => Ok(book)
  }

  function FillAll(rules: Rules, orders: seq<Order>, history: History, now: int, book: Book): Result<Book> {
    if orders == [] then Ok(book) else
      var before :- FillAll(rules, orders[..|orders| - 1], history, now, book);
      FillOrder(rules, orders[|orders| - 1], history, now, before)
  }

  // ----- one step, and a run -----

  datatype Strategy<!S> = Strategy(start: S, onBar: (S, MarketView) -> (S, seq<Signal>))

  datatype State<S> = State(book: Book, strategy: S, pending: seq<Order>, curve: seq<EquityPoint>)

  function Queue(signals: seq<Signal>, now: int): seq<Order> {
    if signals == [] then [] else
      var front, last := signals[..|signals| - 1], signals[|signals| - 1];
      if last.action == Hold then Queue(front, now) else Queue(front, now) + [Order(last, now)]
  }

  /** A position's value at the close last seen, or at cost when no price was ever seen. */
  function MarkedValue(positions: map<Ticker, PositionState>, view: MarketView, ticker: Ticker): real {
    var state := Held(positions, ticker);
    if state.quantity <= 0.0 then 0.0
    else
      match view.CurrentPrice(ticker)
      case Some(price) => Times(state.quantity, price)
      case None => Times(state.quantity, state.averageCost)
  }

  ghost function Marks(positions: map<Ticker, PositionState>, view: MarketView): int -> real {
    ticker => MarkedValue(positions, view, ticker)
  }

  ghost function Equity(cash: real, positions: map<Ticker, PositionState>, view: MarketView): real {
    cash + SumOver(positions.Keys, Marks(positions, view))
  }

  ghost function Point(rules: Rules, book: Book, view: MarketView): EquityPoint {
    var equity := Equity(book.cash, book.positions, view);
    EquityPoint(view.timestamp, rules.R(book.cash), rules.R(equity - book.cash), rules.R(equity))
  }

  ghost function Start<S>(rules: Rules, strategy: Strategy<S>): State<S> {
    State(Book(rules.config.initialCash, map[], map[], [], [], []), strategy.start, [], [])
  }

  /** Fill yesterday's orders at this bar's open, show the strategy the close, queue what it wants,
      and mark to market. */
  ghost function Step<S>(rules: Rules, strategy: Strategy<S>, history: History, now: int, st: State<S>)
    : Result<State<S>>
  {
    var book :- FillAll(rules, st.pending, history, now, st.book);
    var view := ViewAt(history, now);
    var (next, signals) := strategy.onBar(st.strategy, view);
    Ok(State(book, next, Queue(signals, now), st.curve + [Point(rules, book, view)]))
  }

  ghost function RunThrough<S>(rules: Rules, strategy: Strategy<S>, history: History, timeline: seq<int>)
    : Result<State<S>>
  {
    if timeline == [] then Ok(Start(rules, strategy)) else
      var before :- RunThrough(rules, strategy, history, timeline[..|timeline| - 1]);
      Step(rules, strategy, history, timeline[|timeline| - 1], before)
  }

  lemma EarlierRunsToo<S>(rules: Rules, strategy: Strategy<S>, history: History, timeline: seq<int>)
    requires timeline != [] && RunThrough(rules, strategy, history, timeline).Ok?
    ensures RunThrough(rules, strategy, history, timeline[..|timeline| - 1]).Ok?
  {
    hide Step;
  }

  function Prepare(bars: History): History {
    map ticker | ticker in bars && bars[ticker] != [] :: SortBars(bars[ticker])
  }

  function Stamps(h: History): set<int> {
    set ticker, i | ticker in h && 0 <= i < |h[ticker]| :: h[ticker][i].ts
  }

  predicate InWindow(ts: int, start: Option<int>, end: Option<int>) {
    (start.Some? ==> ts >= start.value) && (end.Some? ==> ts <= end.value)
  }

  function StampsWithin(h: History, start: Option<int>, end: Option<int>): set<int> {
    set ts | ts in Stamps(h) && InWindow(ts, start, end)
  }

  function Timeline(h: History, start: Option<int>, end: Option<int>): seq<int> {
    Sorted(StampsWithin(h, start, end))
  }

  datatype BacktestResult = BacktestResult(
    span: Option<(int, int)>,
    curve: seq<EquityPoint>,
    fills: seq<Fill>,
    closed: seq<ClosedTrade>,
    unfilled: seq<Unfilled>)

  const NOTHING_RUN := BacktestResult(None, [], [], [], [])

  /** Orders still queued after the last bar can never fill. */
  function LeftOver(pending: seq<Order>): seq<Unfilled> {
    seq(|pending|, i requires 0 <= i < |pending| =>
      Unfilled(pending[i].signal.ticker, pending[i].signal.action, pending[i].queuedAt, NoBarToFillAgainst))
  }

  ghost function Finish<S>(timeline: seq<int>, st: State<S>): BacktestResult
    requires timeline != []
  {
    BacktestResult(
      Some((timeline[0], timeline[|timeline| - 1])),
      st.curve, st.book.fills, st.book.closed, st.book.unfilled + LeftOver(st.pending))
  }

  ghost function Run<S>(rules: Rules, strategy: Strategy<S>, bars: History, start: Option<int>, end: Option<int>)
    : Result<BacktestResult>
  {
    var history := Prepare(bars);
    var timeline := Timeline(history, start, end);
    if timeline == [] then Ok(NOTHING_RUN) else
      var final :- RunThrough(rules, strategy, history, timeline);
      Ok(Finish(timeline, final))
  }
}
