/** The two shipped strategies (backtesting/strategy.py): objects that remember a set of tickers, proved
    against functions of that set, and what they do over whole runs. */
module Strategies {
  import opened Wrappers
  import opened Rounding
  import opened MarketData
  import opened Backtest
  import opened BacktestOrders
  import opened Indicators

  /** What a strategy remembers, and everything it has signalled. */
  datatype Turn = Turn(held: set<Ticker>, signals: seq<Signal>)

  function Universe(tickers: Option<seq<Ticker>>, view: MarketView): seq<Ticker> {
    if tickers.Some? then tickers.value else view.Tickers()
  }

  /** The actions signalled for one ticker, in order. */
  function ActionsOf(signals: seq<Signal>, ticker: Ticker): seq<Action> {
    if signals == [] then [] else
      var front, last := signals[..|signals| - 1], signals[|signals| - 1];
      if last.ticker == ticker then ActionsOf(front, ticker) + [last.action] else ActionsOf(front, ticker)
  }

  lemma ActionsSnoc(signals: seq<Signal>, last: Signal, ticker: Ticker)
    ensures ActionsOf(signals + [last], ticker) ==
            if last.ticker == ticker then ActionsOf(signals, ticker) + [last.action] else ActionsOf(signals, ticker)
  {
    assert (signals + [last])[..|signals|] == signals;
  }

  // ----- moving-average crossover -----

  datatype CrossRule = CrossRule(fast: nat, slow: nat, tickers: Option<seq<Ticker>>) {
    predicate Valid() {
      0 < fast < slow
    }
  }

  type Cross = rule: CrossRule | rule.Valid() witness CrossRule(10, 30, None)

  /** The ticker printed a bar now and has enough history. */
  predicate Judged(view: MarketView, ticker: Ticker, slow: int) {
    view.IsCurrent(ticker) && |view.Closes(ticker)| >= slow
  }

  /** Is the mean of the last `fast` closes above the mean of the last `slow`? */
  function Verdict(rule: Cross, view: MarketView, ticker: Ticker): Option<bool> {
    var closes := view.Closes(ticker);
    if !Judged(view, ticker, rule.slow) then None
    else Some(Mean(closes, |closes| - rule.fast, |closes|) > Mean(closes, |closes| - rule.slow, |closes|))
  }

  function Visit(turn: Turn, ticker: Ticker, verdict: Option<bool>): Turn {
    if verdict == Some(true) && ticker !in turn.held then
      Turn(turn.held + {ticker}, turn.signals + [Signal(ticker, Buy, 1.0, "crossed above")])
    else if verdict == Some(false) && ticker in turn.held then
      Turn(turn.held - {ticker}, turn.signals + [Signal(ticker, Sell, 1.0, "crossed below")])
    else turn
  }

  function Sweep(rule: Cross, turn: Turn, universe: seq<Ticker>, view: MarketView): Turn {
    if universe == [] then turn else
      var last := universe[|universe| - 1];
      Visit(Sweep(rule, turn, universe[..|universe| - 1], view), last, Verdict(rule, view, last))
  }

  function CrossOnBar(rule: Cross, long: set<Ticker>, view: MarketView): (set<Ticker>, seq<Signal>) {
    var turn := Sweep(rule, Turn(long, []), Universe(rule.tickers, view), view);
    (turn.held, turn.signals)
  }

  function CrossStrategy(rule: Cross): Strategy<set<Ticker>> {
    Strategy({}, (long, view) => CrossOnBar(rule, long, view))
  }

  class MovingAverageCross {
    const fast: int
    const slow: int
    const tickers: Option<seq<Ticker>>
    var long: set<Ticker>

    constructor (fast: int, slow: int, tickers: Option<seq<Ticker>>)
      requires fast < slow
      ensures long == {} && this.fast == fast && this.slow == slow && this.tickers == tickers
    {
      this.fast, this.slow, this.tickers, long := fast, slow, tickers, {};
    }

    method OnStart()
      modifies this
      ensures long == {}
    {
      long := {};
    }

    /** Nothing is returned when an average refuses its period, which a fast window of zero or less makes
        it do as soon as one ticker has enough history. */
    method OnBar(view: MarketView) returns (signals: Option<seq<Signal>>)
      requires fast < slow
      modifies this
      ensures fast > 0 ==>
                signals.Some? && (long, signals.value) == CrossOnBar(CrossRule(fast, slow, tickers), old(long), view)
      ensures fast <= 0 ==>
                && long == old(long) && (signals.Some? ==> signals.value == [])
                && (signals.None? <==> exists ticker :: ticker in Universe(tickers, view) && Judged(view, ticker, slow))
    {
      hide Over, SumRange, Universe;
      var universe := Universe(tickers, view);
      var given: seq<Signal> := [];
      for i := 0 to |universe|
        invariant fast > 0 ==>
                    Turn(long, given) == Sweep(CrossRule(fast, slow, tickers), Turn(old(long), []), universe[..i], view)
        invariant fast <= 0 ==> long == old(long) && given == [] && forall j | 0 <= j < i ::
          !Judged(view, universe[j], slow)
      {
        var ticker := universe[i];
        assert universe[..i + 1] == universe[..i] + [ticker];
        var closes := view.Closes(ticker);
        if view.IsCurrent(ticker) && |closes| >= slow {
          var fastAverage := SmaRolling(closes, fast);
          if fastAverage.None? {
            assert ticker in universe && Judged(view, ticker, slow);
            return None;
          }
          var slowAverage := SmaRolling(closes, slow);
          var fastValue, slowValue := fastAverage.value[|closes| - 1], slowAverage.value[|closes| - 1];
          ghost var verdict := Verdict(CrossRule(fast, slow, tickers), view, ticker);
          assert verdict == Some(fastValue.value > slowValue.value);
          if fastValue.value > slowValue.value && ticker !in long {
            long := long + {ticker};
            given := given + [Signal(ticker, Buy, 1.0, "crossed above")];
          } else if fastValue.value <= slowValue.value && ticker in long {
            long := long - {ticker};
            given := given + [Signal(ticker, Sell, 1.0, "crossed below")];
          }
        }
      }
      assert universe[..|universe|] == universe;
      return Some(given);
    }
  }

  /** Everything the strategy has signalled over a sequence of views, and what it holds after them. */
  function CrossAfter(rule: Cross, views: seq<MarketView>): Turn {
    if views == [] then Turn({}, []) else
      var before := CrossAfter(rule, views[..|views| - 1]);
      var (long, signals) := CrossOnBar(rule, before.held, views[|views| - 1]);
      Turn(long, before.signals + signals)
  }

  /** The verdict at the last view in which the ticker was judged. */
  function LastVerdict(rule: Cross, views: seq<MarketView>, ticker: Ticker): Option<bool> {
    if views == [] then None else
      var view := views[|views| - 1];
      if ticker in Universe(rule.tickers, view) && Verdict(rule, view, ticker).Some? then Verdict(rule, view, ticker)
      else LastVerdict(rule, views[..|views| - 1], ticker)
  }

  /** Buy, sell, buy, sell, ... */
  ghost predicate Alternating(actions: seq<Action>) {
    forall i | 0 <= i < |actions| :: actions[i] == if i % 2 == 0 then Buy else Sell
  }

  ghost predicate InTurn(turn: Turn, ticker: Ticker) {
    var actions := ActionsOf(turn.signals, ticker);
    Alternating(actions) && (ticker in turn.held <==> |actions| % 2 == 1)
  }

  lemma NextInTurn(actions: seq<Action>, next: Action)
    requires Alternating(actions) && next == if |actions| % 2 == 0 then Buy else Sell
    ensures Alternating(actions + [next])
    ensures |actions + [next]| % 2 == 1 <==> next == Buy
  {
  }

  lemma VisitKeepsTurn(turn: Turn, visited: Ticker, verdict: Option<bool>, ticker: Ticker)
    requires InTurn(turn, ticker)
    ensures InTurn(Visit(turn, visited, verdict), ticker)
  {
    hide ActionsOf, Alternating;
    var after := Visit(turn, visited, verdict);
    if after.signals != turn.signals {
      var last := after.signals[|turn.signals|];
      ActionsSnoc(turn.signals, last, ticker);
      if visited == ticker {
        NextInTurn(ActionsOf(turn.signals, ticker), last.action);
      }
    }
  }

  lemma {:induction false} SweepKeepsTurn(
    rule: Cross, turn: Turn, universe: seq<Ticker>, view: MarketView, ticker: Ticker)
    requires InTurn(turn, ticker)
    ensures InTurn(Sweep(rule, turn, universe, view), ticker)
    decreases |universe|
  {
    hide InTurn, Visit, Verdict;
    if universe != [] {
      var front, last := universe[..|universe| - 1], universe[|universe| - 1];
      SweepKeepsTurn(rule, turn, front, view, ticker);
      VisitKeepsTurn(Sweep(rule, turn, front, view), last, Verdict(rule, view, last), ticker);
    }
  }

  /** A sweep leaves a judged ticker held exactly when its verdict says so, however often it is listed. */
  lemma {:induction false} SweepHolds(rule: Cross, turn: Turn, universe: seq<Ticker>, view: MarketView, ticker: Ticker)
    ensures ticker in Sweep(rule, turn, universe, view).held <==>
            if ticker in universe && Verdict(rule, view, ticker).Some? then Verdict(rule, view, ticker).value
            else ticker in turn.held
    decreases |universe|
  {
    hide Verdict;
    if universe != [] {
      SweepHolds(rule, turn, universe[..|universe| - 1], view, ticker);
    }
  }

  /** Earlier signals do not influence a sweep; it only appends. */
  lemma {:induction false} SweepAppends(
    rule: Cross, held: set<Ticker>, signals: seq<Signal>, universe: seq<Ticker>, view: MarketView)
    ensures var bare, full := Sweep(rule, Turn(held, []), universe, view),
      Sweep(rule, Turn(held, signals), universe, view);
      full.held == bare.held && full.signals == signals + bare.signals
    decreases |universe|
  {
    hide Verdict;
    if universe != [] {
      SweepAppends(rule, held, signals, universe[..|universe| - 1], view);
    }
  }

  /** Over every run: a ticker is held exactly when the fast average was above the slow one the last time
      it was judged; and what was signalled for it alternates, starting with a buy, ending with a buy
      exactly while it is held. */
  lemma {:induction false} CrossTracksTrend(rule: Cross, views: seq<MarketView>, ticker: Ticker)
    ensures var turn := CrossAfter(rule, views);
      && (ticker in turn.held <==> LastVerdict(rule, views, ticker) == Some(true))
      && Alternating(ActionsOf(turn.signals, ticker))
      && (ticker in turn.held <==> |ActionsOf(turn.signals, ticker)| % 2 == 1)
    decreases |views|
  {
    hide Sweep, Verdict, Universe;
    if views != [] {
      var front, view := views[..|views| - 1], views[|views| - 1];
      CrossTracksTrend(rule, front, ticker);
      var before := CrossAfter(rule, front);
      var universe := Universe(rule.tickers, view);
      SweepHolds(rule, Turn(before.held, []), universe, view, ticker);
      SweepAppends(rule, before.held, before.signals, universe, view);
      SweepKeepsTurn(rule, before, universe, view, ticker);
    }
  }

  // ----- the crossover inside the engine -----

  function ViewsOf(history: History, timeline: seq<int>): seq<MarketView> {
    seq(|timeline|, i requires 0 <= i < |timeline| => ViewAt(history, timeline[i]))
  }

  function SignalsOf(orders: seq<Order>): seq<Signal> {
    seq(|orders|, i requires 0 <= i < |orders| => orders[i].signal)
  }

  /** No signal is a hold, and every signal is at full strength. */
  ghost predicate Decisive(signals: seq<Signal>) {
    forall i | 0 <= i < |signals| :: signals[i].action != Hold && signals[i].strength == 1.0
  }

  lemma {:induction false} QueueKeepsAll(signals: seq<Signal>, now: int)
    requires Decisive(signals)
    ensures SignalsOf(Queue(signals, now)) == signals
  {
    if signals != [] {
      QueueKeepsAll(signals[..|signals| - 1], now);
    }
  }

  lemma VisitIsDecisive(turn: Turn, ticker: Ticker, verdict: Option<bool>)
    requires Decisive(turn.signals)
    ensures Decisive(Visit(turn, ticker, verdict).signals)
  {
  }

  lemma {:induction false} SweepIsDecisive(rule: Cross, turn: Turn, universe: seq<Ticker>, view: MarketView)
    requires Decisive(turn.signals)
    ensures Decisive(Sweep(rule, turn, universe, view).signals)
    decreases |universe|
  {
    hide Verdict, Decisive, Visit;
    if universe != [] {
      var front, last := universe[..|universe| - 1], universe[|universe| - 1];
      SweepIsDecisive(rule, turn, front, view);
      VisitIsDecisive(Sweep(rule, turn, front, view), last, Verdict(rule, view, last));
    }
  }

  lemma {:induction false} EngineHoldsTurn(rules: Rules, rule: Cross, history: History, timeline: seq<int>)
    requires RunThrough(rules, CrossStrategy(rule), history, timeline).Ok?
    ensures RunThrough(rules, CrossStrategy(rule), history, timeline).value.strategy
            == CrossAfter(rule, ViewsOf(history, timeline)).held
    decreases |timeline|
  {
    hide FillAll, Queue, CrossOnBar, Equity, Point;
    if timeline != [] {
      EngineHoldsTurn(rules, rule, history, timeline[..|timeline| - 1]);
      ViewsSnoc(history, timeline);
    }
  }

  lemma ViewsSnoc(history: History, timeline: seq<int>)
    requires timeline != []
    ensures var views := ViewsOf(history, timeline);
      && views[..|views| - 1] == ViewsOf(history, timeline[..|timeline| - 1])
      && views[|views| - 1] == ViewAt(history, timeline[|timeline| - 1])
  {
    hide ViewAt;
  }

  lemma OneMoreBar(
    rule: Cross, long: set<Ticker>, view: MarketView, now: int, earlier: seq<Order>, signals: seq<Signal>)
    requires SignalsOf(earlier) == signals && Decisive(signals)
    ensures var given := CrossOnBar(rule, long, view).1;
      SignalsOf(earlier + Queue(given, now)) == signals + given && Decisive(signals + given)
  {
    hide Sweep, Queue;
    var given := CrossOnBar(rule, long, view).1;
    SweepIsDecisive(rule, Turn(long, []), Universe(rule.tickers, view), view);
    QueueKeepsAll(given, now);
  }

  lemma {:induction false} EngineQueuesTurn(rules: Rules, rule: Cross, history: History, timeline: seq<int>)
    requires RunThrough(rules, CrossStrategy(rule), history, timeline).Ok?
    ensures var signals := CrossAfter(rule, ViewsOf(history, timeline)).signals;
      SignalsOf(Emitted(rules, CrossStrategy(rule), history, timeline)) == signals && Decisive(signals)
    decreases |timeline|
  {
    hide RunThrough, FillAll, Queue, CrossOnBar, Decisive, SignalsOf, ViewsOf;
    OneViewPerInstant(history, timeline);
    if timeline == [] {
      EmptyIsDecisive();
    } else {
      var front, now := timeline[..|timeline| - 1], timeline[|timeline| - 1];
      EarlierRunsToo(rules, CrossStrategy(rule), history, timeline);
      EngineQueuesTurn(rules, rule, history, front);
      EngineHoldsTurn(rules, rule, history, front);
      ViewsSnoc(history, timeline);
      var before := CrossAfter(rule, ViewsOf(history, front));
      var earlier := Emitted(rules, CrossStrategy(rule), history, front);
      OneMoreBar(rule, before.held, ViewAt(history, now), now, earlier, before.signals);
    }
  }

  lemma EmptyIsDecisive()
    ensures SignalsOf([]) == [] && Decisive([])
  {
  }

  lemma OneViewPerInstant(history: History, timeline: seq<int>)
    ensures |ViewsOf(history, timeline)| == |timeline|
  {
  }

  /** In every backtest run with this strategy, the orders it queued are exactly its signals over the views
      of the timeline, all at full strength -- so they alternate ticker by ticker, and the engine's order
      conservation law applies to them. */
  lemma CrossInBacktest(rules: Rules, rule: Cross, history: History, timeline: seq<int>, ticker: Ticker)
    requires RunThrough(rules, CrossStrategy(rule), history, timeline).Ok?
    ensures var views := ViewsOf(history, timeline);
      var emitted := Emitted(rules, CrossStrategy(rule), history, timeline);
      var long := RunThrough(rules, CrossStrategy(rule), history, timeline).value.strategy;
      && SignalsOf(emitted) == CrossAfter(rule, views).signals
      && PositiveStrength(emitted)
      && Alternating(ActionsOf(SignalsOf(emitted), ticker))
      && (ticker in long <==> LastVerdict(rule, views, ticker) == Some(true))
  {
    hide RunThrough, Emitted, CrossAfter, LastVerdict, Alternating, ActionsOf, ViewsOf;
    EngineHoldsTurn(rules, rule, history, timeline);
    EngineQueuesTurn(rules, rule, history, timeline);
    CrossTracksTrend(rule, ViewsOf(history, timeline), ticker);
    var emitted := Emitted(rules, CrossStrategy(rule), history, timeline);
    forall i | 0 <= i < |emitted| ensures emitted[i].signal.strength > 0.0 {
      assert emitted[i].signal == SignalsOf(emitted)[i];
    }
  }

  // ----- buy and hold -----

  function Enter(turn: Turn, ticker: Ticker, current: bool): Turn {
    if ticker in turn.held || !current then turn
    else Turn(turn.held + {ticker}, turn.signals + [Signal(ticker, Buy, 1.0, "initial entry")])
  }

  function EnterAll(turn: Turn, universe: seq<Ticker>, view: MarketView): Turn {
    if universe == [] then turn else
      var last := universe[|universe| - 1];
      Enter(EnterAll(turn, universe[..|universe| - 1], view), last, view.IsCurrent(last))
  }

  class BuyAndHold {
    const tickers: Option<seq<Ticker>>
    var bought: set<Ticker>

    constructor (tickers: Option<seq<Ticker>>)
      ensures bought == {} && this.tickers == tickers
    {
      this.tickers, bought := tickers, {};
    }

    method OnStart()
      modifies this
      ensures bought == {}
    {
      bought := {};
    }

    method OnBar(view: MarketView) returns (signals: seq<Signal>)
      modifies this
      ensures Turn(bought, signals) == EnterAll(Turn(old(bought), []), Universe(tickers, view), view)
    {
      var universe := Universe(tickers, view);
      signals := [];
      for i := 0 to |universe|
        invariant Turn(bought, signals) == EnterAll(Turn(old(bought), []), universe[..i], view)
      {
        var ticker := universe[i];
        assert universe[..i + 1] == universe[..i] + [ticker];
        if ticker in bought || !view.IsCurrent(ticker) {
          continue;
        }
        bought := bought + {ticker};
        signals := signals + [Signal(ticker, Buy, 1.0, "initial entry")];
      }
      assert universe[..|universe|] == universe;
    }
  }

  function HoldAfter(tickers: Option<seq<Ticker>>, views: seq<MarketView>): Turn {
    if views == [] then Turn({}, []) else
      var before, view := HoldAfter(tickers, views[..|views| - 1]), views[|views| - 1];
      var turn := EnterAll(Turn(before.held, []), Universe(tickers, view), view);
      Turn(turn.held, before.signals + turn.signals)
  }

  /** The strategy could have bought the ticker at this view. */
  predicate Buyable(tickers: Option<seq<Ticker>>, view: MarketView, ticker: Ticker) {
    ticker in Universe(tickers, view) && view.IsCurrent(ticker)
  }

  lemma {:induction false} EnterAllOnce(
    turn: Turn, signals: seq<Signal>, universe: seq<Ticker>, view: MarketView, ticker: Ticker)
    ensures var after := EnterAll(turn, universe, view);
      && turn.signals <= after.signals
      && (ticker in after.held <==> ticker in turn.held || (ticker in universe && view.IsCurrent(ticker)))
      && ActionsOf(signals + after.signals, ticker) ==
         ActionsOf(signals + turn.signals, ticker) + if ticker in after.held && ticker !in turn.held then [Buy] else []
    decreases |universe|
  {
    if universe != [] {
      var front := universe[..|universe| - 1];
      EnterAllOnce(turn, signals, front, view, ticker);
      var before, after := EnterAll(turn, front, view), EnterAll(turn, universe, view);
      if after != before {
        var last := after.signals[|before.signals|];
        assert signals + after.signals == (signals + before.signals) + [last];
        ActionsSnoc(signals + before.signals, last, ticker);
      }
    }
  }

  ghost predicate EverBuyable(tickers: Option<seq<Ticker>>, views: seq<MarketView>, ticker: Ticker) {
    exists i :: 0 <= i < |views| && Buyable(tickers, views[i], ticker)
  }

  lemma EverBuyableSnoc(tickers: Option<seq<Ticker>>, views: seq<MarketView>, ticker: Ticker)
    requires views != []
    ensures EverBuyable(tickers, views, ticker) <==>
            EverBuyable(tickers, views[..|views| - 1], ticker) || Buyable(tickers, views[|views| - 1], ticker)
  {
    hide Buyable;
    var front := views[..|views| - 1];
    if i :| 0 <= i < |front| && Buyable(tickers, front[i], ticker) {
      assert views[i] == front[i];
    }
    if i :| 0 <= i < |views| && Buyable(tickers, views[i], ticker) {
      assert i < |front| ==> front[i] == views[i];
    }
  }

  /** Over every run each ticker is bought once and never sold: at the first view that lists it and prints
      a bar for it, and not at all if there is none. */
  lemma {:induction false} BuysOnceAndHolds(tickers: Option<seq<Ticker>>, views: seq<MarketView>, ticker: Ticker)
    ensures var turn := HoldAfter(tickers, views);
      && (ticker in turn.held <==> EverBuyable(tickers, views, ticker))
      && ActionsOf(turn.signals, ticker) == if ticker in turn.held then [Buy] else []
    decreases |views|
  {
    hide EnterAll, Universe;
    if views != [] {
      hide EverBuyable;
      var front, view := views[..|views| - 1], views[|views| - 1];
      BuysOnceAndHolds(tickers, front, ticker);
      EverBuyableSnoc(tickers, views, ticker);
      var before := HoldAfter(tickers, front);
      EnterAllOnce(Turn(before.held, []), before.signals, Universe(tickers, view), view, ticker);
      assert before.signals + [] == before.signals;
    }
  }
}
