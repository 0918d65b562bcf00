/** Small runs in full: a strategy that follows a script, one signal a day, on one instrument. They show that
    limits proved elsewhere are reached. */
module Scripts {
  import opened Wrappers
  import opened Accounting
  import opened MarketData
  import opened Backtest

  const TICKER: Ticker := 7

  function Follow(script: seq<Signal>): (nat, MarketView) -> (nat, seq<Signal>) {
    (day: nat, view: MarketView) => (day + 1, if day < |script| then [script[day]] else [])
  }

  function Scripted(script: seq<Signal>): Strategy<nat> {
    Strategy(0, Follow(script))
  }

  /** One bar a day, opening and closing at the same price. */
  function Daily(opens: seq<real>): seq<PriceBar> {
    seq(|opens|, i requires 0 <= i < |opens| => PriceBar(i + 1, opens[i], opens[i], opens[i], opens[i], 0, "1d", ""))
  }

  function Market(opens: seq<real>): History {
    map[TICKER := Daily(opens)]
  }

  function Days(n: nat): seq<int> {
    seq(n, i => i + 1)
  }

  lemma {:induction false} FirstOfDay(bars: seq<PriceBar>, day: int, first: int)
    requires forall i | 0 <= i < |bars| :: bars[i].ts == first + i
    requires first <= day < first + |bars|
    ensures FirstAt(bars, day) == Some(bars[day - first])
    decreases |bars|
  {
    if first < day {
      FirstOfDay(bars[1..], day, first + 1);
    }
  }

  lemma BarOfDay(opens: seq<real>, day: nat)
    requires day < |opens|
    ensures BarAt(Market(opens), TICKER, day + 1) == Some(Daily(opens)[day])
  {
    FirstOfDay(Daily(opens), day + 1, 1);
  }

  /** What today's book is, given yesterday's: the one order queued, if any, filled at today's open. */
  ghost function Next(rules: Rules, opens: seq<real>, day: nat, pending: seq<Order>, book: Book): Result<Book> {
    if pending == [] then Ok(book) else FillOrder(rules, pending[0], Market(opens), day + 1, book)
  }

  function Queued(script: seq<Signal>, day: nat): seq<Order> {
    if day < |script| && script[day].action != Hold then [Order(script[day], day + 1)] else []
  }

  /** One more day of a scripted run. */
  lemma NextDay(rules: Rules, script: seq<Signal>, opens: seq<real>, day: nat, st: State<nat>, book: Book)
    returns (after: State<nat>)
    requires RunThrough(rules, Scripted(script), Market(opens), Days(day)) == Ok(st)
    requires st.strategy == day && |st.pending| <= 1 && Next(rules, opens, day, st.pending, st.book) == Ok(book)
    ensures RunThrough(rules, Scripted(script), Market(opens), Days(day + 1)) == Ok(after)
    ensures after.strategy == day + 1 && after.book == book && after.pending == Queued(script, day)
    ensures |after.curve| == |st.curve| + 1 && after.curve[|st.curve|].cash == rules.R(book.cash)
  {
    hide Step, Market, Next, Queued;
    assert Days(day + 1)[..day] == Days(day) && Days(day + 1)[day] == day + 1;
    after := StepOfDay(rules, script, opens, day, st, book);
  }

  lemma StepOfDay(rules: Rules, script: seq<Signal>, opens: seq<real>, day: nat, st: State<nat>, book: Book)
    returns (after: State<nat>)
    requires st.strategy == day && |st.pending| <= 1 && Next(rules, opens, day, st.pending, st.book) == Ok(book)
    ensures Step(rules, Scripted(script), Market(opens), day + 1, st) == Ok(after)
    ensures after.strategy == day + 1 && after.book == book && after.pending == Queued(script, day)
    ensures |after.curve| == |st.curve| + 1 && after.curve[|st.curve|].cash == rules.R(book.cash)
  {
    hide FillOrder, FillAll, Equity, Queue, Queued, Market, ViewAt;
    OrderAlone(rules, st.pending, Market(opens), day + 1, st.book);
    QueuedAlone(script, day);
    after := Step(rules, Scripted(script), Market(opens), day + 1, st).value;
  }

  lemma QueuedAlone(script: seq<Signal>, day: nat)
    ensures Queue(if day < |script| then [script[day]] else [], day + 1) == Queued(script, day)
  {
    if day < |script| {
      assert [script[day]][..0] == [];
    }
  }

  lemma OrderAlone(rules: Rules, pending: seq<Order>, history: History, now: int, book: Book)
    requires |pending| <= 1
    ensures FillAll(rules, pending, history, now, book) ==
            if pending == [] then Ok(book) else FillOrder(rules, pending[0], history, now, book)
  {
    hide FillOrder;
    if pending != [] {
      assert pending[..0] == [];
    }
  }

  lemma FirstDay(rules: Rules, script: seq<Signal>, opens: seq<real>) returns (after: State<nat>)
    ensures RunThrough(rules, Scripted(script), Market(opens), Days(1)) == Ok(after)
    ensures after.strategy == 1 && after.book == Book(rules.config.initialCash, map[], map[], [], [], [])
    ensures after.pending == Queued(script, 0)
  {
    hide Step;
    after := NextDay(rules, script, opens, 0, Start(rules, Scripted(script)), Start(rules, Scripted(script)).book);
  }
}
