/** What the records of a run can leave out, each shown by a run of two or three days: a buy and a sale that
    leave no trace, and a lot whose position rounded away. */
module LostOrders {
  import opened Rounding
  import opened Accounting
  import opened MarketData
  import opened Backtest
  import BacktestLots
  import opened BacktestOrders
  import opened Scripts

  const FREE := Config(1.0, 0.0, 0.0)

  function Plain(config: Config, sizer: Sizer): Rules {
    Rules(SixPlaces, config, sizer)
  }

  lemma FreePrices(cash: real, open: real)
    requires open >= 1.0
    ensures var config := Config(cash, 0.0, 0.0);
      && config.SlippagePrice(open, Buy) == config.SlippagePrice(open, Sell) == open && config.CostFactor() == 1.0
      && forall notional :: config.CommissionOn(notional) == 0.0
  {
  }

  /** A sizer of one's own that asks for a unit, come what may. */
  function OneUnit(): Sizer {
    Custom((signal: Signal, price: real, equity: real, cash: real) => 1.0)
  }

  const BUY := Signal(TICKER, Buy, 1.0, "")

  /** The buy filled at an open of one, on day 2, into an empty book. */
  function SecondDay(rules: Rules): Result<Book> {
    FillOrder(rules, Order(BUY, 1), Market([1.0, 1.0, 1.0]), 2,
      Book(rules.config.initialCash, map[], map[], [], [], []))
  }

  function Empty(cash: real): Book {
    Book(cash, map[], map[], [], [], [])
  }

  lemma SecondDayBuys(cash: real, sizer: Sizer)
    ensures var rules := Plain(Config(cash, 0.0, 0.0), sizer);
      match SizeBuy(rules, BUY, 1.0, cash, 0.0)
      case Ok(Sized(q)) => SecondDay(rules) == Bought(rules, BUY, 1.0, 1.0, q, 2, Empty(cash))
      case Ok(Dropped) => SecondDay(rules) == Ok(Empty(cash))
      case _ => true
  {
    hide BarAt, Market, SizeBuy, Bought, Config.SlippagePrice, Config.CommissionOn, Config.CostFactor;
    BarOfDay([1.0, 1.0, 1.0], 1);
    FreePrices(cash, 1.0);
  }

  /** Sizing at a price of one and no costs: what is wanted, if there is the cash for it. */
  lemma SizesPlainly(cash: real, sizer: Sizer, wanted: real)
    requires cash >= 0.0 && wanted == Size(sizer, BUY, 1.0, cash, cash)
    ensures var rules := Plain(Config(cash, 0.0, 0.0), sizer);
      && (0.0 < wanted <= cash ==> SizeBuy(rules, BUY, 1.0, cash, 0.0) == Ok(Sized(wanted)))
      && (0.0 == cash < wanted ==> SizeBuy(rules, BUY, 1.0, cash, 0.0) == Ok(Dropped))
  {
    hide Size, Times, Over, Config.CommissionOn, Config.CostFactor, Config.SlippagePrice;
    FreePrices(cash, 1.0);
    OneTimes(1.0);
    OneTimes(wanted);
    OneTimes(cash);
    assert Max(cash + Times(0.0, 1.0), cash) == cash;
  }

  lemma SecondDayRuns(rules: Rules, script: seq<Signal>, book: Book) returns (st: State<nat>)
    requires script != [] && script[0] == BUY && SecondDay(rules) == Ok(book)
    ensures RunThrough(rules, Scripted(script), Market([1.0, 1.0, 1.0]), Days(2)) == Ok(st)
    ensures st.strategy == 2 && st.book == book && st.pending == Queued(script, 1)
  {
    hide FillOrder, RunThrough, Market, Follow;
    st := FirstDay(rules, script, [1.0, 1.0, 1.0]);
    st := NextDay(rules, script, [1.0, 1.0, 1.0], 1, st, book);
  }

  /** A sizer that asks without looking at the cash: the order is gone without a fill and without a record. */
  lemma ABuyCanBeLost() returns (rules: Rules, st: State<nat>)
    ensures RunThrough(rules, Scripted([BUY]), Market([1.0, 1.0, 1.0]), Days(2)) == Ok(st)
    ensures LeavesNoRecord(rules, Order(BUY, 1), Market([1.0, 1.0, 1.0]), 2, Start(rules, Scripted([BUY])).book)
    ensures st.book.fills == [] && st.book.unfilled == [] && st.pending == []
  {
    hide RunThrough, BarAt, NothingAffordable, SizeBuy, SecondDay, Times, WantedOf, Follow;
    rules := Plain(Config(0.0, 0.0, 0.0), OneUnit());
    SizesPlainly(0.0, OneUnit(), 1.0);
    SecondDayBuys(0.0, OneUnit());
    LosesTheBuy();
    st := SecondDayRuns(rules, [BUY], Empty(0.0));
  }

  lemma LosesTheBuy()
    ensures LeavesNoRecord(Plain(Config(0.0, 0.0, 0.0), OneUnit()), Order(BUY, 1), Market([1.0, 1.0, 1.0]), 2,
      Empty(0.0))
  {
    var rules := Plain(Config(0.0, 0.0, 0.0), OneUnit());
    hide BarAt, NothingAffordable, Config.SlippagePrice, Config.CommissionOn, Config.CostFactor, Market, Times, Held;
    BarOfDay([1.0, 1.0, 1.0], 1);
    FreePrices(0.0, 1.0);
    NothingAffordableMeans(rules.config, 1.0, 1.0, 0.0);
  }

  /** All of one's cash in one unit. */
  lemma BuysOneUnit() returns (book: Book)
    ensures SecondDay(Plain(FREE, FixedFraction(1.0))) == Ok(book)
    ensures Held(book.positions, TICKER).quantity == 1.0 && |book.fills| == 1 && book.unfilled == []
  {
    hide Times, Over, SizeBuy, SecondDay, Round6, Config.CommissionOn, Config.SlippagePrice, Config.CostFactor;
    forall x: real
      ensures Times(x, 1.0) == x && Times(1.0, x) == x && Times(0.0, x) == 0.0 && Over(x, 1.0) == x
    {
      OneTimes(x);
    }
    FreePrices(1.0, 1.0);
    SizesPlainly(1.0, FixedFraction(1.0), 1.0);
    SecondDayBuys(1.0, FixedFraction(1.0));
    GridPoint(1.0, 1000000);
    RoundFixesGrid(SixPlaces, 1.0);
    book := Bought(Plain(FREE, FixedFraction(1.0)), BUY, 1.0, 1.0, 1.0, 2, Empty(1.0)).value;
  }

  lemma OneTimes(x: real)
    ensures Times(x, 1.0) == x && Times(1.0, x) == x && Times(0.0, x) == 0.0 && Over(x, 1.0) == x
  {
  }

  const SELL_NOTHING := Signal(TICKER, Sell, 0.0, "")

  /** A sale of strength zero from an open position leaves no trace, with a shipped sizer too. */
  lemma ASaleCanBeLost() returns (st: State<nat>)
    ensures RunThrough(Plain(FREE, FixedFraction(1.0)), Scripted([BUY, SELL_NOTHING]), Market([1.0, 1.0, 1.0]),
      Days(3)) == Ok(st)
    ensures Held(st.book.positions, TICKER).quantity > 0.0
    ensures |st.book.fills| == 1 && st.book.unfilled == [] && st.pending == []
  {
    hide RunThrough, BarAt, FirstAt, Market, SecondDay, Follow, Config.SlippagePrice;
    var rules, script := Plain(FREE, FixedFraction(1.0)), [BUY, SELL_NOTHING];
    var book := BuysOneUnit();
    st := SecondDayRuns(rules, script, book);
    BarOfDay([1.0, 1.0, 1.0], 2);
    SellsSomething(Held(book.positions, TICKER).quantity, 0.0);
    assert Next(rules, [1.0, 1.0, 1.0], 2, st.pending, book) == Ok(book);
    st := NextDay(rules, script, [1.0, 1.0, 1.0], 2, st, book);
  }

  const DUST := 0.0000001

  /** A tenth of a millionth of a unit is bought, recorded and given a lot, and the position rounds to none. */
  lemma ADustLotStands() returns (st: State<nat>)
    ensures RunThrough(Plain(FREE, FixedQuantity(DUST)), Scripted([BUY]), Market([1.0, 1.0, 1.0]), Days(2)) == Ok(st)
    ensures TICKER in st.book.lots && Held(st.book.positions, TICKER).quantity == 0.0
  {
    hide RunThrough, Over, Times, SizeBuy, SecondDay, Round6, Follow, Config.CommissionOn, Config.SlippagePrice,
      Config.CostFactor;
    forall x: real
      ensures Times(x, 1.0) == x && Times(1.0, x) == x && Times(0.0, x) == 0.0 && Over(x, 1.0) == x
    {
      OneTimes(x);
    }
    var rules := Plain(FREE, FixedQuantity(DUST));
    FreePrices(1.0, 1.0);
    SizesPlainly(1.0, FixedQuantity(DUST), DUST);
    SecondDayBuys(1.0, FixedQuantity(DUST));
    var book := Bought(rules, BUY, 1.0, 1.0, DUST, 2, Empty(1.0)).value;
    BacktestLots.LotIsOpenUnlessDust(rules, BUY, 1.0, 1.0, DUST, 2, Empty(1.0));
    st := SecondDayRuns(rules, [BUY], book);
  }
}
