/** The bound on the commission that keeps cash non-negative is exact. */
module Overdraft {
  import opened Rounding
  import opened Accounting
  import opened MarketData
  import opened Backtest
  import opened BacktestCash
  import opened Scripts

  /** The commission as a share of the notional. */
  function Share(bps: real): real {
    bps / 10000.0
  }

  /** Whole money that buys at least one unit at a price of one, commission included. */
  function Stake(bps: real): real {
    (Share(bps).Floor + 2) as real
  }

  function Costly(bps: real): Rules {
    Rules(SixPlaces, Config(Stake(bps), bps, 0.0), FixedFraction(1.0))
  }

  /** Buy on the first day, sell on the second. */
  const IN_AND_OUT := [Signal(TICKER, Buy, 1.0, ""), Signal(TICKER, Sell, 1.0, "")]

  function Opens(bps: real): seq<real>
    requires bps > 10000.0
  {
    [1.0, 1.0, Over(1.0, Share(bps) - 1.0)]
  }

  lemma StakeIsSafe(bps: real)
    requires bps > 10000.0
    ensures CashSafe(SixPlaces, Stake(bps)) && Stake(bps) >= 1.0 + Share(bps)
  {
    GridPoint(Stake(bps), (Share(bps).Floor + 2) * 1000000);
  }

  lemma NoSlippage(bps: real, open: real)
    ensures Costly(bps).config.SlippagePrice(open, Buy) == open
    ensures Costly(bps).config.SlippagePrice(open, Sell) == Max(open, FLOOR_PRICE)
  {
  }

  /** At a price of one the whole stake is wanted, and what it buys with its commission costs all of it. */
  lemma StakeBuys(bps: real)
    requires bps > 10000.0
    ensures var q := Over(Stake(bps), 1.0 + Share(bps));
      && SizeBuy(Costly(bps), IN_AND_OUT[0], 1.0, Stake(bps), 0.0) == Ok(Sized(q)) && q >= 1.0
      && Times(q, 1.0) + Costly(bps).config.CommissionOn(Times(q, 1.0)) == Stake(bps)
  {
    hide Times, Over;
    var stake, f, config := Stake(bps), Share(bps), Costly(bps).config;
    StakeIsSafe(bps);
    forall x: real
      ensures Times(x, 1.0) == x && Times(1.0, x) == x && Times(0.0, x) == 0.0 && Over(x, 1.0) == x
    {
      Units(x);
    }
    CommissionIsAShare(config, stake);
    TimesDistributes(stake, 1.0, f);
    TimesSign(stake, f);
    assert Size(FixedFraction(1.0), IN_AND_OUT[0], 1.0, stake, stake) == stake;
    TimesOver(stake, 1.0 + f);
    var q := Over(stake, 1.0 + f);
    assert q >= 1.0 by { AtLeastOne(stake, 1.0 + f); }
    CommissionIsAShare(config, q);
    assert Times(q, 1.0 + f) == Times(1.0 + f, q) by { TimesCommutes(q, 1.0 + f); }
  }

  lemma Units(x: real)
    ensures Times(x, 1.0) == x && Times(1.0, x) == x && Times(0.0, x) == 0.0 && Over(x, 1.0) == x
  {
  }

  lemma AtLeastOne(x: real, y: real)
    requires x >= y > 0.0
    ensures Over(x, y) >= 1.0
  {
  }

  lemma BuysWithEverything(bps: real, now: int) returns (after: Book)
    requires bps > 10000.0
    ensures var book := Book(Stake(bps), map[], map[], [], [], []);
      FillBuy(Costly(bps), IN_AND_OUT[0], PriceBar(2, 1.0, 1.0, 1.0, 1.0, 0, "1d", ""), now, book) == Ok(after)
    ensures after.cash == 0.0 && Held(after.positions, TICKER).quantity >= 1.0
    ensures OnGrid(Held(after.positions, TICKER).quantity)
  {
    hide Times, Over, SizeBuy, Round6, Config.CostFactor, Config.CommissionOn, Config.SlippagePrice;
    var rules, book := Costly(bps), Book(Stake(bps), map[], map[], [], [], []);
    var bar := PriceBar(2, 1.0, 1.0, 1.0, 1.0, 0, "1d", "");
    NoSlippage(bps, 1.0);
    StakeBuys(bps);
    StakeIsSafe(bps);
    var q := Over(Stake(bps), 1.0 + Share(bps));
    after := Bought(rules, IN_AND_OUT[0], 1.0, 1.0, q, now, book).value;
    RoundOdd(SixPlaces, Stake(bps));
    RoundFixesGrid(SixPlaces, Stake(bps));
    RoundNear(SixPlaces, q);
    GridPoint(1.0, 1000000);
    RoundKeepsBound(SixPlaces, 1.0, q);
  }

  /** A sale of everything, whose commission exceeds what it brings in by at least the units sold. */
  lemma SaleCosts(bps: real, open: real, quantity: real)
    requires bps > 10000.0 && open == Over(1.0, Share(bps) - 1.0) && quantity > 0.0
    ensures var price := Max(open, FLOOR_PRICE);
      Times(quantity, price) - Costly(bps).config.CommissionOn(Times(quantity, price)) <= -quantity
  {
    hide Times, Over;
    var price, f := Max(open, FLOOR_PRICE), Share(bps);
    var notional := Times(quantity, price);
    TimesSign(quantity, price);
    CommissionIsAShare(Costly(bps).config, notional);
    TimesDistributes(notional, 1.0, f);
    TimesDistributes(notional, f, 1.0);
    TimesAssociates(quantity, price, f - 1.0);
    TimesOver(1.0, f - 1.0);
    TimesCommutes(price, f - 1.0);
    TimesDistributes(f - 1.0, price, open);
    TimesSign(f - 1.0, price - open);
    TimesDistributes(quantity, Times(price, f - 1.0), 1.0);
    TimesSign(quantity, Times(price, f - 1.0) - 1.0);
    Units(notional);
    Units(quantity);
  }

  lemma SellsIntoDebt(bps: real, now: int, book: Book) returns (after: Book)
    requires bps > 10000.0 && book.cash == 0.0
    requires Held(book.positions, TICKER).quantity >= 1.0 && OnGrid(Held(book.positions, TICKER).quantity)
    ensures var open := Opens(bps)[2];
      FillSell(Costly(bps), IN_AND_OUT[1], PriceBar(3, open, open, open, open, 0, "1d", ""), now, book) == Ok(after)
    ensures after.cash <= -1.0 && OnGrid(after.cash)
  {
    hide Times, Over, Round6, Config.CommissionOn, Config.SlippagePrice, RoundQuantity, CloseLot;
    var rules, open, held := Costly(bps), Opens(bps)[2], Held(book.positions, TICKER);
    var quantity, price := held.quantity, Max(open, FLOOR_PRICE);
    NoSlippage(bps, open);
    Units(quantity);
    SaleCosts(bps, open, quantity);
    var proceeds := Times(quantity, price) - rules.config.CommissionOn(Times(quantity, price));
    after := Sold(rules, IN_AND_OUT[1], open, price, quantity, now, book).value;
    ZeroOnGrid(SixPlaces);
    GridSum(SixPlaces, 0.0, quantity);
    RoundKeepsBound(SixPlaces, -quantity, proceeds);
    RoundNear(SixPlaces, proceeds);
  }

  /** With any higher commission a run of three days ends below zero: everything is spent on the second day,
      and on the third the sale costs more than it brings in. The starting cash is safe, prices are positive,
      and the arithmetic is the engine's own. */
  lemma HigherCommissionOverdraws(bps: real) returns (final: State<nat>)
    requires bps > 10000.0
    ensures CashSafe(SixPlaces, Costly(bps).config.initialCash) && TradablePrices(Market(Opens(bps)))
    ensures RunThrough(Costly(bps), Scripted(IN_AND_OUT), Market(Opens(bps)), Days(3)) == Ok(final)
    ensures final.book.cash < 0.0 && final.curve != [] && final.curve[|final.curve| - 1].cash == final.book.cash
  {
    hide Times, Over, Round6, FillBuy, FillSell, BarAt, Held, Stake, RunThrough;
    var rules, opens := Costly(bps), Opens(bps);
    StakeIsSafe(bps);
    assert opens[2] > 0.0 by { OverSign(1.0, Share(bps) - 1.0); }
    BarOfDay(opens, 1);
    BarOfDay(opens, 2);
    final := FirstDay(rules, IN_AND_OUT, opens);
    var book := BuysWithEverything(bps, 2);
    final := NextDay(rules, IN_AND_OUT, opens, 1, final, book);
    book := SellsIntoDebt(bps, 3, book);
    final := NextDay(rules, IN_AND_OUT, opens, 2, final, book);
    RoundFixesGrid(SixPlaces, book.cash);
  }

  /** Cash stays non-negative over every run at a commission rate exactly when the rate is at most the whole
      notional. */
  lemma CommissionBoundIsExact(bps: real)
    ensures bps <= 10000.0 <==>
      forall rules: Rules, strategy: Strategy<nat>, history: History, timeline: seq<int> |
        && rules.precision.SixPlaces? && rules.config.commissionBps == bps
        && CashSafe(SixPlaces, rules.config.initialCash)
        && RunThrough(rules, strategy, history, timeline).Ok? ::
          RunThrough(rules, strategy, history, timeline).value.book.cash >= 0.0
  {
    hide RunThrough, Costly;
    if bps <= 10000.0 {
      forall rules: Rules, strategy: Strategy<nat>, history: History, timeline: seq<int> |
        && rules.precision.SixPlaces? && rules.config.commissionBps == bps
        && CashSafe(SixPlaces, rules.config.initialCash)
        && RunThrough(rules, strategy, history, timeline).Ok?
        ensures RunThrough(rules, strategy, history, timeline).value.book.cash >= 0.0
      {
        CashStaysSafe(rules, strategy, history, timeline);
      }
    } else {
      var final := HigherCommissionOverdraws(bps);
      CostlyRate(bps);
    }
  }

  lemma CostlyRate(bps: real)
    ensures Costly(bps).precision.SixPlaces? && Costly(bps).config.commissionBps == bps
  {
  }
}
