/** Average-cost accounting for one long-only position (quant/performance/portfolio.py). */
module Accounting {
  import opened Rounding

  datatype Error =
    | QuantityNotPositive
    | PriceNotPositive
    | InsufficientPosition
    | InsufficientCash
    | DivisionByZero

  datatype Result<+T> = Ok(value: T) | Err(error: Error) {
    predicate IsFailure() { Err? }
    function PropagateFailure<U>(): Result<U> requires Err? { Err(error) }
    function Extract(): T requires Ok? { value }
  }

  datatype Position = Position(quantity: real, averageCost: real, realizedPnl: real)

  const FLAT := Position(0.0, 0.0, 0.0)

  /** Long-only: no state ever holds a negative quantity. */
  type PositionState = s: Position | s.quantity >= 0.0 witness FLAT

  datatype Effect = Effect(state: PositionState, cashDelta: real, realizedPnl: real)

  function RoundQuantity(p: Precision, x: real): (r: real)
    requires x >= 0.0
    ensures r >= 0.0
  {
    ZeroOnGrid(p);
    RoundKeepsBound(p, 0.0, x);
    Round(p, x)
  }

  function ApplyBuy(p: Precision, s: PositionState, quantity: real, price: real, fees: real): Result<Effect> {
    if quantity <= 0.0 then Err(QuantityNotPositive)
    else if price <= 0.0 then Err(PriceNotPositive)
    else
      var grossCost := Times(quantity, price) + fees;
      var priorBasis := Times(s.quantity, s.averageCost);
      var newQuantity := s.quantity + quantity;
      var newAverageCost := Over(priorBasis + grossCost, newQuantity);
      Ok(Effect(
        Position(RoundQuantity(p, newQuantity), Round(p, newAverageCost), s.realizedPnl),
        Round(p, -grossCost),
        0.0))
  }

  function ApplySell(p: Precision, s: PositionState, quantity: real, price: real, fees: real): Result<Effect> {
    if quantity <= 0.0 then Err(QuantityNotPositive)
    else if price <= 0.0 then Err(PriceNotPositive)
    else if quantity > s.quantity then Err(InsufficientPosition)
    else
      var proceeds := Times(quantity, price) - fees;
      var realized := Times(quantity, price - s.averageCost) - fees;
      var remaining := s.quantity - quantity;
      Ok(Effect(
        Position(
          RoundQuantity(p, remaining),
          if remaining > 0.0 then Round(p, s.averageCost) else 0.0,
          Round(p, s.realizedPnl + realized)),
        Round(p, proceeds),
        Round(p, realized)))
  }

  /** What a position is carried at, net of the profit already taken out of it.
      Cash plus this is what accounting must conserve. */
  function Carried(s: Position): real {
    Times(s.quantity, s.averageCost) - s.realizedPnl
  }

  function MarketValue(p: Precision, s: PositionState, price: real): real {
    Round(p, Times(s.quantity, price))
  }

  function UnrealizedPnl(p: Precision, s: PositionState, price: real): real {
    if s.quantity == 0.0 then 0.0 else Round(p, Times(s.quantity, price - s.averageCost))
  }

  /** A position's market value is what it cost plus what it has gained. */
  lemma MarketValueSplits(s: PositionState, price: real)
    ensures MarketValue(Exact, s, price) == Carried(s) + s.realizedPnl + UnrealizedPnl(Exact, s, price)
    ensures Abs(MarketValue(SixPlaces, s, price) - Times(s.quantity, price)) <= HALF_UNIT
    ensures Abs(UnrealizedPnl(SixPlaces, s, price) - Times(s.quantity, price - s.averageCost)) <= HALF_UNIT
    ensures MarketValue(Exact, s, price) == Times(s.quantity, price)
  {
    hide Times, Round6;
    RoundNear(SixPlaces, Times(s.quantity, price));
    RoundNear(SixPlaces, Times(s.quantity, price - s.averageCost));
    TimesDistributes(price - s.averageCost, 0.0, 0.0);
    TimesDistributes(s.quantity, price, s.averageCost);
    TimesDistributes(s.averageCost, 0.0, 0.0);
    TimesDistributes(price, 0.0, 0.0);
  }

  /** The amounts a position is stored with are on the grid. */
  predicate Stored(p: Precision, s: Position) {
    Representable(p, s.quantity) && Representable(p, s.averageCost) && Representable(p, s.realizedPnl)
  }

  lemma EffectsAreStored(p: Precision, s: PositionState, quantity: real, price: real, fees: real)
    requires Stored(p, s)
    ensures var r := ApplyBuy(p, s, quantity, price, fees);
      r.Ok? ==> Stored(p, r.value.state) && Representable(p, r.value.cashDelta) && Representable(p, r.value.realizedPnl)
    ensures var r := ApplySell(p, s, quantity, price, fees);
      r.Ok? ==> Stored(p, r.value.state) && Representable(p, r.value.cashDelta) && Representable(p, r.value.realizedPnl)
  {
    ZeroOnGrid(p);
    forall x ensures Representable(p, Round(p, x)) { RoundNear(p, x); }
  }

  lemma ProductSlack(q: real, x: real, y: real, slack: real)
    requires q >= 0.0 && -slack <= y - x <= slack
    ensures -Times(q, slack) <= Times(q, y) - Times(q, x) <= Times(q, slack)
  {
    TimesDistributes(q, y, x);
    TimesDistributes(q, slack, y - x);
    TimesDistributes(q, slack, x - y);
    TimesDistributes(q, x, y);
    TimesSign(q, slack - (y - x));
    TimesSign(q, slack - (x - y));
  }

  /** A buy moves money from cash into the position. Exact arithmetic loses none of it; six-decimal
      rounding of grid quantities loses at most (new quantity + 1) half units. */
  lemma BuyConserves(p: Precision, s: PositionState, quantity: real, price: real, fees: real)
    requires ApplyBuy(p, s, quantity, price, fees).Ok?
    requires Representable(p, s.quantity) && Representable(p, quantity)
    ensures var e := ApplyBuy(p, s, quantity, price, fees).value;
      && e.state.quantity == s.quantity + quantity
      && e.state.realizedPnl == s.realizedPnl
      && Abs(e.cashDelta + Carried(e.state) - Carried(s)) <= Times(e.state.quantity + 1.0, Slack(p))
  {
    hide Times, Over;
    var q, gross := s.quantity + quantity, Times(quantity, price) + fees;
    var basis := Times(s.quantity, s.averageCost);
    var average := Over(basis + gross, q);
    GridSum(p, s.quantity, quantity);
    RoundFixesGrid(p, q);
    RoundNear(p, -gross);
    RoundNear(p, average);
    ProductSlack(q, average, Round(p, average), Slack(p));
    TimesOver(basis + gross, q);
    TimesDistributes(q, 1.0, Slack(p));
    TimesDistributes(Slack(p), q, 1.0);
  }

  /** A sell moves proceeds to cash and the difference from cost to realized profit: exact in exact
      arithmetic, within two half units under rounding. */
  lemma SellConserves(p: Precision, s: PositionState, quantity: real, price: real, fees: real)
    requires ApplySell(p, s, quantity, price, fees).Ok?
    requires Stored(p, s) && Representable(p, quantity)
    ensures var e := ApplySell(p, s, quantity, price, fees).value;
      && e.state.quantity == s.quantity - quantity
      && (e.state.quantity > 0.0 ==> e.state.averageCost == s.averageCost)
      && (e.state.quantity == 0.0 ==> e.state.averageCost == 0.0)
      && Abs(e.cashDelta + Carried(e.state) - Carried(s)) <= 2.0 * Slack(p)
  {
    hide Times;
    var remaining := s.quantity - quantity;
    GridSum(p, s.quantity, quantity);
    RoundFixesGrid(p, remaining);
    RoundFixesGrid(p, s.averageCost);
    RoundNear(p, Times(quantity, price) - fees);
    RoundNear(p, s.realizedPnl + (Times(quantity, price - s.averageCost) - fees));
    TimesDistributes(quantity, price, s.averageCost);
    TimesDistributes(s.quantity, quantity, s.averageCost);
    TimesDistributes(s.averageCost, 0.0, 0.0);
  }

  /** Buying into a flat book and selling the whole position at the same price returns it to flat, and
      what is lost is exactly the two fees. */
  lemma RoundTripCostsFees(quantity: real, price: real, buyFees: real, sellFees: real)
    requires quantity > 0.0 && price > 0.0
    ensures var bought := ApplyBuy(Exact, FLAT, quantity, price, buyFees);
      && bought.Ok?
      && var sold := ApplySell(Exact, bought.value.state, quantity, price, sellFees);
      && sold.Ok?
      && sold.value.state == Position(0.0, 0.0, -(buyFees + sellFees))
      && bought.value.cashDelta + sold.value.cashDelta == -(buyFees + sellFees)
  {
    hide Times, Over;
    var gross := Times(quantity, price) + buyFees;
    TimesDistributes(0.0, 0.0, 0.0);
    TimesOver(gross, quantity);
    TimesDistributes(quantity, price, Over(gross, quantity));
  }

  /** A position's realized profit is rounded after adding, a sale's own figure before. After a sale the two
      agree exactly when the sale's profit is not on a tie, or the position's total was an even number of
      units; otherwise they are one unit apart. */
  lemma RealizedTotalsAgreeExactly(s: PositionState, quantity: real, price: real, fees: real)
    requires Stored(SixPlaces, s) && ApplySell(SixPlaces, s, quantity, price, fees).Ok?
    ensures var r := ApplySell(SixPlaces, s, quantity, price, fees).value;
      var realized := Times(quantity, price - s.averageCost) - fees;
      && (r.state.realizedPnl == s.realizedPnl + r.realizedPnl <==>
           !OnTie(realized) || (s.realizedPnl * SCALE).Floor % 2 == 0)
      && Abs(r.state.realizedPnl - (s.realizedPnl + r.realizedPnl)) in {0.0, 2.0 * HALF_UNIT}
  {
    hide Times, OnTie;
    var realized := Times(quantity, price - s.averageCost) - fees;
    RoundShift(SixPlaces, s.realizedPnl, realized);
  }

  /** They can really differ. */
  lemma RealizedTotalsCanDiffer()
    ensures var s: PositionState := Position(1.0, 1.0, 0.000001);
      var r := ApplySell(SixPlaces, s, 0.5, 1.000001, 0.0);
      && Stored(SixPlaces, s)
      && r.Ok?
      && r.value.realizedPnl == 0.0
      && r.value.state.realizedPnl == s.realizedPnl + 0.000001
  {
    GridPoint(1.0, 1000000);
    GridPoint(0.000001, 1);
    var realized := Times(0.5, 1.000001 - 1.0) - 0.0;
    HalfEvenUnique(realized * SCALE, 0);
    HalfEvenUnique((0.000001 + realized) * SCALE, 2);
  }
}
