/** One trade and the money around it: what positions are carried at in all, and how far the rounding of a trade
    of any quantity can move cash and carried value together. */
module Conservation {
  import opened Rounding
  import opened Accounting
  import opened Ordering

  /** What each position is carried at, by key. */
  ghost function CarriedBy(stateOf: int -> PositionState): int -> real {
    key => Carried(stateOf(key))
  }

  lemma FlatCarriesNothing()
    ensures Carried(FLAT) == 0.0
  {
  }

  /** Replacing one position changes the total by that position's change. */
  lemma CarriedChange(keys: set<int>, before: int -> PositionState, after: int -> PositionState, key: int)
    requires forall k | k in keys && k != key :: before(k) == after(k)
    requires key !in keys ==> before(key) == FLAT
    ensures SumOver(keys + {key}, CarriedBy(after)) ==
            SumOver(keys, CarriedBy(before)) - Carried(before(key)) + Carried(after(key))
  {
    FlatCarriesNothing();
    hide Carried, SumOver;
    var f, g := CarriedBy(before), CarriedBy(after);
    SumChange(keys, f, g, key);
    assert f(key) == Carried(before(key)) && g(key) == Carried(after(key));
  }

  // ----- rounding room -----

  /** Rounding room for one trade that takes a position from one state to another. */
  function Room(p: Precision, before: Position, after: Position): real {
    Times(Slack(p), after.quantity + Abs(before.averageCost) + Abs(after.averageCost) + 3.0)
  }

  lemma RoomParts(p: Precision, before: Position, after: Position)
    ensures Room(p, before, after) ==
            Times(Slack(p), after.quantity) + Times(Slack(p), Abs(before.averageCost))
            + Times(Slack(p), Abs(after.averageCost)) + 3.0 * Slack(p)
    ensures Times(Slack(p), Abs(before.averageCost)) >= 0.0 && Times(Slack(p), Abs(after.averageCost)) >= 0.0
  {
    hide Times;
    var h, q, a, b := Slack(p), after.quantity, Abs(before.averageCost), Abs(after.averageCost);
    TimesDistributes(h, q + a + b, 3.0);
    TimesDistributes(h, q + a, b);
    TimesDistributes(h, q, a);
    TimesSign(h, a);
    TimesSign(h, b);
    ThreeTimes(h);
  }

  lemma ThreeTimes(h: real)
    ensures Times(h, 3.0) == 3.0 * h
  {
  }

  lemma ProductMoves(q: real, x: real, y: real, slack: real)
    requires -slack <= y - x <= slack
    ensures Abs(Times(q, y) - Times(q, x)) <= Times(slack, Abs(q))
    ensures Times(q, y) == Times(y, q) && Times(q, x) == Times(x, q)
  {
    hide Times;
    TimesCommutes(q, y);
    TimesCommutes(q, x);
    TimesDistributes(q, y, x);
    TimesOdd(q, y - x);
    TimesWithin(Abs(q), y - x, slack);
  }

  lemma TimesOdd(q: real, x: real)
    ensures Times(-q, x) == -Times(q, x)
  {
  }

  lemma TimesWithin(q: real, x: real, slack: real)
    requires q >= 0.0 && -slack <= x <= slack
    ensures -Times(slack, q) <= Times(q, x) <= Times(slack, q)
  {
    hide Times;
    TimesCommutes(slack, q);
    TimesDistributes(q, slack, x);
    TimesSign(q, slack - x);
    TimesSign(q, slack + x);
  }

  /** A buy of any quantity. */
  lemma BuyDrifts(p: Precision, s: PositionState, quantity: real, price: real, fees: real)
    requires ApplyBuy(p, s, quantity, price, fees).Ok?
    ensures var e := ApplyBuy(p, s, quantity, price, fees).value;
      Abs(e.cashDelta + Carried(e.state) - Carried(s)) <= Room(p, s, e.state)
  {
    hide Times, Over, Room;
    var q, gross := s.quantity + quantity, Times(quantity, price) + fees;
    var basis := Times(s.quantity, s.averageCost);
    var average := Over(basis + gross, q);
    var e := ApplyBuy(p, s, quantity, price, fees).value;
    RoundNear(p, q);
    RoundNear(p, -gross);
    RoundNear(p, average);
    TimesOver(basis + gross, q);
    ProductMoves(e.state.quantity, average, e.state.averageCost, Slack(p));
    ProductMoves(average, q, e.state.quantity, Slack(p));
    RoomParts(p, s, e.state);
    AverageNear(p, average, e.state.averageCost);
  }

  /** The exact average is as near to its rounding as the slack, and so is its size. */
  lemma AverageNear(p: Precision, average: real, rounded: real)
    requires -Slack(p) <= rounded - average <= Slack(p)
    ensures Times(Slack(p), Abs(average)) <= Times(Slack(p), Abs(rounded)) + Slack(p)
  {
    hide Times;
    var h := Slack(p);
    TimesDistributes(h, Abs(rounded), h);
    TimesDistributes(h, Abs(rounded) + h, Abs(average));
    TimesSign(h, Abs(rounded) + h - Abs(average));
    TimesDistributes(h, 1.0, h);
    TimesSign(h, 1.0 - h);
    TimesCommutes(h, 1.0);
  }

  /** A sale of any quantity. */
  lemma SellDrifts(p: Precision, s: PositionState, quantity: real, price: real, fees: real)
    requires ApplySell(p, s, quantity, price, fees).Ok? && Stored(p, s)
    ensures var e := ApplySell(p, s, quantity, price, fees).value;
      Abs(e.cashDelta + Carried(e.state) - Carried(s)) <= Room(p, s, e.state)
  {
    hide Times, Room, Round6;
    var remaining := s.quantity - quantity;
    var e := ApplySell(p, s, quantity, price, fees).value;
    RoundNear(p, remaining);
    RoundFixesGrid(p, s.averageCost);
    RoundNear(p, Times(quantity, price) - fees);
    RoundNear(p, s.realizedPnl + (Times(quantity, price - s.averageCost) - fees));
    TimesDistributes(quantity, price, s.averageCost);
    TimesDistributes(s.quantity, quantity, s.averageCost);
    ProductMoves(s.averageCost, remaining, e.state.quantity, Slack(p));
    RoomParts(p, s, e.state);
    TimesSign(Slack(p), e.state.quantity);
    TimesDistributes(remaining, 0.0, s.averageCost);
    TimesDistributes(e.state.quantity, 0.0, 0.0);
  }
}
