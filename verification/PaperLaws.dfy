/** What the paper portfolio's ledger guarantees: it replays to the positions and to the cash, and no
    money is lost beyond the rounding of the rows themselves. */
module PaperLaws {
  import opened Wrappers
  import opened Rounding
  import opened Accounting
  import opened Conservation
  import opened Ordering
  import opened PaperPortfolio

  // ----- replay -----

  /** Rebuilds one asset's position from the ledger alone; None if some row cannot have happened. */
  function Replay(p: Precision, ledger: seq<Transaction>, asset: Asset): Option<PositionState> {
    if ledger == [] then Some(FLAT) else
      var row := ledger[|ledger| - 1];
      var before := Replay(p, ledger[..|ledger| - 1], asset);
      if before.None? || row.asset != asset then before
      else
        var trade := Trade(asset, row.side, row.quantity, row.price, row.fees, row.executedAt, row.note);
        var effect := Effects(p, before.value, trade);
        if effect.Ok? && row.cashDelta == effect.value.cashDelta && row.realizedPnl == effect.value.realizedPnl
        then Some(effect.value.state) else None
  }

  function CashMoved(ledger: seq<Transaction>): real {
    if ledger == [] then 0.0 else CashMoved(ledger[..|ledger| - 1]) + ledger[|ledger| - 1].cashDelta
  }

  /** The ledger explains the portfolio: every asset's position is the replay of its rows. */
  ghost predicate Reproducible(p: Precision, pf: Portfolio) {
    && (forall asset :: Replay(p, pf.ledger, asset) == Some(StateOf(pf.positions, asset)))
    && (forall asset | asset in pf.positions :: Stored(p, pf.positions[asset].state))
    && (forall i | 0 <= i < |pf.ledger| :: Representable(p, pf.ledger[i].cashDelta))
  }

  lemma ReplaySnoc(p: Precision, ledger: seq<Transaction>, row: Transaction, asset: Asset)
    ensures Replay(p, ledger + [row], asset) ==
            if row.asset != asset || Replay(p, ledger, asset).None? then Replay(p, ledger, asset)
            else
              var effect := Effects(p, Replay(p, ledger, asset).value,
                                    Trade(asset, row.side, row.quantity, row.price, row.fees, row.executedAt,
                                      row.note));
              if effect.Ok? && row.cashDelta == effect.value.cashDelta && row.realizedPnl == effect.value.realizedPnl
              then Some(effect.value.state) else None
    ensures CashMoved(ledger + [row]) == CashMoved(ledger) + row.cashDelta
  {
    assert (ledger + [row])[..|ledger|] == ledger;
  }

  lemma TradeKeepsReplay(p: Precision, pf: Portfolio, trade: Trade)
    requires Reproducible(p, pf) && RecordTrade(p, pf, trade).Ok?
    ensures Reproducible(p, RecordTrade(p, pf, trade).value)
  {
    hide ApplyBuy, ApplySell, Replay, Stored, Times, Over;
    var state := StateOf(pf.positions, trade.asset);
    var after := RecordTrade(p, pf, trade).value;
    var row := LedgerRow(trade, Effects(p, state, trade).value);
    ZeroOnGrid(p);
    assert Stored(p, state) by { FlatIsStored(p); }
    EffectsAreStored(p, state, trade.quantity, trade.price, trade.fees);
    forall asset ensures Replay(p, after.ledger, asset) == Some(StateOf(after.positions, asset)) {
      ReplaySnoc(p, pf.ledger, row, asset);
    }
  }

  lemma FlatIsStored(p: Precision)
    ensures Stored(p, FLAT)
  {
    ZeroOnGrid(p);
  }

  /** In every reachable state, after any trades accepted or refused, positions are reproducible by
      replaying the ledger. */
  lemma {:induction false} PositionsReplay(p: Precision, initialCash: real, trades: seq<Trade>)
    ensures Reproducible(p, AfterTrades(p, initialCash, trades))
  {
    hide RecordTrade;
    if trades == [] {
      FlatIsStored(p);
    } else {
      var front := trades[..|trades| - 1];
      PositionsReplay(p, initialCash, front);
      if RecordTrade(p, AfterTrades(p, initialCash, front), trades[|trades| - 1]).Ok? {
        TradeKeepsReplay(p, AfterTrades(p, initialCash, front), trades[|trades| - 1]);
      }
    }
  }

  // ----- cash against the ledger -----

  /** Starting on the grid, cash is the starting cash plus every recorded movement, to the last decimal.
      Starting off it, the first trade rounds cash once and the difference never grows past half a unit. */
  lemma {:induction false} CashReconciles(p: Precision, initialCash: real, trades: seq<Trade>)
    ensures var pf := AfterTrades(p, initialCash, trades);
      && pf.initialCash == initialCash
      && (pf.ledger == [] ==> pf.cash == initialCash)
      && (pf.ledger != [] ==> Representable(p, pf.cash))
      && Abs(pf.cash - (initialCash + CashMoved(pf.ledger))) <= Slack(p)
      && (Representable(p, initialCash) ==> pf.cash == initialCash + CashMoved(pf.ledger))
  {
    hide Effects;
    if trades != [] {
      var front, trade := trades[..|trades| - 1], trades[|trades| - 1];
      CashReconciles(p, initialCash, front);
      PositionsReplay(p, initialCash, front);
      var before := AfterTrades(p, initialCash, front);
      if RecordTrade(p, before, trade).Ok? {
        TradeKeepsReplay(p, before, trade);
        MovedCash(p, before, trade);
      }
    }
  }

  lemma MovedCash(p: Precision, before: Portfolio, trade: Trade)
    requires RecordTrade(p, before, trade).Ok? && Reproducible(p, RecordTrade(p, before, trade).value)
    ensures var after := RecordTrade(p, before, trade).value;
      && Representable(p, after.cash) && after.initialCash == before.initialCash && after.ledger != []
      && (Representable(p, before.cash) ==>
           after.cash - before.cash == CashMoved(after.ledger) - CashMoved(before.ledger))
      && Abs(after.cash - before.cash - (CashMoved(after.ledger) - CashMoved(before.ledger))) <= Slack(p)
  {
    hide Effects, Replay;
    var after := RecordTrade(p, before, trade).value;
    var row := after.ledger[|before.ledger|];
    ReplaySnoc(p, before.ledger, row, trade.asset);
    RoundNear(p, before.cash + row.cashDelta);
    if Representable(p, before.cash) {
      GridSum(p, before.cash, row.cashDelta);
      RoundFixesGrid(p, before.cash + row.cashDelta);
    }
  }

  const CONSISTENCY_TOLERANCE := 0.01

  /** The consistency check of the observability layer never fires on a portfolio driven by trades. */
  lemma ConsistencyCheckNeverFires(initialCash: real, trades: seq<Trade>)
    ensures var pf := AfterTrades(SixPlaces, initialCash, trades);
      Abs(initialCash + CashMoved(pf.ledger) - pf.cash) <= CONSISTENCY_TOLERANCE
  {
    CashReconciles(SixPlaces, initialCash, trades);
  }

  // ----- cash stays non-negative -----

  /** The guard a caller of a sale would need: fees within proceeds and cash, to the half unit that
      rounding forgives -- the tie itself only when the cash ends in an even digit. */
  predicate SaleIsCovered(cash: real, quantity: real, price: real, fees: real) {
    var left := (cash + (Times(quantity, price) - fees)) * SCALE;
    left > -0.5 || (left == -0.5 && (cash * SCALE).Floor % 2 == 0)
  }

  /** Cash after an accepted trade, starting from grid cash that is not negative: a buy never overdraws,
      and a sale overdraws exactly when its fees are not covered. */
  lemma OverdrawnExactly(pf: Portfolio, trade: Trade)
    requires pf.cash >= 0.0 && OnGrid(pf.cash) && RecordTrade(SixPlaces, pf, trade).Ok?
    ensures trade.side == BuySide ==> RecordTrade(SixPlaces, pf, trade).value.cash >= 0.0
    ensures trade.side == SellSide ==>
              (RecordTrade(SixPlaces, pf, trade).value.cash >= 0.0 <==>
               SaleIsCovered(pf.cash, trade.quantity, trade.price, trade.fees))
  {
    hide Times, Over;
    var delta := Effects(SixPlaces, StateOf(pf.positions, trade.asset), trade).value.cashDelta;
    RoundNear(SixPlaces, delta);
    if trade.side == BuySide {
      ZeroOnGrid(SixPlaces);
      RoundKeepsBound(SixPlaces, 0.0, pf.cash + delta);
    } else {
      var proceeds := Times(trade.quantity, trade.price) - trade.fees;
      RoundNear(SixPlaces, proceeds);
      GridSum(SixPlaces, pf.cash, delta);
      RoundFixesGrid(SixPlaces, pf.cash + delta);
      CoveredExactly(pf.cash, proceeds);
    }
  }

  lemma CoveredExactly(cash: real, proceeds: real)
    requires OnGrid(cash)
    ensures var left := (cash + proceeds) * SCALE;
      cash + Round6(proceeds) >= 0.0 <==> left > -0.5 || (left == -0.5 && (cash * SCALE).Floor % 2 == 0)
  {
    var m, n := (cash * SCALE).Floor, HalfEven(proceeds * SCALE);
    assert cash + Round6(proceeds) >= 0.0 <==> m + n >= 0;
    var left := (cash + proceeds) * SCALE;
    assert left == m as real + proceeds * SCALE;
    if m + n >= 0 {
      assert left >= -0.5;
      if left == -0.5 {
        assert n as real - proceeds * SCALE == 0.5 && m == -n;
      }
    } else {
      assert left <= -0.5;
    }
  }

  /** Every sale attempted along the way is covered. */
  ghost predicate SalesCovered(initialCash: real, trades: seq<Trade>) {
    if trades == [] then true else
      var front, trade := trades[..|trades| - 1], trades[|trades| - 1];
      var before := AfterTrades(SixPlaces, initialCash, front);
      && SalesCovered(initialCash, front)
      && (trade.side == SellSide && RecordTrade(SixPlaces, before, trade).Ok? ==>
            SaleIsCovered(before.cash, trade.quantity, trade.price, trade.fees))
  }

  /** A portfolio never shows negative cash, at any point of its life, exactly when every accepted sale
      covered its fees. */
  lemma {:induction false} CashNeverNegativeExactly(initialCash: real, trades: seq<Trade>)
    requires initialCash >= 0.0 && OnGrid(initialCash)
    ensures SalesCovered(initialCash, trades) <==>
            forall k | 0 <= k <= |trades| :: AfterTrades(SixPlaces, initialCash, trades[..k]).cash >= 0.0
  {
    hide RecordTrade, SaleIsCovered;
    if trades == [] {
      forall k | 0 <= k <= 0 ensures trades[..k] == [] {}
    } else {
      var front, trade := trades[..|trades| - 1], trades[|trades| - 1];
      CashNeverNegativeExactly(initialCash, front);
      forall k | 0 <= k <= |front| ensures front[..k] == trades[..k] {}
      assert trades[..|trades|] == trades;
      assert front[..|front|] == front;
      var before := AfterTrades(SixPlaces, initialCash, front);
      if before.cash >= 0.0 && RecordTrade(SixPlaces, before, trade).Ok? {
        CashReconciles(SixPlaces, initialCash, front);
        OverdrawnExactly(before, trade);
      }
      if forall k | 0 <= k <= |trades| :: AfterTrades(SixPlaces, initialCash, trades[..k]).cash >= 0.0 {
        forall k | 0 <= k <= |front| ensures AfterTrades(SixPlaces, initialCash, front[..k]).cash >= 0.0 {
          assert front[..k] == trades[..k];
        }
        assert AfterTrades(SixPlaces, initialCash, trades[..|front|]).cash >= 0.0;
      }
    }
  }

  // ----- conservation -----

  function StatesIn(positions: map<Asset, Row>): int -> PositionState {
    asset => StateOf(positions, asset)
  }

  ghost function NetWorth(pf: Portfolio): real {
    pf.cash + AtCost(pf)
  }

  /** Units of an asset held after the ledger's rows. */
  function Units(ledger: seq<Transaction>, asset: Asset): real {
    if ledger == [] then 0.0 else
      var row := ledger[|ledger| - 1];
      Units(ledger[..|ledger| - 1], asset)
      + if row.asset != asset then 0.0 else if row.side == BuySide then row.quantity else -row.quantity
  }

  /** What rounding may lose: half a unit per unit then held, plus one half, for each buy; two halves for
      each sale. */
  function Allowance(p: Precision, ledger: seq<Transaction>): real {
    if ledger == [] then 0.0 else
      var row := ledger[|ledger| - 1];
      Allowance(p, ledger[..|ledger| - 1])
      + if row.side == BuySide then Times(Units(ledger, row.asset) + 1.0, Slack(p)) else 2.0 * Slack(p)
  }

  ghost predicate Conserved(p: Precision, pf: Portfolio) {
    && Representable(p, pf.cash)
    && (forall asset :: StateOf(pf.positions, asset).quantity == Units(pf.ledger, asset))
    && Abs(NetWorth(pf) - pf.initialCash) <= Allowance(p, pf.ledger)
  }

  lemma UnitsSnoc(p: Precision, ledger: seq<Transaction>, row: Transaction, asset: Asset)
    ensures Units(ledger + [row], asset) ==
            Units(ledger, asset) + if row.asset != asset then 0.0 else if row.side == BuySide then row.quantity
              else -row.quantity
    ensures Allowance(p, ledger + [row]) == Allowance(p, ledger)
            + if row.side == BuySide then Times(Units(ledger + [row], row.asset) + 1.0, Slack(p)) else 2.0 * Slack(p)
  {
    assert (ledger + [row])[..|ledger|] == ledger;
  }

  /** What positions are carried at, in all. */
  ghost function AtCost(pf: Portfolio): real {
    SumOver(pf.positions.Keys, CarriedBy(StatesIn(pf.positions)))
  }

  lemma AtCostChange(before: Portfolio, after: Portfolio, asset: Asset, row: Row)
    requires after.positions == before.positions[asset := row]
    ensures AtCost(after) == AtCost(before) - Carried(StateOf(before.positions, asset)) + Carried(row.state)
  {
    hide Carried, SumOver;
    assert after.positions.Keys == before.positions.Keys + {asset};
    CarriedChange(before.positions.Keys, StatesIn(before.positions), StatesIn(after.positions), asset);
  }

  /** How far one accepted trade of a grid quantity can move the total of cash and carried position. */
  lemma EffectDrift(p: Precision, s: PositionState, trade: Trade)
    requires Effects(p, s, trade).Ok? && Stored(p, s) && Representable(p, trade.quantity)
    ensures var e := Effects(p, s, trade).value;
      && e.state.quantity == s.quantity + (if trade.side == BuySide then trade.quantity else -trade.quantity)
      && Abs(e.cashDelta + Carried(e.state) - Carried(s)) <=
           if trade.side == BuySide then Times(e.state.quantity + 1.0, Slack(p)) else 2.0 * Slack(p)
  {
    if trade.side == BuySide {
      BuyConserves(p, s, trade.quantity, trade.price, trade.fees);
    } else {
      SellConserves(p, s, trade.quantity, trade.price, trade.fees);
    }
  }

  lemma UnitsFollow(p: Precision, pf: Portfolio, trade: Trade)
    requires Reproducible(p, pf) && Representable(p, trade.quantity) && RecordTrade(p, pf, trade).Ok?
    requires forall asset :: StateOf(pf.positions, asset).quantity == Units(pf.ledger, asset)
    ensures var after := RecordTrade(p, pf, trade).value;
      forall asset :: StateOf(after.positions, asset).quantity == Units(after.ledger, asset)
  {
    hide Effects, Replay, Stored, Times, Carried, Units, Allowance;
    var state, after := StateOf(pf.positions, trade.asset), RecordTrade(p, pf, trade).value;
    FlatIsStored(p);
    EffectDrift(p, state, trade);
    forall asset ensures StateOf(after.positions, asset).quantity == Units(after.ledger, asset) {
      UnitsSnoc(p, pf.ledger, LedgerRow(trade, Effects(p, state, trade).value), asset);
    }
  }

  lemma WorthDrifts(p: Precision, pf: Portfolio, trade: Trade)
    requires Reproducible(p, pf) && Representable(p, trade.quantity) && RecordTrade(p, pf, trade).Ok?
    requires Representable(p, pf.cash)
    ensures var after := RecordTrade(p, pf, trade).value;
      && Representable(p, after.cash) && after.initialCash == pf.initialCash
      && Abs(NetWorth(after) - NetWorth(pf)) <=
           if trade.side == BuySide then Times(StateOf(after.positions, trade.asset).quantity + 1.0, Slack(p))
           else 2.0 * Slack(p)
  {
    hide Effects, Replay, Stored, Times, AtCost, Carried, CashMoved;
    var state, after := StateOf(pf.positions, trade.asset), RecordTrade(p, pf, trade).value;
    TradeKeepsReplay(p, pf, trade);
    FlatIsStored(p);
    EffectDrift(p, state, trade);
    MovedCash(p, pf, trade);
    ReplaySnoc(p, pf.ledger, after.ledger[|pf.ledger|], trade.asset);
    AtCostChange(pf, after, trade.asset, after.positions[trade.asset]);
  }

  lemma TradeConserves(p: Precision, pf: Portfolio, trade: Trade)
    requires Conserved(p, pf) && Reproducible(p, pf) && Representable(p, trade.quantity)
    requires RecordTrade(p, pf, trade).Ok?
    ensures Conserved(p, RecordTrade(p, pf, trade).value)
  {
    hide Effects, Reproducible, Times, NetWorth, Carried, Units, Allowance;
    var state, after := StateOf(pf.positions, trade.asset), RecordTrade(p, pf, trade).value;
    UnitsFollow(p, pf, trade);
    WorthDrifts(p, pf, trade);
    UnitsSnoc(p, pf.ledger, LedgerRow(trade, Effects(p, state, trade).value), trade.asset);
  }

  /** Value conservation over any sequence of trades in grid quantities, refused ones included: cash plus
      positions at cost less realized profit stays the starting cash -- exactly in exact arithmetic, and
      within the rows' own rounding allowance in the code. */
  lemma {:induction false} ValueIsConserved(p: Precision, initialCash: real, trades: seq<Trade>)
    requires Representable(p, initialCash)
    requires forall i | 0 <= i < |trades| :: Representable(p, trades[i].quantity)
    ensures Conserved(p, AfterTrades(p, initialCash, trades))
    ensures p.Exact? ==> NetWorth(AfterTrades(p, initialCash, trades)) == initialCash
  {
    hide RecordTrade, Conserved;
    if trades == [] {
      EmptyConserved(p, initialCash);
    } else {
      var front, trade := trades[..|trades| - 1], trades[|trades| - 1];
      ValueIsConserved(p, initialCash, front);
      PositionsReplay(p, initialCash, front);
      if RecordTrade(p, AfterTrades(p, initialCash, front), trade).Ok? {
        TradeConserves(p, AfterTrades(p, initialCash, front), trade);
      }
    }
    CashReconciles(p, initialCash, trades);
    if p.Exact? {
      ExactIsExact(AfterTrades(p, initialCash, trades));
    }
  }

  lemma EmptyConserved(p: Precision, initialCash: real)
    requires Representable(p, initialCash)
    ensures Conserved(p, Open(initialCash))
  {
  }

  lemma {:induction false} NoAllowance(ledger: seq<Transaction>)
    ensures Allowance(Exact, ledger) == 0.0
  {
    if ledger != [] {
      NoAllowance(ledger[..|ledger| - 1]);
      TimesDistributes(Units(ledger, ledger[|ledger| - 1].asset) + 1.0, 0.0, 0.0);
    }
  }

  lemma ExactIsExact(pf: Portfolio)
    requires Conserved(Exact, pf)
    ensures NetWorth(pf) == pf.initialCash
  {
    NoAllowance(pf.ledger);
  }

  // ----- conservation for any quantity -----

  /** The rounding room of every accepted trade, added up. */
  ghost function TradesRoom(p: Precision, initialCash: real, trades: seq<Trade>): real {
    if trades == [] then 0.0 else
      var front, trade := trades[..|trades| - 1], trades[|trades| - 1];
      var before := AfterTrades(p, initialCash, front);
      var attempt := RecordTrade(p, before, trade);
      TradesRoom(p, initialCash, front)
      + if attempt.Err? then 0.0
        else Room(p, StateOf(before.positions, trade.asset), StateOf(attempt.value.positions, trade.asset))
  }

  lemma TradeStaysInRoom(p: Precision, pf: Portfolio, trade: Trade)
    requires Reproducible(p, pf) && RecordTrade(p, pf, trade).Ok?
    ensures var after := RecordTrade(p, pf, trade).value;
      Abs(CashMoved(after.ledger) + AtCost(after) - CashMoved(pf.ledger) - AtCost(pf))
      <= Room(p, StateOf(pf.positions, trade.asset), StateOf(after.positions, trade.asset))
  {
    hide ApplyBuy, ApplySell, Replay, Stored, Room, AtCost, Carried, CashMoved;
    var state, after := StateOf(pf.positions, trade.asset), RecordTrade(p, pf, trade).value;
    FlatIsStored(p);
    if trade.side == BuySide {
      BuyDrifts(p, state, trade.quantity, trade.price, trade.fees);
    } else {
      SellDrifts(p, state, trade.quantity, trade.price, trade.fees);
    }
    ReplaySnoc(p, pf.ledger, after.ledger[|pf.ledger|], trade.asset);
    AtCostChange(pf, after, trade.asset, after.positions[trade.asset]);
  }

  lemma {:induction false} LedgerStaysInRoom(p: Precision, initialCash: real, trades: seq<Trade>)
    ensures var pf := AfterTrades(p, initialCash, trades);
      Abs(CashMoved(pf.ledger) + AtCost(pf)) <= TradesRoom(p, initialCash, trades)
  {
    hide RecordTrade, AtCost, CashMoved, Room, Reproducible, StateOf;
    if trades == [] {
      NothingMoved(initialCash);
    } else {
      var front, trade := trades[..|trades| - 1], trades[|trades| - 1];
      LedgerStaysInRoom(p, initialCash, front);
      PositionsReplay(p, initialCash, front);
      if RecordTrade(p, AfterTrades(p, initialCash, front), trade).Ok? {
        TradeStaysInRoom(p, AfterTrades(p, initialCash, front), trade);
      }
    }
  }

  lemma NothingMoved(initialCash: real)
    ensures CashMoved([]) == 0.0 && AtCost(Open(initialCash)) == 0.0
  {
  }

  /** Value conservation over any sequence of trades whatever, from any starting cash: cash plus positions at
      cost less realized profit stays the starting cash, within the rounding room of the accepted trades and
      one half unit if the starting cash was off the grid. */
  lemma ValueStaysInRoom(p: Precision, initialCash: real, trades: seq<Trade>)
    ensures var pf := AfterTrades(p, initialCash, trades);
      Abs(NetWorth(pf) - initialCash)
      <= TradesRoom(p, initialCash, trades) + if Representable(p, initialCash) then 0.0 else Slack(p)
  {
    hide AfterTrades, AtCost, CashMoved;
    CashReconciles(p, initialCash, trades);
    LedgerStaysInRoom(p, initialCash, trades);
  }

  // ----- valuation -----

  /** The cost at which open positions without a price are carried. */
  function UnpricedCost(positions: map<Asset, Row>, prices: Prices): int -> real {
    asset =>
      if IsOpen(positions, asset) && asset !in prices
      then Times(StateOf(positions, asset).quantity, StateOf(positions, asset).averageCost) else 0.0
  }

  lemma ValueSplits(positions: map<Asset, Row>, prices: Prices, asset: Asset)
    ensures ValueAt(Exact, positions, prices)(asset) + UnpricedCost(positions, prices)(asset) ==
            UnrealizedAt(Exact, positions, prices)(asset) + CarriedBy(StatesIn(positions))(asset)
              + RealizedAt(positions)(asset)
  {
    hide *;
    var state := StateOf(positions, asset);
    EachTotal(positions, prices, asset);
    if asset in prices {
      MarketValueSplits(state, prices[asset]);
    }
    ClosedCarries(state);
  }

  lemma ClosedCarries(s: PositionState)
    ensures Carried(s) == Times(s.quantity, s.averageCost) - s.realizedPnl
    ensures s.quantity <= 0.0 ==> Carried(s) == -s.realizedPnl
  {
  }

  lemma EachTotal(positions: map<Asset, Row>, prices: Prices, asset: Asset)
    ensures var state := StateOf(positions, asset);
      && CarriedBy(StatesIn(positions))(asset) == Carried(state) && RealizedAt(positions)(asset) == state.realizedPnl
      && (state.quantity > 0.0 && asset in prices ==>
            && UnpricedCost(positions, prices)(asset) == 0.0
            && ValueAt(Exact, positions, prices)(asset) == MarketValue(Exact, state, prices[asset])
            && UnrealizedAt(Exact, positions, prices)(asset) == UnrealizedPnl(Exact, state, prices[asset]))
      && (!(state.quantity > 0.0 && asset in prices) ==>
            && ValueAt(Exact, positions, prices)(asset) == 0.0
            && UnrealizedAt(Exact, positions, prices)(asset) == 0.0
            && UnpricedCost(positions, prices)(asset) ==
                 if state.quantity > 0.0 then Times(state.quantity, state.averageCost) else 0.0)
  {
    hide Times, MarketValue, UnrealizedPnl, Carried;
  }

  lemma {:induction false} ValuesSplit(keys: set<Asset>, positions: map<Asset, Row>, prices: Prices)
    ensures SumOver(keys, ValueAt(Exact, positions, prices)) + SumOver(keys, UnpricedCost(positions, prices)) ==
            SumOver(keys, UnrealizedAt(Exact, positions, prices)) + SumOver(keys, CarriedBy(StatesIn(positions)))
            + SumOver(keys, RealizedAt(positions))
  {
    hide ValueAt, UnpricedCost, UnrealizedAt, CarriedBy, RealizedAt;
    if keys != {} {
      var asset := Least(keys);
      ValuesSplit(keys - {asset}, positions, prices);
      ValueSplits(positions, prices, asset);
    }
  }

  /** A valuation is explained by the ledger: equity and the cost of what could not be priced are the
      starting cash plus realized plus unrealized profit. Leaving positions unpriced understates equity
      by exactly their cost. */
  lemma ValuationIsExplained(initialCash: real, trades: seq<Trade>, prices: Prices)
    ensures var pf := AfterTrades(Exact, initialCash, trades);
      pf.cash + SumOver(pf.positions.Keys, ValueAt(Exact, pf.positions, prices))
      + SumOver(pf.positions.Keys, UnpricedCost(pf.positions, prices))
      == initialCash + SumOver(pf.positions.Keys, RealizedAt(pf.positions))
         + SumOver(pf.positions.Keys, UnrealizedAt(Exact, pf.positions, prices))
  {
    hide AfterTrades, SumOver;
    ValueIsConserved(Exact, initialCash, trades);
    CashReconciles(Exact, initialCash, trades);
    var pf := AfterTrades(Exact, initialCash, trades);
    ValuesSplit(pf.positions.Keys, pf.positions, prices);
  }
}
