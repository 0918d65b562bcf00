/** The ledger as its columns keep it: quantity, price and fees of a row have six decimals
    (models/paper_portfolio.py), while the trade that wrote the row was worked out on what it was given. */
module StoredRows {
  import opened Wrappers
  import opened Rounding
  import opened Accounting
  import opened PaperPortfolio
  import opened PaperLaws

  /** What a six-decimal column does to a value: the nearest grid point, ties either way. */
  ghost predicate SixDecimals(column: real -> real) {
    forall x: real :: OnGrid(column(x)) && Abs(column(x) - x) <= HALF_UNIT
  }

  lemma ColumnKeepsGrid(column: real -> real, x: real)
    requires SixDecimals(column) && OnGrid(x)
    ensures column(x) == x
  {
    var m, n := (x * SCALE).Floor, (column(x) * SCALE).Floor;
    assert OnGrid(column(x));
    assert -0.5 <= (n - m) as real <= 0.5;
  }

  function StoredTrade(column: real -> real, trade: Trade): Trade {
    trade.(quantity := column(trade.quantity), price := column(trade.price), fees := column(trade.fees))
  }

  function StoredRow(column: real -> real, row: Transaction): Transaction {
    row.(quantity := column(row.quantity), price := column(row.price), fees := column(row.fees))
  }

  function StoredLedger(column: real -> real, ledger: seq<Transaction>): seq<Transaction> {
    seq(|ledger|, i requires 0 <= i < |ledger| => StoredRow(column, ledger[i]))
  }

  /** The stored rows rebuild every position. */
  ghost predicate Rebuilt(column: real -> real, pf: Portfolio) {
    forall asset :: Replay(SixPlaces, StoredLedger(column, pf.ledger), asset) == Some(StateOf(pf.positions, asset))
  }

  /** A buy moves the same after its amounts are rounded to the columns: it still buys something for a price, and
      the new holding, the cash and the average cost round to what they were. */
  predicate BuyAgrees(s: PositionState, given: Trade, stored: Trade)
    requires given.quantity > 0.0
  {
    && stored.quantity > 0.0 && stored.price > 0.0
    && var paid, paidStored := Cost(given), Cost(stored);
       && Round6(s.quantity + stored.quantity) == Round6(s.quantity + given.quantity)
       && Round6(paidStored) == Round6(paid)
       && Round6(Over(Times(s.quantity, s.averageCost) + paidStored, s.quantity + stored.quantity))
          == Round6(Over(Times(s.quantity, s.averageCost) + paid, s.quantity + given.quantity))
  }

  /** A sale does: it still sells something that is held for a price and leaves a remainder when it did, and the
      holding, the cash, and the profit by itself and in the total round to what they were. */
  predicate SaleAgrees(s: PositionState, given: Trade, stored: Trade) {
    && 0.0 < stored.quantity <= s.quantity && stored.price > 0.0
    && var gain, gainStored := Gain(s, given), Gain(s, stored);
       && Round6(s.quantity - stored.quantity) == Round6(s.quantity - given.quantity)
       && ((stored.quantity == s.quantity <==> given.quantity == s.quantity) || Round6(s.averageCost) == 0.0)
       && Round6(Proceeds(stored)) == Round6(Proceeds(given))
       && Round6(gainStored) == Round6(gain) && Round6(s.realizedPnl + gainStored) == Round6(s.realizedPnl + gain)
  }

  function Cost(trade: Trade): real {
    Times(trade.quantity, trade.price) + trade.fees
  }

  function Proceeds(trade: Trade): real {
    Times(trade.quantity, trade.price) - trade.fees
  }

  function Gain(s: PositionState, trade: Trade): real {
    Times(trade.quantity, trade.price - s.averageCost) - trade.fees
  }

  /** The condition on the amounts of a trade the position accepts. */
  predicate AmountsAgree(s: PositionState, given: Trade, stored: Trade)
    requires Effects(SixPlaces, s, given).Ok?
  {
    if given.side == BuySide then BuyAgrees(s, given, stored) else SaleAgrees(s, given, stored)
  }

  lemma AmountsDecide(column: real -> real, s: PositionState, trade: Trade)
    requires Effects(SixPlaces, s, trade).Ok?
    ensures AmountsAgree(s, trade, StoredTrade(column, trade)) <==>
            Effects(SixPlaces, s, StoredTrade(column, trade)) == Effects(SixPlaces, s, trade)
  {
    hide Times, Over, Round6;
    var stored := StoredTrade(column, trade);
    if trade.side == BuySide {
      RoundOdd(SixPlaces, Cost(trade));
      RoundOdd(SixPlaces, Cost(stored));
    }
  }

  /** Every accepted trade's amounts agree with what the columns keep of them. */
  ghost predicate AllFaithful(column: real -> real, initialCash: real, trades: seq<Trade>) {
    trades == [] ||
    var front, trade := trades[..|trades| - 1], trades[|trades| - 1];
    var before := AfterTrades(SixPlaces, initialCash, front);
    && AllFaithful(column, initialCash, front)
    && (RecordTrade(SixPlaces, before, trade).Ok? ==>
          AmountsAgree(StateOf(before.positions, trade.asset), trade, StoredTrade(column, trade)))
  }

  lemma TradeRebuilds(column: real -> real, pf: Portfolio, trade: Trade)
    requires Rebuilt(column, pf) && RecordTrade(SixPlaces, pf, trade).Ok?
    ensures var state := StateOf(pf.positions, trade.asset);
      Rebuilt(column, RecordTrade(SixPlaces, pf, trade).value)
      <==> AmountsAgree(state, trade, StoredTrade(column, trade))
  {
    hide ApplyBuy, ApplySell, Replay, AmountsAgree;
    AmountsDecide(column, StateOf(pf.positions, trade.asset), trade);
    var state, after := StateOf(pf.positions, trade.asset), RecordTrade(SixPlaces, pf, trade).value;
    var row := LedgerRow(trade, Effects(SixPlaces, state, trade).value);
    var stored := StoredLedger(column, pf.ledger);
    assert StoredLedger(column, after.ledger) == stored + [StoredRow(column, row)];
    forall asset ensures asset != trade.asset ==>
      Replay(SixPlaces, StoredLedger(column, after.ledger), asset) == Some(StateOf(after.positions, asset))
    {
      ReplaySnoc(SixPlaces, stored, StoredRow(column, row), asset);
    }
    ReplaySnoc(SixPlaces, stored, StoredRow(column, row), trade.asset);
    assert Replay(SixPlaces, stored, trade.asset) == Some(state);
  }

  /** The stored rows rebuild every position, at every moment of a portfolio's life, if and only if every
      accepted trade's amounts, rounded to the columns, move what the given ones move, to the last decimal. */
  lemma {:induction false} StoredRowsReplayExactly(column: real -> real, initialCash: real, trades: seq<Trade>)
    ensures AllFaithful(column, initialCash, trades) <==>
            forall k | 0 <= k <= |trades| :: Rebuilt(column, AfterTrades(SixPlaces, initialCash, trades[..k]))
  {
    hide RecordTrade, Rebuilt, AmountsAgree;
    if trades == [] {
      assert forall k | 0 <= k <= 0 :: trades[..k] == [];
      NothingToRebuild(column, initialCash);
    } else {
      var front, trade := trades[..|trades| - 1], trades[|trades| - 1];
      StoredRowsReplayExactly(column, initialCash, front);
      forall k | 0 <= k <= |front| ensures front[..k] == trades[..k] {}
      assert trades[..|trades|] == trades && front[..|front|] == front;
      var before := AfterTrades(SixPlaces, initialCash, front);
      if Rebuilt(column, before) && RecordTrade(SixPlaces, before, trade).Ok? {
        TradeRebuilds(column, before, trade);
      }
      if forall k | 0 <= k <= |trades| :: Rebuilt(column, AfterTrades(SixPlaces, initialCash, trades[..k])) {
        forall k | 0 <= k <= |front| ensures Rebuilt(column, AfterTrades(SixPlaces, initialCash, front[..k])) {
          assert front[..k] == trades[..k];
        }
        assert Rebuilt(column, AfterTrades(SixPlaces, initialCash, trades[..|trades|]));
      }
    }
  }

  lemma NothingToRebuild(column: real -> real, initialCash: real)
    ensures Rebuilt(column, AfterTrades(SixPlaces, initialCash, []))
  {
  }

  /** Trades whose amounts have six decimals to begin with replay from the stored rows. */
  lemma {:induction false} GridTradesReplayFromStoredRows(column: real -> real, initialCash: real, trades: seq<Trade>)
    requires SixDecimals(column)
    requires forall i | 0 <= i < |trades| ::
      OnGrid(trades[i].quantity) && OnGrid(trades[i].price) && OnGrid(trades[i].fees)
    ensures AllFaithful(column, initialCash, trades) && Rebuilt(column, AfterTrades(SixPlaces, initialCash, trades))
  {
    hide Rebuilt, Effects, SixDecimals, AmountsAgree;
    if trades != [] {
      var front, trade := trades[..|trades| - 1], trades[|trades| - 1];
      GridTradesReplayFromStoredRows(column, initialCash, front);
      ColumnKeepsGrid(column, trade.quantity);
      ColumnKeepsGrid(column, trade.price);
      ColumnKeepsGrid(column, trade.fees);
      assert StoredTrade(column, trade) == trade;
      var before := AfterTrades(SixPlaces, initialCash, front);
      if RecordTrade(SixPlaces, before, trade).Ok? {
        AmountsDecide(column, StateOf(before.positions, trade.asset), trade);
      }
    }
    StoredRowsReplayExactly(column, initialCash, trades);
    assert trades[..|trades|] == trades;
  }

  /** Off the grid the stored rows can be of no use: an accepted buy of less than half a millionth of a unit is
      stored as a buy of nothing, whichever way ties go. */
  lemma OffGridRowsNeedNotReplay(column: real -> real)
    requires SixDecimals(column)
    ensures var trades := [Trade(1, BuySide, 0.0000004, 1.0, 0.0, 0, 0)];
      && |AfterTrades(SixPlaces, 1.0, trades).ledger| == 1
      && !AllFaithful(column, 1.0, trades) && !Rebuilt(column, AfterTrades(SixPlaces, 1.0, trades))
  {
    var trade := Trade(1, BuySide, 0.0000004, 1.0, 0.0, 0, 0);
    StoredAsNothing(column);
    hide SixDecimals, Over;
    assert [trade][..0] == [];
    assert StoredTrade(column, trade).quantity == 0.0;
    CashOfDust();
    NothingToRebuild(column, 1.0);
    TradeRebuilds(column, Open(1.0), trade);
  }

  lemma StoredAsNothing(column: real -> real)
    requires SixDecimals(column)
    ensures column(0.0000004) == 0.0
  {
    var x := column(0.0000004);
    assert OnGrid(x) && Abs(x - 0.0000004) <= HALF_UNIT;
    assert -1.0 < x * SCALE < 1.0;
  }

  lemma CashOfDust()
    ensures Round6(-(Times(0.0000004, 1.0) + 0.0)) == 0.0
  {
    assert Times(0.0000004, 1.0) == 0.0000004;
    HalfEvenUnique(-0.0000004 * SCALE, 0);
  }
}
