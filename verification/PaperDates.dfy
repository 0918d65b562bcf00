/** What a position's dates mean, read off the ledger. */
module PaperDates {
  import opened Wrappers
  import opened Rounding
  import opened Accounting
  import opened PaperPortfolio

  function RowsOf(ledger: seq<Transaction>, asset: Asset): seq<Transaction> {
    if ledger == [] then [] else
      var front, last := ledger[..|ledger| - 1], ledger[|ledger| - 1];
      if last.asset == asset then RowsOf(front, asset) + [last] else RowsOf(front, asset)
  }

  lemma RowsSnoc(ledger: seq<Transaction>, row: Transaction, asset: Asset)
    ensures RowsOf(ledger + [row], asset) == if row.asset == asset then RowsOf(ledger, asset) + [row]
      else RowsOf(ledger, asset)
  {
    assert (ledger + [row])[..|ledger|] == ledger;
  }

  /** A position was opened by the asset's first row, however often it has been closed since, and is closed
      exactly when its last row is a sale that left nothing -- at that sale's time. */
  ghost predicate DatedBy(row: Row, rows: seq<Transaction>) {
    && rows != [] && row.openedAt == rows[0].executedAt
    && var last := rows[|rows| - 1];
       row.closedAt == if last.side == SellSide && row.state.quantity == 0.0 then Some(last.executedAt) else None
  }

  ghost predicate Dated(pf: Portfolio) {
    && (forall asset | asset in pf.positions :: DatedBy(pf.positions[asset], RowsOf(pf.ledger, asset)))
    && (forall asset | asset !in pf.positions :: RowsOf(pf.ledger, asset) == [])
  }

  lemma TradeKeepsDates(p: Precision, pf: Portfolio, trade: Trade)
    requires Dated(pf) && RecordTrade(p, pf, trade).Ok?
    ensures Dated(RecordTrade(p, pf, trade).value)
  {
    hide RowsOf, Times, Over;
    var after := RecordTrade(p, pf, trade).value;
    var row := after.ledger[|pf.ledger|];
    if trade.side == SellSide {
      assert trade.asset in pf.positions && pf.positions[trade.asset].state.quantity > 0.0;
    }
    forall asset ensures RowsOf(after.ledger, asset) ==
                         if trade.asset == asset then RowsOf(pf.ledger, asset) + [row] else RowsOf(pf.ledger, asset)
    {
      RowsSnoc(pf.ledger, row, asset);
    }
  }

  /** In every reachable portfolio the dates can be read off the ledger, and an asset has a position row
      exactly when it has ever traded. */
  lemma {:induction false} DatesFollowLedger(p: Precision, initialCash: real, trades: seq<Trade>)
    ensures Dated(AfterTrades(p, initialCash, trades))
  {
    hide RecordTrade;
    if trades != [] {
      hide Dated;
      var front := trades[..|trades| - 1];
      DatesFollowLedger(p, initialCash, front);
      if RecordTrade(p, AfterTrades(p, initialCash, front), trades[|trades| - 1]).Ok? {
        TradeKeepsDates(p, AfterTrades(p, initialCash, front), trades[|trades| - 1]);
      }
    }
  }
}
