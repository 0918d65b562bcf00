/** What a signal's category comes to once its proposal is drafted, approved and executed (paper_trading/proposals.py):
    which side is traded, how much of it, and what is left. */
module Drafts {
  import opened Wrappers
  import opened Rounding
  import opened Accounting
  import opened PaperPortfolio
  import opened PaperLaws
  import opened Proposals
  import opened ApprovalGate

  /** At step i a signal was put to the desk, about an asset of a portfolio. */
  ghost predicate Asked(
    cash: map<int, real>, assets: set<Asset>, actions: seq<Action>, i: int, category: Category, pid: int, asset: Asset,
    price: real)
  {
    && 0 <= i < |actions| && actions[i] == Propose(category, pid, asset, price) && price > 0.0
    && pid in ActAll(cash, assets, actions[..i]).portfolios && pid in ActAll(cash, assets, actions).portfolios
  }

  /** Nobody has moved that position since. */
  ghost predicate Unmoved(
    cash: map<int, real>, assets: set<Asset>, actions: seq<Action>, i: int, pid: int, asset: Asset)
    requires 0 <= i < |actions|
    requires pid in ActAll(cash, assets, actions[..i]).portfolios && pid in ActAll(cash, assets, actions).portfolios
  {
    StateOf(ActAll(cash, assets, actions).portfolios[pid].positions, asset).quantity
    == StateOf(ActAll(cash, assets, actions[..i]).portfolios[pid].positions, asset).quantity
  }

  lemma {:induction false} AssetsStay(cash: map<int, real>, assets: set<Asset>, actions: seq<Action>)
    ensures ActAll(cash, assets, actions).assets == assets
  {
    hide RecordTrade, DraftFor, Execute;
    if actions != [] {
      AssetsStay(cash, assets, actions[..|actions| - 1]);
    }
  }

  /** A proposal once drafted keeps what it says through every further action. */
  lemma {:induction false} ProposalStays(
    cash: map<int, real>, assets: set<Asset>, actions: seq<Action>, i: int, proposal: Proposal)
    requires 0 <= i < |actions| && actions[i].Propose?
    requires Drafted(ActAll(cash, assets, actions[..i]), actions[i]) == Some(proposal)
    ensures var id := |ActAll(cash, assets, actions[..i]).proposals|;
      && id < |ActAll(cash, assets, actions).proposals|
      && var now := ActAll(cash, assets, actions).proposals[id];
         now == proposal.(status := now.status, decidedAt := now.decidedAt, executed := now.executed)
    decreases |actions|
  {
    var front := actions[..|actions| - 1];
    hide Act, Drafted;
    if i == |front| {
      assert actions[..i] == front;
      JustDrafted(ActAll(cash, assets, front), actions[i], proposal);
    } else {
      assert front[..i] == actions[..i];
      ProposalStays(cash, assets, front, i, proposal);
      ActMovesStatus(ActAll(cash, assets, front), actions[|front|], |ActAll(cash, assets, actions[..i]).proposals|);
    }
  }

  lemma JustDrafted(desk: Desk, action: Action, proposal: Proposal)
    requires action.Propose? && Drafted(desk, action) == Some(proposal)
    ensures Act(desk, action).proposals == desk.proposals + [proposal]
  {
    hide DraftFor;
  }

  lemma PortfolioIsStored(cash: map<int, real>, assets: set<Asset>, actions: seq<Action>, pid: int, asset: Asset)
    requires pid in ActAll(cash, assets, actions).portfolios
    ensures Stored(SixPlaces, StateOf(ActAll(cash, assets, actions).portfolios[pid].positions, asset))
  {
    DeskPortfoliosReplay(cash, assets, actions);
    FlatIsStored(SixPlaces);
  }

  /** What executing an approved proposal of a side and size does: refused, with nothing changed, or one row of that
      side and size. */
  lemma ExecutionIsTheTrade(desk: Desk, id: int, fillPrice: Option<real>, fees: real, now: int)
    requires 0 <= id < |desk.proposals| && desk.proposals[id].status == Approved && desk.proposals[id].side.Known?
    requires desk.proposals[id].portfolioId in desk.portfolios && desk.proposals[id].asset in desk.assets
    ensures var after, proposal := Act(desk, ExecuteIt(id, fillPrice, fees, now)), desk.proposals[id];
      var pf, trade := desk.portfolios[proposal.portfolioId], TradeOf(id, proposal, fillPrice, fees, now);
      && |after.proposals| == |desk.proposals| && proposal.portfolioId in after.portfolios
      && (RecordTrade(SixPlaces, pf, trade).Ok? <==> after.proposals[id].status == Executed)
      && (RecordTrade(SixPlaces, pf, trade).Ok? ==>
            after.portfolios[proposal.portfolioId] == RecordTrade(SixPlaces, pf, trade).value)
      && (RecordTrade(SixPlaces, pf, trade).Err? ==> after == desk)
  {
    hide RecordTrade;
  }

  /** An execution is refused, and changes nothing, exactly when the proposal is not approved, its portfolio or asset is
      not known, its side is neither buy nor sell, or the portfolio refuses the trade. */
  lemma RefusedExactly(desk: Desk, id: int, fillPrice: Option<real>, fees: real, now: int)
    requires 0 <= id < |desk.proposals|
    ensures var proposal := desk.proposals[id];
      Act(desk, ExecuteIt(id, fillPrice, fees, now)) == desk <==>
        || proposal.status != Approved || proposal.portfolioId !in desk.portfolios || proposal.asset !in desk.assets
        || proposal.side.Unknown?
        || RecordTrade(SixPlaces, desk.portfolios[proposal.portfolioId],
                       TradeOf(id, proposal, fillPrice, fees, now)).Err?
  {
    hide RecordTrade;
    var after := Act(desk, ExecuteIt(id, fillPrice, fees, now));
    assert after != desk ==> after.proposals[id].status == Executed;
    assert desk.proposals[id].status != Executed ==> (after.proposals[id].status == Executed ==> after != desk);
  }

  /** The row an execution adds says what was asked for and how it was filled: at the given price, or at the reference
      price when none is given, with the given fees, at the given time, in the proposal's name. */
  lemma RowSaysHowItWasFilled(desk: Desk, id: int, fillPrice: Option<real>, fees: real, now: int)
    requires 0 <= id < |desk.proposals| && desk.proposals[id].status == Approved && desk.proposals[id].side.Known?
    requires desk.proposals[id].portfolioId in desk.portfolios && desk.proposals[id].asset in desk.assets
    requires Act(desk, ExecuteIt(id, fillPrice, fees, now)).proposals[id].status == Executed
    ensures var after, proposal := Act(desk, ExecuteIt(id, fillPrice, fees, now)), desk.proposals[id];
      var before := desk.portfolios[proposal.portfolioId].ledger;
      && proposal.portfolioId in after.portfolios
      && var ledger := after.portfolios[proposal.portfolioId].ledger;
         && |ledger| == |before| + 1 && before <= ledger
         && var row := ledger[|before|];
            row == Transaction(
              proposal.asset, proposal.side.side, proposal.quantity,
              if fillPrice.Some? then fillPrice.value else proposal.referencePrice, fees,
              row.cashDelta, row.realizedPnl, now, id)
  {
    hide Effects;
  }

  /** The sale's row, and what is left of the position. */
  lemma SaleLeaves(pf: Portfolio, trade: Trade)
    requires trade.side == SellSide && trade.price > 0.0
    requires 0.0 < trade.quantity <= StateOf(pf.positions, trade.asset).quantity
    requires Stored(SixPlaces, StateOf(pf.positions, trade.asset)) && OnGrid(trade.quantity)
    ensures var attempt := RecordTrade(SixPlaces, pf, trade);
      && attempt.Ok? && |attempt.value.ledger| == |pf.ledger| + 1 && pf.ledger <= attempt.value.ledger
      && StateOf(attempt.value.positions, trade.asset).quantity
         == StateOf(pf.positions, trade.asset).quantity - trade.quantity
      && var row := attempt.value.ledger[|pf.ledger|];
         row.side == SellSide && row.quantity == trade.quantity && row.asset == trade.asset
  {
    hide Times, Round6;
    GridSum(SixPlaces, StateOf(pf.positions, trade.asset).quantity, trade.quantity);
    RoundFixesGrid(SixPlaces, StateOf(pf.positions, trade.asset).quantity - trade.quantity);
  }

  /** An exit review of a position held is drafted; approved and executed at any positive price with that position not
      moved in between, it adds one sale of the whole position and leaves none. Of nothing held it proposes nothing. */
  lemma ExitEmptiesThePosition(
    cash: map<int, real>, assets: set<Asset>, actions: seq<Action>, i: int, pid: int, asset: Asset, price: real,
    fillPrice: Option<real>, fees: real, now: int)
    requires Asked(cash, assets, actions, i, ExitReview, pid, asset, price)
      && Unmoved(cash, assets, actions, i, pid, asset)
    ensures var drafted := ActAll(cash, assets, actions[..i]);
      var held := StateOf(drafted.portfolios[pid].positions, asset).quantity;
      if held <= 0.0 then Act(drafted, actions[i]) == drafted
      else
        var desk, id := ActAll(cash, assets, actions), |drafted.proposals|;
        && id < |desk.proposals|
        && (desk.proposals[id].status == Approved && asset in assets && (fillPrice.Some? ==> fillPrice.value > 0.0) ==>
              var after := Act(desk, ExecuteIt(id, fillPrice, fees, now));
              && pid in after.portfolios && |after.proposals| == |desk.proposals|
              && after.proposals[id].status == Executed
              && StateOf(after.portfolios[pid].positions, asset).quantity == 0.0
              && |after.portfolios[pid].ledger| == |desk.portfolios[pid].ledger| + 1
              && var row := after.portfolios[pid].ledger[|desk.portfolios[pid].ledger|];
                 row.side == SellSide && row.asset == asset && row.quantity == held)
  {
    hide ActAll, Act, RecordTrade, Round6, Stored;
    var drafted, desk := ActAll(cash, assets, actions[..i]), ActAll(cash, assets, actions);
    var held, id := StateOf(drafted.portfolios[pid].positions, asset).quantity, |drafted.proposals|;
    ProposingNothing(drafted, actions[i]);
    if held > 0.0 {
      PortfolioIsStored(cash, assets, actions, pid, asset);
      StoredQuantity(StateOf(desk.portfolios[pid].positions, asset));
      ProposalStays(cash, assets, actions, i, Drafted(drafted, actions[i]).value);
      AssetsStay(cash, assets, actions);
      if desk.proposals[id].status == Approved && asset in assets && (fillPrice.Some? ==> fillPrice.value > 0.0) {
        ExecutionIsTheTrade(desk, id, fillPrice, fees, now);
        SaleLeaves(desk.portfolios[pid], TradeOf(id, desk.proposals[id], fillPrice, fees, now));
      }
    }
  }

  lemma ProposingNothing(desk: Desk, action: Action)
    requires action.Propose?
    ensures Drafted(desk, action).None? <==> Act(desk, action) == desk
  {
    hide DraftFor;
    if Drafted(desk, action).Some? {
      assert |Act(desk, action).proposals| == |desk.proposals| + 1;
    }
  }

  lemma StoredQuantity(s: PositionState)
    requires Stored(SixPlaces, s)
    ensures OnGrid(s.quantity) && Round6(s.quantity) == s.quantity
  {
    RoundFixesGrid(SixPlaces, s.quantity);
  }

  /** A reduce signal on a position held is drafted as a sale of a quarter of it, rounded to six places; executed with
      that position not moved in between it adds one such sale and leaves the rest. Only a quarter that rounds away is
      refused. */
  lemma ReduceSellsAQuarter(
    cash: map<int, real>, assets: set<Asset>, actions: seq<Action>, i: int, pid: int, asset: Asset, price: real,
    fillPrice: Option<real>, fees: real, now: int)
    requires Asked(cash, assets, actions, i, Reduce, pid, asset, price) && Unmoved(cash, assets, actions, i, pid, asset)
    ensures var drafted := ActAll(cash, assets, actions[..i]);
      var held := StateOf(drafted.portfolios[pid].positions, asset).quantity;
      var sold := Round6(held / 4.0);
      if held <= 0.0 then Act(drafted, actions[i]) == drafted
      else
        var desk, id := ActAll(cash, assets, actions), |drafted.proposals|;
        && id < |desk.proposals|
        && (desk.proposals[id].status == Approved && asset in assets && (fillPrice.Some? ==> fillPrice.value > 0.0) ==>
              var after := Act(desk, ExecuteIt(id, fillPrice, fees, now));
              && pid in after.portfolios && |after.proposals| == |desk.proposals|
              && (after.proposals[id].status == Executed <==> held / 4.0 > HALF_UNIT)
              && (held / 4.0 > HALF_UNIT ==>
                    && StateOf(after.portfolios[pid].positions, asset).quantity == held - sold
                    && |after.portfolios[pid].ledger| == |desk.portfolios[pid].ledger| + 1
                    && var row := after.portfolios[pid].ledger[|desk.portfolios[pid].ledger|];
                       row.side == SellSide && row.asset == asset && row.quantity == sold))
  {
    hide ActAll, Act, RecordTrade, Round6, Stored;
    var drafted, desk := ActAll(cash, assets, actions[..i]), ActAll(cash, assets, actions);
    var held, id := StateOf(drafted.portfolios[pid].positions, asset).quantity, |drafted.proposals|;
    ProposingNothing(drafted, actions[i]);
    if held > 0.0 {
      PortfolioIsStored(cash, assets, actions, pid, asset);
      StoredQuantity(StateOf(desk.portfolios[pid].positions, asset));
      QuarterFits(held);
      ProposalStays(cash, assets, actions, i, Drafted(drafted, actions[i]).value);
      AssetsStay(cash, assets, actions);
      if desk.proposals[id].status == Approved && asset in assets && (fillPrice.Some? ==> fillPrice.value > 0.0) {
        ExecutionIsTheTrade(desk, id, fillPrice, fees, now);
        var trade := TradeOf(id, desk.proposals[id], fillPrice, fees, now);
        if held / 4.0 > HALF_UNIT {
          SaleLeaves(desk.portfolios[pid], trade);
        } else if RecordTrade(SixPlaces, desk.portfolios[pid], trade).Ok? {
          TradesAreReal(desk.portfolios[pid], trade);
        }
      }
    }
  }

  lemma QuarterFits(held: real)
    requires held > 0.0 && OnGrid(held)
    ensures held * REDUCE_FRACTION == held / 4.0 && OnGrid(Round6(held / 4.0)) && 0.0 <= Round6(held / 4.0) <= held
    ensures Round6(held / 4.0) > 0.0 <==> held / 4.0 > HALF_UNIT
  {
    RoundNear(SixPlaces, held / 4.0);
    RoundKeepsBound(SixPlaces, held, held / 4.0);
    ZeroOnGrid(SixPlaces);
    RoundKeepsBound(SixPlaces, 0.0, held / 4.0);
    DustRoundsAway(held / 4.0);
  }

  /** An accumulate signal is drafted whenever there is initial capital and cash; filled at its reference price without
      fees, whatever has moved in between, it is executed exactly when its quantity does not round away and its cost
      does not round past the cash there is by then, and then adds one purchase that spends the lesser of a twentieth
      of the initial cash and the cash there was when it was drafted, to within what that rounding can change. */
  lemma AccumulateSpendsATwentieth(
    cash: map<int, real>, assets: set<Asset>, actions: seq<Action>, i: int, pid: int, asset: Asset, price: real,
      now: int)
    requires Asked(cash, assets, actions, i, Accumulate, pid, asset, price)
    ensures var drafted := ActAll(cash, assets, actions[..i]);
      var budget := Min(drafted.portfolios[pid].initialCash / 20.0, drafted.portfolios[pid].cash);
      if budget <= 0.0 then Act(drafted, actions[i]) == drafted
      else
        var desk, id := ActAll(cash, assets, actions), |drafted.proposals|;
        && id < |desk.proposals|
        && (desk.proposals[id].status == Approved && asset in assets ==>
              var after, pf := Act(desk, ExecuteIt(id, None, 0.0, now)), desk.portfolios[pid];
              var quantity := Round6(Over(budget, price));
              && pid in after.portfolios && |after.proposals| == |desk.proposals|
              && (after.proposals[id].status == Executed <==>
                    Over(budget, price) > HALF_UNIT && Round6(Times(quantity, price)) <= pf.cash)
              && (after.proposals[id].status == Executed ==>
                    && |after.portfolios[pid].ledger| == |pf.ledger| + 1
                    && var row := after.portfolios[pid].ledger[|pf.ledger|];
                       && row.side == BuySide && row.asset == asset && row.price == price && row.fees == 0.0
                       && row.quantity == quantity
                       && Abs(-row.cashDelta - budget) <= Times(HALF_UNIT, price) + HALF_UNIT))
  {
    hide ActAll, Act, RecordTrade, Round6, Over, Times;
    var drafted, desk := ActAll(cash, assets, actions[..i]), ActAll(cash, assets, actions);
    var pf, id := drafted.portfolios[pid], |drafted.proposals|;
    var budget := Min(pf.initialCash / 20.0, pf.cash);
    ProposingNothing(drafted, actions[i]);
    assert Min(pf.initialCash * ACCUMULATE_FRACTION, pf.cash) == budget;
    OverSign(budget, price);
    if budget > 0.0 {
      ProposalStays(cash, assets, actions, i, Drafted(drafted, actions[i]).value);
      AssetsStay(cash, assets, actions);
      if desk.proposals[id].status == Approved && asset in assets {
        ExecutionIsTheTrade(desk, id, None, 0.0, now);
        var trade := TradeOf(id, desk.proposals[id], None, 0.0, now);
        PurchaseIsAccepted(desk.portfolios[pid], trade);
        DustRoundsAway(Over(budget, price));
        if RecordTrade(SixPlaces, desk.portfolios[pid], trade).Ok? {
          PurchaseSpends(desk.portfolios[pid], trade, budget);
        }
      }
    }
  }

  lemma PurchaseIsAccepted(pf: Portfolio, trade: Trade)
    requires trade.side == BuySide && trade.price > 0.0 && trade.fees == 0.0
    ensures RecordTrade(SixPlaces, pf, trade).Ok? <==>
              trade.quantity > 0.0 && Round6(Times(trade.quantity, trade.price)) <= pf.cash
  {
    hide Round6, Over, Times;
    RoundOdd(SixPlaces, Times(trade.quantity, trade.price) + 0.0);
  }

  lemma PurchaseSpends(pf: Portfolio, trade: Trade, budget: real)
    requires trade.side == BuySide && trade.price > 0.0 && trade.fees == 0.0
    requires trade.quantity == Round6(Over(budget, trade.price)) && RecordTrade(SixPlaces, pf, trade).Ok?
    ensures var ledger := RecordTrade(SixPlaces, pf, trade).value.ledger;
      && |ledger| == |pf.ledger| + 1
      && var row := ledger[|pf.ledger|];
         && row.side == BuySide && row.asset == trade.asset && row.quantity == trade.quantity
         && row.price == trade.price && row.fees == 0.0
         && Abs(-row.cashDelta - budget) <= Times(HALF_UNIT, trade.price) + HALF_UNIT
  {
    hide Round6, Over, Times;
    var exact := Over(budget, trade.price);
    RoundNear(SixPlaces, exact);
    RoundNear(SixPlaces, -(Times(trade.quantity, trade.price) + 0.0));
    TimesOver(budget, trade.price);
    TimesCommutes(trade.price, exact);
    TimesDistributes(trade.quantity, exact, trade.price);
    TimesDistributes(HALF_UNIT, trade.quantity - exact, trade.price);
    TimesDistributes(HALF_UNIT, exact - trade.quantity, trade.price);
    TimesSign(HALF_UNIT - (trade.quantity - exact), trade.price);
    TimesSign(HALF_UNIT - (exact - trade.quantity), trade.price);
    TimesDistributes(exact, trade.quantity, trade.price);
  }

  /** Any other signal, and any signal on no portfolio or at no price, proposes nothing. */
  lemma AttentionProposesNothing(desk: Desk, category: Category, pid: int, asset: Asset, price: real)
    requires category == AttentionOnly || pid !in desk.portfolios || price <= 0.0
    ensures Act(desk, Propose(category, pid, asset, price)) == desk
  {
  }
}
