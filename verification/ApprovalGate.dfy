/** What the approval gate guarantees over every run of the desk. */
module ApprovalGate {
  import opened Wrappers
  import opened Rounding
  import opened Accounting
  import opened PaperPortfolio
  import opened PaperLaws
  import opened Proposals

  // ----- executed proposals and ledger rows -----

  /** Row k of portfolio pid was written by this proposal, and says what the proposal said. */
  ghost predicate Carries(desk: Desk, id: int, pid: int, k: int) {
    && 0 <= id < |desk.proposals| && pid in desk.portfolios && 0 <= k < |desk.portfolios[pid].ledger|
    && var proposal, row := desk.proposals[id], desk.portfolios[pid].ledger[k];
       && proposal.status == Executed && proposal.portfolioId == pid && proposal.executed == Some(k)
       && row.note == id
       && row.asset == proposal.asset && Known(row.side) == proposal.side && row.quantity == proposal.quantity
  }

  /** Executed proposals and ledger rows are in one-to-one correspondence: each names the other. */
  ghost predicate Matched(desk: Desk) {
    && (forall id | 0 <= id < |desk.proposals| && desk.proposals[id].status == Executed ::
          desk.proposals[id].executed.Some?
          && Carries(desk, id, desk.proposals[id].portfolioId, desk.proposals[id].executed.value))
    && (forall pid, k | pid in desk.portfolios && 0 <= k < |desk.portfolios[pid].ledger| ::
          Carries(desk, desk.portfolios[pid].ledger[k].note, pid, k))
  }

  lemma DecisionKeepsMatched(desk: Desk, id: int, proposal: Proposal)
    requires Matched(desk) && 0 <= id < |desk.proposals|
    requires desk.proposals[id].status != Executed && proposal.status != Executed
    ensures Matched(desk.(proposals := desk.proposals[id := proposal]))
  {
    var after := desk.(proposals := desk.proposals[id := proposal]);
    forall pid, k | pid in after.portfolios && 0 <= k < |after.portfolios[pid].ledger|
      ensures Carries(after, after.portfolios[pid].ledger[k].note, pid, k)
    {
      assert Carries(desk, desk.portfolios[pid].ledger[k].note, pid, k);
    }
    forall other | 0 <= other < |after.proposals| && after.proposals[other].status == Executed
      ensures after.proposals[other].executed.Some?
              && Carries(after, other, after.proposals[other].portfolioId, after.proposals[other].executed.value)
    {
      assert desk.proposals[other].status == Executed;
    }
  }

  lemma ProposalKeepsMatched(desk: Desk, proposal: Proposal)
    requires Matched(desk) && proposal.status != Executed
    ensures Matched(desk.(proposals := desk.proposals + [proposal]))
  {
    var after := desk.(proposals := desk.proposals + [proposal]);
    forall pid, k | pid in after.portfolios && 0 <= k < |after.portfolios[pid].ledger|
      ensures Carries(after, after.portfolios[pid].ledger[k].note, pid, k)
    {
      assert Carries(desk, desk.portfolios[pid].ledger[k].note, pid, k);
    }
    forall other | 0 <= other < |after.proposals| && after.proposals[other].status == Executed
      ensures after.proposals[other].executed.Some?
              && Carries(after, other, after.proposals[other].portfolioId, after.proposals[other].executed.value)
    {
      assert desk.proposals[other].status == Executed;
    }
  }

  lemma TradeAppendsOneRow(pf: Portfolio, trade: Trade)
    requires RecordTrade(SixPlaces, pf, trade).Ok?
    ensures var ledger := RecordTrade(SixPlaces, pf, trade).value.ledger;
      && |ledger| == |pf.ledger| + 1 && pf.ledger <= ledger
      && var row := ledger[|pf.ledger|];
         row.asset == trade.asset && row.side == trade.side && row.quantity == trade.quantity && row.note == trade.note
  {
    hide Effects;
  }

  lemma ExecutionKeepsMatched(desk: Desk, action: Action)
    requires Matched(desk) && action.ExecuteIt?
    ensures Matched(Act(desk, action))
  {
    hide RecordTrade;
    var after, id := Act(desk, action), action.id;
    if after != desk {
      var proposal := desk.proposals[id];
      var pid := proposal.portfolioId;
      var pf := desk.portfolios[pid];
      TradeAppendsOneRow(pf, TradeOf(id, proposal, action.fillPrice, action.fees, action.now));
      var last := |pf.ledger|;
      assert Carries(after, id, pid, last);
      forall p, k | p in after.portfolios && 0 <= k < |after.portfolios[p].ledger|
        ensures Carries(after, after.portfolios[p].ledger[k].note, p, k)
      {
        if p != pid || k < last {
          assert after.portfolios[p].ledger[k] == desk.portfolios[p].ledger[k];
          assert Carries(desk, desk.portfolios[p].ledger[k].note, p, k);
        }
      }
      forall other | 0 <= other < |after.proposals| && after.proposals[other].status == Executed
        ensures after.proposals[other].executed.Some?
                && Carries(after, other, after.proposals[other].portfolioId, after.proposals[other].executed.value)
      {
        if other != id {
          assert desk.proposals[other].status == Executed;
          var p, k := desk.proposals[other].portfolioId, desk.proposals[other].executed.value;
          assert Carries(desk, other, p, k);
          assert after.portfolios[p].ledger[k] == desk.portfolios[p].ledger[k];
        }
      }
    }
  }

  lemma ActKeepsMatched(desk: Desk, action: Action)
    requires Matched(desk)
    ensures Matched(Act(desk, action))
  {
    hide Matched, Execute, DraftFor;
    match action
    case Propose(_, _, _, _) =>
      var drafted := Drafted(desk, action);
      if drafted.Some? { ProposalKeepsMatched(desk, drafted.value); }
    case ApproveIt(id, now) =>
      if 0 <= id < |desk.proposals| && Approve(desk.proposals[id], now).Some? {
        DecisionKeepsMatched(desk, id, Approve(desk.proposals[id], now).value);
      }
    case RejectIt(id, now) =>
      if 0 <= id < |desk.proposals| && Reject(desk.proposals[id], now).Some? {
        DecisionKeepsMatched(desk, id, Reject(desk.proposals[id], now).value);
      }
    case ExpireIt(id, now) =>
      if 0 <= id < |desk.proposals| && Expire(desk.proposals[id], now).Some? {
        DecisionKeepsMatched(desk, id, Expire(desk.proposals[id], now).value);
      }
    case ExecuteIt(_, _, _, _) => ExecutionKeepsMatched(desk, action);
  }

  /** In every reachable state of a desk whose portfolios move only through proposals, executed proposals
      and ledger rows are in bijection, with the same asset, side and quantity. */
  lemma {:induction false} LedgerMatchesProposals(cash: map<int, real>, assets: set<Asset>, actions: seq<Action>)
    ensures Matched(ActAll(cash, assets, actions))
  {
    hide Act;
    if actions != [] {
      hide Matched;
      LedgerMatchesProposals(cash, assets, actions[..|actions| - 1]);
      ActKeepsMatched(ActAll(cash, assets, actions[..|actions| - 1]), actions[|actions| - 1]);
    }
  }

  /** A portfolio moves only by a recorded trade. */
  lemma ActMovesPortfolio(desk: Desk, action: Action, pid: int) returns (trade: Option<Trade>)
    requires pid in Act(desk, action).portfolios
    ensures pid in desk.portfolios
    ensures trade.None? ==> Act(desk, action).portfolios[pid] == desk.portfolios[pid]
    ensures trade.Some? ==>
              RecordTrade(SixPlaces, desk.portfolios[pid], trade.value) == Ok(Act(desk, action).portfolios[pid])
  {
    hide RecordTrade, DraftFor;
    trade := None;
    if action.ExecuteIt? && Act(desk, action).portfolios != desk.portfolios {
      var proposal := desk.proposals[action.id];
      if proposal.portfolioId == pid {
        trade := Some(TradeOf(action.id, proposal, action.fillPrice, action.fees, action.now));
      }
    }
  }

  /** Every position and the cash of every portfolio can be rebuilt from the ledger. */
  ghost predicate AllReproducible(desk: Desk) {
    forall pid | pid in desk.portfolios :: Reproducible(SixPlaces, desk.portfolios[pid])
  }

  lemma ActKeepsReproducible(desk: Desk, action: Action)
    requires AllReproducible(desk)
    ensures AllReproducible(Act(desk, action))
  {
    hide Reproducible, RecordTrade, Act;
    forall pid | pid in Act(desk, action).portfolios
      ensures Reproducible(SixPlaces, Act(desk, action).portfolios[pid])
    {
      var trade := ActMovesPortfolio(desk, action, pid);
      if trade.Some? {
        TradeKeepsReplay(SixPlaces, desk.portfolios[pid], trade.value);
      }
    }
  }

  /** The desk's portfolios stay reproducible from their ledgers. */
  lemma {:induction false} DeskPortfoliosReplay(cash: map<int, real>, assets: set<Asset>, actions: seq<Action>)
    ensures AllReproducible(ActAll(cash, assets, actions))
  {
    hide Act;
    if actions == [] {
      FlatIsStored(SixPlaces);
    } else {
      hide AllReproducible;
      DeskPortfoliosReplay(cash, assets, actions[..|actions| - 1]);
      ActKeepsReproducible(ActAll(cash, assets, actions[..|actions| - 1]), actions[|actions| - 1]);
    }
  }

  // ----- the life of a proposal -----

  /** The only status changes there are. */
  predicate Allowed(from: Status, to: Status) {
    match from
    case Pending => to in {Pending, Approved, Rejected, Expired}
    case Approved => to in {Approved, Rejected, Executed}
    case _ => to == from
  }

  /** One action moves at most one proposal along an allowed edge, and nothing else about any proposal
      ever changes; a status changes only by the action that is named for it. */
  lemma ActMovesStatus(desk: Desk, action: Action, id: int)
    requires 0 <= id < |desk.proposals|
    ensures var after := Act(desk, action);
      && |desk.proposals| <= |after.proposals| <= |desk.proposals| + 1
      && var was, becomes := desk.proposals[id], after.proposals[id];
         && Allowed(was.status, becomes.status)
         && becomes.(status := was.status, decidedAt := was.decidedAt, executed := was.executed) == was
         && (becomes.status != was.status ==>
               && (becomes.status == Approved ==> action.ApproveIt? && action.id == id)
               && (becomes.status == Executed ==>
                    action.ExecuteIt? && action.id == id && becomes.decidedAt == was.decidedAt)
               && (becomes.status == Rejected ==> action.RejectIt? && action.id == id)
               && (becomes.status == Expired ==> action.ExpireIt? && action.id == id)
               && (becomes.status != Executed ==> !action.Propose? && becomes.decidedAt == Some(action.now)))
  {
    hide RecordTrade, DraftFor;
  }

  lemma NewProposalsArePending(desk: Desk, action: Action)
    ensures |Act(desk, action).proposals| > |desk.proposals| ==>
              Act(desk, action).proposals[|desk.proposals|].status == Pending
  {
    hide RecordTrade, DraftFor;
  }

  /** A proposal that was once decided for good stays that way through every further action. */
  lemma {:induction false} TerminalIsForever(
    cash: map<int, real>, assets: set<Asset>, actions: seq<Action>, k: int, id: int)
    requires 0 <= k <= |actions|
    requires 0 <= id < |ActAll(cash, assets, actions[..k]).proposals|
    requires ActAll(cash, assets, actions[..k]).proposals[id].status in {Rejected, Expired, Executed}
    ensures id < |ActAll(cash, assets, actions).proposals|
    ensures ActAll(cash, assets, actions).proposals[id] == ActAll(cash, assets, actions[..k]).proposals[id]
    decreases |actions|
  {
    hide Act;
    if k == |actions| {
      assert actions[..k] == actions;
    } else {
      var front := actions[..|actions| - 1];
      assert front[..k] == actions[..k];
      TerminalIsForever(cash, assets, front, k, id);
      TerminalStays(ActAll(cash, assets, front), actions[|actions| - 1], id);
    }
  }

  lemma TerminalStays(desk: Desk, action: Action, id: int)
    requires 0 <= id < |desk.proposals| && desk.proposals[id].status in {Rejected, Expired, Executed}
    ensures id < |Act(desk, action).proposals| && Act(desk, action).proposals[id] == desk.proposals[id]
  {
    hide RecordTrade, DraftFor;
  }

  /** Step j of the run changed this proposal's status by the given kind of action. */
  ghost predicate ApprovedAt(cash: map<int, real>, assets: set<Asset>, actions: seq<Action>, id: int, j: int) {
    && 0 <= j < |actions| && actions[j].ApproveIt? && actions[j].id == id
    && var before := ActAll(cash, assets, actions[..j]);
       0 <= id < |before.proposals| && before.proposals[id].status == Pending
  }

  ghost predicate ExecutedAt(cash: map<int, real>, assets: set<Asset>, actions: seq<Action>, id: int, j: int) {
    && 0 <= j < |actions| && actions[j].ExecuteIt? && actions[j].id == id
    && var before := ActAll(cash, assets, actions[..j]);
       0 <= id < |before.proposals| && before.proposals[id].status == Approved
  }

  lemma SameEarlier(cash: map<int, real>, assets: set<Asset>, actions: seq<Action>, id: int, j: int)
    requires actions != []
    ensures ApprovedAt(cash, assets, actions[..|actions| - 1], id, j) ==> ApprovedAt(cash, assets, actions, id, j)
    ensures ExecutedAt(cash, assets, actions[..|actions| - 1], id, j) ==> ExecutedAt(cash, assets, actions, id, j)
  {
    if 0 <= j < |actions| - 1 {
      assert actions[..|actions| - 1][..j] == actions[..j];
    }
  }

  /** An approved proposal was approved by an approval action while it was pending. */
  lemma {:induction false} ApprovalHappened(cash: map<int, real>, assets: set<Asset>, actions: seq<Action>, id: int)
    returns (i: int)
    requires 0 <= id < |ActAll(cash, assets, actions).proposals|
    requires ActAll(cash, assets, actions).proposals[id].status == Approved
    ensures ApprovedAt(cash, assets, actions, id, i)
  {
    hide Act;
    var front, last := actions[..|actions| - 1], actions[|actions| - 1];
    var before := ActAll(cash, assets, front);
    assert |actions| - 1 < |actions| && actions[..|actions| - 1] == front;
    if id >= |before.proposals| {
      NewProposalsArePending(before, last);
      if |before.proposals| > 0 { ActMovesStatus(before, last, 0); }
      OneNewProposal(before, last);
      assert false;
    }
    ActMovesStatus(before, last, id);
    if before.proposals[id].status == Approved {
      i := ApprovalHappened(cash, assets, front, id);
      SameEarlier(cash, assets, actions, id, i);
    } else {
      i := |actions| - 1;
    }
  }

  lemma OneNewProposal(desk: Desk, action: Action)
    ensures |desk.proposals| <= |Act(desk, action).proposals| <= |desk.proposals| + 1
  {
    hide RecordTrade, DraftFor;
  }

  /** No execution without approval: every executed proposal was pending when a person approved it, and
      approved when, later, it was executed. The gate cannot be skipped. */
  lemma {:induction false} ExecutionWasApproved(cash: map<int, real>, assets: set<Asset>, actions: seq<Action>, id: int)
    returns (i: int, j: int)
    requires 0 <= id < |ActAll(cash, assets, actions).proposals|
    requires ActAll(cash, assets, actions).proposals[id].status == Executed
    ensures i < j && ApprovedAt(cash, assets, actions, id, i) && ExecutedAt(cash, assets, actions, id, j)
  {
    hide Act;
    var front, last := actions[..|actions| - 1], actions[|actions| - 1];
    var before := ActAll(cash, assets, front);
    OneNewProposal(before, last);
    if id >= |before.proposals| {
      NewProposalsArePending(before, last);
      assert false;
    }
    ActMovesStatus(before, last, id);
    if before.proposals[id].status == Executed {
      i, j := ExecutionWasApproved(cash, assets, front, id);
      SameEarlier(cash, assets, actions, id, i);
      SameEarlier(cash, assets, actions, id, j);
    } else {
      j := |actions| - 1;
      i := ApprovalHappened(cash, assets, front, id);
      SameEarlier(cash, assets, actions, id, i);
    }
  }

  // ----- what a proposal is worth -----

  /** An exit proposal executed before anything else moves closes the position completely. */
  lemma ExitProposalCloses(p: Precision, s: PositionState, price: real, fees: real)
    requires Stored(p, s) && s.quantity > 0.0 && price > 0.0
    ensures Round(p, s.quantity) == s.quantity
    ensures var sold := ApplySell(p, s, s.quantity, price, fees);
      sold.Ok? && sold.value.state.quantity == 0.0 && sold.value.state.averageCost == 0.0
  {
    hide Times;
    RoundFixesGrid(p, s.quantity);
    ZeroOnGrid(p);
    RoundFixesGrid(p, 0.0);
  }

  /** A proposal is for no units at all exactly when its draft is for at most half a millionth of one. */
  lemma DustIsProposedAsNothing(desk: Desk, action: Action)
    requires action.Propose? && Drafted(desk, action).Some?
    ensures var draft := DraftFor(
      action.category, desk.portfolios[action.portfolioId], action.asset, action.price).value;
      && draft.quantity > 0.0 && Drafted(desk, action).value.quantity >= 0.0
      && (Drafted(desk, action).value.quantity == 0.0 <==> draft.quantity <= HALF_UNIT)
  {
    hide Over, Round6;
    var draft := DraftFor(action.category, desk.portfolios[action.portfolioId], action.asset, action.price).value;
    DustRoundsAway(draft.quantity);
    ZeroOnGrid(SixPlaces);
    RoundKeepsBound(SixPlaces, 0.0, draft.quantity);
  }

  /** What was executed was for more than nothing. */
  ghost predicate ExecutedAreReal(desk: Desk) {
    forall id | 0 <= id < |desk.proposals| && desk.proposals[id].status == Executed :: desk.proposals[id].quantity > 0.0
  }

  lemma TradesAreReal(pf: Portfolio, trade: Trade)
    requires RecordTrade(SixPlaces, pf, trade).Ok?
    ensures trade.quantity > 0.0
  {
  }

  lemma ActKeepsReal(desk: Desk, action: Action)
    requires ExecutedAreReal(desk)
    ensures ExecutedAreReal(Act(desk, action))
  {
    hide RecordTrade, DraftFor;
    if action.ExecuteIt? && Act(desk, action) != desk {
      var proposal := desk.proposals[action.id];
      TradesAreReal(desk.portfolios[proposal.portfolioId],
                    TradeOf(action.id, proposal, action.fillPrice, action.fees, action.now));
    }
  }

  lemma {:induction false} ExecutionsAreReal(cash: map<int, real>, assets: set<Asset>, actions: seq<Action>)
    ensures ExecutedAreReal(ActAll(cash, assets, actions))
  {
    hide Act;
    if actions != [] {
      hide ExecutedAreReal;
      ExecutionsAreReal(cash, assets, actions[..|actions| - 1]);
      ActKeepsReal(ActAll(cash, assets, actions[..|actions| - 1]), actions[|actions| - 1]);
    }
  }

  /** A proposal for nothing stays one, and no later action, at any price, ever executes it -- approved or not. */
  lemma {:induction false} DustNeverExecutes(
    cash: map<int, real>, assets: set<Asset>, actions: seq<Action>, k: int, id: int)
    requires 0 <= k <= |actions|
    requires 0 <= id < |ActAll(cash, assets, actions[..k]).proposals|
    requires ActAll(cash, assets, actions[..k]).proposals[id].quantity == 0.0
    ensures var desk := ActAll(cash, assets, actions);
      id < |desk.proposals| && desk.proposals[id].quantity == 0.0 && desk.proposals[id].status != Executed
    decreases |actions|
  {
    hide Act;
    ExecutionsAreReal(cash, assets, actions);
    if k == |actions| {
      assert actions[..k] == actions;
    } else {
      var front := actions[..|actions| - 1];
      assert front[..k] == actions[..k];
      DustNeverExecutes(cash, assets, front, k, id);
      ActMovesStatus(ActAll(cash, assets, front), actions[|actions| - 1], id);
    }
  }

  /** It happens: a portfolio of one is offered an asset at a thousand million, and the proposal for nothing is
      drafted and approved. */
  lemma DustCanBeApproved()
    ensures var desk := ActAll(map[0 := 1.0], {1}, [Propose(Accumulate, 0, 1, 1000000000.0), ApproveIt(0, 0)]);
      |desk.proposals| == 1 && desk.proposals[0].status == Approved && desk.proposals[0].quantity == 0.0
  {
    var propose, approve := Propose(Accumulate, 0, 1, 1000000000.0), ApproveIt(0, 0);
    assert [propose, approve][..1] == [propose] && [propose][..0] == [];
    var desk := OpenDesk(map[0 := 1.0], {1});
    assert desk.portfolios[0] == Open(1.0);
    hide Round6;
    assert Over(0.05, 1000000000.0) <= HALF_UNIT;
    assert DraftFor(Accumulate, Open(1.0), 1, 1000000000.0) == Some(Draft(BuySide, Over(0.05, 1000000000.0)));
    DustIsProposedAsNothing(desk, propose);
  }
}
