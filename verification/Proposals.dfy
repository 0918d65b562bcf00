/** Paper trade proposals and the human-approval gate (paper_trading/proposals.py). */
module Proposals {
  import opened Wrappers
  import opened Rounding
  import opened Accounting
  import opened PaperPortfolio

  datatype Status = Pending | Approved | Rejected | Executed | Expired

  /** A side as stored; anything but buy and sell is refused when executed. */
  datatype ProposedSide = Known(side: Side) | Unknown

  datatype Proposal = Proposal(
    portfolioId: int,
    asset: Asset,
    side: ProposedSide,
    quantity: real,
    referencePrice: real,
    status: Status,
    decidedAt: Option<int>,
    executed: Option<nat>)  // the portfolio's ledger row that carried it out

  datatype Refusal = NotApproved | MissingReference | UnknownSide | TradeRefused(error: Error)

  // ----- drafting -----

  datatype Category = Accumulate | Reduce | ExitReview | AttentionOnly

  datatype Draft = Draft(side: Side, quantity: real)

  const ACCUMULATE_FRACTION := 0.05
  const REDUCE_FRACTION := 0.25

  function DraftFor(category: Category, pf: Portfolio, asset: Asset, price: real): Option<Draft>
    requires price > 0.0
  {
    var held := StateOf(pf.positions, asset).quantity;
    match category
    case Accumulate =>
      var quantity := Over(Min(pf.initialCash * ACCUMULATE_FRACTION, pf.cash), price);
      if quantity <= 0.0 then None else Some(Draft(BuySide, quantity))
    case Reduce => if held <= 0.0 then None else Some(Draft(SellSide, held * REDUCE_FRACTION))
    case ExitReview => if held <= 0.0 then None else Some(Draft(SellSide, held))
    case AttentionOnly => None
  }

  // ----- decisions on one proposal -----

  function Approve(proposal: Proposal, now: int): Option<Proposal> {
    if proposal.status != Pending then None else Some(proposal.(status := Approved, decidedAt := Some(now)))
  }

  function Reject(proposal: Proposal, now: int): Option<Proposal> {
    if proposal.status != Pending && proposal.status != Approved then None
    else Some(proposal.(status := Rejected, decidedAt := Some(now)))
  }

  function Expire(proposal: Proposal, now: int): Option<Proposal> {
    if proposal.status != Pending then None else Some(proposal.(status := Expired, decidedAt := Some(now)))
  }

  function TradeOf(id: int, proposal: Proposal, fillPrice: Option<real>, fees: real, now: int): Trade
    requires proposal.side.Known?
  {
    var price := if fillPrice.Some? then fillPrice.value else proposal.referencePrice;
    Trade(proposal.asset, proposal.side.side, proposal.quantity, price, fees, now, id)
  }

  datatype Execution = Done(proposal: Proposal, portfolio: Portfolio) | Refused(refusal: Refusal)

  /** Executes an approved proposal against its portfolio, or refuses. */
  function Execute(
    id: int, proposal: Proposal, portfolio: Option<Portfolio>, assetKnown: bool,
    fillPrice: Option<real>, fees: real, now: int): Execution
  {
    if proposal.status != Approved then Refused(NotApproved)
    else if portfolio.None? || !assetKnown then Refused(MissingReference)
    else if proposal.side.Unknown? then Refused(UnknownSide)
    else
      var attempt := RecordTrade(SixPlaces, portfolio.value, TradeOf(id, proposal, fillPrice, fees, now));
      if attempt.Err? then Refused(TradeRefused(attempt.error))
      else Done(proposal.(status := Executed, executed := Some(|portfolio.value.ledger|)), attempt.value)
  }

  // ----- the objects -----

  class PaperTradeProposal {
    const id: int
    const portfolioId: int
    const asset: Asset
    const side: ProposedSide
    const quantity: real
    const referencePrice: real
    var status: Status
    var decidedAt: Option<int>
    var executedTransaction: Option<nat>

    function Contents(): Proposal
      reads this
    {
      Proposal(portfolioId, asset, side, quantity, referencePrice, status, decidedAt, executedTransaction)
    }

    constructor (id: int, proposal: Proposal)
      ensures Contents() == proposal && this.id == id
    {
      this.id, portfolioId, asset, side := id, proposal.portfolioId, proposal.asset, proposal.side;
      quantity, referencePrice := proposal.quantity, proposal.referencePrice;
      status, decidedAt, executedTransaction := proposal.status, proposal.decidedAt, proposal.executed;
    }

    method ApproveNow(now: int) returns (done: bool)
      modifies this
      ensures var decided := Approve(old(Contents()), now);
        done == decided.Some? && Contents() == if done then decided.value else old(Contents())
    {
      if status != Pending {
        return false;
      }
      status, decidedAt := Approved, Some(now);
      return true;
    }

    method RejectNow(now: int) returns (done: bool)
      modifies this
      ensures var decided := Reject(old(Contents()), now);
        done == decided.Some? && Contents() == if done then decided.value else old(Contents())
    {
      if status != Pending && status != Approved {
        return false;
      }
      status, decidedAt := Rejected, Some(now);
      return true;
    }

    method ExpireNow(now: int) returns (done: bool)
      modifies this
      ensures var decided := Expire(old(Contents()), now);
        done == decided.Some? && Contents() == if done then decided.value else old(Contents())
    {
      if status != Pending {
        return false;
      }
      status, decidedAt := Expired, Some(now);
      return true;
    }

    /** The only path from a proposal to a position change. A refusal changes neither object. */
    method ExecuteNow(portfolio: PaperBook?, assetKnown: bool, fillPrice: Option<real>, fees: real, now: int)
      returns (refusal: Option<Refusal>)
      modifies this, portfolio
      ensures var before := if portfolio == null then None else Some(old(portfolio.Contents()));
        var execution := Execute(id, old(Contents()), before, assetKnown, fillPrice, fees, now);
        && (execution.Done? ==> refusal == None && Contents() == execution.proposal
                                && portfolio != null && portfolio.Contents() == execution.portfolio)
        && (execution.Refused? ==> refusal == Some(execution.refusal) && Contents() == old(Contents())
                                   && (portfolio != null ==> portfolio.Contents() == old(portfolio.Contents())))
    {
      hide RecordTrade;
      if status != Approved {
        return Some(NotApproved);
      }
      if portfolio == null || !assetKnown {
        return Some(MissingReference);
      }
      var price := if fillPrice.Some? then fillPrice.value else referencePrice;
      var row := |portfolio.ledger|;
      var failure: Option<Error>;
      match side {
        case Known(BuySide) => failure := portfolio.RecordBuy(asset, quantity, price, fees, now, id);
        case Known(SellSide) => failure := portfolio.RecordSell(asset, quantity, price, fees, now, id);
        case Unknown => return Some(UnknownSide);
      }
      if failure.Some? {
        return Some(TradeRefused(failure.value));
      }
      status := Executed;
      executedTransaction := Some(row);
      return None;
    }
  }

  // ----- the desk: every proposal and every portfolio -----

  datatype Desk = Desk(portfolios: map<int, Portfolio>, assets: set<Asset>, proposals: seq<Proposal>)

  datatype Action =
    | Propose(category: Category, portfolioId: int, asset: Asset, price: real)
    | ApproveIt(id: int, now: int)
    | RejectIt(id: int, now: int)
    | ExpireIt(id: int, now: int)
    | ExecuteIt(id: int, fillPrice: Option<real>, fees: real, now: int)

  function Put(desk: Desk, id: int, proposal: Option<Proposal>): Desk
    requires 0 <= id < |desk.proposals|
  {
    if proposal.None? then desk else desk.(proposals := desk.proposals[id := proposal.value])
  }

  function Drafted(desk: Desk, action: Action): Option<Proposal>
    requires action.Propose?
  {
    if action.price <= 0.0 || action.portfolioId !in desk.portfolios then None
    else
      var draft := DraftFor(action.category, desk.portfolios[action.portfolioId], action.asset, action.price);
      if draft.None? then None
      else
        Some(Proposal(action.portfolioId, action.asset, Known(draft.value.side), Round6(draft.value.quantity),
                      action.price, Pending, None, None))
  }

  /** Carries out an action, or refuses it and changes nothing. */
  function Act(desk: Desk, action: Action): Desk {
    match action
    case Propose(_, _, _, _) =>
      var drafted := Drafted(desk, action);
      if drafted.None? then desk else desk.(proposals := desk.proposals + [drafted.value])
    case ApproveIt(id, now) => if 0 <= id < |desk.proposals| then Put(desk, id, Approve(desk.proposals[id], now))
      else desk
    case RejectIt(id, now) => if 0 <= id < |desk.proposals| then Put(desk, id, Reject(desk.proposals[id], now))
      else desk
    case ExpireIt(id, now) => if 0 <= id < |desk.proposals| then Put(desk, id, Expire(desk.proposals[id], now))
      else desk
    case ExecuteIt(id, fillPrice, fees, now) =>
      if !(0 <= id < |desk.proposals|) then desk
      else
        var proposal := desk.proposals[id];
        var portfolio := if proposal.portfolioId in desk.portfolios then Some(desk.portfolios[proposal.portfolioId])
          else None;
        var execution := Execute(id, proposal, portfolio, proposal.asset in desk.assets, fillPrice, fees, now);
        if execution.Refused? then desk
        else
          desk.(proposals := desk.proposals[id := execution.proposal],
                portfolios := desk.portfolios[proposal.portfolioId := execution.portfolio])
  }

  function OpenDesk(cash: map<int, real>, assets: set<Asset>): Desk {
    Desk(map id | id in cash :: Open(cash[id]), assets, [])
  }

  function ActAll(cash: map<int, real>, assets: set<Asset>, actions: seq<Action>): Desk {
    if actions == [] then OpenDesk(cash, assets)
    else Act(ActAll(cash, assets, actions[..|actions| - 1]), actions[|actions| - 1])
  }
}
