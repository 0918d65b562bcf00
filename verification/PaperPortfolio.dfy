/** The paper portfolio: positions, cash and an append-only ledger
    (data/storage/portfolio_repository.py). */
module PaperPortfolio {
  import opened Wrappers
  import opened Rounding
  import opened Accounting
  import opened Ordering

  type Asset = int

  datatype Side = BuySide | SellSide

  /** An immutable ledger row. `note` is the proposal that caused it. */
  datatype Transaction = Transaction(
    asset: Asset, side: Side, quantity: real, price: real, fees: real,
    cashDelta: real, realizedPnl: real, executedAt: int, note: int)

  /** One row per asset ever traded; a closed position keeps its row. */
  datatype Row = Row(state: PositionState, openedAt: int, closedAt: Option<int>)

  datatype Portfolio = Portfolio(initialCash: real, cash: real, positions: map<Asset, Row>, ledger: seq<Transaction>)

  /** One trade to record. */
  datatype Trade = Trade(asset: Asset, side: Side, quantity: real, price: real, fees: real, at: int, note: int)

  function StateOf(positions: map<Asset, Row>, asset: Asset): PositionState {
    if asset in positions then positions[asset].state else FLAT
  }

  function Effects(p: Precision, s: PositionState, trade: Trade): Result<Effect> {
    if trade.side == BuySide then ApplyBuy(p, s, trade.quantity, trade.price, trade.fees)
    else ApplySell(p, s, trade.quantity, trade.price, trade.fees)
  }

  function LedgerRow(trade: Trade, effect: Effect): Transaction {
    Transaction(
      trade.asset, trade.side, trade.quantity, trade.price, trade.fees,
      effect.cashDelta, effect.realizedPnl, trade.at, trade.note)
  }

  function RowAfter(positions: map<Asset, Row>, trade: Trade, state: PositionState): Row {
    var held := trade.asset in positions;
    if trade.side == BuySide then Row(state, if held then positions[trade.asset].openedAt else trade.at, None)
    else
      var row := if held then positions[trade.asset] else Row(FLAT, trade.at, None);
      Row(state, row.openedAt, if state.quantity == 0.0 then Some(trade.at) else row.closedAt)
  }

  /** Records a trade or refuses it; a buy may not spend cash that is not there, a sale is not checked
      against cash. */
  function RecordTrade(p: Precision, pf: Portfolio, trade: Trade): Result<Portfolio> {
    var effect :- Effects(p, StateOf(pf.positions, trade.asset), trade);
    if trade.side == BuySide && pf.cash + effect.cashDelta < 0.0 then Err(InsufficientCash)
    else
      Ok(pf.(
        cash := Round(p, pf.cash + effect.cashDelta),
        positions := pf.positions[trade.asset := RowAfter(pf.positions, trade, effect.state)],
        ledger := pf.ledger + [LedgerRow(trade, effect)]))
  }

  function Open(initialCash: real): Portfolio {
    Portfolio(initialCash, initialCash, map[], [])
  }

  /** Attempts trades in turn; a refused one changes nothing. */
  function AfterTrades(p: Precision, initialCash: real, trades: seq<Trade>): Portfolio {
    if trades == [] then Open(initialCash) else
      var before := AfterTrades(p, initialCash, trades[..|trades| - 1]);
      var attempt := RecordTrade(p, before, trades[|trades| - 1]);
      if attempt.Ok? then attempt.value else before
  }

  // ----- valuation -----

  type Prices = map<Asset, real>

  datatype Valuation = Valuation(
    cash: real, positionsValue: real, equity: real, realized: real, unrealized: real, unpriced: nat)

  predicate IsOpen(positions: map<Asset, Row>, asset: Asset) {
    StateOf(positions, asset).quantity > 0.0
  }

  /** Market value of an open, priced position; nothing otherwise -- a stale cost is not a value. */
  function ValueAt(p: Precision, positions: map<Asset, Row>, prices: Prices): int -> real {
    asset =>
      if IsOpen(positions, asset) && asset in prices
      then MarketValue(p, StateOf(positions, asset), prices[asset])
      else 0.0
  }

  function UnrealizedAt(p: Precision, positions: map<Asset, Row>, prices: Prices): int -> real {
    asset =>
      if IsOpen(positions, asset) && asset in prices
      then UnrealizedPnl(p, StateOf(positions, asset), prices[asset])
      else 0.0
  }

  function RealizedAt(positions: map<Asset, Row>): int -> real {
    asset => StateOf(positions, asset).realizedPnl
  }

  ghost function Unpriced(positions: map<Asset, Row>, prices: Prices): set<Asset> {
    set asset | asset in positions && IsOpen(positions, asset) && asset !in prices
  }

  /** The portfolio as the source keeps it: rows assigned field by field. */
  class PaperBook {
    const initialCash: real
    var cash: real
    var positions: map<Asset, Row>
    var ledger: seq<Transaction>

    function Contents(): Portfolio
      reads this
    {
      Portfolio(initialCash, cash, positions, ledger)
    }

    constructor (initialCash: real)
      ensures Contents() == Open(initialCash)
    {
      this.initialCash, cash, positions, ledger := initialCash, initialCash, map[], [];
    }

    /** Buys, or refuses and leaves everything as it was. */
    method RecordBuy(
      asset: Asset, quantity: real, price: real, fees: real, at: int, note: int)
      returns (failure: Option<Error>)
      modifies this
      ensures var attempt := RecordTrade(
        SixPlaces, old(Contents()), Trade(asset, BuySide, quantity, price, fees, at, note));
        if attempt.Ok? then failure == None && Contents() == attempt.value
        else failure == Some(attempt.error) && Contents() == old(Contents())
      ensures failure == None ==> cash >= 0.0
    {
      hide Times, Over;
      var applied := ApplyBuy(SixPlaces, StateOf(positions, asset), quantity, price, fees);
      if applied.Err? {
        return Some(applied.error);
      }
      var effect := applied.value;
      var cashAfter := cash + effect.cashDelta;
      if cashAfter < 0.0 {
        return Some(InsufficientCash);
      }
      ZeroOnGrid(SixPlaces);
      RoundKeepsBound(SixPlaces, 0.0, cashAfter);
      var openedAt := if asset in positions then positions[asset].openedAt else at;
      positions := positions[asset := Row(effect.state, openedAt, None)];
      cash := Round6(cashAfter);
      AppendTransaction(Transaction(
        asset, BuySide, quantity, price, fees, effect.cashDelta, effect.realizedPnl, at, note));
      return None;
    }

    /** Sells, or refuses and leaves everything as it was. A sale that is not refused always finds its row. */
    method RecordSell(
      asset: Asset, quantity: real, price: real, fees: real, at: int, note: int)
      returns (failure: Option<Error>)
      modifies this
      ensures var attempt := RecordTrade(
        SixPlaces, old(Contents()), Trade(asset, SellSide, quantity, price, fees, at, note));
        if attempt.Ok? then failure == None && Contents() == attempt.value
        else failure == Some(attempt.error) && Contents() == old(Contents())
    {
      hide Times, Over;
      var applied := ApplySell(SixPlaces, StateOf(positions, asset), quantity, price, fees);
      if applied.Err? {
        return Some(applied.error);
      }
      var effect := applied.value;
      assert asset in positions;
      var row := positions[asset];
      row := row.(state := effect.state);
      if effect.state.quantity == 0.0 {
        row := row.(closedAt := Some(at));
      }
      positions := positions[asset := row];
      cash := Round6(cash + effect.cashDelta);
      AppendTransaction(Transaction(
        asset, SellSide, quantity, price, fees, effect.cashDelta, effect.realizedPnl, at, note));
      return None;
    }

    method AppendTransaction(transaction: Transaction)
      modifies this`ledger
      ensures ledger == old(ledger) + [transaction]
    {
      ledger := ledger + [transaction];
    }

    /** Realized profit of every position ever held, the closed ones included. */
    method TotalRealized() returns (realized: real)
      ensures realized == SumOver(positions.Keys, RealizedAt(positions))
    {
      hide SumOver, Sorted;
      realized := 0.0;
      var assets := Sorted(positions.Keys);
      ghost var left, f := positions.Keys, RealizedAt(positions);
      for i := 0 to |assets|
        invariant assets[i..] == Sorted(left) && left <= positions.Keys
        invariant realized + SumOver(left, f) == SumOver(positions.Keys, f)
      {
        SortedStep(left, f);
        var asset := assets[i];
        assert asset == assets[i..][0] && assets[i + 1..] == assets[i..][1..];
        realized := realized + positions[asset].state.realizedPnl;
        left := left - {asset};
      }
      NothingLeft(left, f);
    }

    /** Values the portfolio against a price list. Open positions without a price are counted, not valued. */
    method Valuate(prices: Prices) returns (v: Valuation)
      ensures v.cash == Round6(cash)
      ensures v.positionsValue == Round6(SumOver(positions.Keys, ValueAt(SixPlaces, positions, prices)))
      ensures v.equity == Round6(cash + SumOver(positions.Keys, ValueAt(SixPlaces, positions, prices)))
      ensures v.unrealized == Round6(SumOver(positions.Keys, UnrealizedAt(SixPlaces, positions, prices)))
      ensures v.realized == Round6(SumOver(positions.Keys, RealizedAt(positions)))
      ensures v.unpriced == |Unpriced(positions, prices)|
    {
      hide *;
      var value, gain, unpriced := Accumulate(positions, prices);
      var realized := TotalRealized();
      v := Valuation(Round6(cash), Round6(value), Round6(cash + value), Round6(realized), Round6(gain), unpriced);
    }
  }

  method Accumulate(positions: map<Asset, Row>, prices: Prices) returns (value: real, gain: real, unpriced: nat)
    ensures value == SumOver(positions.Keys, ValueAt(SixPlaces, positions, prices))
    ensures gain == SumOver(positions.Keys, UnrealizedAt(SixPlaces, positions, prices))
    ensures unpriced == |Unpriced(positions, prices)|
  {
    hide *;
    value, gain, unpriced := 0.0, 0.0, 0;
    var assets := Sorted(positions.Keys);
    ghost var left, skipped := positions.Keys, Unpriced(positions, prices);
    ghost var values, gains := ValueAt(SixPlaces, positions, prices), UnrealizedAt(SixPlaces, positions, prices);
    NothingCounted(positions, prices);
    for i := 0 to |assets|
      invariant assets[i..] == Sorted(left) && left <= positions.Keys
      invariant value + SumOver(left, values) == SumOver(positions.Keys, values)
      invariant gain + SumOver(left, gains) == SumOver(positions.Keys, gains)
      invariant unpriced == |skipped - left|
    {
      var asset := assets[i];
      NextOf(assets, i, left, values, gains, skipped);
      ValuesOf(positions, prices, asset);
      var state := positions[asset].state;
      if state.quantity > 0.0 {
        if asset in prices {
          value := value + MarketValue(SixPlaces, state, prices[asset]);
          gain := gain + UnrealizedPnl(SixPlaces, state, prices[asset]);
        } else {
          unpriced := unpriced + 1;
        }
      }
      left := left - {asset};
    }
    NoneLeft(left, values, gains, skipped);
  }

  lemma NothingCounted(positions: map<Asset, Row>, prices: Prices)
    ensures |Unpriced(positions, prices) - positions.Keys| == 0
  {
    assert Unpriced(positions, prices) - positions.Keys == {};
  }

  /** What one position adds to each total. */
  lemma ValuesOf(positions: map<Asset, Row>, prices: Prices, asset: Asset)
    requires asset in positions
    ensures var state := positions[asset].state;
      var counted := state.quantity > 0.0 && asset in prices;
      && ValueAt(SixPlaces, positions, prices)(asset) ==
           (if counted then MarketValue(SixPlaces, state, prices[asset]) else 0.0)
      && UnrealizedAt(SixPlaces, positions, prices)(asset) ==
           (if counted then UnrealizedPnl(SixPlaces, state, prices[asset]) else 0.0)
      && (asset in Unpriced(positions, prices) <==> state.quantity > 0.0 && asset !in prices)
  {
  }

  lemma NextOf(assets: seq<int>, i: int, left: set<int>, f: int -> real, g: int -> real, counted: set<int>)
    requires 0 <= i < |assets| && assets[i..] == Sorted(left)
    ensures var x := assets[i];
      && x in left && assets[i + 1..] == Sorted(left - {x})
      && SumOver(left, f) == f(x) + SumOver(left - {x}, f)
      && SumOver(left, g) == g(x) + SumOver(left - {x}, g)
      && |counted - (left - {x})| == |counted - left| + if x in counted then 1 else 0
  {
    hide Sorted, SumOver;
    SortedStep(left, f);
    SortedStep(left, g);
    assert assets[i] == assets[i..][0] && assets[i + 1..] == assets[i..][1..];
    CountStep(counted, left, assets[i]);
  }

  lemma NoneLeft(left: set<int>, f: int -> real, g: int -> real, counted: set<int>)
    requires Sorted(left) == []
    ensures SumOver(left, f) == 0.0 && SumOver(left, g) == 0.0 && |counted - left| == |counted|
  {
    NothingLeft(left, f);
    NothingLeft(left, g);
    SortedEmpty(left);
    assert counted - left == counted;
  }

  lemma CountStep(counted: set<int>, left: set<int>, x: int)
    requires x in left
    ensures |counted - (left - {x})| == |counted - left| + if x in counted then 1 else 0
  {
    if x in counted {
      assert counted - (left - {x}) == counted - left + {x};
    } else {
      assert counted - (left - {x}) == counted - left;
    }
  }
}
