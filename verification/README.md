# TradingBrain, modelled and proved

TradingBrain is a paper-trading research system. Around a lot of plumbing it has a deterministic
centre that people are asked to trust: a backtest engine that must not see the future and must not
lose money in its accounting, a gateway in front of language-model providers that must respect
rates, budgets and privacy, and a paper portfolio that only a human approval can move. This project
models that centre in Dafny and proves what it is trusted for, over every input, every run and --
for the gateway -- every interleaving.

Each stateful part appears twice: as functions on values that remember everything (the
specification), and as classes or loops that update their state in place, prune and forget the way
the Python does. The second is proved to compute the first, and the laws are proved about the first.

| files | part |
|---|---|
| `Rounding`, `Accounting`, `Conservation` | six-decimal money, average-cost positions, the rounding room of one trade |
| `MarketData`, `Ordering`, `Wrappers` | price series, stable sorting, the sliced market view, sums over dictionaries |
| `Backtest` | the engine, its sizers and its records, as functions |
| `BacktestEngine` | the engine as the source runs it: a loop over the timeline updating a ledger in place |
| `NoLookahead`, `BacktestCash`, `BacktestOrders`, `BacktestLots`, `BacktestMoney`, `BacktestDrift`, `BacktestTrades` | laws of whole backtest runs |
| `BacktestSizing`, `BacktestMarks`, `Openings` | what a run buys and sells, reports and remembers, read off sizers, bars and fills |
| `Parity` | a backtest and a paper portfolio given the same trades |
| `Scripts`, `Overdraft`, `LostOrders` | short runs, in full, that reach the limits of those laws |
| `Strategies`, `StrategyTerms` | the two shipped strategies as objects with a remembered set, their laws, and what they act on in the bars |
| `Windows` | a check-then-record protocol over sliding windows and calendar months |
| `Governance`, `RateLimiter`, `ResponseCache` | budget ledger, rate limiter and cache as classes with full ghost logs, for clock readings in any order |
| `Pricing`, `Routing`, `AiTypes` | cost estimates, tier and model choice, requests and responses |
| `Gateway`, `AIGateway`, `GatewayLaws` | one invocation as a function, as a class, and laws of sequences of invocations |
| `GatewayTerms` | the same in callers' terms: configured budgets, questions, callers, ways to end |
| `Interleaving`, `InterleavingLimits` | the same gateway as separate steps of many concurrent requests, its clock readings apart from its locks |
| `Uninterrupted`, `Overlap` | why the two models are one, and schedules that reach the concurrent limits |
| `PaperPortfolio`, `PaperLaws`, `StoredRows`, `PaperDates` | the paper ledger as a class, replay, replay from stored columns, reconciliation, conservation, valuation, dates |
| `Proposals`, `ApprovalGate`, `Drafts` | trade proposals and the human-approval gate, one proposal and whole desks, and what each signal comes to |
| `Indicators`, `Oscillators`, `Drawdown`, `Weights` | incremental indicators against window definitions, and the weight of each value |
| `Folds` | walk-forward folds, bar slicing, leakage control |
| `Validation`, `PriceStore` | bar validation and duplicate-safe storage |

`dafny verify dfyconfig.toml` checks everything.

## How the source is represented

- Numbers are reals. Python's `round(x, 6)` is an explicit half-even rounding to millionths; a
  `Precision` parameter lets one definition give both the exact law and its rounding bound.
- Instants and dates are integers; tickers and assets are integers standing for ordered identifiers.
- A strategy is any deterministic step from its memory and a market view to a new memory and
  signals; a sizer is one of the three shipped ones or any function.
- A provider is any sequence of outcomes: an answer, or one of the error classes.
- Time itself never runs backwards. Each locked operation of the limiter, the ledger and the cache works
  with a clock reading taken before its lock, so reading the clock is a step of its own: between two
  requests readings can reach the locks in any order and arbitrarily late. One invocation on its own
  reads the clock in order.
- The SHA-256 request fingerprint is the tuple of the fields it hashes, so equal fingerprints mean
  equal questions. A calendar month is any non-decreasing numbering of instants.
- Database rows are in-memory maps and sequences with the same natural keys.

## What was found

Where the code does not do what one might expect, the code is kept and the exact condition is proved.

- Backtest cash stays non-negative for every sizer and strategy, not only the shipped ones, exactly when
  the commission is at most 10000 basis points: for any higher one a run of three days, in the
  engine's own arithmetic, ends below zero (`BacktestCash.CashStaysSafe`, `Overdraft.CommissionBoundIsExact`).
- A sell signal of strength zero or less for an open position leaves no record, and neither does a buy
  a custom sizer asks for when there is no cash; nothing else is lost, and the lost orders complete the
  books for every sizer and strength (`BacktestOrders.OneOutcome`, `BacktestOrders.OrdersAreAccounted`,
  `LostOrders.ABuyCanBeLost`, `LostOrders.ASaleCanBeLost`).
- Unfilled records of sized-out orders carry the instant of the fill attempt, not of the queueing
  (`BacktestTrades.UnfilledSaysWhy`).
- A buy that rounds to nothing leaves a lot without an open position, exactly when the new holding is
  at most half a millionth of a unit (`BacktestLots.LotIsOpenUnlessDust`, `LostOrders.ADustLotStands`); in
  exact arithmetic a lot exists if and only if its position is open (`BacktestLots.LotsAreOpenPositions`).
- Position totals and sale figures of realized profit round at different moments. After one sale they
  agree exactly when the sale's profit is not on a tie or the position's total is an even number of
  units (`Accounting.RealizedTotalsAgreeExactly`).
- `record_sell` has no cash check: paper cash stays non-negative exactly when every accepted sale
  covers its fees up to rounding (`PaperLaws.CashNeverNegativeExactly`).
- Ledger rows keep quantity, price and fees to six decimals. Trades given to six decimals replay from the
  stored rows; others do so exactly when the holding, cash, cost and profit their rounded amounts move
  round to what the given ones move, and a buy of less than half a millionth moves nothing at all (`StoredRows.StoredRowsReplayExactly`).
- The rate limiter's windows are closed at both ends, so the exact wait is one tick short; the printed one
  is rounded to hundredths of a second. A caller who retries exactly when told is refused exactly when the
  wait was not rounded up or the other window is full by then, and both happen
  (`RateLimiter.PrintedWaitFallsShortExactly`, `RateLimiter.PrintedWaitsGoBothWays`). In a window that
  overlapping requests have overrun, the wait is measured from the wrong hit and can be short by nearly the
  whole window (`RateLimiter.OverrunWaitsAreTooShort`).
- Check and record are separate steps, so C requests between them can exceed a limit by C - 1, and a
  schedule of the gateway does, for every limit, every C and both windows
  (`InterleavingLimits.RatesUnderConcurrency`, `Overlap.OverlapReachesTheCeiling`).
- A budget check that reads its clock in one month and gets its lock in the next pops the new month's
  charges, because months are compared with `!=`. Trailing windows are only ever cautious about old
  readings (`Governance.TrailingPopsOnlyPast`); a month loses what it counts exactly when the popping passes
  a charge of the current month (`Governance.OldMonthPopsOnlyPastExactly`). The monthly limit then holds in
  every run in which checks get their lock in the month they read
  (`InterleavingLimits.MonthsHoldWhenChecksArePrompt`); without that, with one approval outstanding at a time,
  the new month can be charged its whole limit any number of times
  (`Overlap.OldReadingsSpendTheMonthAgain`, `Overlap.MonthlyLimitHoldsExactly`).
- The pre-route budget check passes an unknown cost and never degrades, so over every run no request is
  downgraded for budget (`GatewayLaws.PressureNeverDowngrades`); a request overflows its model's context
  exactly when it named one that is too small (`Routing.OnlyNamedModelsOverflow`); cache tokens can make
  an answer cost more than its projection (`Pricing.CacheTrafficEscapesProjection`).
- The fingerprint leaves the policy out: a second asker that the rate check admits is served the first one's
  answer exactly while it is alive, a frontier model's answer to a request that may not use the frontier included; no call is made
  for it (`GatewayLaws.SecondAskerSharesTheAnswer`).
- A reopened position keeps the opening date of its first purchase (`PaperDates.DatesFollowLedger`).
- A draft of at most half a millionth of a unit becomes a proposal for nothing, which can be approved and is
  never executed by any later action (`ApprovalGate.DustIsProposedAsNothing`, `ApprovalGate.DustNeverExecutes`).
- A lookback of zero returns the whole history, not nothing (`MarketData.AccessorsStayInThePast`).
- One-pass drawdown equals the all-pairs definition on curves that never go below zero, and not below
  (`Drawdown.BelowZeroThePeakIsNotWorst`).
- A bar slice passes the future-bar check for all inputs exactly when the publication lag is not
  negative (`Folds.SlicesPassExactly`). A negative fold step never yields folds or windows, only an error
  (`Folds.RollingFolds`, `Folds.Split`).

## Model

| member | source | states |
|---|---|---|
| Rounding.RoundIsNearest | quant/performance/portfolio.py:58-59 | rounding lands on the millionth grid, moves a value by at most half a unit, and no grid point is nearer |
| Rounding.RoundMonotone | quant/performance/portfolio.py:58-59 | rounding keeps order |
| Rounding.RoundOdd | quant/performance/portfolio.py:58-59 | rounding commutes with negation |
| Rounding.RoundFixesGrid | quant/performance/portfolio.py:58-59 | values already on the grid are unchanged |
| Rounding.RoundShift | quant/performance/portfolio.py:58-59 | adding a grid amount before or after rounding differs by nothing or one unit, by nothing exactly when the rounded amount is off every tie or the grid amount is an even number of units |
| Accounting.BuyConserves | quant/performance/portfolio.py:62-82 | a buy moves money from cash into the position: nothing lost exactly, at most (new quantity + 1) half units lost with rounding |
| Accounting.SellConserves | quant/performance/portfolio.py:85-111 | a sale returns cost to cash and books the difference as profit, within two half units; average cost survives while open and is cleared at flat |
| Accounting.EffectsAreStored | quant/performance/portfolio.py:62-111 | every stored amount a trade produces is on the grid |
| Accounting.RoundTripCostsFees | quant/performance/portfolio.py:62-111 | buying into a flat book and selling everything at the same price returns to flat and loses exactly both fees |
| Accounting.RealizedTotalsAgreeExactly | quant/performance/portfolio.py:96-111 | after one sale the position's total moved by the sale's own figure exactly when the profit is not on a tie or the total was even; otherwise they are one unit apart |
| Accounting.RealizedTotalsCanDiffer | quant/performance/portfolio.py:96-111 | a concrete sale whose own profit figure and the position's total change by different amounts |
| Conservation.BuyDrifts | quant/performance/portfolio.py:62-82 | a buy of any quantity, on the grid or not, moves value at cost by at most the stated rounding room |
| Conservation.SellDrifts | quant/performance/portfolio.py:85-111 | the same for a sale from a stored position |
| Accounting.MarketValueSplits | quant/performance/portfolio.py:114-121 | market value is quantity times price and unrealized profit quantity times the gap to cost, to half a unit; exactly, value is cost plus unrealized profit |
| MarketData.SortBarsCorrect | backtesting/engine.py:90-93 | sorting a series gives a time-ordered permutation in which bars of one instant keep their order |
| MarketData.SortCommutesWithCut | backtesting/market_view.py:36-46 | cutting a history at an instant before sorting or after gives the same series |
| MarketData.ViewsAgree | backtesting/market_view.py:36-46 | a view depends on the bars at or before its instant and on nothing else |
| MarketData.AccessorsStayInThePast | backtesting/market_view.py:49-82 | no accessor at any lookback returns a later bar, every bar printed by then is reachable, and a zero lookback returns everything |
| MarketData.AccessorsReadTheSeries | backtesting/market_view.py:49-82 | a positive lookback gives the last so many bars, a negative one drops as many from the front; closes list the bars' closes in order and the current price is the last |
| MarketData.BarAtIsFirst | backtesting/engine.py:339-347 | an order fills against the first bar of its series stamped now |
| NoLookahead.StatesAgree | backtesting/engine.py:104-141 | non-interference: histories that agree through t drive any strategy and sizer through identical states on any timeline up to t |
| NoLookahead.NoLookahead | backtesting/engine.py:76-146 | a run stopped at t is a prefix of any longer run over any history that agrees through t: equity points, fills, closed trades, and unfilled records up to the stopped queue |
| NoLookahead.CurveIsTimeline | backtesting/engine.py:104-141 | one equity point per instant, in order |
| BacktestMarks.TimelineIsExact | backtesting/engine.py:90-161 | a run visits, once and in order, exactly the instants some bar bears that lie in the closed window |
| BacktestMarks.DeliveryOrderHasNoSay | backtesting/engine.py:88-93 | runs over the same bars, delivered in any order that keeps bars of one instant in turn, are the same run |
| BacktestMarks.CurveIsMarkedToClose | backtesting/engine.py:131-141 | each equity point reports the book its instant left, with every open position at the close of its latest bar stamped by then, or at cost without one, rounded once |
| BacktestMarks.LatestOfDelivery | backtesting/engine.py:88-93 | that latest bar is one of those delivered, and none delivered by then is later |
| BacktestMarks.LastQueueIsLeftOver | backtesting/engine.py:95-146 | a finished run spans its first and last instants, and exactly the orders queued at the last one are unfilled for want of a bar |
| BacktestEngine.Ledger.FillBuy | backtesting/engine.py:204-263 | the in-place buy ends in exactly the specified book, or raises exactly the specified error |
| BacktestEngine.Ledger.FillSell | backtesting/engine.py:265-337 | the in-place sale, lot bookkeeping and closed trade end in exactly the specified book, or raise exactly the specified error |
| BacktestEngine.Ledger.ExecutePending | backtesting/engine.py:163-202 | executing the queue in order equals the specified fold over it, failures included |
| BacktestEngine.Ledger.Equity | backtesting/engine.py:349-360 | the loop over positions sums each one's mark, at cost when no price was ever seen; `BacktestMarks.CurveIsMarkedToClose` says which price |
| BacktestEngine.Engine.Run | backtesting/engine.py:76-146 | the whole imperative run returns exactly what the functional engine returns, so every law below holds of it |
| BacktestCash.SizedIsAffordable | backtesting/engine.py:217-236 | whatever a sizer asks, the quantity bought costs at most the cash there is, commission included |
| BacktestSizing.FractionOfEquity | backtesting/sizing.py:24-38 | quantity times price is fraction times strength times equity, or the cash if that is less, never below zero |
| BacktestSizing.UnitsOrWhatCashBuys | backtesting/sizing.py:41-49 | the units times strength, or what the cash buys if that is less |
| BacktestSizing.StopLosesTheRisk | backtesting/sizing.py:52-78 | a fall by the stop distance loses exactly risk times strength times equity, or what it costs the cash if that is less |
| BacktestSizing.WishOrAllTheCash | backtesting/engine.py:213-240 | a buy is what was asked for, or, if that with commission is more than the cash, what spends all of it |
| BacktestSizing.SlippageInBasisPoints | backtesting/schemas.py:76-83 | a buy fills at the open raised by the basis points of it, a sale at the open lowered by them, never below the floor |
| BacktestSizing.SellsItsShare | backtesting/engine.py:283-290 | a sale is its strength's share of the holding, the whole at full strength, nothing at none |
| BacktestSizing.FillsAreMeant | backtesting/engine.py:163-337 | over every run with a shipped sizer each fill is what its order means for the book that order met: a buy spends what is intended for the equity at the fill price or what the cash pays for, a sale sells its share |
| BacktestCash.CashStaysSafe | backtesting/engine.py:204-337 | cash stays on the grid and non-negative at every instant of every run, for any strategy and sizer, with commission at most 10000 bps |
| BacktestCash.ReportedCashNeverNegative | backtesting/engine.py:131-141 | no equity point ever reports negative cash |
| Overdraft.HigherCommissionOverdraws | backtesting/engine.py:204-337 | for every commission above 10000 bps a run of three days from safe starting cash, at positive prices and with the shipped all-in sizer, ends and reports below zero |
| Overdraft.CommissionBoundIsExact | backtesting/schemas.py:73-74 | cash stays non-negative over every run at a rate exactly when the rate is at most 10000 bps |
| BacktestCash.RunNeverFails | backtesting/engine.py:163-337 | on positive opens no run raises, for any strategy and sizer |
| BacktestOrders.OneOutcome | backtesting/engine.py:163-337 | each order becomes one fill, one unfilled record, or nothing: nothing exactly for a hold, a buy of something when neither it nor any part of it is affordable, and a sale of no part of an open position |
| BacktestOrders.NothingAffordableMeans | backtesting/engine.py:228-240 | at a positive price and a commission above -10000 bps, nothing is affordable exactly when something is wanted and there is no cash |
| BacktestOrders.OrdersAreAccounted | backtesting/engine.py:76-146 | for every sizer and strength a finished run turned every non-hold signal into one fill, one unfilled record or one lost order, per ticker and side |
| LostOrders.ABuyCanBeLost | backtesting/engine.py:228-240 | a run of two days in which a buy leaves neither fill nor record |
| LostOrders.ASaleCanBeLost | backtesting/engine.py:265-290 | a run of three days in which a sale of strength zero from an open position leaves neither fill nor record |
| LostOrders.ADustLotStands | backtesting/engine.py:240-263 | a run of two days that ends with a lot beside a flat position |
| BacktestOrders.ShippedOrdersLeaveRecords | backtesting/sizing.py:24-78 | with a shipped sizer and positive strength no order is lost |
| BacktestOrders.ShippedSizersNeedCash | backtesting/sizing.py:34-78 | a shipped sizer asks for a positive quantity only at a positive price with positive cash, and never for more than the cash buys |
| BacktestOrders.SignalsAreAccounted | backtesting/engine.py:104-141 | at every instant, for every sizer and strength, the signals given so far are the fills, the unfilled records, the queue and the lost orders, per ticker and side |
| BacktestOrders.QueueKeepsOrder | backtesting/engine.py:113-121 | what is queued is every signal but the holds, in the order given |
| BacktestOrders.SignalsAreConserved | backtesting/engine.py:104-141 | with a shipped sizer and positive strengths nothing is lost, and they are the fills, the unfilled records and the queue |
| BacktestOrders.OrdersAreConserved | backtesting/engine.py:76-146 | with a shipped sizer and positive strengths a finished run turned every non-hold signal into exactly one fill or one unfilled record |
| BacktestOrders.FillsAreCaused | backtesting/engine.py:104-202 | every fill at instant i answers an order queued at instant i - 1 and is priced from the open of instant i's bar with the configured slippage and commission |
| BacktestOrders.InstantAnswersItsQueue | backtesting/engine.py:104-202 | at every instant the new fills and the new unfilled records answer different orders of the previous instant's queue, in its order: none twice, none both filled and refused |
| BacktestOrders.SlippageIsAdverse | backtesting/schemas.py:76-83 | buys pay at least the open; sales receive a positive price, at most the open unless the open is below the floor |
| BacktestLots.LotsAlwaysMirror | backtesting/engine.py:240-322 | at every instant every open position has its lot, and every lot has its position's quantity and cost |
| BacktestLots.LotsAreOpenPositions | backtesting/engine.py:240-322 | at every instant of every run in exact arithmetic a ticker has a lot if and only if its position is open; in the engine's arithmetic an open position still has one |
| BacktestLots.LotIsOpenUnlessDust | backtesting/engine.py:240-249 | after a buy the lot is positive exactly when the holding exceeds the rounding slack |
| BacktestLots.ProfitsAlwaysAgree | backtesting/engine.py:292-337 | closed trades and fills report the same total profit; positions agree with it exactly, or within one unit per sale when rounding |
| BacktestTrades.ClosedTradesAreSales | backtesting/engine.py:240-337 | at every instant closed trades are the sales in order, event for event, and every lot and trade was opened by a recorded buy of its ticker |
| BacktestTrades.TradeReportsReturn | backtesting/engine.py:298-314 | a trade's entry is the position's average cost and its return is the rounded price move over it, whatever the quantity, or zero when the entry is not positive; exact in exact arithmetic |
| Openings.LotsKnowTheirOpening | backtesting/engine.py:240-322 | at every instant of every run a lot's opening is the instant its ticker last came from no lot to one |
| Openings.TradesKeepTheirOpening | backtesting/engine.py:298-322 | every closed trade was opened at that instant, as it stood when the sale met it, and closed at the sale's |
| BacktestTrades.UnfilledSaysWhy | backtesting/engine.py:163-290 | an unfilled record gives the true reason, and only a missing bar keeps the instant the order was queued |
| BacktestMoney.MoneyIsConserved | backtesting/engine.py:163-337 | in exact arithmetic cash plus positions at cost less realized profit is the starting cash at every instant, and fills explain every movement of cash |
| BacktestDrift.DriftStaysInRoom | backtesting/engine.py:163-337 | with rounding, at every instant of every run value at cost less realized profit is within the added-up room of the fills of the starting cash |
| BacktestDrift.ExactRunHasNoRoom | backtesting/engine.py:163-337 | in exact arithmetic that room is zero |
| BacktestMoney.EquityIsExplained | backtesting/engine.py:349-360 | reported equity is starting cash plus realized plus unrealized profit |
| Strategies.MovingAverageCross.OnBar | backtesting/strategy.py:87-123 | the loop over the universe leaves the specified set and signals, and raises exactly when a window of zero or less meets a ticker with enough history |
| Strategies.CrossTracksTrend | backtesting/strategy.py:84-123 | over every run a ticker is held exactly when its fast mean exceeded its slow mean the last time it was judged, and its signals alternate from a buy |
| Strategies.CrossInBacktest | backtesting/strategy.py:67-123 | inside the engine the queued orders are exactly those signals, at full strength and alternating |
| StrategyTerms.VerdictOfBars | backtesting/strategy.py:87-106 | a ticker is judged exactly with a bar stamped now and enough bars by now, and rises exactly when its last fast closes are on average above its last slow ones |
| Strategies.BuyAndHold.OnBar | backtesting/strategy.py:50-64 | the loop buys exactly the listed, current, not yet bought tickers |
| Strategies.BuysOnceAndHolds | backtesting/strategy.py:34-64 | over every run each ticker is bought once if any view listed it with a current bar, never otherwise, and never sold |
| StrategyTerms.BuyableByItsBars | backtesting/strategy.py:50-64 | a ticker can be bought exactly when it is listed, or nothing is, and some bar of it is stamped now |
| Windows.EventKeeps | ai/gateway.py:186-260 | every check, clock reading, record, give-up and passing of time keeps each window, present and future, under the concurrency ceiling, however old a reading is when it is recorded |
| Windows.NoWindowExceedsCeiling | ai/governance.py:112-254 | over every run of the check-then-record protocol no window ever exceeds limit + (capacity - 1) times the largest amount, which is the limit itself when sequential; admission counts the window at the moment of the lock |
| Governance.AllowedMeansEveryWindowFits | ai/governance.py:112-170 | a projection passes exactly when unknown, or within the per-request ceiling and every window |
| Governance.VerdictMeans | ai/governance.py:112-170 | over the request ceiling first; then the first window the projection takes past its limit; then, as a warning, the first past the warning share, each named with its spend and limit; else healthy |
| Governance.SettingsDecide | ai/governance.py:90-170 | from the settings: a known projection passes exactly within the request ceiling and, with what the closed 3600 seconds, the closed 86400 seconds and the calendar month hold, within each positive ceiling |
| Governance.Window.Prune | ai/governance.py:61-72 | destructive pruning, with a reading of any age, drops from the history exactly the specified count of entries off its front |
| Governance.Window.Spent | ai/governance.py:74-76 | the sum of what pruning with this reading leaves |
| Governance.BudgetLedger.constructor | ai/governance.py:90-110 | one fresh, empty window per configured rule, in order |
| Governance.ConfiguredWindows | ai/governance.py:102-110 | the rules are those of the positive ceilings in order: an hour of 3600 seconds, a day of 86400, the calendar month, each with its own ceiling |
| Governance.BudgetLedger.Check | ai/governance.py:112-170 | both passes over the windows give the specified verdict and pop the specified entries, with a reading of any age |
| Governance.PrunedCheckIsExact | ai/governance.py:112-170 | while readings arrive in order, the verdict with forgetful windows is the verdict of the full history, and stays so |
| Governance.TrailingPopsOnlyPast | ai/governance.py:61-66 | a trailing window pops nothing it still counts, however old the reading |
| Governance.SameMonthPopsOnlyPast | ai/governance.py:67-72 | neither does a month, given a reading of the month it is used in |
| Governance.OldMonthPopsOnlyPastExactly | ai/governance.py:67-72 | a reading of another month is harmless exactly when every entry of the current month has one of the reading's month before it |
| Governance.BudgetLedger.Record | ai/governance.py:172-180 | a known cost enters every window and the history, an unknown one none |
| RateLimiter.Limiter.Check | ai/governance.py:220-249 | the specified verdict with the rounded wait, and exactly the specified hits popped, with a reading of any age |
| RateLimiter.LeftCheckIsExact | ai/governance.py:220-249 | while readings arrive in order, the verdict with forgotten hits is the verdict of the full history, and stays so |
| RateLimiter.Limiter.Record | ai/governance.py:251-254 | a hit is added for its key only |
| RateLimiter.AdmittedMeansRoomInBothWindows | ai/governance.py:220-249 | admission means exactly that one more hit fits the closed minute and the closed hour |
| RateLimiter.RetryIsAdmittedExactly | ai/governance.py:220-249 | a later retry is admitted, nobody else being, exactly when each enabled window's limit-th latest hit is more than the window's width old |
| RateLimiter.PrintedWaitFallsShortExactly | ai/governance.py:224-262 | overrun window or not: a retry at the printed wait is refused exactly when that is no longer than the true wait or the other window is full by then; one at the true wait always is; one a tick later is admitted exactly when the other window is open; the measured wait is never longer than the true one, and equal while no window is overrun |
| RateLimiter.PrintedWaitsGoBothWays | ai/governance.py:224-262 | a printed wait after which the retry is refused, and one after which it is admitted |
| RateLimiter.OverrunWaitsAreTooShort | ai/governance.py:224-262 | an overrun minute that prints a wait of one second and stays full for sixty |
| ResponseCache.HitMeansLivePut | ai/governance.py:290-320 | a hit means the latest put for this question has not expired, and its response is returned |
| ResponseCache.Cache.Get | ai/governance.py:290-299 | the specified answer and the specified deletion of an expired entry, with a reading of any age |
| ResponseCache.GetIsExact | ai/governance.py:290-299 | while readings arrive in order, lookup with lazy deletion agrees with the full log of puts, and stays so |
| ResponseCache.FoundIsLatestAndAlive | ai/governance.py:290-299 | in any order, what is found is the latest put for the question and was alive at the reading |
| ResponseCache.Cache.PutResponse | ai/governance.py:301-320 | only successes with a positive lifetime enter the log; others disturb nothing |
| ResponseCache.Cache.Begin | ai/governance.py:322-329 | a fingerprint is claimed exactly when nobody holds it |
| ResponseCache.Cache.End | ai/governance.py:331-333 | a release frees exactly that fingerprint |
| Pricing.EstimateStepwise | config/ai_pricing.py:104-137 | the running total with its early exits equals the estimate: unknown whenever a needed rate is |
| Pricing.CostInTokens | config/ai_pricing.py:104-137 | a cost is known exactly when the model, both counts and a rate for each kind of cache traffic are; it is the tokens times their own rates per million, rounded |
| Pricing.ProjectionInCharacters | config/ai_pricing.py:139-152 | a request projects its whole output allowance and a token for every four characters of instructions, context and prompt, at least one |
| Pricing.ProjectionCovers | config/ai_pricing.py:104-152 | usage within the projected tokens and without cache tokens is priced exactly when the projection is, and never above it, after rounding |
| Pricing.CacheTrafficEscapesProjection | config/ai_pricing.py:119-137 | a concrete answer within its tokens that costs more than its projection through cache tokens |
| Routing.ChooseTierStepwise | ai/router.py:64-115 | the tier reassigned step by step is the specified choice |
| Routing.TierIsConstrained | ai/router.py:85-171 | a private or frontier-forbidden request routes local whatever its risk; escalation needs permission; downgrading needs budget pressure |
| Routing.TierExactly | ai/router.py:64-171 | the tier as a number: the task's base, one up if deserved and permitted, one down under pressure, local when the frontier is forbidden; escalated and downgraded say exactly that |
| Routing.RoutedModelIsLegitimate | ai/router.py:173-226 | the routed model is registered, of the routed tier, allow-listed, and fits unless it was named |
| Routing.UnroutableExactly | ai/router.py:173-226 | routing fails exactly when no candidate is named and none fits |
| Routing.SchemaPrefersTools | ai/router.py:212-226 | an answer with a schema goes to a fitting tool-using candidate whenever there is one and no model was named |
| Routing.FirstEligibleIsSelected | ai/router.py:173-226 | without a named candidate the first eligible model of the registry is selected, the first tool user if a schema is asked for and there is one |
| Routing.OnlyNamedModelsOverflow | ai/router.py:196-226 | a named candidate is always selected, and the selected model is too small for the request exactly when the request named a candidate that is |
| AIGateway.Gatekeeper.Call | ai/gateway.py:294-343 | the retry loop makes the specified calls, all to the routed provider, and ends as specified |
| AIGateway.Gatekeeper.AccountFor | ai/gateway.py:264-292 | pricing, charging, caching, counting and auditing an answer reach the specified state |
| AIGateway.Gatekeeper.Invoke | ai/gateway.py:148-223 | one invocation with forgetful parts answers and accounts exactly as with perfect memory, and releases its claim on every exit |
| AIGateway.FromSettings | ai/gateway.py:99-124 | a gateway built from settings starts idle and sound, with one sound window per positive ceiling |
| GatewayLaws.CountersBalance | ai/gateway.py:148-387 | over every sequence: requests = succeeded + failed + cache hits, succeeded = local + frontier, with a recorder, audit rows = succeeded + failed + budget blocks; nothing left in flight |
| GatewayLaws.TryStopsAtFirst | ai/gateway.py:306-343 | retries stop at the first outcome that is not a retryable failure, or at the last attempt |
| GatewayLaws.PressureNeverDowngrades | ai/gateway.py:225-233 | over every sequence of invocations each audit row and stored answer went where its request routes without budget pressure, and a lowered tier means that request forbids the frontier |
| GatewayLaws.CallsGoToTheRoutedModel | ai/gateway.py:225-343 | an invocation calls at most max attempts times, only the one routed model, which is local whenever the frontier is forbidden |
| GatewayLaws.InvokeStoresSuccesses | ai/gateway.py:200-223 | the cache only ever gains successes; a hit is free, carries the new request id, and touches no other state |
| GatewayLaws.StoredAnswersSucceeded | ai/governance.py:301-320 | after every sequence all cached answers are successes |
| GatewayLaws.StoredAnswersWereRouted | ai/gateway.py:264-292 | after every sequence each cached answer is what an earlier asker of its question was given, successfully and routed under that asker's policy, with that task's lifetime |
| GatewayLaws.SecondAskerSharesTheAnswer | ai/gateway.py:180-212 | an asker of a just answered question -- the same six fields -- whatever its policy, is served that very answer under its own id at no cost exactly when the gateway is on, the rate check admits it and 300, 600 or 3600 seconds by task are not over; then no provider is called |
| GatewayLaws.RateLimitsHold | ai/gateway.py:186-260 | sequentially no closed minute or hour holds more recorded hits of a key than its limit |
| GatewayLaws.BudgetsHold | ai/gateway.py:235-272 | sequentially, with providers inside their projections, no trailing hour or day and no calendar month exceeds its budget |
| GatewayTerms.ConfiguredBudgetsHold | ai/governance.py:90-110 | in the terms of the settings: no closed hour, closed day or calendar month holds more than its positive ceiling |
| AiTypes.FingerprintsTellQuestionsApart | ai/schemas.py:225-246 | fingerprints are equal exactly when requests agree on task, system, static prefix, prompt, schema and output allowance |
| GatewayTerms.CachedAnswerIsToThisQuestion | ai/gateway.py:200-212 | over every sequence whatever is served from the cache was given to an earlier request that agrees with this one on those six fields, within its lifetime, and is that answer |
| GatewayTerms.ServedAnswerIsToThisQuestion | ai/governance.py:290-333 | the same over every interleaving, for the request whose store put it there |
| GatewayTerms.KeysTellCallersApart | ai/gateway.py:352-360 | requests share a rate allowance exactly when task and caller are the same, all nameless callers being one |
| GatewayTerms.HitsAreOnesOwn | ai/gateway.py:186-260 | over every sequence the hits on record for a request are at most the invocations of its own task and caller |
| GatewayTerms.RefusalsSayWhy | ai/gateway.py:148-230 | each way to end before routing says its own error and counts itself only |
| GatewayTerms.RoutedEndsSayWhy | ai/gateway.py:225-343 | each way to end after it does too; a success carries its routing, retries and cost and is counted for its tier |
| GatewayTerms.EarlyEndsLeaveNothing | ai/gateway.py:148-262 | an invocation that ends before its provider is reached leaves no hit, call, charge or answer on record |
| GatewayTerms.ReachingLeavesItsRecords | ai/gateway.py:257-343 | one that reaches it leaves exactly its hit, its calls, and of an answer its charge if known and the answer for its lifetime |
| Interleaving.OneProviderCallPerQuestion | ai/gateway.py:200-223 | over every interleaving two running calls differ in task, system, static prefix, prompt, schema or output allowance, the in-flight set is exactly what is held, and it empties when all finish |
| Interleaving.ServedAnswersWereGiven | ai/governance.py:290-333 | over every interleaving each cached answer served is a success, the latest put for that very question, and was alive at the reading of the look-up |
| InterleavingLimits.RatesUnderConcurrency | ai/governance.py:220-254 | with at most C requests of a key between check and record, clock readings as old as one likes, no closed window exceeds limit + C - 1 hits |
| InterleavingLimits.BudgetsUnderConcurrency | ai/governance.py:112-180 | with at most C outstanding approvals of at most L, clock readings as old as one likes, no trailing window exceeds its budget by more than (C - 1) L, nor does a month from which no check pops what it still counts |
| InterleavingLimits.MonthsHoldWhenChecksArePrompt | ai/governance.py:112-180 | the same for a month whenever every budget check gets its lock in the month it read its clock in |
| Overlap.OverlapReachesTheCeiling | ai/gateway.py:186-260 | for every limit, crowd, instant and either window a schedule of different questions through the whole gateway records limit + C - 1 hits of one key in one window |
| Overlap.OldReadingsSpendTheMonthAgain | ai/governance.py:67-72 | at any turn of a month, for any number of requests, a schedule with one approval outstanding at a time charges the whole monthly limit in the new month once per request |
| Overlap.MonthlyLimitHoldsExactly | ai/governance.py:112-180 | one approval at a time keeps the monthly limit over every run if and only if the month never turns |
| Uninterrupted.InvokeIsASchedule | ai/gateway.py:148-343 | while readings are in order, for every request and clock some schedule of its own steps changes limiter, ledger, cache and in-flight set exactly as one invocation does, leaves every other request alone and keeps readings in order |
| Uninterrupted.RunIsASchedule | ai/gateway.py:148-343 | every sequence of invocations on a forward clock is such a schedule from the empty gateway, so what holds over all interleavings holds of it |
| Uninterrupted.Replies | ai/gateway.py:306-343 | the separate replies end where the retry loop ends |
| PaperPortfolio.PaperBook.RecordBuy | data/storage/portfolio_repository.py:137-176 | a buy reaches the specified portfolio or refuses and changes nothing; accepted, it leaves cash non-negative |
| PaperPortfolio.PaperBook.RecordSell | data/storage/portfolio_repository.py:179-205 | a sale reaches the specified portfolio or refuses and changes nothing |
| PaperPortfolio.PaperBook.Valuate | data/storage/portfolio_repository.py:238-316 | totals are the rounded sums over open priced positions; unpriced ones are counted and never valued |
| PaperPortfolio.Accumulate | data/storage/portfolio_repository.py:258-301 | one pass over the positions yields both totals and the unpriced count |
| PaperLaws.PositionsReplay | data/storage/portfolio_repository.py:127-235 | after any trades, refused ones included, every position is the replay of its ledger rows as they were handed over |
| StoredRows.StoredRowsReplayExactly | models/paper_portfolio.py:72-89 | the six-decimal columns replay to every position, at every moment, exactly when every accepted trade's amounts agree with what the columns keep of them |
| StoredRows.AmountsDecide | data/storage/portfolio_repository.py:137-205 | they agree -- still a trade, and the holding, the cash, a buy's average cost and a sale's profit round alike -- exactly when both have the same effect on the position |
| StoredRows.GridTradesReplayFromStoredRows | models/paper_portfolio.py:72-89 | trades given to six decimals replay from the stored rows, however the columns break ties |
| StoredRows.OffGridRowsNeedNotReplay | models/paper_portfolio.py:72-89 | an accepted buy whose stored row cannot have happened |
| PaperDates.DatesFollowLedger | data/storage/portfolio_repository.py:137-205 | a position was opened by its first ledger row and is closed exactly when its last row is a sale that left nothing, at that time |
| Parity.PaperParity | backtesting/engine.py:17-19 | at every instant of every run from a grid start, the trades behind the fills are all accepted by a paper portfolio and leave it with the same cash and every instrument with the same quantity, average cost and realized profit, sale by sale |
| PaperLaws.CashReconciles | data/storage/portfolio_repository.py:137-205 | cash is starting cash plus recorded movements, exactly from a grid start and within half a unit otherwise |
| PaperLaws.ConsistencyCheckNeverFires | observability/checks.py:390-432 | the reconciliation check never reports a mismatch |
| PaperLaws.OverdrawnExactly | data/storage/portfolio_repository.py:137-205 | a buy never overdraws; a sale overdraws exactly when its fees are not covered |
| PaperLaws.CashNeverNegativeExactly | data/storage/portfolio_repository.py:179-205 | cash is never negative in a portfolio's life exactly when every accepted sale covers its fees |
| PaperLaws.ValueIsConserved | data/storage/portfolio_repository.py:137-205 | over any trades in grid quantities, value at cost less realized profit stays the starting cash, exactly or within the ledger's own rounding allowance |
| PaperLaws.ValueStaysInRoom | data/storage/portfolio_repository.py:137-205 | over any trades of any quantity, from any starting cash, it stays within the added-up rounding room of the accepted trades, and half a unit more from an off-grid start |
| PaperLaws.ValuationIsExplained | data/storage/portfolio_repository.py:238-316 | equity plus the cost of unpriced positions is starting cash plus realized plus unrealized profit |
| Proposals.PaperTradeProposal.ApproveNow | paper_trading/proposals.py:162-179 | only a pending proposal is approved; otherwise nothing changes |
| Proposals.PaperTradeProposal.RejectNow | paper_trading/proposals.py:182-194 | only a pending or approved proposal is rejected; otherwise nothing changes |
| Proposals.PaperTradeProposal.ExpireNow | paper_trading/proposals.py:197-208 | only a pending proposal expires; otherwise nothing changes |
| Proposals.PaperTradeProposal.ExecuteNow | paper_trading/proposals.py:211-262 | execution updates proposal and portfolio as specified, and a refusal changes neither |
| ApprovalGate.LedgerMatchesProposals | paper_trading/proposals.py:211-262 | in every reachable desk executed proposals and ledger rows are in bijection with the same asset, side and quantity |
| ApprovalGate.DeskPortfoliosReplay | paper_trading/proposals.py:211-262 | in every reachable desk every portfolio is reproducible from its ledger |
| ApprovalGate.ActMovesStatus | paper_trading/proposals.py:162-262 | an action moves a proposal only along an allowed edge, only by the action named for it, dates it by that action, and changes nothing else of it |
| ApprovalGate.TerminalIsForever | paper_trading/proposals.py:162-262 | rejected, expired and executed proposals never change again |
| ApprovalGate.ExecutionWasApproved | paper_trading/proposals.py:211-262 | every executed proposal was approved while pending and only later executed while approved |
| Drafts.ExitEmptiesThePosition | paper_trading/proposals.py:61-262 | an exit signal on a holding, drafted, approved and executed with that position not moved between, adds one sale of the whole holding and leaves none; of nothing held it proposes nothing |
| Drafts.ReduceSellsAQuarter | paper_trading/proposals.py:61-262 | a reduce signal, that position not moved between, adds one sale of a quarter, rounded, and leaves the rest; it is refused exactly when the quarter rounds away |
| Drafts.AccumulateSpendsATwentieth | paper_trading/proposals.py:61-262 | an accumulate signal at its reference price without fees, whatever moved between, spends the lesser of a twentieth of the initial cash and the cash at drafting, within its rounding, and is executed exactly when it does not round away and its cost is covered |
| Drafts.AttentionProposesNothing | paper_trading/proposals.py:61-156 | any other signal, no portfolio or no price proposes nothing |
| Drafts.RowSaysHowItWasFilled | paper_trading/proposals.py:211-262 | the row of an execution carries the proposal's asset, side and quantity, the given price or else the reference price, the given fees and time, and the proposal's id |
| Drafts.RefusedExactly | paper_trading/proposals.py:211-262 | an execution changes nothing exactly when the proposal is not approved, its portfolio, asset or side is unknown, or the portfolio refuses the trade |
| ApprovalGate.ExitProposalCloses | quant/performance/portfolio.py:85-111 | selling a whole stored position leaves it flat |
| ApprovalGate.DustIsProposedAsNothing | paper_trading/proposals.py:61-156 | a proposal is for no units exactly when its draft is for at most half a millionth of one |
| ApprovalGate.DustNeverExecutes | paper_trading/proposals.py:211-262 | over every further run of the desk a proposal for no units stays one and is never executed |
| ApprovalGate.DustCanBeApproved | paper_trading/proposals.py:61-179 | a reachable desk that holds an approved proposal for no units |
| Indicators.SmaRolling | quant/indicators/moving_average.py:9-21 | the rolling sum yields the mean of each window, none in the warm-up, and refuses periods below one |
| Indicators.EmaRolling | quant/indicators/moving_average.py:24-39 | the loop yields the recursively defined average, none in the warm-up |
| Indicators.TrueRangeFilled | quant/indicators/volatility.py:10-22 | the filled array is the true range of every bar |
| Indicators.TrueRangeMeaning | quant/indicators/volatility.py:10-22 | the true range is the bar's range stretched to the previous close, never negative |
| Indicators.AtrRolling | quant/indicators/volatility.py:25-42 | the loop yields the smoothed true range, none in the warm-up |
| Indicators.MeanBounds | quant/indicators/moving_average.py:19-20 | a window mean lies between bounds of its window |
| Indicators.SmaIsCausal | quant/indicators/moving_average.py:9-21 | computed on a prefix, the prefix of the whole |
| Indicators.EmaIsCausal | quant/indicators/moving_average.py:24-39 | computed on a prefix, the prefix of the whole |
| Indicators.EmaStaysWithin | quant/indicators/moving_average.py:32-38 | an EMA never leaves the range of the inputs consumed so far |
| Weights.EmaWeights | quant/indicators/moving_average.py:24-39 | the closed form: each value has 2/(n+1) of what later ones leave, the seed mean the rest |
| Weights.EmaFollowsTheLatest | quant/indicators/moving_average.py:34-38 | moving the newest value moves the average by exactly its share of that |
| Indicators.AtrIsCausal | quant/indicators/volatility.py:25-42 | computed on a prefix, the prefix of the whole |
| Indicators.WilderStaysWithin | quant/indicators/volatility.py:37-41 | a smoothed average never leaves the range of what it has consumed |
| Weights.WilderWeights | quant/indicators/volatility.py:37-41 | the closed form: each value has 1/n of what later ones leave, the seed mean the rest |
| Oscillators.RsiRolling | quant/indicators/oscillators.py:8-35 | both loops yield the index over all moves, none in the warm-up |
| Oscillators.RsiIsUpwardShare | quant/indicators/oscillators.py:38-42 | the index is the upward share of all movement in percent, 100 exactly without losses and 0 exactly without gains |
| Oscillators.RsiReadsHundredExactly | quant/indicators/oscillators.py:8-42 | the index lies in [0, 100]; with a period of two or more it reads 100 exactly while the series has never fallen |
| Oscillators.RsiIsCausal | quant/indicators/oscillators.py:8-35 | computed on a prefix, the prefix of the whole |
| Oscillators.MacdAligned | quant/indicators/oscillators.py:45-70 | the re-aligned lines are the gap of the two averages, its average from index max(fast, slow) + signal - 2, and their difference; a bad signal period raises only once there is a gap |
| Oscillators.MacdIsCausal | quant/indicators/oscillators.py:45-70 | all three lines computed on a prefix are the prefix of the whole |
| Weights.MacdLeansToTheLatest | quant/indicators/oscillators.py:45-70 | a higher newest price lifts the line by the difference of the two shares, which is positive |
| Drawdown.MaxDrawdown | quant/indicators/returns.py:26-36 | the result is the lowest of zero and every distance from the running peak, and is attained |
| Drawdown.DrawdownIsWorstPair | quant/indicators/returns.py:26-36 | on a curve from above zero that never goes below it, no ordered pair falls further, some pair falls as far, and -1 means exactly that it touched zero |
| Drawdown.BelowZeroThePeakIsNotWorst | quant/indicators/returns.py:26-36 | a concrete curve below zero where a pair falls further than reported |
| Folds.OrderedPeriodsAreDisjoint | experiments/config.py:191-203 | checking neighbours is enough: accepted periods share no day |
| Folds.FoldMeansNoLeak | experiments/walkforward.py:66-82 | a fold exists exactly when its periods are in order, and then never tests on a day it trained or validated on |
| Folds.RollingFolds | experiments/walkforward.py:93-146 | terminates for every step; the refusals exactly, leakage only for negative validation days; a negative step ends in an empty anchored period or off the calendar, whichever comes first; otherwise the counted folds, each where the plan puts it |
| Folds.FoldsStayInside | experiments/walkforward.py:115-139 | every fold is ordered and inside the period, and one more would not fit |
| Folds.FoldsAreLaidOut | experiments/walkforward.py:112-139 | training, validation and testing follow without a gap, each for its own days; the first fold begins with the period and each next one a step later |
| Folds.TestsTile | experiments/walkforward.py:108-139 | consecutive test windows differ by step minus test length: no overlap exactly when the step is no shorter |
| Folds.EachDayTestedOnce | experiments/walkforward.py:108-139 | with the default step each tested day lies in exactly one test window |
| Folds.SliceBars | experiments/walkforward.py:163-194 | each non-empty slice and only those, whatever the order of tickers |
| Folds.SliceIsContiguous | experiments/walkforward.py:163-194 | a slice is one contiguous run of the sorted series with exactly the available warm-up, at most what was asked |
| Folds.SlicedByInstants | experiments/walkforward.py:149-194 | a bar is in a period's slice, or before it, by its stamp plus the lag against the midnights that bound the period |
| Folds.SlicesPassExactly | experiments/walkforward.py:197-209 | slices pass the future-bar check for all inputs exactly when the lag is not negative |
| Folds.Split | backtesting/walk_forward.py:84-101 | the counted windows, each at its multiple of the step; none when nothing fits; a negative step walks out to an empty slice |
| Folds.WindowsDoNotLeak | backtesting/walk_forward.py:84-101 | each window trains strictly before it tests, and steps no shorter than a test share no tested instant |
| Validation.PassesExactly | data/normalization/validation.py:115-167 | a bar passes exactly with four positive prices, its body inside its range, non-negative volume and no stamp more than a day ahead |
| Validation.CodesTellTheTruth | data/normalization/validation.py:115-167 | the code of a rejected bar names something that is wrong with it |
| Validation.ValidatePriceBars | data/normalization/validation.py:64-112 | the loop with its seen set and flags produces the specified report |
| Validation.ValidBarsExactly | data/normalization/validation.py:64-112 | valid bars are strictly increasing and exactly the first good bar of every stamp |
| Validation.ReportBalances | data/normalization/validation.py:48-112 | rejected bars equal errors, clean means nothing was dropped, and the one possible warning appears exactly when kept bars were reordered |
| Validation.RevalidationIsClean | data/normalization/validation.py:64-112 | validating the output again, now or later, returns it unchanged with no issue |
| PriceStore.PriceTable.UpsertPriceBars | data/storage/price_repository.py:40-67 | the batch with its key sets yields the specified table; inserted plus skipped is the batch |
| PriceStore.UpsertKeepsTable | data/storage/price_repository.py:40-67 | stored rows are untouched, keys stay unique, and exactly the batch's keys are added |
| PriceStore.UpsertIsIdempotent | data/storage/price_repository.py:40-67 | repeating a batch, or any bars drawn from it, inserts nothing |
| PriceStore.ValidatedBarsAllStored | data/storage/price_repository.py:40-67 | a validated delivery new to the table is stored whole in time order, and validating and storing it again adds nothing |

## Left out

- BacktestMoney.MoneyIsConserved: stated for exact arithmetic; with rounding the bound is `BacktestDrift.DriftStaysInRoom`, and for paper trades `PaperLaws.ValueStaysInRoom`.
- BacktestMoney.EquityIsExplained: stated for exact arithmetic.
- BacktestLots.ProfitsAlwaysAgree: under rounding the positions' total is bounded against the fills per sale, not equal, because it really differs; `Accounting.RealizedTotalsAgreeExactly` says when one sale differs.
- PaperLaws.ValuationIsExplained: stated for exact arithmetic; under rounding each printed total is the rounded sum proved for `Valuate`.
- Uninterrupted.InvokeIsASchedule: for an enabled gateway; a disabled one answers before any of the steps. Counters, audit rows and the call record belong to one invocation only.
- Interleaving.OneProviderCallPerQuestion: a step is a clock reading or what the limiter, ledger or cache does under one lock; interleaving inside a lock is excluded by the source's locks and not modelled.
- Folds.Split: a step of zero on a timeline that fits a window is excluded, since the source's loop does not end.
- Folds.RollingFolds: the calendar's last day is not modelled; its first is.
- Strategies.MovingAverageCross.OnBar: the formatted reason of a signal is a fixed phrase.
- Float rounding, infinities and NaN arithmetic: numbers are exact reals; a missing or NaN price is a flag on the reading.
- Wall-clock regressions, time zones and datetime overflow: instants are integers on one non-decreasing clock.
- Performance metrics (Sharpe, Sortino, CAGR, volatility), Bollinger bands and regime detection: square roots and real powers, or short case tables.
- `snapshot`, `stats`, `status` and other read-only reports, exposure and allocation percentages, per-position valuation lists.
- The checks made when a request is constructed (non-blank prompt, input ceiling, complexity within 0..1): no law needs them.
- Audit-recorder failures, latency measurement and provider timeouts.
- HTTP routers, dashboard, CLI, scheduling, logging, SQL schemas other than the ledger's six-decimal columns, market-data and model-provider adapters, prompt and report text.
