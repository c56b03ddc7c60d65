# A verified model of the backtest engine and the repair planners

The project models two parts of the trading console and proves what they promise.

**The backtest engine** (`src/backtest`). `Runner.BacktestRunner.RunBars` is the bar loop: it books fills into a portfolio,
shows the bar to the strategy, plans and filters intents, queues orders, takes performance points, feeds the debug trace and
calls the sinks. It is written with objects that change in place (portfolio, guard, fill model, orders, sinks, trace emitter)
and is proved to compute exactly a pure fold over the bars, `RunSpec.Run`. The whole-run results (`Run*.dfy`) are theorems about
that fold, so they hold of the loop. The strategy is any function of everything it has been shown so far.

**Gap detection and repair planning**. `Gaps` proves that the pairwise scan, the set difference and the `lag` query find the same
maximal runs of missing points; `OffGrid` and `Buckets` when the scan and the query still do so on rows that lie between grid
points. `Alignment` covers the rounding of windows, `Windows` and `Calendar` the cutting by day and by month, `Backfill` and
`Retention` the two planners end to end, and `RepairWindows` the in-place merging of windows.

Prices and amounts are exact reals (`Decimal` in the source), times are integers (microseconds). An operation that can raise
returns a `Result`; a lookup that can miss returns an `Option`.

| files | content |
|---|---|
| `Wrappers`, `Sequences`, `Market`, `Totals`, `Calendar` | shared vocabulary, sums, the Gregorian calendar |
| `Portfolio`, `Lifecycle`, `Signals`, `Fills`, `Risk`, `Performance` | one module per source file: specification functions, the classes, their laws |
| `RunSpec`, `RunLaws` | one step and one run as functions, and the laws every run theorem uses |
| `RunAccounting`, `RunTargets`, `RunWaiting`, `RunStacking`, `RunOrders`, `RunHistory`, `RunGuard`, `RunLosses`, `SessionHistory`, `RunSession`, `RunFriction`, `RunPrefix`, `RunPoints`, `RunRaises` | theorems over whole runs |
| `Streaming`, `Traces`, `Runner`, `RunSinks`, `RunTraces` | sinks, trace compression, the loop itself, the order of sink calls, the trace of a run |
| `Cursor` | the market-context cursor |
| `Periods`, `PeriodTotals`, `PeriodDrawdown`, `RunPeriods` | the breakdown by year, quarter or month, and that of a run |
| `Gaps`, `OffGrid`, `Buckets`, `Alignment`, `Windows`, `Backfill`, `Retention`, `RepairWindows` | finding and repairing gaps |

## Where the code needs a condition

These came out of the proofs. The code is modelled as it is, and the condition is stated exactly.

* The cached day boundary of the guard starts at 0, so it gives the right trading day exactly when the first bar is not before
  1970 (`CacheIsRightIffNotBeforeEpoch`).
* `_estimate_resulting_gross_exposure` multiplies by `None` for a seeded position that has neither a mark nor an entry price yet;
  `mark_to_market` skips that position (`SeededSymbolMakesGrossRaise`). A run raises this way only at a bar before which some
  seed has had no bar, and only with a gross or leverage limit (`TypeErrorNeedsUnpricedSeed`). With such limits and no others,
  some strategy that keeps to the bar's own symbol makes a fresh run raise exactly when the first bar's symbol is in the
  universe and a nonzero seed has another symbol (`SomeRunRaisesIff`).
* The summary over the full list of points and the streamed one agree exactly when some drawdown is not negative, or there is
  no point (`StreamingSummaryAgreesIff`); in a run all are nonnegative.
* Day and month windows end one millisecond before the next one starts, so an instant strictly inside that millisecond is not fetched
  (`DayWindowsCover` and `MonthWindowsCover` give the exact sets).
* A period's drawdown is bounded by the run's if equity is never negative. Once it is negative the bound can fail
  (`NegativeEquityFallsDeeper`); for one equity and two peaks the exact condition is `LowerPeakIsShallowerIff`.
* Dropping microseconds after rounding is harmless exactly for intervals of whole seconds (`RoundingIsExactIff`); the backfill
  script's own ceiling falls short exactly for a fraction of a second past a boundary (`BackfillCeilIsCeilIff`).
* Several datasets reach the interval profile with rows off the grid (`src/jobs/data_quality.py:826-847`). It then finds what
  the set difference finds exactly when every such row lies between two stored neighbours of the grid
  (`ScanFindsRunsIff`, `TotalIsRightIff`); otherwise it reports too few points and never too many. Two funding rows a few
  milliseconds late are enough to hide a whole day (`LateFundingHidesGaps`).
* The backfill's query rounds funding rows down to their buckets, so it finds what the set difference finds exactly when every
  row comes with the grid point its interval starts at (`LagFindsMissingIff`). Rounding goes the right way exactly for times
  from 1970 on, or within the first second of an interval (`BucketIsFloorIff`).
* The market context is loaded from one row before the run's start. A lookup further back, which warm-up bars and the four-hour
  comparison make, finds nothing where the table has a row, exactly if that row is not the last one before the start
  (`PriorRowSufficesIff`); that decides when the context and the changes are right (`LoadedContextIff`, `LoadedChangeIff`).
* Joining repair windows leaves the covered whole seconds alone exactly when the earlier window ends on a whole second
  (`JoiningIsExactIff`). Every window the script builds does, whatever its start (`DetectedRepairIsExact`). The input
  records must not share a list of sources, because the copies share theirs with the originals.
* Following the target takes market orders filed under their own symbol, and one target a decision. With limit orders a run
  with nothing but a position limit ends at twice the limit (`LimitOrdersOvershoot`), and so does one with market orders whose
  decision names its symbol twice (`DoubledItemsOvershoot`); an order for another symbol never fills (`ForeignOrderNeverFills`).

## Model

| member | source | states |
|---|---|---|
| `Portfolio.PortfolioState.ApplyFill` | src/backtest/state.py:66-137 | A fill turns the stored state into the booked ledger, field by field, and reports the outcome: opening, adding, closing in part, closing flat and flipping, on both sides. |
| `Portfolio.PortfolioState.CalculateEquity` | src/backtest/state.py:139-148 | The loop over the position dict returns cash plus the marked value of the positions that can be priced, whatever order the dict is walked in. |
| `Portfolio.PortfolioState.MarkToMarket` | src/backtest/state.py:150-185 | One walk computes equity, gross, net and unrealized profit as sums over the positions; its equity is the one of the short form. |
| `Portfolio.GrossIsLongAndShort` | src/backtest/state.py:150-185 | Gross is the value of the long positions plus the size of the short ones, net the one less the other. |
| `Portfolio.FillKeepsCapital` | src/backtest/state.py:66-137 | Cash plus cost of open positions plus fees less realized profit is unchanged by any fill whatsoever. |
| `Portfolio.FillMovesPosition` | src/backtest/state.py:66-137 | A fill moves its symbol's signed quantity by exactly the signed fill, leaves a known entry price behind, and touches no other symbol. |
| `Portfolio.FillIsCounted` | src/backtest/state.py:66-137 | Fees, slippage and turnover grow by the fill's own; it counts as a close unless it adds to what is held, and as a win exactly if it raises the realized profit. |
| `Portfolio.AddingAveragesEntry` | src/backtest/state.py:86-137 | Adding to a position moves the entry price strictly between the old entry and the price paid. |
| `Portfolio.EquityDecomposes` | src/backtest/state.py:139-185 | For any, even partial, mark map, equity is capital plus realized plus unrealized profit less fees. |
| `RunAccounting.RunKeepsAccounts` | src/backtest/runner.py:251-417 | After any number of bars, capital equals starting cash plus the seeded positions at their first open, and no position that has traded or been seen lacks an entry price. |
| `RunAccounting.EquityAccountsForEverything` | src/backtest/runner.py:251-417 | At every moment of every run equity is starting cash plus seeded basis plus realized plus unrealized profit less fees. |
| `Lifecycle.BacktestLifecycle.PlanFromTargetPosition` | src/backtest/lifecycle.py:93-150 | The planning loop yields the intents of the specification, and raises on the same item. |
| `Lifecycle.BacktestLifecycle.PlanFromDecision` | src/backtest/lifecycle.py:51-91 | Signals and targets are planned by the same rule, signals after signing their quantity. |
| `Lifecycle.SignalIsOneTarget` | src/backtest/lifecycle.py:66-91 | A short signal asks for its quantity below zero, a flat one for zero, any other for its quantity; it raises without one, off the venue or for a flip without permission, and otherwise has one intent to that target, or none if that is held. |
| `Lifecycle.PlanIsTheMoves` | src/backtest/lifecycle.py:93-159 | Planning raises exactly when some item is off the venue, has no target, or flips without permission; otherwise there is one intent for every target that differs from what is held, in order. |
| `Lifecycle.PlannedIntentsAreCoherent` | src/backtest/lifecycle.py:93-150 | Each intent's side and delta lead from the current position to a target that was asked for, and it is marked reduce-only only if it reduces. |
| `Lifecycle.PlanCoversTargets` | src/backtest/lifecycle.py:93-150 | Every target asked for is either already held or has an intent towards it. |
| `Signals.BuildSignals` | src/backtest/signals.py:12-56 | The loop reports one signal for every target that differs from what is held. |
| `Signals.SignalsPlanTheSame` | src/backtest/signals.py:12-56 | Signals and intents of a target position match one to one, a signal's direction and size are the sign and magnitude of its target, and planning it by itself gives the very intent. |
| `Signals.TypesMean` | src/backtest/signals.py:71-80 | Entry is from flat, exit to flat, reverse across zero, reduce towards zero and rebalance further out. |
| `Fills.DeterministicBarsFillModel.CreateOrder` | src/backtest/fills.py:221-242 | A new order object with the next number, priced at the limit or at the close for limit orders. |
| `Fills.DeterministicBarsFillModel.ProcessOpenOrder` | src/backtest/fills.py:244-286 | The order is filled completely, at the basis its type and the bar give, or left alone; the status changes with it. |
| `Fills.DeterministicBarsFillModel.ExpireOpenOrder` | src/backtest/fills.py:289-292 | Open orders expire; others keep their status. |
| `Fills.OrdersFillWhenReached` | src/backtest/fills.py:244-320 | An open order on its symbol's bar: a market order fills at the open, a limit order exactly when the bar reaches its price and then at that price; always the whole quantity. |
| `Fills.OnlyOpenOrdersFill` | src/backtest/fills.py:244-320 | An order that is not new, submitted or partly filled, or of another symbol, is left alone; any other type than market or limit raises. |
| `Fills.FillCostsItsRates` | src/backtest/fills.py:161-203 | Market orders are off their reference by the market rate and pay the taker fee, limit orders by the limit rate and the maker fee; slippage cost is the distance times the quantity. |
| `Fills.OrderMovesToTarget` | src/backtest/fills.py:221-242 | An order carries the position from what was held to the intent's target; a limit order rests at the intent's limit, or at the close without one. |
| `Fills.SlippageIsAdverse` | src/backtest/fills.py:185-203 | Buys never fill below reference and sells never above, and the cash a fill takes is reference value plus slippage plus fee. |
| `Risk.BacktestRiskGuardrailEngine.RefreshSessionState` | src/backtest/risk.py:386-404 | The session after a refresh: trading day, day's first equity, peak and last equity, with the cached next boundary. |
| `Risk.BacktestRiskGuardrailEngine.ObserveFillApplication` | src/backtest/risk.py:95-109 | A losing close starts the cooldown at the policy's length and counts an activation. |
| `RunLosses.LossSetsCooldown` | src/backtest/risk.py:95-109 | Being told of a fill raises the counter to the policy's length exactly if booking it lowers the realized profit. |
| `RunLosses.LosingFillIs` | src/backtest/state.py:66-137 | A fill lowers the realized profit exactly if it trades against what is held, below the entry for a long and above it for a short. |
| `Risk.BacktestRiskGuardrailEngine.CompleteBar` | src/backtest/risk.py:111-113 | The cooldown counts down by one and stops at zero. |
| `Risk.BacktestRiskGuardrailEngine.EstimateResultingGrossExposure` | src/backtest/risk.py:431-449 | The loop returns the gross that `mark_to_market` gives for the portfolio moved to the target, or raises where a price is missing. |
| `Risk.GrossAfterMovesOneSymbol` | src/backtest/risk.py:431-449 | The estimate is the present gross with the symbol's position replaced by the target, at its mark or else its entry price. |
| `Risk.UnpriceableIff` | src/backtest/risk.py:431-449 | It raises exactly over a position left open without a mark and an entry price. |
| `Risk.BacktestRiskGuardrailEngine.DetectViolation` | src/backtest/risk.py:185-384 | The chain of checks returns the first rule in order that is breached. |
| `Risk.BacktestRiskGuardrailEngine.EvaluateIntent` | src/backtest/risk.py:135-183 | An intent is allowed, allowed by the reduce-only bypass, or blocked with the code of the first breach. |
| `Risk.BacktestRiskGuardrailEngine.FilterExecutionIntents` | src/backtest/risk.py:60-93 | Marks and session are refreshed at the close first, also when there is no intent, and each intent is judged in turn. |
| `Risk.ReducesOrExpands` | src/backtest/risk.py:512-524 | For any nonzero change exactly one of "reduces only" and "expands exposure" holds, so the bypass never admits expansion. |
| `Risk.DetectionStopsAtFirst` | src/backtest/risk.py:185-384 | Detection reports a rule exactly when every earlier rule is clear and it is not. |
| `Risk.PassesIffClear` | src/backtest/risk.py:185-384 | An intent passes exactly when no rule at all objects. |
| `Risk.ClearIsWithinLimits` | src/backtest/risk.py:185-384 | No rule is breached exactly when every configured limit holds as an inequality on quantities, notionals, gross and leverage. |
| `Risk.ExpansionAllowedIffWithinLimits` | src/backtest/risk.py:135-384 | An intent that expands exposure is allowed exactly when it is within every limit and no estimate raises. |
| `Risk.PermittedIff` | src/backtest/risk.py:120-384 | For any intent: judging raises exactly when the first rule that is not clear does; the ruling is to allow exactly within the limits, and else names the first breached rule; and the intent is permitted exactly within the limits or, if the policy has the bypass, as reduce-only towards zero. |
| `Risk.OutcomeDescribesIntent` | src/backtest/risk.py:131-183 | The outcome repeats the intent's symbol, time and quantities, with its notional at the close. |
| `Risk.ReductionNeverBlocked` | src/backtest/risk.py:504-510 | With the bypass on, a true reduction is never blocked. |
| `Risk.AllowedTargetIsBounded` | src/backtest/risk.py:135-183 | Whatever is allowed ends within the position limit or no further out than it was, bypass included. |
| `Risk.FilterJudgesEach` | src/backtest/risk.py:60-93 | One outcome per intent, in order, and exactly the permitted intents are passed on, in order. |
| `Risk.SeededSymbolMakesGrossRaise` | src/backtest/risk.py:431-449 | With a gross or leverage limit and no other, any expanding intent beside an unpriced position of another symbol makes the guard raise, although marking the same portfolio gives the totals without that position. |
| `RunRaises.TypeErrorNeedsUnpricedSeed` | src/backtest/risk.py:431-449 | If a run raises a TypeError, then at the bar that raises it some seeded symbol has had no bar yet, and gross exposure or leverage is limited; with own-symbol decisions that seed is not zero. |
| `RunRaises.SomeRunRaisesIff` | src/backtest/risk.py:431-449 | With exposure or leverage limits only, some own-symbol strategy makes a fresh run raise exactly when the first bar's symbol is in the universe and some nonzero seed has another symbol. |
| `RunRaises.NoSeedsNoTypeError` | src/backtest/runner.py:196-203 | Without seeded positions no run raises a TypeError. |
| `Runner.BacktestRunner.RunBars` | src/backtest/runner.py:169-478 | The whole loop equals the pure run: log, final cash and positions, order statuses, sink calls, points, traces, chunks and summary, or the same exception. |
| `Runner.BacktestRunner.FillPhase` | src/backtest/runner.py:254-289 | Pending orders of the bar's symbol are processed in queue order; filled ones leave, the rest stay, and each order object's status says where it is. |
| `Runner.BacktestRunner.DecidePhase` | src/backtest/runner.py:291-334 | The strategy sees the history so far, the intents are planned and filtered at the close, and allowed ones become numbered orders. |
| `RunHistory.HistoryIsShown` | src/backtest/runner.py:251-307 | At every bar the strategy is shown the latest bars of the symbol in order, as many as the cap allows, the present one last, with the cash and the nonzero positions of the ledger. |
| `RunHistory.DecisionsAreLogged` | src/backtest/runner.py:135-167 | The log of a bar holds the plan of the decision on everything shown so far, and counts the signals it is reported as. |
| `RunHistory.MarksAreLatestCloses` | src/backtest/runner.py:340-340 | A symbol is marked with the close of its latest bar, and not before its first. |
| `Runner.BacktestRunner.ProcessBar` | src/backtest/runner.py:254-415 | One bar is one step of the specification, including what raises. |
| `Runner.BacktestRunner.CompleteGroup` | src/backtest/runner.py:417-434 | At the end of a bar time a performance point is taken against the running peak and the cooldown advances. |
| `Runner.BacktestRunner.ExpireOpenOrders` | src/backtest/runner.py:436-441 | Exactly the pending orders expire, and the status sink is told if there are any. |
| `Runner.BacktestRunner.FlushTraces` | src/backtest/runner.py:443-446 | The remaining quiet span and buffers are delivered; the trace goes to the list or else to the sink and is counted either way. |
| `RunTargets.PositionFollowsTarget` | src/backtest/runner.py:268-339 | With market orders and own-symbol targets, when any bar is evaluated the position is exactly the last allowed target, or the seed; and nothing but the order towards that target is pending. |
| `RunTargets.PositionLimitHolds` | src/backtest/runner.py:268-339 | From seeds within the limit no reachable position ever exceeds it, even with the reduce-only bypass. |
| `RunTargets.PendingIsFilled` | src/backtest/runner.py:260-289 | When the symbol's next bar is evaluated nothing is pending any more and the goal is reached. |
| `RunWaiting.IdleOrderWaits` | src/backtest/fills.py:244-286 | An order that no bar of its queue moves is pending at every later point of the run. |
| `RunWaiting.ForeignOrderNeverFills` | src/backtest/runner.py:327-339 | An order for another symbol than the bar it was decided on never fills, over any continuation. |
| `RunWaiting.UnreachedBidWaits` | src/backtest/fills.py:302-320 | A bid below every later low is pending at every later point of the run. |
| `RunWaiting.OrdersStackBesideBid` | src/backtest/runner.py:327-339 | Every order that a later bar of the symbol creates is pending beside it, under another number. |
| `RunWaiting.StackedBidsOvershoot` | src/backtest/runner.py:268-289 | Two bids towards the same goal, each at its own price, carry the position twice as far when one bar reaches both. |
| `RunStacking.LimitOrdersOvershoot` | src/backtest/runner.py:251-339 | A run from a fresh start with limit orders: only q was ever allowed, q is the position limit, and 2q is held. |
| `RunStacking.DoubledItemsOvershoot` | src/backtest/lifecycle.py:93-150 | A run from a fresh start with market orders and a decision that asks for q of the bar's own symbol twice: only q was ever allowed, q is the position limit, and 2q is held at the next bar. |
| `RunOrders.RunConserves` | src/backtest/runner.py:260-339 | In every reachable state orders and fills are numbered without gaps, each fill matches a filled order, and created orders are split between filled and pending. |
| `RunOrders.EachOrderHasOneFate` | src/backtest/runner.py:260-441 | Every created order is filled exactly once or still pending exactly once, and then expires. |
| `RunOrders.IdsIdentify` | src/backtest/fills.py:221-242 | No two orders of a run share a number. |
| `RunOrders.FillsComeFromEarlierOrders` | src/backtest/runner.py:260-339 | A fill carries out an order that a strictly earlier bar of the same symbol created. |
| `RunSinks.OrderSinkComesFirst` | src/backtest/runner.py:285-338 | Whenever the fill sink is handed a fill, an earlier call handed its order to the order sink. |
| `RunSinks.SinksReceiveEverything` | src/backtest/runner.py:280-335 | The sinks are handed every fill, every created order and every filled status once, in order, in no empty call. |
| `RunLosses.RunReplaysItsLog` | src/backtest/runner.py:254-289 | In every reachable state the ledger is what replaying the log, entry prices and fills, gives; and an outcome tells of a losing close exactly where the replay loses. |
| `RunLosses.CooldownFollowsLosses` | src/backtest/risk.py:95-113 | After any run the counter is max(0, N - (g - L)), L being the group of the last bar on which some fill lowered the realized profit, and 0 if there was none. |
| `RunGuard.NoExpansionInCooldown` | src/backtest/risk.py:196-205 | An expanding intent can only be allowed when the counter is zero. |
| `RunLosses.NoExpansionAfterLosingBar` | src/backtest/risk.py:95-205 | No exposure-expanding intent is allowed from a bar on which some fill lowered the realized profit through the N bar times that begin with it. |
| `SessionHistory.ReplayTracks` | src/backtest/risk.py:386-404 | For nondecreasing times from 1970 on, the cached session equals the naive reading of the whole history: local day, day's first equity, peak, last equity. |
| `SessionHistory.LocalDayIsBetweenMidnights` | src/backtest/risk.py:386-397 | A trading day runs from one local midnight to the next, and the cached boundary is the one that ends it. |
| `SessionHistory.CacheIsRightIffNotBeforeEpoch` | src/backtest/risk.py:386-404 | The cached day is right throughout exactly when the first time is not before 1970. |
| `RunSession.SessionRefinesHistory` | src/backtest/risk.py:60-77 | In every run the guard's session is the naive reading of the equities at the bars so far. |
| `RunSession.LastEquityIsThePoint` | src/backtest/risk.py:60-77 | At each group's end the guard's last equity is the performance point's, although one uses the short form and one the long. |
| `RunFriction.CashDecomposesIntoFriction` | src/backtest/fills.py:185-286 | After any run cash is cash replayed at reference prices less fees less slippage, and no fill beat its reference. |
| `RunFriction.TakerFeesAreTurnoverRate` | src/backtest/fills.py:161-172 | With market orders only, fees are turnover times the taker rate. |
| `RunPrefix.NoLookahead` | src/backtest/runner.py:251-441 | Bars after a cut between bar times change nothing before it: log, points and orders of the shorter run are a prefix of the longer one's, and an exception stays. |
| `RunPoints.StreamedSummaryIsTheSummary` | src/backtest/runner.py:448-463 | In every run the summary from the latest point and a running maximum equals the one over all points. |
| `RunPoints.RunDrawdownIsDeepest` | src/backtest/runner.py:417-424 | The reported maximum drawdown is the deepest fall from the running peak over all points of the run: none is deeper and one is as deep. |
| `RunPoints.SummaryDescribesTheLedger` | src/backtest/performance.py:65-137 | The summary of a run is that of its final ledger at its final marks: equity, profits, fees, slippage, a return that grows the initial cash to the final equity, turnover as a multiple of the initial cash, and when there is an annualized return. |
| `RunPoints.NothingToSummarize` | src/backtest/performance.py:74-92 | A run without bars reports the initial cash and zeros. |
| `Performance.StreamingSummaryAgreesIff` | src/backtest/performance.py:65-137 | For any list of points the two summaries agree exactly when there is no point or some drawdown is not negative. |
| `Performance.DrawdownIsNonNegative` | src/backtest/performance.py:41-62 | A drawdown against a peak that covers the equity is not negative. |
| `Performance.DrawdownIsRelative` | src/backtest/performance.py:41-62 | The equity is the peak less the drawdown's part of it; from a peak that is not positive the drawdown is zero. |
| `Performance.PeakIsHighest` | src/backtest/performance.py:41-62 | The running peak is the highest of the initial cash and all equities. |
| `Streaming.ChunkedSink.Push` | src/backtest/runner.py:427-431 | What was delivered plus what is buffered is everything pushed; a chunk is delivered exactly when it is full. |
| `Streaming.ChunkedSink.Flush` | src/backtest/runner.py:444-446 | Afterwards the chunks concatenate to everything pushed, and no chunk is empty or too large. |
| `Traces.QuietTraceCompressionSpan.Add` | src/backtest/runner.py:83-88 | The span's last, highest and lowest record are updated in place; the first extreme wins ties. |
| `Traces.QuietTraceCompressionSpan.SelectedRecords` | src/backtest/runner.py:90-102 | The four records sorted by step, each step once. |
| `Traces.SpanIsRepresentative` | src/backtest/runner.py:76-88 | A span holds the first and the last record of its stretch and records with the highest and the lowest close. |
| `Traces.FirstExtremesWin` | src/backtest/runner.py:83-88 | Of several records with the same highest or lowest close the span holds the first. |
| `Traces.SelectedKeeps` | src/backtest/runner.py:90-102 | At most four records, strictly increasing in step, all from the stretch, with those four among them. |
| `Traces.CompressionKeepsOrderAndActivity` | src/backtest/runner.py:341-411 | The compressed trace is a strictly increasing part of the full one and keeps every activity record. |
| `Traces.QuietStretchIsSelected` | src/backtest/runner.py:391-405 | Each maximal quiet stretch contributes exactly its selected records, in its place. |
| `Traces.TraceEmitter.Feed` | src/backtest/runner.py:391-405 | Compressing as records pass gives the compression of everything fed so far. |
| `RunTraces.TraceOfRun` | src/backtest/runner.py:341-411 | The trace of a run is strictly increasing; each record is a bar of the run, eventful or on the stride; every bar with a fill, an order, a signal or a blocked intent is in it; and without compression every bar on the stride. |
| `RunTraces.StretchIsRepresented` | src/backtest/runner.py:391-405 | At stride 1 a compressed trace keeps at most four records of each quiet stretch of steps, among them its first and last and steps with its highest and lowest close. |
| `Cursor.PerpContextCursor.At` | src/backtest/data.py:99-162 | For nondecreasing times the forward cursor gives what a rescan gives, derived fields included, and its positions only move forward within the rows. |
| `Cursor.ContextLooksBack` | src/backtest/data.py:99-199 | The context at a time, derived fields included, does not depend on rows after it. |
| `Cursor.NextFundingIsNext` | src/backtest/data.py:164-173 | The minutes lead from the current minute to the first funding time after the decision time. |
| `Cursor.ChangeIsRelative` | src/backtest/data.py:175-190 | A change of c takes the value a window earlier to the latest one. |
| `Cursor.ChangeExistsIff` | src/backtest/data.py:175-190 | There is a change exactly if both times have a row and the earlier one a value other than zero. |
| `Cursor.DerivedFieldsMean` | src/backtest/data.py:132-162 | The price change is the mark's or else the index's; the push flag is there exactly with both changes, and true exactly if open interest grew by more than the price moved either way. |
| `Cursor.LatestRowBeforeOrAt` | src/backtest/data.py:192-199 | The scan returns the last row not after the time. |
| `Cursor.LatestIsLatest` | src/backtest/data.py:192-199 | On sorted rows that is the row with the greatest time not after it, and there is one exactly when some row is early enough. |
| `Cursor.PriorRowSufficesIff` | src/backtest/data.py:293-330 | For any lookup not after the window's end, one prior row plus the window answers as the whole table does exactly when the lookup is inside the window, the table has no row for it, or none of the table's rows lies between it and the window; otherwise it finds nothing. |
| `Cursor.LoadedContextIff` | src/backtest/data.py:293-330 | The context over the loaded rows is the one over the tables exactly when that holds of every dataset at the decision time. |
| `Cursor.LoadedChangeIff` | src/backtest/data.py:175-190 | A four-hour change over the loaded rows is the one over the table exactly when the table has none or the loaded rows answer four hours back. |
| `Cursor.LoadedDerivedFields` | src/backtest/data.py:132-162 | If that holds of open interest, mark and index price, all derived fields are those over the tables. |
| `Periods.BuildPeriodBreakdown` | src/backtest/periods.py:71-123 | The grouping loop yields one entry per stretch of points with one bucket, with the fills and signals of that bucket. |
| `Periods.BuildEntry` | src/backtest/periods.py:126-170 | The loops of an entry compute its deepest local drawdown and the sums over its fills. |
| `Periods.GroupByPeriod` | src/backtest/periods.py:173-186 | Looking a bucket up, with an empty default, gives the records of that bucket in order. |
| `Periods.ChunksPartition` | src/backtest/periods.py:88-123 | The stretches put together are the points, in order. |
| `Periods.ChunksAreBuckets` | src/backtest/periods.py:88-123 | Each stretch has one bucket and neighbouring stretches have different ones. |
| `Periods.ChunksAscend` | src/backtest/periods.py:71-123 | With points in time order no bucket comes back: periods strictly ascend. |
| `Periods.SameBucketIffSameIndex` | src/backtest/periods.py:189-196 | Two timestamps share a bucket exactly when they fall into the same calendar period. |
| `Periods.BucketStartsFirst` | src/backtest/periods.py:199-207 | A bucket's start lies in the bucket and is not after any timestamp of it. |
| `Periods.EntriesChain` | src/backtest/periods.py:83-123 | The first entry starts at the initial cash, each later one where the one before ended, and the last ends at the last point. |
| `Periods.ReturnsCompound` | src/backtest/periods.py:126-138 | If no entry starts from zero, the product of 1 + return is final equity over initial cash. |
| `PeriodTotals.TotalsAddUp` | src/backtest/periods.py:146-170 | Fees, slippage, turnover and fill counts of the entries add up to those of the fills whose period has a point, and signal counts to the signals whose period has one. |
| `Periods.EntryDescribesItsPeriod` | src/backtest/periods.py:126-170 | An entry starts with the first moment of its period and ends with its last point, and its drawdown is the deepest fall of its points from the highest equity since its start. |
| `PeriodTotals.EveryFillIsTaken` | src/backtest/periods.py:80-123 | If every fill's period has a point, those are all the fills. |
| `RunPeriods.FillsHavePoints` | src/backtest/runner.py:253-434 | In a finished run every fill has a performance point of the same time. |
| `RunPeriods.EntriesAddUpToTheRun` | src/backtest/periods.py:71-170 | For any run of ordered bars the entries add up to the ledger: fees, slippage, turnover over the initial cash, and the number of fills. |
| `PeriodDrawdown.PeriodsFallNoDeeper` | src/backtest/periods.py:140-144 | With equity never negative, no period's drawdown exceeds the run's. |
| `RunPeriods.PeriodsStayWithinTheRun` | src/backtest/periods.py:140-144 | In a run whose equity is never negative no period falls deeper than the maximum drawdown that the run reports. |
| `PeriodDrawdown.LowerPeakIsShallowerIff` | src/backtest/periods.py:140-144 | From a lower peak the same equity is a smaller fall exactly when it is not negative. |
| `PeriodDrawdown.NegativeEquityFallsDeeper` | src/backtest/periods.py:140-144 | Three dated points whose second period falls by three times its start while the run falls by one and a half. |
| `Gaps.ProfileTimestamps` | src/jobs/data_quality.py:368-427 | The pairwise scan with its early returns computes the profile: leading, internal and tail counts and the listed segments. |
| `Gaps.FindBySetDifference` | src/jobs/data_quality.py:1199-1257 | Building the expected set, subtracting and grouping gives the runs of missing points and the number of points expected. |
| `Gaps.GapsAreMaximalRuns` | src/jobs/data_quality.py:1241-1257 | A run is listed exactly when all its points are missing and neither neighbour is. |
| `Gaps.RunsAreSeparate` | src/jobs/data_quality.py:1241-1257 | Runs are listed in order with an observed point between any two. |
| `OffGrid.ScanFindsRunsIff` | src/jobs/data_quality.py:368-427 | For ordered rows in an aligned window, leading shortfall, segments and tail are exactly those runs if and only if every row off the grid lies between two stored neighbours of the grid. |
| `OffGrid.TotalIsRightIff` | src/jobs/data_quality.py:349-427 | The total never exceeds the number of missing points, and equals it under the same condition and no other. |
| `OffGrid.TotalIsExpectedLessStoredIff` | src/jobs/data_quality.py:349-427 | The total is the points expected less the distinct ones stored under the same condition and no other. |
| `Gaps.FindersAgree` | scripts/binance_btc_history_backfill.py:569-654 | Pairwise profile, set difference and lag query over the distinct times agree. |
| `OffGrid.StrayRowHidesGaps` | src/jobs/data_quality.py:393-427 | Any row off the grid with a missing neighbour makes the total too small, at any interval. |
| `OffGrid.LateFundingHidesGaps` | src/jobs/data_quality.py:393-427 | At the eight-hour funding interval two rows a few milliseconds late hide four missing points. |
| `Alignment.RoundingIsExactIff` | src/jobs/data_quality.py:328-346 | Floor and ceiling to an interval are the true ones for all times exactly when the interval is whole seconds. |
| `Alignment.BarWindowRoundsInwards` | src/jobs/data_quality.py:292-298 | Aligning a bar window is the minute ceiling of its start and the minute floor of its end. |
| `Alignment.BoundaryIsMultiple` | src/jobs/data_quality.py:430-433 | The boundary test accepts exactly the multiples of the interval. |
| `Alignment.GridIsEveryBoundary` | src/jobs/data_quality.py:345-357 | The grid of an aligned window is every boundary the window itself contains. |
| `Alignment.BackfillCeilIsCeilIff` | scripts/binance_btc_history_backfill.py:154-164 | For every time and interval, when the script's ceiling is the true one. |
| `Calendar.AddMonthsMovesForward` | scripts/binance_btc_history_backfill.py:124-129 | Adding k months moves at least 28 k days forward, by whole days, under leap years and day clamping. |
| `Windows.BuildDayWindows` | scripts/binance_btc_history_backfill.py:143-151 | The loop yields the windows of the specification, which the tiling results below are about. |
| `Windows.BuildMonthWindows` | scripts/binance_btc_history_backfill.py:132-140 | The same by calendar months; the loop ends because months move forward. |
| `Windows.BuildIncrementalWindows` | scripts/binance_btc_history_backfill.py:701-717 | The windows of a list of gaps, gap after gap. |
| `Windows.DayWindowsCover` | scripts/binance_btc_history_backfill.py:143-151 | How often any instant is covered: once, or not at all inside the last millisecond of a chunk, and never outside. |
| `Windows.DayWindowsTile` | src/jobs/remediate_market_snapshots.py:154-162 | Every whole millisecond of the range lies in exactly one day window. |
| `Windows.MonthWindowsTile` | scripts/binance_btc_history_backfill.py:132-140 | Every whole millisecond of the range lies in exactly one month window, and nothing outside in any. |
| `Windows.MonthWindowsCover` | scripts/binance_btc_history_backfill.py:132-140 | How often any instant is covered by month windows: once, or not at all strictly inside the last millisecond before a window starts. |
| `Windows.ChunksCoverGapsExactly` | scripts/binance_btc_history_backfill.py:701-717 | Chunking a list of gaps covers an instant as often as it lies in a gap, for every instant a whole number of milliseconds from the start of each gap. |
| `Backfill.MissingPointsAreFetchedOnce` | scripts/binance_btc_history_backfill.py:545-727 | The incremental backfill fetches every missing grid point in exactly one window, and no stored point at all. |
| `Buckets.BucketIsFloorIff` | scripts/binance_btc_history_backfill.py:380-385 | The bucket expression gives the start of the interval exactly for times from 1970 on or within the first second of an interval; otherwise a later time. |
| `Buckets.LagFindsMissingIff` | scripts/binance_btc_history_backfill.py:578-654 | On rows anywhere, the lag query over their buckets lists the runs of missing points exactly when every row of the window comes with the grid point its interval starts at. |
| `Buckets.GridRowsSuffice` | scripts/binance_btc_history_backfill.py:578-654 | Where the query keeps only rows on the grid it always lists the runs of missing points. |
| `Buckets.UnhitPointsAreFetchedOnce` | scripts/binance_btc_history_backfill.py:545-727 | With rows anywhere, the backfill fetches a grid point once if no row lies in the interval it starts, and not at all otherwise. |
| `Retention.RetentionLimitedPlan` | src/jobs/remediate_market_snapshots.py:165-235 | The planner's branches give the plan of the specification: reason, start, end, latest row and counts. |
| `Retention.RequiredIffMissing` | src/jobs/remediate_market_snapshots.py:187-205 | Remediation is required exactly when some boundary between the retention floor and now has no stored row. |
| `Retention.PlanIsComplete` | src/jobs/remediate_market_snapshots.py:203-249 | Then every missing point lies in the planned window and in exactly one of the day windows it is cut into. |
| `Retention.ReasonsMean` | src/jobs/remediate_market_snapshots.py:200-220 | The reason names what is missing: nothing stored, the window's start, a point before a stored one, or only points after the latest. |
| `Retention.StartMeans` | src/jobs/remediate_market_snapshots.py:200-222 | A plan starts at the floor, at the earliest missing point if there is a gap, or for a missing end at the later of the floor and a day before the latest row. |
| `Retention.CountsAreOfMissing` | src/jobs/remediate_market_snapshots.py:222-235 | The three counts are the numbers of points missing before the first stored one, after the last, and in between. |
| `Retention.LatestIsGreatest` | src/jobs/remediate_market_snapshots.py:185-186 | The latest row is the greatest one on an interval boundary. |
| `Retention.GapsAreInnerRuns` | src/jobs/remediate_market_snapshots.py:222-235 | The number of gaps is that of maximal runs of missing points that neither begin nor end the window. |
| `Retention.FloorIsMidnight` | src/jobs/data_quality.py:470-490 | The floor is the last midnight at least thirty days back. |
| `RepairWindows.MergeWindows` | scripts/repair_bars_integrity_windows.py:87-100 | Sorting, copying and extending records in place yields the merge of the given windows in new records that keep the first list of each group. |
| `RepairWindows.MergingIsExact` | scripts/repair_bars_integrity_windows.py:87-100 | For any windows the merged ones are sorted, more than a second apart, and name every source as often as the input; if ends are whole seconds they cover exactly the whole seconds that the input covered. |
| `RepairWindows.DetectedRepairIsExact` | scripts/repair_bars_integrity_windows.py:82-145 | For any detected findings, fractional starts included, the rendered windows cover exactly the whole seconds from a gap's start through the minute of its end and those of a bad row's minute, and name each finding once. |
| `RepairWindows.JoiningIsExactIff` | scripts/repair_bars_integrity_windows.py:92-98 | Joining any later window leaves the covered whole seconds alone exactly when the earlier window ends on a whole second. |

## Left out

* Database access, transactions, repositories, the exchange client, the HTTP application, scheduling and the console: rows a query returns are
  parameters, described by what the query guarantees (order, bounds, distinctness).
* Concrete strategies and the configuration models: a strategy is an arbitrary function of all evaluations so far, configurations are plain datatypes.
* `Decimal` rounding to 28 digits and the float in `total_seconds()`: amounts are exact reals, times exact integers.
* The power function of the annualized return: it is an arbitrary function of its two arguments (`Performance.Horizon`).
* Fee schedules read from the database, and their cache: fees are the static schedule.
* A claim that cash stays nonnegative: the spot-cash check prices at the close, while a market order fills at a later open.
* Time zones with daylight saving: the trading day uses a fixed offset.
* Sorting of the bars inside the loop: the model takes them as sorted, which is how the loading entry point calls it. The theorems that need order say so.
* The market context inside the loop: `Cursor` shows it to be a function of symbol and time, so it is part of the arbitrary strategy.
* Signal ids and their hashing, reason codes and the persisting of signals; the progress callback and cancellation.
* Field copying and serialization in trace records, metadata and notes: a trace record here is its step, time, symbol, close and activity flag.
* The flags that turn collecting of orders, fills and steps off: the model always keeps those lists; performance points and traces have their flags.
* State after an exception: a raised run returns the error and says nothing about what had been changed by then.
* The period breakdown's database rows: points, fills and signals are parameters; a missing fee or slippage is 0 already.
* Years after 9999, at which the source's month arithmetic raises.
* The branches of the snapshot remediation that are not limited by retention.
* Cursor.PriorRowSufficesIff: rows of one series have distinct times here; with ties the query's choice of prior row is not determined.
* Periods.SameBucketIffSameIndex: months are taken to be 1 to 12, as in any timestamp.
