# Trading platform: replay, paper trading, training and audit

A Dafny model of a crypto trading research platform: a market replay engine that backtests
strategies, a paper-trading engine that re-implements the same loop over live bars with a kill
switch, a journal and crash recovery, the walk-forward pipeline that trains the models, and the
hash-chained audit log. The proofs are about whole runs: the paper engine refines the backtest, the
backtest never looks ahead, every point of its equity curve is what its fills have earned, the journal
determines the books in every reachable state, a fold's training cannot see its future, a verified log
is fixed by its head.

Time is `int` (minutes), money and quantity are `real`. Calendar keys, models, calibrators, feature
computations, the square root and the hash are parameters; theorems that need something of them
(the feature contract, a collision-free hash, a true square root) say so in a `requires`.

## How the modules fit

- `Collections`, `Reals`: sequence filters, a stable sort, order facts about products.
- `Market`, `Intervals`, `Timeline`, `Source`, `Oms`, `Venue`, `Risk`, `Desk`, `Backtest`: the replay
  engine. Values and functions say what a step does; classes with the source's fields (`SimClock`,
  `MarketReplaySource`, `OrderManager`, `SimulatedVenue`, `RiskManager`) and the loops of
  `run_backtest` are proved to act as those functions.
- `ReplaySafety`, `OrderLedger`, `Valuation`, `DecisionContext`, `Commitment`, `Tracking`, `Exposure`,
  `Rebalancing`, `Drawdown`: properties of whole replays.
- `CostBasis`, `Accounting`, `Fifo`, `RoundTrips`: average cost, profit decomposition, FIFO matching.
- `Strategies`, `DecisionRule`: features, the model-driven strategies and the paper predictor, and what
  they do with the model's probabilities.
- `PaperState`: the paper engine as a function of its state. `KillSwitch`, `PaperEngine`: the engine
  as a class, each method proved against `PaperState`. `PaperRefinement`, `PaperRecovery`,
  `PaperProfit`, `PaperHalts`, `PaperCurve`, `PaperOrders`, `PaperExposure`, `PaperValuation`,
  `PaperRecords`, `PaperCrash`, `PaperResume`, `PaperRedelivery`, `PaperSeed`: its theorems.
  `PaperExamples`: one small life of it. `Merging`: candles into buffers.
- `Json`, `Audit`, `Journal`: payload text, the audit log, its file store and the paper journal.
- `FeatureStore`, `TrainServe`, `Labels`, `Folds`, `TrainingSet`, `FoldReplay`, `Splitter`: the leakage
  boundary of walk-forward training, and the rows it trains on.
- `Oracle`, `Moments`, `MomentValues`, `Funding`: the perfect-foresight benchmark, bounds on standardised
  statistics, and the funding features that use them.

## Where the code and its documentation differ

The model follows the code. Each difference has a lemma at an input where the documentation fails and
an exact condition as a theorem.

- `max_drawdown` is documented as a fraction in [0, 1]: true exactly while equity does not go below
  zero after having been positive (`Drawdown.MaxDrawdownIsAFraction`; from 1 to -1 it is 2,
  `Drawdown.DrawdownPastOne`).
- The predictor's direction is documented never to disagree with the executed target: with negative
  equity it does (`Strategies.DirectionAgreesIff`, `Strategies.LongIntoShort`).
- Re-emitting a target is documented to produce no duplicate order (src/trade/mre/types.py:19-24):
  delta orders do not look at the queue, so a target is met exactly when nothing net was queued for
  its symbol (`Commitment.LastTargetIsMetIff`). `RiskParityStrategy` names several symbols on its
  primary's bars (src/trade/strategies/risk_parity.py:63-95); such a strategy buys twice when a
  symbol misses a bar (`Rebalancing.SameTargetTwiceDoubles`).
- An active kill reason is documented to mean no new position (src/trade/runtime/kill_switch.py:3-6):
  the gate does not look at orders queued before the halt, and they fill under it
  (`PaperExamples.StaleEngineOpens`). With one bar per symbol in a group, no position grows or changes
  sign exactly when no group carries the symbol, or held plus queued lies between zero and held
  (`PaperExposure.HaltedQueueDecides`); with more, exactly when moreover no group flattens the symbol
  twice (`PaperExposure.HaltedNeverOpensIff`, `PaperExposure.FlattenedTwiceReverses`).
- Recovery is documented to resume exactly where it left off (src/trade/paper/engine.py:595-597).
  Inside a group it never does: the group's bars and time are lost with the state file they were not yet
  in (`PaperRedelivery.NeverWhereItLeftOff`), and nothing else need be wrong for the next decision to
  differ (`PaperExamples.MissedBar`). Also, the queue is the last saved one, which is what was still to
  be filled exactly when no queued order was for a bar opened so far and no decision so far called for
  an order (`PaperCrash.CrashInsideGroup`, `PaperExamples.LostOrder`, `PaperExamples.OrderFilledTwice`).
  If the group is delivered again, the engine continues as if never interrupted, its count of decisions
  aside, exactly when nothing had filled and halts do not matter, for a lost order is decided again
  (`PaperExamples.LostOrderReturns`); if it is not, it continues, under the
  same condition, as an engine that never saw the group (`PaperRedelivery.CrashedRunIff`,
  `PaperRedelivery.CrashedGroupIff`). Seeding brings the bar back exactly to a buffer shorter than the
  longest lookback (`PaperRedelivery.SeedReturnsBarIff`).
- At a group boundary everything comes back but order ids, risk memory and halts, and the run continues
  the same exactly as long as no decision is one that a halt of only one of the two engines blocks
  (`PaperResume.RunResumesIff`, `PaperResume.RestartedGroupIff`, `PaperExamples.RestartTradesAgain`).
- With the master switch off no position is documented ever to open or close: true of an engine that
  was never armed, not of one that restores a queue (`PaperHalts.DisabledNeverTrades`,
  `PaperHalts.DisabledNeverFillsIff`, `PaperExamples.SwitchedOffStillFills`).
- The long/short oracle is called a maximum: it is an upper bound, attained exactly when no bar
  falls (`Oracle.LongShortAttainedIff`, `Oracle.FallingPairIsNotAttained`).
- The audit chain is documented to verify after a restart: true exactly of payloads whose keys sort
  the same before and after rendering (`Audit.IntactLogVerifiesIff`). A dict keyed 9 and 10 under a
  string key is legal and fails (`Audit.NestedIntegerLogFails`).
- Every event is documented to be written twice (src/trade/paper/journal.py:3-8): true exactly of
  payloads with string keys, hence of every payload within the annotation of `record`
  (`Journal.WrittenTwiceIff`). One keyed by integers, outside it, is chained and then raises
  (`Journal.IntegerKeyLosesItsLine`).

## Model

| member | source | states |
|---|---|---|
| `Source.SimClock.AdvanceTo` | src/trade/mre/clock.py:23-30 | a move succeeds exactly when it is not backward; a rejected one leaves the clock unchanged |
| `Source.BuildIndex` | src/trade/mre/source.py:51-53 | the per-stream index holds, for every symbol and interval, exactly that stream in replay order |
| `Source.MarketReplaySource.constructor` | src/trade/mre/source.py:32-54 | the bars are replay-sorted (time, then symbol, stable) and indexed by stream |
| `Source.MarketReplaySource.HistoryOf` | src/trade/mre/source.py:74-88 | a query returns the newest `lookback` bars of its stream whose close has passed on the clock |
| `Source.History` | src/trade/mre/source.py:83-88 | every bar returned is of the stream asked for and already closed |
| `Source.MarketReplaySource.LatestOf` | src/trade/mre/source.py:90-92 | the last bar of a one-bar query, or none |
| `Source.LatestIsNewest` | src/trade/mre/source.py:90-92 | the latest bar is the newest closed one of its stream, and there is none exactly when none has closed |
| `Market.ReplaySortOrdered` | src/trade/mre/source.py:45-47 | the replay order is time-ordered, ties by symbol code points, and holds every bar as often as the input |
| `Market.NextGroup` | src/trade/mre/backtest.py:52-53 | advancing while the time stays the same cuts off exactly the next group of the timeline |
| `Intervals.NamesAreMinutes` | src/trade/data/backfill/common.py:19-40 | an interval named by a number is that many minutes long, a day, a week and a month 24 hours, 7 and 30 days; no other name has a length |
| `Oms.OrderManager.Apply` | src/trade/mre/oms.py:81-88 | a fill moves the signed quantity, cash by notional and fee, and the fill history, and nothing else |
| `Oms.OrderManager.EquityAt` | src/trade/mre/oms.py:63-72 | equity is cash plus quantity times mark over held, marked symbols |
| `Oms.OrderManager.Record` | src/trade/mre/oms.py:90-91 | one equity point at the given time, at that equity |
| `Oms.OrderManager.ComputeDeltaOrders` | src/trade/mre/oms.py:93-116 | the orders are the non-dust gaps to the targets, numbered consecutively; only the sequence number changes |
| `Oms.DeltaOrderReachesTarget` | src/trade/mre/oms.py:100-116 | filling an order lands the holding exactly on its target; no order means it was within 1e-12 already |
| `Oms.GapQueuesIff` | src/trade/mre/oms.py:99-115 | an order is placed exactly for a gap of at least a trillionth, up for a buy, down for a sell, under the next number |
| `Market.EquityOf` | src/trade/mre/types.py:75-85 | the snapshot's own loop: cash plus quantity times mark, flat and unmarked holdings skipped |
| `Oms.OrderManager.SnapshotNow` | src/trade/mre/oms.py:74-79 | a snapshot holds the cash, positions and marks, and is worth what the manager's own loop records |
| `Oms.AdjustKeepsBookOk` | src/trade/mre/oms.py:84-85 | a fill changes one symbol and keeps the book well formed |
| `Venue.SimulatedVenue.Submit` | src/trade/mre/venue.py:34-36 | orders join the back of the queue in order |
| `Venue.SimulatedVenue.ProcessOpen` | src/trade/mre/venue.py:38-69 | a non-positive open raises and touches nothing; otherwise exactly the symbol's orders fill, in queue order, and exactly the others stay |
| `Venue.FillIsAdverse` | src/trade/mre/venue.py:54-56 | slippage is never in the trader's favour, and up to 100% of it no price is negative and no fee a rebate |
| `Desk.RoundTripCost` | src/trade/mre/venue.py:54-66 | buying and selling the same quantity at one open costs exactly twice the notional times slippage plus fee rate, and restores the position |
| `Valuation.FillIsAtOpen` | src/trade/mre/venue.py:54-66 | a fill is off its bar's open by the slippage against the trader, and its fee is charged on what it traded at that price |
| `Risk.RiskManager.Update` | src/trade/mre/risk.py:62-98 | one update of all three gates and of the reasons ever seen |
| `Risk.RiskManager.RollPeriods` | src/trade/mre/risk.py:70-89 | a new period restarts the high-water mark at the current equity and lifts that period's halt |
| `Risk.RiskManager.TripLimits` | src/trade/mre/risk.py:91-96 | a breached limit activates its reason, which is otherwise kept |
| `Risk.RiskManager.GateTargetList` | src/trade/mre/risk.py:100-104 | under any halt only targets of zero pass |
| `Risk.GatePasses` | src/trade/mre/risk.py:100-104 | everything passes while no reason is active, and exactly the targets of zero otherwise |
| `Drawdown.ComputeDrawdownSeries` | src/trade/metrics/returns.py:49-62 | the loop gives every point's fall from the running peak |
| `Drawdown.MaxDrawdownIsLargestFall` | src/trade/metrics/performance.py:84-89 | the maximum drawdown exceeds a fraction exactly when some later value fell by more than it from some earlier one |
| `Drawdown.MaxDrawdownIsAFraction` | src/trade/metrics/performance.py:84-89 | it is never negative, and at most 1 exactly when equity never goes below zero after having been positive (the docstring says always) |
| `Drawdown.DrawdownPastOne` | src/trade/metrics/performance.py:84-89 | from 1 to -1 it is 2 |
| `Drawdown.ReportMaxDrawdownPct` | src/trade/paper/report.py:109-118 | the report's own loop is 100 times the same maximum drawdown, on every path |
| `Drawdown.HaltIsMaxDrawdown` | src/trade/mre/risk.py:62-98 | after any sequence of updates a gate is active exactly when the maximum drawdown of the current run of equal period keys exceeds its limit, and its high-water mark is that run's peak |
| `Drawdown.HaltedExactlyWhenFallen` | src/trade/mre/risk.py:62-98 | the same for the three layered reasons, in terms of an actual fall within the current day, week, month |
| `Drawdown.ReasonsEverSeen` | src/trade/mre/risk.py:58-60 | a reason is reported as ever triggered exactly when it was active after some update |
| `Backtest.RunBacktest` | src/trade/mre/backtest.py:32-95 | the whole call, its own exceptions included, is the fold of the group step over the grouped bars |
| `Backtest.RunLoop` | src/trade/mre/backtest.py:52-81 | the group loop computes that fold on the live objects, group by group |
| `Backtest.ReplayGroup` | src/trade/mre/backtest.py:55-81 | one group: fills at the open, one mark and one gate update at the close, then decisions in bar order |
| `Backtest.DecideOnGroup` | src/trade/mre/backtest.py:76-81 | each bar of the group is decided on the current snapshot, gated, and its delta orders queued |
| `Valuation.CloseMarks` | src/trade/mre/backtest.py:66-70 | the close marks each symbol of the group at the close of its last bar there and leaves every other mark alone |
| `Valuation.ClosePoint` | src/trade/mre/backtest.py:70-71 | one point is recorded: cash plus each holding at that close, or at its old mark when the group has no bar of its symbol |
| `Valuation.EveryPointIsExplained` | src/trade/mre/backtest.py:52-71 | over any run from a fresh desk, every recorded point is the initial equity plus what the fills made by then have earned at the closes seen by then, less fees |
| `Valuation.RunIsExplained` | src/trade/mre/backtest.py:52-81 | after any run, last recorded equity is cash plus each holding at its symbol's last close, and every fill is at the open of a bar of its symbol and time |
| `Valuation.FinalEquityIsWorth` | src/trade/mre/backtest.py:83-95 | the reported final equity is what the end state is worth at the last close of each symbol in the whole timeline, and the reported fills explain it; the initial equity without bars |
| `DecisionContext.BacktestAsksAtCloses` | src/trade/mre/backtest.py:74-81 | two strategies that agree when asked about a bar at that bar's close, with it as the newest bar of its symbol and the symbol marked there, give the same backtest |
| `ReplaySafety.RunCompletesIff` | src/trade/mre/backtest.py:52-81 | a replay completes exactly when opens are positive, nothing predates the clock and distinct times are a bar apart: what a strategy answers has no say |
| `ReplaySafety.BacktestCompletesIff` | src/trade/mre/backtest.py:32-95 | the same for the whole call, with the settings it validates |
| `ReplaySafety.RunAppend` | src/trade/mre/backtest.py:52-81 | replaying two stretches is replaying their concatenation |
| `ReplaySafety.HistoryIgnoresFuture` | src/trade/mre/source.py:74-88 | a history query at a close sees nothing of later bars |
| `ReplaySafety.NoLookAhead` | src/trade/mre/backtest.py:52-81 | two sources agreeing up to T give the same state after the groups up to T, and the same fills up to T and equity points up to its close in the whole runs, for every strategy reading through history |
| `ReplaySafety.ReadingTheWholeSourcePeeks` | src/trade/mre/source.py:71-72 | a strategy that iterates the source is not point-in-time, so the theorem's condition is needed |
| `OrderLedger.EveryOrderFillsOnce` | src/trade/mre/backtest.py:52-81 | over any run each order number handed out is either queued or filled, exactly once, and no fill precedes the decision behind it |
| `OrderLedger.FreshRunFillsOnce` | src/trade/mre/backtest.py:52-81 | in particular over every completed run from a fresh desk, whose orders are numbered from one |
| `OrderLedger.AccountedMeansOnce` | src/trade/mre/venue.py:50-69 | no two fills share an order, and a filled order is not queued |
| `OrderLedger.HaltsComeFromTheCurve` | src/trade/mre/backtest.py:70-72 | the risk state of a run is a function of its own equity curve |
| `OrderLedger.ReportedReasons` | src/trade/mre/backtest.py:94-94 | a fresh backtest reports exactly the limits that some prefix of its equity curve had breached |
| `Commitment.OpenSettles` | src/trade/mre/backtest.py:55-60 | a group's opens settle each of its symbols at what is held plus what is queued, and leave the other symbols alone |
| `Commitment.QueueCommits` | src/trade/mre/oms.py:93-116 | decisions move what a symbol is committed to by the summed gaps of its targets from the holding; what is queued already plays no part |
| `Commitment.TargetIsMetIff` | src/trade/mre/oms.py:93-116 | after the symbol's next open the holding is the target's landing plus the net of what was queued: met if and only if that net is zero |
| `Commitment.LastTargetIsMetIff` | src/trade/mre/backtest.py:55-81 | over any run of any strategy that names a symbol at most once per answer, on any bars: the last target naming a symbol is met at its next open if and only if nothing net was queued for it at that decision |
| `Commitment.RepeatedTargetOvershoots` | src/trade/mre/types.py:19-24 | a target named again before its symbol trades is overshot by its whole gap (the docstring says no duplicate order) |
| `Rebalancing.SameTargetTwiceDoubles` | src/trade/strategies/risk_parity.py:63-95 | a strategy naming B on A's bars, as a rebalancer on its primary symbol does: two bars of A, then one of B, and B is bought twice |
| `Tracking.RunTracks` | src/trade/mre/backtest.py:55-81 | for strategies naming their own bar's symbol alone, one bar per symbol in a group: at most one order per symbol is ever queued, and it lands on the last target the gate let through |
| `Tracking.PositionTracksTarget` | src/trade/mre/oms.py:93-116 | for those, after a symbol's next open its position is within 1e-12 of the last target let through, with nothing queued |
| `Tracking.HaltedStep` | src/trade/mre/risk.py:100-104 | a halted group fills what was queued for its symbols, flattening or not, and leaves nothing but flattening behind |
| `Tracking.FlattenOnlyWhileHalted` | src/trade/mre/risk.py:100-104 | with nothing but flattening queued, after every group of a halted stretch a position is what it was or zero |
| `Tracking.HaltedStretchIff` | src/trade/mre/risk.py:100-104 | whatever was queued: it stays or goes flat throughout if and only if no group carries the symbol, or the queue left the position alone or closed it |
| `Tracking.HaltedStretch` | src/trade/mre/risk.py:100-104 | from the first halted group that carries the symbol, the position is what that open made it, or flat |
| `Exposure.HaltedStepCommits` | src/trade/mre/risk.py:100-104 | a halted group, with any number of bars per symbol, fills what was queued for its symbols and commits each to be flattened as often as a target for it passes the gate |
| `Exposure.HaltedNeverOpensIff` | src/trade/mre/risk.py:100-104 | for any halted groups and any queue: no position grows or changes sign if and only if filling what was queued would not make it, or nothing fills it, and no group that is followed by a fill flattens it twice |
| `CostBasis.ExactIff` | src/trade/paper/engine.py:483-506 | one fill's books are exact if and only if no dust holding is crossed at another price than its average and none is left with an average |
| `CostBasis.ResidualIsSmall` | src/trade/paper/engine.py:483-506 | otherwise the error is at most 2e-12 times the highest price, and the average stays between the prices paid |
| `CostBasis.CrossedResidual` | src/trade/paper/engine.py:493-496 | the exact error of a fill that crosses a dust holding |
| `CostBasis.ClosedResidual` | src/trade/paper/engine.py:497-505 | closing and reversing are exact except for the book value of dust left behind |
| `CostBasis.GrowingEarnsNothing` | src/trade/paper/engine.py:483-506 | a fill on a flat holding or on its own side earns nothing and averages the price by quantity |
| `CostBasis.ClosingEarnsTheGap` | src/trade/paper/engine.py:483-506 | a fill against a holding earns the price gap on what it closes, keeps the average of the rest, and a reversal starts at its own price |
| `Accounting.SettleKeepsBooksOk` | src/trade/paper/engine.py:378-391 | cost basis and position agree on every symbol's quantity after every fill |
| `Accounting.ProfitSplits` | src/trade/paper/engine.py:378-391 | for all fills and covering marks: equity gain = realized net of fees + unrealized + the summed residuals |
| `Accounting.ProfitDecomposition` | src/trade/paper/engine.py:378-391 | the split is exact on clean runs and within 2e-12 of the highest price per fill otherwise |
| `Accounting.NoDustIsClean` | src/trade/paper/engine.py:492-505 | holdings that are zero or at least 1e-12 after every fill make the split exact |
| `Fifo.PairOne` | src/trade/metrics/performance.py:139-159 | the inner matching loop terminates and pairs one fill against the oldest opposite lots |
| `Fifo.HitRate` | src/trade/metrics/performance.py:126-160 | the whole call returns the win fraction of the pairing |
| `Fifo.AbsorbBalances` | src/trade/metrics/performance.py:142-159 | one fill keeps lots one-sided, moves their sum by its quantity, and its matched profit is cost released less cash spent |
| `Fifo.PairShape` | src/trade/metrics/performance.py:142-157 | only the oldest lots are consumed, and what remains of the fill is on the side of what remains open |
| `Fifo.FifoConserves` | src/trade/metrics/performance.py:138-159 | over any trades: lots one-sided, summing to the net position, and matched profit = net cash flow + cost of open lots |
| `Fifo.SymbolsPairAlone` | src/trade/metrics/performance.py:135-159 | in a mixed stream each symbol pairs as if it were alone |
| `Fifo.HitRateIsAFraction` | src/trade/metrics/performance.py:126-160 | the result is between 0 and 1 |
| `RoundTrips.MatchedIsFifo` | src/trade/metrics/performance.py:142-157 | the pieces of a fill are the oldest lots in order, whole but the last, left at its price, and together close as much as position and fill have in common |
| `RoundTrips.HitRateCountsWinners` | src/trade/metrics/performance.py:126-160 | the rate is the share of the pieces whose (exit - entry) * quantity is positive; one exactly when there are pieces and all won, zero exactly when none did |
| `Fifo.FifoMeetsAverageCost` | src/trade/metrics/performance.py:138-159 | when the position ends flat the FIFO total equals the average-cost realized total before fees, up to the dust residuals |
| `Fifo.CleanTradesExact` | src/trade/paper/engine.py:483-506 | and those residuals vanish when no trade crosses or leaves dust |
| `Strategies.ComputeFeatureVector` | src/trade/paper/predictor.py:115-123 | the loop returns every feature at the clock, or nothing |
| `Strategies.VectorDefinedIff` | src/trade/paper/predictor.py:115-123 | the vector is defined exactly when every feature is |
| `Strategies.RunOnBar` | src/trade/strategies/model_driven.py:69-103 | the strategy call, both modes, on a live source |
| `DecisionRule.ThreeClassTarget` | src/trade/strategies/model_driven.py:90-103 | full size long exactly when up beats both others and reaches the threshold, short exactly when shorts are allowed and down is most probable and reaches it, else flat |
| `DecisionRule.DirectionalTarget` | src/trade/strategies/binary_model_driven.py:86-96 | full size long or short exactly when the probability of up, or of its absence, exceeds the threshold, else flat |
| `DecisionRule.VectorHolds` | src/trade/strategies/model_driven.py:77-84 | the vector holds under each id the value of the last feature to bear it |
| `DecisionRule.NoVectorNoTarget` | src/trade/strategies/model_driven.py:74-82 | no target, and a warm-up decision, exactly when some feature has no value |
| `DecisionRule.SnapshotIsWorth` | src/trade/mre/types.py:75-85 | the equity a target is sized by is cash plus each holding at its mark |
| `Strategies.TargetIsBounded` | src/trade/strategies/model_driven.py:92-103 | a target never commands more than the configured fraction of equity, in either mode and direction |
| `Strategies.RunDecide` | src/trade/paper/predictor.py:156-194 | the predictor's decision on a live source |
| `DecisionRule.ThreeClassDecision` | src/trade/paper/predictor.py:137-145 | the journalled class is the most probable, ties to down before flat before up, with its probability, whether that reaches the threshold, and the direction of the target |
| `DecisionRule.DirectionalDecision` | src/trade/paper/predictor.py:146-154 | the journalled class is the likelier side, up at even odds, with its probability, whether that exceeds the threshold, and the direction of the target |
| `DecisionRule.CalibrationIsPrediction` | src/trade/paper/predictor.py:125-129 | a calibrated bundle targets and decides as an uncalibrated one predicting the calibrated probabilities |
| `Strategies.DecisionCarriesTheTarget` | src/trade/paper/predictor.py:180-181 | the decision carries exactly the strategy's target, and is a warm-up exactly when there is none |
| `Strategies.DirectionAgreesIff` | src/trade/paper/predictor.py:131-154 | journalled direction and executed target agree exactly when the decision is flat or equity and close have the same sign (the docstring says always) |
| `Strategies.LongIntoShort` | src/trade/paper/predictor.py:131-154 | with equity at -100 a journalled LONG executes as a short of 100 |
| `Strategies.StrategiesQualify` | src/trade/strategies/binary_model_driven.py:67-96 | the model-driven strategies read only history and target only their own symbol, once |
| `KillSwitch.KillSwitchController.Trip` | src/trade/runtime/kill_switch.py:53-66 | an empty reason is refused and changes nothing; any other becomes active, joins the reasons ever seen, and its trip with detail and time the history |
| `KillSwitch.KillSwitchController.Clear` | src/trade/runtime/kill_switch.py:68-73 | only an active reason is removed; the record of trips is kept |
| `PaperEngine.PaperTradingEngine.constructor` | src/trade/paper/engine.py:75-131 | a new engine is what its journal and state file restore to |
| `PaperEngine.PaperTradingEngine.UpdateCostBasis` | src/trade/paper/engine.py:483-506 | the average-cost step on the mutable cost basis |
| `PaperEngine.PaperTradingEngine.SettleOne` | src/trade/paper/engine.py:378-420 | one fill: cost basis, realized profit net of fee, account, counters and journal line together |
| `PaperEngine.PaperTradingEngine.SyncDrawdownHalt` | src/trade/paper/engine.py:307-318 | new halts are tripped and journalled in name order, released ones cleared and journalled |
| `PaperEngine.PaperTradingEngine.BuildSource` | src/trade/paper/engine.py:301-305 | the fresh source holds every buffered bar, replay-sorted, at the close |
| `PaperEngine.PaperTradingEngine.HandleOne` | src/trade/paper/engine.py:320-376 | one decision: counted, gated, queued only when armed, journalled with its action |
| `PaperEngine.PaperTradingEngine.FinishGroup` | src/trade/paper/engine.py:294-297 | period reports, then the state file: times, marks, queue and trimmed buffers |
| `PaperEngine.PaperTradingEngine.ProcessBarGroup` | src/trade/paper/engine.py:262-297 | one group end to end, including the partial state a non-positive open leaves behind |
| `PaperEngine.PaperTradingEngine.ProcessBatchOf` | src/trade/paper/engine.py:250-260 | foreign bars dropped, the rest sorted, grouped and processed in order |
| `PaperEngine.PaperTradingEngine.RestoreState` | src/trade/paper/engine.py:595-625 | the journal's fills and decisions are replayed, then the state file is laid over |
| `PaperEngine.PaperTradingEngine.CheckStalenessAt` | src/trade/paper/engine.py:508-520 | a stale feed trips and journals data staleness once |
| `PaperEngine.PaperTradingEngine.SeedHistory` | src/trade/paper/engine.py:205-248 | the buffers are filled from fetched candles and the seeding journalled when anything was added |
| `PaperValuation.GroupIsMarkedAtCloses` | src/trade/paper/engine.py:277-282 | a completed group marks its symbols at their last closes, leaves other marks alone, and records cash plus holdings at those closes and old marks |
| `PaperValuation.FillIsTold` | src/trade/paper/engine.py:378-421 | a fill's line tells the fill, the position before and after, profit and total, what the account is worth at the marks before the close, and whether it opened, closed or reversed |
| `PaperOrders.DecisionIsTold` | src/trade/paper/engine.py:320-376 | a decision's line tells the decision, whether anything halts, and whether it warmed up, was observed, queued an order or held; every bar of a traded symbol leaves one |
| `PaperRecords.HaltsAreTold` | src/trade/paper/engine.py:307-318 | each halt reason is told when it starts, in name order, and when it ends; one that stays or stays away is not mentioned |
| `PaperRecords.GroupTellsReports` | src/trade/paper/engine.py:538-558 | a completed group tells a daily (weekly) report, once, exactly when its close falls on another day (week) than the last completed group's |
| `PaperRecords.SeedIsTold` | src/trade/paper/engine.py:205-248 | seeding leaves one line exactly when some buffer grew, telling by how much each did |
| `PaperRecords.SeedMarks` | src/trade/paper/engine.py:205-248 | a symbol with enough history or nothing fetched is left as it was; every other one is marked at the close of the newest bar its buffer then holds |
| `PaperRecords.SavedBuffers` | src/trade/paper/engine.py:577-593 | the state file keeps the newest bars of each traded symbol: all, or five more than its longest lookback |
| `PaperHalts.StaleIff` | src/trade/paper/engine.py:508-520 | a check halts exactly when a bar has been seen and lies more than the limit back; told once, nothing else touched |
| `PaperHalts.StaleAfterGroup` | src/trade/paper/engine.py:508-520 | after a group, completed or not, the age is counted from that group's time |
| `PaperRefinement.SyncMirrorsRisk` | src/trade/paper/engine.py:307-318 | after the sync the kill switch holds exactly the risk manager's reasons, and staleness as before |
| `PaperRefinement.BufferHistory` | src/trade/paper/engine.py:301-305 | history over the buffered seen bars is history over the full source at the same clock |
| `PaperRefinement.GroupMirrors` | src/trade/paper/engine.py:262-297 | one group of the armed engine mirrors one group of the backtest |
| `PaperRefinement.BatchOfGroup` | src/trade/paper/feed.py:24-29 | a batch as the replay feed yields it is processed as exactly one group |
| `PaperRefinement.PaperRefinesBacktest` | src/trade/paper/engine.py:250-376 | fed the replay feed, an armed unseeded engine has after every group the backtest's fills with order ids, cash, positions, queue, risk state, marks and equity curve |
| `PaperRecovery.JournalTellsAll` | src/trade/paper/engine.py:595-612 | over every life of the engine (fetches, batches that may raise, staleness trips, restarts, crashes anywhere inside a group) cash, positions, cost basis, realized profit and counters are what the journal replays to |
| `PaperRecovery.BooksAreSums` | src/trade/paper/engine.py:595-626 | in every reachable state cash is the initial equity less what the fill lines paid, positions are what they bought, and the counters are the numbers of lines |
| `PaperProfit.EverythingIsReal` | src/trade/paper/engine.py:366-391 | over every such life, with slippage up to 100%, no order queued or saved is dust and every journalled fill moved a positive quantity at a price not below zero |
| `PaperProfit.ProfitInEveryState` | src/trade/paper/engine.py:378-391 | the profit decomposition in every reachable state, across restarts and crashes |
| `PaperRecovery.GroupEndsAtBoundary` | src/trade/paper/engine.py:294-297 | every completed group leaves the state file equal to the engine's own state: the boundary at which a restart is exact |
| `PaperRecovery.RestartAtBoundary` | src/trade/paper/engine.py:577-625 | a restart at a group boundary restores cash, positions, cost basis, realized profit, counters, marks, queue, times and the newest bars |
| `PaperOrders.DecisionsQueue` | src/trade/paper/engine.py:289-292 | a group's decisions append, at its close, one order per armed decision that is not dust away from the holding and not blocked by a halt, all told in the state the close left |
| `PaperCrash.CrashInsideGroup` | src/trade/paper/engine.py:262-297 | a crash at any point of a group, then a restart: books from the journal; queue, marks, times and buffers as last saved, without the group's bars; the queue is what was still to be filled if and only if no queued order was for a bar opened so far and no decision so far called for an order |
| `PaperRedelivery.BoundaryIsRecoverable` | src/trade/paper/engine.py:577-625 | at every group boundary the state file would bring the engine back, order ids, risk memory and old bars aside |
| `PaperRedelivery.NewIsRecoverable` | src/trade/paper/engine.py:612-613 | so it would a fresh engine that has none yet |
| `PaperRedelivery.NeverWhereItLeftOff` | src/trade/paper/engine.py:595-597 | at no point inside a group does a restart come back to where the engine was (comments promise it exactly): the group's time is gone |
| `PaperRedelivery.CrashedRunIff` | src/trade/paper/engine.py:262-297 | over any groups after a crash the restarted engine, its count of decisions aside, does what the engine before the interrupted group does with them, if and only if nothing had filled and halts never matter: with the group delivered again that is the uninterrupted engine, without it one that never saw the group |
| `PaperRedelivery.CrashedRunExactlyIff` | src/trade/paper/engine.py:262-297 | its count of decisions included, if and only if moreover no decision had been told |
| `PaperRedelivery.CrashedGroupIff` | src/trade/paper/engine.py:262-297 | for the next group, the interrupted one again or a later one: if and only if nothing had filled and the former engine was not halted at its close, or no armed decision of it wants a position |
| `PaperRedelivery.DecisionCountIsInert` | src/trade/paper/engine.py:320-327 | the count of decisions reaches nothing else over any groups |
| `PaperRedelivery.MissedGroupDecisions` | src/trade/paper/engine.py:301-305 | with nothing filled and the group not delivered again, the next raw decisions are those of an engine that never saw it |
| `PaperRedelivery.SeedReturnsBarIff` | src/trade/paper/engine.py:222-226 | fetched again at the start, the interrupted group's bar is back in its buffer if and only if that buffer was shorter than the longest lookback |
| `PaperExamples.MissedBar` | src/trade/paper/engine.py:266-267 | killed at the open of its first bar with nothing queued, the engine comes back without the bar and places no order at the second, where the uninterrupted one does |
| `PaperCrash.GroupKeepsDates` | src/trade/paper/engine.py:366-368 | groups in time order queue orders dated at their closes, so a later group's close is after them all |
| `PaperExamples.LostOrder` | src/trade/paper/engine.py:294-297 | killed between its decision and the state file, the engine comes back without the order, though nothing filled |
| `PaperExamples.LostOrderReturns` | src/trade/paper/engine.py:289-292 | delivered the interrupted bar again, that engine decides again: the order is back and only its count of decisions is one too high |
| `PaperExamples.OrderFilledTwice` | src/trade/paper/engine.py:268-276 | killed once its order has filled, the engine comes back holding 100 with the order queued again, on its way to 200 |
| `PaperRecovery.RestartForgetsHalts` | src/trade/paper/engine.py:595-625 | a restart drops every halt and the risk memory |
| `PaperCurve.HaltedInEveryState` | src/trade/paper/engine.py:307-318 | in every reachable state the engine is halted exactly when stale, or when the equity recorded since its own start has fallen past a limit within the current day, week or month |
| `PaperCurve.FirstGroupUnhalted` | src/trade/paper/engine.py:284-287 | the first group after a restart is never decided under a halt |
| `PaperResume.RestartResumes` | src/trade/paper/engine.py:577-625 | the rebuilt engine is related to its former self: same books, same queue up to ids, same buffer tails |
| `PaperResume.GroupReachesBoundary` | src/trade/paper/engine.py:294-297 | any completed in-order group leaves the engine where the restart theorems start: books journalled, halts those of its curve, state file current |
| `PaperResume.HistoryIsTail` | src/trade/paper/engine.py:301-305 | over time-ordered buffers a history query is the newest end of the buffer |
| `PaperResume.NextRawDecisions` | src/trade/paper/engine.py:577-583 | with buffers cut to max lookback + 5, the next group's raw decisions are unchanged |
| `PaperResume.GroupResumesIff` | src/trade/paper/engine.py:262-297 | a group leaves the two engines equal, order ids and risk memory aside, if and only if both are halted at its close, or neither is, or no armed decision of it wants a position |
| `PaperResume.RestartedGroupIff` | src/trade/paper/engine.py:595-625 | for the first group after a restart: if and only if the former self was not halted at that close, or no armed decision wants a position |
| `PaperResume.RunResumesIff` | src/trade/paper/engine.py:250-297 | the engines stay equal after every later group if and only if that holds group by group |
| `PaperResume.LaterHalts` | src/trade/paper/engine.py:307-318 | while they stay equal, the rebuilt engine is halted exactly when equity since the restart has fallen past a limit, its former self when it was stale or its longer curve has |
| `PaperExamples.RestartTradesAgain` | src/trade/paper/engine.py:595-625 | a stale engine restarted queues the order it would have refused |
| `PaperHalts.HaltedGroup` | src/trade/paper/engine.py:354-364 | a group decided under any halt fills what was queued for its symbols and leaves nothing but flattening behind |
| `PaperHalts.HaltedEngineOnlyFlattens` | src/trade/paper/engine.py:354-364 | with nothing but flattening queued, after every group of a halted stretch a position is what it was or zero, whatever the models say |
| `PaperHalts.HaltedEngineIff` | src/trade/paper/engine.py:354-364 | whatever was queued, with one bar per symbol in a group: it stays or goes flat throughout if and only if no group carries the symbol, or the queue left the position alone or closed it |
| `PaperExposure.HaltedGroupCommits` | src/trade/paper/engine.py:354-364 | a group decided under any halt, with any number of bars per symbol, fills what was queued for its symbols and commits each to be flattened once per flat decision |
| `PaperExposure.HaltedNeverOpensIff` | src/trade/runtime/kill_switch.py:3-6 | for any halted groups and any queue: no position grows or changes sign if and only if filling what was queued would not make it, or nothing fills it, and no group that is followed by a fill flattens it twice (the controller's text promises no new position) |
| `PaperExposure.HaltedQueueDecides` | src/trade/runtime/kill_switch.py:3-6 | with one bar per symbol in a group: if and only if no group carries the symbol, or held plus queued lies between zero and held |
| `PaperExposure.FlattenedTwiceReverses` | src/trade/paper/engine.py:354-368 | two bars of one symbol in a halted group, both decided flat, and its next bar reverses the position |
| `PaperHalts.HaltedEngineStretch` | src/trade/paper/engine.py:354-364 | from the first halted group that carries the symbol, the position is what that open made it, or flat |
| `PaperExamples.StaleEngineOpens` | src/trade/runtime/kill_switch.py:3-6 | stale and flat, the engine opens a position of 100 from an order queued before the feed went quiet |
| `PaperHalts.OnlyRestartClearsStaleness` | src/trade/paper/engine.py:508-520 | of everything that can happen to an engine only a restart, after a crash or not, releases a staleness halt |
| `PaperHalts.StaleMeansHalted` | src/trade/runtime/kill_switch.py:86-97 | after a staleness trip every later group is decided under a halt |
| `PaperHalts.DisabledNeverTrades` | src/trade/paper/engine.py:357-364 | a never-armed engine never queues, never fills, and keeps its initial equity at any marks, over every life |
| `PaperHalts.DisabledStillFills` | src/trade/paper/engine.py:623-625 | a disabled engine with a restored queue fills nothing in a group if and only if no restored order is for one of its symbols |
| `PaperHalts.DisabledNeverFillsIff` | src/trade/paper/engine.py:623-625 | over any later groups it fills nothing if and only if none of them carries the symbol of an order it came back with |
| `PaperExamples.SwitchedOffStillFills` | src/trade/paper/engine.py:10-12 | switched off before a restart, the engine fills its restored order |
| `Merging.MergeBars` | src/trade/paper/engine.py:236-243 | the dict merge and sort give the merged buffer |
| `Merging.AnyOrderWillDo` | src/trade/paper/engine.py:236-239 | the order in which the dict lists its bars does not matter |
| `Merging.MergeKeepsLive` | src/trade/paper/engine.py:236-239 | a merged buffer is strictly time-ordered, keeps every live bar, and takes a fetched bar only where none is live |
| `PaperSeed.SeedTwice` | src/trade/paper/engine.py:205-248 | seeding again from the same candles changes no buffer, mark or journal line |
| `PaperSeed.SeedEntersIff` | src/trade/paper/engine.py:220-243 | a fetched candle enters a buffer if and only if the buffer is shorter than the longest lookback; a longer one is left as it is |
| `PaperSeed.SeededEngineSeesAll` | src/trade/paper/engine.py:205-248 | a fresh engine seeded in any order and then fed its first group reads what a replay of all those bars would read, the last listed of several candles at one time |
| `PaperSeed.SeededVectors` | src/trade/paper/engine.py:208-213 | so every feature vector of the first live group is the full history's |
| `Json.StableIff` | src/trade/audit/log.py:46-66 | what is written reads back to the same text if and only if sorting keys and sorting their rendered names agree in every dict |
| `Json.StringKeysAreStable` | src/trade/audit/log.py:54-65 | string-keyed payloads always do |
| `Json.IntegerKeysReadBackReordered` | src/trade/audit/log.py:62-62 | a dict keyed 9 and 10 does not |
| `Json.NestedIntegerKeysReadBackReordered` | src/trade/audit/log.py:62-62 | nor does such a dict under a string key |
| `Audit.FileAuditStore.constructor` | src/trade/audit/store.py:61-75 | streaming the file recovers the next sequence number and the last hash |
| `Audit.FileAuditStore.Append` | src/trade/audit/store.py:77-82 | one line is added, none rewritten, and the recovered counters stay right |
| `Audit.AuditLog.Append` | src/trade/audit/log.py:90-120 | a refused append stores nothing; an accepted one extends the chain by one event |
| `Audit.VerifyChain` | src/trade/audit/log.py:122-144 | the loop accepts exactly the verified logs, and names the first event that does not fit behind a verified prefix, with its fault |
| `Audit.LogIsWritten` | src/trade/audit/log.py:90-120 | over any appends and reopenings the file is exactly the accepted appends, numbered and chained |
| `Audit.ReopeningIsInvisible` | src/trade/audit/store.py:61-75 | reopening the store at any moments changes nothing |
| `Audit.IntactLogVerifiesIff` | src/trade/audit/log.py:122-144 | an untouched log verifies if and only if each payload reads back to the text that was hashed |
| `Audit.NestedIntegerLogFails` | src/trade/audit/log.py:122-144 | an untouched log with that one payload, legal by its annotation, does not verify |
| `Audit.StringKeyedLogVerifies` | src/trade/audit/log.py:122-144 | every log of string-keyed payloads verifies, whatever the hash |
| `Audit.HeadDeterminesLog` | src/trade/audit/log.py:8-12 | under a collision-free hash two verified logs with the same head hold the same events |
| `Audit.TamperingIsCaught` | src/trade/audit/log.py:8-12 | an edit, deletion, insertion or reordering behind an unchanged head does not verify |
| `Audit.TruncationVerifies` | src/trade/audit/log.py:122-144 | cutting the tail off a verified log leaves a verified log |
| `Journal.PaperJournal.Record` | src/trade/paper/journal.py:40-50 | the audit chain is written first; a refused event reaches neither log, one with integer keys the chain alone, any other both |
| `Journal.LineNamesKindIff` | src/trade/paper/journal.py:43-48 | a decisions line names the event's kind exactly when the payload has no key `kind` of its own, or the same one |
| `Journal.LineHolds` | src/trade/paper/journal.py:43-48 | the same of its time stamp; and every payload entry is in the line |
| `Journal.WrittenTwiceIff` | src/trade/paper/journal.py:3-8 | over any calls every accepted event is written twice if and only if every accepted payload has string keys (as the annotation of `record` asks) |
| `Journal.IntegerKeyLosesItsLine` | src/trade/paper/journal.py:40-50 | a payload keyed by 1 reaches the audit chain and not the decisions log |
| `FeatureStore.MaterializeFeature` | src/trade/features/store.py:58-87 | one row per bar with a defined value, computed on the bars up to it |
| `FeatureStore.InMemoryFeatureStore.PutMaterialized` | src/trade/features/store.py:108-120 | each touched stream gains its rows and is sorted by availability, the others are untouched |
| `FeatureStore.BisectRight` | src/trade/features/store.py:138-139 | the split point between rows available at t and later ones |
| `FeatureStore.InMemoryFeatureStore.LookUp` | src/trade/features/store.py:132-143 | a lookup returns the newest value available at t |
| `FeatureStore.InMemoryFeatureStore.PointInTimeJoin` | src/trade/features/store.py:122-148 | every column holds, once for each mention of its id, the point-in-time value of every label, in order |
| `TrainServe.ColumnIsPit` | src/trade/features/store.py:128-143 | with distinct feature ids row i of a column is label i's point-in-time value |
| `TrainServe.ColumnFitsIff` | src/trade/features/store.py:128-143 | a column is as long as the frame exactly when its feature is asked for once |
| `TrainServe.PitIsNewest` | src/trade/features/store.py:136-143 | the joined value of a label at a bar is the newest value defined up to that bar |
| `TrainServe.PitWithDelay` | src/trade/features/store.py:70-87 | under any availability delay the joined value is the newest defined on the bars whose time plus the delay has come |
| `TrainServe.LiveIsOffline` | src/trade/strategies/model_driven.py:77-84 | what a strategy computes at a bar's close is the offline value at that bar |
| `TrainServe.TrainingMatchesServingIff` | src/trade/features/store.py:108-148 | training value = live value exactly when the live value is defined or nothing was defined before |
| `Folds.FoldTrainsWhatItServesIff` | src/trade/wfo/model_runner.py:129-186 | the same for the fold's own store and frame: every label stands at a bar, and each feature's column there holds the live value exactly then |
| `Labels.TripleBarrierLabels` | src/trade/labels/triple_barrier.py:28-72 | the nested loops, errors included |
| `Labels.ScanForward` | src/trade/labels/triple_barrier.py:49-64 | the inner scan stops at the first touch, the horizon or the last bar |
| `Labels.OutcomeMeans` | src/trade/labels/triple_barrier.py:49-64 | a label is up exactly when the first bar within the horizon to move far enough rises by the upper percentage and does not fall by the lower one, down the other way round, else flat |
| `Labels.FixedLabelIff` | src/trade/labels/triple_barrier.py:49-64 | no later data can change a label exactly when its horizon is complete or it is already decided |
| `Labels.TrimmedLabelsAreStable` | src/trade/wfo/model_runner.py:150-150 | every label surviving the horizon trim keeps value and place under any later-dated extension |
| `Labels.TrimmedDirectionalIsStable` | src/trade/wfo/model_runner.py:143-150 | the same in directional mode, where the trim follows the dropping of flat rows |
| `Folds.TrainFoldOn` | src/trade/wfo/model_runner.py:129-186 | the fold's labels and joined columns as the loops build them, or the reason to skip it |
| `TrainingSet.TrainFoldFailsIff` | src/trade/labels/triple_barrier.py:35-38 | training fails on barriers out of range alone, the horizon before the percentages |
| `TrainingSet.ThreeClassRows` | src/trade/wfo/model_runner.py:135-155 | every bar of the slice but the last `horizon` is a row, in order, with its outcome; the fold is skipped exactly when none is left or no bar is to be replayed |
| `TrainingSet.DirectionalRows` | src/trade/wfo/model_runner.py:135-155 | the rows are the bars whose outcome is not flat, in order, less the last `horizon` of them; skipped likewise |
| `Folds.TrainingIgnoresLaterBars` | src/trade/wfo/model_runner.py:129-170 | changing, adding or removing bars from train_end on leaves labels and frame as they were |
| `Folds.AlteredFutureSameFold` | src/trade/wfo/model_runner.py:129-186 | altering later bars, their number kept, trains the same fold |
| `Folds.NegativeDelayLeaks` | src/trade/features/store.py:83-83 | with a negative availability delay a training value would see a later bar |
| `FoldReplay.WarmupSuffices` | src/trade/wfo/model_runner.py:154-154 | from one bar before the test window on, every feature value over the replayed slice is the whole timeline's |
| `FoldReplay.SilentBelowLookback` | src/trade/strategies/model_driven.py:80-83 | with fewer bars than the longest lookback the rule names no target |
| `FoldReplay.TestWindowPure` | src/trade/wfo/model_runner.py:210-239 | a fold's replay fills nothing before its first test bar |
| `Splitter.WalkForwardSplits` | src/trade/wfo/splitter.py:30-66 | exactly (n - train - test)/step + 1 in-bounds splits, step bars apart; the errors in their order |
| `Splitter.PurgedEmbargoFolds` | src/trade/wfo/splitter.py:83-125 | one fold per test region, with its training ranges; the errors in their order |
| `Splitter.TestsPartition` | src/trade/wfo/splitter.py:104-108 | every bar is tested in exactly one fold |
| `Splitter.FoldSizes` | src/trade/wfo/splitter.py:104-108 | folds test equally many bars, the last one the remainder too |
| `Splitter.TrainingIsTheRest` | src/trade/wfo/splitter.py:109-116 | a fold trains on exactly the bars outside its test, purge and embargo zones |
| `Splitter.LeakFreeIff` | src/trade/labels/triple_barrier.py:16-20 | no training label window meets a test one exactly when purge and embargo cover the horizon wherever something is left to train on |
| `Splitter.HorizonGapsSuffice` | src/trade/labels/triple_barrier.py:18-20 | purge and embargo of at least the horizon make every fold leak-free |
| `Oracle.OracleMaxPnl` | src/trade/research/oracle.py:51-86 | the loop compounds the two multipliers over usable pairs of sorted closes |
| `Oracle.OracleOrder` | src/trade/research/oracle.py:69-86 | initial <= long-only <= long/short |
| `Oracle.LongOnlyDominates` | src/trade/research/oracle.py:14-20 | no exposures in [0, 1], chosen with any foresight, compound past the long-only figure |
| `Oracle.LongOnlyAttained` | src/trade/research/oracle.py:14-20 | and the long-only figure is attained |
| `Oracle.LongShortDominates` | src/trade/research/oracle.py:21-23 | no exposures in [-1, 1] exceed the long/short figure in absolute value; over a falling series none reaches it |
| `Oracle.LongShortAttainedIff` | src/trade/research/oracle.py:21-23 | the long/short figure is attainable exactly when no usable bar falls (the module calls it the maximum) |
| `Oracle.FallingPairIsNotAttained` | src/trade/research/oracle.py:21-23 | over closes 2 and 1 the figure is 2, and no exposure makes more than 1.5 |
| `Oracle.LongShortIsBothWays` | src/trade/research/oracle.py:64-87 | the long/short figure is the long-only figure of the closes times that of the same closes run backward |
| `Oracle.OracleIgnoresUnits` | src/trade/research/oracle.py:64-87 | quoting prices in another unit changes neither figure |
| `Oracle.CaptureAtMostOne` | src/trade/research/oracle.py:89-107 | a long-only strategy captures at most everything |
| `Oracle.CaptureTimesGain` | src/trade/research/oracle.py:103-107 | captured times the oracle's gain is the strategy's gain; nothing is captured of no gain |
| `Moments.TailMeanBound` | src/trade/features/definitions/funding.py:145-151 | the mean of the last k of n values strays from the window's mean by at most sqrt((n-k)/k) deviations |
| `Moments.ZScoreBound` | src/trade/features/definitions/volume_zscore.py:25-42 | z^2 <= n - 1 |
| `Moments.ZScoreBoundIsSharp` | src/trade/features/definitions/volume_zscore.py:25-42 | one value out of an otherwise constant window reaches the bound exactly |
| `Moments.RegimeBound` | src/trade/features/definitions/funding.py:145-160 | value^2 <= (long - short)/short; with a flat long window the value is 0, so the fallback to +1 or -1 is dead |
| `Moments.MomentInequality` | src/trade/features/definitions/return_higher_moments.py:50-55 | for every a and b the moments satisfy m4 + a^2 m2 + b^2 - 2 a m3 - 2 b m2 >= 0 |
| `Moments.MomentOrder` | src/trade/features/definitions/return_higher_moments.py:78-83 | m4 >= m2^2 and m2 m4 >= m3^2 + m2^3 |
| `Moments.ShapeBounds` | src/trade/features/definitions/return_higher_moments.py:43-83 | excess kurtosis is at least -2, and skew^2 <= excess kurtosis + 2 on the same returns |
| `Funding.BucketBySymbol` | src/trade/features/definitions/funding.py:39-46 | the constructor's loop buckets every symbol's records in time order |
| `Funding.FindLatest` | src/trade/features/definitions/funding.py:48-54 | the bisect loop finds that index |
| `Funding.SettledIsPrefix` | src/trade/features/definitions/funding.py:48-54 | the index separates settled from later records |
| `Funding.SettledIsPointInTime` | src/trade/features/definitions/funding.py:48-54 | a bar uses exactly its symbol's records not after it, whatever the loading order |
| `Funding.FundingIgnoresFuture` | src/trade/features/definitions/funding.py:57-160 | later settlements never reach any of the three features |
| `Funding.FundingZBound` | src/trade/features/definitions/funding.py:97-105 | value^2 <= window - 1 |
| `MomentValues.ZScoreIs` | src/trade/features/definitions/volume_zscore.py:33-42 | positive exactly above the mean; its square is that of `n x - sum` over `n sum x^2 - sum^2`; undefined below two values |
| `MomentValues.RegimeIs` | src/trade/features/definitions/funding.py:145-160 | positive exactly when the last values lie above the mean, and the same size in the sums alone |
| `MomentValues.ShapeBoundsAreSharp` | src/trade/features/definitions/return_higher_moments.py:42-83 | one value standing out of n equal ones has excess kurtosis n + 1/n - 4 and skewness of its sign with skew^2 == kurtosis + 2: both bounds are reached |
| `MomentValues.ShapeDefinedIff` | src/trade/features/definitions/return_higher_moments.py:42-83 | skewness needs three returns and kurtosis four; both are zero on equal returns |
| `Funding.FundingValues` | src/trade/features/definitions/funding.py:95-160 | z-score and regime are those of the newest rates, sign and size, and undefined on fewer settlements |
| `Funding.LatestRate` | src/trade/features/definitions/funding.py:66-73 | a bar reads the rate of its symbol's newest record not after it, and none exactly without one |
| `Funding.FundingRegimeBound` | src/trade/features/definitions/funding.py:145-160 | the regime bound and its dead fallback on the loaded records |

## Left out

- Intervals.NamesAreMinutes: an unknown name has no length, where the source raises.
- Strategies.SizeOf: a close of exactly zero gives size zero, where the source raises a division error.
- Strategies.RunDecide: as `OnBar`, at a close of zero it gives size zero where the source raises.
- Strategies.DirectionAgreesIff: at a close of zero the source raises instead of disagreeing.
- Backtest.RunBacktest: a strategy is a total function, so an exception raised inside it, such as the model-driven ones' division by a zero close, is outside the model.
- ReplaySafety.RunCompletesIff: for strategies that answer; one that raises ends the run at that decision.
- ReplaySafety.BacktestCompletesIff: the same; "completes" is about the exceptions of the call itself.
- Strategies.RunOnBar: a close of zero gives size zero where the source raises; the check that a model's feature ids match the strategy's, and non-numeric or missing class probabilities, are not modelled.
- PaperResume.RunResumesIff: order ids, equity history and fill times are not compared; the groups follow one another without a staleness check between them.
- PaperCrash.CrashInsideGroup: a crash point lies between two journal lines; a step the process dies in before its line is written has not happened. A decision that raises is the crash point before it.
- PaperRefinement.PaperRefinesBacktest: compares up to any group the backtest completes; what each does after a non-positive open is not compared.
- Tracking.RunTracks: for strategies that name their own bar's symbol alone and groups with one bar per symbol; `Commitment.LastTargetIsMetIff` is the law without either.
- Tracking.PositionTracksTarget: likewise.
- Tracking.HaltedStep: likewise; `Exposure.HaltedStepCommits` is the law for any number of bars per symbol.
- Tracking.FlattenOnlyWhileHalted: likewise, and for a queue that only flattens; `Exposure.HaltedNeverOpensIff` is the law without.
- Tracking.HaltedStretchIff: likewise, for staying or going flat rather than not growing.
- Tracking.HaltedStretch: likewise.
- PaperHalts.HaltedGroup: for groups with at most one bar per symbol; `PaperExposure.HaltedGroupCommits` is the law without.
- PaperHalts.HaltedEngineOnlyFlattens: likewise, and for a queue that only flattens; `PaperExposure.HaltedNeverOpensIff` is the law without.
- PaperHalts.HaltedEngineIff: likewise, for staying or going flat rather than not growing.
- PaperHalts.HaltedEngineStretch: likewise.
- Exposure.HaltedNeverOpensIff: for strategies that name their own bar's symbol alone, as the paper engine's do.
- PaperEngine.PaperTradingEngine.FinishGroup: a report is a journal line; its contents and its file are not modelled.
- TrainServe.TrainingMatchesServingIff: for distinct bar times and no availability delay.
- Folds.FoldTrainsWhatItServesIff: for distinct feature ids, distinct bar times and no availability delay.
- Splitter.LeakFreeIff: label windows are taken in bar positions, as the splitter's arguments are.
- Audit.CollisionFree: SHA-256 is an injective function that never gives the empty string; theorems that need this require it.
- Floating point: all arithmetic is over the reals, so rounding, NaN and infinities do not occur.
- JSON text: payloads are modelled as trees in the order they are written; number formatting, escaping and non-string, non-integer keys are not.
- The in-memory audit store as a class: on values it is the file store without the text form.
- Notifications, the last decision per symbol, start, stop, crash and reconnect lines of the journal, the contents of reports and the `run` coroutine.
- The engine's journal field is the decisions log; that the audit log carries the same events is proved separately (`Journal.WrittenTwiceIff`).
- One wall-clock reading stands for all journal lines of one call.
- Provenance columns of bars, naive timestamps, and the checks of constructor arguments, which appear as `requires`.
- The `cancel_all` and `clear_all` calls, `from_manifest`, the DuckDB store and the feature-spec registry.
- Exchange clients, streams, the gap reconciler, the CLI, metrics export, plotting, MLflow: input and output without arithmetic or state to prove.
- LightGBM, isotonic regression and the calibration split: predictions are a function parameter.
- Sharpe, Sortino, Calmar, Ulcer, turnover and robustness aggregates, volatility-scaled barriers and reproducibility hashes: only easy members.
- `compute_trade_metrics`: its tracked position does not follow partial closes.
