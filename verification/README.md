# Verification of the cryptoquant core

A Dafny model of the parts of cryptoquant that keep books: the event bus, the realistic backtest,
the paper executor with its OMS and replay, the profit-and-loss accountings, the portfolio
arithmetic, the risk latches, the bar aggregator and the audit trail. Each piece of code that
changes state is modelled as a class or as methods with loops, verified against a specification;
the theorems are about the specification, over every input, run or interleaving.

`dafny verify dfyconfig.toml` checks the whole project.

## Conventions

- Floats are exact reals; the code's tolerances (1e-12, 1e-9) are kept. Square roots are any
  function that returns a non-negative root. `Mul(a, b)` is the product of a and b.
- Timestamps are integers (microseconds in the aggregator, seconds elsewhere).
- Callbacks, strategies' targets, regimes and random draws are arbitrary streams: the theorems hold
  for each of them.
- Exceptions are results: every error path of a modelled operation is a value.

## Files

| file | what it models |
|---|---|
| `EventBusProtocol.dfy`, `EventBus.dfy` | the bus as a transition system over its locks, and as objects whose real fields move along a run of it |
| `Backtest.dfy`, `BacktestAccounting.dfy`, `BacktestOrders.dfy`, `BacktestTiming.dfy` | the backtest loop; its money; its quantities; its timing |
| `Oms.dfy`, `PaperExecutor.dfy`, `Replay.dfy`, `Evaluation.dfy` | orders, paper execution, replay, and the two evaluations that run on them |
| `Accounting.dfy`, `Monitor.dfy` | average-cost and cash-flow accounting, the performance monitor |
| `WeightBounds.dfy`, `OptimizerWeights.dfy`, `CapitalAllocator.dfy`, `Covariance.dfy`, `Correlation.dfy` | the projections, the covariance and the correlation matrix |
| `RiskManager.dfy`, `KillSwitch.dfy`, `Degradation.dfy` | the risk latches and the kill switch |
| `BarAggregator.dfy`, `AuditTrail.dfy` | aggregation and the hash chain |
| `RealMath.dfy`, `Sorting.dfy`, `Decimals.dfy`, `Values.dfy`, `Market.dfy` | sums, stable sorting, decimal identifiers, options and results, shared records |

## Where the code does less than one might expect

- Neither projection always respects its upper bound. Both do exactly when one redistribution round
  is enough (`OptimizerWeights.BoundsExactlyAfterOneRound`; for the allocator when only one bound can
  be violated, `CapitalAllocator.BoundExactlyAfterOneRound`): a name clamped in one round is free in
  the next. The allocator's default bounds can fail too (`CapitalAllocator.DefaultBoundsCanFail`).
- An event published while the workers of a stopped bus have left stays queued
  (`EventBusProtocol.AfterShutdown`), and the dispatch counter can run ahead of the publish counter
  (`EventBusProtocol.DispatchedOvertakesPublished`).
- The strategy optimizer subtracts slippage costs that the fill prices already contain
  (`Evaluation.ReportsInTermsOfTargets`).
- A constant series has correlation zero with itself by `_pearson` and one in the matrix
  (`Correlation.SelfCorrelation`).
- Liquidation flattens positions but leaves pending orders and targets as they are, so quantities
  balance only with a liquidation term (`BacktestOrders.TargetAccountedFor`).
- The backtest reports slippage without its sign, so the report adds up to the final equity exactly
  when no fill gained by its slippage or penalty (`BacktestAccounting.ReportAddsUpExactlyWhen`); the
  configuration check accepts negative rates, and one such run does not add up
  (`BacktestAccounting.ReportCanMissEquity`). Without negative prices and rates it always does, and
  with signed slippage every run does (`BacktestAccounting.EquityIdentity`).
- A restart after a `stop` whose join timed out leaves two workers alive and can reorder events
  (`EventBusProtocol.RestartBreaksOrder`).
- The executor misses its target, without an error, when a leg's identifier was already filled
  (`PaperExecutor.TargetReachedExactly`, `PaperExecutor.TargetCanBeMissed`).
- Cutting events off the end of an audit ledger is invisible to `verify_chain`
  (`AuditTrail.TruncationVerifies`).
- A rejection by the daily stop approves a quantity of zero, which flattens rather than keeps the
  position (`RiskManager.TargetApprovedExactlyWhen`).

## Model

| member | source | states |
|---|---|---|
| `EventBusProtocol.EventsConserved` | src/cryptoquant/events/bus.py:137-206 | In every state of every interleaving of any number of publishers and workers: accepted events, as a multiset, are the queued ones plus those held in worker batches plus those handed over; unfinished tasks, `_published`, `_dispatched` and the number of events offered are accounted for with their in-flight terms; queue length and watermark stay within `queue_size`, dropped within backpressure, dispatched within batches times batch size |
| `EventBusProtocol.InvAlongRuns` | src/cryptoquant/events/bus.py:77-206 | The invariant behind it holds along every run, `start` and `stop` included |
| `EventBusProtocol.FlushMeansHandled` | src/cryptoquant/events/bus.py:126-132 | When `flush` reads zero unfinished tasks the queue is empty, no worker holds an event and everything accepted has been handed over; the two counters agree only up to their in-flight terms |
| `EventBusProtocol.OneWorkerIsFifo` | src/cryptoquant/events/bus.py:174-206 | With `worker_count` one, and no `start` before the workers of the last one have left their loop, the order of hand-over is a prefix of the order of acceptance |
| `EventBusProtocol.OneAliveAlongRuns` | src/cryptoquant/events/bus.py:110-124 | Under these conditions never more than one worker is alive |
| `EventBusProtocol.RestartBreaksOrder` | src/cryptoquant/events/bus.py:119-124 | A run in which `stop` returns before its thread has left and `start` follows: the event accepted last is handed over first |
| `EventBusProtocol.AfterShutdown` | src/cryptoquant/events/bus.py:119-124 | With publishers idle and all workers gone: published plus dropped is what was offered, dispatched is what was accepted before the last worker left, and the queue is empty, and dispatched equals published, if and only if nothing was accepted after that |
| `EventBusProtocol.LateEventStaysQueued` | src/cryptoquant/events/bus.py:174-176 | A run in which an event is published after the only worker left: it stays queued, so "the queue is empty after stop" is false without that condition |
| `EventBusProtocol.DispatchedOvertakesPublished` | src/cryptoquant/events/bus.py:147-149 | A run in which `_dispatched` exceeds `_published`, because the put precedes the counter |
| `EventBusProtocol.DispatchedWithinPublished` | src/cryptoquant/events/bus.py:147-206 | `_dispatched` is at most `_published` if and only if the publishers between put and counter are no more than the events queued, held, or handed over and not yet counted; so it leads by no more than those publishers, and never when there are none |
| `EventBus.UnsubscribeUndoes` | src/cryptoquant/events/bus.py:48-61 | Subscribing and at once unsubscribing a handler restores the handler list if and only if only that handler follows its first earlier subscription |
| `EventBus.EventBus.Subscribe` | src/cryptoquant/events/bus.py:48-51 | The handler joins the end of its own event type's list and nothing else changes |
| `EventBus.EventBus.Unsubscribe` | src/cryptoquant/events/bus.py:53-61 | The first occurrence leaves its list; an unknown handler changes nothing |
| `EventBus.EventBus.Publish` | src/cryptoquant/events/bus.py:63-68 | The handlers subscribed at entry run in order, up to and including the first that raises |
| `EventBus.LowLatencyEventBus.constructor` | src/cryptoquant/events/bus.py:77-108 | A fresh bus is an initial state of the protocol |
| `EventBus.LowLatencyEventBus.OfferOne` | src/cryptoquant/events/bus.py:138-154 | On a dropping bus, one round of `publish_many` moves the fields along a run of the protocol: the event is queued and counted, or dropped and counted twice |
| `EventBus.LowLatencyEventBus.PublishMany` | src/cryptoquant/events/bus.py:137-154 | Undisturbed, a dropping bus accepts exactly the events that find room, in order, and drops and counts the rest |
| `EventBus.LowLatencyEventBus.TakeBatch` | src/cryptoquant/events/bus.py:176-186 | A batch is the head of the queue: full, or the whole queue |
| `EventBus.LowLatencyEventBus.DispatchBatch` | src/cryptoquant/events/bus.py:192-206 | Every event of a batch is handed over and its task marked done, raising or not, before the counters move |
| `EventBus.LowLatencyEventBus.Round` | src/cryptoquant/events/bus.py:175-206 | After `stop` is set and with nobody else acting, one round of the loop: a batch taken, handed over and counted |
| `EventBus.LowLatencyEventBus.WorkerLoop` | src/cryptoquant/events/bus.py:174-206 | Undisturbed after `stop` is set, a worker hands over the whole queue in order, in full batches but for the last, counts it and leaves |
| `OptimizerWeights.ProjectSumsToOne` | src/cryptoquant/portfolio/optimizer.py:115-149 | The projected weights sum to exactly one for every input; no divisor is zero |
| `OptimizerWeights.BoundsExactlyAfterOneRound` | src/cryptoquant/portfolio/optimizer.py:122-149 | The result respects the bounds if and only if one redistribution round brings the starting weights within them: a second round never helps, whatever the eight rounds do |
| `OptimizerWeights.NeverInBounds` | src/cryptoquant/portfolio/optimizer.py:122-146 | Once somebody overshoots while somebody sits on the bound, this repeats in every later round, and likewise below |
| `OptimizerWeights.BoundCanFail` | src/cryptoquant/portfolio/optimizer.py:115-149 | Feasible bounds and three weights whose projection exceeds `max_weight` |
| `OptimizerWeights.IteratePositive` | src/cryptoquant/portfolio/optimizer.py:122-148 | The rounds keep a positive total, so the last division is safe |
| `OptimizerWeights.Round` | src/cryptoquant/portfolio/optimizer.py:123-146 | One pass in place: clamp, then spread the remainder over the free places |
| `OptimizerWeights.ProjectWeights` | src/cryptoquant/portfolio/optimizer.py:115-149 | The loop with its breaks computes the projection |
| `WeightBounds.RedistributeMeetsTotal` | src/cryptoquant/portfolio/optimizer.py:134-146 | Clamping and spreading the remainder meets the total exactly, for any shares of the free places |
| `Covariance.CovarianceMatrix` | src/cryptoquant/portfolio/optimizer.py:94-107 | The triple loop computes the sample covariances |
| `Covariance.CovarianceSymmetric` | src/cryptoquant/portfolio/optimizer.py:94-107 | The matrix is symmetric |
| `Covariance.QuadraticIsVariance` | src/cryptoquant/portfolio/optimizer.py:66-77 | For every return matrix and weights, the quadratic form of the covariance matrix is the sample variance of the weighted portfolio, hence never negative: the guards `max(..., 0.0)` never bite |
| `Covariance.GradientIsLinearPart` | src/cryptoquant/portfolio/optimizer.py:110-112 | A move changes the objective by gradient times move less the aversion-weighted variance of the move |
| `Covariance.StepClimbsExactlyWhen` | src/cryptoquant/portfolio/optimizer.py:62-63 | The gain of one unprojected step, and the exact learning rates for which it is not a loss |
| `Covariance.GradientOf` | src/cryptoquant/portfolio/optimizer.py:110-112 | The nested sums compute the gradient |
| `Covariance.QuadraticForm` | src/cryptoquant/portfolio/optimizer.py:156-157 | The nested sums compute the quadratic form |
| `Covariance.Climb` | src/cryptoquant/portfolio/optimizer.py:60-64 | The loop takes the projected gradient steps from equal weights |
| `Covariance.OptimizeStrategyWeights` | src/cryptoquant/portfolio/optimizer.py:35-69 | Each check raises its own error; otherwise the weights are those of the last round, sum to one, carry the portfolio's sample variance, and respect the bounds exactly when one projection round sufficed for the last candidate; of the report only the variance is modelled |
| `Correlation.CauchySchwarz` | src/cryptoquant/risk/portfolio_engine.py:207-216 | For any two equal-length series and any means: num squared is at most den_x times den_y |
| `Correlation.PearsonWithinOne` | src/cryptoquant/risk/portfolio_engine.py:206-221 | Every correlation lies in [-1, 1] |
| `Correlation.PearsonSymmetric` | src/cryptoquant/risk/portfolio_engine.py:206-221 | Swapping the series changes nothing |
| `Correlation.SelfCorrelation` | src/cryptoquant/risk/portfolio_engine.py:121-123 | A series correlates with itself by zero if all its values are equal, where the matrix still says one, and by exactly one otherwise |
| `Correlation.ComputePearson` | src/cryptoquant/risk/portfolio_engine.py:206-221 | The loop computes the correlation |
| `Correlation.TabulatedIsCorrelationMatrix` | src/cryptoquant/risk/portfolio_engine.py:113-132 | The matrix is square, symmetric, with unit diagonal, all entries in [-1, 1] |
| `Correlation.EvaluateCorrelationRisk` | src/cryptoquant/risk/portfolio_engine.py:96-156 | The three errors in order; the matrix; the average of the absolute pair correlations, in [0, 1]; exactly the breached pairs; approval exactly when neither limit is broken |
| `CapitalAllocator.ProjectMeetsTotal` | src/cryptoquant/portfolio/capital_allocator.py:185-263 | Whenever the projection succeeds, the weights meet the total within 1e-12, and they respect both bounds if the loop left by either break |
| `CapitalAllocator.InBoundsExactlyWhenLoopIs` | src/cryptoquant/portfolio/capital_allocator.py:207-263 | For all bounds: the result respects them if and only if the loop left by a break or its last round ended within them; a loop out of rounds meets the total already and is returned unrepaired |
| `CapitalAllocator.InBoundsExactlyWhen` | src/cryptoquant/portfolio/capital_allocator.py:207-263 | For all bounds that exact weights can meet: the result respects them if and only if one round brings the base weights within them, or everybody is out of bounds at the start, or one of the rounds after the third ends within them |
| `CapitalAllocator.SecondAndThirdRoundOut` | src/cryptoquant/portfolio/capital_allocator.py:207-231 | For all bounds: when the first round ends out of bounds with somebody free, so do the second and the third |
| `CapitalAllocator.BoundExactlyAfterOneRound` | src/cryptoquant/portfolio/capital_allocator.py:207-263 | When only one bound can be violated (min_weight is 0, or max_weight is at least the total) and the bounds are feasible, the result respects them if and only if one round brings the base weights within them |
| `CapitalAllocator.NeverSettles` | src/cryptoquant/portfolio/capital_allocator.py:207-231 | Under such one-sided bounds, if a second round is needed every later one ends out of bounds, until the sixteen are spent |
| `CapitalAllocator.OversNeverSettle` | src/cryptoquant/portfolio/capital_allocator.py:207-231 | Three successive rounds, none of which starts with somebody under, the first two ending out of bounds: the third ends out of bounds too, for any non-negative base weights and any total |
| `CapitalAllocator.UndersNeverSettle` | src/cryptoquant/portfolio/capital_allocator.py:207-231 | The same with over and under exchanged |
| `CapitalAllocator.Alternates` | src/cryptoquant/portfolio/capital_allocator.py:207-231 | Two out-of-bounds rounds that lead to each other are repeated until the rounds are spent, for all bounds |
| `CapitalAllocator.DefaultBoundsCanFail` | src/cryptoquant/portfolio/capital_allocator.py:26-27 | Under the default bounds 0.05 and 0.65, scores 0.6, 0.3095, 0.0505 and 0.04 end out of bounds |
| `CapitalAllocator.BoundCanFail` | src/cryptoquant/portfolio/capital_allocator.py:207-231 | Scores 0.7, 0.25, 0.05 with bounds [0, 0.4] end above the bound |
| `CapitalAllocator.RepairMeetsTotal` | src/cryptoquant/portfolio/capital_allocator.py:233-263 | The repair keeps weights within bounds and meets the total to the tolerance |
| `CapitalAllocator.RaiseSpends` | src/cryptoquant/portfolio/capital_allocator.py:240-249 | The raising pass keeps every weight between its old value and the bound and never overspends the residual |
| `CapitalAllocator.LowerSpends` | src/cryptoquant/portfolio/capital_allocator.py:251-261 | The lowering pass likewise |
| `CapitalAllocator.UnitProjectSucceeds` | src/cryptoquant/portfolio/capital_allocator.py:195-235 | With a total of one and feasible bounds no error is raised |
| `CapitalAllocator.ProjectErrors` | src/cryptoquant/portfolio/capital_allocator.py:195-198 | With a total of one an error is raised exactly when a bound is infeasible |
| `CapitalAllocator.Pass` | src/cryptoquant/portfolio/capital_allocator.py:208-231 | One pass in place: clamp, then rescale the free places from their base |
| `CapitalAllocator.RaiseInPlace` | src/cryptoquant/portfolio/capital_allocator.py:240-249 | The raising loop along the order, with its skip and its break |
| `CapitalAllocator.LowerInPlace` | src/cryptoquant/portfolio/capital_allocator.py:251-261 | The lowering loop along the order, with its skip and its break |
| `CapitalAllocator.RepairInPlace` | src/cryptoquant/portfolio/capital_allocator.py:237-261 | The repair chooses its branch and order by the sign of the residual |
| `CapitalAllocator.ProjectWeights` | src/cryptoquant/portfolio/capital_allocator.py:185-263 | The loop with its breaks computes the projection, errors included |
| `CapitalAllocator.ScoreAll` | src/cryptoquant/portfolio/capital_allocator.py:96-136 | Scores every signal, refusing the first invalid one |
| `CapitalAllocator.Fund` | src/cryptoquant/portfolio/capital_allocator.py:93-145 | Reserve and strategy capital return the total capital to within the investable part times 1e-12 |
| `CapitalAllocator.AllocateCapital` | src/cryptoquant/portfolio/capital_allocator.py:82-155 | Succeeds exactly on valid inputs with feasible bounds, raises the matching error otherwise, and splits the capital by the projected scores |
| `Accounting.ApplyKeepsCost` | src/cryptoquant/strategy/optimizer.py:152-180 | One fill keeps realised profit less the position at cost in step with the cash paid, across adding, reducing, closing and crossing |
| `Accounting.RealizedIsCashPlusCost` | src/cryptoquant/monitoring/performance.py:82-109 | For every fill sequence and symbol, average-cost realised profit is the position at cost plus the cash received, and the position is the net quantity |
| `Accounting.AverageCostIsCashFlow` | src/cryptoquant/monitoring/performance.py:135-151 | Realised plus unrealised profit at a mark is the cash-flow profit at that mark |
| `Accounting.NetIsPnlLessSlippage` | src/cryptoquant/strategy/optimizer.py:129-131 | On the same fills and last price the optimizer's net profit is the robustness profit less the total slippage cost |
| `Accounting.SlippageChargedTwice` | src/cryptoquant/strategy/optimizer.py:119-131 | On fills whose price carries their slippage, cash flow bears it once and the optimizer's net profit twice |
| `Accounting.PositionState.ApplyFill` | src/cryptoquant/strategy/optimizer.py:152-180 | The branches update the position in place as the specification says |
| `Accounting.EvaluateAverageCost` | src/cryptoquant/strategy/optimizer.py:119-131 | The fill loop computes the average-cost net profit |
| `Accounting.EvaluateCashFlow` | src/cryptoquant/backtest/robustness.py:103-118 | The fill loop computes the cash-flow profit |
| `Evaluation.ReportsInTermsOfTargets` | src/cryptoquant/backtest/robustness.py:85-118 | On a replay's own fills the cash-flow profit is each event's target times the next price change, summed, less fees and slippage; the average-cost net profit is less slippage once more |
| `Evaluation.ReplayEarns` | src/cryptoquant/backtest/robustness.py:88-101 | At their requested prices the fills earn exactly what the targets earn, and the position is the last target |
| `Evaluation.ExecuteTargets` | src/cryptoquant/backtest/robustness.py:85-101 | The loop over the executor computes the replay from a fresh executor |
| `Evaluation.EvaluateStrategyMetrics` | src/cryptoquant/backtest/robustness.py:71-129 | Errors in order; otherwise trades, profit in terms of targets and prices, and the return on the initial equity; turnover and win rate are left out |
| `Evaluation.EvaluateParameters` | src/cryptoquant/strategy/optimizer.py:90-131 | Errors in order; otherwise the net profit in terms of targets and prices; win rate, close trades and score are left out |
| `Monitor.RealTimePerformanceMonitor.constructor` | src/cryptoquant/monitoring/performance.py:51-63 | A fresh monitor has empty books and a flat curve |
| `Monitor.RealTimePerformanceMonitor.RecordFill` | src/cryptoquant/monitoring/performance.py:65-113 | Exactly the bad inputs are refused, changing no field; otherwise the fill enters the books, which stay functions of all fills so far, and the snapshot reports them; win statistics are left out |
| `Monitor.RealTimePerformanceMonitor.UpdatePosition` | src/cryptoquant/monitoring/performance.py:82-109 | The branches on the position, with the profit of the closed part |
| `Monitor.RealTimePerformanceMonitor.Post` | src/cryptoquant/monitoring/performance.py:96-112 | The totals take the fill, so the books cover it |
| `Monitor.RealTimePerformanceMonitor.RecordMarkPrice` | src/cryptoquant/monitoring/performance.py:115-126 | A non-positive mark is refused, changing no field; otherwise that symbol's mark alone changes and a snapshot is taken |
| `Monitor.RealTimePerformanceMonitor.ComputeUnrealized` | src/cryptoquant/monitoring/performance.py:132-141 | The sum over open, marked positions |
| `Monitor.RealTimePerformanceMonitor.BuildSnapshot` | src/cryptoquant/monitoring/performance.py:131-161 | The snapshot's figures, and the curve extended by its net value: peak, largest drawdown and change; the Sharpe-like figure, win rate and per-symbol table are left out |
| `Monitor.DrawdownExtends` | src/cryptoquant/monitoring/performance.py:153-157 | Comparing the new fall with the recorded one keeps the largest fall of the whole curve from any earlier value |
| `Monitor.CurveExtends` | src/cryptoquant/monitoring/performance.py:151-161 | One more net value keeps peak, largest drawdown and the sum of changes right |
| `Monitor.CashAddsUp` | src/cryptoquant/monitoring/performance.py:111-112 | The cash paid for all fills is the sum over symbols |
| `Monitor.NetIsCashFlow` | src/cryptoquant/monitoring/performance.py:151-151 | The net profit of every snapshot is the open positions at their marks (at cost while unmarked) less the cash paid, fees and slippage |
| `RiskManager.RiskManager.constructor` | src/cryptoquant/risk/manager.py:69-90 | A fresh manager matches an empty history |
| `RiskManager.RiskManager.Apply` | src/cryptoquant/risk/manager.py:92-131 | Invalid requests change nothing; a valid one extends the history of valid calls, of which every field stays a function, gets the answer that history calls for, and sends exactly the alerts whose conditions begin |
| `RiskManager.RiskManager.RefreshDailyState` | src/cryptoquant/risk/manager.py:133-157 | Anchor and daily latch become those of the longer history |
| `RiskManager.RiskManager.RefreshDynamicStopState` | src/cryptoquant/risk/manager.py:159-201 | Side, extreme price and trailing latch become those of the longer history |
| `RiskManager.RiskManager.Decided` | src/cryptoquant/risk/manager.py:101-131 | What follows the refreshes: the answer under the two latches, and the three remaining warnings |
| `RiskManager.RiskManager.Size` | src/cryptoquant/risk/manager.py:119-129 | The clamp to both caps, with its reason, notional and leverage |
| `RiskManager.RiskManager.EmitUtilizationAlerts` | src/cryptoquant/risk/manager.py:235-260 | The two utilization warnings latch and alert on their rising edges |
| `RiskManager.RunIsMaximalSuffix` | src/cryptoquant/risk/manager.py:164-175 | The calls a latch looks at are the maximal suffix on the current side, or day |
| `RiskManager.BestIsExtreme` | src/cryptoquant/risk/manager.py:181-186 | The extreme is the highest, or lowest, price of that suffix, and one of its prices |
| `RiskManager.StopExtends` | src/cryptoquant/risk/manager.py:164-191 | The trailing latch is set exactly when some call of the suffix retraced to the stop its prices so far had set; it clears only when the side changes |
| `RiskManager.StopMovesFavourably` | src/cryptoquant/risk/manager.py:227-233 | While the side lasts the stop price moves only in the position's favour |
| `RiskManager.DailyStopExtends` | src/cryptoquant/risk/manager.py:138-150 | The daily latch is set exactly when some call of the day was down by the stop's share of the day's first equity; it clears only with the day |
| `RiskManager.CapsRespected` | src/cryptoquant/risk/manager.py:119-131 | Every approval respects both caps, never opposes the target's sign and never exceeds it |
| `RiskManager.TargetApprovedExactlyWhen` | src/cryptoquant/risk/manager.py:101-126 | Exactly when the target is approved unchanged |
| `RiskManager.DailyStopShrinks` | src/cryptoquant/risk/manager.py:102-103 | Under the daily stop an approval stays on the current side and does not grow |
| `RiskManager.DailyStopNeverReopens` | src/cryptoquant/risk/manager.py:101-131 | Feeding approvals back as positions through a stopped day: exposure never grows, never changes side, and once flat stays flat |
| `RiskManager.TrailingStopExits` | src/cryptoquant/risk/manager.py:105-106 | Under the trailing stop no approval keeps or adds to the position |
| `RiskManager.HeldExtends` | src/cryptoquant/risk/manager.py:102-117 | A rejection by the daily stop leaves the last three warnings as they were; any other answer decides them anew |
| `KillSwitch.BlockedExactlyByOwnEntries` | src/cryptoquant/risk/kill_switch.py:84-107 | Execution is blocked exactly by the four entries that concern the account and strategy |
| `KillSwitch.ReleaseUndoesEngage` | src/cryptoquant/risk/kill_switch.py:45-82 | Engaging blocks whoever is in scope, and releasing restores the switch if and only if that entry was free before |
| `KillSwitch.KillSwitch.Engage` | src/cryptoquant/risk/kill_switch.py:45-63 | Sets the addressed entry, or raises for a missing identifier |
| `KillSwitch.KillSwitch.Release` | src/cryptoquant/risk/kill_switch.py:65-82 | Clears the addressed entry, or raises for a missing identifier |
| `Degradation.AutoDegradationController.RecordSample` | src/cryptoquant/risk/degradation.py:95-170 | A negative metric is refused and changes nothing; otherwise controller, switch and alerts move as specified |
| `Degradation.AutoDegradationController.EmitAnomalyAlerts` | src/cryptoquant/risk/degradation.py:198-212 | The new reasons are alerted in name order |
| `Degradation.AutoDegradationController.OnCritical` | src/cryptoquant/risk/degradation.py:125-136 | Halts, engaging the global block only where there is none |
| `Degradation.AutoDegradationController.OnHealthy` | src/cryptoquant/risk/degradation.py:143-150 | Counts, and after enough healthy windows recovers, lifting only its own block |
| `Degradation.LastBreachIsLast` | src/cryptoquant/risk/degradation.py:143-145 | What the last breaching window of a history is |
| `Degradation.StateIsFunctionOfHistory` | src/cryptoquant/risk/degradation.py:101-150 | Over every interleaving with operators: window, mode, counter and active set are functions of the accepted samples; the mode is normal without a breach or after enough healthy windows, else the severity of the last breaching window |
| `Degradation.AlertsOnRisingEdges` | src/cryptoquant/risk/degradation.py:198-212 | A reason is alerted exactly when its breach holds on this window and did not on the one before |
| `Degradation.SampleTouchesOwnBlockOnly` | src/cryptoquant/risk/degradation.py:128-150 | A sample never touches account or strategy blocks, sets the global one only where there was none, and clears it only if its reason is the recorded one |
| `Degradation.HaltedMeansBlocked` | src/cryptoquant/risk/degradation.py:128-150 | If no operator touches the global scope, its reason is always the recorded one, and HALTED blocks every account and strategy |
| `Degradation.HaltedOpenExactlyAfterRelease` | src/cryptoquant/risk/degradation.py:128-150 | With operators at any scope, a halted controller finds the global level open if and only if a release came after the last critical sample and the last engage |
| `BarAggregator.BucketsTile` | src/cryptoquant/aggregation/bar_aggregator.py:140-143 | A timestamp lies in the bucket it is floored to, and bucket starts are multiples of the width |
| `BarAggregator.SameBucket` | src/cryptoquant/aggregation/bar_aggregator.py:140-143 | Flooring keeps order, and timestamps less than a width apart share a bucket or have adjacent ones |
| `BarAggregator.FillGaps` | src/cryptoquant/aggregation/bar_aggregator.py:52-71 | The nested loops compute the gap-filled stream |
| `BarAggregator.FilledIsDense` | src/cryptoquant/aggregation/bar_aggregator.py:52-71 | Gap fill keeps both ends and all volume, and leaves neighbours in order and less than 120 seconds apart |
| `BarAggregator.FilledMembers` | src/cryptoquant/aggregation/bar_aggregator.py:52-71 | Every bar is kept, and every other one is flat at the last close, strictly between two neighbours |
| `BarAggregator.AggregateStream` | src/cryptoquant/aggregation/bar_aggregator.py:73-138 | The streaming loop computes the bars of the stream |
| `BarAggregator.StreamedIsGroupBy` | src/cryptoquant/aggregation/bar_aggregator.py:73-138 | The pass is the group-by of every ordered stream: strictly increasing buckets, exactly those that have bars, each bar the first open, highest high, lowest low, last close and total volume of its bucket |
| `BarAggregator.GroupByUnique` | src/cryptoquant/aggregation/bar_aggregator.py:73-138 | That relation determines the result |
| `BarAggregator.StreamedVolume` | src/cryptoquant/aggregation/bar_aggregator.py:95-122 | Volume is conserved |
| `BarAggregator.StreamedValid` | src/cryptoquant/aggregation/bar_aggregator.py:91-122 | Consistent bars aggregate to consistent bars |
| `BarAggregator.NoBucketMissing` | src/cryptoquant/aggregation/bar_aggregator.py:41-42 | With gap fill the k-th bar starts exactly k bucket widths after the first, up to the last input bar's bucket |
| `BarAggregator.EmptyBucketCarriesClose` | src/cryptoquant/aggregation/bar_aggregator.py:56-69 | A bucket without bars of its own is flat at the last close before it, without volume |
| `BarAggregator.BarAggregator.Aggregate` | src/cryptoquant/aggregation/bar_aggregator.py:30-42 | Succeeds exactly on minute bars of one symbol, with the group-by of their ordered, possibly gap-filled stream, all the volume, the input's symbol and the target's timeframe; bars of equal timestamps keep their order |
| `BarAggregator.BarAggregator.ValidateOneMinuteBars` | src/cryptoquant/aggregation/bar_aggregator.py:44-50 | The error of the first offending bar |
| `Oms.OMS.Submit` | src/cryptoquant/oms/oms.py:12-17 | A known identifier returns the order on file; a new one is filed as NEW |
| `Oms.OMS.Fill` | src/cryptoquant/oms/oms.py:19-20 | A new order becomes FILLED; anything else raises and changes nothing |
| `Oms.OMS.Cancel` | src/cryptoquant/oms/oms.py:22-23 | A new order becomes CANCELED; anything else raises and changes nothing |
| `Oms.OMS.Reject` | src/cryptoquant/oms/oms.py:25-28 | A new order becomes REJECTED with its reason; anything else raises and changes nothing |
| `Oms.OMS.Transition` | src/cryptoquant/oms/oms.py:33-38 | Succeeds exactly for a known order in status NEW, and moves that order alone |
| `Oms.OrdersAreFinal` | src/cryptoquant/oms/oms.py:12-38 | Over every run of calls an order keeps its symbol and quantity, and a final status for good |
| `PaperExecutor.PaperExecutor.constructor` | src/cryptoquant/execution/paper.py:26-41 | A fresh executor has no fills and no positions |
| `PaperExecutor.PaperExecutor.ExecuteMarket` | src/cryptoquant/execution/paper.py:43-98 | The checks in order, the known fill returned, the order submitted, and a new one filled |
| `PaperExecutor.PaperExecutor.SubmitAndFill` | src/cryptoquant/execution/paper.py:71-98 | What follows the checks |
| `PaperExecutor.PaperExecutor.FillNew` | src/cryptoquant/execution/paper.py:77-97 | The fill, the position and the order's status change together |
| `PaperExecutor.PaperExecutor.ExecuteToTarget` | src/cryptoquant/execution/paper.py:100-150 | No leg, one leg, or a close and an open, stopping at the first error |
| `PaperExecutor.InvAlongRuns` | src/cryptoquant/execution/paper.py:43-98 | In every run, whoever else uses the OMS: no identifier is filled twice, every fill's order is FILLED, every position is the sum of its fills |
| `PaperExecutor.FilledExactlyWhenFill` | src/cryptoquant/execution/paper.py:60-97 | As long as nobody else fills orders, a fill exists for an identifier exactly when its order is FILLED, so the KeyError is never raised |
| `PaperExecutor.RepeatIsNoop` | src/cryptoquant/execution/paper.py:100-150 | Repeating a successful `execute_to_target` with the same arguments returns the same fills and changes nothing, whatever happened in between |
| `PaperExecutor.TargetReachedExactly` | src/cryptoquant/execution/paper.py:115-150 | Told the true position, the executor reaches its target if and only if none of its leg identifiers was used up; then no other position changes and no fill passes through zero |
| `PaperExecutor.TargetCanBeMissed` | src/cryptoquant/execution/paper.py:115-150 | After one target, a second under the same prefix succeeds, returns the earlier fill and leaves the position where it was |
| `PaperExecutor.FillPaysSlippage` | src/cryptoquant/execution/paper.py:77-81 | A fill pays the mark value plus its slippage cost, which is never negative, and the fee on its notional |
| `Replay.EventReplayer.Run` | src/cryptoquant/backtest/replay.py:26-53 | The loop over the sorted events computes the replay, an error ending it |
| `Replay.ReplayReachesTargets` | src/cryptoquant/backtest/replay.py:33-53 | On a fresh executor a replay succeeds if and only if every event asking for a trade has a positive price and nothing blocks; then every symbol ends at its last event's target, each position is the sum of its fills and none of them passed through zero |
| `Replay.ReplayProgress` | src/cryptoquant/backtest/replay.py:33-53 | The same after every prefix of the events, from any sound state whose identifiers are unused |
| `Replay.WantedIsLast` | src/cryptoquant/backtest/replay.py:39-42 | The target a symbol ends at is its last relevant event's |
| `Replay.IdsDiffer` | src/cryptoquant/backtest/replay.py:44-45 | Different event numbers make different order identifiers |
| `AuditTrail.AuditTrail.Append` | src/cryptoquant/compliance/audit.py:40-63 | One event more, numbered, redacted and linked; the chain verifies after exactly when it did before |
| `AuditTrail.AuditTrail.VerifyChain` | src/cryptoquant/compliance/audit.py:65-83 | True exactly when the ledger is a chain |
| `AuditTrail.LastHashPinsLedger` | src/cryptoquant/compliance/audit.py:65-114 | Two verified ledgers with the same last hash are equal, genesis and length included, or two of their events exhibit a collision of the hash |
| `AuditTrail.SameLastHashSameLedger` | src/cryptoquant/compliance/audit.py:65-114 | With an injective hash they are equal |
| `AuditTrail.EditUnnoticedExactlyWhen` | src/cryptoquant/compliance/audit.py:65-83 | Replacing one event of a verified ledger goes unnoticed exactly when it is the last one and linked afresh, or nothing changed |
| `AuditTrail.TruncationVerifies` | src/cryptoquant/compliance/audit.py:65-83 | Every prefix of a verified ledger verifies: cutting off the end cannot be seen without the last hash |
| `Backtest.EventIndex` | src/cryptoquant/backtest/mvp11.py:181-191 | The last position of the symbol's events with that timestamp |
| `Backtest.FirstAtOrAfter` | src/cryptoquant/backtest/mvp11.py:105-110 | The first position from the signal on whose time has come, or the last one |
| `Backtest.ResolveExecuteIdx` | src/cryptoquant/backtest/mvp11.py:100-111 | The scan computes the earliest bar at which an order may execute |
| `BacktestTiming.ExecutableExactlyWhen` | src/cryptoquant/backtest/mvp11.py:100-111 | The bars from that one on are exactly those that respect both latencies, or are the last and respect the latency in bars |
| `Backtest.ProcessMatured` | src/cryptoquant/backtest/mvp11.py:190-259 | Matured orders leave the book by value, are filled in turn, and residuals go back |
| `Backtest.FillAll` | src/cryptoquant/backtest/mvp11.py:200-259 | The loop over the matured orders on cash, positions, fills and book |
| `BacktestOrders.FillOrderEffect` | src/cryptoquant/backtest/mvp11.py:200-259 | A fill is on the order's side, of something and not more than all of it; the strictly smaller residual is pending again or dropped as dust |
| `BacktestOrders.FilledQtyIsShareOfDepth` | src/cryptoquant/backtest/mvp11.py:208-213 | The quantity filled at once is the base ratio times the queue factor times the smaller of order and displayed depth |
| `Backtest.CancelStale` | src/cryptoquant/backtest/mvp11.py:270-274 | Each stale order is cancelled unless its draw rejects the cancellation |
| `Backtest.FollowTarget` | src/cryptoquant/backtest/mvp11.py:267-289 | A changed target cancels stale orders and adds an order for the difference |
| `Backtest.ChargeFunding` | src/cryptoquant/backtest/mvp11.py:292-294 | The funding loop |
| `BacktestAccounting.FundingIsShareOfGross` | src/cryptoquant/backtest/mvp11.py:292-294 | Funding is the rate on the gross notional, taken out of equity |
| `Backtest.MeasureExposure` | src/cryptoquant/backtest/mvp11.py:296-299 | Equity and gross notional at the last prices |
| `Backtest.CheckLiquidation` | src/cryptoquant/backtest/mvp11.py:296-329 | The margin check and the liquidation loop |
| `BacktestAccounting.LiquidationFlattens` | src/cryptoquant/backtest/mvp11.py:300-329 | When the check fails no symbol keeps more than dust; otherwise nothing changes |
| `Backtest.StepCurve` | src/cryptoquant/backtest/mvp11.py:332-338 | One equity point per event, its change booked to the event's regime |
| `Backtest.RunBacktest` | src/cryptoquant/backtest/mvp11.py:122-352 | The errors in order; otherwise the report of the state after all events in time order, for given targets; the strategy and symbol weights behind them and their checks are left out |
| `BacktestTiming.RunsAreCovered` | src/cryptoquant/backtest/mvp11.py:131-141 | A run without error meets the conditions of the theorems below |
| `BacktestAccounting.StepBasis` | src/cryptoquant/backtest/mvp11.py:186-330 | One event changes equity, with all costs added back, by its price move alone |
| `BacktestAccounting.EquityIdentity` | src/cryptoquant/backtest/mvp11.py:186-332 | Every recorded equity is the initial one plus position times price change over events and symbols, less fees, signed slippage and funding, across partial fills and liquidations |
| `BacktestAccounting.ReportAddsUpExactlyWhen` | src/cryptoquant/backtest/mvp11.py:340-352 | For every run: the final equity is at least what the reported totals add up to, and equal to it if and only if no fill gained by its price having moved from the mark |
| `BacktestAccounting.ReportAddsUp` | src/cryptoquant/backtest/mvp11.py:340-352 | What can be checked before the run: with no negative price or rate the reported totals add up to the final equity |
| `BacktestAccounting.ReportCanMissEquity` | src/cryptoquant/backtest/mvp11.py:71-88 | A configuration with `slippage_bps` -10, which the check accepts, and two bars: the reported totals fall short of the final equity |
| `BacktestAccounting.RegimesSumToEquityChange` | src/cryptoquant/backtest/mvp11.py:334-338 | The regime changes sum to last equity minus first |
| `BacktestAccounting.RegimeGetsItsChanges` | src/cryptoquant/backtest/mvp11.py:334-338 | Each regime gets exactly the changes of its own events |
| `BacktestOrders.NothingUnaccounted` | src/cryptoquant/backtest/mvp11.py:192-329 | For any choice of orders: signalled is filled (liquidations aside) plus pending plus cancelled plus dropped |
| `BacktestOrders.CancelsGap` | src/cryptoquant/backtest/mvp11.py:270-273 | Every stale order is still in the book when removed, so `list.remove` never raises |
| `BacktestOrders.TargetAccountedFor` | src/cryptoquant/backtest/mvp11.py:192-329 | For each symbol: target is position plus pending, cancelled, flattened and dropped quantities, each drop at most 1e-12; position is the sum of its fills |
| `BacktestOrders.TargetFollowed` | src/cryptoquant/backtest/mvp11.py:265-289 | The recorded target is the one asked for, to within 1e-12 |
| `BacktestTiming.FillsRespectLatency` | src/cryptoquant/backtest/mvp11.py:192-259 | For every stream of draws, each fill of an event is a liquidation or belongs to an order signalled by an earlier event, on its side, after the latency in bars, and after the latency in seconds unless on the last bar; bars are counted by timestamp |
| `BacktestTiming.OrderNeverOverfilled` | src/cryptoquant/backtest/mvp11.py:200-289 | Each order is the sum of its fills and what is pending, cancelled and dropped of it; its fills never exceed it |
| `BacktestTiming.PendingNumbersDistinct` | src/cryptoquant/backtest/mvp11.py:243-288 | Pending orders never share a sequence number |
| `BacktestTiming.RemovalIsExact` | src/cryptoquant/backtest/mvp11.py:273-273 | With distinct numbers, removal by value removes the intended order and no other |
| `BacktestTiming.StepTraced` | src/cryptoquant/backtest/mvp11.py:186-332 | One event keeps every pending, cancelled and dropped order and every fill traced to its signal |

## Left out

- CapitalAllocator.InBoundsExactlyWhen: with both bounds active it does not decide whether a round after the third can end within them when the first did not (with one-sided bounds none can, and no input is known where one does).
- EventBus.LowLatencyEventBus.OfferOne: a dropping bus only; the blocking `put` is a step of the protocol, not of this method.
- EventBus.LowLatencyEventBus.Round: the round of an undisturbed worker after `stop` is set; interleavings are the protocol's.
- EventBus.LowLatencyEventBus.PublishMany: the closed form is for a dropping bus; a blocking `put` appears in the protocol as a step that waits, not in this method.
- EventBus.LowLatencyEventBus.WorkerLoop: the closed form is for a worker nobody disturbs; interleavings are the protocol's.
- Backtest.RunBacktest: an event's target is taken as given; the weighted sum over strategies, and the checks of the weights' names and sums, are not modelled.
- BacktestTiming.FillsRespectLatency: two events of one symbol with equal timestamps share a bar index, so the fill's bar is shown to be later than the signal's only when its time is.
- Covariance.OptimizeStrategyWeights: expected return, annualised volatility and Sharpe figures are not modelled, and there is no claim that the loop converges; the step's exact gain is stated before projection.
- Evaluation.EvaluateStrategyMetrics: turnover and win rate are not modelled.
- Evaluation.EvaluateParameters: win rate, close-trade count and the score are not modelled.
- Monitor.RealTimePerformanceMonitor.BuildSnapshot: the Sharpe-like figure, the win rate and the per-symbol table are not modelled.
- Monitor.RealTimePerformanceMonitor.RecordFill: winning and losing closes are not counted.
- Oms.OMS.Submit: the executor does not hand out order objects, but another holder of one could change it directly; such writes are not modelled.
- Wall-clock time in the bus: latencies and their average, `join` and flush deadlines, thread start-up; a deadline is a step that may give up.
- Rounding: no statement about floating point.
- SHA-256, JSON and secret redaction in the audit trail: arbitrary functions here. A payload changed in place after it was recorded is outside the model.
- Sharpe-like figures, annualisation, win rates, turnover, close-trade counts, alert texts.
- `simulate_realistic_execution`, `run_regime_scenarios` and `run_multi_strategy_portfolio_backtest`: thin wrappers of the backtest.
- `recover_state`, the strategy registry, compliance rules, failover planning, multi-account routing, exposure and value-at-risk reports, moving averages: correct but easy next to the above.
- Exchange gateways, web sockets, keepalive loops, scripts, command line, data loading, reports: input and output.
