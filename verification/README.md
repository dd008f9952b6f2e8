# Verification of the trading system's engines

This project models four parts of the repository and proves properties of them over every run.

1. **Historical replay and exit simulator** (`Simulation`, `SimulationLaws`, `Replay`, `ReplayHistory`, `ReplayLaws`, `SimulatedReplay`,
   `NoLookAhead`, `LookAheadLimits`, `Gate`, `GateLaws`, `ReplayCosts`, `Drawdown`, `ExecutionArithmetic`, `ReplayRecords`,
   `SimulatedRecords`). The replay is a step machine with open positions, a calendar of
   scheduled closures, cooldowns, daily counters and a loss-streak halt. A strategy is an arbitrary function of its window.
   `ReplayHistory` shows that the portfolio is determined by the entries in the records; the other laws follow from that description.
2. **Grid engine** (`Grid`, `GridThreshold`, `GridLedger`, `GridFigures`, `GridAdvisor`, `GridLive`, `GridLiveLaws`, `GridLiveOrders`). The back-test's slot loops, the
   range search, and the live session driven by starts, pauses, stops and fill events.
3. **Trade lifecycle and safety guards** (`Journal`, `Services`, `JournalRows`, `OutcomeLaws`, `StopLaws`, `AdmissionLaws`,
   `SubmissionLaws`, `LinkLaws`, `Transactions`, `Guards`, `DayLaws`). `Journal` is one transition system over trade rows, event log, daily statistics, safety row and
   submissions. `Services` holds the source's classes as they update the database; every method is tied to a transition of `Journal`. The
   laws quantify over all sequences of commands: submissions with any reply, order events, reconciliations, closes, fees, activation,
   reset and the passing of time, in any order and with any repetition. `Transactions` and `Guards` give each command as one equation
   between stored states.
4. **Backward paging of candles** (`Paging`).

Amounts are reals. One command is one database transaction or one event, with one clock value. Foreign answers (exchange replies,
lookups, market prices, the random generator) are parameters.

What the code does differs from what one might expect in these places; each has a lemma.

- A replay that ends at candle n closes its position there, so data that stops exactly at n is decided differently before n
  from data that goes on (`LookAheadLimits.EndOfDataIsVisible`, and exactly then: `LookAheadLimits.SharedPastIsExact`); with random
  maker fills and two places a later candle changes an earlier decision (`LookAheadLimits.LaterOutcomesShiftTheGenerator`); with a
  hold limit of zero the last candle does (`LookAheadLimits.ZeroHoldSeesTheEnd`).
- Starting a live grid marks the slots at or above the price as waiting to sell but places no sell order; such slots never trade
  (`GridLiveLaws.UnarmedSlotNeverTrades`).
- A market entry whose answer is lost keeps the order type Limit, so its fill opens a position without a stop
  (`StopLaws.LostAnswerOpensUnprotected`).
- A trade that a submission finds confirmed by a status lookup has no filled quantity (`StopLaws.LookupConfirmationsStrand`) and
  waits for a further order event, outside every reconciliation (`StopLaws.LookupConfirmedTradesWait`).
- ORDER_CANCELLED, ORDER_REJECTED and POSITION_CLOSE_FAILED are not final: the commands named by `SubmissionLaws.Revives` bring a
  superseded trade back, and then one fingerprint can have two live trades (`SubmissionLaws.LateFillDoublesUp`).

`dafny verify dfyconfig.toml` checks the whole project.

## Model

| member | source | states |
|---|---|---|
| `NoLookAhead.DecisionsDoNotSeeTheFuture` | backend/backtest/replay_runner.py:165-225 | For every strategy and every two histories that share their first n candles, the replay takes the same signal and the same enter-or-skip decision at each step before n, although each entry is simulated on the whole future; outcomes already known before n agree too |
| `LookAheadLimits.EndOfDataIsVisible` | backend/backtest/simulation_execution_service.py:394-417 | Whenever exactly one of two histories stops at their n shared candles (n at least 2), a concrete strategy and limits enter at step n - 1 on the one that stops and not on the other |
| `LookAheadLimits.SharedPastIsExact` | backend/backtest/replay_runner.py:165-225 | Two histories with the same first n candles are decided alike before n by every replay if and only if they are the same or both go on |
| `LookAheadLimits.LaterOutcomesShiftTheGenerator` | backend/backtest/simulation_execution_service.py:523-528 | Why random maker fills need one place: with two, a replay over two histories that share three candles and both go on decides differently at the third, because the later exit of the first position shifts the draw the second entry meets |
| `LookAheadLimits.ZeroHoldSeesTheEnd` | backend/backtest/simulation_execution_service.py:402-403 | Why the hold limit must be at least one: with zero, any two histories that share n candles, on one date at the end, and finish at different closes are decided differently at step n - 1 by some strategy |
| `SimulationLaws.ExecutionIsCausal` | backend/backtest/simulation_execution_service.py:103-153 | Two futures that agree on m candles give the same result and use the same draws, or both positions are still open after those candles |
| `SimulationLaws.ZeroHoldReadsTheLastCandle` | backend/backtest/simulation_execution_service.py:402-403 | With a hold limit of zero the exit price is the close of the very last candle, so causality needs a hold limit of at least one |
| `SimulationLaws.ExitsAtFirstTouch` | backend/backtest/simulation_execution_service.py:298-331 | The exit is at the first of the held candles touching stop or target, the stop wins ties, and a time-out happens exactly when none touches |
| `SimulationLaws.SlippageExplainsTheGap` | backend/backtest/simulation_execution_service.py:165-205 | Profit plus slippage times size is the frictionless profit at the raw prices if and only if no fill is better than its raw price |
| `SimulationLaws.ExecutedFillsAreNoBetter` | backend/backtest/simulation_execution_service.py:490-521 | With non-negative prices, spread and slippage no fill is better, so the identity holds for every executed signal, long or short |
| `SimulationLaws.StopLosesTheRiskedAmount` | backend/backtest/simulation_execution_service.py:333-362 | A stop without a gap on the losing side of the entry loses exactly the risked amount plus the stop's slippage |
| `SimulationLaws.ClosesWithinTheData` | backend/backtest/simulation_execution_service.py:118-153 | An execution closes between its own step and the last candle, a skipped one at its own step |
| `SimulationLaws.DrawsAreIrrelevant` | backend/backtest/simulation_execution_service.py:523-528 | With a fixed maker-fill choice the generator's position never changes a result |
| `Simulation.SimulationExecutionService.ExecuteReplaySignal` | backend/backtest/simulation_execution_service.py:103-153 | The candle scan returns the specified execution (whose arithmetic ExecutionIsPlain spells out) and leaves the generator where the specification says |
| `Simulation.SimulationExecutionService.PrepareExecution` | backend/backtest/simulation_execution_service.py:223-296 | Entry price, size and the spot constraints, with the one draw it makes |
| `Simulation.SimulationExecutionService.MakerFill` | backend/backtest/simulation_execution_service.py:523-528 | One draw, taken only when the fill is neither certain nor impossible |
| `ExecutionArithmetic.ExecutionIsPlain` | backend/backtest/simulation_execution_service.py:103-205 | Every execution in plain arithmetic of configuration, signal and candles: refusals; entry at the signal's price or the next open, half the spread against the trader unless a maker; size as risk over distance to the stop; spot skips; a stop at the worse of its level and the candle's open, a target at its level, a time-out at the close of the last held candle; profit by direction, both fees, slippage, close step and draws |
| `ReplayRecords.RecordsAreTheLoop` | backend/backtest/replay_runner.py:165-224 | In every run the record of step t shows the strategy exactly the required number of candles ending with candle t, holds its signal, and what the service returned for that signal and the candles after t; draws are threaded from zero |
| `ReplayRecords.EntriesAreTheExecutions` | backend/backtest/replay_runner.py:415-452 | Each step adds to the history nothing or one entry with the signal's symbol, the reported close (or step plus hold, or the step itself), the candle's own date and profit less fees |
| `ReplayRecords.OpenPositionsAreTheirRecords` | backend/backtest/replay_runner.py:426-436 | Every open position has the symbol, direction, stop, target and fill (or entry, when the fill is absent or zero) of the record that opened it |
| `SimulatedRecords.RecordsAreExecutions` | backend/backtest/replay_runner.py:189-197 | In a simulated replay each executed record is the plain execution of its own signal on its own future |
| `SimulatedRecords.PositionsAreExecutions` | backend/backtest/replay_runner.py:426-436 | In a simulated replay each open position is that of an executed, unskipped result and closes at that result's step |
| `Replay.StepRangeIsValid` | backend/backtest/replay_runner.py:283-300 | A step range is accepted if and only if it lies inside the data and its first window is full; it is then the requested range with the defaults filled in; otherwise the error is the first that applies of negative bounds, too few candles, start too early, end before start, end beyond the data |
| `Replay.ReplayPortfolioState.ResetDailyCircuitBreaker` | backend/backtest/replay_runner.py:494-503 | A new date clears streak and halt, the same date changes nothing |
| `Replay.ReplayPortfolioState.RecordClosedTrade` | backend/backtest/replay_runner.py:472-491 | A closure frees the symbol, sets its cooldown, counts on the entry date and moves the streak by the sign of its result |
| `Replay.ReplayPortfolioState.ApplyScheduledClosures` | backend/backtest/replay_runner.py:455-469 | Exactly the closures due at this step are popped and recorded, in order |
| `Replay.ReplayPortfolioState.TrackExecution` | backend/backtest/replay_runner.py:415-452 | An executed signal is open with one pending closure, or closed at once when it closes no later than its step |
| `Replay.HistoricalReplayRunner.ReplayStep` | backend/backtest/replay_runner.py:165-224 | One pass of the loop: reset, closures, signal on the window of candles that ends here, decision, tracking, in that order |
| `Replay.HistoricalReplayRunner.Replay` | backend/backtest/replay_runner.py:165-230 | The loop returns exactly the records of the run it specifies, consecutive steps each with its own window of candles, or the error of an invalid range |
| `ReplayHistory.RunAgreesWithItsRecords` | backend/backtest/replay_runner.py:165-224 | After any run the whole portfolio (open positions, pending closures, cooldowns, counters, streak, halt) is a function of the entries in the records alone |
| `ReplayHistory.HistoryDecides` | backend/backtest/replay_runner.py:506-523 | The admission test on the portfolio holds exactly when the list of past entries leaves room |
| `ReplayLaws.AdmissionIsDecidedByTheRecords` | backend/backtest/replay_runner.py:178-187 | A step executes if and only if there is a signal and the earlier entries, read declaratively, admit it |
| `ReplayLaws.RunPrefix` | backend/backtest/replay_runner.py:165-224 | A run stopped early yields exactly the first records of the longer run |
| `ReplayLaws.IndexesAgree` | backend/backtest/replay_runner.py:428-469 | A symbol is open if and only if exactly one closure is pending for it; its key is the planned close step, strictly in the future |
| `ReplayLaws.OpenPositionsAreBounded` | backend/backtest/replay_runner.py:517-520 | Open positions never exceed the limit |
| `ReplayLaws.DailyEntriesAreBounded` | backend/backtest/replay_runner.py:438-452 | Entries dated d are the day's counter plus the closures of that date pending in the calendar, hence at most the daily cap plus the position limit less one (the cap itself for one position) |
| `ReplayLaws.PositionsAreSpaced` | backend/backtest/replay_runner.py:472-523 | Positions in one symbol are disjoint in time and the next entry is strictly later than the close plus the cooldown |
| `ReplayLaws.HaltLastsUntilTheDateChanges` | backend/backtest/replay_runner.py:483-491 | Once a day's booked results contain a full losing run, nothing is entered before the date changes, even after a later win; zero and unknown results do not break the run |
| `ReplayLaws.BookedLogIsFinal` | backend/backtest/replay_runner.py:472-491 | Later steps never rewrite what earlier steps booked |
| `ReplayLaws.ExecutionsAreConserved` | backend/backtest/replay_runner.py:438-481 | The daily counters plus the open positions add up to the executed entries |
| `SimulatedReplay.HistoryIsTheExecutions` | backend/backtest/replay_runner.py:526-544 | With the simulator the entries are its executed results one by one, and each settles inside the data |
| `SimulatedReplay.ReplayDrains` | backend/backtest/replay_runner.py:415-491 | A replay to the end of the data ends with nothing open and nothing pending, and the daily counters add up to the executed trades |
| `Drawdown.CalculateMaxDrawdown` | backend/backtest/metrics.py:7-15 | The one-pass result is the maximum of earlier equity less later equity over all pairs, with zero before the first trade |
| `Drawdown.WorstDeclineIsUnique` | backend/backtest/metrics.py:7-15 | That description determines the number |
| `Drawdown.StretchFallsNoFurther` | backend/backtest/metrics.py:7-15 | No contiguous part of the trades falls further than the whole |
| `Gate.CalculateMetrics` | backend/backtest/gate.py:255-331 | Counts, gross profit and loss, rates, factor, drawdown, totals, fees and slippage of the executed results; gross profit less gross loss is net, which is total less fees; the factor times gross loss is gross profit, infinite without losses and undefined without either |
| `Gate.MetricsBalance` | backend/backtest/gate.py:271-274 | Gross profit less gross loss is the net result, and so is total result less fees |
| `Gate.FiguresAreSums` | backend/backtest/gate.py:265-278 | Gross profit sums what trades made beyond their fees, gross loss what they fell short of them, wins are the trades above their fees, slippage is weighted by size |
| `Gate.MonthIsByCalendar` | backend/backtest/gate.py:343-349 | A trade belongs to the calendar year and month of the candle it closed on, in order, and to none when that candle does not exist |
| `ReplayCosts.SlippageExplainsTheTotal` | backend/backtest/gate.py:273-278 | For every simulated replay with non-negative costs and prices, total result plus slippage paid is the sum of what the executed signals would have made at the raw entry and exit prices of their own records |
| `ReplayCosts.SlippageBoundsTheTotal` | backend/backtest/gate.py:318-321 | Without any sign condition the two totals are never less than the frictionless total, and equal it if and only if no fill of any record is better than its raw price |
| `Gate.GroupByMonth` | backend/backtest/gate.py:340-349 | Each month keeps its trades in order; the unresolved count is exactly the trades whose close step is outside the data |
| `Gate.BuildMonthlyPoint` | backend/backtest/gate.py:364-397 | The month's figures are those of its own trades, rates, factor and drawdown percentage included |
| `Gate.BuildMonthlyPnl` | backend/backtest/gate.py:334-361 | One point per month with a trade, in calendar order, by year and then month, and the earliest of the points with the most and the least profit |
| `Gate.ExtremeMonth` | backend/backtest/gate.py:359-360 | The first of the points that no other is ahead of |
| `GateLaws.MonthsPartitionTheTrades` | backend/backtest/gate.py:343-358 | The points account for every resolved trade exactly once, by number and by result |
| `GateLaws.NoTradeIsDropped` | backend/backtest/gate.py:343-347 | After a simulated replay no trade is unresolved: month counts, closed trades and the runner's daily counters all agree |
| `GateLaws.MonthFallsNoFurther` | backend/backtest/gate.py:384-384 | When trades come in month order no month's drawdown exceeds the overall one |
| `GateLaws.GateMonthsFallNoFurther` | backend/backtest/gate.py:292-301 | With one position at a time, as the gate replays, the trades do come in month order |
| `GateLaws.SinglePositionIsSequential` | backend/backtest/replay_runner.py:517-520 | With one position at a time every entry is at or after the previous close |
| `Grid.RunGridBacktest` | backend/grid_engine/grid_backtester.py:27-38 | The slot loops over all candles compute the specified run |
| `Grid.GridState.AddSlots` | backend/grid_engine/grid_backtester.py:41-57 | Slots at or above the starting price begin bought, their fee paid |
| `Grid.GridState.ProcessBuyFills` | backend/grid_engine/grid_backtester.py:67-75 | Exactly the waiting slots at or above the low are bought, one fee each |
| `Grid.GridState.ProcessSellFills` | backend/grid_engine/grid_backtester.py:78-91 | Exactly the bought slots whose sell price the high reaches are sold, with the cycle, profit and fee that LedgerIsClosed totals |
| `Grid.GridState.RecordSnapshot` | backend/grid_engine/grid_backtester.py:94-115 | Cost, loss and number of waiting slots at the close |
| `GridThreshold.GridIsAThreshold` | backend/grid_engine/grid_backtester.py:41-91 | For any candles the slots waiting to buy are the first k levels and k follows max(min(k, levels below the low), levels sold by the high): the slot loops refine one integer |
| `GridThreshold.CyclesAreCrossings` | backend/grid_engine/grid_backtester.py:78-91 | The completed cycles are the upward moves of that integer, and the waiting buys are the integer itself |
| `GridThreshold.BuysBelowIsAPrefix` | backend/grid_engine/grid_config.py:30-31 | A level's buy price is below a price exactly when its index is below the number of such levels |
| `GridThreshold.SellsUpToIsAPrefix` | backend/grid_engine/grid_config.py:33-34 | The same for sell prices up to a price |
| `GridThreshold.PricesRise` | backend/grid_engine/grid_config.py:19-34 | Buy and sell prices rise strictly with the level |
| `GridLedger.LedgerIsClosed` | backend/grid_engine/grid_backtester.py:67-91 | After any candles gross profit is the sum over slots of cycles times units times (sell price less buy price), fees are the fee rate on every buy and every sale, and a slot has realized cycles times units times (sell price less buy price less the sale's fee) |
| `GridLedger.NetPnlIsRealizedLessBuyFees` | backend/grid_engine/grid_state.py:39-45 | Net profit is the slots' realized results less the fees of every buy, held ones included |
| `GridLedger.SlotsRunAlone` | backend/grid_engine/grid_backtester.py:67-91 | Each slot's status, cycles and buys are those of its level run alone |
| `GridFigures.BacktestIsItsLevels` | backend/grid_engine/grid_backtester.py:41-91 | Each slot of a back-test has evenly spaced prices, its equal share of capital rounded down to whole lots, and the status, cycles and last fills of its level run alone from the first open |
| `GridFigures.SnapshotsAreOfTheirCandles` | backend/grid_engine/grid_backtester.py:94-115 | Snapshot t shows the slots as candle t left them: cost of what is held, its fall below cost at the close if any, and the number waiting to buy |
| `GridFigures.ReportFigures` | backend/grid_engine/grid_metrics.py:51-55 | The reported loss is the largest of the snapshots, zero without any, and the active candles those with a level waiting to buy |
| `GridFigures.PercentageOf` | backend/grid_engine/grid_metrics.py:131-134 | A percentage times its base is a hundred times the amount, and zero on a zero base |
| `GridLedger.BuysFollowSells` | backend/grid_engine/grid_backtester.py:67-91 | A level run alone buys once more than it sells exactly while it holds |
| `GridLedger.UnitsFit` | backend/grid_engine/grid_backtester.py:60-64 | Flooring to whole lots never spends more than the level's share |
| `GridLedger.CapitalIsNeverExceeded` | backend/grid_engine/grid_backtester.py:94-115 | At every candle the cost of unsold slots lies between zero and the capital |
| `GridLedger.ReportIsInRange` | backend/grid_engine/grid_metrics.py:46-65 | For non-negative closes the reported drawdown and utilization are between 0 and 100 |
| `GridAdvisor.SuggestGrid` | backend/grid_engine/grid_advisor.py:22-61 | Each error has its exact condition; a returned range has a positive lower bound and meets the step, its level count is the largest that meets the step on the ATR range when any does, and it widens only when none does, an inverted range included, symmetrically about the price and to exactly the nudged step of four levels |
| `GridAdvisor.CalculateAtr` | backend/grid_engine/grid_advisor.py:64-77 | The loop computes the average true range of the last candles |
| `GridAdvisor.TrueRange` | backend/grid_engine/grid_advisor.py:70-76 | The largest of span and distances to the previous close: it bounds all three and is one of them |
| `GridAdvisor.AtrIsTheMean` | backend/grid_engine/grid_advisor.py:64-77 | The range times the period is the sum of the true ranges of the last candles, each against the close before it |
| `GridAdvisor.PlainStep` | backend/grid_engine/grid_advisor.py:44-46 | A relative step reaches a bound if and only if the width reaches bound times levels times lower price |
| `GridAdvisor.WideningMeetsTheStep` | backend/grid_engine/grid_advisor.py:80-82 | When even the smallest grid is too tight, the computed half range is strictly wider, keeps the lower bound positive and meets the step |
| `GridLive.LiveGrid.StartSession` | backend/grid_engine/grid_runner.py:62-85 | Sizes, statuses and buy orders of a start; a failed one leaves the rows as they were but the orders already accepted on the exchange, and an active session is left alone |
| `GridLive.LiveGrid.StopSession` | backend/grid_engine/grid_runner.py:87-92 | Only the session status changes; slots keep their ids |
| `GridLive.LiveGrid.PauseSession` | backend/grid_engine/grid_runner.py:94-98 | Only the session status changes |
| `GridLive.LiveGrid.HandleOrderFill` | backend/grid_engine/grid_ws_handler.py:30-55 | A fill moves the slot carrying the id to the other side with a fresh order, or changes nothing when there is none or the order fails |
| `GridLiveLaws.FillsAreHandledExactlyOnce` | backend/grid_engine/grid_ws_handler.py:30-71 | Over starts, pauses, stops and repeated fills: no slot holds two orders, a slot waiting to buy holds no sell order, live ids are distinct, each cycle is one filled sell order, profit is cycles times the spread |
| `GridLiveOrders.OrdersAndProfitsArePriced` | backend/grid_engine/grid_ws_handler.py:36-54 | From a new session over every legal run: each order of a row buys at its buy price or sells at its sell price for the level's share over the buy price, the row's live orders are such orders, and its profit is cycles times the price gap times that size |
| `GridLiveOrders.StartIsPointwise` | backend/grid_engine/grid_runner.py:62-85 | A start sizes every row, marks those at or above the price, arms exactly the waiting ones below it without an order, and places one order each; a failed one restores rows and status and keeps the orders already accepted |
| `GridLiveOrders.FillTurnsTheRow` | backend/grid_engine/grid_ws_handler.py:36-54 | An accepted fill moves the row that carries the id to the other side with a fresh order at the other price, and a sale counts one cycle and its gain; a refused replacement changes nothing |
| `GridLiveOrders.UnknownFillIsIgnored` | backend/grid_engine/grid_ws_handler.py:32-34 | A fill whose id no row carries changes nothing |
| `GridLiveOrders.ControlsMoveTheStatus` | backend/grid_engine/grid_runner.py:87-146 | Stop, pause and break-out move the session status alone, a break-out only when there are rows and all wait to buy |
| `GridLiveLaws.DuplicateFillIsIgnored` | backend/grid_engine/grid_ws_handler.py:32-34 | Once a fill has been handled, delivering it again changes nothing, after any further starts, stops, pauses and fills |
| `GridLiveLaws.LookupIsUnambiguous` | backend/grid_engine/grid_ws_handler.py:60-71 | An order id is carried by at most one slot |
| `GridLiveLaws.UnarmedSlotNeverTrades` | backend/grid_engine/grid_runner.py:74-76 | A slot marked as waiting to sell without a sell order never trades again, whatever follows |
| `GridLiveLaws.FirstStartLeavesHighSlotsUnarmed` | backend/grid_engine/grid_runner.py:74-76 | A first start leaves a slot in that state if and only if it goes through and the slot is at or above the price |
| `Services.TradeJournalStore.TransitionTradeStatus` | backend/trade_journal/store.py:177-196 | A change of status writes the row and one event, the same status writes nothing |
| `Services.TradeJournalStore.ApplyTradeOutcomeAnalytics` | backend/trade_journal/store.py:198-230 | One result goes into the row of its closing day and nowhere else |
| `Services.TradeJournalStore.BookResult` | backend/trade_journal/store.py:207-227 | Counts, sums, streak, loss percentage and symbol figures of a day after one result |
| `Services.TradeJournalStore.UpdateSymbolStats` | backend/trade_journal/store.py:470-489 | Wins, losses and streak of the symbol move by the result, other symbols stay |
| `Services.TradeJournalStore.RecordResult` | backend/exchange_sync/engine.py:419-428 | Result, status and statistics of a closing, in that order |
| `Services.TradeJournalStore.ActivateKillSwitch` | backend/trade_journal/store.py:300-304 | The persisted switch is on and time-stamped |
| `Services.TradeJournalStore.PauseTrading` | backend/trade_journal/store.py:306-318 | Reason, reset flag, end and time of a pause |
| `Services.TradeJournalStore.ClearPauseWhenExpired` | backend/trade_journal/store.py:320-336 | Only an expired cooldown is lifted, with the streak of the day it began |
| `Services.TradeJournalStore.ResetSafetyState` | backend/trade_journal/store.py:338-348 | Switch and pause are cleared; losses and counts are not |
| `Services.TradeJournalStore.ResetConsecutiveLosses` | backend/trade_journal/store.py:350-354 | Only that day's streak is cleared |
| `Services.TradeJournalStore.IncrementDailyTradeCount` | backend/trade_journal/store.py:399-407 | Only today's count moves |
| `Services.TradeJournalStore.AddExecutionFee` | backend/trade_journal/store.py:371-397 | The fee is added to the trade carrying the id, if any |
| `Services.CircuitBreaker.CheckLimits` | backend/safety_guard/circuit_breaker.py:36-142 | Which limit stops an order, in the source's order, and the pause it sets |
| `Services.KillSwitch.IsActive` | backend/safety_guard/kill_switch.py:44-53 | An expired cooldown is lifted before the switch is read |
| `Services.KillSwitch.ActivateSwitch` | backend/safety_guard/kill_switch.py:60-89 | A second activation changes nothing |
| `Services.KillSwitch.ResetSwitch` | backend/safety_guard/kill_switch.py:91-109 | The streak is cleared only after a cooldown or a hard loss streak |
| `Services.ExchangeSyncEngine.ApplyUpdate` | backend/exchange_sync/engine.py:325-458 | An order update by the branch its order, status and row select |
| `Services.ExchangeSyncEngine.ConfirmEntry` | backend/exchange_sync/engine.py:365-389 | A filled entry: prices, confirmation, protection, and only then an open position |
| `Services.ExchangeSyncEngine.ConfirmExit` | backend/exchange_sync/engine.py:390-428 | A filled exit: close, reason, result, statistics |
| `Services.ExchangeSyncEngine.EnsureSpotMarketProtection` | backend/exchange_sync/engine.py:460-535 | Which protective orders are placed and when the position counts as protected |
| `Services.ExchangeSyncEngine.HandleStopLossSubmissionFailure` | backend/exchange_sync/engine.py:537-597 | Kill switch, then an emergency close that is pending or failed |
| `Services.ExchangeSyncEngine.ProcessOrder` | backend/exchange_sync/engine.py:206-232 | An event concerns the trade carrying its id, if any |
| `Services.ExchangeSyncEngine.ReconcileTrade` | backend/exchange_sync/engine.py:269-306 | A reconciliation uses the id the status tracks, if any |
| `Services.ExchangeSyncEngine.ReconcileMissingProtectionOrders` | backend/exchange_sync/engine.py:153-178 | The sweep over all rows is the run of its single steps, each touching only a filled market position missing a protective order |
| `Services.ExchangeSyncEngine.ProtectTrade` | backend/exchange_sync/engine.py:162-174 | One row of the sweep |
| `Services.PositionManagerService.PrepareClose` | backend/position_manager/service.py:226-241 | A fresh close id and the reason, with the row pending |
| `Services.PositionManagerService.CloseTrade` | backend/position_manager/service.py:87-157 | A close leaves the row pending, settles it in shadow mode, or leaves nothing behind when refused |
| `Services.OrderExecutor.Execute` | backend/order_executor/executor.py:46-230 | Guards in order, one new row, its submission, and roll-back to the guards' own writes when the submission breaks |
| `Services.OrderExecutor.SubmitEntry` | backend/order_executor/executor.py:232-312 | Which order type is sent, and the new id of the second attempt after a post-only refusal |
| `Services.OrderExecutor.PlaceOrder` | backend/order_executor/executor.py:193-227 | What an acknowledgement, a refusal and a lost answer leave on the row |
| `Services.OrderExecutor.ReconcilePendingUnknown` | backend/order_executor/executor.py:333-371 | The status an answered lookup leaves; an unanswered one leaves the row |
| `Services.OrderExecutor.RecordTradeCreated` | backend/order_executor/executor.py:143-167 | The row, its creation event and the day's count |
| `Services.ExecutionService.ExecuteSignal` | backend/signal_execution/service.py:39-89 | Replay or create, and which of signal and trade the submission ends up naming |
| `OutcomeLaws.ResultsAreBookedExactlyOnce` | backend/exchange_sync/engine.py:390-428 | After any sequence of events, reconciliations, closes, fees, resets and submissions, each daily row's wins, losses and gross result are exactly those of the trades recorded that day, per symbol as well, the day's loss percentage is the sum of their losing fractions of equity, net is gross less fees, and wins plus losses never exceed the day's count |
| `OutcomeLaws.DaysSumToTheRecordedTrades` | backend/trade_journal/store.py:198-230 | Wins and losses summed over all days are exactly the recorded trades |
| `OutcomeLaws.ResultsFollowFromTheRows` | backend/trade_journal/store.py:436-458 | A trade has a result if and only if it is recorded: exit less entry times size for a long, entry less exit times size for a short, on average fill or ordered price and filled or ordered quantity; each ratio times its base is the result and is absent exactly when the base is absent or zero |
| `DayLaws.RowsComeFromSubmissions` | backend/order_executor/executor.py:143-167 | Over every run row i was created by one submission: its terms are that request's symbol, direction, prices and that plan's equity, risk and size, its signal is the submission's own and its time the submission's |
| `DayLaws.StreaksAreTrailingLosses` | backend/trade_journal/store.py:207-227 | Over every run a day's streak is the run of losses that its results end with, cut by wins and by the pauses lifted or reset; a symbol's streak is cut by its wins alone; the day's fees are those known when its trades were recorded |
| `Transactions.OrderEventIsPlain` | backend/exchange_sync/engine.py:206-232 | An order event rewrites the first row that names its id, as an exit when it is its close order, stop or take-profit and as an entry otherwise; an unknown id changes nothing |
| `Transactions.EntryUpdateIsPlain` | backend/exchange_sync/engine.py:325-389 | What an entry report writes: nothing on a row past entry, the reported status and its event, or fill price, quantity, opening time, confirmation and, when complete and protected, an open position |
| `Transactions.ExitUpdateIsPlain` | backend/exchange_sync/engine.py:390-458 | What an exit report writes: a fill records exit price, time held, the reason its order stands for, result and day row with the events on the way; a refusal fails the close |
| `Transactions.ProtectionIsPlain` | backend/exchange_sync/engine.py:460-597 | Which links, placements and safety columns protection writes, and when it lets the position open |
| `Transactions.SweepIsPlain` | backend/exchange_sync/engine.py:153-174 | The sweep protects exactly the filled spot market rows, confirmed or open, that lack a stop or a wanted take-profit |
| `Transactions.ReconcileIsPlain` | backend/exchange_sync/engine.py:626-632 | A closing row is reconciled by its close order, a submitted or unknown one by its entry order, others not at all |
| `Transactions.CloseIsPlain` | backend/position_manager/service.py:87-157 | A close is pending under a fresh id, settled in shadow mode at the level its reason names (or target, entry, stop), or leaves nothing |
| `Transactions.FeeIsPlain` | backend/trade_journal/store.py:371-397 | A fee is added to what the first row naming the id has paid |
| `OutcomeLaws.RecordedTradesAreFinal` | backend/exchange_sync/engine.py:599-620 | Once recorded, a row changes in nothing but its fees, whatever commands follow |
| `OutcomeLaws.LogRebuildsTheRows` | backend/trade_journal/store.py:143-196 | The event log replays to the status of every row and holds exactly one recording per recorded trade, none for others |
| `StopLaws.StopsGuardOpenPositions` | backend/exchange_sync/engine.py:460-535 | At most one stop and one take-profit are ever acknowledged per trade, namely those the row names; every spot market position that is open has a stop; an open position has one if and only if its market entry was acknowledged |
| `StopLaws.FailedStopHaltsTrading` | backend/exchange_sync/engine.py:494-501 | A stop refused while handling a fill, a reconciliation or the sweep leaves the trade closing or failed to close with the kill switch on, and no trade is created until a reset |
| `StopLaws.RefusedStopCloses` | backend/exchange_sync/engine.py:537-597 | The emergency close after a refused stop |
| `StopLaws.LostAnswerOpensUnprotected` | backend/order_executor/executor.py:192-227 | A market entry whose answer is lost stays marked as a limit order, so its fill opens a position without a stop |
| `StopLaws.UnmarkedFillPlacesNothing` | backend/exchange_sync/engine.py:469-470 | A full fill of an entry not marked as a market order opens the position and places nothing |
| `StopLaws.LookupConfirmedTradesWait` | backend/order_executor/executor.py:362-371 | A confirmed trade without a filled quantity is moved by nothing but a further order event: no reconciliation, sweep, close request or resubmission opens, protects or closes it |
| `StopLaws.LookupConfirmationsStrand` | backend/order_executor/executor.py:333-371 | After any run, every trade that a submission finds confirmed by a lookup is confirmed without a filled quantity |
| `StopLaws.UnknownTradesAreUnfilled` | backend/order_executor/executor.py:314-331 | Over every run a trade whose fate is unknown has no filled quantity |
| `StopLaws.LostAnswerFoundFilledIsStranded` | backend/order_executor/executor.py:220-230 | The run that gets there: the first submission's answer is lost and the lookup says filled |
| `AdmissionLaws.GuardsPassExactlyWhenClear` | backend/order_executor/executor.py:57-133 | The guards let a trade through if and only if switch, pauses, daily cap, daily and weekly loss, streak, open signal, plan and open positions all allow it |
| `Guards.CheckIsPlain` | backend/safety_guard/circuit_breaker.py:36-142 | Which limit sets which pause: the day's loss, the week's loss and the hard streak one that a reset must lift, the soft streak a cooldown of the configured length; a standing pause and a full day set none |
| `Guards.SafetyCommandsArePlain` | backend/safety_guard/kill_switch.py:44-109 | What polling, activation and reset write: switch, pause, trigger time, and the streak of the day the pause was set |
| `Guards.AdmissionIsPlain` | backend/order_executor/executor.py:57-133 | The guards in the source's order on the state an expired cooldown leaves, with the open positions and the signal's other rows counted |
| `Guards.ReplayIsPlain` | backend/signal_execution/service.py:43-62 | A repeated request is answered by the row its submission names or its signal's latest one while that is not over, after one lookup when its fate is unknown |
| `Guards.SendingIsPlain` | backend/order_executor/executor.py:143-312 | The row a request creates, the order type and id it is sent with by mode and refusal, and what each reply leaves |
| `Guards.SubmissionIsPlain` | backend/signal_execution/service.py:39-89 | A submission is a replay, or a new signal, the guards and a sending, in that order; it learns its row only when the executor returns and the process survives |
| `AdmissionLaws.DailyCreationsAreBounded` | backend/safety_guard/circuit_breaker.py:58-61 | Over any run the trades created on a day never exceed the daily cap nor the day's count |
| `AdmissionLaws.LossLimitEndsTheDay` | backend/safety_guard/circuit_breaker.py:63-81 | Once a day's loss has reached the limit no trade is created that day, whatever resets happen |
| `AdmissionLaws.HaltsLastUntilReset` | backend/safety_guard/circuit_breaker.py:46-56 | The kill switch, loss pauses and unexpired cooldowns stay in force until a reset, and while they do no trade is created |
| `AdmissionLaws.WeeklySumIsSevenDays` | backend/safety_guard/circuit_breaker.py:169-177 | Over every run the sum of all daily rows from six days back on, with no upper date, is the sum of the last seven days |
| `AdmissionLaws.NoLossInTheFuture` | backend/safety_guard/circuit_breaker.py:169-173 | No loss is booked on a day to come |
| `AdmissionLaws.StepGrows` | backend/trade_journal/store.py:399-407 | Over every step counts and losses only grow, today's loss alone moves, and only a submission past the guards creates a trade |
| `SubmissionLaws.OneLiveTradePerFingerprint` | backend/signal_execution/service.py:43-89 | In every run without a reviving command, crashes after the executor's commit included, a fingerprint has at most one live trade |
| `SubmissionLaws.RevivalIsByCommand` | backend/order_executor/idempotency.py:8-26 | Superseded trades stay over in a step if and only if its command is none of the reviving ones: a fill of a cancelled or rejected entry, a partial fill of any order, an accepted retry of a failed close |
| `SubmissionLaws.RevivalLetsASecondIn` | backend/trade_journal/store.py:77-91 | The other half: after a reviving command the lookup of its fingerprint misses a live trade, and the next request that creates a row creates it beside that one |
| `SubmissionLaws.LookupFindsExactlyTheCurrentTrade` | backend/trade_journal/store.py:77-91 | The lookup by trade id or signal id finds a trade if and only if it belongs to the fingerprint's latest signal |
| `SubmissionLaws.RepeatIsAnswered` | backend/signal_execution/service.py:45-62 | While the current trade is live with a known fate a repeated request changes nothing |
| `SubmissionLaws.LateFillDoublesUp` | backend/order_executor/idempotency.py:8-26 | A run that gets there: cancelled, resubmitted, then a late partial fill leaves two live trades for one fingerprint |
| `SubmissionLaws.RunsStayIndexed` | backend/signal_execution/service.py:68-88 | Every signal has at most one trade and every submission points at a signal of its own fingerprint and that signal's trade |
| `LinkLaws.EventsFindOneOrder` | backend/trade_journal/store.py:93-110 | Client order ids are never shared: an event finds at most one row and plays at most one part in it |
| `Paging.FetchCandles` | backend/backtest/datasets.py:97-133 | Against a server with a strictly increasing history the cursor loop ends and returns exactly the last min(total, available) candles in order |
| `Paging.GetSnapshot` | backend/market_data/bybit_spot.py:33-66 | The same walk returns exactly the last limit candles, and fails if and only if the limit is not positive or history is shorter |
| `Paging.ReadPage` | backend/market_data/bybit_spot.py:40-53 | A round extends the collected stretch to just before the new cursor, whatever order the page came in |
| `Paging.NextPage` | backend/backtest/datasets.py:107-113 | A page is the stretch of history just before the cursor, short only at the start of history |
| `Paging.ShortPageEndsHistory` | backend/backtest/datasets.py:130-131 | The early stop, which compares with what is missing after the page was added, never stops on a full page |
| `Paging.Deduplicate` | backend/backtest/datasets.py:132-132 | One candle per opening time |
| `Paging.SortedValues` | backend/backtest/datasets.py:133-133 | The distinct candles in increasing order |
| `Paging.SortedIsUnique` | backend/backtest/datasets.py:116-133 | Sorting determines the order: two sorted arrangements of the same candles are equal |

## Left out

- Binary floating point, Decimal precision and rounding in Numeric columns: all amounts are reals.
- Replay over ready-made snapshots, request normalisation of symbol and interval, and the report counters: easy members.
- Strategies that ask for an empty window, negative hold limits, and the error for an unsupported trade direction.
- The seeded generator: draws come from an arbitrary function of their number.
- NoLookAhead.DecisionsDoNotSeeTheFuture: asks for a hold limit of at least one, both histories longer than the shared part (or equal), and one place when maker fills are random; `LookAheadLimits` shows for each that it cannot be dropped. The signal's symbol is not restricted.
- SimulationLaws.SlippageExplainsTheGap: stated for a positive size, the only case the simulator prepares.
- Gate.CalculateMetrics: the counters of rejected and skipped signals and the profile evaluation are not modelled, being copies and comparisons of modelled figures.
- Grid.RunGridBacktest: candle parsing is not modelled, and level prices are required not to be zero, on which the source divides.
- GridFigures.BacktestIsItsLevels: the bound on whole lots is stated for a positive lot size; for a negative one only that the units are whole lots.
- GridLedger.ReportIsInRange: asks for a positive lower bound and a non-negative capital and lot size; annualised yield, fee coverage and break-even days are not modelled.
- GridAdvisor.SuggestGrid: asks for a period of at least one, and for a positive step when the multiplier is negative; otherwise the source may divide by zero.
- GridLiveLaws.FillsAreHandledExactlyOnce: one session; order ids are fresh and a fill reports the side its order was placed with. Price and quantity formatting, the cancel calls of a stop, risk evaluation and reports are not modelled.
- Services.ExchangeSyncEngine.ApplyUpdate: exchange order ids and the audit table of system events are not modelled; nor is the slippage column of trades.
- Services.TradeJournalStore.UpdateSymbolStats: the source trims and upper-cases the symbol; symbols arrive that way, because requests are normalised before they are submitted.
- Services.OrderExecutor.Execute: sizing, reward ratio, balances, exchange constraints and total exposure are one decision that refuses a request or sizes it.
- Services.OrderExecutor.SubmitEntry: the stop and target prices that travel with a limit order on the exchange itself are not modelled; spot market orders carry none.
- StopLaws.UnmarkedFillPlacesNothing: says that the engine places no order; a limit entry may still carry its stop on the exchange.
- `record_daily_loss` and `record_daily_win`, separate writers that no modelled path calls.
- Services.KillSwitch.ActivateSwitch: the cancel calls to the exchange, whose effects arrive as order events, and the in-memory flag, which is never read.
- StopLaws.StopsGuardOpenPositions: counts placements the exchange acknowledged; a stop accepted by the exchange whose answer is lost counts as refused, as the source treats it. Orders sent in a transaction that is then rolled back leave no row and are not counted.
- SubmissionLaws.OneLiveTradePerFingerprint: not unconditional; `SubmissionLaws.RevivalIsByCommand` names the commands that break it and `SubmissionLaws.RevivalLetsASecondIn` what they lead to.
- OutcomeLaws.ResultsAreBookedExactlyOnce: a day's fees are those known when each result was booked; fees that arrive later reach the trade row only, as in the source.
- AdmissionLaws.DailyCreationsAreBounded: settings are fixed over a run.
- Concurrent transactions and row locks, and midnight falling inside one command.
- Paging.FetchCandles: the server's history does not change between pages; malformed candles and transport errors are not modelled.
- Retry wrappers, the WebSocket listener, HTTP routes, SQL dialects, dataset files, strategies, administration and frontend.
