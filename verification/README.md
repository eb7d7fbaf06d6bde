# Verified model of the risk and order-lifecycle machinery

A Dafny model of an automated execution engine for MetaTrader 5, from the moment a signal arrives to
the moment its trade is closed, with proofs of what the engine relies on to stay within its risk limits
and to lose no order. Brokers, clocks, quotes and thread schedules are arbitrary inputs: replies are
functions of the attempt number, snapshots are arbitrary sets, and concurrent protocols are machines of
small steps that interleave freely. `dafny verify dfyconfig.toml` checks everything.

Prices, lots, money and R are `real`; times are `int` milliseconds and days are 24-hour blocks. Lot steps
and lot bounds are multiples of 0.01, so rounding lots to two decimals is the identity. Configuration
values are in the ranges that configuration loading accepts (`src/config/settings.py`).

## How the parts fit

| Files | Part of the system |
|---|---|
| `OrderProtocol`, `OrderSafety`, `Conservation`, `EngineSlots`, `PendingManager`, `PollRefinement` | executions, resting limit orders, their poller, and the position manager taking positions in and closing trades as one concurrent protocol; the poll of pending orders as an object, and that its polls are runs of the protocol |
| `StoreRefusals`, `Exposure`, `OneTradePerOrder`, `ProtocolBudget`, `OpenLimit`, `ReachableRuns` | what refused fills cost, what the cluster shows as open, how many trades a position has, the budget and the open-trade limit over that protocol, and runs that reach its weak spots |
| `ClusterTracker`, `ClusterBudget`, `MapSums` | the shared daily budget of correlated symbols |
| `Drawdown`, `TradeContribution`, `EquityThrottle` | the equity-curve throttle: fold, window, hysteresis, restart |
| `LossTracker`, `TierCap` | the daily guards, the latched equity, the balance-tiered ceiling |
| `LotSizing`, `Planner`, `OrderManager`, `RiskEngine`, `MarketRuns`, `DailyLoss`, `DailyLossRuns` | sizing, retry loops, rules, whole market-only days composed from them, and the day's loss on top of what is open |
| `CloseRules`, `PositionManager`, `Lifecycle` | judging closes, the position poll, whole lives of trades |
| `SlCascade`, `SignalQueue`, `SeenWindow` | stop cascade, signal queue, duplicate filter |
| `Basics`, `Products` | shared vocabulary and the laws of multiplication |

Imperative parts of the source are classes and loops here, each proved equal to a specification function;
the theorems are about those functions and about runs of them. What such a function decides is also stated
without it, in prices, counts, readings and broker states, so that each of its branches is pinned from outside.

## Where the code and its promises part

- `docs/risk_rules.md:100-102` promises one slot more than the losing streak. The code allows exactly
  `max(1, streak)`, and the model follows the code. With a streak of one the daily-loss rule refuses every
  trade (`RiskEngine.TradingNeedsTwoSlots`).
- The TP1 handler says the stop moves to breakeven only after a successful partial close. That is true
  exactly of configurations that never move it (`Lifecycle.BreakevenNeedsPartialIff`): after a failed
  partial close the stop still moves whenever there is room and the broker accepts
  (`Lifecycle.StopMovesWithoutPartialIff`), and the partial close is tried again exactly while a configured
  move lacks room (`Lifecycle.FailedPartialIsRetriedIff`).
- The daily-loss rule says that open positions cannot push the account past the daily limit even if they
  all hit their stops (`src/risk/rules.py:216-221`). It projects one more trade onto the day's loss and leaves
  out those already open. Loss and open risk together reach 1.95 times the budget less one trade's share
  (`DailyLoss.DayLossAndExposureAreBounded`). Days on which they do exist for every streak of two or more,
  that is for every configuration that trades at all (`DailyLossRuns.BoundIsAttained`,
  `DailyLoss.ReachExceedsTheBudgetIff`): with five shares of 1%, three stop-outs and then five open trades
  make 8% (`DailyLossRuns.LossesThenAFullBook`).
- A restart rebuilds a trade's contribution exactly under the condition of
  `TradeContribution.RowMatchesLiveIff`. Three kinds of trades miss it. The ordinary one is a TP1 taken at the
  quote of the poll that saw the level crossed: live uses the quote, the row the level, and they agree exactly
  when the two are equal (`TradeContribution.Tp1QuoteIsMisreadIff`). A TP1 whose partial close failed is
  credited live but not in the row (`TradeContribution.FailedTp1PartialIsMisreadIff`). A limit order filled
  better than its price is measured live from the fill and in the row from the plan
  (`TradeContribution.AsPlannedAgreesIff`, `TradeContribution.ImprovedFillIsMisread`).
- If the store refuses the trade of a filled limit order, its record is dropped. A tracked order is lost
  exactly then, as long as its position is open and no position poll has taken it in
  (`StoreRefusals.FillIsLostIff`). The next position poll takes it in (`StoreRefusals.PositionPollEndsTheLoss`),
  and nothing else but its close ends the loss (`StoreRefusals.LossEndsIff`). Its reservation stays pending
  whatever follows (`StoreRefusals.RefusedReservationStaysPending`); a run that gets there is
  `ReachableRuns.RefusedFillIsLost`.
- A position poll takes in any open position that has no trade in the store yet, even while an execution
  or the other poller is about to store its trade. Such a trade is not counted in the cluster: a limit
  order of the cluster seen filled by the position manager first is open in the store and absent from the
  cluster (`ReachableRuns.AdoptedFillIsNotCounted`). A market order seen before its execution stores the
  trade is two trades in the store, more than a limit of one (`ReachableRuns.AdoptedFillIsStoredTwice`). That is the only way
  in which a position gets two trades, and it never gets three (`OneTradePerOrder.SharedPositionWasTakenIn`,
  `OneTradePerOrder.AtMostTwoTradesPerPosition`).
- A trade is stored before the cluster counts it, so a close can overtake the count. The cluster's
  exposure at rest is that of the store exactly when the overtaken trades and the clustered trades taken
  in are the same (`Exposure.ExposureIsTheStoreIff`); while nothing was taken in, exactly when every close
  came after its count (`Exposure.UnadoptedExposureIsTheStoreIff`). If the position of an overtaken trade is
  really closed, the entry stays open for the rest of the day (`Exposure.OvertakenTradeStaysOpen`); if it is
  not, a poll takes the trade back in and the entry is right again (`ReachableRuns.OvertakenTradeComesBack`).
  A losing trade that is overtaken is charged twice, which exceeds every budget below 2R
  (`ReachableRuns.OvertakenLossBreaksTheBudget`).
- The day's first loss update wipes a pause set earlier that day by another guard
  (`LossTracker.FirstUpdateForgetsEarlierPause`, reached in `LossTracker.EarlyPauseIsReachable`).
- A close judged at price zero, and only such a close, is recorded at a made-up price, the target's
  (`CloseRules.PriceIsReplacedIff`). It carries the full R of the target, yet without a reason from the
  broker a buy is recorded as a stop hit and a sell as a target hit (`CloseRules.ZeroPriceBecomesTheTarget`).
- A trade missing from one stale snapshot is closed at once, unless it is a stub
  (`Lifecycle.ClosedByTheFirstMissUnlessStub`).
- A signal given up because of a stop keeps its symbol reserved (`SignalQueue.DroppedSignalBlocksItsSymbol`,
  reached in `SignalQueue.DropIsReachable`).
- The emergency close after a slipped fill asks for the planned lot size. That is the size the broker
  filled exactly when the order was filled whole and no margin rejection had halved it
  (`OrderManager.EmergencyCloseFitsFillIff`); otherwise it asks for more (`OrderManager.HalvedFillIsOverClosed`). A close that fails is
  only logged.

## Model

| member | source | states |
|---|---|---|
| OrderSafety.NoFillIsLost | src/positions/pending_manager.py:166-239 | in every interleaving of broker, executions, poll steps and store refusals, every ticket ever tracked still has its record, or got a trade, or is over at the broker, or had its trade refused by the store |
| StoreRefusals.FillIsLostIff | src/positions/pending_manager.py:203-239 | in every run a tracked order is lost exactly when the store refused its trade, its position is still open, and no stored trade belongs to it |
| StoreRefusals.PositionPollEndsTheLoss | src/positions/manager.py:238-267 | a position poll that follows takes the lost order's position into the store |
| StoreRefusals.LossEndsIff | src/positions/manager.py:255-267 | a step ends a loss exactly when the position closes or a position poll takes it in |
| StoreRefusals.RefusedReservationStaysPending | src/positions/pending_manager.py:226-249 | the reservation of a refused clustered fill stays pending whatever follows |
| StoreRefusals.PendingIsRecordsIffNothingRefused | src/positions/pending_manager.py:226-239 | at rest the pending ids are those of live records exactly when no clustered fill was refused |
| ReachableRuns.RefusedFillIsLost | src/positions/pending_manager.py:226-239 | a run from the start that ends at rest with an open position nobody answers for until the next position poll |
| OrderSafety.ReversedReadsWouldConvictAFill | src/positions/pending_manager.py:171-184 | reading positions before pending orders would take an order that filled in between for gone |
| OrderSafety.DecideKeepsFillInv | src/positions/pending_manager.py:186-199 | one turn of the loop keeps the fill invariant whatever the broker did since the snapshots |
| Conservation.NoReservationIsResolvedTwice | src/execution/engine.py:287-587 | no reservation is ever resolved twice as opened or released |
| Conservation.AtRestEverythingAgrees | src/execution/engine.py:282-383 | when nothing is in flight, the pending cluster ids are the clustered signals of live records and of refused fills, all other reservations are resolved, and the engine's counts and ids are empty |
| Conservation.StepKeepsCustody | src/execution/engine.py:295-394 | every small step keeps exactly one holder per unresolved reservation |
| Conservation.StepKeepsSlotInv | src/execution/engine.py:108-116 | the per-symbol counts are exactly the executions that hold a slot |
| ProtocolBudget.ProtocolNeverExceedsTheBudget | src/risk/cluster_tracker.py:55-225 | over every interleaving of the whole protocol, used R stays within the budget plus what losing trades lost beyond their R plus the whole losses of trades closed without being counted; positions within their limit; losses and positions within theirs up to the number of those losses |
| ProtocolBudget.CountedClosesKeepTheBudget | src/risk/cluster_tracker.py:55-225 | when every clustered trade, stubs aside, closed only while counted as open, only overshoot exceeds the budget |
| ProtocolBudget.StepIsALedgerStep | src/execution/engine.py:287-288 | each protocol step is one event of the cluster ledger or none |
| ProtocolBudget.OpensReferToReservations | src/execution/engine.py:583-584 | an open counted by the cluster always refers to a live reservation |
| ReachableRuns.OvertakenLossBreaksTheBudget | src/execution/engine.py:536-584 | a trade closed at -1R before it is counted leaves used R of 1 plus its own, at rest with an empty store, above the budget exactly when the budget is below 2R |
| Exposure.OpenAtRest | src/risk/cluster_tracker.py:173-225 | at rest the cluster shows as open exactly the stored clustered trades that no position poll took in, and the overtaken ones |
| Exposure.ExposureIsTheStoreIff | src/positions/manager.py:255-308 | the cluster's exposure at rest is that of the store exactly when the overtaken trades are the clustered trades taken in |
| Exposure.CountedExposureIsTheStoreIff | src/positions/manager.py:255-267 | when every close came after its count, exactly when no stored clustered trade was taken in |
| Exposure.UnadoptedExposureIsTheStoreIff | src/execution/engine.py:536-584 | when no position was taken in, exactly when every close came after its count |
| Exposure.OvertakenTradeStaysOpen | src/execution/engine.py:536-584 | whatever follows an overtaking close of a trade whose position is closed, the trade never comes back to the store and is shown as open at the latest once counted |
| ReachableRuns.OvertakenTradeComesBack | src/positions/manager.py:255-267 | a run in which a trade closed by a stale snapshot before its count is taken in again under its own id, and exposure and store agree |
| ReachableRuns.AdoptedFillIsNotCounted | src/positions/manager.py:255-267 | a run that ends at rest, without any close, with a clustered trade in the store and none open in the cluster |
| ReachableRuns.AdoptedFillIsStoredTwice | src/positions/manager.py:255-267 | a run that ends at rest with two stored trades for one market position, above the limit exactly when that is one |
| OneTradePerOrder.NoOrderIsTradedTwice | src/positions/pending_manager.py:203-259 | over every interleaving, executions and the pending poller never build two trades for one order |
| OneTradePerOrder.SharedPositionWasTakenIn | src/positions/manager.py:255-267 | two stored trades share a position only when a position poll took in exactly one of them |
| OneTradePerOrder.AtMostTwoTradesPerPosition | src/positions/manager.py:255-267 | no position ever has three trades in the store |
| OpenLimit.SlotsBoundConcurrentExecutions | src/execution/engine.py:262-290 | over concurrent executions, the market trades they stored plus executions that may still store one never exceed the slots; counting positions taken in, they do by at most their number |
| EngineSlots.SlotTable.ReserveSlot | src/execution/engine.py:108-110 | counts one more for the symbol and remembers the id |
| EngineSlots.SlotTable.ReleaseSlot | src/execution/engine.py:112-116 | counts one less, drops an empty count, forgets the id |
| PendingManager.PendingOrderManager.Poll | src/positions/pending_manager.py:166-199 | a poll removes exactly the resolved records, turns each filled one into its trade, makes one tracker call per resolution, and changes nothing when a fetch fails |
| PendingManager.PendingOrderManager.HandleRecord | src/positions/pending_manager.py:186-199 | filled, expired, vanished and resting records are told apart by the two snapshots and the clock |
| PollRefinement.RecordStaysIff | src/positions/pending_manager.py:166-199 | whatever the broker does between and after the two reads, a record stays exactly when its order rested at the first read, was not filled at the second, and has not expired with its cancellation honoured; one that goes was filled, over, or cancelled after its expiry |
| PollRefinement.TurnIsATurn | src/positions/pending_manager.py:186-316 | one turn of the object's loop has exactly the effect of one turn of the protocol's poller on records, trades, orders and resolutions |
| PollRefinement.PollIsARun | src/positions/pending_manager.py:166-316 | a whole undisturbed poll of the object is a run of the protocol, so every theorem about the protocol covers it |
| PendingManager.CallsIff | src/positions/pending_manager.py:186-316 | a record is counted as open exactly when filled and stored, releases its reservation exactly when it goes unfilled with its signal known, and causes no other call |
| PendingManager.FillsAreStoredAsFilled | src/positions/pending_manager.py:203-239 | a poll stores exactly the filled records the store takes, at the broker's price and lots with the plan's levels |
| PendingManager.PendingOrderManager.HandleFill | src/positions/pending_manager.py:203-259 | a fill becomes a trade at the broker's price and lots and is counted as open, or only loses its record when the store refuses it |
| PendingManager.PendingOrderManager.Drop | src/positions/pending_manager.py:297-316 | the record goes and its reservation is released when its signal is known |
| PendingManager.PendingOrderManager.Track | src/positions/pending_manager.py:151-154 | the record is kept under its ticket |
| ClusterTracker.ClusterRiskTracker.Preview | src/risk/cluster_tracker.py:55-154 | the loop over both maps decides and sizes as the day's ledger prescribes |
| ClusterBudget.PreviewApprovesIff | src/risk/cluster_tracker.py:61-154 | a signal is approved exactly while losses and positions are under their limits and what is left and the size both reach the minimum; it is sized at whichever of the two is smaller |
| ClusterBudget.FullSizeBeforeALoss | src/risk/cluster_tracker.py:108-154 | over any day's events without a loss, an approved trade gets 1R exactly when that much is left, else all that is left |
| ClusterBudget.ReducedAfterALoss | src/risk/cluster_tracker.py:108-154 | once any close of the day was a loss, an approved trade gets the reduced R exactly when that much is left, else all that is left |
| ClusterBudget.ReservationIsReducedAfterALoss | src/risk/cluster_tracker.py:108-163 | what is reserved is what was previewed, whatever happens in between, and after a loss at most the reduced R |
| ClusterTracker.FirstGroupMatches | src/risk/cluster_tracker.py:261-275 | a symbol belongs to the first group that lists it |
| ClusterTracker.LedgersLastADay | src/risk/cluster_tracker.py:277-283 | a ledger is found again on its own day and is empty on any other |
| ClusterTracker.ClusterRiskTracker.ReserveSignal | src/risk/cluster_tracker.py:157-163 | today's ledger gains the pending entry |
| ClusterTracker.ClusterRiskTracker.ReleaseSignal | src/risk/cluster_tracker.py:165-171 | today's ledger loses the pending entry |
| ClusterTracker.ClusterRiskTracker.MarkTradeOpened | src/risk/cluster_tracker.py:173-184 | the pending R moves to the open trade |
| ClusterTracker.ClusterRiskTracker.MarkTradeClosed | src/risk/cluster_tracker.py:186-225 | the open R goes, a loss adds its damage and a loss count |
| ClusterBudget.TradeCostsWhatItLost | src/risk/cluster_tracker.py:157-225 | reserved, opened and closed, a trade leaves the ledger as it was but for its loss in units of its own R, counted once |
| ClusterBudget.TradeOccupiesItsR | src/risk/cluster_tracker.py:157-184 | while reserved or open it occupies one position and its R; a release undoes a reservation |
| ClusterTracker.ClusterRiskTracker.EnterDay | src/risk/cluster_tracker.py:277-283 | a new day starts an empty ledger |
| ClusterTracker.SumValues | src/risk/cluster_tracker.py:285-287 | the loop computes the sum of a map's values |
| ClusterBudget.BudgetIsNeverExceeded | src/risk/cluster_tracker.py:108-225 | realised plus pending plus open R stays within the budget plus overshoot plus uncounted losses, even when events fall between a preview and its reservation |
| ClusterBudget.TrackedDayKeepsTheBudget | src/risk/cluster_tracker.py:108-203 | when closes refer to open trades too, only losses beyond a trade's own R exceed the budget and the joint bound on losses and positions is exact |
| ClusterBudget.CloseKeepsInv | src/risk/cluster_tracker.py:186-225 | a close trades open R for realised loss, and what it loses beyond that for slack |
| ClusterBudget.BudgetHoldsOutright | src/risk/cluster_tracker.py:108-203 | when no trade loses more than its R the budget holds without slack |
| ClusterBudget.PositionsAndLossesAreBounded | src/risk/cluster_tracker.py:61-106 | positions stay within their limit, losses plus positions within the joint limit up to the uncounted losses |
| ClusterBudget.UntrackedOpensExceedTheBudget | src/risk/cluster_tracker.py:173-184 | opens without a reservation break every budget below 2R |
| DrawdownFold.ComputeDrawdownR | src/risk/equity_throttle.py:99-111 | the one-pass fold returns the largest loss over all suffixes |
| DrawdownFold.DrawdownIsLargestSuffixLoss | src/risk/equity_throttle.py:99-111 | the recursive and the suffix reading of drawdown are the same |
| DrawdownFold.DrawdownAppend | src/risk/equity_throttle.py:99-111 | one more contribution c turns drawdown d into max(0, d - c) |
| DrawdownFold.PruningNeverDeepens | src/risk/equity_throttle.py:280-284 | dropping old entries never increases the drawdown |
| TradeContribution.RowMatchesLiveIff | src/risk/equity_throttle.py:114-195 | row and live contribution agree exactly when both exits, each measured from its own entry, lie equally far from the stop in units of risk |
| TradeContribution.SameEntryAgreesIff | src/risk/equity_throttle.py:114-195 | filled at the planned entry, they agree exactly when both exit at one blended price |
| TradeContribution.AsPlannedAgreesIff | src/risk/equity_throttle.py:149-195 | with TP1 as planned, they agree exactly when the fill is the planned entry, nothing was blended, or the blended exit is the stop |
| TradeContribution.ImprovedFillIsMisread | src/positions/pending_manager.py:203-224 | a limit order at 100 filled at 99 with half taken at 110 and the rest closed at 120 is read differently after a restart |
| TradeContribution.Tp1QuoteIsMisreadIff | src/positions/manager.py:347-364 | filled at the planned entry with part taken at TP1, the two readings differ exactly when the quote it was taken at is not the TP1 level |
| TradeContribution.FailedTp1PartialIsMisreadIff | src/risk/equity_throttle.py:114-146 | after a failed partial the two readings differ exactly when the credited volume and distance are not zero |
| TradeContribution.MoneyRValue | src/risk/equity_throttle.py:57-96 | money R is the R of closing the whole position at the volume-blended price |
| TradeContribution.ContributionIsWhatTheLegsEarned | src/risk/equity_throttle.py:57-146 | a live contribution times the risk of the whole position is the multiplier times what both legs earned, added up by volume |
| TradeContribution.RecordedRStands | src/risk/equity_throttle.py:74-91 | with anything missing or off that the blend needs, the recorded R stands, and only a trade without an R has none |
| TradeContribution.UndatedTradeCountsFromNow | src/risk/equity_throttle.py:114-146 | a live trade counts from its close time, or from now without one |
| TradeContribution.IncompleteRows | src/risk/equity_throttle.py:149-195 | a row counts exactly with an R and a close time, without its plan at its recorded R, without a side as a buy |
| EquityThrottle.EquityThrottleTracker.RefreshLocked | src/risk/equity_throttle.py:280-292 | prunes, folds and applies the hysteresis |
| EquityThrottle.EquityThrottleTracker.RecordTradeClosed | src/risk/equity_throttle.py:210-225 | appends the trade's contribution and refreshes |
| EquityThrottle.EquityThrottleTracker.HydrateRows | src/risk/equity_throttle.py:227-251 | replaces the window by the sorted contributions of the rows |
| EquityThrottle.EquityThrottleTracker.Preview | src/risk/equity_throttle.py:253-261 | the multiplier is below one only while engaged and enabled |
| EquityThrottle.EveryRunIsSettled | src/risk/equity_throttle.py:280-292 | in every run, not engaged means drawdown at most the engage threshold and engaged means at least the release threshold |
| EquityThrottle.EngagedIff | src/risk/equity_throttle.py:280-292 | the throttle is engaged exactly when its drawdown once exceeded the engage threshold and has not fallen below the release threshold since |
| EquityThrottle.ReadingNeverEngages | src/risk/equity_throttle.py:253-292 | reading under any clock can release the throttle but never engage it |
| EquityThrottle.DrawdownGrowthIsPaidFor | src/risk/equity_throttle.py:210-292 | the drawdown grows by at most the losses recorded, however pruning interleaves |
| EquityThrottle.NoFlapping | src/risk/equity_throttle.py:286-292 | between a release and the next engagement recorded losses exceed the whole band |
| EquityThrottle.WindowIsRecentHistory | src/risk/equity_throttle.py:280-284 | head-pruning leaves exactly the history inside the window |
| EquityThrottle.WindowHoldsTheLastDays | src/risk/equity_throttle.py:280-284 | the window holds exactly the recorded contributions at most the configured number of days old |
| EquityThrottle.HydratedWindowHoldsTheLastDays | src/risk/equity_throttle.py:227-251 | in whatever order the rows come, so does the window of a restart, sorted by close time |
| EquityThrottle.SortIsStable | src/risk/equity_throttle.py:236-238 | sorting keeps every entry and the order of entries of one time |
| EquityThrottle.RestartRebuildsTheThrottle | src/risk/equity_throttle.py:227-251 | hydrating rebuilds window and drawdown, is idempotent, and agrees on the throttle outside the band |
| EquityThrottle.RowsAgreeIff | src/risk/equity_throttle.py:114-195 | the rows agree exactly when both readings of every closed trade do |
| LossTracker.Tracker.UpdateDailyLossPct | src/risk/loss_tracker.py:93-144 | day change, equity latch, expiry and limit in one update |
| LossTracker.Tracker.RecordClose | src/risk/loss_tracker.py:147-183 | the session peak and the drawback from it, pausing when too much is given back |
| LossTracker.Tracker.ObserveEquity | src/risk/loss_tracker.py:186-220 | the bounded window and its peak-to-trough guard |
| LossTracker.RollingGuardPausesIff | src/risk/loss_tracker.py:194-220 | in every run of a day an equity reading pauses an unpaused tracker exactly when it is positive, the guard is on, and the last readings number at least three and fall by the limit from their highest to another |
| LossTracker.ProfitGuardPausesIff | src/risk/loss_tracker.py:147-183 | in every run of a day a close pauses an unpaused tracker exactly when the guard is on and the closes have come down from their highest running total by the limit, measured on the start equity |
| LossTracker.EquityPeakIsHighest | src/risk/loss_tracker.py:186-202 | the equity peak is the highest of the latched equity and the day's readings |
| LossTracker.CurrentLossIsTheLastReading | src/risk/loss_tracker.py:93-95 | the loss on record is the last one read |
| LossTracker.RunningPauseStands | src/risk/loss_tracker.py:135-216 | the profit and rolling guards never move a running pause, and a loss reading leaves no expired one on record |
| LossTracker.PeakAndTrough | src/risk/loss_tracker.py:206-208 | the loop returns the extremes of the window, both attained |
| LossTracker.PauseLatchesForTheDay | src/risk/loss_tracker.py:93-230 | once any guard fires the tracker stays paused for the rest of the day |
| LossTracker.PauseEndsWithTheDay | src/risk/loss_tracker.py:93-230 | no pause of a day is still on the next |
| MarketRuns.GuardStopsTheDay | src/risk/rules.py:68-84 | once any guard has fired, no signal is admitted for the rest of the day, whatever closes, stop moves and readings follow |
| LossTracker.PausedIffSomeGuardFired | src/risk/loss_tracker.py:223-230 | within a day, paused means exactly that some guard fired |
| LossTracker.FirstUpdateForgetsEarlierPause | src/risk/loss_tracker.py:99-107 | the day's first update leaves a pause only if it reaches the limit itself |
| LossTracker.EarlyPauseIsReachable | src/risk/loss_tracker.py:99-183 | a run whose pause, set before the day's first update, that update lifts |
| LossTracker.EquityIsLatched | src/risk/loss_tracker.py:99-133 | the day's first positive start equity never changes that day |
| LossTracker.ShortWindowsNeverFire | src/risk/loss_tracker.py:204-212 | a window shorter than three readings never fires |
| LossTracker.SlotsShareTheBudget | src/risk/loss_tracker.py:232-238 | the per-trade amount times the slots is the daily budget |
| TierCap.DoublingsIsUnique | src/risk/loss_tracker.py:250 | the floored logarithm is the one integer d with 2^d <= x < 2^(d+1) |
| TierCap.CapStaysInRange | src/risk/loss_tracker.py:241-251 | the cap lies between floor and base |
| TierCap.CapIsAntitone | src/risk/loss_tracker.py:241-251 | a larger balance never gets a larger percentage |
| TierCap.DollarCapBand | src/risk/loss_tracker.py:273-287 | the dollar cap lies in one octave above the threshold's, until the floor binds |
| TierCap.DollarCapUpToThreshold | src/risk/loss_tracker.py:273-287 | up to the threshold the dollar cap is the base percentage of the balance |
| LotSizing.NormalisedLotsFitIff | src/utils/price.py:45-54 | snapping never exceeds the raw size exactly when it reaches the minimum, and loses less than a step |
| LotSizing.NormalisedLotsAreWhole | src/utils/price.py:45-54 | snapped lots are the largest whole number of steps within the raw size, kept between the bounds |
| LotSizing.PipIgnoresTheExtraDigit | src/utils/price.py:8-26 | the extra digit of a quote does not change the pip, and the reported risk is the stop distance in pips |
| LotSizing.TickFormulaIsLinear | src/utils/lot_calculator.py:44-126 | the tick formula costs a lot linearly in the stop distance, whatever the pip size |
| LotSizing.SizedPositionFitsIff | src/utils/lot_calculator.py:44-126 | the sized position fits the risk amount exactly when the raw size reaches the minimum lot |
| LotSizing.SizedPositionIsBounded | src/utils/lot_calculator.py:44-126 | the position keeps to all bounds, is the minimum when its cost is unknown, and goes by the broker's cost when there is one |
| Planner.AcceptedFillsAreCovered | src/execution/planner.py:84-101 | sizing looks at least as far as any accepted fill lies from the stop |
| Planner.ShiftedLevelsAreCovered | src/execution/engine.py:448-454 | so does it for levels shifted with the fill |
| Planner.RiskAmountWithinBase | src/execution/planner.py:106-125 | the multipliers and the ceiling only ever reduce the base amount |
| Planner.PlannedRiskIff | src/execution/planner.py:103-125 | the planned risk is the base amount times the decided multiplier, clamped to [0, 1], times the symbol's, exactly as long as that is within the ceiling, which it is otherwise |
| Planner.SizingDistanceIs | src/execution/planner.py:78-101 | sizing looks at the stop distance plus the slippage allowed on it plus the counted spread, with a stop that far on the losing side |
| Planner.PlannedLotsUseTheRisk | src/execution/planner.py:126-151 | the lots are the largest whole number of steps the risk amount pays for, kept between the bounds |
| Planner.PlanStaysWithinRisk | src/execution/planner.py:78-151 | being stopped out at any covered distance with any part filled costs at most the risk amount |
| Planner.Tp1LotsLeaveARunner | src/execution/planner.py:183-195 | the TP1 volume never consumes the position |
| Planner.Tp1LotsAreTheirShare | src/execution/planner.py:181-195 | TP1 takes the largest whole number of steps within its share, or the largest that leaves a step when none would be left |
| Planner.PlannedLevelsAreInOrderIff | src/execution/planner.py:64-218 | the plan's stop, entry, TP1 and TP2 are in order exactly when the signal's are and TP1 has a proper trigger, and its TP1 volume leaves a runner |
| Planner.Tp1IsBetweenIff | src/execution/planner.py:160-180 | TP1 lies strictly between entry and TP2 exactly when its trigger is a proper fraction |
| Planner.Tp1LiesAtItsShare | src/execution/planner.py:160-173 | TP1 lies at its share of the way to TP2 |
| OrderManager.ExecuteMarketOrder | src/execution/order_manager.py:71-299 | for all ticks and replies: at most 1 + retry submissions, each retry answers the rejection before it, a normal return means the last and only acceptance, a slipped fill is asked to be closed, and the loop gives up only on a final rejection |
| OrderManager.ExecuteLimitOrder | src/execution/order_manager.py:303-503 | the same at the plan's own price, with one fallback exactly on the two codes that have one |
| OrderManager.OnlyTheLastIsAccepted | src/execution/order_manager.py:102-299 | no submission but the last is ever accepted |
| OrderManager.StopsOnlyMoveOutward | src/execution/order_manager.py:546-563 | retries move stops and targets only outward |
| OrderManager.StopsStayUnlessRejected | src/execution/order_manager.py:178-188 | stops change only after an invalid-stops rejection |
| OrderManager.VolumeIsHalvedOnce | src/execution/order_manager.py:127-173 | the volume is the planned one until a margin rejection and its half ever after |
| OrderManager.HalfIsWhole | src/execution/order_manager.py:142-147 | the half is the largest whole number of steps within half the volume, kept between the broker's bounds |
| OrderManager.StopsMoveAsFarAsNeeded | src/execution/order_manager.py:178-188 | after an invalid-stops rejection stop and target lie at least the broker's distance from the rejected price and moved only as far as that needs |
| OrderManager.RetriedCodes | src/execution/order_manager.py:43-53 | only the six codes are ever tried again |
| OrderManager.GivesUpOnTheRest | src/execution/order_manager.py:127-176 | with attempts left the loop gives up only on another code or a second margin rejection |
| OrderManager.SlippedFillsAreClosedIff | src/execution/order_manager.py:230-299 | an accepted order is asked to be closed exactly when closing is on and its fill lies further on the losing side of the plan than the allowed share of the stop distance; otherwise its fill is returned |
| OrderManager.VolumeNeverRises | src/execution/order_manager.py:142-171 | no retry asks for more than the attempt before or less than the minimum |
| OrderManager.SlippageCheckIsTheSizingBand | src/execution/order_manager.py:236-273 | the slippage check rejects exactly the fills outside the band sizing assumed |
| OrderManager.ReturnedFillIsCovered | src/execution/order_manager.py:215-297 | a returned fill is no larger and no worse than sizing assumed |
| OrderManager.EmergencyCloseFitsOrderIff | src/execution/order_manager.py:507-540 | the emergency close asks for the submitted size exactly when no margin rejection halved it or halving changed nothing |
| OrderManager.EmergencyCloseFitsFillIff | src/execution/order_manager.py:507-540 | it asks for the filled size exactly when, besides, the order was filled whole, and never for less |
| OrderManager.HalvedFillIsOverClosed | src/execution/order_manager.py:127-173 | after a margin rejection and a slipped fill of the halved order the close asks for the planned size |
| RiskEngine.Evaluate | src/risk/engine.py:60-163 | the loop returns the first rejection or the composed data of all rules |
| RiskEngine.FirstRejectionIsFirst | src/risk/engine.py:88-129 | the first rule to reject decides |
| RiskEngine.RejectsIffSomeRuleDoes | src/risk/engine.py:88-129 | a list approves exactly when every rule passes |
| RiskEngine.GatheredLookup | src/risk/engine.py:131 | the folded data holds exactly what each key's owning rule wrote |
| RiskEngine.OrderDoesNotMatter | src/risk/engine.py:86-140 | any two lists of the same rules decide alike |
| RiskEngine.MultiplierIsAProduct | src/risk/engine.py:133-140 | the size multiplier is cluster times throttle, neither overwriting the other |
| RiskEngine.ReservationCoversTheRisk | src/execution/engine.py:282-288 | the reserved R covers what will be risked and the multiplier lies in (0, 1] |
| RiskEngine.MinRrPassesIff | src/risk/rules.py:432-488 | the reward rule in prices: fill strictly between stop and TP2 and reward at least the ratio times the risk |
| RiskEngine.SpreadPassesIff | src/risk/rules.py:491-533 | the spread rule in prices |
| RiskEngine.DriftPassesIff | src/risk/rules.py:360-429 | the drift rule as a bound on the adverse distance |
| RiskEngine.LimitSignalsNeverDrift | src/risk/rules.py:278-296 | a limit signal is judged at its own level |
| RiskEngine.DailyLossPassesIff | src/risk/rules.py:213-268 | the safety stop is implied by the projection of one more stopped-out trade |
| RiskEngine.TradingNeedsTwoSlots | src/risk/rules.py:253-266 | with no loss yet a trade passes exactly when the streak is at least two |
| RiskEngine.NoSlotNeverTrades | src/risk/rules.py:253-266 | with a streak of one every signal is rejected |
| RiskEngine.ApprovalMeans | src/risk/rules.py:539-551 | what an approval says about pauses, slots, exposure, hedging and duplicates |
| RiskEngine.ApprovedIff | src/risk/rules.py:539-551 | the shipped list approves exactly when nothing is paused, the cluster approves, book and quote admit the signal, and one more stop-out stays within 95% of the limit, all in prices and counts |
| RiskEngine.ApprovalReportsTheDrift | src/risk/rules.py:360-429 | an approval reports the fill price and the adverse drift in price and in percent of the planned risk |
| RiskEngine.ApprovalReportsTheThrottle | src/risk/rules.py:105-125 | a reduced size comes with the drawdown behind it, and only then |
| RiskEngine.PauseIsNamedFirst | src/risk/rules.py:539-551 | a pause is what a rejection names, whatever else is wrong |
| MarketRuns.ExecutionEngine.Execute | src/execution/engine.py:118-641 | one market signal: duplicate and stacking checks, rules, order, store, with the slot free again on every path |
| MarketRuns.ExecutionEngine.FirstBlocking | src/execution/engine.py:644-670 | the first trade on the symbol and side not yet in profit, if any |
| MarketRuns.BlocksIff | src/execution/engine.py:644-670 | a same-side trade blocks exactly when closing it at the quote would be no profit |
| MarketRuns.RecordedStopIs | src/execution/engine.py:443-510 | the recorded stop keeps the planned distance from a slipped fill exactly when levels follow it, and the broker's follows when it took the change |
| MarketRuns.ExecutionEngine.HasSignal | src/positions/store.py:59-64 | whether an open trade carries the signal id |
| MarketRuns.StoreStaysWithinLimits | src/execution/engine.py:216-290 | in every market-only run: at most max(1, streak) trades, at most the limit per symbol, distinct signal ids, no opposing sides |
| MarketRuns.StackedTradesWereInProfit | src/execution/engine.py:235-260 | in every market-only run, of two open trades on one symbol and side the earlier was in profit when the later was admitted |
| MarketRuns.AdmittedTradeFits | src/execution/planner.py:78-151 | an admitted, filled trade stays inside what it was sized for and that inside the base amount |
| MarketRuns.AdmittedTradeCostsItsShare | src/execution/planner.py:103-151 | being stopped out of an admitted, filled trade costs at most the decided multiplier times the base amount, and at most the tiered ceiling of the start equity |
| MarketRuns.StopEventsIff | src/positions/sl_cascade.py:31-36 | a run's stop moves are those of the cascade and of the breakeven rule |
| MarketRuns.ChangedTradeFits | src/positions/sl_cascade.py:51-80 | partial closes, cascaded stops and breakeven stops keep a trade inside what it was sized for |
| MarketRuns.WorstCaseLossFitsTheDailyBudget | src/execution/planner.py:103-125 | at every moment of every market-only day, being stopped out of everything costs at most start equity times the daily limit |
| DailyLoss.DayLossAndExposureAreBounded | src/risk/rules.py:213-268 | at every moment of every market-only day, the day's loss plus being stopped out of everything costs at most 1.95 times the daily budget less one share, plus what loss readings hid and closes lost beyond their sizing |
| DailyLoss.AdmissionLeavesRoom | src/risk/rules.py:253-266 | an admitted signal's loss reading, in money, leaves one share below 95% of the budget |
| DailyLoss.ReachExceedsTheBudgetIff | src/risk/rules.py:216-221 | that bound lies above the daily limit exactly for a streak of at least two |
| DailyLossRuns.BoundIsAttained | src/risk/rules.py:216-221 | for every streak of at least two a day whose loss and open risk are exactly the bound, above the daily limit |
| DailyLossRuns.LossesThenAFullBook | src/risk/rules.py:216-221 | a day on which any loss the rule lets through comes on top of a full book |
| CloseRules.RrMeasuresDistance | src/positions/manager.py:649-669 | realised R is the distance travelled in units of the original stop distance |
| CloseRules.StopOutCostsOneR | src/positions/manager.py:649-669 | a stop-out at the planned stop is exactly -1R |
| CloseRules.BrokerDealDecides | src/positions/manager.py:507-573 | with a stop or target deal the close carries its price, that price's distance in R and its reason, whatever was polled; at the planned stop that is -1R |
| CloseRules.PolledPriceDecides | src/positions/manager.py:516-573 | with any other deal or none, price, R and reason come from the polled price when there is one, else from the deal |
| CloseRules.ReasonIsDetermined | src/positions/manager.py:507-551 | the broker's reason wins; without one the target is checked before the stop |
| CloseRules.PriceIsReplacedIff | src/positions/manager.py:562-573 | the recorded price differs from the judged one exactly when that is zero and the target or entry standing in for it is not |
| CloseRules.ZeroPriceBecomesTheTarget | src/positions/manager.py:511-573 | then the close carries the target's price and full R, under the broker's reason or else as a stop hit for a buy and a target hit for a sell |
| CloseRules.BufferIsBracketed | src/positions/manager.py:690-699 | the breakeven buffer is at least one spread and otherwise capped |
| CloseRules.BreakevenIsSafe | src/positions/manager.py:672-722 | an unrounded breakeven stop keeps the entry; rounding gives back at most half a point of it and nothing of the broker's distance |
| CloseRules.BreakevenStopIff | src/positions/manager.py:672-722 | there is a breakeven stop exactly when entry and buffer clear the quote by the larger broker distance and a point, and it lies at entry and buffer |
| PositionManager.Manager.Poll | src/positions/manager.py:238-308 | adopts untracked positions, then visits every open trade once |
| PositionManager.Manager.Adopt | src/positions/manager.py:244-267 | an untracked ticket is taken in from the record or as a stub, unless it is in the store by now |
| Lifecycle.AdoptionCoversTheSnapshot | src/positions/manager.py:244-267 | after the adoption every position of the snapshot has a trade, and only positions without one came in |
| Lifecycle.AdoptedTradeMirrorsItsPosition | src/positions/manager.py:745-792 | what comes in is the saved record or a stub that mirrors its position |
| Lifecycle.PricesShowTheSnapshot | src/positions/manager.py:244-245 | the prices of a poll are those of its snapshot |
| PositionManager.Manager.VisitTrade | src/positions/manager.py:273-308 | gone, missing stub, TP1 reached or nothing |
| PositionManager.Manager.HandleTp1PriceReached | src/positions/manager.py:312-469 | partial close, breakeven move and update, or deferral |
| Lifecycle.Tp1Outcome | src/positions/manager.py:302-469 | at TP1, and only there, lots go exactly when the broker takes them, the stop moves exactly when configured, roomy and accepted, and TP1 is done and announced once unless neither lots were taken nor room was there |
| PositionManager.Manager.HandlePositionGone | src/positions/manager.py:471-608 | one close, with its target or stop event first, and the trade out of the store |
| Lifecycle.BrokerDealsAreRecorded | src/positions/manager.py:471-608 | in every poll of every run, a trade that is gone and has a stop or target deal is logged as closed at that deal's price, R and reason |
| Lifecycle.VisitClosesAtSeenPrice | src/positions/manager.py:516-573 | without one it is closed at the last price seen, with target, stop or manual told from it |
| Lifecycle.SeenPriceIsRemembered | src/positions/manager.py:296-300 | that price is the one of the last snapshot showing the position |
| Lifecycle.StubClosesSilently | src/positions/manager.py:481-608 | a stub's close carries neither price nor R and announces nothing else |
| Lifecycle.ClosedTradesAreLeftAlone | src/positions/manager.py:269-275 | a closed trade is not visited again |
| Lifecycle.EverythingHappensOnce | src/positions/manager.py:230-608 | in every run a trade closes at most once, reaches TP1 at most once, has its TP1 volume closed at most once, and announces a target or stop exactly for the close classified so |
| Lifecycle.LotsAreConserved | src/positions/manager.py:446-465 | entry lots are what is held plus what TP1 took plus what was left at the close |
| Lifecycle.TradesOnlyMoveForward | src/positions/manager.py:455-465 | status only advances and lots shrink only in the step that reaches TP1 |
| Lifecycle.EveryRunBalances | src/positions/manager.py:230-308 | every trade's ledger balances after any run of polls and engine adds |
| Lifecycle.EveryCloseIsJudged | src/positions/manager.py:553-598 | in every run a close carries an R exactly when it carries a price, and a target, stop or manual reason only with one |
| Lifecycle.StopMovesWithoutPartialIff | src/positions/manager.py:383-444 | with no lots taken at TP1 the broker's stop moves exactly when the move is configured, rules and quote are at hand, entry and buffer clear the quote by the broker's distance, and the broker accepts |
| Lifecycle.FailedPartialIsRetriedIff | src/positions/manager.py:383-469 | a failed partial close is tried again exactly when the move is configured, rules and quote are at hand and there is no such room |
| Lifecycle.BreakevenNeedsPartialIff | src/positions/manager.py:312-323 | the stop moves only after a successful partial close exactly under configurations that never move it |
| Lifecycle.ClosedByTheFirstMissUnlessStub | src/positions/manager.py:280-294 | one missing snapshot closes a trade; a stub needs three |
| Lifecycle.StubsSurviveTwoMisses | src/positions/manager.py:281-297 | a stub survives two misses in a row and a sighting clears them |
| SlCascade.PositionBook.CascadeStops | src/positions/sl_cascade.py:39-91 | the loop offers the new stop to every related trade and records those the broker took |
| SlCascade.PositionBook.RecordFill | src/execution/engine.py:536-564 | a fill is stored and then cascaded |
| SlCascade.StopsAreSuffixExtremes | src/positions/sl_cascade.py:31-91 | when all modifications succeed, each stop is the tightest of its own and all later related ones |
| SlCascade.CascadeOnlyTightens | src/positions/sl_cascade.py:51-80 | whatever fails, stops only tighten and unrelated trades are untouched |
| SlCascade.StopMovesIff | src/positions/sl_cascade.py:51-80 | a trade takes the newer stop exactly when it is another one on the same symbol and side with a ticket, the stop is tighter, and the broker accepts |
| SlCascade.StopsNeverLoosen | src/positions/sl_cascade.py:51-80 | over any run a stop is no looser than the one it opened with |
| SlCascade.StoreAndBrokerAgree | src/positions/sl_cascade.py:61-80 | store and broker hold the same levels after any run |
| SignalQueue.OneSignalPerSymbol | src/signals/queue.py:80-162 | over all interleavings at most one signal per symbol is queued, held or executing, and the queue stays bounded |
| SignalQueue.StartedInOrderExactlyOnce | src/signals/queue.py:98-150 | accepted signals are started in order, each once, and none is lost before a stop |
| SignalQueue.AcceptedIff | src/signals/queue.py:88-112 | a signal is taken exactly when no live one shares its symbol and there is room |
| SignalQueue.EarlyFinishLeavesNoSymbol | src/signals/queue.py:98-161 | the lock delays the release until the symbol is noted |
| SignalQueue.DroppedSignalBlocksItsSymbol | src/signals/queue.py:141-147 | a signal given up on stop keeps its symbol reserved |
| SignalQueue.DropIsReachable | src/signals/queue.py:130-147 | a run that ends with the worker gone and a signal given up |
| SignalQueue.Queue.Put | src/signals/queue.py:80-112 | an undisturbed put is its two steps in a row |
| SignalQueue.Queue.WorkOnce | src/signals/queue.py:130-162 | an undisturbed turn of the worker, stopped, idle, paused or working, is its steps in a row |
| SignalQueue.Queue.Stop | src/signals/queue.py:67-73 | the flag, then the sentinel if there is room |
| SignalQueue.TurnIsARun | src/signals/queue.py:130-162 | an undisturbed turn is some of the worker's own steps among the interleavings |
| SignalQueue.HeadIsServed | src/signals/queue.py:130-162 | it starts the head of the queue and frees its symbol |
| SignalQueue.TurnsThatServeNothing | src/signals/queue.py:130-147 | stopped, idle, at a sentinel or paused it starts nothing |
| SignalQueue.NothingStartsWhilePaused | src/signals/queue.py:141-144 | over all interleavings nothing is started between a pause and a resume or stop |
| SignalQueue.NothingStartsAfterAStop | src/signals/queue.py:132-147 | over all interleavings nothing is started after a stop |
| SignalQueue.StoppedWorkerLeaves | src/signals/queue.py:132-147 | a stopped worker leaves, giving up what it holds, paused or not |
| SignalQueue.SentinelWakesTheWorker | src/signals/queue.py:67-73 | the sentinel ends a worker that would otherwise wait on an empty queue |
| SeenWindow.SignalConsumer.Process | src/signals/consumer.py:153-168 | the bounded map is the last 10,000 keys that passed, and a keyed message passes exactly when its key is not among them |
| SeenWindow.WindowIsDistinct | src/signals/consumer.py:156-168 | the remembered keys are distinct |
| SeenWindow.RepeatsNeedAFullWindow | src/signals/consumer.py:156-168 | a key passes again only after 10,000 other passes |
| SeenWindow.RepeatPassesIff | src/signals/consumer.py:156-168 | a key that passed once passes again exactly after 10,000 other passes |
| SeenWindow.KeyIsTheFirstId | src/signals/consumer.py:155-157 | messages are told by event and id, or signal id without one, and pass always without either |

## Left out

- Floating point: prices and lots are exact, and rounding of lots, stops and ratios is not modelled, except that a rounded breakeven stop is shown to stay clear of the broker's distance.
- Time zones and daylight saving: a day is a 24-hour block, and one instant is read per call.
- Log lines, metrics, event payloads, latency gauges, order comments, filling modes and the texts of reasons.
- Foreign calls into the MT5 terminal: they are replies, snapshots and a broker state machine.
- The database: only the fact that a saved plan is not overwritten is used (`src/infra/db.py:286-301`).
- The socket client, hub, bridge to the interface, configuration loading and credential storage.
- Conservation.NoReservationIsResolvedTwice: like every theorem about the order protocol, assumes that signal ids arrive once. The engine's duplicate check forgets a resting limit order's id after `_release` (`src/execution/engine.py:216-219`, `src/execution/engine.py:371-372`), and a second signal with that id would overwrite its reservation.
- Saving trades: a save can fail, so any trade an execution or the poller built may be on record as open when a position poll asks for it, even after its close. What position a stub stands for is what the snapshot says.
- The three misses a stub gets are part of `PositionManager`; in the order protocol a stub can be closed at any miss.
- Whether the emergency close after a slipped fill succeeds: a failure is swallowed (`src/execution/order_manager.py:536-540`).
- Staleness of signals (`src/execution/engine.py:141-202`): a single comparison before anything is reserved.
- Startup hydration of positions, pending orders and cluster exposure; hydrated cluster entries count 1R by default and break the within-day ledger by design.
- Cross-day behaviour of the cluster: the ledger theorems speak of one day.
- Emergency closing of all positions at once (`src/positions/manager.py:81-148`).
- MarketRuns.WorstCaseLossFitsTheDailyBudget: assumes raw lots of at least the minimum lot, symbol multipliers of at most one, slippage closing on, no stop widening and no externally opened positions; resting limit orders are outside its slot count in the source itself.
- DailyLoss.DayLossAndExposureAreBounded: the same conditions; profits of open trades that lower the loss reading, and losses beyond a trade's sizing, are terms of the bound.
- MarketRuns.ExecutionEngine.Execute: leaves out the staleness check, the cluster's reservation calls, persistence and the limit branch, which the order protocol covers, and the cascade, which runs as events of their own.
- PendingManager.PendingOrderManager.HandleFill: leaves out the stop cascade (`SlCascade`), persistence and events of a fill.
- TradeContribution.RowMatchesLiveIff: assumes present prices and levels and a planned stop on the losing side of the planned entry, as validated signals have.
- Lifecycle.EverythingHappensOnce: assumes that a ticket reported closed does not reappear and that saved records belong to the ticket they are found by; how the manager's trades meet those of the engine's thread is the subject of `OneTradePerOrder`.
- LossTracker.Tracker.RecordClose: the position manager never fills in the realised profit, so this is verified as an operation in its own right.
- EquityThrottle.RestartRebuildsTheThrottle: assumes close times recorded in order under a clock that does not run back, and rows whose contribution equals the live one.
- SlCascade.StopsAreSuffixExtremes: runs without breakeven moves and closes; a breakeven move may loosen a cascaded stop.
- PositionManager.Manager.Poll: the refresh of the daily loss at the start of a poll is the loss tracker's own operation.
