# Verified model of the trading core

A Dafny model of the parts of `tw_quant` that must not go wrong, with proofs about every run:

- the durable live order path: order table, submit and cancel outboxes, recovery lock, broker
  reconciliation, position guardian and ARM gate;
- the deterministic execution pipeline: event engine, signal router, simulated broker, position ledger,
  liquidator, historical replay, and the read model projected from the event log;
- bar building: ticks to minute bars, minute bars to larger bars, in a stream and in one batch;
- the per-day backtest loop and the sliding-window limiter.

`dafny verify dfyconfig.toml` checks the whole project.

## How to read it

Code that updates fields is a class with those fields. Each method is proved equal to a function of the
old state, and the properties are lemmas about those functions. What the functions themselves write, price
and count is stated again without using them, field by field, in `LiveTransactions`, `GuardianRows`,
`DeskRows`, `FillPrices`, `PipelineOrders`, `LedgerTrades`, `PaperTables`, `SignalLevels`, `BarAggregates` and
`BacktestTrades`. A protocol is a set of steps with a `Run`
over any sequence of them, so a lemma about `Run(Init, steps)` is about every interleaving; a step that is
not possible in a state leaves it alone, and a crash removes any set of tasks between any two steps. The
broker is an oracle that returns an order or fails.

| files | subject |
|---|---|
| `Orders`, `LiveOrderStore`, `LiveTransactions`, `LiveOrderRepository`, `LiveOrderRuns` | order lifecycle, tables, what each transaction writes, at-most-once submission |
| `RecoveryLock`, `RecoveryRuns`, `Reconciliation`, `StoredFills` | generation-fenced lock, three-way comparison, derived positions |
| `PositionGuardian`, `GuardianRows`, `GuardianRuns`, `CanaryGate`, `CanaryRuns` | exit reservations, ARM gate |
| `Events`, `EventEngine`, `EngineOrder`, `EngineSteps` | deterministic event queue |
| `PositionLedger`, `LedgerAccounts`, `LedgerTrades` | average-cost book, its accounting identities, trades and position events |
| `OrderDesk`, `SimulatedBroker`, `DeskRows`, `FillPrices`, `BrokerRuns`, `ReduceOnly`, `ReduceOnlyRuns` | simulated broker, what becomes of each order and what it pays |
| `Pipeline`, `PipelineOrders`, `OrderTurns`, `OrderBursts`, `BarTurns`, `LiquidatorRuns` | handlers in order, orders of one instant, liquidation |
| `Simulator`, `SignalLevels`, `HistoricalRun`, `HistoricalPairing`, `SimulatedBacktest` | signals and their replay through the pipeline |
| `PaperReadModel`, `PaperTables`, `ReadModel*`, `BrokerOutputs`, `ApprovedQuantity` | tables projected from the event log |
| `Sessions`, `MinuteBars`, `BarFacts`, `Timeframes`, `BarAggregates`, `StreamingBars`, `StreamingLimits` | bars |
| `RateLimit`, `RateLimitRuns`, `BacktestDay`, `BacktestTrades` | limiter, backtest day |

## Conventions

- Floats are exact reals, times are integers (microseconds, Taipei local), hashes and generated ids are the
  values they are made from, so distinct inputs give distinct ids.
- A database transaction is one atomic step. A unique column refuses a write (a broker id, a client id).
- An exception is a result: `Err`, `None`, `Raised` or a run status.
- Risk gates are arbitrary functions of how often they were asked and of the order, so results hold for any
  gate. The cost table is the one the code has, and raises on a price that is not positive.

## What the model found

Each is a lemma with the input, beside the exact condition under which the property holds.

- `tw_quant/execution/guardian.py:200-248` reads a position row and later writes it back. An exit reserved in between is
  lost and a second one can be granted (`GuardianRuns.StaleSynchronizationLosesReservation`). The write is safe
  exactly when the reservation read is still the one stored (`SyncWriteSafeIffFresh`).
- `tw_quant/market/sessions.py:27-46` dates a Friday night by Monday before midnight and by Saturday after it
  (`Sessions.NightDatesAgreeIff`), so a streamed daily bar of that Monday differs from the batch one
  (`StreamingLimits.FridayNightSplitsMonday`); they agree exactly when no bucket is entered twice.
- `tw_quant/live/api_routes/market.py:73-75` seeds such a daily stream with the latest minutes, and the seed keeps the Friday
  evening bar that pushing the same minutes would have closed (`StreamingLimits.FridayNightSeedsMonday`); seeding is pushing
  exactly when no bar of the last bucket precedes another bucket's (`SeedingIsPushingIff`).
- `tw_quant/execution/liquidator.py:29-64` leaves the strategy version out of the order id: of two open versions the second
  stays pending and is never liquidated (`LiquidatorRuns.SecondVersionIsStranded`, a contract roll in a run from an idle
  pipeline). All closing orders are accepted exactly when no two positions differ in the version only (`AllAcceptedIff`).
- `tw_quant/execution/simulated_broker.py:142-162` reserves nothing outside a bar: two immediate reduce-only orders of one time,
  published before one run, may flip a position (`ReduceOnlyRuns.TwoReductionsFlip`), exactly when together they exceed it
  (`ReducedTogether`). Orders of different times are decided and booked one after the other.
- `tw_quant/broker/repository.py:577-639` may derive other positions than the broker's from snapshots without issues: the
  comparison never looks at the side or contract of a fill (`StoredFills.FillSideIsNotCompared`), a corrected fill is
  stored as first reported (`CorrectedFillIsNotStored`), and a finished order may be missing from every snapshot with
  its fills (`FinishedOrdersMayBeAbsent`). They agree exactly when what the stored fills shift against their orders is
  what orders have filled beyond their stored fills (`DerivedPositionsAgreeIff`).
- `tw_quant/paper/repository.py:200-218` lets a pre-fill decision overwrite the approved quantity of an order row, which the
  broker's record keeps (`ApprovedQuantity.ApprovedQuantityAgreesIff`).
- `docs/order-lifecycle.md:42-43` and `tw_quant/execution/policy.py:8-14` ask for a return to neutral before the same direction
  may enter again; the code (`tw_quant/execution/simulator.py:117-126`) asks only that the intent differs from the previous
  row, so intents 1, -1, 1 arm long again without neutral (`Simulator.ReentersWithoutNeutral`). The rule holds exactly when
  no direction is left straight for the other and returned to (`ArmedIffNoTurnBack`).

## Model

| member | source | states |
|---|---|---|
| `Orders.ReplayIsMonotone` | tw_quant/broker/lifecycle.py:64-98 | After any sequence of lifecycle changes, legal or refused, an order is still a valid record of the same request; its update time and filled quantity never went back, a broker id once known is never lost, and a terminal order is exactly as it was. |
| `Orders.NeverBackToPreSubmit` | tw_quant/broker/lifecycle.py:14-61 | No sequence of changes takes an order back to CREATED or RISK_APPROVED, and none takes an order that has left SUBMITTING back to it. |
| `Orders.TransitionWrites` | tw_quant/broker/lifecycle.py:14-98 | A change is taken exactly when neither time nor fills go back and its status may be entered from the order's, or repeats it; the order then carries what the change says and keeps request and everything else, and a record that would not be valid is refused. |
| `LiveOrderRepository.Repository.Reserve` | tw_quant/broker/repository.py:184-251 | A known id of the same owner and account returns the stored order, of another owner or account is refused, and either way nothing changes; a new id adds one order and one pending submit row in one step. |
| `LiveOrderRepository.Repository.Update` | tw_quant/broker/repository.py:653-668 | Writes only the mutable columns, and writes nothing when another order already has the broker id. |
| `LiveOrderRepository.Repository.ClaimNext` | tw_quant/broker/repository.py:347-374 | Claims a pending submit row of the account with the earliest creation time, marks it processing and counts the attempt; None means that no row was claimable. |
| `LiveOrderRepository.Repository.FinishDispatch` | tw_quant/broker/repository.py:376-392 | Stores the broker's order and completes the row in one step, or changes nothing. |
| `LiveOrderRepository.Repository.BlockDispatch` | tw_quant/broker/repository.py:394-409 | Stores the refusal reason on the order and blocks its submit row in one step, or changes nothing. |
| `LiveOrderRepository.Repository.BlockPendingDispatches` | tw_quant/broker/repository.py:411-455 | Every pending submit and cancel row of the account is blocked with the reason, and every other row stays. |
| `LiveOrderRepository.Repository.ReserveCancel` | tw_quant/broker/repository.py:457-503 | A cancel of an unknown or foreign order, of one without a broker id, or against the lifecycle is refused; a terminal order, or one with a cancel already, is returned as it is; otherwise the order becomes CANCEL_PENDING and gets its only cancel row. |
| `LiveOrderRepository.Repository.ClaimNextCancel` | tw_quant/broker/repository.py:505-529 | The same as claiming a submission, for the cancel outbox. |
| `LiveOrderRepository.Repository.SaveReconciliation` | tw_quant/broker/repository.py:562-575 | Stores a refreshed order and, unless it is UNKNOWN, resolves its submit row if that is blocked; or changes nothing. |
| `LiveOrderRepository.Repository.RecoverInterruptedDispatches` | tw_quant/broker/repository.py:670-709 | At start every order with a row being processed in either outbox becomes UNKNOWN, with reason and time, keeps request, account, broker id and fills and is a candidate for reconciliation; its rows are blocked; every other order and row stays (`LiveTransactions.Recovered`). |
| `LiveOrderRepository.Manager.constructor` | tw_quant/broker/manager.py:17-30 | Opening the manager recovers interrupted rows exactly when asked to. |
| `LiveOrderRepository.Manager.DispatchOnce` | tw_quant/broker/manager.py:66-94 | One call claims at most one row, submits its request exactly when the gate admits it, and writes the refusal, the broker's legal answer or UNKNOWN; an answer that breaks the lifecycle leaves the row claimed. |
| `LiveOrderRepository.Manager.DispatchCancelOnce` | tw_quant/broker/manager.py:106-134 | The same for one cancel. |
| `LiveOrderRepository.Manager.RefreshOne` | tw_quant/broker/manager.py:147-158 | A refreshed order is saved only when the answer is legal; otherwise the tables stay. |
| `LiveOrderRepository.Manager.ReconcileBrokerOrders` | tw_quant/broker/manager.py:160-179 | Each order of the account, and of the owner when one is given, that may have reached the broker is refreshed and saved at most once with the time of its own answer, a failed refresh as UNKNOWN, and exactly all of them when the loop completes; the result is the sequence of those saves. |
| `LiveOrderRepository.DispatchIsARun` | tw_quant/broker/manager.py:66-94 | What an admitted `DispatchOnce` or `DispatchCancelOnce` does to tables and broker is one claim, gate, call and finish of the interleaved system. |
| `LiveOrderRepository.RefusedDispatchIsARun` | tw_quant/broker/manager.py:66-94 | A dispatch that the gate refuses is one claim and one refusal of that system, with no call; an idle one is the empty run. So what is proved of every run covers every dispatch. |
| `LiveOrderRepository.ReconcileIsARun` | tw_quant/broker/manager.py:160-179 | A reconciliation loop is a run of reconcile steps: it adds no broker call. |
| `LiveOrderRuns.StepKeepsInv` | tw_quant/broker/repository.py:184-709 | Every step of every process (create, claim, gate, call, finish, cancel, reconcile, block, recover, crash of any tasks) keeps the outbox invariant and moves rows only forward. |
| `LiveOrderRuns.RunKeepsInv` | tw_quant/broker/repository.py:184-709 | The invariant holds after any interleaving of steps from any state that has it. |
| `LiveOrderRuns.AtMostOnceSubmission` | tw_quant/broker/manager.py:66-134 | In every interleaving, with crashes and restarts anywhere, the broker sees at most one submit and at most one cancel for a client order id, each carrying the stored request. |
| `LiveOrderRuns.OneRowPerOrder` | tw_quant/broker/repository.py:184-251 | In every run each order has exactly one submit row, every cancel row belongs to an order, and no row is attempted more than once. |
| `LiveOrderRuns.NeverPendingAgain` | tw_quant/broker/repository.py:347-575 | Between any two points of a run: no order or row disappears, requests and accounts are fixed, attempts do not shrink, and a row that has left pending never returns to it. |
| `LiveOrderRuns.SettledWorkIsNeverSent` | tw_quant/broker/repository.py:394-455 | Once a row is neither pending nor held by a process that has yet to call, no later step of any kind makes the broker see that work, and earlier calls stay as they were. |
| `LiveOrderRuns.BlockedAtRestartIsNeverSent` | tw_quant/broker/repository.py:411-455 | An order pending when pending rows are blocked is never submitted, whatever follows. |
| `LiveTransactions.ReserveWrites` | tw_quant/broker/repository.py:184-251 | A new id gets an approved order without broker id and fills and a pending row never attempted, and nothing else changes; of a known id, who is refused and who gets the stored order. |
| `LiveTransactions.ClaimWrites` | tw_quant/broker/repository.py:347-374 | A claim makes its row processing and counts the attempt; account and creation time stay, and so does every other row and order. |
| `LiveTransactions.NextIsEarliest` | tw_quant/broker/repository.py:347-374 | The claimed row is pending, of the account, and none of those was created before it. |
| `LiveTransactions.FinishWrites` | tw_quant/broker/repository.py:376-392 | The row of a finished call is completed, or blocked when the order is UNKNOWN; the order takes every mutable column and keeps its request; a broker id that another order of the account has refuses both. |
| `LiveTransactions.BlockWrites` | tw_quant/broker/repository.py:394-409 | A refused dispatch leaves the order with the reason and time and its row blocked, or neither. |
| `LiveTransactions.ReconciledWrites` | tw_quant/broker/repository.py:562-575 | A refreshed order is stored, and its submit row resolved exactly when that was blocked and the order is no longer UNKNOWN. |
| `LiveTransactions.CancelWrites` | tw_quant/broker/repository.py:457-503 | A cancel gets its one row exactly when the order is of this owner and account, open, has a broker id and no cancel yet, and may become CANCEL_PENDING or already is; which error or stored order every other case gives, unchanged. |
| `LiveTransactions.BlockPendingWrites` | tw_quant/broker/repository.py:411-455 | Exactly the pending rows of the account are blocked, and exactly their orders carry the reason and time. |
| `LiveTransactions.RecoverWrites` | tw_quant/broker/repository.py:670-709 | What a restart writes to every order and row of both tables, stated column by column. |
| `LiveTransactions.RestartForgetsNothing` | tw_quant/broker/repository.py:670-709 | After any run, crash and restart no row is processing, and every order of a broker call whose result was not written is UNKNOWN and a candidate of its account's reconciliation. |
| `RecoveryLock.Repository.State` | tw_quant/broker/recovery.py:119-149 | Reading an unknown account creates a locked row; a known row is returned as it is. |
| `RecoveryLock.Repository.BeginAttempt` | tw_quant/broker/recovery.py:155-184 | Opens the next generation, reconciling, with no issue codes. |
| `RecoveryLock.Repository.Force` | tw_quant/broker/recovery.py:186-229 | Locks with the codes under a new generation. |
| `RecoveryLock.UniqueKeepsOrder` | tw_quant/broker/recovery.py:186-229 | Codes lose repetitions only: each stands where it first occurred. |
| `RecoveryLock.Repository.CompleteAttempt` | tw_quant/broker/recovery.py:231-269 | Only the attempt whose generation is current changes the lock, and it releases it exactly when it found no issue; a stale or invalid generation is refused and changes nothing. |
| `RecoveryLock.Repository.AssertReady` | tw_quant/broker/recovery.py:271-275 | Raises unless the stored row is READY. |
| `RecoveryRuns.ReadyIffReleased` | tw_quant/broker/reconciliation.py:124-186 | In every interleaving of reconcilers, forced locks and crashes: the lock is READY if and only if some attempt began, compared an agreeing snapshot and completed without issues, and nothing began or forced the lock after it began. |
| `RecoveryRuns.GenerationsNeverShrink` | tw_quant/broker/recovery.py:155-229 | Between any two points of a run, also with crashes, the stored generation of an account grows by exactly one for each begin and each forced lock, and its row never disappears. |
| `RecoveryRuns.OvertakenNeverReleases` | tw_quant/broker/reconciliation.py:124-186 | Once a later begin or force has happened, completing an older attempt, however late, changes neither lock nor history. |
| `Reconciliation.IndexBroker` | tw_quant/broker/reconciliation.py:188-268 | Reports a missing broker id, and a repeated one with that id, exactly when the snapshot has them, and indexes the last snapshot of each id. |
| `Reconciliation.LocalIssues` | tw_quant/broker/reconciliation.py:188-268 | Reports an UNKNOWN local order without broker id, and each open one missing at the broker by its id, exactly when there is one. |
| `Reconciliation.OrderIssues` | tw_quant/broker/reconciliation.py:188-268 | Reports, by id, each broker order that no local order has, or whose status or filled quantity differs, and no other. |
| `Reconciliation.FillIssues` | tw_quant/broker/reconciliation.py:270-302 | Reports, by order id, each repeated fill id, each orphan fill and each order whose fills do not sum to its quantity, and no other. |
| `Reconciliation.PositionIssues` | tw_quant/broker/reconciliation.py:304-328 | Reports exactly the contracts whose local net differs from the broker's, also contracts only one side knows. |
| `Reconciliation.IdentityIssues` | tw_quant/broker/reconciliation.py:188-268 | Reports another broker or another account exactly when the snapshot is of one. |
| `Reconciliation.Issues` | tw_quant/broker/reconciliation.py:188-328 | An issue is in the list if and only if the disagreement of its code exists for the broker order or contract it names, or for none where the code names none; so each of the thirteen codes is reported exactly when its disagreement exists. |
| `Reconciliation.NoIssueIffAgreement` | tw_quant/broker/reconciliation.py:188-328 | With distinct local broker ids, nothing is reported if and only if the three sides agree: identity, distinct mirrored orders, no lost open or unidentified UNKNOWN order, distinct attributed fills summing to each order, equal nets per contract. |
| `StoredFills.LiveFills.ApplyReconciledSnapshot` | tw_quant/broker/repository.py:577-639 | Stores the first report of each fill id and sums every owner and contract again, so that the position rows are the nets of all stored fills; another account or a fill of no known order is refused and changes nothing. |
| `StoredFills.StoresFirstReports` | tw_quant/broker/repository.py:577-639 | Over any run of snapshots without issues every one is stored, and the table holds the first report of each fill id and nothing else. |
| `StoredFills.OwnersTogether` | tw_quant/broker/repository.py:577-639 | The rows of all owners together hold the net of all stored fills of a contract. |
| `StoredFills.DerivedPositionsAgreeIff` | tw_quant/broker/repository.py:577-639 | After a comparison without issues, whatever was stored before: the position rows of a contract hold the broker's position if and only if what the stored fills book beyond their orders' side and contract equals what the orders have filled beyond their stored fills. |
| `StoredFills.DerivedPositionsAgree` | tw_quant/broker/repository.py:577-639 | In particular they do over any run in which a fill id keeps naming the same fill, fills follow their orders, and every order was once listed with all fills ever reported of it. |
| `StoredFills.FillSideIsNotCompared` | tw_quant/broker/reconciliation.py:270-302 | First way it fails: one fill with the wrong side leaves no issue, while fills say short and position says long. |
| `StoredFills.CorrectedFillIsNotStored` | tw_quant/broker/repository.py:595-608 | Second way: a fill that a later snapshot corrects is stored uncorrected, although every fill of that snapshot follows its order. |
| `StoredFills.FinishedOrdersMayBeAbsent` | tw_quant/broker/reconciliation.py:188-268 | Third way: a finished order that no snapshot listed with its fill leaves no issue, while no stored fill says what the position holds. |
| `PositionGuardian.Repository.Flatten` | tw_quant/broker/guardian_repository.py:145-164 | A known position becomes flat without any exit reservation; an unknown one is an error. |
| `PositionGuardian.Repository.Reserve` | tw_quant/broker/guardian_repository.py:181-220 | Grants the exit only to a known position that is not flat and has none; with one outstanding only a reason of higher priority is noted, for later. |
| `PositionGuardian.Repository.Release` | tw_quant/broker/guardian_repository.py:222-240 | Clears the reservation only when it is for that very exit. |
| `PositionGuardian.Repository.MarkExitUnknown` | tw_quant/broker/guardian_repository.py:257-277 | Marks the position whose outstanding exit has that id, or nothing. |
| `GuardianRows.ReserveWrites` | tw_quant/broker/guardian_repository.py:181-220 | Which exits are granted, which reason is noted because it outranks the outstanding one's (emergency, stop, target, strategy, then roll and session end), and that the position itself stays. |
| `GuardianRows.RebuildWrites` | tw_quant/execution/guardian.py:175-248 | A synchronized position is protected in full, with the stop on the losing side and the target on the winning side at the given distances; another quantity or average starts the next generation; its reservation is kept, unknown, locked without an order, or dropped, as the stored exit order says. |
| `PositionGuardian.OpenPosition` | tw_quant/execution/guardian.py:59-78 | The loop over fills computes the average-cost fold, and raises exactly where the fold does. |
| `PositionGuardian.Guardian.RequestExit` | tw_quant/execution/guardian.py:323-397 | Reserves, then creates the order: with an exit outstanding nothing is reserved and no other order is created; a refused order releases the reservation and leaves the position active. |
| `GuardianRuns.EachExitSubmittedAtMostOnce` | tw_quant/execution/guardian.py:54-56 | In every run of guardian, dispatchers and crashes, an exit of one position, generation and reason reaches the broker at most once. |
| `GuardianRuns.OtherStepsKeepOne` | tw_quant/execution/guardian.py:323-397 | Every step but a synchronization's write keeps outstanding reservations equal to the exits the rows name, so at most one a position. |
| `GuardianRuns.SyncWriteSafeIffFresh` | tw_quant/execution/guardian.py:200-248 | A synchronization's write keeps that if and only if the row still holds the reservation that was read, or neither holds one. |
| `GuardianRuns.AtMostOneOutstandingExit` | tw_quant/execution/guardian.py:200-248 | In such runs two outstanding exits of one position are the same exit, the one its row names. |
| `GuardianRuns.ReservationEndsOnlyBy` | tw_quant/execution/guardian.py:200-397 | In every fresh run a step ends a reservation if and only if the position was seen flat, the order of this exit was refused or failed, or a synchronization that had read this very exit as terminal is written. |
| `GuardianRuns.NewOnlyAfterEnded` | tw_quant/execution/guardian.py:200-397 | So between holding one exit and holding another, or none, over any stretch of a fresh run, one of these steps ended the first. |
| `GuardianRuns.CrashInTheGapLocks` | tw_quant/execution/guardian.py:200-218 | After a crash between reservation and order, over any later fresh run in which the position is not seen flat: the reservation stays, its order is never submitted, and every synchronization of that position writes LOCKED. |
| `GuardianRuns.StaleSynchronizationLosesReservation` | tw_quant/execution/guardian.py:152-248 | The atomicity that would make freshness unnecessary is missing: from any state with a pending synchronization that read no exit there is a run in which two exits of one position are both outstanding with live orders. |
| `GuardianRuns.StaleStateIsReachable` | tw_quant/execution/guardian.py:152-248 | Such a state is reached from the start for every position. |
| `CanaryGate.ArmRepository.constructor` | tw_quant/broker/canary_repository.py:16-71 | A clearing start drops every ARM; any other keeps what is stored. |
| `CanaryGate.ArmRepository.ArmSession` | tw_quant/broker/canary_repository.py:131-159 | The new ARM replaces all ARMs of its owner; an id that another owner holds is refused; an owner has at most one. |
| `CanaryGate.ArmRepository.Active` | tw_quant/broker/canary_repository.py:161-186 | Returns the owner's ARM for account and target only while unexpired, and deletes an expired one. |
| `CanaryGate.ArmRepository.Disarm` | tw_quant/broker/canary_repository.py:188-207 | Deletes the owner's ARM for the account and says whether there was one. |
| `CanaryGate.HeldIsUnique` | tw_quant/broker/canary_repository.py:56-69 | An owner's ARM for an account is the only one a lookup can find. |
| `CanaryRuns.SubmissionsAreArmed` | tw_quant/broker/canary.py:120-174 | In every run under the gate each submission was admitted after its claim with every condition met, and was then either a reduce-only guardian exit or carried the id of its owner's unexpired ARM for the order's own account, armed after the last clearing start and not disarmed, expired or replaced since (an automatic one with a live_auto ARM). |
| `CanaryRuns.AdmittedIff` | tw_quant/broker/canary.py:120-174 | In every run a claimed order that reaches the gate is admitted if and only if: it is for the gate's account, of an allowed source, the gate is enabled, owner, account, symbol and contract are listed, the quantity is from one to the limit, recovery is ready, the connection and the certificate are, no order is unknown, a reduce-only order closes no more than the broker's position, no kill switch blocks it, and its owner's ARM is standing and covers it; guardian exits need neither of the last two. |
| `CanaryRuns.DecideIff` | tw_quant/broker/canary.py:46-174 | The decision is no refusal exactly under those conditions, and every refusal names one that fails. |
| `CanaryRuns.RetiredArmNeverAdmits` | tw_quant/broker/canary_repository.py:131-207 | After re-arm, disarm, expiry or restart no order carrying the old ARM is ever admitted again. |
| `EventEngine.DeterministicEventEngine.PublishEvent` | tw_quant/events/engine.py:60-73 | A known id only counts as a duplicate, an event before the clock raises, and any other is queued by time and then enqueue number. |
| `EventEngine.DeterministicEventEngine.Emit` | tw_quant/events/engine.py:92-102 | Publishes emitted events in order and raises at the first that precedes its cause. |
| `EventEngine.DeterministicEventEngine.Handle` | tw_quant/events/engine.py:92-102 | Runs the handlers of an event in subscription order, stopping where one raises. |
| `EventEngine.DeterministicEventEngine.Run` | tw_quant/events/engine.py:75-107 | Terminates after at most `max_events` events, for any handlers; when it returns normally the queue is empty. |
| `EngineOrder.RunKeepsInv` | tw_quant/events/engine.py:75-107 | One run from any consistent engine, with any handlers: ends consistent, only extends the history, by at most the limit, and never finds the clock moving backwards. |
| `EngineOrder.HistoryIsOrdered` | tw_quant/events/engine.py:60-107 | Over any program of publishes and runs with any handlers, the history strictly increases in time and then enqueue number, its ids are distinct, and queued and processed ids are disjoint. |
| `EngineOrder.AcceptedProcessedOnce` | tw_quant/events/engine.py:60-107 | Whenever the queue is empty, every event ever accepted has been processed exactly once. |
| `PositionLedger.PositionLedger.OnFill` | tw_quant/execution/position_ledger.py:160-264 | A fill seen before changes nothing and one without owner raises after its id is remembered; otherwise the position is added to, reduced, closed or reversed, and the position event is emitted. |
| `PositionLedger.PositionLedger.Close` | tw_quant/execution/position_ledger.py:183-262 | Books one trade (`LedgerTrades.Books` says which) and releases the closed share of the entry costs, or restarts the entry side with the rest of the fill. |
| `PositionLedger.PositionLedger.MarkToMarket` | tw_quant/execution/position_ledger.py:266-274 | Emits one position event for each open position of the contract, in the order the keys were first seen. |
| `LedgerAccounts.Conservation` | tw_quant/execution/position_ledger.py:104-114 | After any valid fills (adds, partial closes, reversals, repeats) and at any mark: realized plus unrealized equals cash flow plus position value minus all costs; costs on trades plus those still open equal those on fills; twice the traded quantity plus the absolute position equals the filled quantity; realized equals the trades' net. |
| `LedgerTrades.TradesOf` | tw_quant/execution/position_ledger.py:183-262 | Over any fills: a fill that is against its key's net books one trade of the smaller quantity, for the side held, since the fill that brought the net to that side, at average and fill price, net of its exact shares of entry and fill costs; any other fill books none. |
| `LedgerTrades.FillShows` | tw_quant/execution/position_ledger.py:160-264 | A counted fill is answered with its key's net, costs and, at the fill's price, realized plus unrealized equal to cash flow plus position value minus costs; a repeated one with nothing, one without owner with an exception. |
| `LedgerTrades.BarMarks` | tw_quant/execution/position_ledger.py:266-274 | A bar marks exactly the keys of its symbol and contract with a net, each with that equation at the bar's close. |
| `LedgerAccounts.RepeatsChangeNothing` | tw_quant/execution/position_ledger.py:160-182 | A fill id seen before changes nothing in the book. |
| `LedgerAccounts.GuardianAgrees` | tw_quant/execution/guardian.py:59-78 | The guardian's fold succeeds if and only if the ledger never crosses zero inside one fill, and then both have the same quantity and average. |
| `SimulatedBroker.Broker.OnOrder` | tw_quant/execution/simulated_broker.py:65-74 | A new order waits for its risk decision; a repeated order id changes nothing; unsupported timing raises. |
| `SimulatedBroker.Broker.OnRiskDecision` | tw_quant/execution/simulated_broker.py:186-234 | An unknown order, or an approval for more than was asked, raises, and an order already decided is left alone; a refusal rejects; an approval waits for the next bar or fills at once at close or signal price, a reduce-only order for no more than the position holds. |
| `SimulatedBroker.Broker.OnBar` | tw_quant/execution/simulated_broker.py:236-325 | Rejects orders of a rolled contract, then takes each due order in the order they were placed; `DeskRows.BarDecides` says what becomes of each and `FillPrices.OnBarPays` at what price. |
| `SimulatedBroker.Broker.FillDue` | tw_quant/execution/simulated_broker.py:254-325 | The loop over due orders, one outcome each, stopping where pricing raises. |
| `SimulatedBroker.Broker.OnDue` | tw_quant/execution/simulated_broker.py:259-322 | One due order: reduce-only within what is left of the position, automatic entry through the pre-fill gate, any other filled. |
| `SimulatedBroker.Broker.OnDueEntry` | tw_quant/execution/simulated_broker.py:268-294 | An automatic entry is asked again at its expected price and rejected when there is no gate or the gate refuses. |
| `SimulatedBroker.Broker.OnSession` | tw_quant/execution/simulated_broker.py:339-358 | A closing session rejects the waiting orders of its contract; any other session does nothing. |
| `DeskRows.OrderWrites` | tw_quant/execution/simulated_broker.py:65-74 | A new order is listed last, waiting for its decision with nothing approved; a known one, or one without owner, changes nothing. |
| `DeskRows.DecisionWrites` | tw_quant/execution/simulated_broker.py:186-234 | What a decision makes of each record: only a waiting one changes; a refusal keeps its reason; an approval beyond the request raises; an approved order waits for a bar, or is filled at once for the approved quantity, a reduction for no more than the position, or rejected when nothing is left to reduce. |
| `DeskRows.BarDecides` | tw_quant/execution/simulated_broker.py:236-325 | What a bar that does not raise makes of every order: nothing unless it is approved, waits for a bar of the symbol and was placed before it; a rejection when the bar is of another contract; otherwise its end: filled in full, a reduction in part or rejected, an automatic entry as the gate answers for the open after slippage. Each end is told by an event. |
| `DeskRows.SessionClears` | tw_quant/execution/simulated_broker.py:339-358 | A closing session rejects exactly the approved orders that wait for a bar of its contract. |
| `DeskRows.RunLists` | tw_quant/execution/simulated_broker.py:65-358 | Over any calls every order is listed exactly once, which is what those lemmas start from. |
| `FillPrices.FillEventPays` | tw_quant/execution/simulated_broker.py:76-140 | A fill's price is the raw price plus slippage when buying and minus it when selling, its commission is by contract, and its tax the nearest integer to value times rate, ties to even; there is none exactly when that price is not positive or the quantity zero. |
| `FillPrices.OnBarPays` | tw_quant/execution/simulated_broker.py:236-325 | Every fill of a bar is paid for so at the bar's open, and the bar's close becomes the contract's price. |
| `FillPrices.OnDecisionPays` | tw_quant/execution/simulated_broker.py:186-234 | A fill at once is paid for so at the contract's last price when it is to fill at the close, otherwise at the order's reference price, and at that only where allowed. |
| `BrokerRuns.FillsAtMostOnce` | tw_quant/execution/simulated_broker.py:65-358 | Over any calls, with any ledger at each: an order fills at most once, for at most its approved quantity, which is at most what was asked; the fill carries its key, side and purpose; and an order that waits for the next open fills only on a strictly later bar. |
| `BrokerRuns.SettledStays` | tw_quant/execution/simulated_broker.py:65-358 | A rejected or filled order stays exactly as it is, whatever calls follow. |
| `ReduceOnly.BarNeverOvercloses` | tw_quant/execution/simulated_broker.py:254-325 | The reduce-only fills one bar emits for a position are all on its closing side and sum to at most the position. |
| `ReduceOnly.BarNeverFlips` | tw_quant/execution/simulated_broker.py:254-325 | If no other fill of the bar touches the position, applying the bar's fills to the ledger leaves it between where it was and flat. |
| `ReduceOnly.TwoImmediateReductions` | tw_quant/execution/simulated_broker.py:142-162 | Outside a bar nothing is reserved: of two immediate reduce-only decisions on one book, both answered by a fill, the fills leave the position on its side if and only if the approved quantities fit it together. |
| `ReduceOnlyRuns.ReducedTogether` | tw_quant/execution/simulated_broker.py:142-234 | And the pipeline does decide both first: two such intents of one position and one time, published before one run, are checked, decided and filled in eight events, and the run ends idle with the position on its side or flat if and only if their quantities fit it together. |
| `ReduceOnlyRuns.TwoReductionsFlip` | tw_quant/execution/simulated_broker.py:142-234 | From an idle pipeline: after a first bar two bought orders make a long position of two, and two reduce-only orders of two each at one time leave it short of two. |
| `Pipeline.PositionLiquidator.Intents` | tw_quant/execution/liquidator.py:66-78 | Each open target position that is not pending and has no reduce-only order waiting becomes pending and gets one closing order for all of it. |
| `Pipeline.PositionLiquidator.OnFill` | tw_quant/execution/liquidator.py:104-118 | Only a liquidation fill of the key stops it being pending. |
| `PipelineOrders.SignalAsks` | tw_quant/execution/signal_router.py:37-81 | An entry signal asks for the configured quantity on its side; an exit signal for exactly what brings its position to zero, for nothing when flat, and is refused against the other direction. |
| `PipelineOrders.ClosesWhatItShould` | tw_quant/execution/liquidator.py:29-102 | A roll or session end orders closed, to zero and at the current close, exactly the open positions it concerns that have no liquidation pending and no reduction under way, and exactly those become pending. |
| `LiquidatorRuns.LiquidatesEachOnce` | tw_quant/execution/liquidator.py:66-118 | One event makes orders for exactly the positions picked, once each and in order, and marks exactly those as pending. |
| `LiquidatorRuns.PendingBlocks` | tw_quant/execution/liquidator.py:66-118 | Over any run of events that may liquidate and fills, on any desks and books: a position ordered closed twice had a liquidation fill of its own in between. |
| `LiquidatorRuns.LiquidationIdsDistinctIff` | tw_quant/execution/liquidator.py:29-64 | Two of these orders share their id if and only if the positions differ in the strategy version only. |
| `LiquidatorRuns.AllAcceptedIff` | tw_quant/execution/liquidator.py:29-118 | The engine accepts the closing orders of all picked positions if and only if no two of them differ in the strategy version only. |
| `LiquidatorRuns.StrandedIff` | tw_quant/execution/liquidator.py:29-118 | A picked position is marked pending while its order is dropped if and only if an earlier picked one differs from it in the version only. |
| `LiquidatorRuns.SecondVersionIsStranded` | tw_quant/execution/liquidator.py:29-64 | A run from an idle pipeline: after a first bar two versions buy one each, a bar of the next contract closes the first, and the second stays open and pending with no order; from then on no bar or session orders anything. |
| `Simulator.SimulateSignals` | tw_quant/execution/simulator.py:74-134 | Entries at the open after the first new intent seen while flat; exits at the open after a flag, at a stop or target, or forced at the last close; alternating, in row order, and none missing. |
| `Simulator.FillsAtOpen` | tw_quant/execution/simulator.py:75-97 | The start of a row: a flagged exit, then a waiting entry, both at the open. |
| `Simulator.EndsRow` | tw_quant/execution/simulator.py:99-129 | The rest of a row: stop or target, the exit flag, and an intent that differs from the row before. |
| `Simulator.SimulationIsDetermined` | tw_quant/execution/simulator.py:74-134 | That description leaves no choice: any two lists of signals meeting it are equal. |
| `SignalLevels.SignalsAre` | tw_quant/execution/simulator.py:74-134 | Each signal with its levels and price spelled out: stop and target at the configured shares below and above the entry, mirrored when short; a stop at the worse of open and level and before any target, a target at the better of both and only without a stop; on no earlier row was either reached. |
| `Simulator.ArmedIffNoTurnBack` | tw_quant/execution/policy.py:8-14 | The documented rule, that a direction must come back through neutral before it is armed again, holds for a series of intents if and only if no direction is left straight for the other and returned to with no neutral row between. |
| `Simulator.EntriesCameThroughNeutral` | tw_quant/execution/simulator.py:74-134 | On a series without such a turn, any two entries of one direction have a neutral row between their intents. |
| `Simulator.ReentersWithoutNeutral` | tw_quant/execution/simulator.py:117-126 | On intents 1, -1, 1 every simulation with an exit flag on the second row enters long, leaves and enters long again, with no neutral row between. |
| `HistoricalRun.PairingAt` | tw_quant/backtest/event_runner.py:189-253 | The direct pairing: half as many trades as signals, trade i made from signals 2i and 2i+1. |
| `HistoricalRun.SignalRuns` | tw_quant/backtest/event_runner.py:171-185 | A signal fed to an idle engine leads in exactly five events through router, gate, broker and ledger to one booked fill. |
| `HistoricalPairing.EntryOpens` | tw_quant/execution/position_ledger.py:183-262 | An entry opens the position at its slipped price with its costs and books no trade. |
| `HistoricalPairing.ExitBooksPair` | tw_quant/execution/position_ledger.py:183-262 | The exit closes it exactly and books one trade with the prices, costs and times of that entry and that exit. |
| `HistoricalPairing.SignalFed` | tw_quant/backtest/event_runner.py:171-185 | Each signal in turn takes the pipeline from the pairing of k signals to that of k+1. |
| `HistoricalPairing.SignalFedAgain` | tw_quant/backtest/event_runner.py:171-185 | A signal fed again (bars sharing a time) changes nothing. |
| `HistoricalPairing.BarFed` | tw_quant/backtest/event_runner.py:171-185 | A bar changes no order, position or trade. |
| `HistoricalPairing.Replay.Feed` | tw_quant/backtest/event_runner.py:171-185 | Publishes one event and runs the installed pipeline until idle, or reports that something raised. |
| `HistoricalPairing.RunHistoricalEvents` | tw_quant/backtest/event_runner.py:129-192 | For bars in time order, and signals that alternate, come in order, align with bars and have positive prices: the trades of the whole event pipeline are the direct pairing, each with the prices and costs of `PairingIsMade`; a result is given only if every signal aligns with a bar. |
| `HistoricalPairing.PairingIsMade` | tw_quant/backtest/event_runner.py:189-253 | Trade i spelled out: slippage is paid on entry and exit, gross is the move between both on the position, commission is two sides, tax the nearest integers to both values times rate, net what is left; with the times, direction and reason of its two signals. |
| `HistoricalPairing.SimulatedSignalsFit` | tw_quant/backtest/event_runner.py:164-187 | What the simulator makes from those bars comes in order and aligns with them. |
| `SimulatedBacktest.Backtest` | tw_quant/backtest/runner.py:50-68 | End to end: for groups of bars in time order that trade above the slippage and a valid risk setting, simulating every group and replaying all signals against all bars gives exactly the direct pairing, with every position closed. |
| `HistoricalPairing.ReportPairsByIndex` | tw_quant/backtest/event_runner.py:189-194 | Looking up entry i and exit i for trade i finds the two signals it was made from. |
| `PaperReadModel.PaperRepository.AppendEvents` | tw_quant/paper/repository.py:385-413 | Stores the owned events not stored before, in order, and leaves the tables equal to the projection of the whole log. |
| `PaperReadModel.PaperRepository.SyncReadModels` | tw_quant/paper/repository.py:117-147 | Projects exactly the rows stored since the last time. |
| `PaperReadModel.PaperRepository.Reopen` | tw_quant/paper/repository.py:21-33 | Opening the database again changes nothing. |
| `PaperReadModel.AppendAll` | tw_quant/paper/repository.py:385-413 | Any batching stores the log of one batch with all the events. |
| `PaperReadModel.InsertTwice` | tw_quant/paper/repository.py:385-413 | Storing twice in turn is storing the concatenation. |
| `PaperReadModel.ResendingChangesNothing` | tw_quant/paper/repository.py:385-413 | Events stored before can be sent again without effect. |
| `PaperTables.PositionRows` | tw_quant/paper/repository.py:258-327 | A position row is what the last event of its key shows, open since the position came to its side. |
| `PaperTables.FillRows` | tw_quant/paper/repository.py:231-246 | A fill has a row if and only if it was logged, as last logged. |
| `ReadModelCells.RowsAreFolds` | tw_quant/paper/repository.py:149-327 | Every row of the order and position tables is the fold of the log over the events that concern that row alone. |
| `ReadModelCells.PublishMovesAhead` | tw_quant/events/engine.py:60-73 | An event accepted by the engine counts for its row after everything already waiting for that row, although the queue is ordered by time. |
| `BrokerOutputs.OnBarEmits` | tw_quant/execution/simulated_broker.py:236-325 | The events a bar emits, folded over each order's row, show exactly the broker's new record of that order. |
| `BrokerOutputs.ExecuteEmits` | tw_quant/execution/simulated_broker.py:186-234 | The same for an immediate execution. |
| `BrokerOutputs.RejectWaitingEmits` | tw_quant/execution/simulated_broker.py:339-358 | The same for orders rejected by a session or a roll. |
| `ReadModelPublishing.ReportsLinked` | tw_quant/events/engine.py:92-102 | Publishing what the broker emitted keeps rows-to-be equal to records. |
| `ReadModelAgrees.StepLinked` | tw_quant/execution/pipeline.py:42-69 | One processed event of any kind, through all its handlers, keeps the tables-to-be linked to broker and ledger. |
| `ReadModelAgrees.RunLinked` | tw_quant/events/engine.py:75-107 | So does a whole run, also one stopped by the event limit. |
| `ReadModelAgrees.SessionLinked` | tw_quant/execution/pipeline.py:42-69 | So does any session of feeds, runs and price updates that does not raise. |
| `ReadModelAgrees.TablesAgree` | tw_quant/paper/repository.py:117-327 | When the queue is empty after any such session, every order row shows the broker's stage, reason and fill id, every position row the ledger's quantity, average, realized profit and costs, and no other row exists. |
| `ApprovedQuantity.ApprovedQuantityAgreesIff` | tw_quant/paper/repository.py:200-218 | The approved quantity of a row goes its own way: of a due order whose row shows the broker's quantity, it still does after the bar's reports if and only if the pre-fill gate was not asked about it or answered with that very quantity. |
| `Sessions.NextTradingDay` | tw_quant/market/sessions.py:17-21 | Terminates for any finite holidays and returns the least later weekday that is not a holiday. |
| `Sessions.SessionIs` | tw_quant/market/sessions.py:27-46 | Which times belong to the day session, to the night of their own date or to the night of the next trading day, boundaries included, and which to none. |
| `Sessions.NightDatesAgreeIff` | tw_quant/market/sessions.py:27-46 | The two halves of a night session get the same trading date if and only if the day after its evening is a trading day. |
| `MinuteBars.GapBars` | tw_quant/live/aggregator.py:75-104 | Terminates and inserts, in order, exactly the in-session minutes between bar and tick before the first one of another session or trading date, each flat at the last close with no volume. |
| `MinuteBars.MinuteBarAggregator.Remember` | tw_quant/live/aggregator.py:44-51 | A key is new unless remembered; the oldest is dropped beyond the capacity. |
| `MinuteBars.MinuteBarAggregator.Process` | tw_quant/live/aggregator.py:106-144 | Refuses another symbol and times outside sessions, drops duplicates and late ticks, updates the bar, or closes it, fills the gap and starts the next. |
| `BarFacts.NewBarShows` | tw_quant/live/aggregator.py:106-144 | The first bar of a minute shows its one tick in its session; outside sessions there is none. |
| `BarFacts.GapsAreFlat` | tw_quant/live/aggregator.py:75-104 | Gap bars are closed, flat at the close before them, without volume, and marked as no trade. |
| `BarFacts.UpdateDescribes` | tw_quant/live/aggregator.py:128-144 | The current bar stays the earliest price, maximum, minimum, latest price and total volume of its ticks. |
| `BarFacts.ArrivalOrderDoesNotMatter` | tw_quant/live/aggregator.py:128-144 | With distinct exchange times, two arrival orders of the same ticks give the same open, high, low, close and volume. |
| `BarFacts.BarsAccountForTicks` | tw_quant/live/aggregator.py:44-144 | Over any run of ticks, closes and restarts, across contract switches: closed volume plus the current bar's equals the volume of all ticks that were neither duplicate nor late, the current bar describes its ticks, and a tick is a duplicate if and only if its key is among the last ones remembered since the restart. |
| `Timeframes.AggregateKBars` | tw_quant/market/timeframes.py:97-110 | Sorts by time, groups by bucket in order of first sight and aggregates each group; `BarAggregates.BatchDescribes` says what each bar shows. |
| `Timeframes.TimeframeStreamAggregator.constructor` | tw_quant/market/timeframes.py:125-136 | Seeding keeps the last bucket of the sorted seed. |
| `Timeframes.TimeframeStreamAggregator.Push` | tw_quant/market/timeframes.py:138-151 | An update of a minute replaces it; a bar of another bucket closes the current one; the forming bar is emitted last; `BarAggregates.PushShows` says what each shows. |
| `BarAggregates.SameBucketIff` | tw_quant/market/timeframes.py:46-68 | Two bars are of one bucket exactly when contract and trading date, week, or session, date and slot of 5 to 60 minutes from the session's opening are the same. |
| `BarAggregates.AggregateSums` | tw_quant/market/timeframes.py:71-94 | A larger bar's high and low are the greatest and least of its sources and reached by one, open and close those of the earliest and latest, volume the sum, first and last tick the least and greatest; it is no-trade when all are. |
| `BarAggregates.BatchDescribes` | tw_quant/market/timeframes.py:97-110 | The batch has one bar for each bucket there is; each so describes exactly the bars of its bucket, and is forming when one of them is. |
| `BarAggregates.PushShows` | tw_quant/market/timeframes.py:138-151 | Each bar a push emits so describes the last version of each minute of its bucket, the closed one of the bucket left, the forming one of the bucket entered. |
| `StreamingBars.StreamingIsBatch` | tw_quant/market/timeframes.py:122-151 | For pushes in bucket order with repeated updates, the closed bars emitted plus the last forming one equal the batch over the last version of each minute, in every field but status. |
| `StreamingLimits.StreamingIsBatchIff` | tw_quant/market/timeframes.py:97-151 | For bars in time order that holds if and only if no bucket is left and entered again. |
| `StreamingLimits.SeedingIsPushing` | tw_quant/market/timeframes.py:125-151 | When all bars of the last bucket come after all bars of other buckets, seeding and then pushing ends in the same state as pushing everything. |
| `StreamingLimits.SeedingIsPushingIff` | tw_quant/market/timeframes.py:122-151 | For a seed of distinct minutes, seeding and pushing agree on every continuation if and only if no bar of the last bucket precedes a bar of another bucket. |
| `StreamingLimits.FridayNightSeedsMonday` | tw_quant/live/api_routes/market.py:73-75 | The seed taken for daily bars across a Friday night breaks it: seeding keeps Friday evening's bar in Monday's source, pushing drops it. |
| `StreamingLimits.IntradayAgrees` | tw_quant/market/timeframes.py:46-68 | For intervals up to an hour, one contract and bars dated by the calendar, buckets are never entered again, so streaming and batch always agree. |
| `StreamingLimits.FridayNightSplitsMonday` | tw_quant/market/timeframes.py:54-68 | For days it fails: the evening of a Friday night session belongs to Monday, its morning to Saturday, so Monday's bucket is entered twice. |
| `RateLimit.SlidingWindowRateLimiter.Check` | tw_quant/live/rate_limit.py:54-88 | Touches the key, drops expired times, admits below the limit, and says how long to wait. |
| `RateLimitRuns.AnyWindowBound` | tw_quant/live/rate_limit.py:54-88 | With a monotone clock, every half-open interval of one window's length holds at most `limit` admitted calls of a key since its window was created, and never more than `max_keys` keys are tracked. |
| `RateLimitRuns.AdmittedIff` | tw_quant/live/rate_limit.py:54-88 | A call is admitted if and only if the window ending now holds fewer than `limit` admitted calls. |
| `RateLimitRuns.RetryIsAdmitted` | tw_quant/live/rate_limit.py:66-76 | A caller that waits `retry_after` and makes no call meanwhile is admitted, whatever other keys do. |
| `RateLimitRuns.DecisionTells` | tw_quant/live/rate_limit.py:66-88 | A decision tells the limit, what is left of it, and the least whole number of seconds, at least one, after which the oldest call has left the window. |
| `RateLimitRuns.NoSoonerThanTold` | tw_quant/live/rate_limit.py:66-76 | A refused caller that tries again a second or more before it was told is refused again. |
| `RateLimitRuns.SurvivesFewOthers` | tw_quant/live/rate_limit.py:58-65 | A key is dropped only after at least `max_keys` other keys have been used since. |
| `BacktestDay.RunDay` | tw_quant/engine.py:80-223 | Every trade is entered for a signal at the first bar it may be and with money for it, closed the first way that applies, and no due signal is missed; `BacktestTrades.TradesAreAccounted` spells out prices, reasons and profit. |
| `BacktestDay.OpenOfBar` | tw_quant/engine.py:105-159 | The start of a bar: a flagged exit at the open, then the waiting entry. |
| `BacktestDay.RestOfBar` | tw_quant/engine.py:161-206 | The rest: forced exit, stop or target, the exit flag, a new signal. |
| `BacktestTrades.TradesAreAccounted` | tw_quant/engine.py:80-300 | Each trade: filled by the cost model on its sides; net is the move on the position minus commission and tax of both orders; closed by a flag, the forced exit, a stop at the worse of open and level, a target at the better only without a stop, or at the end; held before over rows on which none applies; a long entry for money that is there. |
| `BacktestDay.TradesAreOrdered` | tw_quant/engine.py:80-223 | Trades are disjoint and in order, at most `max_trades_per_day`, each entered strictly after its signal bar and before the forced exit time, and held over no bar at or after it. |
| `BacktestDay.EntersOnNextBar` | tw_quant/engine.py:105-159 | On bars in time order every entry is on the bar right after its signal. |
| `BacktestDay.DayIsDetermined` | tw_quant/engine.py:80-223 | Any two lists of trades that explain themselves and miss nothing are equal. |

## Left out

- SQL text, migrations, JSON, files, database locks and WAL: each table is a map, each transaction one step.
- The transaction left open when `reserve_cancel` raises on an UNKNOWN order (`tw_quant/broker/repository.py:457-503`): the model
  refuses that cancel and changes nothing.
- Shioaji clients, callbacks, secrets, settings and HTTP routes: foreign calls and plumbing.
- The loops in `tw_quant/broker/worker.py`: scheduling only; `LiveOrderManager` stands for dispatch.
- `LiveOrderManager.reconcile` on an order of the caller's choice, and two refreshes of one order racing between read and
  save: a refresh and its save are one step.
- `StoredFills.DerivedPositionsAgreeIff`: the order table that comparison and storing read is the same one, one account at
  a time; fill prices and times are not modelled.
- Rows of a version without a target account, the live-mode check of `reserve`, and the check
  that routed objects have the right Python type.
- The loop of `LivePositionGuardian.synchronize` that groups fills and compares totals with the broker's positions: a
  synchronization step takes any quantity and average for one position. Quotes, working entries and kill switches are
  reasons to ask for an exit, and any exit may be asked for at any time.
- The guardian's tolerance of 1e-9 between two averages: averages are exact.
- Retrying an exit: a second exit of the same position, generation and reason has the same order id by design.
- `GuardianRuns.AtMostOneOutstandingExit`: requires fresh synchronization writes, because without them it is false
  (see above).
- `GuardianRuns.ReservationEndsOnlyBy`: speaks of fresh runs for the same reason; a stale write may drop any reservation.
- `CanaryRuns.RetiredArmNeverAdmits`: takes ARM ids as never issued twice, as random ids are.
- Cancels are admitted by an arbitrary gate: the checks of `assert_cancel_allowed` are not modelled.
- No code publishes a `SessionEvent`; its handlers are modelled as any other.
- The runtime and decision ids an automatic order must carry.
- Display-only fields, latency, stop and target levels on fills, diagnostic contexts, gap counters and metrics.
- `simulate_signals` rounding prices to four digits: prices are exact.
- `Simulator.SimulateSignals`: has no error path for an entry at a price that is not positive, on which `calculate_levels`
  raises; `SimulatedBacktest.Backtest` takes bars on which that cannot happen.
- `SimulatedBacktest.Backtest`, `HistoricalPairing.RunHistoricalEvents`: speak of bars of one contract; a replay over several,
  with the roll in between, is not modelled.
- `SimulatedBacktest.Backtest`: takes the groups' bars as in time order one group after the other, and bars already filtered
  to closed ones; strategies that make the intents, and the caller that leaves the last group open, are not modelled.
- `StreamingLimits.SeedingIsPushingIff`: takes minutes as distinct, as the primary key of `tw_quant/live/storage.py:230` makes them.
- `BarFacts.BarsAccountForTicks`: a restart takes up the last forming bar emitted and forgets the remembered keys; a bar lost
  between emission and storage is not modelled.
- The `limit` argument of `aggregate_kbars` and `source_bar_limit`: a slice of the result.
- Intermediate bars of the one-minute interval: it passes bars through, so streaming statements start at five minutes.
- `HistoricalPairing.RunHistoricalEvents`: says nothing of the trades when signals do not alternate, are out of order or
  price at zero or below; excursions (`_excursion`) and the report's columns are not modelled.
- `ReadModelAgrees.TablesAgree`: speaks of runs that do not raise, since the service stores nothing of a run that raises;
  intents must have their order id as event id, as every
  producer of a new intent gives them (`tw_quant/paper/service.py:562`, `tw_quant/execution/signal_router.py:70`,
  `tw_quant/execution/liquidator.py:48`); the unrealized profit and open time columns are not compared with the
  ledger (`PaperTables.PositionRows` says what they show), and the approved quantity is one step at
  a time (`ApprovedQuantity.ApprovedQuantityAgreesIff`).
- Paper recovery after a crash, idempotency keys and control rows: lookups beside the projection.
- Reduce-only completeness: two orders of one against a position of two may see the second rejected; safety only.
- A broker without a ledger, which raises on reduce-only orders: the pipeline always gives it one.
- `heapq` and `sorted` are specified as ordered insertion, not as their algorithms.
- The limiter's lock and its clock read outside it: calls are in order of their clock.
- `RateLimitRuns.AnyWindowBound`: counts calls since the key's window was created, because a key that is evicted starts
  afresh; `RateLimitRuns.SurvivesFewOthers` says when that can happen.
- The Taiwan stock cost model is a parameter of the backtest day; excursions, equity curve and summary are left out.
- Pandas indicators, strategies, plotting, command line, dashboard, health, authentication and permissions.
