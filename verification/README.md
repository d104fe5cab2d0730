# Restaurant platform backend: a verified model

This project models the state-machine engine of the backend (`backend/utils/FSM.go`), the
domain machines built on it, the services that drive those machines, and five smaller
cores: demand forecasting, tax calculation, automatic completion of kitchen tickets, rate
limiting, and response-cache keys with log redaction. `dafny verify dfyconfig.toml` checks
everything.

## How it is laid out

| modules | what they hold |
|---|---|
| `Fsm`, `FsmBuilder` | the engine: a `Machine` class whose `Send` runs the staged pipeline, and the definition compiler |
| `FsmLaws`, `FsmTrace`, `FsmRuns` | what one send guarantees and in which order it runs; whole runs: history, ranks, restoring per request |
| `FsmBatch`, `SyncMachine` | batch sending; the lock wrapper as interleaved steps of any number of threads |
| `TableKit`, `OrderTable`, `KotTable`, `DiningTableTable`, `SubscriptionTable`, `UserTable`, `PurchaseOrderTable`, `PaymentTable`, `InventoryTable` | the domain tables |
| `PipelineRunner`, `AnalyticsPipeline`, `ForecastPipeline` | the two pipeline machines under their runner |
| `KotService`, `KotAutoComplete` | ticket requests; automatic completion under every interleaving |
| `Forecast`, `ForecastLaws` | the Holt-Winters model; bounds, accuracy, lines, exactness |
| `Taxes`, `TaxRates`, `TaxLaws` | the tax calculator and the order total; what is due at which rate; rounding, order independence, inversion, what is left out |
| `RateLimit`, `CacheKeys`, `Redact`, `RedactInPlace` | the middleware |

An entity stands for everything a hook may write. A guard, effect or hook is any function
from the entity to the entity it leaves and an optional error, so the laws of the engine
hold for arbitrary hooks, also ones that write before they fail. Methods follow the code
step by step; each is proved against a specification function, and the lemmas are about
that function. Money and forecasts are exact reals; the square root is any function with
the properties of one; only the level of a model fitted to no data may fail to be a number. Sensitive-key lookup, stage bodies, stored tickets, clocks and
identifiers are parameters.

## Where the code and its comments part

The model follows the code.

- A served order has no cancel edge, although the table's comment says that every
  non-terminal state can be cancelled (`backend/utils/FSM.go:1004`; `OrderTable.CancelEdges`).
- Cancelling an order in preparation is described as needing a manager's approval, but no
  guard asks for one (`backend/utils/FSM.go:1022`; `OrderTable.OrderSend`).
- Users are deactivated from active, locked and suspended only
  (`backend/utils/FSM.go:1450-1468`; `UserTable.UserFsmLaws`).
- The stored status of a dining table out of service has a name that the table machine does
  not know (`backend/models/enums.go:10`, `backend/utils/FSM.go:1131`; `DiningTableTable.UnlistedIsStuck`).
- A guard that refuses a pipeline stage leaves the machine in a live state, not in failed
  (`backend/services/analytics/Forecast.go:320-323`; `PipelineRunner.RunUpToTrouble`).
- Most analytics queries set the record count one stage after the guard that reads it and
  can therefore never complete (`backend/services/analytics/analytics.go:355-361`;
  `AnalyticsPipeline.LateCountNeverCompletes`).
- Status writes of tickets are unconditional, so a stale start can undo an automatic
  completion (`backend/services/business/Kot.go:427-432`; `KotAutoComplete.StaleStartLosesCompletion`),
  and the service never sends the metadata that cancelling an urgent ticket needs
  (`KotService.KotStore.CancelKot`).
- The stock evaluation is described as idempotent but always fires and notifies again
  (`backend/services/inventory/inventory.go:1193-1197`; `InventoryTable.EvaluateStockTransition`).
- A service charge taken before tax is taxed but missing from the grand total
  (`backend/services/business/Taxes.go:250-255`; `TaxLaws.ChargeIncludedExactly`). Extraction
  looks neither at the tax switch nor at the charge, and with tax switched off the charge is
  dropped as well (`backend/services/business/Taxes.go:171-184`; `TaxLaws.SwitchedOffExactly`,
  `TaxLaws.ChargeCarriedExactly`).
- Rounding to cents is to the nearest for amounts of at least minus half a cent; the others, whole
  cents included, it pushes up by more than half a cent, except that those half way between two
  cents go up by exactly half a cent
  (`backend/services/business/Taxes.go:330-332`; `TaxLaws.RoundingIsNearestExactly`).
- The limiter trims by whole microseconds, so up to 999 nanoseconds of its window do not count
  and one request too many can pass in a window of the configured length
  (`backend/middleware/ratelimit.go:251-258`; `RateLimit.BoundKeptExactly`).
- A mutated path is used as a glob pattern. All entries under it are invalidated exactly when its
  classes are closed and the pattern is found in the path's own text, so a path with a class that
  just lists characters misses its own entries, and one whose class accepts a bracket does not
  (`backend/middleware/cache.go:304-313`; `CacheKeys.OwnKeysExactly`, `CacheKeys.OwnKeysWithListingClasses`,
  `CacheKeys.BracketsThatMatchThemselves`).
- A mutation invalidates more than what lies below its three segments: the pattern has no boundary
  behind them, so `/api/v1/menu` takes `/api/v1/menus` along
  (`backend/middleware/cache.go:284-306`; `CacheKeys.SiblingsStayExactly`).
- `Can` is described as not changing anything, but nothing keeps a guard from writing, and then
  concurrent readers under the shared lock can get answers that no serial order explains
  (`backend/utils/FSM.go:598-624`; `SyncMachine.WritingGuardsHaveNoOrder`).
- A model fitted to no data divides zero by zero, and its predictions are not numbers
  (`backend/services/analytics/Forecast.go:147-153`; `ForecastLaws.ForecastSeries`).
- The accuracy is described as the R squared of the fitted model, but it is measured against the line
  that starts at the final level: a model that follows a rising line exactly scores zero
  (`backend/services/analytics/Forecast.go:259-277`; `ForecastLaws.LineScoresZero`).
- A weekly pattern whose mean is zero is not fitted exactly once there are two weeks of it
  (`backend/services/analytics/Forecast.go:173-192`; `ForecastLaws.ExactOnWeeklyPatterns`).

## Model

| member | source | states |
|---|---|---|
| FsmBuilder.IndexExact | backend/utils/FSM.go:395-415 | the index holds exactly the registered (state, event) pairs, and a pair registered once maps to its own transition |
| FsmBuilder.FaultIffIllFormed | backend/utils/FSM.go:397-426 | there is something to report exactly when an endpoint is undeclared, a pair repeats or a terminal state has an outgoing transition |
| FsmBuilder.FaultsGrow | backend/utils/FSM.go:397-426 | which faults one more transition adds to a definition, and that it removes none |
| FsmBuilder.CompiledIndex | backend/utils/FSM.go:417-449 | in a definition that compiles, a terminal state enables no event and every edge leads to a declared state |
| FsmBuilder.DefinitionBuilder.BuildIndex | backend/utils/FSM.go:394-415 | the first pass computes the index and reports exactly the undeclared endpoints and repeated pairs |
| FsmBuilder.DefinitionBuilder.CheckTerminals | backend/utils/FSM.go:417-426 | the second pass reports exactly the transitions out of terminal states |
| FsmBuilder.DefinitionBuilder.Compile | backend/utils/FSM.go:389-450 | compilation succeeds exactly on well-formed definitions; a rejected one comes with every fault it has and no other |
| Fsm.Machine.New | backend/utils/FSM.go:479-487 | a new machine is in the given state with an empty history, sequence number 0 and no send in flight |
| Fsm.Machine.Restore | backend/utils/FSM.go:874-885 | a restored machine trusts the stored state and has no history |
| Fsm.Machine.RunAbortable | backend/utils/FSM.go:677-735 | the guards, hooks and effects before the commit point behave as one list in the documented order that stops at the first error, reported with its phase |
| Fsm.Machine.AppendHistory | backend/utils/FSM.go:769-781 | shifting and dropping the duplicated slot evicts exactly the oldest record; capacity 0 keeps everything |
| Fsm.Machine.Commit | backend/utils/FSM.go:737-765 | after the commit point state and sequence number move, every hook runs whatever it reports, history and observers follow |
| Fsm.Machine.Send | backend/utils/FSM.go:643-767 | the staged imperative pipeline computes the result and the next machine state of one dispatch, for arbitrary hooks |
| Fsm.Machine.Can | backend/utils/FSM.go:598-624 | evaluates the terminal check, the lookup and the guards of Send and nothing else |
| Fsm.RunPipelineConcat | backend/utils/FSM.go:677-735 | running stages one after the other is running their concatenation: the first failure decides |
| FsmLaws.AbortPhase | backend/utils/FSM.go:667-675 | the phase an aborted transition reports is that of a step that was run |
| FsmLaws.RefusalsAreNamed | backend/utils/FSM.go:647-662 | which of a send in flight, a terminal state and an unregistered event is reported, in this order of precedence, and that each leaves everything as it was |
| FsmTrace.SendRunsInOrder | backend/utils/FSM.go:626-767 | with functions that leave marks: all registered functions run once, in the documented order of the stages; the first failing one before the commit point is the last that runs and is named with its phase, and failures behind it stop nothing |
| FsmLaws.SendAllOrNothing | backend/utils/FSM.go:643-767 | after any error state, sequence number and history are unchanged and the in-flight flag is down; a re-entrant call changes nothing; a success commits exactly the indexed edge |
| FsmLaws.GuardRejectionIsInvisible | backend/utils/FSM.go:653-690 | with guards that only look, an event refused by lookup or guards leaves the entity untouched as well |
| FsmLaws.TameSendAllOrNothing | backend/utils/FSM.go:643-767 | when nothing after the guards can fail, an error leaves machine and entity exactly as they were |
| FsmLaws.CanIffSend | backend/utils/FSM.go:598-767 | with pure guards and infallible hooks and effects, Can changes nothing and answers exactly whether Send would succeed |
| FsmRuns.StepOnMachine | backend/utils/FSM.go:737-763 | one event commits one numbered record of an indexed edge out of a non-terminal state, or changes no field of the machine |
| FsmRuns.RunFollowsLog | backend/utils/FSM.go:643-781 | from any state whose history is the window of some log, every run keeps history the window of the log extended by the run's records |
| FsmRuns.HistoryRefinesLog | backend/utils/FSM.go:643-781 | after every run the history is the last min(seq, capacity) records of a log numbered 1..seq that chains compiled edges from the start to the current state |
| FsmRuns.ChainLink | backend/utils/FSM.go:643-781 | each record of a run is an indexed edge from where the record before it went |
| FsmRuns.RecordWasCommitted | backend/utils/FSM.go:643-781 | every record of a run's log was committed by an event of the run that the machine accepted in the state it was then in |
| FsmRuns.ChainDescends | backend/utils/FSM.go:643-767 | along edges that go down in rank, a chain of records is no longer than the difference in rank |
| FsmRuns.RankBoundsRuns | backend/utils/FSM.go:643-767 | a rank that every edge lowers bounds the number of successful sends in every run |
| FsmRuns.HookFreePipeline | backend/utils/FSM.go:677-735 | without hooks, whether and how a transition goes through depends on the entity and the envelope only, not on the sequence number |
| FsmRuns.StatusKeepingSend | backend/utils/FSM.go:643-767 | when effects set the status, a long-lived and a restored machine give the same answer, entity and state, and a success leaves the status at the new state |
| FsmRuns.StatusMirrorsState | backend/utils/FSM.go:874-885 | in every run the entity's status is the machine's state, if other code leaves the status alone |
| FsmRuns.FailedRequestStoresNothing | backend/utils/FSM.go:874-885 | what a refused send has written to the restored entity is not stored |
| FsmRuns.RestoringIsInvisible | backend/utils/FSM.go:874-885 | handling serialised requests by restore, send and store gives the same answers, entity and states as one long-lived machine |
| FsmBatch.BatchIsIndependent | backend/utils/FSM.go:844-868 | over distinct machines a batch is independent sends: each result and final state is that of a single send, and other machines are untouched |
| FsmBatch.SendAt | backend/utils/FSM.go:854-862 | one turn of the loop moves only its own machine and reports the states before and after |
| FsmBatch.BatchSend | backend/utils/FSM.go:844-868 | every machine gets the event in order, also after errors and when one is listed twice; the flag is true exactly when no result has an error |
| SyncMachine.AdvanceKeepsFinish | backend/utils/FSM.go:643-767 | running Send hook by hook ends where the one-step meaning of Send says, from every intermediate point |
| SyncMachine.RunHooksConcat | backend/utils/FSM.go:742-758 | post-commit hooks of several lists run as one list, none skipped because of an error |
| SyncMachine.ProbeOne | backend/utils/FSM.go:598-624 | with guards that only look, a Can that runs guard by guard among other readers leaves the machine as it is and ends with the verdict it would have in one step |
| SyncMachine.StepKeepsInv | backend/utils/FSM.go:790-828 | every step of every thread keeps the lock discipline, the agreement with a serial execution, the recorded answers and the meaning of each Can under way |
| SyncMachine.Linearizable | backend/utils/FSM.go:790-828 | under every interleaving, of Can's guards too if they only look, the calls have a serial order that gives each caller the answer it got and ends in the shared machine's state |
| SyncMachine.WritingGuardsHaveNoOrder | backend/utils/FSM.go:812-822 | with guards that write, two interleaved calls of Can get answers that no serial order gives them |
| SyncMachine.InFlightMeansLocked | backend/utils/FSM.go:800-804 | a send in flight holds the exclusive lock, alone and with no reader inside |
| SyncMachine.NeverConcurrent | backend/utils/FSM.go:648-650 | no send through the wrapper ever gets the concurrent-transition error |
| SyncMachine.CallIsKept | backend/utils/FSM.go:790-828 | a thread works on the operation it called until it returns |
| SyncMachine.TakesEffectOnce | backend/utils/FSM.go:790-828 | every call takes effect in exactly one step between its invocation and its return, and keeps its place until then |
| SyncMachine.RealTimeOrder | backend/utils/FSM.go:790-828 | the serial order never puts a call before one that had taken effect when it was made |
| SyncMachine.TerminalIsFinal | backend/utils/FSM.go:812-816 | once a caller has been told that the state is terminal, every later Send is refused for it |
| SyncMachine.HistoryShowsState | backend/utils/FSM.go:806-828 | State answers where the History answered just before has led |
| SyncMachine.StepsBringCloser | backend/utils/FSM.go:790-828 | every step of a call brings it closer to its end, by a well-founded measure, and leaves the other calls where they are |
| SyncMachine.CallersAndReadersGetIn | backend/utils/FSM.go:800-828 | an idle thread can call, a reader is let in while no Send holds the lock, other readers or not, and a Send when there are none |
| SyncMachine.NoDeadlock | backend/utils/FSM.go:790-828 | under every interleaving, while some call has not returned, some call can go on |
| TableKit.GoodRowsWellFormed | backend/utils/FSM.go:391-449 | a table with declared endpoints, distinct pairs and sink terminals passes the compiler's checks |
| TableKit.GoodRowsCompile | backend/utils/FSM.go:394-415 | a compiled table registers an event in a state exactly when it has a row for them, with that row's target, guards and effects |
| TableKit.GoodTableIsTame | backend/utils/FSM.go:677-735 | a table in order, whose global effects do nothing, compiles to a definition on which sends are all-or-nothing |
| TableKit.StatusTable | backend/utils/FSM.go:874-885 | when every row makes its target the status, restoring from the status is faithful |
| TableKit.NumberedTable | backend/utils/FSM.go:391-449 | a table whose rows and pairs carry the same numbers compiles, repeats no pair and has exactly the moves of its reference |
| TableKit.RowSend | backend/utils/FSM.go:643-767 | an event with a row succeeds exactly when the row allows it, and then applies the row's effect and moves to its target; otherwise it is refused with the row's message and nothing changes |
| TableKit.TargetSend | backend/utils/FSM.go:643-767 | against a reference function for a whole table, a send succeeds exactly when there is a target and the guard agrees, goes to that target and applies the effect |
| TableKit.LogFollowsTarget | backend/utils/FSM.go:643-781 | in every run the log follows the reference of the table, one move after the other, from the start to the current state |
| OrderTable.OrderFsmLaws | backend/utils/FSM.go:937-1036 | the order table compiles and restoring orders from their stored status is faithful |
| OrderTable.OrderSend | backend/utils/FSM.go:937-1036 | an order event succeeds exactly when the service line or the cancel rule has a target for it and, to confirm, the total is positive; then state and status are the target, else nothing changes, and no metadata matters |
| OrderTable.OrderEvents | backend/utils/FSM.go:937-1036 | for each order event, the states it is taken in and the one state it leads to |
| OrderTable.OrderRunsAreShort | backend/utils/FSM.go:937-1036 | at most five events ever succeed on one order, from any state and whatever else writes to it |
| OrderTable.ServedOrdersWereConfirmed | backend/utils/FSM.go:937-1036 | every run that takes a pending order to served or refunded commits the service line in order and nothing else, and contains the moment it was confirmed while its total was positive |
| OrderTable.CancelEdges | backend/utils/FSM.go:1004-1035 | cancelling is registered exactly in pending, confirmed, preparing and ready; a served order can only be refunded |
| KotTable.KotFsmLaws | backend/utils/FSM.go:1072-1111 | the ticket table compiles and restoring tickets from their stored status is faithful |
| KotTable.KotRunsAreShort | backend/utils/FSM.go:1072-1111 | at most two events ever succeed on one ticket |
| KotTable.KotEvents | backend/utils/FSM.go:1072-1111 | for each ticket event, the states it is taken in and the one state it leads to |
| KotTable.RestoredSend | backend/utils/FSM.go:1078-1111 | a restored ticket takes start from sent, complete from in progress, and cancel from both unless it is urgent, in progress and not forced; then only its status changes, else nothing |
| KotTable.UrgentNeedsForce | backend/utils/FSM.go:1088-1111 | an urgent ticket in progress is cancelled exactly when the metadata forces it with the value true; others need no force |
| DiningTableTable.DiningTableFsmLaws | backend/utils/FSM.go:1153-1215 | the dining table's machine compiles and restoring from the stored status is faithful |
| DiningTableTable.SeatSend | backend/utils/FSM.go:1153-1215 | a seating event succeeds exactly when it has a target on the service cycle or takes the table out of service; then state and status are the target |
| DiningTableTable.SeatEvents | backend/utils/FSM.go:1153-1215 | for each seating event, the states it is taken in and the one state it leads to |
| DiningTableTable.CleanedBetweenGuests | backend/utils/FSM.go:1153-1215 | in every run, from any state, a release for cleaning lies between any two times a table becomes occupied |
| DiningTableTable.UnlistedIsStuck | backend/utils/FSM.go:1126-1215 | a table stored with a status the machine does not know is never moved by any run and is not terminal |
| SubscriptionTable.SubscriptionFsmLaws | backend/utils/FSM.go:1259-1333 | the subscription table compiles and restoring from the stored status is faithful |
| SubscriptionTable.SubscriptionSend | backend/utils/FSM.go:1259-1333 | a subscription event succeeds exactly when it has a target and, to expire, auto-renewal is off; then state and status are the target |
| SubscriptionTable.SubscriptionEvents | backend/utils/FSM.go:1259-1333 | for each subscription event, the states it is taken in and the one state it leads to |
| SubscriptionTable.ExpiryNeedsNoRenewal | backend/utils/FSM.go:1297-1308 | one event expires a subscription exactly when it is the expiry event, in active, with auto-renewal off |
| SubscriptionTable.SuspensionsFollowMissedPayments | backend/utils/FSM.go:1259-1333 | in every run that did not start past due, each suspension directly follows a missed payment |
| SubscriptionTable.ExpiriesWereDue | backend/utils/FSM.go:1259-1333 | every run that ends expired contains the moment: an expiry sent in active while auto-renewal was off, whatever the flag was before and after |
| UserTable.UserFsmLaws | backend/utils/FSM.go:1382-1469 | the account table compiles, an error leaves an account untouched, and deactivation is registered exactly in active, locked and suspended |
| UserTable.UserSend | backend/utils/FSM.go:1382-1469 | an account event succeeds exactly when it has a target, whatever the flags, and sets exactly its own flags |
| UserTable.UserEvents | backend/utils/FSM.go:1382-1469 | for each account event, the states it is taken in and the one state it leads to |
| UserTable.FlagsFollowState | backend/utils/FSM.go:1382-1469 | in every run of an account that starts pending with both flags down, it is active exactly in active or must-change-password and has the must-change flag exactly in the latter |
| PurchaseOrderTable.PurchaseOrderFsmLaws | backend/utils/FSM.go:1508-1565 | the purchase order table compiles and restoring from the stored status is faithful |
| PurchaseOrderTable.PurchaseOrderSend | backend/utils/FSM.go:1508-1565 | a purchase order event succeeds exactly when it has a target and, to submit, the total is positive; then state and status are the target |
| PurchaseOrderTable.PurchaseOrderEvents | backend/utils/FSM.go:1508-1565 | for each purchase order event, the states it is taken in and the one state it leads to |
| PurchaseOrderTable.PurchaseOrderRunsAreShort | backend/utils/FSM.go:1508-1565 | at most four events ever succeed on one purchase order |
| PurchaseOrderTable.ReceiptsWereApproved | backend/utils/FSM.go:1508-1565 | every run from draft to received commits exactly one submission, sent while the total was positive, then exactly one approval, then the receipt in one or two parts |
| PaymentTable.PaymentFsmLaws | backend/utils/FSM.go:1657-1735 | the payment table compiles and restoring from the stored status is faithful |
| PaymentTable.PaymentSend | backend/utils/FSM.go:1657-1735 | a payment event succeeds exactly when it has a target and, to refund, a manager approved; then state, status and failure reason are brought up to date, else nothing changes |
| PaymentTable.PaymentEvents | backend/utils/FSM.go:1657-1735 | for each payment event, the states it is taken in and the one state it leads to |
| PaymentTable.RefundNeedsApproval | backend/utils/FSM.go:1718-1735 | a confirmed payment is refunded exactly when the approval in the metadata reads true, and not without one |
| PaymentTable.PaymentRunsAreShort | backend/utils/FSM.go:1657-1735 | at most three events ever succeed on one payment |
| PaymentTable.CommitsAreLegitimate | backend/utils/FSM.go:1657-1735 | every committed record follows a row, and a committed refund carries the manager's approval |
| PaymentTable.RefundsAreEarned | backend/utils/FSM.go:1657-1735 | every run from a pending QR code to refunded commits exactly scan, receipt and a manager-approved refund |
| InventoryTable.InventoryFsmLaws | backend/utils/FSM.go:1783-1918 | the stock table compiles and restoring from the stored status is faithful |
| InventoryTable.SendOnStock | backend/utils/FSM.go:1783-1918 | which stock events succeed in which state at which level, and that they set exactly the stock status |
| InventoryTable.CoherentExactly | backend/utils/FSM.go:1783-1930 | the one enabled stock event leads to the derived state, and none is enabled when the machine is there, exactly outside two families of levels without a usable reorder point |
| InventoryTable.CoherentReorderPoints | backend/utils/FSM.go:1783-1930 | machine and derivation agree at every quantity and in every live state exactly when the reorder point is present and not negative |
| InventoryTable.SyncReachesDerived | backend/utils/FSM.go:1920-1930 | sending the event of the derived state always ends in the derived state, at any level and with any reorder point |
| InventoryTable.SyncedStaysDerived | backend/utils/FSM.go:1783-1930 | over every run of quantity changes, syncing after each keeps the machine in the derived state |
| InventoryTable.EvaluateStockTransition | backend/services/inventory/inventory.go:1197-1243 | the evaluation ends with the derived status and notifies whenever that is low or out of stock, also when nothing has changed |
| PipelineRunner.RunPipelineStages | backend/services/analytics/Forecast.go:299-327 | driving a machine through the stages computes the specified run: start, then each stage's work and event, the failure event on a stage error |
| PipelineRunner.FoldUpToTrouble | backend/services/analytics/Forecast.go:312-326 | from stage i on, the first stage whose work or guard goes wrong decides how the run ends |
| PipelineRunner.RunUpToTrouble | backend/services/analytics/Forecast.go:299-327 | no trouble: success after one commit per stage; a stage error: that stage and its error are reported and the machine has failed with the error put down in the run; a guard refusal: that transition is reported and the machine stays in the live state it was in |
| PipelineRunner.FirstTrouble | backend/services/analytics/Forecast.go:312-326 | every run has a first stage that goes wrong, all before it having gone well, or none |
| AnalyticsPipeline.AnalyticsRunsAreShort | backend/utils/FSM.go:1976-2079 | the analytics table compiles and at most five events ever succeed on one run |
| AnalyticsPipeline.AnalyticsRunner | backend/services/analytics/analytics.go:176-205 | for any stage outcomes the runner succeeds exactly when every stage succeeds and records were collected, completing after five commits; otherwise the first trouble decides, and a stage's error ends up in the run |
| AnalyticsPipeline.LateCountNeverCompletes | backend/services/analytics/analytics.go:337-361 | a query that leaves the record count to its second stage is always refused after the first and stays in collecting |
| ForecastPipeline.ForecastRunsAreShort | backend/utils/FSM.go:2125-2277 | the forecast table compiles and at most seven events ever succeed on one run |
| ForecastPipeline.ForecastRunner | backend/services/analytics/Forecast.go:299-327 | for any stage outcomes the runner succeeds exactly when every stage succeeds, seven points were ingested and the accuracy is not negative, completing after seven commits; otherwise the first trouble decides, and a stage's error ends up in the run |
| KotService.KotStore.FireKotEventOnModel | backend/services/business/Kot.go:414-440 | a refused event writes nothing; an accepted one writes the target status to the stored ticket, whatever is stored there in the meantime, and no other field |
| KotService.KotStore.FireKotEvent | backend/services/business/Kot.go:390-411 | a serialised request has the effect and the answer of one send on a machine restored from the stored ticket |
| KotService.KotStore.CancelKot | backend/services/business/Kot.go:363-387 | cancelling succeeds exactly for a sent ticket and, for a manager, for one in progress that is not urgent |
| KotService.KotRequestsLikeOneMachine | backend/services/business/Kot.go:414-440 | serialised ticket requests get the answers and leave the status of one machine that lives as long as the ticket |
| KotAutoComplete.AutoCompletesFinishedOnly | backend/services/business/Kot.go:553-578 | under every interleaving a check completes a ticket only when each of its items is ready, served or cancelled, and then it does |
| KotAutoComplete.UnfinishedIsLeftAlone | backend/services/business/Kot.go:559-568 | a check that runs while any item is pending, preparing or of another status is dropped and writes nothing |
| KotAutoComplete.FinishedIsCompleted | backend/services/business/Kot.go:559-578 | one that runs when each item is ready, served or cancelled completes a ticket in progress, writing its status only, and leaves any other alone |
| KotAutoComplete.UndisturbedRequest | backend/services/business/Kot.go:390-411 | a request that nothing comes between fires its event on the stored ticket |
| KotAutoComplete.OnlyStatusIsWritten | backend/services/business/Kot.go:427-432 | whatever copies are fired on, the ticket keeps the priority that was set last |
| KotAutoComplete.NothingIsHeldBack | backend/services/business/Kot.go:514-548 | items can be updated, requests made and the priority set at any time |
| KotAutoComplete.FinishedTicketIsAttended | backend/services/business/Kot.go:514-578 | a ticket in progress at its last item update does not stay unattended: once all checks have run its status has been written again |
| KotAutoComplete.FinishedTicketIsCompleted | backend/services/business/Kot.go:514-578 | it ends completed when no cancel comes later and no request in flight can write another status |
| KotAutoComplete.FinishChecks | backend/services/business/Kot.go:545-578 | from every such state the pending checks can all run to their end while other requests wait |
| KotAutoComplete.HarmfulRequestWins | backend/services/business/Kot.go:427-432 | any request in flight that can write another status can do so after the last check |
| KotAutoComplete.CompletionIsSureExactly | backend/services/business/Kot.go:514-578 | completion is certain under every continuation without new cancels exactly when no request in flight holds a copy that lets it write another status |
| KotAutoComplete.StaleStartLosesCompletion | backend/services/business/Kot.go:427-432 | an interleaving of two starts and one check that leaves a finished ticket in progress with nothing pending |
| Forecast.ForecastModel.constructor | backend/services/analytics/Forecast.go:126-135 | a fresh model has level, trend, seasonal indices and deviation zero |
| Forecast.ForecastModel.FitAverage | backend/services/analytics/Forecast.go:146-160 | with less than a week of data the level is the average, or not a number if there is none, and trend and seasonal indices are zero |
| Forecast.ForecastModel.Initialise | backend/services/analytics/Forecast.go:167-192 | level, trend and seasonal indices before smoothing come from the first one or two weeks, the rest being kept |
| Forecast.ForecastModel.Smooth | backend/services/analytics/Forecast.go:196-206 | one observation updates level, trend and its weekday's index and yields the one-step-ahead error |
| Forecast.ForecastModel.Fit | backend/services/analytics/Forecast.go:145-217 | fitting a week or more folds the smoothing step over all observations from the initial components, the deviation being that of the errors made on the way; with less, no data included, only the average is modelled |
| Forecast.ForecastModel.Predict | backend/services/analytics/Forecast.go:220-257 | one prediction per day ahead, each with the weekday's forecast and an interval that widens with the horizon, or not a number when the level is none |
| Forecast.ForecastModel.Score | backend/services/analytics/Forecast.go:259-286 | accuracy is the rounded share of variance explained, cut off at zero; without a level it is a number only for constant or too little data |
| ForecastLaws.PredictionsAreOrdered | backend/services/analytics/Forecast.go:220-257 | for any components, horizon and confidence, 0 <= lower <= predicted <= upper |
| ForecastLaws.RoundIsNearest | backend/services/analytics/Forecast.go:250-252 | rounding is to a nearest whole number, halves away from zero |
| ForecastLaws.Round2IsNearest | backend/services/analytics/Forecast.go:250-252 | rounding to cents is off by at most half a cent |
| ForecastLaws.WidthSquared | backend/services/analytics/Forecast.go:245-246 | half the interval, squared, grows in proportion to the days ahead, from factor times deviation for the first |
| ForecastLaws.WidthGrows | backend/services/analytics/Forecast.go:245-246 | unless the deviation is zero, every later day has a strictly wider interval |
| ForecastLaws.ConfidenceWidens | backend/services/analytics/Forecast.go:221-232 | more confidence widens the interval from 0.8 on, the factor of 0.95 being 1.96, which is also that of everything below 0.8 |
| ForecastLaws.PredictedWithinHalfACent | backend/services/analytics/Forecast.go:234-257 | the three values are the point and its two bounds, cut off at zero, up to half a cent |
| ForecastLaws.LaterBoundsSpread | backend/services/analytics/Forecast.go:234-257 | around equal forecasts the bounds of a later day enclose those of an earlier one |
| ForecastLaws.ConfidentBoundsSpread | backend/services/analytics/Forecast.go:220-257 | the bounds for more confidence enclose those for less |
| ForecastLaws.FourDaysAhead | backend/services/analytics/Forecast.go:220-257 | level 100 and deviation 5 give 80.40 to 119.60 four days ahead at a confidence of 0.95 |
| ForecastLaws.WholeUnitsOrdered | backend/services/analytics/Forecast.go:470-491 | rounding demand to whole units keeps that order |
| ForecastLaws.StdDevIsDeviation | backend/services/analytics/Forecast.go:208-215 | the residual deviation is never negative and is zero exactly when no residual is off |
| ForecastLaws.EvenErrors | backend/services/analytics/Forecast.go:208-215 | n errors that are all of one size have a deviation whose square is n / (n - 1) times that of the size |
| ForecastLaws.AccuracyInUnit | backend/services/analytics/Forecast.go:259-286 | accuracy lies between 0 and 1 for any model and any data |
| ForecastLaws.AccuracyIsShare | backend/services/analytics/Forecast.go:259-286 | of data that are not all alike the accuracy is the explained share of the squared deviation, none below that of the mean, to four digits |
| ForecastLaws.TrainingIsNeverRefused | backend/services/analytics/Forecast.go:441-456 | the mean accuracy over any fitted models lies between 0 and 1, so the guard after training never refuses them |
| ForecastLaws.WeekSum | backend/services/analytics/Forecast.go:167-190 | seven consecutive days of a weekly pattern have the pattern's mean, wherever they start |
| ForecastLaws.SeededWeek | backend/services/analytics/Forecast.go:178-181 | after the first week every weekday's index is the pattern's deviation from the average, whatever it was before |
| ForecastLaws.ErrorCorrection | backend/services/analytics/Forecast.go:196-206 | one observation corrects level, trend and the weekday's index by 0.3, 0.03 and 0.14 of how far it is off what was expected, and no other index |
| ForecastLaws.FixedPoint | backend/services/analytics/Forecast.go:196-206 | components that reproduce the pattern predict every day exactly and are left alone by smoothing |
| ForecastLaws.SmoothingStaysPut | backend/services/analytics/Forecast.go:194-206 | over any stretch of the pattern they never move and every error is zero |
| ForecastLaws.InitialOnPattern | backend/services/analytics/Forecast.go:167-192 | where the fit of a fresh model starts on a weekly pattern, in all cases |
| ForecastLaws.ExactOnWeeklyPatterns | backend/services/analytics/Forecast.go:145-217 | a fresh model fitted to at least a week of a pattern has no residual deviation exactly when the mean is not zero or there are fewer than two weeks; then trend is zero and level and indices reproduce the pattern |
| ForecastLaws.FitIsExactExactly | backend/services/analytics/Forecast.go:145-217 | exactly which series of at least a week of consecutive days are fitted without deviation: those that repeat their first week, with a mean that is not zero or for less than two weeks |
| ForecastLaws.ExactForecasts | backend/services/analytics/Forecast.go:220-257 | then every forecast at any horizon is the rounded pattern value with no interval around it |
| ForecastLaws.ExactAccuracy | backend/services/analytics/Forecast.go:259-286 | and the accuracy is 1 |
| ForecastLaws.WeeklyForecastsAreExact | backend/services/analytics/Forecast.go:145-286 | for non-negative patterns the whole chain of fit, predict and score: lower, predicted and upper value equal the weekday's rounded pattern value and accuracy is 1 |
| ForecastLaws.LineIsFollowed | backend/services/analytics/Forecast.go:194-206 | components on a line of any slope with weekly deviations predict every day of it without error, move along it and keep trend and indices |
| ForecastLaws.LineIsForecast | backend/services/analytics/Forecast.go:235-243 | wherever they have got to, their forecasts at every horizon are the rest of the line, cut off at zero |
| ForecastLaws.LineIsScoredOff | backend/services/analytics/Forecast.go:271-276 | the score counts each of these days as off by the climb of the days between |
| ForecastLaws.LineScoresZero | backend/services/analytics/Forecast.go:259-286 | so a rising or falling line that is forecast exactly gets the accuracy zero |
| ForecastLaws.ShortSeries | backend/services/analytics/Forecast.go:145-286 | less than a week of data is forecast by its rounded average every day with no interval, and two or more such points score 1 when they are all alike and otherwise 0 |
| ForecastLaws.ForecastSeries | backend/services/analytics/Forecast.go:441-468 | for a series of any length, fitting a fresh model that holds it, scoring it and predicting from its last day, or from now if it is empty, gives the specified forecast and accuracy |
| ForecastLaws.ForecastWeeklyPattern | backend/services/analytics/Forecast.go:145-286 | run on a weekly pattern, that returns the weekday's rounded value with no interval for every day ahead, and accuracy 1 |
| Taxes.CostOf | backend/services/business/Taxes.go:149-155 | multiplying price and modifiers by the quantity one by one gives the line total that the order computes by adding first |
| Taxes.TaxLines | backend/services/business/Taxes.go:200-233 | one pass fills in every line's rate and tax and adds the taxes up in total and by category |
| Taxes.CalculateTax | backend/services/business/Taxes.go:129-260 | every amount of the breakdown and every item line, in all three pricing modes |
| Taxes.SettleTotals | backend/services/business/Taxes.go:186-257 | service charge, tax on the charge, rounding and grand total from the subtotal and the item taxes |
| Taxes.ExtractIncludedTax | backend/services/business/Taxes.go:263-310 | extraction from prices that include tax, with the service charge and the tax switch left out |
| Taxes.Order.LineTotalOf | backend/models/order.go:161-167 | an item costs its price and modifiers together times the quantity |
| Taxes.Order.RecalculateTotal | backend/models/order.go:93-99 | the order's total is the subtotal that the tax engine starts from |
| TaxRates.ModifiersAreAdded | backend/services/business/Taxes.go:147-155 | an item costs its price, and each modifier its own price once per item |
| TaxRates.QuantitiesAdd | backend/services/business/Taxes.go:147-155 | ordering an item in two lots costs as much as in one |
| TaxRates.SubtotalByCategory | backend/services/business/Taxes.go:147-169 | the subtotal is what the five categories cost |
| TaxRates.AddedByCategory | backend/services/business/Taxes.go:200-257 | without charge and rounding the total tax is the default rate on standard and other items, and on takeaway items at home, the takeaway rate on those taken away, and the alcohol rate on alcohol |
| TaxRates.ChargeIsPercentage | backend/services/business/Taxes.go:186-188 | the service charge is its percentage of the subtotal |
| TaxRates.ChargeByRates | backend/services/business/Taxes.go:186-257 | a charge before tax adds to the taxable amount and, at the default rate, to total and standard tax; one after tax to the grand total only |
| TaxRates.ExtractedByCategory | backend/services/business/Taxes.go:263-310 | prices with tax contain it at the default rate, also for takeaway items, and at the alcohol rate for alcohol; taxable amount and tax make up the subtotal, which is the grand total |
| TaxRates.TakeawayMeal | backend/services/business/Taxes.go:206-211 | a takeaway meal of 100.00 is taxed 5.00 in a takeaway order and 13.00 at home, at rates of 5, 13 and 20 per cent |
| TaxRates.LinesShowRates | backend/services/business/Taxes.go:200-221 | each line carries the rate of its item's category and the tax at that rate |
| TaxRates.UntaxedIsPlain | backend/services/business/Taxes.go:178-184 | with tax switched off everything is the unrounded subtotal and no line has a rate |
| TaxLaws.SumIgnoresOrder | backend/services/business/Taxes.go:147-169 | a sum over items is the same for every permutation of them |
| TaxLaws.TaxIgnoresItemOrder | backend/services/business/Taxes.go:129-260 | every total of the breakdown is the same for every order of the items |
| TaxLaws.CategoriesPartition | backend/services/business/Taxes.go:225-232 | before rounding, standard and alcohol tax make up the total |
| TaxLaws.RoundingIsNearest | backend/services/business/Taxes.go:330-332 | amounts that are not negative are rounded to the nearest cent, halves upwards |
| TaxLaws.RoundingIsNearestExactly | backend/services/business/Taxes.go:330-332 | an amount is rounded to a nearest cent exactly when it is at least minus half a cent or half way between two cents; other negative amounts are pushed up by more than half a cent and less than one and a half |
| TaxLaws.RoundedPartsWithinACent | backend/services/business/Taxes.go:330-332 | rounding two non-negative parts and their sum separately differs by at most one cent |
| TaxLaws.PartsApartExactly | backend/services/business/Taxes.go:330-332 | rounding two parts and their sum separately differs by more than a cent, then by two, exactly for these signs and fractions of the three |
| TaxLaws.TaxPartsWithinACent | backend/services/business/Taxes.go:129-310 | in every breakdown of non-negative amounts standard plus alcohol tax is the total tax up to one cent |
| TaxLaws.BreakdownPartsApartExactly | backend/services/business/Taxes.go:129-310 | for any amounts, standard and alcohol tax fail to make up the total to within a cent exactly when they are rounded and their unrounded sums are such parts |
| TaxLaws.RefundedItemsAreTwoCentsApart | backend/services/business/Taxes.go:129-260 | an order that takes back a meal and a drink has taxes of minus 0.99 twice and minus 2.00 in total |
| TaxLaws.ExtractionInverts | backend/services/business/Taxes.go:283-290 | extracting at one rate from a price grossed up at another gives back the tax exactly when the rates are equal or the price is zero |
| TaxLaws.RatesAgreeWithoutTakeaway | backend/services/business/Taxes.go:204-217 | the rate added and the rate extracted agree when no takeaway item is on a takeaway or delivery order |
| TaxLaws.ExtractionUndoesTaxation | backend/services/business/Taxes.go:129-310 | grossing up every price by its rate and extracting gives the same total, standard and alcohol tax, rounded |
| TaxLaws.GrandTotalsWithinACent | backend/services/business/Taxes.go:129-310 | and grand totals that differ by at most one cent |
| TaxLaws.ChargeBeforeTaxIsMissing | backend/services/business/Taxes.go:236-257 | with a charge taken before tax the grand total is subtotal plus tax, to within rounding |
| TaxLaws.ChargeIncludedExactly | backend/services/business/Taxes.go:186-257 | with a charge, if any, of at least a cent, the grand total is the rounded sum of subtotal, charge and tax exactly when the charge is not taken before tax |
| TaxLaws.ChargedOrder | backend/services/business/Taxes.go:186-257 | an order of 100.00 with 13% tax and 10% charge totals 114.30 |
| TaxLaws.SwitchedOffExactly | backend/services/business/Taxes.go:171-184 | with tax switched off a breakdown carries no tax, lines included, exactly when prices exclude tax or every item is free or of a category without a rate |
| TaxLaws.ChargeCarriedExactly | backend/services/business/Taxes.go:171-198 | the charge is in the breakdown exactly when prices exclude tax and tax is on, or nothing is to be charged |
| RateLimit.Limiter.Touch | backend/middleware/ratelimit.go:247-266 | trimming, adding, counting and renewing the expiry of the sorted set |
| RateLimit.Limiter.CheckRateLimit | backend/middleware/ratelimit.go:239-276 | the remaining budget is the limit less all requests, admitted or not, later than the microsecond in which the window began; the key's expiry never changes it |
| RateLimit.Limiter.Handle | backend/middleware/ratelimit.go:139-171 | a request is let through exactly when the requests its check counts number at most the limit |
| RateLimit.TouchedIsRecent | backend/middleware/ratelimit.go:247-266 | whatever trimming and expiry have removed is too old for the next check, for any expiry later than the end of the window |
| RateLimit.StoreStaysInStep | backend/middleware/ratelimit.go:239-276 | after every check the stored set is what that check counted, for any such expiry |
| RateLimit.AdmissionBound | backend/middleware/ratelimit.go:139-171 | a window of nanoseconds that falls short of the configured one by at least 999, wherever it is put, never holds more admitted requests than the limit |
| RateLimit.BoundKeptExactly | backend/middleware/ratelimit.go:239-276 | exactly which window lengths are bounded in every run: those, any when nothing is ever admitted, and those too short for more instants than the limit |
| RateLimit.TwoInOneMillisecond | backend/middleware/ratelimit.go:251-258 | with a window of a millisecond and a limit of one, two requests are let through in one millisecond |
| RateLimit.AdmissionBoundInMicros | backend/middleware/ratelimit.go:251-258 | counted in the store's whole microseconds, every window of the configured length is bounded |
| RateLimit.LimiterKeepsBound | backend/middleware/ratelimit.go:139-171 | after any run of any limiter object, its verdicts keep the bound on every such window of nanoseconds |
| RateLimit.RefusedMeansCrowded | backend/middleware/ratelimit.go:139-171 | a request is refused only if more requests than the limit, itself and refused ones included, arrived in the window of nanoseconds ending at it |
| RateLimit.CrowdsRefusedExactly | backend/middleware/ratelimit.go:239-276 | that every request with so many arrivals is refused holds in all runs exactly when the limit admits nothing or the window is too short for more instants |
| RateLimit.RefusedExactlyInMicros | backend/middleware/ratelimit.go:251-258 | counted in whole microseconds, and for windows of whole microseconds, a request is refused exactly when more than the limit arrived in its window |
| CacheKeys.BuildCacheKey | backend/middleware/cache.go:210-240 | the pieces written to the builder make up prefix, owner, path and query |
| CacheKeys.PrivateKeyIs | backend/middleware/cache.go:210-240 | what a private key looks like, written out |
| CacheKeys.SharedKeyIs | backend/middleware/cache.go:210-240 | what shared and anonymous keys look like |
| CacheKeys.PatternIs | backend/middleware/cache.go:301-306 | what the pattern of a mutation looks like for known and anonymous callers |
| CacheKeys.ClassMeans | backend/middleware/cache.go:308-309 | for the store's matching: a class of single, escaped and ranged characters accepts exactly what they do |
| CacheKeys.KeysAreInjective | backend/middleware/cache.go:210-240 | under private caching equal keys mean equal tenant, user, path and query, for paths without a question mark |
| CacheKeys.SharedKeysExactly | backend/middleware/cache.go:210-240 | among all requests, a request shares its key with another one exactly when its path and query contain a question mark that something follows |
| CacheKeys.ResourcePrefixIsPrefix | backend/middleware/cache.go:291-297 | the first three segments joined again are a prefix of the path they came from |
| CacheKeys.DeeperPathsHavePrefix | backend/middleware/cache.go:291-297 | the resource of a path is its first three segments, whatever follows them |
| CacheKeys.ShortPathsHaveNoPrefix | backend/middleware/cache.go:293-296 | paths of one or two segments have no resource |
| CacheKeys.InvalidatedExactly | backend/middleware/cache.go:286-320 | a mutation never matches a key of another tenant, whatever is in its path; it matches all keys of its own under the resource if that covers its own text; and exactly those that mention it behind the scope if it means nothing as a pattern |
| CacheKeys.MutationInvalidatesItsPath | backend/middleware/cache.go:286-320 | a mutation invalidates whatever any user of its tenant has cached for the mutated path, with any query, when its first three segments cover their own text, as they do without classes and escapes |
| CacheKeys.MutationClearsItsResource | backend/middleware/cache.go:286-320 | after a mutation of any path below three segments that cover their own text, no entry of the tenant is left for the path of the three or one below, with any query |
| CacheKeys.SiblingsStayExactly | backend/middleware/cache.go:286-320 | an entry that shares two segments stays exactly when its third does not continue the mutated one's |
| CacheKeys.NoClassesCover | backend/middleware/cache.go:304-313 | a path without classes and escapes covers its own text, stars and question marks in it or not |
| CacheKeys.OwnKeysExactly | backend/middleware/cache.go:286-320 | for any caller, a mutation matches all keys of its tenant under the resource exactly when the classes in it are closed and the pattern around it is found in its own text |
| CacheKeys.OwnKeysInPlace | backend/middleware/cache.go:286-320 | when no class or escape reaches beyond its segment, that is exactly when the resource matches itself from its start |
| CacheKeys.OwnKeysWithoutClasses | backend/middleware/cache.go:286-320 | and without stars, and with a first class or escape that does not match what it starts with, exactly when there is no class or escape at all |
| CacheKeys.OwnKeysWithListingClasses | backend/middleware/cache.go:286-320 | so for a resource without stars and escapes whose classes just list characters, exactly when it has no class |
| CacheKeys.BracketsMissTheirPath | backend/middleware/cache.go:286-320 | for any caller, two plain segments and a bracketed character are their own resource prefix and are not invalidated entirely by it |
| CacheKeys.BracketsThatMatchThemselves | backend/middleware/cache.go:286-320 | with a bracketed bracket, or a class of all but one character, in the third place they are |
| CacheKeys.Cache.InvalidateRelatedCache | backend/middleware/cache.go:286-320 | scanning and deleting removes exactly the entries the store's pattern matches, and nothing for paths of fewer than three segments |
| RedactInPlace.RedactMap | backend/middleware/logger.go:179-197 | overwriting a decoded tree of objects in place turns the document it stands for into the redacted one and leaves a tree |
| RedactInPlace.RedactNested | backend/middleware/logger.go:185-195 | going down into a nested object or the objects of an array, in place; scalars are left alone |
| RedactInPlace.StillValid | backend/middleware/logger.go:179-197 | a part of the tree that is not written to stands for the same document as before |
| Redact.RedactionPreserves | backend/middleware/logger.go:179-197 | along every path that meets no sensitive key there is a value after redaction exactly when there was one before, equal or with the same keys or length |
| Redact.RedactionIsIdempotent | backend/middleware/logger.go:179-197 | a second pass changes nothing |
| Redact.CleanAtPath | backend/middleware/logger.go:179-197 | in a clean document whatever any path finds behind a sensitive key is the marker |
| Redact.RedactionHidesExactly | backend/middleware/logger.go:179-197 | redaction hides everything sensitive exactly when arrays directly inside arrays, which it does not enter, hid theirs already |
| Redact.FlatDocumentsAreHidden | backend/middleware/logger.go:179-197 | without arrays of arrays, the value behind a sensitive key at any depth becomes the marker and stays present |
| Redact.NestedArrayKeepsSecret | backend/middleware/logger.go:188-195 | a secret in an array of arrays survives |

## Left out

- Timestamps, durations, event identifiers, payloads and actors of envelopes and records: no decision depends on them.
- The texts of the stock and data-point guards' errors, which the original varies: each row has one.
- Machine widths: sequence numbers do not wrap, and money and forecasts are exact reals without IEEE rounding or infinities; not being a number is modelled for the level of a forecast only.
- Tax rates of minus 100 per cent (`Taxes.Rate`), on which extraction divides by zero.
- A negative history capacity, panics inside hooks, and reuse of a builder after compiling, whose states map is shared with the definition.
- Hooks that call back into the synchronized wrapper.
- SyncMachine.Linearizable: where guards write, it speaks of schedules on which each `Can` is one step; on others there need not be a serial order.
- Machines of one batch that share an entity: each machine owns its entity value.
- `ExportDOT`, `AllowedEvents`, `CanTransition`, descriptions and the informational search for an initial state.
- Databases, Redis, HTTP, permission checks and audit rows; `services/core` is not part of this model. Stores are maps, a sorted set is a map from members to scores.
- Failing database calls, which drop an automatic completion silently, and failing Redis calls, on which the limiter fails open.
- The limiter's commands are sent as one pipeline, which is not a transaction: checks of one key are taken not to interleave, and the clock to be strictly increasing. The choice of limit and window, the burst factor, the aggregate check per tenant and abuse tracking are not modelled.
- CacheKeys.OwnKeysExactly: a resource with both a star and a class or escape left open is not covered, only that no other tenant is reached.
- Freshness of the response cache, which is invalidated alongside the handler.
- Lower-casing of keys (sensitivity is any predicate on keys), bodies that are not JSON objects, and decoded trees that share objects, which a decoder does not build.
- Ticket creation, numbering, station routing, chef assignment and printing; order handling and stock deduction.
- The database queries behind the pipeline stages, revenue trend labels and reorder dates: stages are arbitrary functions.
- Weekdays are day numbers modulo 7 counted from a Sunday; calendars and time zones are not modelled.
