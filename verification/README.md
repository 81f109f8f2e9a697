# The order saga, verified

The system sells one order through three services. `process_billing` charges the
customer (or skips that for payment on delivery) and then starts
`process_inventory` and `process_logistic` in parallel; whichever of the two commits
second completes the order. When a step fails, or an order gets stuck, `compensation`
jobs take back what was done; any number of them may overlap. A scheduler dispatches
compensation for stuck orders and hands dead ones to an operator, who may force-cancel
them.

The model is one order with everything that acts on it: its row, the three forward jobs,
any number of compensation jobs, the open sessions of scheduler and administrator, and
what the three services have recorded. All of these interleave freely.

* `SagaTypes`, `SagaMachine`: the state, and the steps. A handler is one step per piece
  that nothing can interleave with. HTTP calls have a free outcome: refused, carried out,
  or carried out with the response lost. Handlers may die between any two steps, and an
  enqueue may be dropped because its job id is taken. `Possible` and `After` describe runs.
* `SagaInvariant`, `SagaHistory`: what every step keeps, about the state and about how it
  came about.
* `StepLaws`, `RunLaws`: what each step amounts to and what must have preceded it, said by
  statuses, call outcomes, literal times and counts instead of the machine's functions.
* `SagaTheorems`, `CompensationTheorems`, `SchedulerTheorems`, `RecoveryTheorems`,
  `OperatorTheorems`: the results, for every reachable state and over every run.
* `SagaExamples`: runs that show where the system falls short of what one might expect.
* `MockEnv`, `Metrics`, `OrderRow`, `Handlers`, `Scheduler`: the code in its own imperative
  form, as classes whose methods update the stored fields. Each method of `OrderSaga` may be
  called when the machine's step is enabled, and takes exactly that step; `Valid` says that
  the object's state is reachable, so all results hold of it (`ValidIsSound`). The
  scheduler's loops run over many orders.
* `OrderSystem`: all orders together, sharing the services and the counters; any of them
  takes any enabled step while the others stay as they are.
* `OrderCreation`: idempotent bulk creation, with requests that race from their first read
  to their last enqueue.

Several promises hold only under a condition; the model says exactly when.

* A cancelled order is clean at every service if and only if no forward call of its run was
  carried out without being acknowledged (`CleanExactly`).
* COMPLETED is final if and only if no compensation job is waiting and no poll has fetched
  the order (`CompletedFinalExactly`).
* An order in PROCESSING can still be completed or rolled back without an administrator if
  and only if none of its forward handlers has died, nor the request that created it before
  it enqueued billing (`CanFinishExactly`). With administrators it can be ended if and only
  if that holds or a live step may still fail (`CanEndExactly`).
* An order is COMPLETED if and only if all its steps have succeeded and no compensation run
  has passed its guard (`NoLostCompletion`).
* A stale order off the forward path is closed, with an operator or in the poll's sight if
  and only if the last deciding write of its run was not a guard or a failure that found no
  SUCCESS (`UnseenExactly`, `CoveredExactly`).
* An order stays in MANUAL until the first administrator writes if and only if it is settled:
  nothing can fail or start any more, and the runs at work cannot take back everything
  (`ManualStaysExactly`).
* A bulk request fails if and only if it repeats a key that was not stored when it read the
  table, or was overtaken on one of its keys (`FailsExactly`); a stored order has its billing
  job if and only if its request has got to it (`JobExactly`).
* A step is COMPENSATED if and only if some job sent a reversal that the service had carried
  out and whose answer arrived, and then came to its second transaction
  (`CompensatedExactly`).
* The "success" counter is the number of orders ever COMPLETED plus the number whose handler
  counted and then died in its commit; "compensated" and "stuck" are counted as exactly
  (`CountersTell`).

Where the documents and the code differ, the model follows the code.
`docs/architecture/SAGA_ORCHESTRATOR.md` says that compensating transactions run in reverse
order; the code sends them in parallel. It also says that orders stuck in PROCESSING are
rolled back by the scheduler; if a handler died, or the request before it enqueued billing,
the PENDING guard defers that for ever (`StuckForGood`, `NeverEnqueued`). `docs/API.md` says that force-cancel applies to orders in manual
intervention only; the check and the write are separate, so the write may find another
status (`ForceCancelTooLate`), though never COMPLETED (`BlindWritesSpareCompleted`). What is
said about MANUAL ends with the first administrator's write: a second one may have read
MANUAL as well.

## Model

| member | source | states |
|---|---|---|
| `SagaInvariant.Step` | src/workers/saga_tasks/compensation.py:41-56 | The invariant is kept by every step of every handler, session and service call; statuses only move forward; no order goes back to PROCESSING or COMPLETED; forward handlers act only before some compensation run has passed its guard |
| `StepLaws.OnlyTheseWriteStatuses` | src/workers/saga_tasks/billing.py:72-94 | Step statuses change only in the commits of billing and the two steps and in the second transaction of compensation |
| `StepLaws.OnlyTheseWriteGlobal` | src/workers/scheduler.py:76-81 | The global status changes only in failures and completions, both transactions of compensation, the dead-order check and a force-cancel |
| `StepLaws.OnlyCallsReachServices` | mock_env/main.py:43-153 | A service's record changes only by a call |
| `StepLaws.OnlyHandlersMoveJobs` | src/workers/saga_tasks/billing.py:74-89 | Forward jobs move only by forward handlers |
| `StepLaws.Stamps` | src/db/models/types.py:41-46 | The time stamp is set to the time of every step that changes a column, of a passed guard and of both blind writes, and by the poll's commit to the time of its dispatch; by nothing else |
| `StepLaws.ForwardCall` | src/workers/saga_tasks/billing.py:36-61 | A forward call is carried out exactly if granted, succeeds exactly if its answer arrives too, is not made for billing on delivery, and touches no other service |
| `StepLaws.BillingGoesOn` | src/workers/saga_tasks/billing.py:72-89 | Billing goes on exactly after a skipped or successful call; at its commit both steps are enqueued and the status is SKIPPED exactly for payment on delivery |
| `StepLaws.BillingGivesUp` | src/workers/saga_tasks/billing.py:90-100 | Billing gives up exactly after a failed call: FAILED, both steps CANCELLED, COMPENSATING, and the fixed-id job unless taken |
| `StepLaws.StepEnqueued` | src/workers/saga_tasks/billing.py:74-89 | A step is enqueued only by billing, between its call and its commit |
| `StepLaws.StepCommits` | src/workers/saga_tasks/inventory.py:55-88 | A failed step always leaves COMPENSATING and dispatches unless it was so already; a successful one completes exactly from PROCESSING with all else done, and otherwise leaves the global status |
| `StepLaws.LiveIdsDiffer` | src/workers/saga_tasks/compensation.py:146-153 | No two queued or running compensation jobs of an order share an id |
| `StepLaws.SecondsApart` | src/workers/scheduler.py:111 | Time-stamped ids are equal exactly within one second |
| `StepLaws.JobsKept` | src/workers/scheduler.py:108-113 | A step appends at most one job and moves none but its own; ids and retry counts never change |
| `StepLaws.FirstTransaction` | src/workers/saga_tasks/compensation.py:41-56 | With a step PENDING nothing changes and the run ends; otherwise COMPENSATING, and exactly the SUCCESS services are to be reversed |
| `StepLaws.ReversalAnswered` | src/workers/saga_tasks/compensation.py:60-75 | A reversal is counted exactly if the service has carried it out and the answer arrived; a lost answer is not counted |
| `StepLaws.SecondTransaction` | src/workers/saga_tasks/compensation.py:104-145 | COMPENSATED exactly for counted reversals; no SUCCESS left: CANCELLED; left after retry 4: MANUAL and the run ends; left before: global status unchanged and a retry is to come |
| `StepLaws.RetryEnqueued` | src/workers/saga_tasks/compensation.py:137-153 | The retry counts one more under the second's id, and is lost only if the queue is down or that id taken |
| `StepLaws.DeathWritesNothing` | src/workers/saga_tasks/billing.py:105-116 | A handler or run that dies writes no column and no record; only a forward handler may dispatch |
| `StepLaws.PollFinds` | src/db/repositories/order.py:32-52 | The poll finds an order exactly if nothing has written it for more than 60 s and it is PROCESSING, or COMPENSATING with a SUCCESS |
| `StepLaws.PollDispatches` | src/workers/scheduler.py:106-126 | A dispatch is a job with this second's id and retry 0 unless taken or dropped, and a stamp exactly if answered; the row is untouched |
| `StepLaws.DeadFinds` | src/workers/scheduler.py:56-63 | The dead-order check finds an order exactly if it is COMPENSATING and nothing has written it for more than 3600 s |
| `StepLaws.DeadHolds` | src/workers/scheduler.py:65-81 | A session of that check holds an order only by finding it so, and writes MANUAL and nothing else |
| `StepLaws.AdminFinds` | src/api/endpoints/order.py:69-73 | The check of force-cancel passes exactly in MANUAL |
| `StepLaws.AdminHolds` | src/api/endpoints/order.py:65-75 | A force-cancel session opens only in MANUAL, and writes CANCELLED and nothing else |
| `StepLaws.StartsFresh` | src/db/models/order.py:34-44 | A new order is PROCESSING with every step PENDING and no job |
| `RunLaws.CompensatedExactly` | src/workers/saga_tasks/compensation.py:90-109 | Over every run a status is COMPENSATED if and only if some job's reversal was carried out, its answer arrived, and the job came to its second transaction |
| `RunLaws.ActedUponWasSeen` | src/api/endpoints/order.py:65-75 | In every run a force-cancel is preceded by a read in MANUAL, an escalation by a read COMPENSATING for over 3600 s, a dispatch by a poll that found the order stuck for over 60 s |
| `SagaInvariant.Always` | src/workers/saga_tasks/billing.py:63-102 | The invariant holds after every run |
| `SagaInvariant.BarrierStopsForward` | src/workers/saga_tasks/compensation.py:41-48 | After a passed guard every forward job has committed or never existed |
| `SagaInvariant.MergeKeepsRow` | src/workers/saga_tasks/compensation.py:104-136 | Writing COMPENSATED from a stale snapshot keeps row and services consistent and never revives a service |
| `SagaHistory.LogStep` | src/workers/saga_tasks/compensation.py:75-88 | Every step keeps the order of calls: forward first and once, reversals only after an acknowledged forward call |
| `SagaHistory.DrainStep` | src/workers/saga_tasks/compensation.py:111-153 | COMPENSATING after the barrier always has a run at work, a SUCCESS for the poll to see, or a run that died half-way |
| `SagaHistory.CountStep` | src/workers/saga_tasks/inventory.py:74-76 | The success counter moves at most once per order, and without a completion only in a commit that failed |
| `SagaHistory.TimeStep` | src/workers/scheduler.py:106-128 | Every step keeps dispatch times spaced by more than the poll's timeout |
| `SagaHistory.BudgetStep` | src/workers/saga_tasks/compensation.py:120-153 | Attempts made plus attempts still possible never exceed five per job that is not a retry |
| `SagaTheorems.LedgerAgreement` | src/workers/saga_tasks/compensation.py:104-119 | A CANCELLED order that was never forced leaves a service "processed" exactly where an acknowledgement was lost; a COMPLETED one is "processed" everywhere but at a skipped billing |
| `SagaTheorems.LostExactly` | src/workers/saga_tasks/billing.py:48-59 | The lost acknowledgements of a state are exactly the unacknowledged forward calls of its run |
| `SagaTheorems.CleanExactly` | src/workers/saga_tasks/billing.py:47-59 | A system-cancelled order is clean at all services if and only if its run lost no acknowledgement of a forward call |
| `SagaTheorems.Barrier` | src/workers/saga_tasks/compensation.py:41-56 | Over any run from a passed guard no forward handler takes a step |
| `SagaTheorems.CallDiscipline` | src/workers/saga_tasks/compensation.py:50-88 | In every history forward calls precede reversals, each service is called forward at most once, reversals go only to services that acknowledged, and a POSTPAYMENT order never causes a billing call |
| `SagaTheorems.BillingFailure` | src/workers/saga_tasks/billing.py:90-100 | Billing FAILED if and only if inventory and logistics are CANCELLED, and then neither was ever called |
| `SagaTheorems.RecordsMoveForward` | mock_env/main.py:58-66 | Over any run a service's record goes absent, processed, compensated, each at most once |
| `SagaTheorems.CompletedFromProcessing` | src/workers/saga_tasks/inventory.py:55-77 | COMPLETED is entered only from PROCESSING, although the handlers test only for COMPENSATING |
| `SagaTheorems.NeverCompletes` | src/workers/saga_tasks/logistics.py:55-77 | An order that has left PROCESSING without completing never completes in any later interleaving |
| `SagaTheorems.NoLostCompletion` | src/workers/saga_tasks/logistics.py:63-88 | PROCESSING implies that some step is PENDING and none FAILED; COMPLETED holds if and only if billing, inventory and logistics have all succeeded and no compensation run has passed its guard |
| `SagaTheorems.CompletedFinalExactly` | src/workers/saga_tasks/compensation.py:41-56 | COMPLETED survives every run if and only if no compensation job waits and no poll holds the order |
| `SagaTheorems.CompletedStaysWithoutPoll` | src/workers/scheduler.py:106-114 | Without a poll dispatch, COMPLETED is final whatever handlers failed on the way |
| `SagaTheorems.JobsHaveCause` | src/workers/saga_tasks/inventory.py:78-100 | Before any poll dispatch, a compensation job exists only if a step FAILED or a PENDING step's handler is dead |
| `SagaTheorems.BlindWritesSpareCompleted` | src/workers/scheduler.py:58-81 | Neither lock-free read-then-write overwrites COMPLETED or PROCESSING, whatever ran since the read |
| `SagaTheorems.ReachableExactly` | src/workers/saga_tasks/compensation.py:24-153 | The least set of states that contains new orders and is closed under all steps is the set of states in which some run ends |
| `SagaTheorems.CancelledIsClean` | src/workers/saga_tasks/compensation.py:111-119 | CANCELLED and never forced implies no SUCCESS and no PENDING step |
| `SagaTheorems.CleanStays` | src/workers/saga_tasks/compensation.py:54-56 | That persists over every later run, also through COMPENSATING |
| `SagaTheorems.StatusesMoveForward` | src/workers/saga_tasks/compensation.py:104-109 | Over any run a status goes from PENDING to any other, then only from SUCCESS to COMPENSATED |
| `SagaTheorems.DeadHandlerBlocks` | src/workers/saga_tasks/compensation.py:41-48 | The step of a dead handler stays PENDING over every run, and the order is then never completed, nor cancelled except by force |
| `RecoveryTheorems.CanFinishExactly` | src/workers/saga_tasks/compensation.py:41-48 | From a reachable PROCESSING order some run without an administrator ends COMPLETED or system-cancelled if and only if no forward handler has died, nor the creating request before its enqueue |
| `RecoveryTheorems.CanEndExactly` | src/workers/scheduler.py:58-81 | With administrators it can end COMPLETED or CANCELLED if and only if, besides that, a live step may still fail it into COMPENSATING |
| `RecoveryTheorems.StaysStuck` | src/workers/saga_tasks/inventory.py:55-88 | Otherwise it stays in PROCESSING, dead handler and all, over every run, administrators included |
| `RecoveryTheorems.NeverBilled` | src/services/order.py:59-71 | If billing died, or its request, before the steps were enqueued, the row never changes again in any run |
| `RecoveryTheorems.Finish` | src/workers/saga_tasks/billing.py:63-102 | Such a run, built: every live handler commits in turn, and the waiting job takes back what has to be |
| `RecoveryTheorems.CompensationDrains` | src/workers/saga_tasks/compensation.py:31-153 | Unless billing holds the row, all compensation runs and their retries can run to their end, none dying, without any forward handler moving |
| `CompensationTheorems.Confluence` | src/workers/saga_tasks/compensation.py:50-52 | Over any run of overlapping compensations a status ends COMPENSATED exactly if some merged run had its reversal acknowledged |
| `CompensationTheorems.SameAcksSameStatuses` | src/workers/saga_tasks/compensation.py:104-109 | Two interleavings with the same merged acknowledgements end in the same statuses |
| `CompensationTheorems.FullyAcknowledgedRunCancels` | src/workers/saga_tasks/compensation.py:113-119 | One run with every reversal acknowledged cancels the order, whatever other runs do |
| `CompensationTheorems.UninterruptedRun` | src/workers/saga_tasks/compensation.py:31-119 | A job that finds nothing PENDING and whose calls succeed ends CANCELLED with every SUCCESS turned COMPENSATED |
| `CompensationTheorems.AttemptsBounded` | src/workers/saga_tasks/compensation.py:120-138 | At most five runs start per compensation job that is not a retry |
| `CompensationTheorems.FuelBound` | src/workers/saga_tasks/compensation.py:120-153 | Steps taken plus fuel left never exceed the fuel at the start plus thirty per dispatch |
| `CompensationTheorems.CompensationTerminates` | src/workers/saga_tasks/compensation.py:120-153 | All compensation runs together take at most thirty steps per dispatch |
| `CompensationTheorems.UnseenExactly` | src/db/repositories/order.py:43-49 | Over every run, an order is COMPENSATING with no SUCCESS, and so invisible to the poll, if and only if the last write that decides it was a passed guard or a failure with no SUCCESS on the row |
| `CompensationTheorems.CoveredExactly` | src/db/repositories/order.py:34-52 | Over every run, a stale order off the forward path is CANCELLED, MANUAL or matched by the poll if and only if that was not the last deciding write |
| `CompensationTheorems.Drained` | src/workers/saga_tasks/compensation.py:113-153 | With all jobs ended the same condition decides; what it excludes is COMPENSATING, after a death between the two transactions or, before any passed guard, after every run deferred or died waiting |
| `CompensationTheorems.GivingUpTakesFive` | src/workers/saga_tasks/compensation.py:121-129 | A run sets MANUAL if and only if it is in the second transaction of retry 4 with a SUCCESS left, and then five attempts were made |
| `CompensationTheorems.FailureIsDispatched` | src/workers/saga_tasks/billing.py:90-100 | An order is COMPENSATING, MANUAL or CANCELLED only if it has had a compensation job |
| `CompensationTheorems.LostRetryIsCovered` | src/workers/saga_tasks/compensation.py:146-153 | Right after a requeue, accepted or lost, a stale order is covered if and only if no guard has found nothing since the last merge or other deciding write |
| `SchedulerTheorems.SchedulerCoverage` | src/db/repositories/order.py:34-52 | A stale unfinished order matches the poll or the dead-order query; a finished one never matches either |
| `SchedulerTheorems.DispatchRate` | src/workers/scheduler.py:106-128 | At most T / 60 s + 1 poll dispatches of one order in a window of length T, as long as those before the last got to stamp it |
| `SchedulerTheorems.CompletionsExactly` | src/workers/saga_tasks/logistics.py:74-76 | Committed transitions into COMPLETED: one if the order is ever COMPLETED in the run, else none |
| `SchedulerTheorems.SuccessCounter` | src/workers/metrics.py:48-56 | Over any run one order adds to "success" exactly one if it was ever COMPLETED plus one if a handler counted and died in its commit, and at most one in all |
| `SchedulerTheorems.OtherCounters` | src/workers/metrics.py:57-60 | Over every run of an order "compensated" counts its merges into CANCELLED and "stuck" its handovers to an operator, committed or not |
| `OrderSystem.CountersTell` | src/workers/metrics.py:48-60 | In every state of the whole system the shared "success", "compensated" and "stuck" are exactly what the runs of all orders add up to, and "compensation_attempted" is at most five per compensation job accepted other than as a retry |
| `OrderSystem.OrderSystem.Perform` | src/workers/metrics.py:15-60 | Any order takes any enabled step as the machine does; every other order stays as it is, and the shared counters still add up |
| `OrderSystem.OrderSystem.Accept` | src/services/order.py:59-60 | A committed order joins in its initial state |
| `SchedulerTheorems.DispatchLeavesJob` | src/workers/scheduler.py:108-113 | A poll dispatch starts a fresh job unless a retry, or the last dispatch and that without a stamp, took the same second for its id |
| `SagaExamples.LostChargeStands` | src/workers/saga_tasks/billing.py:58-59 | A reachable CANCELLED order, never forced, with its charge still standing |
| `SagaExamples.InvisibleToPoll` | src/db/repositories/order.py:43-49 | A reachable COMPENSATING order without jobs that the poll never matches |
| `SagaExamples.DeferredAndForgotten` | src/workers/saga_tasks/inventory.py:55-61 | Both steps fail around a deferring run: a reachable COMPENSATING order with nothing to take back, no live job, and no poll that ever sees it |
| `SagaExamples.CompletionUndone` | src/workers/scheduler.py:106-114 | A reachable COMPLETED order that a waiting poll job then cancels |
| `SagaExamples.StuckForGood` | src/workers/saga_tasks/billing.py:105-116 | A reachable order in PROCESSING whose billing handler died: every poll matches it, and its row never changes again, whoever acts |
| `SagaExamples.NeverEnqueued` | src/services/order.py:60-71 | The same for a request that died between its commit and its enqueue |
| `SagaExamples.DispatchedTwice` | src/workers/scheduler.py:107-126 | An enqueue that the queue got and that then raised leaves no stamp: the order is dispatched again half a minute later |
| `SagaExamples.ForceCancelTooLate` | src/api/endpoints/order.py:65-75 | An administrator reads MANUAL, a waiting job starts, and the write finds COMPENSATING |
| `OperatorTheorems.ManualStaysExactly` | src/api/endpoints/order.py:69-75 | Over every run up to the first force-cancel, an order in MANUAL stays there if and only if no step handler can still fail, no job waits and no poll holds it (or a dead handler defers them all), and the runs at work are last tries that together cannot take back every SUCCESS |
| `OperatorTheorems.SettledStays` | src/workers/saga_tasks/compensation.py:111-136 | That condition is kept by every step but an administrator's, and with it MANUAL |
| `OperatorTheorems.TakeAllBack` | src/workers/saga_tasks/compensation.py:104-119 | Runs in their last try that together reach every SUCCESS can cancel the order, leaving no SUCCESS |
| `MockEnv.Services.ProcessServiceCall` | mock_env/main.py:43-153 | A repeated action succeeds without effect; otherwise refused without effect or recorded; no other record changes |
| `Metrics.Counters.RecordFinalStatusTransition` | src/workers/metrics.py:48-60 | Each counter moves by one exactly for a change into its status |
| `OrderRow.Order.Flush` | src/db/models/types.py:41-46 | The time stamp moves exactly when a loaded column has changed |
| `OrderRow.Order.CommitBilling` | src/workers/saga_tasks/billing.py:72-102 | The succeeding transaction of billing, on any row with these columns |
| `OrderRow.Order.RejectBilling` | src/workers/saga_tasks/billing.py:90-102 | The failing transaction: three statuses and COMPENSATING |
| `OrderRow.Order.CommitInventory` | src/workers/saga_tasks/inventory.py:55-88 | Saves only its own status under COMPENSATING; completes exactly as the second success; fails exactly otherwise on a failed call |
| `OrderRow.Order.CommitLogistics` | src/workers/saga_tasks/logistics.py:55-88 | The same for logistics |
| `OrderRow.Order.StartCompensation` | src/workers/saga_tasks/compensation.py:41-56 | Defers without a write exactly if a step is PENDING; otherwise takes the snapshot and sets COMPENSATING |
| `OrderRow.Order.FinishCompensation` | src/workers/saga_tasks/compensation.py:104-145 | COMPENSATED exactly for snapshot services with a result; then CANCELLED, MANUAL from retry 4 on, or unchanged with a retry |
| `Handlers.OrderSaga.RequestBilling` | src/workers/saga_tasks/billing.py:36-61 | No call and SKIPPED for POSTPAYMENT; otherwise one charge, FAILED unless a 200 arrives; other orders' records unchanged |
| `Handlers.OrderSaga.CommitBilling` | src/workers/saga_tasks/billing.py:63-102 | The commit that ends the fan-out and releases the row |
| `Handlers.OrderSaga.RejectBilling` | src/workers/saga_tasks/billing.py:90-102 | The failing branch, with its compensation job |
| `Handlers.OrderSaga.RequestInventory` | src/workers/saga_tasks/inventory.py:30-42 | One reserve call, whatever the order's status; other orders' records unchanged |
| `Handlers.OrderSaga.CommitInventory` | src/workers/saga_tasks/inventory.py:46-89 | The whole transaction with counter and compensation job |
| `Handlers.OrderSaga.RequestLogistics` | src/workers/saga_tasks/logistics.py:30-42 | One arrange call, whatever the order's status; other orders' records unchanged |
| `Handlers.OrderSaga.CommitLogistics` | src/workers/saga_tasks/logistics.py:46-89 | The whole transaction with counter and compensation job |
| `Handlers.OrderSaga.AbortHandler` | src/workers/saga_tasks/inventory.py:91-100 | A live handler, or a request before its enqueue, dies: it writes nothing; a handler may have counted a completion, and may enqueue compensation |
| `Handlers.OrderSaga.AbortCompensation` | src/workers/saga_tasks/compensation.py:111-136 | A run dies; in its second commit it has counted "compensated" or "stuck" for an outcome that is not written |
| `Handlers.OrderSaga.Perform` | src/workers/saga_tasks/compensation.py:24-153 | Every enabled step of the machine is taken by one of the methods, with no other order's records and the counters moved as its history says |
| `Handlers.OrderSaga.StartCompensation` | src/workers/saga_tasks/compensation.py:29-56 | Counts the attempt, then ends or takes its snapshot |
| `Handlers.OrderSaga.InvokeRefund` | src/workers/saga_tasks/compensation.py:60-93 | One reversal: counted exactly if carried out and answered; other orders' records unchanged |
| `Handlers.OrderSaga.FinishCompensation` | src/workers/saga_tasks/compensation.py:95-145 | The merging transaction as the machine's step: CANCELLED without a SUCCESS, MANUAL with one after retry 4, otherwise unchanged with a retry to come; "compensated" moves exactly on entry into CANCELLED, "stuck" exactly on giving up |
| `Handlers.ValidIsSound` | src/workers/saga_tasks/compensation.py:24-153 | Every object that only these methods have changed satisfies the invariant and stands at the end of a run |
| `Handlers.OrderSaga.CountOutcome` | src/workers/saga_tasks/compensation.py:113-130 | "compensated" counts only a change into CANCELLED, "stuck" every run that gives up |
| `Handlers.OrderSaga.RequeueCompensation` | src/workers/saga_tasks/compensation.py:138-153 | After the commit, a retry with the next count under a time-stamped id, unless the id is taken or the queue is down |
| `Handlers.OrderSaga.IsStuck` | src/db/repositories/order.py:34-52 | The poll predicate on stored columns |
| `Handlers.OrderSaga.DispatchCompensation` | src/workers/scheduler.py:106-126 | One job and one time stamp; or neither; or, if the queue got the job and the enqueue then raised, the job alone |
| `Handlers.OrderSaga.Escalate` | src/workers/scheduler.py:76-78 | MANUAL by id, counted as stuck |
| `Handlers.OrderSaga.CheckForceCancel` | src/api/endpoints/order.py:65-73 | Goes on if and only if the stored status is MANUAL |
| `Handlers.OrderSaga.ForceCancel` | src/db/repositories/order.py:19-24 | CANCELLED by id, without looking at the status again |
| `Scheduler.SelectStuck` | src/db/repositories/order.py:26-54 | Exactly the orders of the table that match the poll predicate |
| `Scheduler.DispatchStuck` | src/workers/scheduler.py:106-126 | Each fetched order gets its own dispatch; a failed enqueue leaves that order alone and the others unaffected |
| `Scheduler.CommitPoll` | src/workers/scheduler.py:128 | The commit writes the remembered time stamp of each dispatched order, over whatever was written since |
| `Scheduler.SelectDead` | src/workers/scheduler.py:56-63 | Exactly the orders COMPENSATING and unwritten for more than 3600 s |
| `Scheduler.EscalateDead` | src/workers/scheduler.py:65-81 | Every order that the query had found goes to MANUAL, whatever its status is by then; "stuck" grows by their number and no other counter moves |
| `Scheduler.Fetch` | src/workers/scheduler.py:99-101 | Orders enter the poll's session only while they match its query, each with the machine's step |
| `Scheduler.FetchDead` | src/workers/scheduler.py:58-63 | Orders enter the check's session only while they match its query, each with the machine's step |
| `OrderCreation.Partition` | src/db/repositories/order.py:61-75 | Saved and existing orders have exactly the requested keys and none in common |
| `OrderCreation.SavedAsRequested` | src/services/order.py:46-56 | The saved rows hold, in order, each its own entry of the request: all those whose key was not stored at the read |
| `OrderCreation.StoredWasRequested` | src/services/order.py:46-60 | After any interleaving every stored row holds an entry of some request |
| `OrderCreation.PersistKeepsTable` | src/db/models/order.py:32 | Keys stay unique and rows are only added, also when the existing orders were read from an older table |
| `OrderCreation.BulkStep` | src/services/order.py:59-71 | Every read, commit, enqueue or death of any request keeps keys unique, rows in place, and each stored order's billing job in exactly one place: enqueued, owed by one request, or lost with one |
| `OrderCreation.BulkAlways` | src/services/order.py:59-71 | The same over any interleaving of requests |
| `OrderCreation.AtMostOneJob` | src/services/order.py:62-71 | After any interleaving no order has two billing jobs, every job belongs to a stored order, and what one request has still to enqueue has no job and is owed by no other |
| `OrderCreation.JobExactly` | src/services/order.py:59-71 | A stored order has its job if and only if no request still owes it and none died owing it |
| `OrderCreation.LostForGood` | src/services/order.py:62-71 | An order whose request died owing its job never gets one, in any later history |
| `OrderCreation.RepeatSavesNothing` | src/services/order.py:59-71 | After a request went through, the same request arriving later saves nothing and enqueues nothing, whatever came in between |
| `OrderCreation.FailsExactly` | src/db/repositories/order.py:61-75 | However old its read, a request fails, storing nothing, if and only if it repeats a key that was not stored when it read, or one of its keys was stored since |
| `OrderCreation.UndisturbedFailsExactly` | src/db/repositories/order.py:67-73 | Undisturbed, it fails if and only if a key that is not stored is repeated in the batch |
| `OrderCreation.SingleAnswer` | src/api/endpoints/order.py:44-48 | A single request is answered with exactly one order, the stored one if its key exists |
| `OrderCreation.OrderService.Begin` | src/services/order.py:36-44 | Refused without effect exactly if some good is missing; otherwise the answer holds exactly the stored orders whose keys are requested |
| `OrderCreation.OrderService.Persist` | src/db/repositories/order.py:61-75 | All new rows or none, each with its own entry of the request; a conflict exactly on a repeated fresh key or an overtaken one |
| `OrderCreation.OrderService.EnqueueBilling` | src/services/order.py:62-71 | One billing job for each order the request saved, whatever other requests have done since its commit |

## Left out

Assumptions of the machine:

- A forward job runs at most once per order: ids are fixed and a job is not redelivered after its worker was cancelled. A cancelled or timed-out job is a handler that dies.
- A refused HTTP call has no effect, and a granted one takes effect during the call, not after the caller has given up.
- An exception in a commit means that the commit has not taken effect.
- A poll ends before the next one starts. The sessions of dead-order check and administrators may overlap and may be abandoned.
- Clocks are monotone, and the ORM's time stamp is that of the write rather than of the transaction's start.
- Whether the result of an ended job is still cached, and so blocks its id, is free at every enqueue.
- The deferral of a retry by 15 seconds: a retry may start at once, which only adds runs.
- Rows are never deleted, so the order-not-found branches are absent.

Parts of the system that the model does not have:

- Orders share nothing but the services' records and the counters, so the machine is about one order; `OrderSystem` puts any number of them together.
- Alerts, logging, step counters, histograms and the gauge of manual orders: no effect on the saga.
- Latencies, error codes and success rates of the mock services: a call has a free outcome.
- Authentication, users, goods' prices, shipping details, field validation, settings, migrations.
- Order ids: numbered in order of insertion instead of UUIDs.
- The enqueues of one bulk request may come in any order and between those of others; `OrderCreation.OrderService.EnqueueBilling` makes them one after the other.
