/** The handlers, cut where they can be interleaved. Each piece is one step of the
    machine: it may run when the step is enabled, and its effect on the whole state
    is that of the step. So everything proved of the machine's runs holds of any
    sequence of these methods. */
module Handlers {
  import opened SagaTypes
  import opened SagaMachine
  import opened SagaInvariant
  import opened SagaHistory
  import opened SagaTheorems
  import opened MockEnv
  import opened Metrics
  import opened OrderRow

  /** What the code does not store: proof-only state. */
  datatype Shadow = Shadow(billingLost: bool, inventoryLost: bool, logisticsLost: bool,
                           forced: bool, barrier: bool, clock: int, past: History)

  function ShadowOf(s: Saga): Shadow {
    Shadow(s.row.billing.lost, s.row.inventory.lost, s.row.logistics.lost, s.row.forced, s.row.barrier, s.clock, s.past)
  }

  lemma Take(s: Saga, now: int, a: Act) returns (s': Saga)
    requires Reachable(s) && Enabled(s, now, a)
    ensures Reachable(s') && s' == Next(s, Event(now, a))
  {
    s' := Next(s, Event(now, a));
    ReachableNext(s, Event(now, a));
  }

  /** One order with the jobs and sessions that act on it. */
  class OrderSaga {
    const order: Order
    const services: Services
    const counters: Counters

    // The three forward jobs and the local variables they carry.
    var billingWorker: Worker
    var inventoryWorker: Worker
    var logisticsWorker: Worker
    // The compensation jobs, and the open sessions of scheduler and admin.
    var runs: seq<Run>
    var sessions: Sessions

    ghost var shadow: Shadow

    ghost function RowState(): Row
      reads this, order, services
    {
      RowIn(services.db)
    }

    ghost function RowIn(db: Records): Row
      reads this, order
    {
      Row(order.paymentType,
          Lane(order.billingStatus, billingWorker, RecordIn(db, Billing, order.id), shadow.billingLost),
          Lane(order.inventoryStatus, inventoryWorker, RecordIn(db, Inventory, order.id), shadow.inventoryLost),
          Lane(order.logisticsStatus, logisticsWorker, RecordIn(db, Logistics, order.id), shadow.logisticsLost),
          order.globalStatus, shadow.forced, shadow.barrier)
    }

    /** No other order's records have changed. */
    ghost predicate OthersKept(db: Records)
      reads services
    {
      forall svc: Service, id :: id != order.id ==> RecordIn(services.db, svc, id) == RecordIn(db, svc, id)
    }

    ghost function State(): Saga
      reads this, order, services
    {
      Saga(RowState(), order.updatedAt, runs, sessions, shadow.clock, shadow.past)
    }

    ghost predicate Valid()
      reads this, order, services
    {
      services.Valid() && Reachable(State())
    }

    constructor (order: Order, services: Services, counters: Counters, now: int)
      requires services.Valid() && order.Stores(Init(order.paymentType, now).row) && order.updatedAt == now
      requires forall svc: Service :: RecordIn(services.db, svc, order.id) == Absent
      ensures Valid() && State() == Init(order.paymentType, now)
      ensures this.order == order && this.services == services && this.counters == counters
    {
      ReachableInit(order.paymentType, now);
      this.order, this.services, this.counters := order, services, counters;
      billingWorker, inventoryWorker, logisticsWorker := NotEnqueued, NotEnqueued, NotEnqueued;
      runs, sessions := [], Sessions(Idle, 0, 0);
      shadow := Shadow(false, false, false, false, false, now, History(false, 0, 0, 0, 0, 0, 0, [], {}, []));
    }

    /** `enqueue_job("compensation", ...)`. */
    method EnqueueCompensation(id: JobId, retry: nat, cached: bool)
      modifies this`runs
      ensures runs == Enqueue(old(runs), id, retry, cached)
    {
      if !Taken(runs, id, cached) {
        runs := runs + [Run(id, retry, Waiting)];
      }
    }

    /** The request for a charge, reservation or shipment, and the status that the
        handler gathers from the response. */
    method PostForward(svc: Service, granted: bool, delivered: bool) returns (result: StepStatus)
      requires services.Valid()
      modifies services
      ensures services.Valid()
      ensures var lane := old(RowState()).LaneOf(svc);
              var (record, ok) := ServiceCall(lane.record, false, granted);
              && RowState() == old(RowState()).WithLane(svc, lane.(record := record))
              && result == if ok && delivered then Success else Failed
      ensures OthersKept(old(services.db))
    {
      var ok;
      match svc {
        case Billing => ok := services.ProcessServiceCall(Billing, order.id, "charge", false, granted);
        case Inventory => ok := services.ProcessServiceCall(Inventory, order.id, "reserve", false, granted);
        case Logistics => ok := services.ProcessServiceCall(Logistics, order.id, "arrange", false, granted);
      }
      result := if ok && delivered then Success else Failed;
    }

    // ----- src/workers/saga_tasks/billing.py -------------------------------

    /** The API enqueues `billing_{id}` once the order is committed. */
    method EnqueueBillingJob(now: int)
      requires Valid() && Enabled(State(), now, EnqueueBilling)
      modifies this
      ensures Valid() && State() == Next(old(State()), Event(now, EnqueueBilling))
    {
      ghost var s' := Take(State(), now, EnqueueBilling);
      billingWorker := Queued;
      shadow := ShadowOf(s');
    }

    method RequestBilling(now: int, granted: bool, delivered: bool)
      requires Valid() && Enabled(State(), now, CallService(Billing, granted, delivered))
      modifies this, services
      ensures Valid() && State() == Next(old(State()), Event(now, CallService(Billing, granted, delivered)))
      ensures OthersKept(old(services.db))
    {
      ghost var s' := Take(State(), now, CallService(Billing, granted, delivered));
      if order.paymentType == Postpayment {
        billingWorker := Called(Skipped);
      } else {
        var result := PostForward(Billing, granted, delivered);
        billingWorker := Called(result);
      }
      shadow := ShadowOf(s');
    }

    /** The succeeding branch locks the row and enqueues the two steps ... */
    method LockForFanOut(now: int)
      requires Valid() && Enabled(State(), now, BillingLock)
      modifies this
      ensures Valid() && State() == Next(old(State()), Event(now, BillingLock))
    {
      ghost var s' := Take(State(), now, BillingLock);
      billingWorker := FanningOut(billingWorker.result);
      shadow := ShadowOf(s');
    }

    method EnqueueInventoryJob(now: int)
      requires Valid() && Enabled(State(), now, FanOut(Inventory))
      modifies this
      ensures Valid() && State() == Next(old(State()), Event(now, FanOut(Inventory)))
    {
      ghost var s' := Take(State(), now, FanOut(Inventory));
      inventoryWorker := Queued;
      shadow := ShadowOf(s');
    }

    method EnqueueLogisticsJob(now: int)
      requires Valid() && Enabled(State(), now, FanOut(Logistics))
      modifies this
      ensures Valid() && State() == Next(old(State()), Event(now, FanOut(Logistics)))
    {
      ghost var s' := Take(State(), now, FanOut(Logistics));
      logisticsWorker := Queued;
      shadow := ShadowOf(s');
    }

    /** ... before it commits. */
    method CommitBilling(now: int)
      requires Valid() && Enabled(State(), now, BillingCommit)
      modifies this, order
      ensures Valid() && State() == Next(old(State()), Event(now, BillingCommit))
    {
      ghost var s' := Take(State(), now, BillingCommit);
      order.CommitBilling(billingWorker.result, now, RowState());
      billingWorker := Done;
      shadow := ShadowOf(s');
    }

    method RejectBilling(now: int, cached: bool)
      requires Valid() && Enabled(State(), now, BillingReject(cached))
      modifies this, order
      ensures Valid() && State() == Next(old(State()), Event(now, BillingReject(cached)))
    {
      ghost var s' := Take(State(), now, BillingReject(cached));
      order.RejectBilling(now, RowState());
      billingWorker := Done;
      EnqueueCompensation(Fixed, 0, cached);
      shadow := ShadowOf(s');
    }

    // ----- src/workers/saga_tasks/inventory.py -----------------------------

    method RequestInventory(now: int, granted: bool, delivered: bool)
      requires Valid() && Enabled(State(), now, CallService(Inventory, granted, delivered))
      modifies this, services
      ensures Valid() && State() == Next(old(State()), Event(now, CallService(Inventory, granted, delivered)))
      ensures OthersKept(old(services.db))
    {
      ghost var s' := Take(State(), now, CallService(Inventory, granted, delivered));
      var result := PostForward(Inventory, granted, delivered);
      inventoryWorker := Called(result);
      shadow := ShadowOf(s');
    }

    method CommitInventory(now: int, cached: bool)
      requires Valid() && Enabled(State(), now, StepCommit(Inventory, cached))
      modifies this, order, counters
      ensures Valid() && State() == Next(old(State()), Event(now, StepCommit(Inventory, cached)))
      ensures counters.success - old(counters.success) == State().past.counted - old(State()).past.counted
      ensures counters.All() == old(counters.All()).(success := counters.success)
    {
      ghost var s' := Take(State(), now, StepCommit(Inventory, cached));
      StepCommitted(State(), now, Inventory, cached);
      var previous, completes, fails := order.CommitInventory(inventoryWorker.result, now, RowState());
      inventoryWorker := Done;
      shadow := ShadowOf(s');
      assert RowState() == s'.row;
      EndStep(previous, completes, fails, cached);
    }

    /** What follows the writes of a step handler, before its commit. */
    method EndStep(previous: GlobalStatus, completes: bool, fails: bool, cached: bool)
      requires !(completes && fails)
      modifies this`runs, counters
      ensures runs == if fails then Enqueue(old(runs), Fixed, 0, cached) else old(runs)
      ensures counters.success == old(counters.success) + Bit(completes && previous != Completed)
      ensures counters.All() == old(counters.All()).(success := counters.success)
    {
      if completes {
        counters.RecordFinalStatusTransition(previous, Completed);
      } else if fails {
        EnqueueCompensation(Fixed, 0, cached);
      }
    }

    // ----- src/workers/saga_tasks/logistics.py -----------------------------

    method RequestLogistics(now: int, granted: bool, delivered: bool)
      requires Valid() && Enabled(State(), now, CallService(Logistics, granted, delivered))
      modifies this, services
      ensures Valid() && State() == Next(old(State()), Event(now, CallService(Logistics, granted, delivered)))
      ensures OthersKept(old(services.db))
    {
      ghost var s' := Take(State(), now, CallService(Logistics, granted, delivered));
      var result := PostForward(Logistics, granted, delivered);
      logisticsWorker := Called(result);
      shadow := ShadowOf(s');
    }

    method CommitLogistics(now: int, cached: bool)
      requires Valid() && Enabled(State(), now, StepCommit(Logistics, cached))
      modifies this, order, counters
      ensures Valid() && State() == Next(old(State()), Event(now, StepCommit(Logistics, cached)))
      ensures counters.success - old(counters.success) == State().past.counted - old(State()).past.counted
      ensures counters.All() == old(counters.All()).(success := counters.success)
    {
      ghost var s' := Take(State(), now, StepCommit(Logistics, cached));
      StepCommitted(State(), now, Logistics, cached);
      var previous, completes, fails := order.CommitLogistics(logisticsWorker.result, now, RowState());
      logisticsWorker := Done;
      shadow := ShadowOf(s');
      assert RowState() == s'.row;
      EndStep(previous, completes, fails, cached);
    }

    /** The exception branch that the three forward handlers share. A step handler
        whose commit fails has already counted the completion it was about to make. Or
        the request that created the order dies before it enqueues billing. */
    method AbortHandler(now: int, svc: Service, atCommit: bool, up: bool, cached: bool)
      requires Valid() && Enabled(State(), now, Abort(svc, atCommit, up, cached))
      modifies this, counters
      ensures Valid() && State() == Next(old(State()), Event(now, Abort(svc, atCommit, up, cached)))
      ensures counters.success - old(counters.success) == State().past.counted - old(State()).past.counted
      ensures counters.All() == old(counters.All()).(success := counters.success)
    {
      ghost var s' := Take(State(), now, Abort(svc, atCommit, up, cached));
      if atCommit {
        CountBeforeCommit(svc);
      }
      if up {
        EnqueueCompensation(Fixed, 0, cached);
      }
      EndWorker(svc);
      shadow := ShadowOf(s');
    }

    /** The counter moves before the commit that then fails. */
    method CountBeforeCommit(svc: Service)
      modifies counters
      ensures counters.success == old(counters.success)
                                  + Bit(WouldComplete(RowState(), svc) && order.globalStatus != Completed)
      ensures counters.All() == old(counters.All()).(success := counters.success)
    {
      if WouldCompleteNow(svc) {
        counters.RecordFinalStatusTransition(order.globalStatus, Completed);
      }
    }

    method EndWorker(svc: Service)
      modifies this`billingWorker, this`inventoryWorker, this`logisticsWorker
      ensures RowState() == WorkerRow(old(RowState()), svc, Dead)
    {
      match svc {
        case Billing => billingWorker := Dead;
        case Inventory => inventoryWorker := Dead;
        case Logistics => logisticsWorker := Dead;
      }
    }

    predicate WouldCompleteNow(svc: Service)
      reads this, order, services
      ensures WouldCompleteNow(svc) == WouldComplete(RowState(), svc)
    {
      && svc != Billing
      && (if svc == Inventory then inventoryWorker else logisticsWorker) == Called(Success)
      && order.globalStatus != Compensating
      && (if svc == Inventory then order.logisticsStatus else order.inventoryStatus) == Success
      && (order.billingStatus == Success || order.billingStatus == Skipped)
    }

    // ----- src/workers/saga_tasks/compensation.py --------------------------

    method StartCompensation(now: int, k: nat)
      requires Valid() && Enabled(State(), now, CompStart(k))
      modifies this, order, counters
      ensures Valid() && State() == Next(old(State()), Event(now, CompStart(k)))
      ensures counters.All() == old(counters.All()).(attempted := old(counters.attempted) + 1)
    {
      ghost var s' := Take(State(), now, CompStart(k));
      counters.CountAttempt();
      var deferred, snapshot := order.StartCompensation(now, RowState());
      if deferred {
        runs := WithPhase(runs, k, Ended);
      } else {
        runs := WithPhase(runs, k, Reversing(snapshot, snapshot, NONE));
      }
      shadow := ShadowOf(s');
    }

    /** The request for a refund, release or cancellation. */
    method PostReversal(svc: Service, granted: bool) returns (ok: bool)
      requires services.Valid()
      modifies services
      ensures services.Valid()
      ensures RowState() == ReversalRow(old(RowState()), svc, granted)
      ensures ok == ServiceCall(old(RowState()).LaneOf(svc).record, true, granted).1
      ensures OthersKept(old(services.db))
    {
      match svc {
        case Billing => ok := services.ProcessServiceCall(Billing, order.id, "refund", true, granted);
        case Inventory => ok := services.ProcessServiceCall(Inventory, order.id, "release", true, granted);
        case Logistics => ok := services.ProcessServiceCall(Logistics, order.id, "cancel", true, granted);
      }
    }

    /** One of the parallel `invoke_refund` calls. */
    method InvokeRefund(now: int, k: nat, svc: Service, granted: bool, delivered: bool)
      requires Valid() && Enabled(State(), now, CompCall(k, svc, granted, delivered))
      modifies this, services
      ensures Valid() && State() == Next(old(State()), Event(now, CompCall(k, svc, granted, delivered)))
      ensures runs[k].phase.acked.Has(svc) <==> delivered && RecordIn(services.db, svc, order.id) == Reversed
      ensures OthersKept(old(services.db))
    {
      ghost var s' := Take(State(), now, CompCall(k, svc, granted, delivered));
      ReversalKeepsColumns(RowState(), svc, granted);
      ReversalCounted(State(), now, k, svc, granted, delivered);
      var ok := PostReversal(svc, granted);
      var phase := runs[k].phase;
      var acked := ok && delivered;
      runs := WithPhase(runs, k, phase.(todo := phase.todo.With(svc, false),
                                        acked := if acked then phase.acked.With(svc, true) else phase.acked));
      shadow := ShadowOf(s');
    }

    /** The transaction that merges the acknowledged reversals. */
    method MergeResults(now: int, k: nat) returns (previous: GlobalStatus, retries: bool)
      requires k < |runs| && runs[k].phase.Reversing?
      modifies order
      ensures RowState() == MergeRow(old(RowState()), Hits(runs[k].phase), runs[k].retry)
      ensures order.updatedAt == if old(RowState()).SameColumns(RowState()) then old(order.updatedAt) else now
      ensures retries == (RowState().AnyStatus(Success) && runs[k].retry < LAST_RETRY)
      ensures previous == old(order.globalStatus)
    {
      ghost var row := RowState();
      var phase := runs[k].phase;
      assert Hits(phase) == Hits(Reversing(phase.snapshot, NONE, phase.acked));
      previous, retries := order.FinishCompensation(phase.snapshot, phase.acked, runs[k].retry, now, row);
      MergeTouchesColumns(row, Hits(phase), runs[k].retry);
    }

    /** A run that gives up counts as stuck each time, one that succeeds counts only
        if the order was not CANCELLED already. */
    method CountOutcome(previous: GlobalStatus, retries: bool)
      requires retries ==> order.globalStatus == previous
      modifies counters
      ensures counters.compensated == old(counters.compensated)
                + Bit(previous != GlobalStatus.Cancelled && order.globalStatus == GlobalStatus.Cancelled)
      ensures counters.stuck == old(counters.stuck) + Bit(!retries && order.globalStatus != GlobalStatus.Cancelled)
      ensures counters.All() == old(counters.All()).(compensated := counters.compensated, stuck := counters.stuck)
    {
      if !retries {
        if order.globalStatus == GlobalStatus.Cancelled {
          counters.RecordFinalStatusTransition(previous, GlobalStatus.Cancelled);
        } else {
          counters.CountStuck();
        }
      }
    }

    /** The second transaction, with its counters. */
    method FinishCompensation(now: int, k: nat)
      requires Valid() && Enabled(State(), now, CompMerge(k))
      modifies this, order, counters
      ensures Valid() && State() == Next(old(State()), Event(now, CompMerge(k)))
      ensures Tallied(old(counters.All()), old(State()))
      ensures !order.AnyStep(Success) ==> order.globalStatus == GlobalStatus.Cancelled
      ensures order.AnyStep(Success) && old(runs)[k].retry >= 4 ==> order.globalStatus == ManualRequired
      ensures order.AnyStep(Success) && old(runs)[k].retry < 4 ==>
                order.globalStatus == old(order.globalStatus) && runs[k].phase == Retrying
      ensures counters.compensated == old(counters.compensated)
                + Bit(old(order.globalStatus) != GlobalStatus.Cancelled && order.globalStatus == GlobalStatus.Cancelled)
      ensures counters.stuck == old(counters.stuck) + Bit(RowState().AnyStatus(Success) && runs[k].retry == LAST_RETRY)
      ensures counters.All() == old(counters.All()).(compensated := counters.compensated, stuck := counters.stuck)
    {
      ghost var s' := Take(State(), now, CompMerge(k));
      RetryBound(State(), k);
      MergeOutcome(RowState(), Hits(runs[k].phase), runs[k].retry);
      var previous, retries := MergeResults(now, k);
      CountOutcome(previous, retries);
      runs := WithPhase(runs, k, if retries then Retrying else Ended);
      shadow := ShadowOf(s');
    }

    /** After the commit: the deferred job with the next retry count. */
    method RequeueCompensation(now: int, k: nat, up: bool, cached: bool)
      requires Valid() && Enabled(State(), now, CompRequeue(k, up, cached))
      modifies this
      ensures Valid() && State() == Next(old(State()), Event(now, CompRequeue(k, up, cached)))
    {
      ghost var s' := Take(State(), now, CompRequeue(k, up, cached));
      if up {
        EnqueueCompensation(StampedId(now), runs[k].retry + 1, cached);
      }
      runs := WithPhase(runs, k, Ended);
      shadow := ShadowOf(s');
    }

    /** `compensation` has no exception branch: the job just ends. A run whose second
        commit fails has already counted the outcome it was about to write. */
    method AbortCompensation(now: int, k: nat, atCommit: bool)
      requires Valid() && Enabled(State(), now, CompDie(k, atCommit))
      modifies this, counters
      ensures Valid() && State() == Next(old(State()), Event(now, CompDie(k, atCommit)))
      ensures Tallied(old(counters.All()), old(State()))
      ensures !atCommit ==> counters.compensated == old(counters.compensated) && counters.stuck == old(counters.stuck)
      ensures atCommit ==> CountsOutcome(old(counters.All()), old(RowState()), old(runs)[k])
    {
      ghost var s' := Take(State(), now, CompDie(k, atCommit));
      if runs[k].phase.Waiting? {
        counters.CountAttempt();
      }
      if atCommit {
        RetryBound(State(), k);
        CountBeforeMerge(runs[k]);
      }
      runs := WithPhase(runs, k, Ended);
      shadow := ShadowOf(s');
    }

    /** Since then, "compensated" and "stuck" count what this run writes, or would. */
    ghost predicate CountsOutcome(was: Counts, row: Row, run: Run)
      requires run.phase.Reversing?
      reads counters
    {
      var merged := MergeRow(row, Hits(run.phase), run.retry);
      && counters.compensated == was.compensated
           + Bit(row.global != GlobalStatus.Cancelled && merged.global == GlobalStatus.Cancelled)
      && counters.stuck == was.stuck + Bit(merged.AnyStatus(Success) && run.retry == LAST_RETRY)
    }

    /** The counters move before the commit that then fails. */
    method CountBeforeMerge(run: Run)
      requires run.phase.Reversing? && run.retry <= LAST_RETRY
      modifies counters
      ensures CountsOutcome(old(counters.All()), RowState(), run)
      ensures counters.success == old(counters.success) && counters.attempted == old(counters.attempted)
    {
      var left := order.LeftAfter(run.phase.snapshot, run.phase.acked);
      if !left {
        counters.RecordFinalStatusTransition(order.globalStatus, GlobalStatus.Cancelled);
      } else if run.retry >= LAST_RETRY {
        counters.CountStuck();
      }
    }

    // ----- src/workers/scheduler.py, one order at a time -------------------

    predicate IsStuck(now: int)
      reads this, order, services
      ensures IsStuck(now) == MatchesPoll(RowState(), order.updatedAt, now)
      ensures IsStuck(now) ==> order.updatedAt + 60_000_000 < now
    {
      && (|| (order.globalStatus == Processing && order.AnyStep(Pending))
          || (order.globalStatus == Compensating && order.AnyStep(Success)))
      && order.updatedAt < now - STUCK_TIMEOUT
    }

    predicate IsDead(now: int)
      reads this, order, services
      ensures IsDead(now) == MatchesDead(RowState(), order.updatedAt, now)
      ensures IsDead(now) <==> order.globalStatus == Compensating && order.updatedAt + 3_600_000_000 < now
    {
      order.globalStatus == Compensating && order.updatedAt < now - DEAD_TIMEOUT
    }

    /** The poll has found the order. */
    method Fetch(now: int)
      requires Valid() && Enabled(State(), now, PollFetch)
      modifies this
      ensures Valid() && State() == Next(old(State()), Event(now, PollFetch))
    {
      ghost var s' := Take(State(), now, PollFetch);
      sessions := sessions.(poll := Fetched);
      shadow := ShadowOf(s');
    }

    /** One turn of the poll's loop; an enqueue that raises leaves the time stamp alone,
        whether the queue got it or not. */
    method DispatchCompensation(now: int, delivery: Delivery, cached: bool)
      requires Valid() && Enabled(State(), now, PollEnqueue(delivery, cached))
      modifies this
      ensures Valid() && State() == Next(old(State()), Event(now, PollEnqueue(delivery, cached)))
    {
      ghost var s' := Take(State(), now, PollEnqueue(delivery, cached));
      if !delivery.Dropped? {
        EnqueueCompensation(StampedId(now), 0, cached);
      }
      sessions := sessions.(poll := if delivery.Confirmed? then Stamping(now) else Idle);
      shadow := ShadowOf(s');
    }

    method CommitDispatch(now: int)
      requires Valid() && Enabled(State(), now, PollCommit)
      modifies this, order
      ensures Valid() && State() == Next(old(State()), Event(now, PollCommit))
    {
      ghost var s' := Take(State(), now, PollCommit);
      order.updatedAt := sessions.poll.at;
      sessions := sessions.(poll := Idle);
      shadow := ShadowOf(s');
    }

    /** The poll's commit fails. */
    method DropDispatch(now: int)
      requires Valid() && Enabled(State(), now, PollDrop)
      modifies this
      ensures Valid() && State() == Next(old(State()), Event(now, PollDrop))
    {
      ghost var s' := Take(State(), now, PollDrop);
      sessions := sessions.(poll := Idle);
      shadow := ShadowOf(s');
    }

    /** The dead-order check has found the order. */
    method FetchDead(now: int)
      requires Valid() && Enabled(State(), now, DeadRead)
      modifies this
      ensures Valid() && State() == Next(old(State()), Event(now, DeadRead))
    {
      ghost var s' := Take(State(), now, DeadRead);
      sessions := sessions.(escalations := sessions.escalations + 1);
      shadow := ShadowOf(s');
    }

    method Escalate(now: int)
      requires Valid() && Enabled(State(), now, DeadWrite)
      modifies this, order, counters
      ensures Valid() && State() == Next(old(State()), Event(now, DeadWrite))
      ensures counters.All() == old(counters.All()).(stuck := old(counters.stuck) + 1)
    {
      ghost var s' := Take(State(), now, DeadWrite);
      order.globalStatus := ManualRequired;
      order.updatedAt := now;
      counters.RecordFinalStatusTransition(Compensating, ManualRequired);
      sessions := sessions.(escalations := sessions.escalations - 1);
      shadow := ShadowOf(s');
    }

    /** The check ends without its commit, before or after it has counted the order. */
    method DropEscalation(now: int, counted: bool)
      requires Valid() && Enabled(State(), now, DeadDrop(counted))
      modifies this, counters
      ensures Valid() && State() == Next(old(State()), Event(now, DeadDrop(counted)))
      ensures counters.All() == old(counters.All()).(stuck := old(counters.stuck) + Bit(counted))
    {
      ghost var s' := Take(State(), now, DeadDrop(counted));
      if counted {
        counters.RecordFinalStatusTransition(Compensating, ManualRequired);
      }
      sessions := sessions.(escalations := sessions.escalations - 1);
      shadow := ShadowOf(s');
    }

    // ----- src/api/endpoints/order.py --------------------------------------

    /** The check of `force_cancel`; anything but MANUAL is answered with a 400. */
    method CheckForceCancel(now: int) returns (ok: bool)
      requires Valid() && shadow.clock <= now
      modifies this
      ensures Valid() && (ok <==> old(order.globalStatus) == ManualRequired)
      ensures ok == Enabled(old(State()), now, AdminRead)
      ensures State() == if ok then Next(old(State()), Event(now, AdminRead)) else old(State())
    {
      ok := order.globalStatus == ManualRequired;
      if ok {
        ghost var s' := Take(State(), now, AdminRead);
        sessions := sessions.(forceCancels := sessions.forceCancels + 1);
        shadow := ShadowOf(s');
      }
    }

    /** Its write, which goes by the order's id alone. */
    method ForceCancel(now: int)
      requires Valid() && Enabled(State(), now, AdminWrite)
      modifies this, order
      ensures Valid() && State() == Next(old(State()), Event(now, AdminWrite))
    {
      ghost var s' := Take(State(), now, AdminWrite);
      order.globalStatus := GlobalStatus.Cancelled;
      order.updatedAt := now;
      sessions := sessions.(forceCancels := sessions.forceCancels - 1);
      shadow := ShadowOf(s');
    }

    method DropForceCancel(now: int)
      requires Valid() && Enabled(State(), now, AdminDrop)
      modifies this
      ensures Valid() && State() == Next(old(State()), Event(now, AdminDrop))
    {
      ghost var s' := Take(State(), now, AdminDrop);
      sessions := sessions.(forceCancels := sessions.forceCancels - 1);
      shadow := ShadowOf(s');
    }

    // ----- Whatever comes next ---------------------------------------------

    /** What a step adds to the counters is what it adds to the order's history. */
    ghost predicate Tallied(was: Counts, s: Saga)
      reads this, counters
    {
      && counters.success - was.success == shadow.past.counted - s.past.counted
      && counters.compensated - was.compensated == shadow.past.compensated - s.past.compensated
      && counters.stuck - was.stuck == shadow.past.stuck - s.past.stuck
      && counters.attempted - was.attempted == shadow.past.attempted - s.past.attempted
    }

    method PerformBilling(now: int, a: Act)
      requires Valid() && Enabled(State(), now, a)
      requires a.EnqueueBilling? || a.BillingLock? || a.FanOut? || a.BillingCommit? || a.BillingReject?
      modifies this, order, services, counters
      ensures Valid() && State() == Next(old(State()), Event(now, a))
      ensures OthersKept(old(services.db)) && Tallied(old(counters.All()), old(State()))
    {
      TalliedStep(State(), now, a);
      match a {
        case EnqueueBilling => EnqueueBillingJob(now);
        case BillingLock => LockForFanOut(now);
        case FanOut(Inventory) => EnqueueInventoryJob(now);
        case FanOut(Logistics) => EnqueueLogisticsJob(now);
        case BillingCommit => CommitBilling(now);
        case BillingReject(cached) => RejectBilling(now, cached);
      }
    }

    method PerformCall(now: int, svc: Service, granted: bool, delivered: bool)
      requires Valid() && Enabled(State(), now, CallService(svc, granted, delivered))
      modifies this, services
      ensures Valid() && State() == Next(old(State()), Event(now, CallService(svc, granted, delivered)))
      ensures OthersKept(old(services.db))
    {
      match svc {
        case Billing => RequestBilling(now, granted, delivered);
        case Inventory => RequestInventory(now, granted, delivered);
        case Logistics => RequestLogistics(now, granted, delivered);
      }
    }

    method PerformCommit(now: int, svc: Service, cached: bool)
      requires Valid() && Enabled(State(), now, StepCommit(svc, cached))
      modifies this, order, counters
      ensures Valid() && State() == Next(old(State()), Event(now, StepCommit(svc, cached)))
      ensures Tallied(old(counters.All()), old(State()))
    {
      TalliedStep(State(), now, StepCommit(svc, cached));
      match svc {
        case Inventory => CommitInventory(now, cached);
        case Logistics => CommitLogistics(now, cached);
      }
    }

    method PerformForward(now: int, a: Act)
      requires Valid() && Enabled(State(), now, a) && (a.CallService? || a.StepCommit? || a.Abort?)
      modifies this, order, services, counters
      ensures Valid() && State() == Next(old(State()), Event(now, a))
      ensures OthersKept(old(services.db)) && Tallied(old(counters.All()), old(State()))
    {
      TalliedStep(State(), now, a);
      match a {
        case CallService(svc, granted, delivered) => PerformCall(now, svc, granted, delivered);
        case StepCommit(svc, cached) => PerformCommit(now, svc, cached);
        case Abort(svc, atCommit, up, cached) => AbortHandler(now, svc, atCommit, up, cached);
      }
    }

    method PerformEnd(now: int, a: Act)
      requires Valid() && Enabled(State(), now, a) && (a.CompMerge? || a.CompDie?)
      modifies this, order, counters
      ensures Valid() && State() == Next(old(State()), Event(now, a))
      ensures Tallied(old(counters.All()), old(State()))
    {
      match a {
        case CompMerge(k) => FinishCompensation(now, k);
        case CompDie(k, atCommit) => AbortCompensation(now, k, atCommit);
      }
    }

    method PerformCompensation(now: int, a: Act)
      requires Valid() && Enabled(State(), now, a) && ByCompensation(a) && !a.CompMerge? && !a.CompDie?
      modifies this, order, services, counters
      ensures Valid() && State() == Next(old(State()), Event(now, a))
      ensures OthersKept(old(services.db)) && Tallied(old(counters.All()), old(State()))
    {
      TalliedStep(State(), now, a);
      match a {
        case CompStart(k) => StartCompensation(now, k);
        case CompCall(k, svc, granted, delivered) => InvokeRefund(now, k, svc, granted, delivered);
        case CompRequeue(k, up, cached) => RequeueCompensation(now, k, up, cached);
      }
    }

    method PerformSession(now: int, a: Act)
      requires Valid() && Enabled(State(), now, a) && !ByForwardHandler(a) && !ByCompensation(a)
      modifies this, order, services, counters
      ensures Valid() && State() == Next(old(State()), Event(now, a))
      ensures OthersKept(old(services.db)) && Tallied(old(counters.All()), old(State()))
    {
      TalliedStep(State(), now, a);
      match a {
        case PollFetch => Fetch(now);
        case PollEnqueue(delivery, cached) => DispatchCompensation(now, delivery, cached);
        case PollCommit => CommitDispatch(now);
        case PollDrop => DropDispatch(now);
        case DeadRead => FetchDead(now);
        case DeadWrite => Escalate(now);
        case DeadDrop(counted) => DropEscalation(now, counted);
        case AdminRead => var ok := CheckForceCancel(now);
        case AdminWrite => ForceCancel(now);
        case AdminDrop => DropForceCancel(now);
      }
    }

    /** Any step of the machine that is enabled is taken by one of the methods. */
    method Perform(now: int, a: Act)
      requires Valid() && Enabled(State(), now, a)
      modifies this, order, services, counters
      ensures Valid() && State() == Next(old(State()), Event(now, a))
      ensures OthersKept(old(services.db)) && Tallied(old(counters.All()), old(State()))
    {
      if a.CompMerge? || a.CompDie? {
        PerformEnd(now, a);
      } else if ByCompensation(a) {
        PerformCompensation(now, a);
      } else if a.CallService? || a.StepCommit? || a.Abort? {
        PerformForward(now, a);
      } else if ByForwardHandler(a) {
        PerformBilling(now, a);
      } else {
        PerformSession(now, a);
      }
    }
  }

  /** An object that has only been changed by these methods is in a reachable state:
      all results about those hold of it. */
  lemma ValidIsSound(saga: OrderSaga)
    requires saga.Valid()
    ensures Inv(saga.State()) && HistoryOk(saga.State()) && EndsRun(saga.State())
  {
    ReachableInv(saga.State());
    ReachableExactly(saga.State());
  }

  /** A merge writes columns of the row and nothing else. */
  lemma MergeTouchesColumns(row: Row, hits: Flags, retry: nat)
    ensures var merged := MergeRow(row, hits, retry);
            merged == row.(billing := row.billing.(status := merged.billing.status),
                           inventory := row.inventory.(status := merged.inventory.status),
                           logistics := row.logistics.(status := merged.logistics.status),
                           global := merged.global)
  {
  }

  lemma MergeOutcome(row: Row, hits: Flags, retry: nat)
    ensures var merged := MergeRow(row, hits, retry);
            var retries := merged.AnyStatus(Success) && retry < LAST_RETRY;
            && (retries ==> merged.global == row.global)
            && (!retries ==> (merged.global == GlobalStatus.Cancelled <==> !merged.AnyStatus(Success)))
  {
  }

  lemma ReversalKeepsColumns(row: Row, svc: Service, granted: bool)
    ensures row.SameColumns(ReversalRow(row, svc, granted))
  {
  }

  /** What the commit of a step handler comes to. */
  lemma StepCommitted(s: Saga, now: int, svc: Service, cached: bool)
    requires Reachable(s) && Enabled(s, now, StepCommit(svc, cached))
    ensures var s' := Next(s, Event(now, StepCommit(svc, cached)));
            var fails := s.row.global != Compensating && s.row.LaneOf(svc).worker.result != Success;
            && s'.row == CommitRow(s.row, svc)
            && s'.updatedAt == (if s.row.SameColumns(s'.row) then s.updatedAt else now)
            && s'.runs == (if fails then Enqueue(s.runs, Fixed, 0, cached) else s.runs)
            && s'.sessions == s.sessions
            && s'.past.counted == s.past.counted + Bit(WouldComplete(s.row, svc) && s.row.global != Completed)
  {
    ReachableInv(s);
  }

  /** Which steps move which counters. */
  lemma TalliedStep(s: Saga, now: int, a: Act)
    requires Enabled(s, now, a)
    ensures !a.StepCommit? && !a.Abort? ==> PastAfter(s, now, a).counted == s.past.counted
    ensures !a.CompStart? && !a.CompDie? ==> PastAfter(s, now, a).attempted == s.past.attempted
    ensures a.CompStart? ==> PastAfter(s, now, a).attempted == s.past.attempted + 1
    ensures !Finishing(a) ==> PastAfter(s, now, a).compensated == s.past.compensated
    ensures !Finishing(a) && !a.DeadWrite? && !a.DeadDrop? ==> PastAfter(s, now, a).stuck == s.past.stuck
    ensures a.DeadWrite? || (a.DeadDrop? && a.counted) ==> PastAfter(s, now, a).stuck == s.past.stuck + 1
    ensures a.DeadDrop? && !a.counted ==> PastAfter(s, now, a).stuck == s.past.stuck
  {
  }

  lemma ReversalCounted(s: Saga, now: int, k: nat, svc: Service, granted: bool, delivered: bool)
    requires Reachable(s) && Enabled(s, now, CompCall(k, svc, granted, delivered))
    ensures var s' := Next(s, Event(now, CompCall(k, svc, granted, delivered)));
            s'.runs[k].phase.acked.Has(svc) <==> delivered && s'.row.LaneOf(svc).record == Reversed
  {
    RunKeepsCount(s, k, svc);
  }

  lemma RunKeepsCount(s: Saga, k: nat, svc: Service)
    requires Reachable(s) && k < |s.runs| && s.runs[k].phase.Reversing? && s.runs[k].phase.todo.Has(svc)
    ensures !s.runs[k].phase.acked.Has(svc)
  {
    ReachableInv(s);
    assert RunOk(s.row, s.runs[k]);
  }

  lemma RetryBound(s: Saga, k: nat)
    requires Reachable(s) && k < |s.runs|
    ensures s.runs[k].retry <= LAST_RETRY
  {
    ReachableInv(s);
    assert RunOk(s.row, s.runs[k]);
  }
}
