/** What an order can still come to: when it can still be finished without an
    administrator, and that compensation can always be carried to its end. */
module RecoveryTheorems {
  import opened SagaTypes
  import opened SagaMachine
  import opened SagaInvariant
  import opened SagaHistory
  import opened SagaTheorems
  import opened CompensationTheorems

  // ----- Finishing an order that is in PROCESSING --------------------------

  /** Completed, or cancelled by the system. */
  ghost predicate Finished(row: Row) {
    row.global == Completed || (row.global == GlobalStatus.Cancelled && !row.forced)
  }

  ghost predicate CanFinish(s: Saga) {
    exists s' :: Leads(s, s') && Finished(s'.row)
  }

  ghost predicate SomeWaiting(runs: seq<Run>) {
    exists k :: 0 <= k < |runs| && runs[k].phase.Waiting?
  }

  /** The forward jobs are all alive or still to come, and the order is in PROCESSING or has a
      compensation job waiting for them. */
  ghost predicate OnTheWay(s: Saga) {
    && !s.row.AnyDead() && !s.row.forced
    && (s.row.global == Processing || (s.row.global == Compensating && SomeWaiting(s.runs)))
  }

  function Ahead(w: Worker): nat {
    match w
    case NotEnqueued => 4
    case Queued => 3
    case Called(_) => 2
    case FanningOut(_) => 1
    case _ => 0
  }

  /** What the forward handlers of an order still have to do. */
  function Work(row: Row): nat {
    Ahead(row.billing.worker) + Ahead(row.inventory.worker) + Ahead(row.logistics.worker)
  }

  /** The next thing to happen if nothing fails from now on. */
  function NextForward(row: Row): Act {
    match row.billing.worker
    case NotEnqueued => EnqueueBilling
    case Queued => CallService(Billing, true, true)
    case Called(result) => if result == Failed then BillingReject(false) else BillingLock
    case FanningOut(_) =>
      if row.inventory.worker == NotEnqueued then FanOut(Inventory)
      else if row.logistics.worker == NotEnqueued then FanOut(Logistics)
      else BillingCommit
    case _ =>
      if row.inventory.worker == Queued then CallService(Inventory, true, true)
      else if row.inventory.worker.Called? then StepCommit(Inventory, false)
      else if row.logistics.worker == Queued then CallService(Logistics, true, true)
      else StepCommit(Logistics, false)
  }

  lemma NextForwardWorks(s: Saga)
    requires RowOk(s.row) && !s.row.AnyDead() && s.row.AnyStatus(Pending)
    ensures var a := NextForward(s.row);
            && ByForwardHandler(a) && !a.Abort? && Enabled(s, s.clock, a)
            && Work(RowAfter(s, s.clock, a)) < Work(s.row) && !RowAfter(s, s.clock, a).AnyDead()
  {
  }

  /** A job waits as long as the barrier stands, so one that blocks the id of
      another waits, too. */
  lemma {:induction false} EnqueuedWaits(row: Row, runs: seq<Run>, id: JobId)
    requires RunsOk(row, runs) && !row.barrier
    ensures SomeWaiting(Enqueue(runs, id, 0, false))
  {
    if Taken(runs, id, false) {
      var k :| 0 <= k < |runs| && runs[k].job == id && Live(runs[k]);
      assert RunOk(row, runs[k]);
      assert runs[k].phase.Waiting?;
    } else {
      assert Enqueue(runs, id, 0, false)[|runs|].phase.Waiting?;
    }
  }

  /** Leaving PROCESSING means dispatching compensation, or completing. */
  lemma ForwardLeaves(s: Saga)
    requires RowOk(s.row) && !s.row.AnyDead() && s.row.AnyStatus(Pending) && s.row.global == Processing
    ensures var a := NextForward(s.row);
            && (RowAfter(s, s.clock, a).global == Compensating ==> Dispatched(s, s.clock, a) == Some(Fixed))
            && (RowAfter(s, s.clock, a).global in {Processing, Compensating, Completed})
            && !Cached(a)
  {
  }

  lemma ForwardStaysOnTheWay(s: Saga)
    requires Inv(s) && OnTheWay(s) && s.row.AnyStatus(Pending)
    requires var a := NextForward(s.row);
             ByForwardHandler(a) && Enabled(s, s.clock, a) && !RowAfter(s, s.clock, a).AnyDead()
    ensures var s' := Apply(s, s.clock, NextForward(s.row));
            s'.row.global == Completed || OnTheWay(s')
  {
    var a := NextForward(s.row);
    var s' := Apply(s, s.clock, a);
    if s.row.global == Processing {
      ForwardLeaves(s);
      if s'.row.global == Compensating {
        EnqueuedWaits(s.row, s.runs, Fixed);
      }
    }
  }

  /** Every handler does its work, the services grant everything from now on, and
      the job that waits for them takes back what has to be. */
  lemma Finish(s: Saga) returns (s': Saga)
    requires Reachable(s) && OnTheWay(s)
    ensures Leads(s, s') && Finished(s'.row)
    decreases Work(s.row)
  {
    ReachableInv(s);
    if s.row.AnyStatus(Pending) {
      NextForwardWorks(s);
      ForwardStaysOnTheWay(s);
      var mid := Do(s, s.clock, NextForward(s.row));
      if mid.row.global == Completed {
        s' := mid;
      } else {
        s' := Finish(mid);
        LeadsFurther(s, mid, s');
      }
    } else {
      var k :| 0 <= k < |s.runs| && s.runs[k].phase.Waiting?;
      s' := UninterruptedRun(s, s.clock, k);
    }
  }

  /** An order in PROCESSING can still be completed, or rolled back by the system,
      exactly as long as none of its forward handlers has died, nor the request that
      created it before it had enqueued billing. */
  lemma CanFinishExactly(s: Saga)
    requires Reachable(s) && s.row.global == Processing
    ensures CanFinish(s) <==> !s.row.AnyDead()
  {
    ReachableInv(s);
    if s.row.AnyDead() {
      forall s' | Leads(s, s')
        ensures !Finished(s'.row)
      {
        NeverFinishes(s, s');
      }
    } else {
      var s' := Finish(s);
    }
  }

  lemma NeverFinishes(s: Saga, s': Saga)
    requires Inv(s) && s.row.AnyDead() && Leads(s, s')
    ensures !Finished(s'.row)
  {
    var events :| Possible(s, events) && Unaided(events) && After(s, events) == s';
    var svc :=
      if s.row.billing.worker == Dead then Billing
      else if s.row.inventory.worker == Dead then Inventory
      else Logistics;
    DeadHandlerBlocks(s, events, svc);
  }

  // ----- Ending it at all --------------------------------------------------

  ghost predicate CanEnd(s: Saga) {
    exists events :: Possible(s, events) && Ended(After(s, events).row)
  }

  /** Completed or cancelled, by whomever. */
  ghost predicate Ended(row: Row) {
    row.global == Completed || row.global == GlobalStatus.Cancelled
  }

  /** A step handler that may still fail the order. */
  ghost predicate MayFail(w: Worker) {
    w == Queued || w == Called(Failed)
  }

  /** A step that may still fail the order, or that billing is about to enqueue. */
  ghost predicate StepMayFail(row: Row, svc: Service) {
    MayFail(row.LaneOf(svc).worker) || (row.Locked() && row.LaneOf(svc).worker == NotEnqueued)
  }

  ghost predicate SomeStepMayFail(row: Row) {
    StepMayFail(row, Inventory) || StepMayFail(row, Logistics)
  }

  /** In PROCESSING with a dead handler, and no step left that may fail. */
  ghost predicate Stuck(row: Row) {
    row.global == Processing && row.AnyDead() && !SomeStepMayFail(row)
  }

  lemma StuckCommit(row: Row, svc: Service)
    requires RowOk(row) && Stuck(row) && svc != Billing && row.LaneOf(svc).worker.Called?
    ensures Stuck(CommitRow(row, svc))
  {
  }

  lemma StuckBilling(row: Row)
    requires RowOk(row) && Stuck(row)
    ensures row.billing.worker == Done || row.billing.worker == Dead || row.Locked()
    ensures row.Locked() ==> Stuck(BilledRow(row))
  {
  }

  lemma StuckForward(s: Saga, t: int, a: Act)
    requires RowOk(s.row) && Stuck(s.row) && Enabled(s, t, a) && ByForwardHandler(a)
    ensures Stuck(RowAfter(s, t, a))
  {
    StuckBilling(s.row);
    if a.StepCommit? {
      StuckCommit(s.row, a.svc);
    }
  }

  lemma StuckBackward(s: Saga, t: int, a: Act)
    requires Inv(s) && Stuck(s.row) && Enabled(s, t, a) && !ByForwardHandler(a)
    ensures RowAfter(s, t, a) == s.row
  {
    assert s.row.AnyStatus(Pending);
    if ByCompensation(a) {
      assert RunOk(s.row, s.runs[a.run]);
    }
  }

  lemma {:induction false} StaysStuck(s: Saga, events: seq<Event>)
    requires Inv(s) && Stuck(s.row) && Possible(s, events)
    ensures Stuck(After(s, events).row)
    decreases |events|
  {
    if events == [] {
      assert After(s, events) == s;
    } else {
      var mid := After(s, Front(events));
      StaysStuck(s, Front(events));
      Always(s, Front(events));
      if ByForwardHandler(Last(events).act) {
        StuckForward(mid, Last(events).at, Last(events).act);
      } else {
        StuckBackward(mid, Last(events).at, Last(events).act);
      }
    }
  }

  /** Billing enqueues what it has not yet, and commits. */
  lemma Unlock(s: Saga) returns (s': Saga)
    requires Reachable(s) && s.row.global == Processing && s.row.Locked()
    ensures Reachable(s') && Leads(s, s') && s'.row.global == Processing && !s'.row.Locked()
    ensures forall svc :: svc != Billing && StepMayFail(s.row, svc) ==> MayFail(s'.row.LaneOf(svc).worker)
    decreases Work(s.row)
  {
    var a := NextForward(s.row);
    var mid := Do(s, s.clock, a);
    if a == BillingCommit {
      s' := mid;
    } else {
      s' := Unlock(mid);
      LeadsFurther(s, mid, s');
    }
  }

  lemma FailStep(s: Saga, svc: Service) returns (s': Saga)
    requires Reachable(s) && s.row.global == Processing && !s.row.Locked()
    requires svc != Billing && MayFail(s.row.LaneOf(svc).worker)
    ensures Reachable(s') && Leads(s, s') && s'.row.global == Compensating
    decreases s.row.LaneOf(svc).worker.Queued?
  {
    if s.row.LaneOf(svc).worker == Queued {
      NothingRecorded(s, svc);
      var mid := Do(s, s.clock, CallService(svc, false, true));
      assert mid.row.LaneOf(svc).worker == Called(Failed);
      s' := FailStep(mid, svc);
      LeadsFurther(s, mid, s');
    } else {
      s' := Do(s, s.clock, StepCommit(svc, false));
    }
  }

  lemma NothingRecorded(s: Saga, svc: Service)
    requires Reachable(s) && s.row.LaneOf(svc).worker == Queued
    ensures s.row.LaneOf(svc).record == Absent
  {
    ReachableInv(s);
  }

  /** Once the order is in COMPENSATING, the dead-order check takes it to MANUAL, and
      an administrator cancels it. */
  lemma HandOver(s: Saga) returns (s': Saga)
    requires Reachable(s) && s.row.global == Compensating
    ensures Reachable(s') && Leads(s, s') && s'.row.global == ManualRequired
  {
    ClockAhead(s);
    var t := s.clock + DEAD_TIMEOUT + 1;
    var found := Do(s, t, DeadRead);
    s' := Do(found, t, DeadWrite);
    LeadsFurther(s, found, s');
  }

  lemma ClockAhead(s: Saga)
    requires Reachable(s)
    ensures s.updatedAt <= s.clock && (!Forward(s.row) ==> !s.row.Locked())
  {
    ReachableInv(s);
  }

  lemma EndsWith(s: Saga, mid: Saga, e: Event)
    requires Leads(s, mid) && Enabled(mid, e.at, e.act) && Ended(Next(mid, e).row)
    ensures CanEnd(s)
  {
    var events :| Possible(s, events) && Unaided(events) && After(s, events) == mid;
    assert Front(events + [e]) == events;
    assert Possible(s, events + [e]) && After(s, events + [e]) == Next(mid, e);
  }

  lemma AdministratorEnds(s: Saga, manual: Saga)
    requires Reachable(manual) && Leads(s, manual) && manual.row.global == ManualRequired
    ensures CanEnd(s)
  {
    ClockAhead(manual);
    var read := Do(manual, manual.clock, AdminRead);
    LeadsFurther(s, manual, read);
    EndsWith(s, read, Event(read.clock, AdminWrite));
  }

  lemma FailingEnds(s: Saga)
    requires Reachable(s) && s.row.global == Processing && SomeStepMayFail(s.row)
    ensures CanEnd(s)
  {
    var open := s;
    if s.row.Locked() {
      open := Unlock(s);
    } else {
      LeadsNowhere(s);
    }
    var failed := FailStep(open, if StepMayFail(s.row, Inventory) then Inventory else Logistics);
    var manual := HandOver(failed);
    LeadsFurther(s, open, failed);
    LeadsFurther(s, failed, manual);
    AdministratorEnds(s, manual);
  }

  lemma FinishedEnds(s: Saga)
    requires CanFinish(s)
    ensures CanEnd(s)
  {
    var s' :| Leads(s, s') && Finished(s'.row);
    var events :| Possible(s, events) && Unaided(events) && After(s, events) == s';
    assert Ended(After(s, events).row);
  }

  /** An order in PROCESSING can be ended at all, administrators included, exactly if
      no forward handler has died (nor its request), or a live step may still fail:
      only a failure takes the order to where the dead-order check sees it. */
  lemma CanEndExactly(s: Saga)
    requires Reachable(s) && s.row.global == Processing
    ensures CanEnd(s) <==> !s.row.AnyDead() || SomeStepMayFail(s.row)
  {
    ReachableInv(s);
    if Stuck(s.row) {
      forall events | Possible(s, events)
        ensures !Ended(After(s, events).row)
      {
        StaysStuck(s, events);
      }
    } else if SomeStepMayFail(s.row) {
      FailingEnds(s);
    } else {
      CanFinishExactly(s);
      FinishedEnds(s);
    }
  }

  lemma NothingForward(s: Saga, t: int, a: Act)
    requires ByForwardHandler(a) && s.row.billing.worker == Dead
    requires s.row.inventory.worker == NotEnqueued && s.row.logistics.worker == NotEnqueued
    ensures !Enabled(s, t, a)
  {
  }

  /** If billing died, or its request, before the steps were enqueued, nothing about
      the order ever changes again. */
  lemma {:induction false} NeverBilled(s: Saga, events: seq<Event>)
    requires Inv(s) && Possible(s, events)
    requires s.row.global == Processing && s.row.billing.worker == Dead
    requires s.row.inventory.worker == NotEnqueued && s.row.logistics.worker == NotEnqueued
    ensures After(s, events).row == s.row
    decreases |events|
  {
    if events == [] {
    } else {
      var mid := After(s, Front(events));
      var last := Last(events);
      NeverBilled(s, Front(events));
      Always(s, Front(events));
      if ByForwardHandler(last.act) {
        NothingForward(mid, last.at, last.act);
      } else {
        StuckBackward(mid, last.at, last.act);
      }
    }
  }

  // ----- Carrying compensation to its end ----------------------------------

  /** What a run that has not ended does next. */
  function NextOfRun(run: Run, k: nat): Act {
    match run.phase
    case Waiting => CompStart(k)
    case Reversing(_, todo, _) =>
      if todo == NONE then CompMerge(k)
      else CompCall(k, if todo.billing then Billing else if todo.inventory then Inventory else Logistics, true, true)
    case _ => CompRequeue(k, true, false)
  }

  ghost predicate SameWorkers(row: Row, row': Row) {
    && row'.billing.worker == row.billing.worker
    && row'.inventory.worker == row.inventory.worker
    && row'.logistics.worker == row.logistics.worker
  }

  lemma NextOfRunWorks(s: Saga, k: nat)
    requires k < |s.runs| && Live(s.runs[k]) && !s.row.Locked()
    ensures var a := NextOfRun(s.runs[k], k);
            && ByCompensation(a) && a.run == k && !a.CompDie? && !a.AdminWrite? && Enabled(s, s.clock, a)
            && SameWorkers(s.row, RowAfter(s, s.clock, a))
  {
  }

  lemma StepOfRun(s: Saga, k: nat) returns (s': Saga)
    requires Reachable(s) && k < |s.runs| && Live(s.runs[k]) && !s.row.Locked()
    ensures Reachable(s') && Leads(s, s') && SameWorkers(s.row, s'.row) && s'.past.broken == s.past.broken
    ensures 0 <= Total(s'.runs, Fuel) < Total(s.runs, Fuel)
  {
    NextOfRunWorks(s, k);
    var a := NextOfRun(s.runs[k], k);
    s' := Do(s, s.clock, a);
    FuelOfRun(s, a);
    FuelNotNegative(s');
  }

  lemma FuelOfRun(s: Saga, a: Act)
    requires Reachable(s) && Enabled(s, s.clock, a) && ByCompensation(a)
    ensures Total(RunsAfter(s, s.clock, a), Fuel) < Total(s.runs, Fuel)
  {
    ReachableInv(s);
    assert RunOk(s.row, s.runs[a.run]);
    RunsFuelStep(s, s.clock, a);
  }

  lemma FuelNotNegative(s: Saga)
    requires Reachable(s)
    ensures Total(s.runs, Fuel) >= 0
  {
    ReachableInv(s);
    FuelLeft(s.row, s.runs);
  }

  /** No run ever waits for another one: unless billing holds the row, all of them
      and all their retries can run to their end, none of them dying, even if the
      forward handlers do nothing more. */
  lemma CompensationDrains(s: Saga) returns (s': Saga)
    requires Reachable(s) && !s.row.Locked()
    ensures Reachable(s') && Leads(s, s') && RunsEnded(s'.runs)
    ensures SameWorkers(s.row, s'.row) && s'.past.broken == s.past.broken
    decreases Total(s.runs, Fuel)
  {
    if k :| 0 <= k < |s.runs| && Live(s.runs[k]) {
      var mid := StepOfRun(s, k);
      s' := CompensationDrains(mid);
      LeadsFurther(s, mid, s');
    } else {
      s' := s;
      LeadsNowhere(s);
    }
  }
}
