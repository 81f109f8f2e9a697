/** What every step of every handler keeps. */
module SagaInvariant {
  import opened SagaTypes
  import opened SagaMachine

  // ----- One service -------------------------------------------------------

  /** The record a service keeps after a forward call that returned `result`. */
  ghost predicate CalledRecord(lane: Lane, result: StepStatus) {
    match result
    case Success => lane.record == Processed && !lane.lost
    case Failed => lane.record == if lane.lost then Processed else Absent
    case _ => lane.record == Absent && !lane.lost
  }

  /** The service's record is determined by the saga's view of the service, up to
      a reversal that has taken effect but is not merged yet. */
  ghost predicate LedgerAgrees(lane: Lane) {
    match lane.status
    case Pending =>
      (match lane.worker
       case NotEnqueued => lane.record == Absent && !lane.lost
       case Queued => lane.record == Absent && !lane.lost
       case Called(result) => CalledRecord(lane, result)
       case FanningOut(result) => CalledRecord(lane, result)
       case Done => false
       case Dead => lane.record != Reversed && (lane.lost ==> lane.record == Processed))
    case Success => lane.record != Absent && !lane.lost
    case Failed => CalledRecord(lane, Failed)
    case Compensated => lane.record == Reversed && !lane.lost
    case _ => lane.record == Absent && !lane.lost
  }

  /** A status leaves PENDING in the step that ends its job, or is cancelled
      without a job. */
  ghost predicate LaneOk(lane: Lane) {
    && LedgerAgrees(lane)
    && (lane.status == StepStatus.Cancelled ==> lane.worker == NotEnqueued)
    && (lane.status != StepStatus.Cancelled ==> (lane.status == Pending <==> lane.worker != Done))
  }

  ghost predicate StepLaneOk(lane: Lane) {
    && LaneOk(lane)
    && lane.status != Skipped
    && !lane.worker.FanningOut?
    && (lane.worker.Called? ==> lane.worker.result == Success || lane.worker.result == Failed)
  }

  ghost predicate BillingLaneOk(lane: Lane, payment: PaymentWay) {
    && LaneOk(lane)
    && lane.status != StepStatus.Cancelled
    && (lane.worker.Called? ==>
          lane.worker.result == Success || lane.worker.result == Failed || lane.worker.result == Skipped)
    && (lane.worker.FanningOut? ==> lane.worker.result == Success || lane.worker.result == Skipped)
    && match payment
       case Postpayment =>
         && (lane.status == Pending || lane.status == Skipped)
         && lane.record == Absent && !lane.lost
         && (lane.worker.Called? ==> lane.worker.result == Skipped)
         && (lane.worker.FanningOut? ==> lane.worker.result == Skipped)
       case Prepayment =>
         && lane.status != Skipped
         && lane.worker != Called(Skipped) && lane.worker != FanningOut(Skipped)
  }

  // ----- The three services together ---------------------------------------

  ghost predicate StepsUntouched(row: Row) {
    row.inventory.worker == NotEnqueued && row.logistics.worker == NotEnqueued
  }

  /** Billing decides whether the two steps run at all. */
  ghost predicate BillingFirst(row: Row) {
    && ((row.billing.status == Failed) <==> (row.inventory.status == StepStatus.Cancelled))
    && ((row.billing.status == Failed) <==> (row.logistics.status == StepStatus.Cancelled))
    && (match row.billing.worker
        case Done =>
          if row.billing.status == Failed then StepsUntouched(row)
          else row.inventory.worker != NotEnqueued && row.logistics.worker != NotEnqueued
        case Dead => true
        case FanningOut(_) =>
          row.global == Processing && row.inventory.worker != Done && row.logistics.worker != Done
        case _ => row.global == Processing && StepsUntouched(row))
  }

  ghost predicate LanesOk(row: Row) {
    && BillingLaneOk(row.billing, row.payment)
    && StepLaneOk(row.inventory)
    && StepLaneOk(row.logistics)
    && BillingFirst(row)
  }

  // ----- The global status -------------------------------------------------

  /** PROCESSING or COMPLETED: compensation has not begun. */
  ghost predicate Forward(row: Row) {
    row.global == Processing || row.global == Completed
  }

  ghost predicate GlobalOk(row: Row) {
    && (row.global == Processing ==> row.AnyStatus(Pending) && !row.AnyStatus(Failed))
    && (row.global == Completed ==> Billed(row) && row.inventory.status == Success && row.logistics.status == Success)
    && (!Forward(row) ==> row.AnyStatus(Failed) || row.barrier)
    && (row.global == GlobalStatus.Cancelled && !row.forced ==> row.barrier && !row.AnyStatus(Success))
    && (row.forced ==> !Forward(row))
  }

  /** Before the barrier nothing is reversed; after it nothing is pending. */
  ghost predicate BarrierOk(row: Row) {
    if row.barrier then
      !row.AnyStatus(Pending) && !Forward(row)
    else
      && !row.AnyStatus(Compensated)
      && row.billing.record != Reversed && row.inventory.record != Reversed && row.logistics.record != Reversed
  }

  ghost predicate RowOk(row: Row) {
    LanesOk(row) && GlobalOk(row) && BarrierOk(row)
  }

  // ----- Compensation runs -------------------------------------------------

  ghost predicate Held(lane: Lane) {
    lane.status == Success || lane.status == Compensated
  }

  /** A run's view of one service, against that service now. */
  ghost predicate ViewOk(lane: Lane, snapshot: bool, todo: bool, acked: bool) {
    && (snapshot ==> Held(lane))
    && (lane.status == Success ==> snapshot)
    && (todo ==> snapshot && !acked)
    && (acked ==> snapshot && lane.record == Reversed)
  }

  ghost predicate PhaseOk(row: Row, p: Phase) {
    p.Reversing? ==>
      && row.barrier
      && ViewOk(row.billing, p.snapshot.billing, p.todo.billing, p.acked.billing)
      && ViewOk(row.inventory, p.snapshot.inventory, p.todo.inventory, p.acked.inventory)
      && ViewOk(row.logistics, p.snapshot.logistics, p.todo.logistics, p.acked.logistics)
  }

  ghost predicate RunOk(row: Row, run: Run) {
    && run.retry <= LAST_RETRY
    && (run.phase.Retrying? ==> run.retry < LAST_RETRY && row.barrier)
    && PhaseOk(row, run.phase)
  }

  ghost predicate RunsOk(row: Row, runs: seq<Run>) {
    forall k :: 0 <= k < |runs| ==> RunOk(row, runs[k])
  }

  /** A session that read COMPENSATING or MANUAL will never overwrite COMPLETED. */
  ghost predicate SessionsOk(s: Saga) {
    s.sessions.escalations > 0 || s.sessions.forceCancels > 0 ==> !Forward(s.row)
  }

  ghost predicate Inv(s: Saga) {
    RowOk(s.row) && RunsOk(s.row, s.runs) && SessionsOk(s)
  }

  lemma InitInv(payment: PaymentWay, t: int)
    ensures Inv(Init(payment, t))
  {
  }

  // ----- After the barrier -------------------------------------------------

  /** What may happen to a service once nothing is pending. */
  ghost predicate LaneCalm(lane: Lane, lane': Lane) {
    && (Held(lane) <==> Held(lane'))
    && (lane'.status == Success ==> lane.status == Success)
    && (lane.record == Reversed ==> lane'.record == Reversed)
  }

  ghost predicate RowCalm(row: Row, row': Row) {
    && LaneCalm(row.billing, row'.billing)
    && LaneCalm(row.inventory, row'.inventory)
    && LaneCalm(row.logistics, row'.logistics)
  }

  /** The PENDING barrier: no forward job is left that could act. */
  lemma BarrierStopsForward(row: Row, svc: Service)
    requires RowOk(row) && row.barrier
    ensures !row.Locked()
    ensures row.LaneOf(svc).worker == Done || (row.LaneOf(svc).worker == NotEnqueued && svc != Billing)
  {
  }

  /** One step of one status column. */
  ghost predicate Moves(st: StepStatus, st': StepStatus) {
    || st == st'
    || (st == Pending && st' != Compensated)
    || (st == Success && st' == Compensated)
  }

  ghost predicate RowMoves(row: Row, row': Row) {
    && Moves(row.billing.status, row'.billing.status)
    && Moves(row.inventory.status, row'.inventory.status)
    && Moves(row.logistics.status, row'.logistics.status)
    && (!Forward(row) ==> !Forward(row'))
    && (row.forced ==> row'.forced)
    && row.payment == row'.payment
  }

  /** The steps of forward handlers, which are all on the near side. */
  ghost predicate KeptForward(row: Row, row': Row) {
    && RowOk(row') && RowMoves(row, row')
    && !row.barrier && !row'.barrier
  }

  ghost predicate KeptBackward(row: Row, row': Row) {
    && RowOk(row') && RowMoves(row, row')
    && (row.barrier ==> row'.barrier && RowCalm(row, row'))
  }

  // ----- The row, handler by handler ---------------------------------------

  lemma EnqueueBillingKeepsRow(row: Row)
    requires RowOk(row) && row.billing.worker == NotEnqueued
    ensures KeptForward(row, WorkerRow(row, Billing, Queued))
  {
  }

  lemma CallKeepsRow(row: Row, svc: Service, granted: bool, delivered: bool)
    requires RowOk(row) && row.LaneOf(svc).worker == Queued
    ensures KeptForward(row, CallRow(row, svc, granted, delivered))
  {
  }

  lemma LockKeepsRow(row: Row)
    requires RowOk(row) && row.billing.worker.Called? && row.billing.worker.result != Failed
    ensures KeptForward(row, WorkerRow(row, Billing, FanningOut(row.billing.worker.result)))
  {
  }

  lemma FanOutKeepsRow(row: Row, svc: Service)
    requires RowOk(row) && svc != Billing && row.Locked() && row.LaneOf(svc).worker == NotEnqueued
    ensures KeptForward(row, WorkerRow(row, svc, Queued))
  {
  }

  lemma BilledKeepsRow(row: Row)
    requires RowOk(row) && row.Locked()
    requires row.inventory.worker != NotEnqueued && row.logistics.worker != NotEnqueued
    ensures KeptForward(row, BilledRow(row))
  {
  }

  lemma RejectKeepsRow(row: Row)
    requires RowOk(row) && row.billing.worker == Called(Failed)
    ensures KeptForward(row, RejectRow(row))
  {
  }

  lemma CommitKeepsRow(row: Row, svc: Service)
    requires RowOk(row) && svc != Billing && row.LaneOf(svc).worker.Called? && !row.Locked()
    ensures KeptForward(row, CommitRow(row, svc))
  {
  }

  lemma AbortKeepsRow(row: Row, svc: Service)
    requires RowOk(row) && exists atCommit, up :: CanDie(row, svc, atCommit, up)
    ensures KeptForward(row, WorkerRow(row, svc, Dead))
  {
  }

  lemma StartKeepsRow(row: Row)
    requires RowOk(row) && !row.AnyStatus(Pending)
    ensures KeptBackward(row, StartRow(row))
  {
  }

  lemma ReversalKeepsRow(row: Row, svc: Service, granted: bool)
    requires RowOk(row) && row.barrier && Held(row.LaneOf(svc))
    ensures KeptBackward(row, ReversalRow(row, svc, granted))
  {
  }

  lemma MergeKeepsLane(lane: Lane, snapshot: bool, todo: bool, acked: bool)
    requires LaneOk(lane) && ViewOk(lane, snapshot, todo, acked)
    ensures LaneOk(Merge(lane, snapshot && acked))
    ensures LaneCalm(lane, Merge(lane, snapshot && acked))
    ensures Moves(lane.status, Merge(lane, snapshot && acked).status)
  {
  }

  lemma MergedKeepsLanes(row: Row, p: Phase)
    requires RowOk(row) && p.Reversing? && PhaseOk(row, p)
    ensures LanesOk(Merged(row, Hits(p))) && RowCalm(row, Merged(row, Hits(p))) && RowMoves(row, Merged(row, Hits(p)))
  {
    MergeKeepsLane(row.billing, p.snapshot.billing, p.todo.billing, p.acked.billing);
    MergeKeepsLane(row.inventory, p.snapshot.inventory, p.todo.inventory, p.acked.inventory);
    MergeKeepsLane(row.logistics, p.snapshot.logistics, p.todo.logistics, p.acked.logistics);
  }

  lemma MergeKeepsRow(row: Row, p: Phase, retry: nat)
    requires RowOk(row) && p.Reversing? && PhaseOk(row, p)
    ensures KeptBackward(row, MergeRow(row, Hits(p), retry))
  {
    MergedKeepsLanes(row, p);
  }

  lemma EscalateKeepsRow(row: Row)
    requires RowOk(row) && !Forward(row)
    ensures KeptBackward(row, row.(global := ManualRequired))
    ensures KeptBackward(row, row.(global := GlobalStatus.Cancelled, forced := true))
  {
  }

  // ----- Compensation runs -------------------------------------------------

  lemma RunKept(row: Row, row': Row, run: Run)
    requires RunOk(row, run) && (row.barrier ==> row'.barrier && RowCalm(row, row'))
    ensures RunOk(row', run)
  {
  }

  lemma {:induction false} RunsKept(row: Row, row': Row, runs: seq<Run>)
    requires RunsOk(row, runs) && (row.barrier ==> row'.barrier && RowCalm(row, row'))
    ensures RunsOk(row', runs)
  {
    forall k | 0 <= k < |runs|
      ensures RunOk(row', runs[k])
    {
      RunKept(row, row', runs[k]);
    }
  }

  lemma {:induction false} EnqueueKeepsRuns(row: Row, runs: seq<Run>, id: JobId, retry: nat, cached: bool)
    requires RunsOk(row, runs) && retry <= LAST_RETRY
    ensures RunsOk(row, Enqueue(runs, id, retry, cached))
  {
  }

  lemma {:induction false} PhaseKeepsRuns(row: Row, runs: seq<Run>, k: nat, phase: Phase)
    requires RunsOk(row, runs) && k < |runs| && RunOk(row, runs[k].(phase := phase))
    ensures RunsOk(row, WithPhase(runs, k, phase))
  {
  }

  // ----- Every step keeps the invariant ------------------------------------

  predicate ByForwardHandler(a: Act) {
    a.EnqueueBilling? || a.CallService? || a.BillingLock? || a.FanOut? || a.BillingCommit?
    || a.BillingReject? || a.StepCommit? || a.Abort?
  }

  lemma ForwardKeepsRow(s: Saga, t: int, a: Act)
    requires RowOk(s.row) && Enabled(s, t, a) && ByForwardHandler(a)
    ensures KeptForward(s.row, RowAfter(s, t, a))
  {
    match a
    case EnqueueBilling => EnqueueBillingKeepsRow(s.row);
    case CallService(svc, granted, delivered) => CallKeepsRow(s.row, svc, granted, delivered);
    case BillingLock => LockKeepsRow(s.row);
    case FanOut(svc) => FanOutKeepsRow(s.row, svc);
    case BillingCommit => BilledKeepsRow(s.row);
    case BillingReject(_) => RejectKeepsRow(s.row);
    case StepCommit(svc, _) => CommitKeepsRow(s.row, svc);
    case Abort(svc, _, _, _) => AbortKeepsRow(s.row, svc);
  }

  lemma BackwardKeepsRow(s: Saga, t: int, a: Act)
    requires Inv(s) && Enabled(s, t, a) && !ByForwardHandler(a)
    ensures KeptBackward(s.row, RowAfter(s, t, a))
  {
    match a
    case CompStart(_) => if !s.row.AnyStatus(Pending) { StartKeepsRow(s.row); }
    case CompCall(k, svc, granted, _) =>
      assert RunOk(s.row, s.runs[k]);
      ReversalKeepsRow(s.row, svc, granted);
    case CompMerge(k) =>
      assert RunOk(s.row, s.runs[k]);
      MergeKeepsRow(s.row, s.runs[k].phase, s.runs[k].retry);
    case DeadWrite => EscalateKeepsRow(s.row);
    case AdminWrite => EscalateKeepsRow(s.row);
    case _ =>
  }

  lemma StartedPhase(row: Row)
    requires RowOk(row) && !row.AnyStatus(Pending)
    ensures PhaseOk(StartRow(row), Reversing(Successes(row), Successes(row), NONE))
  {
  }

  lemma CalledPhase(row: Row, p: Phase, svc: Service, granted: bool, delivered: bool)
    requires p.Reversing? && PhaseOk(row, p) && p.todo.Has(svc)
    ensures var acked := if Acked(row, svc, true, granted, delivered) then p.acked.With(svc, true) else p.acked;
            PhaseOk(ReversalRow(row, svc, granted), p.(todo := p.todo.With(svc, false), acked := acked))
  {
  }

  lemma RunStep(s: Saga, t: int, a: Act)
    requires Inv(s) && Enabled(s, t, a) && ByCompensation(a)
    requires KeptBackward(s.row, RowAfter(s, t, a))
    ensures RunOk(RowAfter(s, t, a), s.runs[a.run].(phase := PhaseAfter(s, t, a)))
  {
    var run := s.runs[a.run];
    assert RunOk(s.row, run);
    match a
    case CompStart(_) => if !s.row.AnyStatus(Pending) { StartedPhase(s.row); }
    case CompCall(_, svc, granted, delivered) => CalledPhase(s.row, run.phase, svc, granted, delivered);
    case _ =>
  }

  lemma RunsStep(s: Saga, t: int, a: Act)
    requires Inv(s) && Enabled(s, t, a)
    requires KeptForward(s.row, RowAfter(s, t, a)) || KeptBackward(s.row, RowAfter(s, t, a))
    ensures RunsOk(RowAfter(s, t, a), RunsAfter(s, t, a))
  {
    var row' := RowAfter(s, t, a);
    RunsKept(s.row, row', s.runs);
    if ByCompensation(a) {
      assert RunOk(s.row, s.runs[a.run]);
      BackwardKeepsRow(s, t, a);
      RunStep(s, t, a);
      if a.CompRequeue? && a.up {
        var queued := Enqueue(s.runs, StampedId(t), s.runs[a.run].retry + 1, a.cached);
        EnqueueKeepsRuns(row', s.runs, StampedId(t), s.runs[a.run].retry + 1, a.cached);
        PhaseKeepsRuns(row', queued, a.run, PhaseAfter(s, t, a));
      } else {
        PhaseKeepsRuns(row', s.runs, a.run, PhaseAfter(s, t, a));
      }
    } else if Dispatched(s, t, a).Some? {
      EnqueueKeepsRuns(row', s.runs, Dispatched(s, t, a).value, 0, Cached(a));
    }
  }

  lemma SessionsStep(s: Saga, t: int, a: Act)
    requires SessionsOk(s) && Enabled(s, t, a)
    requires !Forward(s.row) ==> !Forward(RowAfter(s, t, a))
    ensures SessionsOk(Apply(s, t, a))
  {
  }

  /** The invariant is inductive; so is everything `KeptBackward` says, and the
      steps of forward handlers happen only before the barrier. */
  lemma Step(s: Saga, e: Event)
    requires Inv(s) && Enabled(s, e.at, e.act)
    ensures Inv(Next(s, e))
    ensures KeptBackward(s.row, Next(s, e).row)
    ensures ByForwardHandler(e.act) ==> !s.row.barrier && !Next(s, e).row.barrier
  {
    if ByForwardHandler(e.act) {
      ForwardKeepsRow(s, e.at, e.act);
    } else {
      BackwardKeepsRow(s, e.at, e.act);
    }
    RunsStep(s, e.at, e.act);
    SessionsStep(s, e.at, e.act);
  }

  /** The invariant of every reachable state. */
  lemma {:induction false} Always(s: Saga, events: seq<Event>)
    requires Inv(s) && Possible(s, events)
    ensures Inv(After(s, events))
    decreases |events|
  {
    if events == [] {
    } else {
      Always(s, Front(events));
      Step(After(s, Front(events)), Last(events));
    }
  }
}
