/** Overlapping compensation runs: their common result, and that they end. */
module CompensationTheorems {
  import opened SagaTypes
  import opened SagaMachine
  import opened SagaInvariant
  import opened SagaHistory
  import opened SagaTheorems

  // ----- Confluence --------------------------------------------------------

  /** The reversals whose acknowledgement a step writes to the row. */
  ghost function MergedBy(s: Saga, e: Event): Flags
    requires Enabled(s, e.at, e.act)
  {
    if e.act.CompMerge? then Hits(s.runs[e.act.run].phase) else NONE
  }

  ghost function MergedIn(s: Saga, events: seq<Event>): Flags
    requires Possible(s, events)
    decreases |events|
  {
    if events == [] then NONE
    else MergedIn(s, Front(events)).Or(MergedBy(After(s, Front(events)), Last(events)))
  }

  lemma MergedStatuses(row: Row, p: Phase, retry: nat, svc: Service)
    requires p.Reversing? && PhaseOk(row, p)
    ensures MergeRow(row, Hits(p), retry).LaneOf(svc).status
              == if Hits(p).Has(svc) then Compensated else row.LaneOf(svc).status
    ensures Hits(p).Has(svc) ==> Held(row.LaneOf(svc))
  {
  }

  lemma OthersKeepStatuses(s: Saga, t: int, a: Act, svc: Service)
    requires Enabled(s, t, a) && !ByForwardHandler(a) && !a.CompMerge?
    ensures RowAfter(s, t, a).LaneOf(svc).status == s.row.LaneOf(svc).status
  {
  }

  lemma StatusStep(s: Saga, e: Event, svc: Service)
    requires Inv(s) && s.row.barrier && Enabled(s, e.at, e.act)
    ensures Next(s, e).row.LaneOf(svc).status ==
              if MergedBy(s, e).Has(svc) then Compensated else s.row.LaneOf(svc).status
    ensures MergedBy(s, e).Has(svc) ==> Held(s.row.LaneOf(svc))
  {
    Step(s, e);
    if e.act.CompMerge? {
      var run := s.runs[e.act.run];
      assert RunOk(s.row, run);
      MergedStatuses(s.row, run.phase, run.retry, svc);
    } else {
      OthersKeepStatuses(s, e.at, e.act, svc);
    }
  }

  /** However many runs overlap, in whatever order and with whatever stale
      snapshots, a status ends COMPENSATED exactly for the services whose reversal
      was acknowledged in some run that merged; nothing else changes. */
  lemma {:induction false} Confluence(s: Saga, events: seq<Event>, svc: Service)
    requires Inv(s) && s.row.barrier && Possible(s, events)
    ensures After(s, events).row.LaneOf(svc).status ==
              if MergedIn(s, events).Has(svc) then Compensated else s.row.LaneOf(svc).status
    ensures MergedIn(s, events).Has(svc) ==> Held(s.row.LaneOf(svc))
    decreases |events|
  {
    if events == [] {
      assert After(s, events) == s;
    } else {
      var front := Front(events);
      var mid := After(s, front);
      Confluence(s, front, svc);
      Always(s, front);
      Barrier(s, front);
      StatusStep(mid, Last(events), svc);
    }
  }

  /** Two histories of overlapping runs with the same acknowledged reversals leave
      the same step statuses. */
  lemma {:induction false} SameAcksSameStatuses(s: Saga, one: seq<Event>, two: seq<Event>, svc: Service)
    requires Reachable(s) && s.row.barrier && Possible(s, one) && Possible(s, two)
    requires MergedIn(s, one) == MergedIn(s, two)
    ensures After(s, one).row.LaneOf(svc).status == After(s, two).row.LaneOf(svc).status
  {
    ReachableInv(s);
    Confluence(s, one, svc);
    Confluence(s, two, svc);
  }

  /** A single run whose every reversal was acknowledged cancels the order, whatever
      the other runs have done or are doing. */
  lemma FullyAcknowledgedRunCancels(s: Saga, e: Event)
    requires Reachable(s) && Enabled(s, e.at, e.act) && e.act.CompMerge?
    requires s.runs[e.act.run].phase.acked == s.runs[e.act.run].phase.snapshot
    ensures Next(s, e).row.global == GlobalStatus.Cancelled
    ensures !Next(s, e).row.AnyStatus(Success)
    ensures Next(s, e).runs[e.act.run].phase.Ended?
  {
    ReachableInv(s);
    assert RunOk(s.row, s.runs[e.act.run]);
  }

  // ----- One undisturbed run -----------------------------------------------

  /** A reversal that is acknowledged, if it was still to be sent. */
  function Answered(p: Phase, svc: Service): Phase
    requires p.Reversing?
  {
    p.(todo := p.todo.With(svc, false), acked := if p.todo.Has(svc) then p.acked.With(svc, true) else p.acked)
  }

  /** All reversals still to be sent are acknowledged. */
  function AllAnswered(p: Phase): Phase
    requires p.Reversing?
  {
    p.(todo := NONE, acked := p.todo.Or(p.acked))
  }

  lemma AnsweredAll(p: Phase)
    requires p.Reversing?
    ensures Answered(Answered(Answered(p, Billing), Inventory), Logistics) == AllAnswered(p)
  {
  }

  /** One reversal that the service grants and whose response arrives. */
  lemma ReverseOne(s: Saga, k: nat, svc: Service) returns (s': Saga)
    requires Reachable(s) && k < |s.runs| && s.runs[k].phase.Reversing?
    ensures Reachable(s') && Leads(s, s') && s'.clock == s.clock
    ensures s'.row.Locked() == s.row.Locked() && s'.row.SameColumns(s.row) && s'.row.forced == s.row.forced
    ensures s'.runs == WithPhase(s.runs, k, Answered(s.runs[k].phase, svc))
  {
    if s.runs[k].phase.todo.Has(svc) {
      s' := Do(s, s.clock, CompCall(k, svc, true, true));
    } else {
      s' := s;
      LeadsNowhere(s);
      assert Answered(s.runs[k].phase, svc) == s.runs[k].phase;
    }
  }

  /** All reversals that a run still has to send are granted and acknowledged. */
  lemma ReverseAll(s: Saga, k: nat) returns (s': Saga)
    requires Reachable(s) && k < |s.runs| && s.runs[k].phase.Reversing?
    ensures Reachable(s') && Leads(s, s') && s'.clock == s.clock
    ensures s'.row.Locked() == s.row.Locked() && s'.row.SameColumns(s.row) && s'.row.forced == s.row.forced
    ensures s'.runs == WithPhase(s.runs, k, AllAnswered(s.runs[k].phase))
  {
    var s1 := ReverseOne(s, k, Billing);
    var s2 := ReverseOne(s1, k, Inventory);
    s' := ReverseOne(s2, k, Logistics);
    LeadsFurther(s, s1, s2);
    LeadsFurther(s, s2, s');
    AnsweredAll(s.runs[k].phase);
  }

  lemma StartRun(s: Saga, t: int, k: nat) returns (s': Saga)
    requires Reachable(s) && s.clock <= t && k < |s.runs| && s.runs[k].phase.Waiting?
    requires !s.row.AnyStatus(Pending)
    ensures Reachable(s') && Leads(s, s') && s'.clock == t && k < |s'.runs|
    ensures s'.row == StartRow(s.row) && !s'.row.Locked()
    ensures s'.runs[k].phase == Reversing(Successes(s.row), Successes(s.row), NONE)
  {
    ReachableInv(s);
    NotLocked(s.row);
    s' := Do(s, t, CompStart(k));
  }

  lemma NotLocked(row: Row)
    requires RowOk(row) && !row.AnyStatus(Pending)
    ensures !row.Locked()
  {
  }

  lemma FinishRun(s: Saga, t: int, k: nat) returns (s': Saga)
    requires Reachable(s) && s.clock <= t && k < |s.runs| && !s.row.Locked()
    requires s.runs[k].phase == Reversing(Successes(s.row), NONE, Successes(s.row))
    ensures Reachable(s') && Leads(s, s')
    ensures s'.row == Merged(s.row, Successes(s.row)).(global := GlobalStatus.Cancelled)
  {
    s' := Do(s, t, CompMerge(k));
    FullyAcknowledgedRunCancels(s, Event(t, CompMerge(k)));
  }

  /** Every completed step taken back, nothing else touched. */
  ghost predicate TakenBack(st: StepStatus, st': StepStatus) {
    st' == if st == Success then Compensated else st
  }

  /** A job that finds nothing PENDING and whose reversals all succeed cancels the
      order in one run. */
  lemma UninterruptedRun(s: Saga, t: int, k: nat) returns (s': Saga)
    requires Reachable(s) && s.clock <= t && k < |s.runs| && s.runs[k].phase.Waiting?
    requires !s.row.AnyStatus(Pending)
    ensures Reachable(s') && Leads(s, s')
    ensures s'.row.global == GlobalStatus.Cancelled && s'.row.forced == s.row.forced
    ensures TakenBack(s.row.billing.status, s'.row.billing.status)
    ensures TakenBack(s.row.inventory.status, s'.row.inventory.status)
    ensures TakenBack(s.row.logistics.status, s'.row.logistics.status)
  {
    var s1 := StartRun(s, t, k);
    var s2 := ReverseAll(s1, k);
    assert Successes(s2.row) == Successes(s.row);
    s' := FinishRun(s2, t, k);
    LeadsFurther(s, s1, s2);
    LeadsFurther(s, s2, s');
  }

  // ----- Termination -------------------------------------------------------

  /** At most five runs per job that is not itself a retry. */
  lemma AttemptsBounded(s: Saga)
    requires Reachable(s)
    ensures s.past.attempted <= 5 * s.past.dispatched
  {
    ReachableInv(s);
    ChancesLeft(s.row, s.runs);
  }

  lemma {:induction false} ChancesLeft(row: Row, runs: seq<Run>)
    requires RunsOk(row, runs)
    ensures Total(runs, Chances) >= 0
  {
    if runs == [] {
    } else {
      assert RunOk(row, runs[0]);
      assert forall k :: 0 <= k < |runs[1..]| ==> runs[1..][k] == runs[k + 1];
      ChancesLeft(row, runs[1..]);
    }
  }

  lemma TriedBefore(s: Saga, k: nat)
    requires Reachable(s) && k < |s.runs|
    ensures s.runs[k].retry + Bit(!s.runs[k].phase.Waiting?) <= s.past.attempted && RunOk(s.row, s.runs[k])
  {
    ReachableInv(s);
  }

  /** A run hands the order to an operator exactly in the second transaction of a fifth
      attempt that leaves a SUCCESS. */
  lemma GivingUpTakesFive(s: Saga, e: Event)
    requires Reachable(s) && Enabled(s, e.at, e.act) && ByCompensation(e.act) && s.row.global != ManualRequired
    ensures Next(s, e).row.global == ManualRequired <==>
              e.act.CompMerge? && s.runs[e.act.run].retry == 4 && Next(s, e).row.AnyStatus(Success)
    ensures Next(s, e).row.global == ManualRequired ==> s.past.attempted >= 5
  {
    TriedBefore(s, e.act.run);
    assert s.runs[e.act.run].retry + Bit(!s.runs[e.act.run].phase.Waiting?) <= s.past.attempted;
  }

  /** An order that has left the forward path has had a compensation job. */
  lemma FailureIsDispatched(s: Saga)
    requires Reachable(s) && s.row.global != Processing && s.row.global != Completed
    ensures s.runs != []
  {
    ReachableInv(s);
  }

  /** A bound on the steps that a job and its retries can still take. */
  function Fuel(run: Run): int {
    match run.phase
    case Waiting => 6 * (LAST_RETRY + 1 - run.retry)
    case Reversing(_, todo, _) => 6 * (LAST_RETRY - run.retry) + 2 + todo.Count()
    case Retrying => 6 * (LAST_RETRY - run.retry) + 1
    case Ended => 0
  }

  const FULL_FUEL := 30

  lemma FuelStep(s: Saga, t: int, a: Act)
    requires Enabled(s, t, a) && ByCompensation(a) && s.runs[a.run].retry <= LAST_RETRY
    ensures Fuel(s.runs[a.run].(phase := PhaseAfter(s, t, a)))
              + (if a.CompRequeue? then Fuel(Run(StampedId(t), s.runs[a.run].retry + 1, Waiting)) else 0)
            < Fuel(s.runs[a.run])
  {
  }

  lemma RunsFuelStep(s: Saga, t: int, a: Act)
    requires Enabled(s, t, a) && ByCompensation(a) && s.runs[a.run].retry <= LAST_RETRY
    requires a.CompRequeue? ==> s.runs[a.run].retry < LAST_RETRY
    ensures Total(RunsAfter(s, t, a), Fuel) < Total(s.runs, Fuel)
  {
    FuelStep(s, t, a);
    var run := s.runs[a.run];
    var run' := run.(phase := PhaseAfter(s, t, a));
    if a.CompRequeue? && a.up && !Taken(s.runs, StampedId(t), a.cached) {
      var retry := Run(StampedId(t), run.retry + 1, Waiting);
      TotalAppend(s.runs, retry, Fuel);
      TotalUpdate(s.runs + [retry], a.run, run', Fuel);
    } else {
      TotalUpdate(s.runs, a.run, run', Fuel);
    }
  }

  /** Every step of a compensation job uses up fuel, and only a dispatch from
      outside brings in new. */
  lemma TotalFuelStep(s: Saga, e: Event)
    requires RunsOk(s.row, s.runs) && Enabled(s, e.at, e.act)
    ensures Total(Next(s, e).runs, Fuel) + Bit(ByCompensation(e.act))
            <= Total(s.runs, Fuel) + FULL_FUEL * (Next(s, e).past.dispatched - s.past.dispatched)
  {
    if ByCompensation(e.act) {
      assert RunOk(s.row, s.runs[e.act.run]);
      RunsFuelStep(s, e.at, e.act);
    } else if Dispatched(s, e.at, e.act).Some? {
      TotalAppend(s.runs, Run(Dispatched(s, e.at, e.act).value, 0, Waiting), Fuel);
    }
  }

  ghost function CompensationSteps(events: seq<Event>): nat {
    if events == [] then 0 else CompensationSteps(Front(events)) + Bit(ByCompensation(Last(events).act))
  }

  lemma {:induction false} FuelBound(s: Saga, events: seq<Event>)
    requires Inv(s) && Possible(s, events)
    ensures CompensationSteps(events) + Total(After(s, events).runs, Fuel)
            <= Total(s.runs, Fuel) + FULL_FUEL * (After(s, events).past.dispatched - s.past.dispatched)
    decreases |events|
  {
    if events == [] {
      assert After(s, events) == s;
    } else {
      FuelBound(s, Front(events));
      Always(s, Front(events));
      TotalFuelStep(After(s, Front(events)), Last(events));
    }
  }

  lemma {:induction false} FuelLeft(row: Row, runs: seq<Run>)
    requires RunsOk(row, runs)
    ensures Total(runs, Fuel) >= 0
  {
    if runs == [] {
    } else {
      assert RunOk(row, runs[0]);
      assert forall k :: 0 <= k < |runs[1..]| ==> runs[1..][k] == runs[k + 1];
      FuelLeft(row, runs[1..]);
    }
  }

  /** Compensation terminates: all runs together take at most thirty steps for
      each job enqueued by anything but a retry. */
  lemma {:induction false} CompensationTerminates(payment: PaymentWay, t: int, events: seq<Event>)
    requires Possible(Init(payment, t), events)
    ensures CompensationSteps(events) <= 30 * After(Init(payment, t), events).past.dispatched
  {
    var start := Init(payment, t);
    InitInv(payment, t);
    FuelBound(start, events);
    Always(start, events);
    FuelLeft(After(start, events).row, After(start, events).runs);
  }

  // ----- Orders that drop out of sight -------------------------------------

  /** COMPENSATING with nothing to take back: no poll ever matches such an order. */
  ghost predicate Unseen(row: Row) {
    row.global == Compensating && !row.AnyStatus(Success)
  }

  /** The writes that make an order unseen or visible: those of a passed guard, a
      merge, the dead-order check, an administrator, and a forward handler that
      rejects or commits. */
  ghost predicate Decides(row: Row, a: Act) {
    || (a.CompStart? && !row.AnyStatus(Pending))
    || a.CompMerge? || a.DeadWrite? || a.AdminWrite?
    || a.BillingReject? || a.StepCommit?
  }

  /** A guard or a failure that finds no SUCCESS. */
  ghost predicate LeavesNothing(row: Row, a: Act) {
    && !row.AnyStatus(Success)
    && (a.CompStart? || a.BillingReject? || (a.StepCommit? && row.LaneOf(a.svc).worker == Called(Failed)))
  }

  /** The last deciding write of the run was a guard or a failure that found no
      SUCCESS. */
  ghost predicate LeftNothing(s: Saga, events: seq<Event>)
    requires Possible(s, events)
    decreases |events|
  {
    events != [] &&
    var row := After(s, Front(events)).row;
    var a := Last(events).act;
    if Decides(row, a) then LeavesNothing(row, a) else LeftNothing(s, Front(events))
  }

  lemma UnseenStep(s: Saga, e: Event)
    requires Inv(s) && Enabled(s, e.at, e.act)
    ensures Unseen(Next(s, e).row) <==>
              if Decides(s.row, e.act) then LeavesNothing(s.row, e.act) else Unseen(s.row)
  {
    Step(s, e);
    if e.act.CompMerge? {
      assert RunOk(s.row, s.runs[e.act.run]);
    } else if e.act.StepCommit? {
      CommitUnseen(s.row, e.act.svc);
    } else if ByForwardHandler(e.act) {
      if !e.act.BillingReject? { ForwardUnseen(s, e.at, e.act); }
    } else {
      BackwardUnseen(s, e.at, e.act);
    }
  }

  lemma CommitUnseen(row: Row, svc: Service)
    requires RowOk(row) && svc != Billing && row.LaneOf(svc).worker.Called? && !row.Locked()
    ensures Unseen(CommitRow(row, svc)) <==> !row.AnyStatus(Success) && row.LaneOf(svc).worker == Called(Failed)
  {
  }

  /** Of the other forward steps only billing's commit writes a status, and then the
      order is in PROCESSING. */
  lemma ForwardUnseen(s: Saga, t: int, a: Act)
    requires RowOk(s.row) && Enabled(s, t, a) && ByForwardHandler(a) && !a.StepCommit? && !a.BillingReject?
    ensures Unseen(RowAfter(s, t, a)) <==> Unseen(s.row)
  {
    assert RowAfter(s, t, a).global == s.row.global;
  }

  lemma BackwardUnseen(s: Saga, t: int, a: Act)
    requires Enabled(s, t, a) && !ByForwardHandler(a) && !a.CompMerge?
    ensures Unseen(RowAfter(s, t, a)) <==> if Decides(s.row, a) then LeavesNothing(s.row, a) else Unseen(s.row)
  {
  }

  /** An order is out of the poll's sight exactly if the last write that decides it
      was a guard or a failure with no SUCCESS on the row: no merge, no dead-order
      check, no administrator and no later commit has come after. */
  lemma {:induction false} UnseenExactly(payment: PaymentWay, t: int, events: seq<Event>)
    requires Possible(Init(payment, t), events)
    ensures Unseen(After(Init(payment, t), events).row) <==> LeftNothing(Init(payment, t), events)
    decreases |events|
  {
    var start := Init(payment, t);
    InitInv(payment, t);
    if events == [] {
      assert After(start, events) == start;
    } else {
      UnseenExactly(payment, t, Front(events));
      Always(start, Front(events));
      UnseenStep(After(start, Front(events)), Last(events));
    }
  }

  /** Closed, or with an operator, or the poll picks it up now. */
  ghost predicate Covered(s: Saga, now: int) {
    || s.row.global == GlobalStatus.Cancelled || s.row.global == ManualRequired
    || MatchesPoll(s.row, s.updatedAt, now)
  }

  /** A stale order that has left the forward path is covered exactly if the last
      deciding write left something to take back. Jobs play no part in this. */
  lemma {:induction false} CoveredExactly(payment: PaymentWay, t: int, events: seq<Event>, now: int)
    requires Possible(Init(payment, t), events)
    requires var s := After(Init(payment, t), events);
             !Forward(s.row) && s.updatedAt < now - STUCK_TIMEOUT
    ensures Covered(After(Init(payment, t), events), now) <==> !LeftNothing(Init(payment, t), events)
  {
    UnseenExactly(payment, t, events);
  }

  /** In particular when its jobs have drained. What is not covered then only the
      dead-order check sees: a run died between its two transactions, or no run has
      ever passed the guard, because each deferred or died waiting. */
  lemma {:induction false} Drained(payment: PaymentWay, t: int, events: seq<Event>, now: int)
    requires Possible(Init(payment, t), events)
    requires var s := After(Init(payment, t), events);
             !Forward(s.row) && RunsEnded(s.runs) && s.updatedAt < now - STUCK_TIMEOUT
    ensures Covered(After(Init(payment, t), events), now) <==> !LeftNothing(Init(payment, t), events)
    ensures LeftNothing(Init(payment, t), events) ==>
              var s := After(Init(payment, t), events);
              s.row.global == Compensating && (s.row.barrier ==> s.past.broken)
  {
    var start := Init(payment, t);
    InitInv(payment, t);
    InitHistory(payment, t);
    HistoryAlways(start, events);
    UnseenExactly(payment, t, events);
    CoveredExactly(payment, t, events, now);
  }

  /** And when a run has just requeued itself, whether the retry was accepted or lost:
      its stale order is covered unless, since the run's own merge left a SUCCESS,
      another run has merged that away and a third has found nothing. */
  lemma {:induction false} LostRetryIsCovered(payment: PaymentWay, t: int, events: seq<Event>, now: int)
    requires Possible(Init(payment, t), events) && events != [] && Last(events).act.CompRequeue?
    requires After(Init(payment, t), events).updatedAt < now - STUCK_TIMEOUT
    ensures Covered(After(Init(payment, t), events), now) <==> !LeftNothing(Init(payment, t), Front(events))
  {
    var start := Init(payment, t);
    var mid := After(start, Front(events));
    InitInv(payment, t);
    Always(start, Front(events));
    Always(start, events);
    assert RunOk(mid.row, mid.runs[Last(events).act.run]);
    CoveredExactly(payment, t, events, now);
  }
}
