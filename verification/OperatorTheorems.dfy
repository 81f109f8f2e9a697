/** Orders handed to an operator: when MANUAL lasts until the operator acts. */
module OperatorTheorems {
  import opened SagaTypes
  import opened SagaMachine
  import opened SagaInvariant
  import opened SagaHistory
  import opened SagaTheorems
  import opened CompensationTheorems
  import opened RecoveryTheorems

  /** Whatever happens, until an administrator writes. */
  ghost predicate StaysManual(s: Saga) {
    forall s' :: Leads(s, s') ==> s'.row.global == ManualRequired
  }

  /** A run at work that may still take back this service. */
  ghost predicate Reaches(p: Phase, svc: Service) {
    p.Reversing? && (p.todo.Has(svc) || p.acked.Has(svc))
  }

  /** A SUCCESS that no run at work will take back. */
  ghost predicate OutOfReach(s: Saga, svc: Service) {
    && s.row.LaneOf(svc).status == Success
    && forall k :: 0 <= k < |s.runs| ==> !Reaches(s.runs[k].phase, svc)
  }

  /** No run at work will be retried. */
  ghost predicate LastTries(runs: seq<Run>) {
    forall k :: 0 <= k < |runs| ==>
      !runs[k].phase.Retrying? && (runs[k].phase.Reversing? ==> runs[k].retry == LAST_RETRY)
  }

  /** No step handler may still fail; no compensation job waits and no poll holds
      the order, unless a dead handler makes all jobs defer; and runs at work are
      in their last try and cannot take back everything. */
  ghost predicate Settled(s: Saga) {
    && !MayFail(s.row.inventory.worker) && !MayFail(s.row.logistics.worker)
    && (s.row.AnyDead() || Quiet(s))
    && LastTries(s.runs)
    && (SomeReversing(s.runs) ==> exists svc :: OutOfReach(s, svc))
  }

  // ----- A settled order stays with the operator ---------------------------

  /** What is left of the forward handlers of an order in MANUAL. */
  lemma ManualRow(row: Row)
    requires RowOk(row) && row.global == ManualRequired
    ensures !row.Locked() && !InFlight(row.billing.worker) && row.billing.worker != NotEnqueued
    ensures row.AnyDead() ==> row.AnyStatus(Pending) && !row.barrier
    ensures !row.AnyDead() && row.AnyStatus(Pending) ==>
              InFlight(row.inventory.worker) || InFlight(row.logistics.worker)
    ensures !WouldComplete(row, Inventory) && !WouldComplete(row, Logistics)
  {
  }

  /** The steps of forward handlers that are left. */
  lemma SettledForward(s: Saga, t: int, a: Act)
    requires Inv(s) && s.row.global == ManualRequired && Settled(s) && Enabled(s, t, a) && ByForwardHandler(a)
    ensures RowAfter(s, t, a).global == ManualRequired
    ensures !MayFail(RowAfter(s, t, a).inventory.worker) && !MayFail(RowAfter(s, t, a).logistics.worker)
    ensures s.row.AnyDead() ==> RowAfter(s, t, a).AnyDead()
    ensures RunsAfter(s, t, a) == s.runs || (RowAfter(s, t, a).AnyDead() && !s.row.barrier)
  {
    ManualRow(s.row);
  }

  lemma {:induction false} NoneAtWork(row: Row, runs: seq<Run>)
    requires RunsOk(row, runs) && !row.barrier
    ensures LastTries(runs) && !SomeReversing(runs)
  {
    forall k | 0 <= k < |runs|
      ensures !runs[k].phase.Retrying? && !runs[k].phase.Reversing?
    {
      assert RunOk(row, runs[k]);
    }
  }

  lemma SettledForwardStays(s: Saga, e: Event)
    requires Inv(s) && s.row.global == ManualRequired && Settled(s)
    requires Enabled(s, e.at, e.act) && ByForwardHandler(e.act)
    ensures Next(s, e).row.global == ManualRequired && Settled(Next(s, e))
  {
    SettledForward(s, e.at, e.act);
    Step(s, e);
    NoneAtWork(Next(s, e).row, Next(s, e).runs);
  }

  lemma SettledMerge(s: Saga, t: int, k: nat, svc: Service)
    requires Inv(s) && s.row.global == ManualRequired && Settled(s)
    requires Enabled(s, t, CompMerge(k)) && OutOfReach(s, svc)
    ensures var s' := Apply(s, t, CompMerge(k));
            s'.row.global == ManualRequired && OutOfReach(s', svc) && s'.runs == WithPhase(s.runs, k, Ended)
  {
    var run := s.runs[k];
    assert !Reaches(run.phase, svc);
    assert RunOk(s.row, run);
    MergedStatuses(s.row, run.phase, run.retry, svc);
  }

  lemma SettledCall(s: Saga, t: int, a: Act, svc: Service)
    requires Enabled(s, t, a) && a.CompCall? && OutOfReach(s, svc)
    ensures OutOfReach(Apply(s, t, a), svc)
  {
    OthersKeepStatuses(s, t, a, svc);
    assert !Reaches(s.runs[a.run].phase, svc);
  }

  /** The runs at work leave something to the operator. */
  lemma SettledAtWork(s: Saga, e: Event)
    requires Inv(s) && s.row.global == ManualRequired && Settled(s)
    requires Enabled(s, e.at, e.act) && (e.act.CompMerge? || e.act.CompCall?)
    ensures Next(s, e).row.global == ManualRequired && exists svc :: OutOfReach(Next(s, e), svc)
  {
    assert s.runs[e.act.run].phase.Reversing?;
    var svc :| OutOfReach(s, svc);
    if e.act.CompMerge? {
      SettledMerge(s, e.at, e.act.run, svc);
    } else {
      SettledCall(s, e.at, e.act, svc);
    }
  }

  /** Nothing starts. */
  lemma SettledIdle(s: Saga, e: Event)
    requires Inv(s) && s.row.global == ManualRequired && Settled(s)
    requires Enabled(s, e.at, e.act) && ByCompensation(e.act) && !e.act.CompMerge? && !e.act.CompCall?
    ensures Next(s, e).row == s.row && Next(s, e).runs == WithPhase(s.runs, e.act.run, Ended)
    ensures forall svc :: OutOfReach(s, svc) ==> OutOfReach(Next(s, e), svc)
  {
    ManualRow(s.row);
  }

  lemma SettledRuns(s: Saga, e: Event)
    requires Inv(s) && s.row.global == ManualRequired && Settled(s)
    requires Enabled(s, e.at, e.act) && ByCompensation(e.act)
    ensures Next(s, e).row.global == ManualRequired && Settled(Next(s, e))
  {
    if e.act.CompMerge? || e.act.CompCall? {
      SettledAtWork(s, e);
      SettledPhase(s, e);
    } else {
      SettledIdle(s, e);
    }
  }

  lemma SettledPhase(s: Saga, e: Event)
    requires Inv(s) && s.row.global == ManualRequired && Settled(s)
    requires Enabled(s, e.at, e.act) && (e.act.CompMerge? || e.act.CompCall?)
    ensures var s' := Next(s, e);
            SameWorkers(s.row, s'.row) && LastTries(s'.runs) && (Quiet(s) ==> Quiet(s'))
  {
    assert s.runs[e.act.run].phase.Reversing?;
    if e.act.CompMerge? {
      var svc :| OutOfReach(s, svc);
      SettledMerge(s, e.at, e.act.run, svc);
    }
  }

  lemma SettledSessions(s: Saga, e: Event)
    requires Inv(s) && s.row.global == ManualRequired && Settled(s)
    requires Enabled(s, e.at, e.act) && !ByForwardHandler(e.act) && !ByCompensation(e.act) && !e.act.AdminWrite?
    ensures Next(s, e).row.global == ManualRequired && Settled(Next(s, e))
  {
    var s' := Next(s, e);
    assert s'.row == s.row;
    ManualRow(s.row);
    if s.row.AnyDead() {
      Step(s, e);
      NoneAtWork(s'.row, s'.runs);
    } else {
      assert s'.runs == s.runs;
      if SomeReversing(s.runs) {
        var svc :| OutOfReach(s, svc);
        assert OutOfReach(s', svc);
      }
    }
  }

  lemma {:induction false} SettledStays(s: Saga, events: seq<Event>)
    requires Inv(s) && s.row.global == ManualRequired && Settled(s) && Possible(s, events) && Unaided(events)
    ensures After(s, events).row.global == ManualRequired && Settled(After(s, events))
    decreases |events|
  {
    if events == [] {
    } else {
      var front := Front(events);
      var last := Last(events);
      assert forall i :: 0 <= i < |front| ==> front[i] == events[i];
      assert last == events[|events| - 1];
      SettledStays(s, front);
      Always(s, front);
      if ByForwardHandler(last.act) {
        SettledForwardStays(After(s, front), last);
      } else if ByCompensation(last.act) {
        SettledRuns(After(s, front), last);
      } else {
        SettledSessions(After(s, front), last);
      }
    }
  }

  // ----- An unsettled one can be taken away --------------------------------

  ghost predicate CanLeave(s: Saga) {
    exists s' :: Leads(s, s') && s'.row.global != ManualRequired
  }

  lemma LeavesVia(s: Saga, mid: Saga)
    requires Leads(s, mid) && CanLeave(mid)
    ensures CanLeave(s)
  {
    var s' :| Leads(mid, s') && s'.row.global != ManualRequired;
    LeadsFurther(s, mid, s');
  }

  lemma FailingStepLeaves(s: Saga, svc: Service)
    requires Reachable(s) && s.row.global == ManualRequired && svc != Billing && MayFail(s.row.LaneOf(svc).worker)
    ensures CanLeave(s)
    decreases s.row.LaneOf(svc).worker.Queued?
  {
    ReachableInv(s);
    ManualRow(s.row);
    if s.row.LaneOf(svc).worker == Queued {
      var mid := Do(s, s.clock, CallService(svc, false, true));
      assert mid.row.LaneOf(svc).worker == Called(Failed);
      FailingStepLeaves(mid, svc);
      LeavesVia(s, mid);
    } else {
      var s' := Do(s, s.clock, StepCommit(svc, false));
      assert s'.row.global == Compensating;
    }
  }

  lemma CommittedRow(row: Row, svc: Service)
    requires RowOk(row) && row.global == ManualRequired && !row.AnyDead() && svc != Billing
    requires row.LaneOf(svc).worker.Called? && !MayFail(row.LaneOf(svc).worker)
    ensures !row.Locked() && row.LaneOf(svc).worker == Called(Success)
    ensures var row' := CommitRow(row, svc);
            && row'.global == ManualRequired && !row'.AnyDead()
            && row'.LaneOf(svc).worker == Done
            && row'.LaneOf(Sibling(svc)) == row.LaneOf(Sibling(svc))
  {
  }

  lemma CommitSuccess(s: Saga, svc: Service) returns (s': Saga)
    requires Reachable(s) && svc != Billing && s.row.LaneOf(svc).worker == Called(Success) && !s.row.Locked()
    ensures Reachable(s') && Leads(s, s') && s'.row == CommitRow(s.row, svc) && s'.runs == s.runs
  {
    s' := Do(s, s.clock, StepCommit(svc, false));
  }

  lemma CommitLeft(s: Saga, svc: Service) returns (s': Saga)
    requires Reachable(s) && s.row.global == ManualRequired && !s.row.AnyDead() && svc != Billing
    requires !MayFail(s.row.LaneOf(svc).worker)
    ensures Reachable(s') && Leads(s, s') && s'.row.global == ManualRequired && !s'.row.AnyDead()
    ensures s'.runs == s.runs && !InFlight(s'.row.LaneOf(svc).worker)
    ensures s'.row.LaneOf(Sibling(svc)) == s.row.LaneOf(Sibling(svc))
  {
    ReachableInv(s);
    if s.row.LaneOf(svc).worker.Called? {
      CommittedRow(s.row, svc);
      s' := CommitSuccess(s, svc);
    } else {
      s' := s;
      LeadsNowhere(s);
    }
  }

  /** A waiting job starts once the handlers in flight have committed. */
  lemma WaitingStarts(s: Saga)
    requires Reachable(s) && s.row.global == ManualRequired && !s.row.AnyDead() && SomeWaiting(s.runs)
    requires !MayFail(s.row.inventory.worker) && !MayFail(s.row.logistics.worker)
    ensures CanLeave(s)
  {
    var s1 := CommitLeft(s, Inventory);
    var s2 := CommitLeft(s1, Logistics);
    LeadsFurther(s, s1, s2);
    ReachableInv(s2);
    ManualRow(s2.row);
    var k :| 0 <= k < |s2.runs| && s2.runs[k].phase.Waiting?;
    var s3 := StartRun(s2, s2.clock, k);
    LeadsFurther(s, s2, s3);
    assert s3.row.global == Compensating;
  }

  /** A time whose second no job id has. */
  lemma {:induction false} FreshSecond(runs: seq<Run>, from: int) returns (t: int)
    ensures t >= from && t >= 0
    ensures forall k :: 0 <= k < |runs| && runs[k].job.Stamped? ==> runs[k].job.second < t / SECOND
  {
    if runs == [] {
      t := if from < 0 then 0 else from;
    } else {
      var front := runs[..|runs| - 1];
      var last := runs[|runs| - 1];
      t := FreshSecond(front, from);
      if last.job.Stamped? && last.job.second >= t / SECOND {
        t := (last.job.second + 1) * SECOND;
      }
      assert forall k :: 0 <= k < |front| ==> front[k] == runs[k];
    }
  }

  lemma PollStarts(s: Saga)
    requires Reachable(s) && s.row.global == ManualRequired && !s.row.AnyDead() && s.sessions.poll == Fetched
    requires !MayFail(s.row.inventory.worker) && !MayFail(s.row.logistics.worker)
    ensures CanLeave(s)
  {
    var t := FreshSecond(s.runs, s.clock);
    var mid := Do(s, t, PollEnqueue(Confirmed, false));
    assert mid.runs[|s.runs|].phase.Waiting?;
    WaitingStarts(mid);
    LeavesVia(s, mid);
  }

  lemma RetryStarts(s: Saga, k: nat)
    requires Reachable(s) && s.row.global == ManualRequired && k < |s.runs| && s.runs[k].phase.Retrying?
    ensures CanLeave(s)
  {
    ReachableInv(s);
    assert RunOk(s.row, s.runs[k]);
    var t := FreshSecond(s.runs, s.clock);
    var mid := Do(s, t, CompRequeue(k, true, false));
    assert mid.runs[|s.runs|].phase.Waiting?;
    var s' := StartRun(mid, t, |s.runs|);
    assert s'.row.global == Compensating;
    LeadsFurther(s, mid, s');
  }

  /** What becomes of the statuses if everything is granted to a run. */
  ghost predicate TakesBack(row: Row, p: Phase, row': Row) {
    forall svc: Service ::
      row'.LaneOf(svc).status == if Reaches(p, svc) then Compensated else row.LaneOf(svc).status
  }

  lemma MergedRest(row: Row, called: Row, run: Run)
    requires run.phase.Reversing? && RunOk(row, run) && called.SameColumns(row) && row.global == ManualRequired
    ensures var row' := MergeRow(called, Hits(AllAnswered(run.phase)), run.retry);
            && TakesBack(row, run.phase, row')
            && row'.global == if row'.AnyStatus(Success) then ManualRequired else GlobalStatus.Cancelled
  {
  }

  function PhaseAtEnd(row: Row, retry: nat): Phase {
    if row.AnyStatus(Success) && retry < LAST_RETRY then Retrying else Ended
  }

  lemma MergeRest(s: Saga, k: nat, p: Phase) returns (s': Saga)
    requires Reachable(s) && k < |s.runs| && p.Reversing? && s.runs[k].phase == AllAnswered(p) && !s.row.Locked()
    ensures Reachable(s') && Leads(s, s')
    ensures s'.row == MergeRow(s.row, Hits(AllAnswered(p)), s.runs[k].retry)
    ensures s'.runs == WithPhase(s.runs, k, PhaseAtEnd(s'.row, s.runs[k].retry))
  {
    s' := Do(s, s.clock, CompMerge(k));
  }

  /** The rest of a run to which everything is granted. */
  lemma RunToMerge(s: Saga, k: nat) returns (s': Saga)
    requires Reachable(s) && s.row.global == ManualRequired && k < |s.runs| && s.runs[k].phase.Reversing?
    ensures Reachable(s') && Leads(s, s') && TakesBack(s.row, s.runs[k].phase, s'.row)
    ensures s'.row.global == if s'.row.AnyStatus(Success) then ManualRequired else GlobalStatus.Cancelled
    ensures s'.runs == WithPhase(s.runs, k, PhaseAtEnd(s'.row, s.runs[k].retry))
  {
    RunAtWork(s, k);
    var mid := ReverseAll(s, k);
    MergedRest(s.row, mid.row, s.runs[k]);
    s' := MergeRest(mid, k, s.runs[k].phase);
    LeadsFurther(s, mid, s');
  }

  lemma RunAtWork(s: Saga, k: nat)
    requires Reachable(s) && k < |s.runs| && s.runs[k].phase.Reversing?
    ensures RunOk(s.row, s.runs[k]) && !s.row.Locked()
  {
    ReachableInv(s);
    assert RunOk(s.row, s.runs[k]);
    BarrierStopsForward(s.row, Billing);
  }

  /** A run at work, and one that can still take something back if anything is left. */
  lemma PickRun(s: Saga) returns (k: nat, svc: Service)
    requires SomeReversing(s.runs) && forall svc :: !OutOfReach(s, svc)
    ensures k < |s.runs| && s.runs[k].phase.Reversing?
    ensures s.row.AnyStatus(Success) ==> s.row.LaneOf(svc).status == Success && Reaches(s.runs[k].phase, svc)
  {
    k, svc :| 0 <= k < |s.runs| && s.runs[k].phase.Reversing?;
    if svc': Service :| s.row.LaneOf(svc').status == Success {
      assert !OutOfReach(s, svc');
      svc := svc';
      k :| 0 <= k < |s.runs| && Reaches(s.runs[k].phase, svc);
    } else {
      NoneLeft(s.row);
    }
  }

  lemma NoneLeft(row: Row)
    requires forall svc: Service :: row.LaneOf(svc).status != Success
    ensures !row.AnyStatus(Success)
  {
    assert row.LaneOf(Billing).status != Success && row.LaneOf(Inventory).status != Success;
    assert row.LaneOf(Logistics).status != Success;
  }

  lemma FewerLeft(row: Row, p: Phase, row': Row, svc: Service)
    requires TakesBack(row, p, row') && row'.AnyStatus(Success)
    requires row.AnyStatus(Success) ==> row.LaneOf(svc).status == Success && Reaches(p, svc)
    ensures Successes(row').Count() < Successes(row).Count()
  {
    assert row'.LaneOf(Billing).status == Success ==> row.LaneOf(Billing).status == Success;
    assert row'.LaneOf(Inventory).status == Success ==> row.LaneOf(Inventory).status == Success;
    assert row'.LaneOf(Logistics).status == Success ==> row.LaneOf(Logistics).status == Success;
    assert row'.LaneOf(svc).status == Compensated;
  }

  /** Last tries that together reach everything take everything back. */
  lemma TakeAllBack(s: Saga) returns (s': Saga)
    requires Reachable(s) && s.row.global == ManualRequired && SomeReversing(s.runs)
    requires LastTries(s.runs) && forall svc :: !OutOfReach(s, svc)
    ensures Leads(s, s') && s'.row.global == GlobalStatus.Cancelled && !s'.row.AnyStatus(Success)
    decreases Successes(s.row).Count()
  {
    var k, svc := PickRun(s);
    var mid := RunToMerge(s, k);
    if mid.row.AnyStatus(Success) {
      FewerLeft(s.row, s.runs[k].phase, mid.row, svc);
      StillReached(s, k, mid);
      s' := TakeAllBack(mid);
      LeadsFurther(s, mid, s');
    } else {
      s' := mid;
    }
  }

  lemma StillReached(s: Saga, k: nat, mid: Saga)
    requires k < |s.runs| && mid.runs == WithPhase(s.runs, k, Ended) && mid.row.AnyStatus(Success)
    requires TakesBack(s.row, s.runs[k].phase, mid.row) && forall svc :: !OutOfReach(s, svc)
    ensures SomeReversing(mid.runs) && forall svc :: !OutOfReach(mid, svc)
  {
    forall svc | mid.row.LaneOf(svc).status == Success
      ensures exists j :: 0 <= j < |mid.runs| && Reaches(mid.runs[j].phase, svc)
    {
      assert !OutOfReach(s, svc);
      var j :| 0 <= j < |s.runs| && Reaches(s.runs[j].phase, svc);
      assert mid.runs[j] == s.runs[j];
    }
    if svc: Service :| mid.row.LaneOf(svc).status == Success {
      assert exists j :: 0 <= j < |mid.runs| && Reaches(mid.runs[j].phase, svc);
    } else {
      NoneLeft(mid.row);
    }
  }

  lemma EarlierTry(s: Saga, k: nat)
    requires Reachable(s) && s.row.global == ManualRequired && k < |s.runs|
    requires s.runs[k].phase.Reversing? && s.runs[k].retry < LAST_RETRY
    ensures CanLeave(s)
  {
    var mid := RunToMerge(s, k);
    if mid.row.AnyStatus(Success) {
      RetryStarts(mid, k);
      LeavesVia(s, mid);
    }
  }

  lemma UnsettledLeaves(s: Saga)
    requires Reachable(s) && s.row.global == ManualRequired && !Settled(s)
    ensures CanLeave(s)
  {
    ReachableInv(s);
    if MayFail(s.row.inventory.worker) {
      FailingStepLeaves(s, Inventory);
    } else if MayFail(s.row.logistics.worker) {
      FailingStepLeaves(s, Logistics);
    } else if !LastTries(s.runs) {
      var k :| 0 <= k < |s.runs| && (s.runs[k].phase.Retrying?
                                     || (s.runs[k].phase.Reversing? && s.runs[k].retry != LAST_RETRY));
      assert RunOk(s.row, s.runs[k]);
      if s.runs[k].phase.Retrying? {
        RetryStarts(s, k);
      } else {
        EarlierTry(s, k);
      }
    } else if !s.row.AnyDead() && !Quiet(s) {
      if s.sessions.poll == Fetched {
        PollStarts(s);
      } else {
        WaitingStarts(s);
      }
    } else {
      var s' := TakeAllBack(s);
    }
  }

  /** An order that was handed to an operator is still in MANUAL when the first
      administrator's write arrives, whatever happens in between, exactly if it is
      settled. */
  lemma ManualStaysExactly(s: Saga)
    requires Reachable(s) && s.row.global == ManualRequired
    ensures StaysManual(s) <==> Settled(s)
  {
    ReachableInv(s);
    if Settled(s) {
      forall s' | Leads(s, s')
        ensures s'.row.global == ManualRequired
      {
        var events :| Possible(s, events) && Unaided(events) && After(s, events) == s';
        SettledStays(s, events);
      }
    } else {
      UnsettledLeaves(s);
    }
  }
}
