/** Invariants that relate a reachable state to what happened on the way. */
module SagaHistory {
  import opened SagaTypes
  import opened SagaMachine
  import opened SagaInvariant

  // ----- Calls to the services ---------------------------------------------

  ghost predicate AckedBefore(log: seq<Call>, n: nat, svc: Service)
    requires n <= |log|
  {
    exists i :: 0 <= i < n && log[i] == Call(svc, false, true)
  }

  /** Forward calls come first, once per service, and a reversal only goes to a
      service that has acknowledged its forward call. */
  ghost predicate LogShape(log: seq<Call>) {
    && (forall i, j :: 0 <= i < j < |log| && log[i].reversal ==> log[j].reversal)
    && (forall i, j :: 0 <= i < j < |log| && !log[i].reversal && !log[j].reversal ==> log[i].svc != log[j].svc)
    && (forall j :: 0 <= j < |log| && log[j].reversal ==> AckedBefore(log, j, log[j].svc))
  }

  ghost predicate Uncalled(log: seq<Call>, svc: Service) {
    forall i :: 0 <= i < |log| ==> log[i].svc != svc
  }

  ghost predicate Acknowledged(lane: Lane) {
    lane.record != Absent && !lane.lost
  }

  ghost predicate Untouched(lane: Lane) {
    lane.worker == NotEnqueued || lane.worker == Queued
  }

  ghost predicate LaneLogOk(log: seq<Call>, svc: Service, lane: Lane) {
    && (Untouched(lane) ==> Uncalled(log, svc))
    && (Acknowledged(lane) ==> AckedBefore(log, |log|, svc))
  }

  ghost predicate LogOk(row: Row, log: seq<Call>) {
    && LogShape(log)
    && LaneLogOk(log, Billing, row.billing)
    && LaneLogOk(log, Inventory, row.inventory)
    && LaneLogOk(log, Logistics, row.logistics)
    && (row.payment == Postpayment ==> Uncalled(log, Billing))
    && (!row.barrier ==> forall i :: 0 <= i < |log| ==> !log[i].reversal)
  }

  /** What may happen to a service in a step that does not call any. */
  ghost predicate LaneQuiet(lane: Lane, lane': Lane) {
    && (Untouched(lane') ==> Untouched(lane))
    && (Acknowledged(lane') <==> Acknowledged(lane))
  }

  ghost predicate RowQuiet(row: Row, row': Row) {
    && LaneQuiet(row.billing, row'.billing)
    && LaneQuiet(row.inventory, row'.inventory)
    && LaneQuiet(row.logistics, row'.logistics)
    && row.payment == row'.payment
    && (row.barrier ==> row'.barrier)
  }

  lemma QuietStep(s: Saga, t: int, a: Act)
    requires Enabled(s, t, a) && !a.CallService? && !a.CompCall?
    requires s.row.barrier ==> RowAfter(s, t, a).barrier
    ensures RowQuiet(s.row, RowAfter(s, t, a))
  {
  }

  lemma {:induction false} LogExtended(log: seq<Call>, call: Call)
    requires LogShape(log)
    requires call.reversal ==> AckedBefore(log, |log|, call.svc)
    requires !call.reversal ==> Uncalled(log, call.svc) && forall i :: 0 <= i < |log| ==> !log[i].reversal
    ensures LogShape(log + [call])
    ensures forall svc :: svc != call.svc && Uncalled(log, svc) ==> Uncalled(log + [call], svc)
    ensures forall svc :: AckedBefore(log, |log|, svc) ==> AckedBefore(log + [call], |log| + 1, svc)
    ensures call == Call(call.svc, false, true) ==> AckedBefore(log + [call], |log| + 1, call.svc)
  {
    var log' := log + [call];
    forall svc | AckedBefore(log, |log|, svc)
      ensures AckedBefore(log', |log'|, svc)
    {
      var i :| 0 <= i < |log| && log[i] == Call(svc, false, true);
      assert log'[i] == Call(svc, false, true);
    }
    forall j | 0 <= j < |log'| && log'[j].reversal
      ensures AckedBefore(log', j, log'[j].svc)
    {
      if j < |log| { assert AckedBefore(log, j, log[j].svc); }
      var n := if j < |log| then j else |log|;
      var i :| 0 <= i < n && log[i] == Call(log'[j].svc, false, true);
      assert log'[i] == Call(log'[j].svc, false, true);
    }
    assert log'[|log|] == call;
  }

  lemma {:induction false} QuietKeepsLog(row: Row, row': Row, log: seq<Call>)
    requires LogOk(row, log) && RowQuiet(row, row')
    ensures LogOk(row', log)
  {
  }

  lemma CallKeepsLog(s: Saga, svc: Service, granted: bool, delivered: bool)
    requires RowOk(s.row) && s.row.LaneOf(svc).worker == Queued && LogOk(s.row, s.past.log)
    ensures LogOk(CallRow(s.row, svc, granted, delivered), LogAfter(s, CallService(svc, granted, delivered)))
  {
    NoReversalYet(s.row, s.past.log, svc);
    if !SkipsBilling(s.row, svc) {
      var call := Call(svc, false, Acked(s.row, svc, false, granted, delivered));
      LogExtended(s.past.log, call);
      assert (s.past.log + [Call(svc, false, true)])[|s.past.log|] == Call(svc, false, true);
      CalledLaneLog(s.row.LaneOf(svc), s.past.log, svc, granted, delivered);
    }
  }

  lemma {:induction false} NoReversalYet(row: Row, log: seq<Call>, svc: Service)
    requires RowOk(row) && row.LaneOf(svc).worker == Queued && LogOk(row, log)
    ensures Uncalled(log, svc) && !row.barrier && row.LaneOf(svc).record == Absent
    ensures forall i :: 0 <= i < |log| ==> !log[i].reversal
  {
    if row.barrier { BarrierStopsForward(row, svc); }
  }

  lemma {:induction false} CalledLaneLog(lane: Lane, log: seq<Call>, svc: Service, granted: bool, delivered: bool)
    requires lane.record == Absent
    requires AckedBefore(log + [Call(svc, false, true)], |log| + 1, svc)
    ensures var (record, ok) := ServiceCall(lane.record, false, granted);
            LaneLogOk(log + [Call(svc, false, ok && delivered)], svc,
                      lane.(record := record, worker := Called(if ok && delivered then Success else Failed),
                            lost := ok && !delivered))
  {
  }

  lemma ReversalKeepsLog(s: Saga, k: nat, svc: Service, granted: bool, delivered: bool)
    requires LogOk(s.row, s.past.log) && s.row.barrier && Held(s.row.LaneOf(svc)) && LanesOk(s.row)
    ensures LogOk(ReversalRow(s.row, svc, granted), LogAfter(s, CompCall(k, svc, granted, delivered)))
  {
    LogExtended(s.past.log, Call(svc, true, Acked(s.row, svc, true, granted, delivered)));
  }

  lemma LogStep(s: Saga, t: int, a: Act)
    requires Inv(s) && Enabled(s, t, a) && LogOk(s.row, s.past.log)
    ensures LogOk(RowAfter(s, t, a), LogAfter(s, a))
  {
    if a.CallService? {
      CallKeepsLog(s, a.svc, a.granted, a.delivered);
    } else if a.CompCall? {
      assert RunOk(s.row, s.runs[a.run]);
      ReversalKeepsLog(s, a.run, a.svc, a.granted, a.delivered);
    } else {
      Step(s, Event(t, a));
      QuietStep(s, t, a);
      QuietKeepsLog(s.row, RowAfter(s, t, a), s.past.log);
    }
  }

  // ----- The order cannot be forgotten -------------------------------------

  ghost predicate SomeReversing(runs: seq<Run>) {
    exists k :: 0 <= k < |runs| && runs[k].phase.Reversing?
  }

  ghost predicate RunsEnded(runs: seq<Run>) {
    forall k :: 0 <= k < |runs| ==> runs[k].phase.Ended?
  }

  /** COMPENSATING after the barrier means that someone is at work, or that the
      poll can see the order, or that a run died half-way. */
  ghost predicate DrainOk(s: Saga) {
    s.row.barrier && s.row.global == Compensating ==>
      s.row.AnyStatus(Success) || s.past.broken || SomeReversing(s.runs)
  }

  lemma ReversingKept(s: Saga, t: int, a: Act)
    requires Enabled(s, t, a) && SomeReversing(s.runs) && !a.CompMerge? && !a.CompDie?
    ensures SomeReversing(RunsAfter(s, t, a))
  {
    var k :| 0 <= k < |s.runs| && s.runs[k].phase.Reversing?;
    assert RunsAfter(s, t, a)[k].phase.Reversing?;
  }

  lemma DrainStep(s: Saga, t: int, a: Act)
    requires Inv(s) && Enabled(s, t, a) && DrainOk(s)
    ensures DrainOk(Apply(s, t, a))
  {
    Step(s, Event(t, a));
    if a.CompStart? {
      assert s.row.AnyStatus(Pending) || RunsAfter(s, t, a)[a.run].phase.Reversing?;
    }
    if SomeReversing(s.runs) && !a.CompMerge? && !a.CompDie? { ReversingKept(s, t, a); }
    if a.CompDie? { DeathStep(s, t, a.run, a.atCommit); }
  }

  lemma DeathStep(s: Saga, t: int, j: nat, atCommit: bool)
    requires Enabled(s, t, CompDie(j, atCommit))
    ensures SomeReversing(s.runs) && !s.runs[j].phase.Reversing? ==>
              SomeReversing(RunsAfter(s, t, CompDie(j, atCommit)))
  {
    if SomeReversing(s.runs) && !s.runs[j].phase.Reversing? {
      var k :| 0 <= k < |s.runs| && s.runs[k].phase.Reversing?;
      assert RunsAfter(s, t, CompDie(j, atCommit))[k].phase.Reversing?;
    }
  }

  // ----- The success counter -----------------------------------------------

  ghost predicate Over(w: Worker) {
    w == Done || w == Dead
  }

  /** The counter moves at most once, and without a completion only in a handler
      that died in its commit. */
  ghost predicate CountOk(s: Saga) {
    && s.past.completions <= s.past.counted <= 1
    && (s.past.counted == 1 ==> Over(s.row.inventory.worker) && Over(s.row.logistics.worker))
    && (s.past.completions < s.past.counted ==> s.row.inventory.worker == Dead || s.row.logistics.worker == Dead)
    && (s.row.global == Completed ==> s.past.completions == 1)
  }

  ghost predicate StaysOver(w: Worker, w': Worker) {
    Over(w) ==> w' == w
  }

  lemma OverStep(s: Saga, t: int, a: Act)
    requires Enabled(s, t, a)
    ensures StaysOver(s.row.billing.worker, RowAfter(s, t, a).billing.worker)
    ensures StaysOver(s.row.inventory.worker, RowAfter(s, t, a).inventory.worker)
    ensures StaysOver(s.row.logistics.worker, RowAfter(s, t, a).logistics.worker)
  {
  }

  lemma CountStep(s: Saga, t: int, a: Act)
    requires Inv(s) && Enabled(s, t, a) && CountOk(s)
    ensures CountOk(Apply(s, t, a))
  {
    Step(s, Event(t, a));
    OverStep(s, t, a);
    if Counts(s.row, a) {
      CountingStep(s, t, a);
    } else {
      NotCountingStep(s, t, a);
    }
  }

  lemma CountingStep(s: Saga, t: int, a: Act)
    requires RowOk(s.row) && Enabled(s, t, a) && Counts(s.row, a)
    ensures !Over(s.row.LaneOf(a.svc).worker) && s.row.LaneOf(Sibling(a.svc)).worker == Done
    ensures RowAfter(s, t, a).LaneOf(a.svc).worker == if a.Abort? then Dead else Done
    ensures RowAfter(s, t, a).LaneOf(Sibling(a.svc)).worker == Done
    ensures RowAfter(s, t, a).global == Completed ==> a.StepCommit?
  {
  }

  lemma NotCountingStep(s: Saga, t: int, a: Act)
    requires RowOk(s.row) && Enabled(s, t, a) && !Counts(s.row, a)
    ensures RowAfter(s, t, a).global == Completed ==> s.row.global == Completed
  {
  }

  // ----- Time --------------------------------------------------------------

  /** Dispatches are in order, and one that stamped the order is followed by the next
      only after more than the poll's timeout. */
  ghost predicate Spaced(ds: seq<int>, unstamped: set<int>) {
    forall k :: 0 < k < |ds| ==>
      ds[k - 1] <= ds[k] && (k - 1 !in unstamped ==> ds[k - 1] + STUCK_TIMEOUT < ds[k])
  }

  ghost predicate TimesOk(ds: seq<int>, unstamped: set<int>, poll: PollSession, updatedAt: int, clock: int) {
    && updatedAt <= clock
    && Spaced(ds, unstamped)
    && (forall k :: k in unstamped ==> k < |ds|)
    && (|ds| > 0 ==>
          var last := ds[|ds| - 1];
          && last <= clock
          && (|ds| - 1 !in unstamped ==>
                && (poll.Stamping? || last <= updatedAt)
                && (poll == Fetched ==> last + STUCK_TIMEOUT < clock)))
    && (poll.Stamping? ==> |ds| > 0 && poll.at == ds[|ds| - 1])
  }

  ghost predicate TimeOk(s: Saga) {
    TimesOk(s.past.dispatches, s.past.unstamped, s.sessions.poll, s.updatedAt, s.clock)
  }

  lemma {:induction false} DispatchTime(ds: seq<int>, unstamped: set<int>, updatedAt: int, clock: int, t: int,
                                        delivery: Delivery)
    requires TimesOk(ds, unstamped, Fetched, updatedAt, clock) && clock <= t && !delivery.Dropped?
    ensures TimesOk(ds + [t], if delivery.Unconfirmed? then unstamped + {|ds|} else unstamped,
                    if delivery.Confirmed? then Stamping(t) else Idle, updatedAt, t)
  {
    assert |ds| > 0 && |ds| - 1 !in unstamped ==> ds[|ds| - 1] + STUCK_TIMEOUT < t;
  }

  /** What the steps that dispatch nothing do to times. */
  lemma QuietTime(s: Saga, t: int, a: Act)
    requires Enabled(s, t, a) && !a.PollEnqueue? && !a.PollDrop?
    ensures UpdatedAfter(s, t, a) == s.updatedAt || UpdatedAfter(s, t, a) == t || a.PollCommit?
    ensures !a.PollFetch? && !a.PollCommit? ==> SessionsAfter(s, t, a).poll == s.sessions.poll
    ensures PastAfter(s, t, a).dispatches == s.past.dispatches && PastAfter(s, t, a).unstamped == s.past.unstamped
  {
  }

  lemma TimeStep(s: Saga, t: int, a: Act)
    requires Enabled(s, t, a) && TimeOk(s)
    ensures TimeOk(Apply(s, t, a))
  {
    if a.PollEnqueue? {
      if !a.delivery.Dropped? {
        DispatchTime(s.past.dispatches, s.past.unstamped, s.updatedAt, s.clock, t, a.delivery);
      }
    } else if !a.PollDrop? {
      QuietTime(s, t, a);
    }
  }

  // ----- Where compensation jobs come from ---------------------------------

  ghost predicate Trouble(row: Row) {
    row.AnyStatus(Failed) || row.AnyDead()
  }

  /** Without the poll, a compensation job exists only for a step that failed or
      whose job has died. */
  ghost predicate CauseOk(s: Saga) {
    s.past.dispatches == [] && s.runs != [] ==> Trouble(s.row)
  }

  lemma CauseStep(s: Saga, t: int, a: Act)
    requires Inv(s) && Enabled(s, t, a) && CauseOk(s)
    ensures CauseOk(Apply(s, t, a))
  {
    Step(s, Event(t, a));
    OverStep(s, t, a);
    if s.row.AnyStatus(Failed) { FailedStays(s.row, RowAfter(s, t, a)); }
    if RunsAfter(s, t, a) != [] && s.runs == [] {
      FirstJob(s, t, a);
    }
  }

  lemma FailedStays(row: Row, row': Row)
    requires RowMoves(row, row') && row.AnyStatus(Failed)
    ensures row'.AnyStatus(Failed)
  {
  }

  lemma FirstJob(s: Saga, t: int, a: Act)
    requires Enabled(s, t, a) && Dispatched(s, t, a).Some?
    ensures a.PollEnqueue? || Trouble(RowAfter(s, t, a))
  {
  }

  // ----- The budget of attempts --------------------------------------------

  /** Compensation runs that a job and its retries can still start. */
  function Chances(run: Run): int {
    match run.phase
    case Waiting => LAST_RETRY + 1 - run.retry
    case Reversing(_, _, _) => LAST_RETRY - run.retry
    case Retrying => LAST_RETRY - run.retry
    case Ended => 0
  }

  function Total(runs: seq<Run>, weight: Run -> int): int {
    if runs == [] then 0 else weight(runs[0]) + Total(runs[1..], weight)
  }

  lemma {:induction false} TotalAppend(runs: seq<Run>, run: Run, weight: Run -> int)
    ensures Total(runs + [run], weight) == Total(runs, weight) + weight(run)
  {
    if runs == [] {
      assert runs + [run] == [run];
    } else {
      assert (runs + [run])[1..] == runs[1..] + [run];
      TotalAppend(runs[1..], run, weight);
    }
  }

  lemma {:induction false} TotalUpdate(runs: seq<Run>, k: nat, run: Run, weight: Run -> int)
    requires k < |runs|
    ensures Total(runs[k := run], weight) == Total(runs, weight) - weight(runs[k]) + weight(run)
  {
    if k == 0 {
      assert runs[0 := run][1..] == runs[1..];
    } else {
      assert runs[k := run][1..] == runs[1..][k - 1 := run];
      TotalUpdate(runs[1..], k - 1, run, weight);
    }
  }

  /** Five attempts per job that is not a retry. */
  ghost predicate BudgetOk(s: Saga) {
    s.past.attempted + Total(s.runs, Chances) <= (LAST_RETRY + 1) * s.past.dispatched
  }

  /** What a run gives up in a step, against the attempts it makes. */
  lemma ChancesStep(s: Saga, t: int, a: Act)
    requires Enabled(s, t, a) && ByCompensation(a) && s.runs[a.run].retry <= LAST_RETRY
    ensures Chances(s.runs[a.run].(phase := PhaseAfter(s, t, a)))
              + Bit(a.CompStart? || (a.CompDie? && s.runs[a.run].phase.Waiting?))
              + (if a.CompRequeue? then LAST_RETRY - s.runs[a.run].retry else 0)
            <= Chances(s.runs[a.run])
  {
  }

  lemma BudgetStepRun(s: Saga, t: int, a: Act)
    requires Enabled(s, t, a) && ByCompensation(a) && s.runs[a.run].retry <= LAST_RETRY
    ensures Bit(a.CompStart? || (a.CompDie? && s.runs[a.run].phase.Waiting?)) + Total(RunsAfter(s, t, a), Chances)
            <= Total(s.runs, Chances)
  {
    ChancesStep(s, t, a);
    var run := s.runs[a.run];
    var run' := run.(phase := PhaseAfter(s, t, a));
    if a.CompRequeue? && a.up && !Taken(s.runs, StampedId(t), a.cached) {
      var retry := Run(StampedId(t), run.retry + 1, Waiting);
      TotalAppend(s.runs, retry, Chances);
      TotalUpdate(s.runs + [retry], a.run, run', Chances);
    } else {
      TotalUpdate(s.runs, a.run, run', Chances);
    }
  }

  lemma BudgetStep(s: Saga, t: int, a: Act)
    requires RunsOk(s.row, s.runs) && Enabled(s, t, a) && BudgetOk(s)
    ensures BudgetOk(Apply(s, t, a))
  {
    if ByCompensation(a) {
      assert RunOk(s.row, s.runs[a.run]);
      BudgetStepRun(s, t, a);
    } else if Dispatched(s, t, a).Some? {
      TotalAppend(s.runs, Run(Dispatched(s, t, a).value, 0, Waiting), Chances);
    }
  }

  // ----- What has been tried -----------------------------------------------

  /** A job with a retry count has that many attempts behind it, and a job that has
      started one more. */
  ghost predicate TriedOk(s: Saga) {
    forall k :: 0 <= k < |s.runs| ==>
      s.runs[k].retry + Bit(!s.runs[k].phase.Waiting?) <= s.past.attempted
  }

  lemma TriedStep(s: Saga, t: int, a: Act)
    requires Enabled(s, t, a) && TriedOk(s)
    ensures TriedOk(Apply(s, t, a))
  {
    var s' := Apply(s, t, a);
    forall k | 0 <= k < |s'.runs|
      ensures s'.runs[k].retry + Bit(!s'.runs[k].phase.Waiting?) <= s'.past.attempted
    {
      if ByCompensation(a) {
        assert s.runs[a.run].retry + Bit(!s.runs[a.run].phase.Waiting?) <= s.past.attempted;
      }
      if k < |s.runs| {
        assert s.runs[k].retry + Bit(!s.runs[k].phase.Waiting?) <= s.past.attempted;
      }
    }
  }

  /** No order leaves the forward path without a compensation job. */
  ghost predicate SentOk(s: Saga) {
    !Forward(s.row) ==> s.runs != []
  }

  lemma SentStep(s: Saga, t: int, a: Act)
    requires RowOk(s.row) && SessionsOk(s) && Enabled(s, t, a) && SentOk(s)
    ensures SentOk(Apply(s, t, a))
  {
    if s.runs == [] {
      if a.StepCommit? {
        CommitLeaves(s.row, a.svc);
      } else if !a.BillingReject? {
        OthersStayForward(s, t, a);
      }
    }
  }

  lemma CommitLeaves(row: Row, svc: Service)
    requires RowOk(row) && svc != Billing && row.LaneOf(svc).worker.Called? && Forward(row)
    ensures !Forward(CommitRow(row, svc)) ==> row.LaneOf(svc).worker == Called(Failed)
  {
  }

  lemma OthersStayForward(s: Saga, t: int, a: Act)
    requires Enabled(s, t, a) && !a.StepCommit? && !a.BillingReject? && SessionsOk(s) && Forward(s.row)
    requires !ByCompensation(a)
    ensures Forward(RowAfter(s, t, a))
  {
  }

  // ----- Job ids of the poll -----------------------------------------------

  ghost predicate DispatchedIn(ds: seq<int>, second: int) {
    exists i :: 0 <= i < |ds| && ds[i] / SECOND == second
  }

  /** A time-stamped job that is not a retry comes from a poll in its second. */
  ghost predicate StampOk(s: Saga) {
    forall k :: 0 <= k < |s.runs| && s.runs[k].job.Stamped? && s.runs[k].retry == 0 ==>
      DispatchedIn(s.past.dispatches, s.runs[k].job.second)
  }

  lemma {:induction false} StillDispatched(ds: seq<int>, t: int, second: int)
    requires DispatchedIn(ds, second)
    ensures DispatchedIn(ds + [t], second)
  {
    var i :| 0 <= i < |ds| && ds[i] / SECOND == second;
    assert (ds + [t])[i] == ds[i];
  }

  lemma StampStep(s: Saga, t: int, a: Act)
    requires Enabled(s, t, a) && StampOk(s)
    ensures StampOk(Apply(s, t, a))
  {
    var s' := Apply(s, t, a);
    forall k | 0 <= k < |s'.runs| && s'.runs[k].job.Stamped? && s'.runs[k].retry == 0
      ensures DispatchedIn(s'.past.dispatches, s'.runs[k].job.second)
    {
      if k < |s.runs| {
        assert DispatchedIn(s.past.dispatches, s.runs[k].job.second);
        StillDispatched(s.past.dispatches, t, s.runs[k].job.second);
      } else {
        assert (s.past.dispatches + [t])[|s.past.dispatches|] == t;
      }
    }
  }

  // ----- Job ids -----------------------------------------------------------

  /** Two jobs that are queued or running never have the same id. */
  ghost predicate IdsOk(s: Saga) {
    forall i, j :: 0 <= i < j < |s.runs| && Live(s.runs[i]) && Live(s.runs[j]) ==> s.runs[i].job != s.runs[j].job
  }

  lemma IdsStep(s: Saga, t: int, a: Act)
    requires Enabled(s, t, a) && IdsOk(s)
    ensures IdsOk(Apply(s, t, a))
  {
  }

  // ----- Together ----------------------------------------------------------

  ghost predicate HistoryOk(s: Saga) {
    && LogOk(s.row, s.past.log) && DrainOk(s) && CountOk(s) && TimeOk(s) && CauseOk(s) && BudgetOk(s)
    && TriedOk(s) && SentOk(s) && StampOk(s) && IdsOk(s)
  }

  lemma InitHistory(payment: PaymentWay, t: int)
    ensures HistoryOk(Init(payment, t))
  {
  }

  lemma HistoryStep(s: Saga, e: Event)
    requires Inv(s) && HistoryOk(s) && Enabled(s, e.at, e.act)
    ensures HistoryOk(Next(s, e))
  {
    LogStep(s, e.at, e.act);
    DrainStep(s, e.at, e.act);
    CountStep(s, e.at, e.act);
    TimeStep(s, e.at, e.act);
    CauseStep(s, e.at, e.act);
    BudgetStep(s, e.at, e.act);
    TriedStep(s, e.at, e.act);
    SentStep(s, e.at, e.act);
    StampStep(s, e.at, e.act);
    IdsStep(s, e.at, e.act);
  }

  lemma {:induction false} HistoryAlways(s: Saga, events: seq<Event>)
    requires Inv(s) && HistoryOk(s) && Possible(s, events)
    ensures Inv(After(s, events)) && HistoryOk(After(s, events))
    decreases |events|
  {
    if events == [] {
    } else {
      HistoryAlways(s, Front(events));
      Step(After(s, Front(events)), Last(events));
      HistoryStep(After(s, Front(events)), Last(events));
    }
  }
}
