/** What the single steps amount to, said once more from the outside: by the row before
    and after, the outcome of calls and the time, and by no function of the machine.
    Times are written out in microseconds. */
module StepLaws {
  import opened SagaTypes
  import opened SagaMachine
  import opened SagaInvariant
  import opened SagaTheorems

  // ----- What a step leaves alone ------------------------------------------

  ghost predicate SameStatuses(row: Row, row': Row) {
    && row'.billing.status == row.billing.status
    && row'.inventory.status == row.inventory.status
    && row'.logistics.status == row.logistics.status
  }

  /** Everything about a service but its status and its job. */
  ghost predicate SameRecords(row: Row, row': Row) {
    && row'.billing.record == row.billing.record && row'.billing.lost == row.billing.lost
    && row'.inventory.record == row.inventory.record && row'.inventory.lost == row.inventory.lost
    && row'.logistics.record == row.logistics.record && row'.logistics.lost == row.logistics.lost
  }

  ghost predicate SameJobs(row: Row, row': Row) {
    && row'.billing.worker == row.billing.worker
    && row'.inventory.worker == row.inventory.worker
    && row'.logistics.worker == row.logistics.worker
  }

  lemma RowKnown(s: Saga)
    requires Reachable(s)
    ensures RowOk(s.row)
  {
    ReachableInv(s);
  }

  /** Step statuses are written by the commits of billing and the two steps, and by the
      second transaction of compensation. */
  lemma OnlyTheseWriteStatuses(s: Saga, e: Event)
    requires Enabled(s, e.at, e.act) && !SameStatuses(s.row, Next(s, e).row)
    ensures e.act.BillingCommit? || e.act.BillingReject? || e.act.StepCommit? || e.act.CompMerge?
  {
  }

  /** The global status is written by failures and completions, by both transactions of
      compensation, by the dead-order check and by administrators. */
  lemma OnlyTheseWriteGlobal(s: Saga, e: Event)
    requires Enabled(s, e.at, e.act) && Next(s, e).row.global != s.row.global
    ensures e.act.BillingReject? || e.act.StepCommit? || e.act.CompStart? || e.act.CompMerge?
            || e.act.DeadWrite? || e.act.AdminWrite?
  {
  }

  /** Services learn of the order by calls alone. */
  lemma OnlyCallsReachServices(s: Saga, e: Event)
    requires Enabled(s, e.at, e.act)
    ensures !SameRecords(s.row, Next(s, e).row) || Next(s, e).past.log != s.past.log ==>
              e.act.CallService? || e.act.CompCall?
  {
    if !e.act.CallService? && !e.act.CompCall? {
      OthersReachNone(s.row, RowAfter(s, e.at, e.act), s, e.at, e.act);
    }
  }

  lemma OthersReachNone(row: Row, row': Row, s: Saga, t: int, a: Act)
    requires Enabled(s, t, a) && row == s.row && row' == RowAfter(s, t, a) && !a.CallService? && !a.CompCall?
    ensures SameRecords(row, row')
  {
  }

  /** Forward jobs move by their own handlers alone. */
  lemma OnlyHandlersMoveJobs(s: Saga, e: Event)
    requires Enabled(s, e.at, e.act) && !SameJobs(s.row, Next(s, e).row)
    ensures ByForwardHandler(e.act)
  {
  }

  /** Only a passed guard raises the barrier, and only an administrator forces. */
  lemma OnlyTheseLeaveAMark(s: Saga, e: Event)
    requires Enabled(s, e.at, e.act)
    ensures Next(s, e).row.forced == (s.row.forced || e.act.AdminWrite?)
    ensures Next(s, e).row.barrier == (s.row.barrier || (e.act.CompStart? && !s.row.AnyStatus(Pending)))
    ensures Next(s, e).row.payment == s.row.payment && Next(s, e).clock == e.at
  {
  }

  /** The time stamp moves to the time of a step that changes a column; otherwise only a
      passed guard and the two blind writes set it, and the poll's commit, which writes
      the time of its dispatch. */
  lemma Stamps(s: Saga, e: Event)
    requires Reachable(s) && Enabled(s, e.at, e.act)
    ensures var s' := Next(s, e);
            var ds := s.past.dispatches;
            && (!SameStatuses(s.row, s'.row) || s'.row.global != s.row.global ==> s'.updatedAt == e.at)
            && (e.act.DeadWrite? || e.act.AdminWrite? ==> s'.updatedAt == e.at)
            && (e.act.CompStart? && !s.row.AnyStatus(Pending) ==> s'.updatedAt == e.at)
            && (e.act.PollCommit? ==> |ds| > 0 && s'.updatedAt == ds[|ds| - 1])
            && (s'.updatedAt != s.updatedAt ==>
                  || !SameStatuses(s.row, s'.row) || s'.row.global != s.row.global
                  || e.act.PollCommit? || e.act.DeadWrite? || e.act.AdminWrite? || e.act.CompStart?)
  {
    ReachableInv(s);
  }

  // ----- Forward handlers --------------------------------------------------

  /** A forward call is carried out exactly if the service grants it, and succeeds exactly
      if the answer arrives as well; payment on delivery is not charged at all. */
  lemma ForwardCall(s: Saga, t: int, svc: Service, granted: bool, delivered: bool)
    requires Reachable(s) && Enabled(s, t, CallService(svc, granted, delivered))
    ensures var s' := Next(s, Event(t, CallService(svc, granted, delivered)));
            var lane := s'.row.LaneOf(svc);
            && (if svc == Billing && s.row.payment == Postpayment then
                  lane.worker == Called(Skipped) && lane.record == Absent && !lane.lost && s'.past.log == s.past.log
                else
                  && lane.record == (if granted then Processed else Absent)
                  && lane.worker == (if granted && delivered then Called(Success) else Called(Failed))
                  && lane.lost == (granted && !delivered)
                  && s'.past.log == s.past.log + [Call(svc, false, granted && delivered)])
            && (forall other: Service :: other != svc ==> s'.row.LaneOf(other) == s.row.LaneOf(other))
            && s'.runs == s.runs
  {
    NothingYet(s, svc);
  }

  lemma NothingYet(s: Saga, svc: Service)
    requires Reachable(s) && s.row.LaneOf(svc).worker == Queued
    ensures s.row.LaneOf(svc).record == Absent && !s.row.LaneOf(svc).lost
  {
    RowKnown(s);
  }

  /** Billing goes on exactly after a skipped or successful call. When it commits, it has
      enqueued both steps and stores SKIPPED exactly for payment on delivery. */
  lemma BillingGoesOn(s: Saga, t: int)
    requires Reachable(s) && s.clock <= t
    ensures Enabled(s, t, BillingLock) <==>
              s.row.billing.worker == Called(Success) || s.row.billing.worker == Called(Skipped)
    ensures Enabled(s, t, BillingCommit) ==>
              var row := Next(s, Event(t, BillingCommit)).row;
              && row.billing.status == (if s.row.payment == Postpayment then Skipped else Success)
              && row.inventory.worker != NotEnqueued && row.logistics.worker != NotEnqueued
              && row.inventory.status == row.logistics.status == Pending && row.global == Processing
  {
    RowKnown(s);
  }

  lemma EnqueuedByFanOut(s: Saga, e: Event, svc: Service)
    requires Enabled(s, e.at, e.act) && svc != Billing
    requires s.row.LaneOf(svc).worker == NotEnqueued && Next(s, e).row.LaneOf(svc).worker != NotEnqueued
    ensures e.act == FanOut(svc)
  {
  }

  /** A step is enqueued by billing alone, after its call and before its commit. */
  lemma StepEnqueued(s: Saga, e: Event, svc: Service)
    requires Reachable(s) && Enabled(s, e.at, e.act) && svc != Billing
    requires s.row.LaneOf(svc).worker == NotEnqueued && Next(s, e).row.LaneOf(svc).worker != NotEnqueued
    ensures Next(s, e).row.LaneOf(svc).worker == Queued
    ensures s.row.billing.status == Pending
            && (s.row.billing.worker == FanningOut(Success) || s.row.billing.worker == FanningOut(Skipped))
  {
    EnqueuedByFanOut(s, e, svc);
    RowKnown(s);
  }

  /** Billing gives up exactly after a failed call: it cancels both steps and dispatches
      compensation. */
  lemma BillingGivesUp(s: Saga, t: int, cached: bool)
    requires Reachable(s) && s.clock <= t
    ensures Enabled(s, t, BillingReject(cached)) <==> s.row.billing.worker == Called(Failed)
    ensures Enabled(s, t, BillingReject(cached)) ==>
              var s' := Next(s, Event(t, BillingReject(cached)));
              && s'.row.billing.status == Failed
              && s'.row.inventory.status == s'.row.logistics.status == StepStatus.Cancelled
              && s'.row.global == Compensating && Accepts(s, s', Fixed, 0, cached)
  {
    RowKnown(s);
  }

  /** A step handler stores what its call came to and nothing else. A failure makes the
      order COMPENSATING, whatever it was, and dispatches compensation unless it was that
      already. A success completes the order exactly if it was in PROCESSING with
      everything else done, and otherwise leaves the global status. */
  lemma StepCommits(s: Saga, t: int, svc: Service, cached: bool)
    requires Reachable(s) && Enabled(s, t, StepCommit(svc, cached))
    ensures var s' := Next(s, Event(t, StepCommit(svc, cached)));
            var other := if svc == Inventory then Logistics else Inventory;
            var billing := s.row.billing.status;
            var succeeded := s.row.LaneOf(svc).worker == Called(Success);
            && svc != Billing
            && s'.row.LaneOf(svc).status == (if succeeded then Success else Failed)
            && s'.row.LaneOf(other) == s.row.LaneOf(other) && s'.row.billing == s.row.billing
            && (!succeeded ==> s'.row.global == Compensating)
            && (succeeded ==>
                  s'.row.global ==
                    if s.row.global == Processing && s.row.LaneOf(other).status == Success
                       && (billing == Success || billing == Skipped) then Completed
                    else s.row.global)
            && (if !succeeded && s.row.global != Compensating then Accepts(s, s', Fixed, 0, cached)
                else s'.runs == s.runs)
  {
    RowKnown(s);
  }

  // ----- Compensation jobs -------------------------------------------------

  /** An enqueue appends a job that waits, or nothing if its id is taken: by a job that
      is queued or running, or by one whose result is cached. */
  ghost predicate Accepts(s: Saga, s': Saga, id: JobId, retry: nat, cached: bool) {
    if exists k :: 0 <= k < |s.runs| && s.runs[k].job == id && (!s.runs[k].phase.Ended? || cached) then
      s'.runs == s.runs
    else
      s'.runs == s.runs + [Run(id, retry, Waiting)]
  }

  /** At no time do two queued or running jobs share an id. */
  lemma LiveIdsDiffer(s: Saga, i: nat, j: nat)
    requires Reachable(s) && i < j < |s.runs| && !s.runs[i].phase.Ended? && !s.runs[j].phase.Ended?
    ensures s.runs[i].job != s.runs[j].job
  {
    ReachableInv(s);
  }

  /** Time-stamped ids are equal exactly within one second. */
  lemma SecondsApart(t: int, u: int)
    ensures StampedId(t) == StampedId(u) <==> exists n: int :: 1_000_000 * n <= t < 1_000_000 * (n + 1)
                                                               && 1_000_000 * n <= u < 1_000_000 * (n + 1)
  {
    if StampedId(t) == StampedId(u) {
      var n := t / 1_000_000;
      assert 1_000_000 * n <= t < 1_000_000 * (n + 1) && 1_000_000 * n <= u < 1_000_000 * (n + 1);
    }
  }

  /** Only jobs are appended; the others keep their id and count, and only the one that
      takes the step moves. */
  lemma JobsKept(s: Saga, e: Event, k: nat)
    requires Enabled(s, e.at, e.act) && k < |s.runs|
    ensures var s' := Next(s, e);
            && |s.runs| <= |s'.runs| <= |s.runs| + 1
            && s'.runs[k].job == s.runs[k].job && s'.runs[k].retry == s.runs[k].retry
            && (s'.runs[k].phase != s.runs[k].phase ==> ByCompensation(e.act) && e.act.run == k)
  {
  }

  /** What the history counts: accepted jobs that are not retries, started runs, polls
      that the queue got and which of them left no stamp, deaths half-way. */
  lemma HistoryTells(s: Saga, e: Event)
    requires Enabled(s, e.at, e.act)
    ensures var a := e.act;
            var p, p' := s.past, Next(s, e).past;
            && p'.dispatched == p.dispatched + Bit(|Next(s, e).runs| > |s.runs| && !a.CompRequeue?)
            && p'.attempted == p.attempted + Bit(ByCompensation(a) && s.runs[a.run].phase == Waiting)
            && p'.dispatches == p.dispatches + (if a.PollEnqueue? && a.delivery != Dropped then [e.at] else [])
            && p'.unstamped == p.unstamped
                 + (if a.PollEnqueue? && a.delivery == Unconfirmed then {|p.dispatches|} else {})
                 + (if a.PollDrop? then {|p.dispatches| - 1} else {})
            && p'.broken == (p.broken || (a.CompDie? && s.runs[a.run].phase.Reversing?))
  {
  }

  // ----- One compensation run ----------------------------------------------

  /** The first transaction: with a step PENDING the run ends and nothing changes.
      Otherwise the order is COMPENSATING, whatever it was, and the run is to reverse
      exactly the services that are SUCCESS now. */
  lemma FirstTransaction(s: Saga, t: int, k: nat)
    requires Enabled(s, t, CompStart(k))
    ensures var s' := Next(s, Event(t, CompStart(k)));
            if s.row.AnyStatus(Pending) then
              s'.row == s.row && s'.runs[k].phase == Ended
            else
              && s'.row.global == Compensating && SameStatuses(s.row, s'.row)
              && s'.runs[k].phase.Reversing?
              && (forall svc: Service ::
                    && (s'.runs[k].phase.snapshot.Has(svc) <==> s.row.LaneOf(svc).status == Success)
                    && (s'.runs[k].phase.todo.Has(svc) <==> s.row.LaneOf(svc).status == Success)
                    && !s'.runs[k].phase.acked.Has(svc))
  {
  }

  /** A reversal takes effect if the service grants it or had carried it out before, and
      the run counts it exactly if it has taken effect and the answer arrived. */
  lemma ReversalAnswered(s: Saga, t: int, k: nat, svc: Service, granted: bool, delivered: bool)
    requires Reachable(s) && Enabled(s, t, CompCall(k, svc, granted, delivered))
    ensures var s' := Next(s, Event(t, CompCall(k, svc, granted, delivered)));
            var lane, lane' := s.row.LaneOf(svc), s'.row.LaneOf(svc);
            && lane'.record == (if granted || lane.record == Reversed then Reversed else lane.record)
            && (s'.runs[k].phase.acked.Has(svc) <==> delivered && lane'.record == Reversed)
            && !s'.runs[k].phase.todo.Has(svc) && s'.runs[k].phase.snapshot == s.runs[k].phase.snapshot
            && s'.past.log == s.past.log + [Call(svc, true, delivered && lane'.record == Reversed)]
            && (forall other: Service :: other != svc ==>
                  && s'.row.LaneOf(other) == s.row.LaneOf(other)
                  && s'.runs[k].phase.acked.Has(other) == s.runs[k].phase.acked.Has(other)
                  && s'.runs[k].phase.todo.Has(other) == s.runs[k].phase.todo.Has(other))
  {
    RunKnown(s, k);
  }

  lemma RunKnown(s: Saga, k: nat)
    requires Reachable(s) && k < |s.runs|
    ensures RunOk(s.row, s.runs[k])
  {
    ReachableInv(s);
  }

  /** The second transaction comes only after every reversal was sent. It stores
      COMPENSATED exactly for the reversals that were counted. With no SUCCESS left the
      order is CANCELLED. With one left the fifth attempt hands it to an operator, and
      an earlier one leaves the global status and goes on to enqueue its retry. */
  lemma SecondTransaction(s: Saga, t: int, k: nat)
    requires Reachable(s) && Enabled(s, t, CompMerge(k))
    ensures var s' := Next(s, Event(t, CompMerge(k)));
            var phase, retry := s.runs[k].phase, s.runs[k].retry;
            && (forall svc: Service ::
                  && !phase.todo.Has(svc)
                  && s'.row.LaneOf(svc).status ==
                       if phase.acked.Has(svc) then Compensated else s.row.LaneOf(svc).status)
            && (!s'.row.AnyStatus(Success) ==>
                  s'.row.global == GlobalStatus.Cancelled && s'.runs[k].phase == Ended)
            && (s'.row.AnyStatus(Success) && retry >= 4 ==>
                  s'.row.global == ManualRequired && s'.runs[k].phase == Ended)
            && (s'.row.AnyStatus(Success) && retry < 4 ==>
                  s'.row.global == s.row.global && s'.runs[k].phase == Retrying)
  {
    RunKnown(s, k);
  }

  /** The retry counts one more and carries the time of its enqueue in its id; the run
      itself ends, and the row stays as it is. */
  lemma RetryEnqueued(s: Saga, t: int, k: nat, up: bool, cached: bool)
    requires Reachable(s) && Enabled(s, t, CompRequeue(k, up, cached))
    ensures var s' := Next(s, Event(t, CompRequeue(k, up, cached)));
            && s.runs[k].phase == Retrying && s.runs[k].retry < 4
            && s'.row == s.row && s'.runs[k].phase == Ended
            && (|s'.runs| > |s.runs| ==>
                  up && s'.runs[|s.runs|] == Run(Stamped(t / 1_000_000), s.runs[k].retry + 1, Waiting))
            && (|s'.runs| == |s.runs| && up ==>
                  exists j :: 0 <= j < |s.runs| && s.runs[j].job == Stamped(t / 1_000_000)
                              && (!s.runs[j].phase.Ended? || cached))
  {
    RunKnown(s, k);
  }

  /** Whoever dies writes nothing: no column, no record. A forward handler's exception
      branch may dispatch compensation; a compensation run has none. */
  lemma DeathWritesNothing(s: Saga, e: Event)
    requires Reachable(s) && Enabled(s, e.at, e.act) && (e.act.Abort? || e.act.CompDie?)
    ensures var s' := Next(s, e);
            && SameStatuses(s.row, s'.row) && s'.row.global == s.row.global && SameRecords(s.row, s'.row)
            && s'.updatedAt == s.updatedAt && s'.past.log == s.past.log
            && (e.act.Abort? ==>
                  && s'.row.LaneOf(e.act.svc).worker == Dead
                  && s.row.LaneOf(e.act.svc).worker != Done && s.row.LaneOf(e.act.svc).worker != Dead
                  && if e.act.up then Accepts(s, s', Fixed, 0, e.act.cached) else s'.runs == s.runs)
            && (e.act.CompDie? ==> |s'.runs| == |s.runs| && s'.runs[e.act.run].phase == Ended)
  {
    RowKnown(s);
  }

  // ----- The scheduler -----------------------------------------------------

  /** The poll finds an order exactly if no write has touched it for more than a minute
      and it is in PROCESSING, or COMPENSATING with a SUCCESS to take back. */
  lemma PollFinds(s: Saga, t: int)
    requires Reachable(s) && s.clock <= t && s.sessions.poll == Idle
    ensures Enabled(s, t, PollFetch) <==>
              && s.updatedAt + 60_000_000 < t
              && (s.row.global == Processing || (s.row.global == Compensating && s.row.AnyStatus(Success)))
  {
    RowKnown(s);
  }

  /** An order comes into the poll's hands only by being found. */
  lemma PollHolds(s: Saga, e: Event)
    requires Enabled(s, e.at, e.act)
    requires s.sessions.poll != Fetched && Next(s, e).sessions.poll == Fetched
    ensures s.updatedAt + 60_000_000 < e.at
    ensures s.row.global == Processing || (s.row.global == Compensating && s.row.AnyStatus(Success))
  {
  }

  /** A dispatch is a job with this second's id and no retries, unless the queue did not
      get it; a stamp waits for the commit exactly if the queue has answered. The row is
      not touched. */
  lemma PollDispatches(s: Saga, t: int, delivery: Delivery, cached: bool)
    requires Enabled(s, t, PollEnqueue(delivery, cached))
    ensures var s' := Next(s, Event(t, PollEnqueue(delivery, cached)));
            && s.sessions.poll == Fetched && s'.row == s.row && s'.updatedAt == s.updatedAt
            && s'.sessions.poll == (if delivery == Confirmed then Stamping(t) else Idle)
            && (if delivery == Dropped then s'.runs == s.runs
                else Accepts(s, s', Stamped(t / 1_000_000), 0, cached))
  {
  }

  /** The dead-order check finds an order exactly if it is COMPENSATING and no write has
      touched it for more than an hour. */
  lemma DeadFinds(s: Saga, t: int)
    requires s.clock <= t
    ensures Enabled(s, t, DeadRead) <==> s.row.global == Compensating && s.updatedAt + 3_600_000_000 < t
  {
  }

  /** An order comes into the check's hands only by being found, and the check's write
      sets MANUAL and nothing else. */
  lemma DeadHolds(s: Saga, e: Event)
    requires Enabled(s, e.at, e.act)
    ensures Next(s, e).sessions.escalations > s.sessions.escalations ==>
              s.row.global == Compensating && s.updatedAt + 3_600_000_000 < e.at
    ensures e.act.DeadWrite? ==>
              && s.sessions.escalations > 0
              && Next(s, e).row == s.row.(global := ManualRequired) && Next(s, e).runs == s.runs
  {
  }

  // ----- The administrator -------------------------------------------------

  /** The check of force-cancel passes exactly in MANUAL. */
  lemma AdminFinds(s: Saga, t: int)
    requires s.clock <= t
    ensures Enabled(s, t, AdminRead) <==> s.row.global == ManualRequired
  {
  }

  /** An order comes into an administrator's hands only in MANUAL, and the write sets
      CANCELLED and nothing else. */
  lemma AdminHolds(s: Saga, e: Event)
    requires Enabled(s, e.at, e.act)
    ensures Next(s, e).sessions.forceCancels > s.sessions.forceCancels ==> s.row.global == ManualRequired
    ensures e.act.AdminWrite? ==>
              && s.sessions.forceCancels > 0
              && Next(s, e).row == s.row.(global := GlobalStatus.Cancelled, forced := true)
              && Next(s, e).runs == s.runs
  {
  }

  // ----- A new order -------------------------------------------------------

  /** An order starts PROCESSING with every step PENDING, no job enqueued, and nothing
      known to any service. */
  lemma StartsFresh(payment: PaymentWay, t: int, svc: Service)
    ensures var s := Init(payment, t);
            && s.row.payment == payment && s.row.global == Processing && !s.row.forced && !s.row.barrier
            && s.row.LaneOf(svc).status == Pending && s.row.LaneOf(svc).worker == NotEnqueued
            && s.row.LaneOf(svc).record == Absent && !s.row.LaneOf(svc).lost
            && s.runs == [] && s.updatedAt == t && s.sessions == Sessions(Idle, 0, 0) && s.past.log == []
  {
  }
}
