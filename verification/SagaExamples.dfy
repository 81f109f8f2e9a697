/** Runs that show which promises the system does not keep. */
module SagaExamples {
  import opened SagaTypes
  import opened SagaMachine
  import opened SagaTheorems
  import opened CompensationTheorems
  import opened RecoveryTheorems
  import opened OperatorTheorems

  /** A state reached at time 0 by forward handlers alone. */
  ghost predicate Undisturbed(s: Saga) {
    && Reachable(s) && s.clock == 0 && s.updatedAt == 0
    && s.runs == [] && s.sessions == Sessions(Idle, 0, 0) && !s.past.broken
  }

  /** A step that touches nothing but the row. */
  lemma DoRow(s: Saga, a: Act) returns (s': Saga)
    requires Reachable(s) && Enabled(s, s.clock, a) && !ByCompensation(a) && Dispatched(s, s.clock, a) == None
    requires a.EnqueueBilling? || a.CallService? || a.BillingLock? || a.FanOut? || a.BillingCommit? || a.StepCommit?
    ensures Reachable(s') && s'.row == RowAfter(s, s.clock, a)
    ensures s'.runs == s.runs && s'.sessions == s.sessions && s'.clock == s.clock
    ensures s'.updatedAt == s.updatedAt || s'.updatedAt == s.clock
    ensures s'.past.broken == s.past.broken
  {
    s' := Do(s, s.clock, a);
  }

  // ----- A lost acknowledgement --------------------------------------------

  const UNCALLED := Lane(StepStatus.Cancelled, NotEnqueued, Absent, false)
  const CHARGED := Lane(Failed, Done, Processed, true)

  lemma ChargeLost() returns (s: Saga)
    ensures Undisturbed(s)
    ensures s.row == Row(Prepayment, Lane(Pending, Called(Failed), Processed, true), FRESH, FRESH,
                         Processing, false, false)
  {
    ReachableInit(Prepayment, 0);
    s := DoRow(Init(Prepayment, 0), EnqueueBilling);
    assert s.row == Row(Prepayment, FRESH.(worker := Queued), FRESH, FRESH, Processing, false, false);
    s := DoRow(s, CallService(Billing, true, false));
  }

  lemma ChargeRejected() returns (s: Saga)
    ensures Reachable(s) && s.clock == 0 && s.updatedAt == 0 && s.sessions == Sessions(Idle, 0, 0)
    ensures s.runs == [Run(Fixed, 0, Waiting)]
    ensures s.row == Row(Prepayment, CHARGED, UNCALLED, UNCALLED, Compensating, false, false)
  {
    s := ChargeLost();
    s := Do(s, 0, BillingReject(false));
  }

  lemma ChargeForgotten() returns (s: Saga)
    ensures Reachable(s) && s.clock == 0 && |s.runs| == 1
    ensures s.runs[0].phase == Reversing(NONE, NONE, NONE) && s.runs[0].retry == 0
    ensures s.row == Row(Prepayment, CHARGED, UNCALLED, UNCALLED, Compensating, false, true)
  {
    s := ChargeRejected();
    s := Do(s, 0, CompStart(0));
  }

  /** The billing call is carried out and its response lost: the order ends
      CANCELLED, nobody is left at work on it, and the charge stands. */
  lemma LostChargeStands() returns (s: Saga)
    ensures Reachable(s) && s.row.global == GlobalStatus.Cancelled && !s.row.forced
    ensures s.row.billing.record == Processed && s.row.billing.status == Failed
    ensures forall k :: 0 <= k < |s.runs| ==> s.runs[k].phase.Ended?
  {
    s := ChargeForgotten();
    s := Do(s, 0, CompMerge(0));
  }

  /** A run that dies between its two transactions leaves an order that the poll
      never sees again. */
  lemma InvisibleToPoll() returns (s: Saga)
    ensures Reachable(s) && s.row.global == Compensating
    ensures forall now :: !MatchesPoll(s.row, s.updatedAt, now)
    ensures forall k :: 0 <= k < |s.runs| ==> s.runs[k].phase.Ended?
  {
    s := ChargeForgotten();
    s := Do(s, 0, CompDie(0, false));
  }

  // ----- A handler that died -----------------------------------------------

  /** In PROCESSING, and found by every poll once it is stale, yet nothing about its
      row ever changes again, whoever acts. */
  ghost predicate ForgottenInProcessing(s: Saga) {
    && s.row.global == Processing
    && (forall now :: s.updatedAt < now - STUCK_TIMEOUT ==> MatchesPoll(s.row, s.updatedAt, now))
    && (forall events :: Possible(s, events) ==> After(s, events).row == s.row)
    && !CanFinish(s) && !CanEnd(s)
  }

  lemma Forgotten(s: Saga)
    requires Reachable(s) && s.row.global == Processing && s.row.billing == FRESH.(worker := Dead)
    requires s.row.inventory == FRESH && s.row.logistics == FRESH
    ensures ForgottenInProcessing(s)
  {
    ReachableInv(s);
    CanFinishExactly(s);
    CanEndExactly(s);
    forall events | Possible(s, events)
      ensures After(s, events).row == s.row
    {
      NeverBilled(s, events);
    }
  }

  /** The billing job dies before its call. */
  lemma StuckForGood() returns (s: Saga)
    ensures Reachable(s) && ForgottenInProcessing(s)
  {
    ReachableInit(Prepayment, 0);
    s := DoRow(Init(Prepayment, 0), EnqueueBilling);
    assert s.row == Row(Prepayment, FRESH.(worker := Queued), FRESH, FRESH, Processing, false, false);
    s := Do(s, s.clock, Abort(Billing, false, false, false));
    Forgotten(s);
  }

  /** The request that created the order dies before it has enqueued billing. */
  lemma NeverEnqueued() returns (s: Saga)
    ensures Reachable(s) && ForgottenInProcessing(s)
  {
    ReachableInit(Prepayment, 0);
    s := Do(Init(Prepayment, 0), 0, Abort(Billing, false, false, false));
    Forgotten(s);
  }

  // ----- A dispatch without a stamp ----------------------------------------

  lemma DispatchedOnce() returns (s: Saga)
    ensures Reachable(s) && s.row == Init(Prepayment, 0).row && s.updatedAt == 0
    ensures s.clock == STUCK_TIMEOUT + SECOND && s.past.dispatches == [STUCK_TIMEOUT + SECOND]
    ensures s.sessions == Sessions(Idle, 0, 0)
  {
    ReachableInit(Prepayment, 0);
    var fetched := Do(Init(Prepayment, 0), STUCK_TIMEOUT + SECOND, PollFetch);
    s := Do(fetched, STUCK_TIMEOUT + SECOND, PollEnqueue(Unconfirmed, false));
  }

  /** The queue gets a dispatch, but its answer is lost: the order is not stamped, and
      the next poll, half a minute later, dispatches it again. */
  lemma DispatchedTwice() returns (s: Saga)
    ensures Reachable(s) && |s.past.dispatches| == 2
    ensures s.past.dispatches[1] - s.past.dispatches[0] == 30_000_000
  {
    s := DispatchedOnce();
    var again := Do(s, STUCK_TIMEOUT + 31 * SECOND, PollFetch);
    s := Do(again, STUCK_TIMEOUT + 31 * SECOND, PollEnqueue(Confirmed, false));
  }

  // ----- A force-cancel that comes too late --------------------------------

  lemma FoundDead() returns (s: Saga)
    ensures Reachable(s) && s.sessions == Sessions(Idle, 1, 0) && s.runs == [Run(Fixed, 0, Waiting)]
    ensures s.row == Row(Prepayment, CHARGED, UNCALLED, UNCALLED, Compensating, false, false)
  {
    s := ChargeRejected();
    s := Do(s, DEAD_TIMEOUT + 1, DeadRead);
  }

  lemma HandedOver() returns (s: Saga)
    ensures Reachable(s) && s.sessions == Sessions(Idle, 0, 0) && s.runs == [Run(Fixed, 0, Waiting)]
    ensures s.row == Row(Prepayment, CHARGED, UNCALLED, UNCALLED, ManualRequired, false, false)
  {
    s := FoundDead();
    s := Do(s, s.clock, DeadWrite);
  }

  lemma AdministratorReads() returns (s: Saga)
    ensures Reachable(s) && s.sessions == Sessions(Idle, 0, 1) && s.runs == [Run(Fixed, 0, Waiting)]
    ensures s.row == Row(Prepayment, CHARGED, UNCALLED, UNCALLED, ManualRequired, false, false)
  {
    s := HandedOver();
    s := Do(s, s.clock, AdminRead);
  }

  /** An administrator reads MANUAL while a compensation job is still waiting. The
      job starts, and the write finds the order COMPENSATING. */
  lemma ForceCancelTooLate() returns (s: Saga, s': Saga)
    ensures Reachable(s) && s.row.global == ManualRequired && s.sessions.forceCancels == 1 && !Settled(s)
    ensures Reachable(s') && Leads(s, s') && s'.row.global == Compensating && Enabled(s', s'.clock, AdminWrite)
  {
    s := AdministratorReads();
    s' := Do(s, s.clock, CompStart(0));
    StartedLeaves(s, s');
  }

  lemma StartedLeaves(s: Saga, s': Saga)
    requires Reachable(s) && s.row.global == ManualRequired && Leads(s, s') && s'.row.global != ManualRequired
    ensures !Settled(s)
  {
    ManualStaysExactly(s);
  }

  // ----- A compensation deferred and forgotten -----------------------------

  const UNSHIPPED := Lane(Failed, Done, Absent, false)

  lemma BothRefused() returns (s: Saga)
    ensures Undisturbed(s)
    ensures s.row == Row(Postpayment, SKIPPED, Lane(Pending, Called(Failed), Absent, false),
                         Lane(Pending, Called(Failed), Absent, false), Processing, false, false)
  {
    s := FannedOut();
    s := DoRow(s, CallService(Inventory, false, true));
    assert s.row.inventory == Lane(Pending, Called(Failed), Absent, false);
    assert s.row.logistics == FRESH.(worker := Queued);
    s := DoRow(s, CallService(Logistics, false, true));
  }

  lemma FirstFailed() returns (s: Saga)
    ensures Reachable(s) && s.clock == 0 && s.runs == [Run(Fixed, 0, Waiting)] && !s.past.broken
    ensures s.row == Row(Postpayment, SKIPPED, UNSHIPPED, Lane(Pending, Called(Failed), Absent, false),
                         Compensating, false, false)
  {
    s := BothRefused();
    s := Do(s, 0, StepCommit(Inventory, false));
  }

  lemma Deferred() returns (s: Saga)
    ensures Reachable(s) && s.clock == 0 && s.runs == [Run(Fixed, 0, Ended)] && !s.past.broken
    ensures s.row == Row(Postpayment, SKIPPED, UNSHIPPED, Lane(Pending, Called(Failed), Absent, false),
                         Compensating, false, false)
  {
    s := FirstFailed();
    s := Do(s, 0, CompStart(0));
  }

  /** Both steps fail, and the only compensation job runs between their commits: it
      defers, and nobody enqueues another one. There is nothing to take back, but
      the order stays COMPENSATING and the poll never sees it. */
  lemma DeferredAndForgotten() returns (s: Saga)
    ensures Reachable(s) && s.row == Row(Postpayment, SKIPPED, UNSHIPPED, UNSHIPPED, Compensating, false, false)
    ensures s.runs == [Run(Fixed, 0, Ended)] && !s.past.broken
    ensures forall now :: !MatchesPoll(s.row, s.updatedAt, now)
  {
    s := Deferred();
    s := Do(s, 0, StepCommit(Logistics, false));
  }

  // ----- A completion undone -----------------------------------------------

  const SKIPPED := Lane(Skipped, Done, Absent, false)
  const SHIPPED := Lane(Success, Done, Processed, false)

  lemma SkippedBilling() returns (s: Saga)
    ensures Undisturbed(s)
    ensures s.row == Row(Postpayment, Lane(Pending, FanningOut(Skipped), Absent, false), FRESH, FRESH,
                         Processing, false, false)
  {
    ReachableInit(Postpayment, 0);
    s := DoRow(Init(Postpayment, 0), EnqueueBilling);
    assert s.row == Row(Postpayment, FRESH.(worker := Queued), FRESH, FRESH, Processing, false, false);
    s := DoRow(s, CallService(Billing, true, true));
    s := DoRow(s, BillingLock);
  }

  lemma Fanning() returns (s: Saga)
    ensures Undisturbed(s)
    ensures s.row == Row(Postpayment, Lane(Pending, FanningOut(Skipped), Absent, false),
                         FRESH.(worker := Queued), FRESH.(worker := Queued), Processing, false, false)
  {
    s := SkippedBilling();
    s := DoRow(s, FanOut(Inventory));
    s := DoRow(s, FanOut(Logistics));
  }

  lemma FannedOut() returns (s: Saga)
    ensures Undisturbed(s)
    ensures s.row == Row(Postpayment, SKIPPED, FRESH.(worker := Queued), FRESH.(worker := Queued),
                         Processing, false, false)
  {
    s := Fanning();
    s := DoRow(s, BillingCommit);
  }

  lemma HalfDone() returns (s: Saga)
    ensures Undisturbed(s)
    ensures s.row == Row(Postpayment, SKIPPED, SHIPPED, Lane(Pending, Called(Success), Processed, false),
                         Processing, false, false)
  {
    s := FannedOut();
    s := DoRow(s, CallService(Inventory, true, true));
    s := DoRow(s, CallService(Logistics, true, true));
    s := DoRow(s, StepCommit(Inventory, false));
  }

  lemma Found() returns (s: Saga)
    ensures Reachable(s) && s.clock == STUCK_TIMEOUT + 1 && s.runs == [] && s.sessions == Sessions(Fetched, 0, 0)
    ensures s.row == Row(Postpayment, SKIPPED, SHIPPED, Lane(Pending, Called(Success), Processed, false),
                         Processing, false, false)
  {
    s := HalfDone();
    s := Do(s, STUCK_TIMEOUT + 1, PollFetch);
  }

  lemma Polled() returns (s: Saga)
    ensures Reachable(s) && s.clock == STUCK_TIMEOUT + 1
    ensures |s.runs| == 1 && s.runs[0].phase == Waiting && s.runs[0].retry == 0
    ensures s.row == Row(Postpayment, SKIPPED, SHIPPED, Lane(Pending, Called(Success), Processed, false),
                         Processing, false, false)
  {
    s := Found();
    s := Do(s, s.clock, PollEnqueue(Confirmed, false));
  }

  lemma LateCompletion() returns (s: Saga)
    ensures Reachable(s) && s.row == Row(Postpayment, SKIPPED, SHIPPED, SHIPPED, Completed, false, false)
    ensures |s.runs| == 1 && s.runs[0].phase == Waiting
  {
    s := Polled();
    s := DoRow(s, StepCommit(Logistics, false));
  }

  /** Every service has acknowledged, but the poll was faster than the last
      commit: the order completes, and is then undone by the job that waited. */
  lemma CompletionUndone() returns (s: Saga, s': Saga)
    ensures Reachable(s) && s.row.global == Completed
    ensures Reachable(s') && s'.row.global == GlobalStatus.Cancelled && !s'.row.forced
    ensures s'.row.inventory.status == Compensated && s'.row.logistics.status == Compensated
  {
    s := LateCompletion();
    s' := UninterruptedRun(s, s.clock, 0);
  }
}
