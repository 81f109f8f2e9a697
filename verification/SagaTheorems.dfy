/** What holds of every order, in every reachable state and over every run. */
module SagaTheorems {
  import opened SagaTypes
  import opened SagaMachine
  import opened SagaInvariant
  import opened SagaHistory

  // ----- Reachable states --------------------------------------------------

  /** Contains the fresh orders, and with a state all that can come of it. */
  ghost predicate Closed(states: iset<Saga>) {
    && (forall payment, t :: Init(payment, t) in states)
    && (forall s, e: Event :: s in states && Enabled(s, e.at, e.act) ==> Next(s, e) in states)
  }

  /** Reachable states form the least closed set: see `ReachableExactly`. */
  ghost predicate Reachable(s: Saga) {
    forall states :: Closed(states) ==> s in states
  }

  ghost predicate EndsRun(s: Saga) {
    exists payment, t, events :: Possible(Init(payment, t), events) && s == After(Init(payment, t), events)
  }

  lemma ReachableInit(payment: PaymentWay, t: int)
    ensures Reachable(Init(payment, t))
  {
  }

  lemma ReachableNext(s: Saga, e: Event)
    requires Reachable(s) && Enabled(s, e.at, e.act)
    ensures Reachable(Next(s, e))
  {
  }

  lemma EndsRunInit(payment: PaymentWay, t: int)
    ensures EndsRun(Init(payment, t))
  {
    assert Possible(Init(payment, t), []) && After(Init(payment, t), []) == Init(payment, t);
  }

  lemma EndsRunNext(s: Saga, e: Event)
    requires EndsRun(s) && Enabled(s, e.at, e.act)
    ensures EndsRun(Next(s, e))
  {
    var payment, t, events :| Possible(Init(payment, t), events) && s == After(Init(payment, t), events);
    assert Front(events + [e]) == events;
    assert Possible(Init(payment, t), events + [e]);
  }

  lemma {:induction false} ReachableAfter(s: Saga, events: seq<Event>)
    requires Reachable(s) && Possible(s, events)
    ensures Reachable(After(s, events))
    decreases |events|
  {
    if events == [] {
      assert After(s, events) == s;
    } else {
      ReachableAfter(s, Front(events));
      ReachableNext(After(s, Front(events)), Last(events));
    }
  }

  /** A state is reachable exactly if some run of some order ends in it. */
  lemma ReachableExactly(s: Saga)
    ensures Reachable(s) <==> EndsRun(s)
  {
    if EndsRun(s) {
      var payment, t, events :| Possible(Init(payment, t), events) && s == After(Init(payment, t), events);
      ReachableInit(payment, t);
      ReachableAfter(Init(payment, t), events);
    }
    var states := iset x: Saga | EndsRun(x);
    forall payment, t
      ensures Init(payment, t) in states
    {
      EndsRunInit(payment, t);
    }
    forall x, e: Event | x in states && Enabled(x, e.at, e.act)
      ensures Next(x, e) in states
    {
      EndsRunNext(x, e);
    }
    assert Closed(states);
  }

  lemma ReachableInv(s: Saga)
    requires Reachable(s)
    ensures Inv(s) && HistoryOk(s)
  {
    ReachableExactly(s);
    var payment, t, events :| Possible(Init(payment, t), events) && s == After(Init(payment, t), events);
    InitInv(payment, t);
    InitHistory(payment, t);
    HistoryAlways(Init(payment, t), events);
  }

  /** `s'` can come about from `s` without an administrator. */
  ghost predicate Leads(s: Saga, s': Saga) {
    exists events :: Possible(s, events) && Unaided(events) && After(s, events) == s'
  }

  ghost predicate Unaided(events: seq<Event>) {
    forall i :: 0 <= i < |events| ==> !events[i].act.AdminWrite?
  }

  lemma LeadsNowhere(s: Saga)
    ensures Leads(s, s)
  {
    assert Possible(s, []) && Unaided([]) && After(s, []) == s;
  }

  lemma LeadsNext(s: Saga, mid: Saga, e: Event)
    requires Leads(s, mid) && Enabled(mid, e.at, e.act) && !e.act.AdminWrite?
    ensures Leads(s, Next(mid, e))
  {
    var events :| Possible(s, events) && Unaided(events) && After(s, events) == mid;
    assert Front(events + [e]) == events;
    assert Possible(s, events + [e]) && Unaided(events + [e]) && After(s, events + [e]) == Next(mid, e);
  }

  lemma {:induction false} LeadsOn(s: Saga, mid: Saga, events: seq<Event>)
    requires Leads(s, mid) && Possible(mid, events) && Unaided(events)
    ensures Leads(s, After(mid, events))
    decreases |events|
  {
    if events == [] {
    } else {
      var front := Front(events);
      assert forall i :: 0 <= i < |front| ==> front[i] == events[i];
      assert Last(events) == events[|events| - 1];
      LeadsOn(s, mid, front);
      LeadsNext(s, After(mid, front), Last(events));
    }
  }

  lemma LeadsFurther(s: Saga, mid: Saga, s': Saga)
    requires Leads(s, mid) && Leads(mid, s')
    ensures Leads(s, s')
  {
    var events :| Possible(mid, events) && Unaided(events) && After(mid, events) == s';
    LeadsOn(s, mid, events);
  }

  lemma Do(s: Saga, t: int, a: Act) returns (s': Saga)
    requires Reachable(s) && Enabled(s, t, a)
    ensures Reachable(s') && s' == Apply(s, t, a)
    ensures !a.AdminWrite? ==> Leads(s, s')
  {
    s' := Next(s, Event(t, a));
    ReachableNext(s, Event(t, a));
    LeadsNowhere(s);
    if !a.AdminWrite? {
      LeadsNext(s, s, Event(t, a));
    }
  }

  // ----- The database and the services -------------------------------------

  /** COMPLETED and CANCELLED mean the same to the services as to the database.
      A cancelled order leaves a charge, reservation or shipment behind exactly
      where the acknowledgement of the forward call was lost. */
  lemma LedgerAgreement(s: Saga, svc: Service)
    requires Reachable(s)
    ensures s.row.global == GlobalStatus.Cancelled && !s.row.forced ==>
              (s.row.LaneOf(svc).record == Processed <==> s.row.LaneOf(svc).lost)
    ensures s.row.global == GlobalStatus.Cancelled && !s.row.forced ==>
              (s.row.LaneOf(svc).record == Reversed <==> s.row.LaneOf(svc).status == Compensated)
    ensures s.row.global == Completed ==>
              s.row.LaneOf(svc).record == (if SkipsBilling(s.row, svc) then Absent else Processed)
  {
    ReachableInv(s);
  }

  /** A forward call that the service carried out and the caller saw fail. */
  ghost predicate Loses(e: Event, payment: PaymentWay, svc: Service) {
    e.act == CallService(svc, true, false) && !(svc == Billing && payment == Postpayment)
  }

  lemma LostStep(s: Saga, e: Event, svc: Service)
    requires RowOk(s.row) && Enabled(s, e.at, e.act)
    ensures Next(s, e).row.LaneOf(svc).lost <==> s.row.LaneOf(svc).lost || Loses(e, s.row.payment, svc)
  {
    if e.act.CallService? {
      LostCall(s.row, e.act.svc, e.act.granted, e.act.delivered, svc);
    } else {
      OthersLoseNothing(s, e.at, e.act);
    }
  }

  lemma LostCall(row: Row, called: Service, granted: bool, delivered: bool, svc: Service)
    requires LanesOk(row) && row.LaneOf(called).worker == Queued
    ensures CallRow(row, called, granted, delivered).LaneOf(svc).lost <==>
              row.LaneOf(svc).lost || (svc == called && granted && !delivered && !SkipsBilling(row, svc))
  {
  }

  lemma OthersLoseNothing(s: Saga, t: int, a: Act)
    requires Enabled(s, t, a) && !a.CallService?
    ensures RowAfter(s, t, a).billing.lost == s.row.billing.lost
    ensures RowAfter(s, t, a).inventory.lost == s.row.inventory.lost
    ensures RowAfter(s, t, a).logistics.lost == s.row.logistics.lost
  {
  }

  ghost predicate LosesIn(events: seq<Event>, payment: PaymentWay, svc: Service) {
    exists i :: 0 <= i < |events| && Loses(events[i], payment, svc)
  }

  lemma {:induction false} LosesInFront(events: seq<Event>, payment: PaymentWay, svc: Service)
    requires events != []
    ensures LosesIn(events, payment, svc) <==> LosesIn(Front(events), payment, svc) || Loses(Last(events), payment, svc)
  {
    var front := Front(events);
    if LosesIn(front, payment, svc) {
      var i :| 0 <= i < |front| && Loses(front[i], payment, svc);
      assert events[i] == front[i];
    }
    if LosesIn(events, payment, svc) {
      var i :| 0 <= i < |events| && Loses(events[i], payment, svc);
      assert i == |events| - 1 || front[i] == events[i];
    }
  }

  /** The lost acknowledgements of a state are those of its run. */
  lemma {:induction false} LostExactly(s: Saga, events: seq<Event>, svc: Service)
    requires Inv(s) && Possible(s, events)
    ensures After(s, events).row.LaneOf(svc).lost <==>
              s.row.LaneOf(svc).lost || LosesIn(events, s.row.payment, svc)
    decreases |events|
  {
    if events == [] {
    } else {
      var front := Front(events);
      Always(s, front);
      LostExactly(s, front, svc);
      LostStep(After(s, front), Last(events), svc);
      PaymentStays(s, front);
      LosesInFront(events, s.row.payment, svc);
    }
  }

  lemma {:induction false} PaymentStays(s: Saga, events: seq<Event>)
    requires Inv(s) && Possible(s, events)
    ensures After(s, events).row.payment == s.row.payment
    decreases |events|
  {
    if events == [] {
    } else {
      PaymentStays(s, Front(events));
      Always(s, Front(events));
      Step(After(s, Front(events)), Last(events));
    }
  }

  ghost predicate Clean(row: Row) {
    row.billing.record != Processed && row.inventory.record != Processed && row.logistics.record != Processed
  }

  /** No service's acknowledgement of a forward call gets lost in the run. */
  ghost predicate Faithful(events: seq<Event>, payment: PaymentWay) {
    !LosesIn(events, payment, Billing) && !LosesIn(events, payment, Inventory) && !LosesIn(events, payment, Logistics)
  }

  /** An order that the system cancelled is clean at every service exactly when no
      forward call of its run was carried out without being acknowledged. */
  lemma {:induction false} CleanExactly(payment: PaymentWay, t: int, events: seq<Event>)
    requires Possible(Init(payment, t), events)
    requires After(Init(payment, t), events).row.global == GlobalStatus.Cancelled
    requires !After(Init(payment, t), events).row.forced
    ensures Clean(After(Init(payment, t), events).row) <==> Faithful(events, payment)
  {
    var start := Init(payment, t);
    var s := After(start, events);
    InitInv(payment, t);
    Always(start, events);
    ClosedLedger(s.row);
    LostExactly(start, events, Billing);
    LostExactly(start, events, Inventory);
    LostExactly(start, events, Logistics);
  }

  lemma ClosedLedger(row: Row)
    requires RowOk(row) && row.global == GlobalStatus.Cancelled && !row.forced
    ensures Clean(row) <==> !row.billing.lost && !row.inventory.lost && !row.logistics.lost
  {
  }

  // ----- The PENDING barrier -----------------------------------------------

  lemma BarrierStep(s: Saga, e: Event)
    requires Inv(s) && s.row.barrier && Enabled(s, e.at, e.act)
    ensures Inv(Next(s, e)) && Next(s, e).row.barrier && !ByForwardHandler(e.act)
  {
    Step(s, e);
  }

  lemma {:induction false} BarrierStays(s: Saga, events: seq<Event>)
    requires Inv(s) && s.row.barrier && Possible(s, events)
    ensures Inv(After(s, events)) && After(s, events).row.barrier
    decreases |events|
  {
    if events == [] {
    } else {
      BarrierStays(s, Front(events));
      BarrierStep(After(s, Front(events)), Last(events));
    }
  }

  ghost predicate NoForwardSteps(events: seq<Event>) {
    forall i :: 0 <= i < |events| ==> !ByForwardHandler(events[i].act)
  }

  lemma {:induction false} NoForwardSnoc(events: seq<Event>)
    requires events != [] && NoForwardSteps(Front(events)) && !ByForwardHandler(Last(events).act)
    ensures NoForwardSteps(events)
  {
    assert forall i :: 0 <= i < |events| - 1 ==> Front(events)[i] == events[i];
  }

  /** Once a compensation run has passed its guard, no forward handler ever takes
      another step: no call, no write, no enqueue. */
  lemma {:induction false} Barrier(s: Saga, events: seq<Event>)
    requires Inv(s) && s.row.barrier && Possible(s, events)
    ensures After(s, events).row.barrier && NoForwardSteps(events)
    decreases |events|
  {
    BarrierStays(s, events);
    if events == [] {
    } else {
      Barrier(s, Front(events));
      BarrierStays(s, Front(events));
      BarrierStep(After(s, Front(events)), Last(events));
      NoForwardSnoc(events);
    }
  }

  /** The calls a run makes: forward before reversing, each service at most once
      forward, reversals only of what was acknowledged, and no billing at all for
      an order paid on delivery. */
  lemma CallDiscipline(s: Saga)
    requires Reachable(s)
    ensures LogShape(s.past.log)
    ensures s.row.payment == Postpayment ==> Uncalled(s.past.log, Billing) && s.row.billing.record == Absent
    ensures (exists i :: 0 <= i < |s.past.log| && s.past.log[i].reversal) ==> s.row.barrier
  {
    ReachableInv(s);
  }

  /** Billing alone cancels the two steps, always both, and they are never called. */
  lemma BillingFailure(s: Saga)
    requires Reachable(s)
    ensures s.row.billing.status == Failed <==> s.row.inventory.status == StepStatus.Cancelled
    ensures s.row.billing.status == Failed <==> s.row.logistics.status == StepStatus.Cancelled
    ensures s.row.billing.status == Failed ==> Uncalled(s.past.log, Inventory) && Uncalled(s.past.log, Logistics)
  {
    ReachableInv(s);
  }

  /** Absent, then processed, then compensated. */
  ghost predicate RecordMoves(r: Record, r': Record) {
    r == r' || r == Absent || (r == Processed && r' == Reversed)
  }

  lemma OthersKeepRecords(s: Saga, t: int, a: Act, svc: Service)
    requires Enabled(s, t, a) && !a.CallService? && !a.CompCall?
    ensures RowAfter(s, t, a).LaneOf(svc).record == s.row.LaneOf(svc).record
  {
  }

  lemma RecordStep(s: Saga, e: Event, svc: Service)
    requires Inv(s) && Enabled(s, e.at, e.act)
    ensures RecordMoves(s.row.LaneOf(svc).record, Next(s, e).row.LaneOf(svc).record)
  {
    if e.act.CallService? {
      CalledRecordMoves(s.row, e.act.svc, e.act.granted, e.act.delivered, svc);
    } else if e.act.CompCall? {
      assert RunOk(s.row, s.runs[e.act.run]);
      ReversedRecordMoves(s.row, e.act.svc, e.act.granted, svc);
    } else {
      OthersKeepRecords(s, e.at, e.act, svc);
    }
  }

  lemma CalledRecordMoves(row: Row, called: Service, granted: bool, delivered: bool, svc: Service)
    requires LanesOk(row) && row.LaneOf(called).worker == Queued
    ensures RecordMoves(row.LaneOf(svc).record, CallRow(row, called, granted, delivered).LaneOf(svc).record)
  {
  }

  lemma ReversedRecordMoves(row: Row, called: Service, granted: bool, svc: Service)
    requires LanesOk(row) && Held(row.LaneOf(called))
    ensures RecordMoves(row.LaneOf(svc).record, ReversalRow(row, called, granted).LaneOf(svc).record)
  {
  }

  /** No service carries out its action twice or is reversed twice, however often
      it is called: its record only moves forward. */
  lemma {:induction false} RecordsMoveForward(s: Saga, events: seq<Event>, svc: Service)
    requires Inv(s) && Possible(s, events)
    ensures RecordMoves(s.row.LaneOf(svc).record, After(s, events).row.LaneOf(svc).record)
    decreases |events|
  {
    if events == [] {
      assert After(s, events) == s;
    } else {
      RecordsMoveForward(s, Front(events), svc);
      Always(s, Front(events));
      RecordStep(After(s, Front(events)), Last(events), svc);
    }
  }

  // ----- COMPLETED ---------------------------------------------------------

  lemma CompletedFromProcessing(s: Saga, e: Event)
    requires Reachable(s) && Enabled(s, e.at, e.act)
    requires Next(s, e).row.global == Completed && s.row.global != Completed
    ensures s.row.global == Processing
  {
    ReachableInv(s);
    Step(s, e);
  }

  /** An order that has left PROCESSING other than by completing never completes,
      and never returns to PROCESSING. */
  lemma {:induction false} NeverCompletes(s: Saga, events: seq<Event>)
    requires Inv(s) && !Forward(s.row) && Possible(s, events)
    ensures !Forward(After(s, events).row)
    decreases |events|
  {
    if events == [] {
    } else {
      NeverCompletes(s, Front(events));
      Always(s, Front(events));
      Step(After(s, Front(events)), Last(events));
    }
  }

  /** PROCESSING always has a PENDING step, and an order is COMPLETED exactly if every
      step has succeeded and no compensation run has passed its guard: whoever
      commits last finishes or fails the saga. */
  lemma NoLostCompletion(s: Saga)
    requires Reachable(s)
    ensures s.row.global == Processing ==> s.row.AnyStatus(Pending) && !s.row.AnyStatus(Failed)
    ensures s.row.global == Completed <==>
              && Billed(s.row) && s.row.inventory.status == Success && s.row.logistics.status == Success
              && !s.row.barrier
  {
    ReachableInv(s);
  }

  ghost predicate Quiet(s: Saga) {
    && s.sessions.poll != Fetched
    && forall k :: 0 <= k < |s.runs| ==> !s.runs[k].phase.Waiting?
  }

  lemma QuietCompletedStep(s: Saga, e: Event)
    requires Inv(s) && s.row.global == Completed && Quiet(s) && Enabled(s, e.at, e.act)
    ensures Next(s, e).row.global == Completed && Quiet(Next(s, e))
  {
    AllEnded(s);
    if ByForwardHandler(e.act) {
      NoWorkerLeft(s.row);
    }
  }

  lemma AllEnded(s: Saga)
    requires Inv(s) && s.row.global == Completed && Quiet(s)
    ensures forall k :: 0 <= k < |s.runs| ==> s.runs[k].phase.Ended?
  {
    forall k | 0 <= k < |s.runs|
      ensures s.runs[k].phase.Ended?
    {
      assert RunOk(s.row, s.runs[k]);
    }
  }

  lemma NoWorkerLeft(row: Row)
    requires RowOk(row) && row.global == Completed
    ensures row.billing.worker == Done && row.inventory.worker == Done && row.logistics.worker == Done
  {
  }

  lemma {:induction false} QuietCompletedStays(s: Saga, events: seq<Event>)
    requires Inv(s) && s.row.global == Completed && Quiet(s) && Possible(s, events)
    ensures After(s, events).row.global == Completed && Quiet(After(s, events))
    decreases |events|
  {
    if events == [] {
    } else {
      QuietCompletedStays(s, Front(events));
      Always(s, Front(events));
      QuietCompletedStep(After(s, Front(events)), Last(events));
    }
  }

  ghost predicate Final(s: Saga) {
    forall events :: Possible(s, events) ==> After(s, events).row.global == Completed
  }

  lemma StartUndoes(s: Saga, k: nat)
    requires Inv(s) && s.row.global == Completed && k < |s.runs| && s.runs[k].phase.Waiting?
    ensures !Final(s)
  {
    var e := Event(s.clock, CompStart(k));
    NoWorkerLeft(s.row);
    assert Enabled(s, e.at, e.act);
    assert Next(s, e).row.global == Compensating;
    assert Front([e]) == [];
    assert Possible(s, [e]) && After(s, [e]) == Next(s, e);
  }

  /** COMPLETED is final exactly when no compensation job is waiting and no poll
      has fetched the order without having dispatched it yet. */
  lemma CompletedFinalExactly(s: Saga)
    requires Reachable(s) && s.row.global == Completed
    ensures Final(s) <==> Quiet(s)
  {
    ReachableInv(s);
    if Quiet(s) {
      forall events | Possible(s, events)
        ensures After(s, events).row.global == Completed
      {
        QuietCompletedStays(s, events);
      }
    } else if k :| 0 <= k < |s.runs| && s.runs[k].phase.Waiting? {
      StartUndoes(s, k);
    } else {
      DispatchUndoes(s);
    }
  }

  lemma DispatchUndoes(s: Saga)
    requires Inv(s) && s.row.global == Completed && s.sessions.poll == Fetched
    requires forall k :: 0 <= k < |s.runs| ==> !s.runs[k].phase.Waiting?
    ensures !Final(s)
  {
    var e := Event(s.clock, PollEnqueue(Confirmed, false));
    assert Enabled(s, e.at, e.act);
    forall k | 0 <= k < |s.runs|
      ensures !Live(s.runs[k])
    {
      assert RunOk(s.row, s.runs[k]);
    }
    var s' := Next(s, e);
    Step(s, e);
    NoWorkerLeft(s'.row);
    var e' := Event(s.clock, CompStart(|s.runs|));
    assert Enabled(s', e'.at, e'.act) && Next(s', e').row.global == Compensating;
    assert Front([e]) == [] && Front([e, e']) == [e];
    assert Possible(s, [e]) && After(s, [e]) == s';
    assert Possible(s, [e, e']) && After(s, [e, e']) == Next(s', e');
  }

  /** While the poll has never dispatched or fetched the order, nothing undoes a
      completion, whatever handlers failed on the way. */
  lemma CompletedStaysWithoutPoll(s: Saga)
    requires Reachable(s) && s.row.global == Completed
    requires s.past.dispatches == [] && s.sessions.poll != Fetched
    ensures s.runs == [] && Final(s)
  {
    ReachableInv(s);
    NoJobWithoutCause(s);
    CompletedFinalExactly(s);
  }

  /** Until the poll dispatches, a compensation job exists only for a step that
      failed, or one left PENDING by a handler that died. */
  lemma JobsHaveCause(s: Saga)
    requires Reachable(s) && s.past.dispatches == [] && s.runs != []
    ensures s.row.AnyStatus(Failed)
            || exists svc: Service :: s.row.LaneOf(svc).worker == Dead && s.row.LaneOf(svc).status == Pending
  {
    ReachableInv(s);
    if !s.row.AnyStatus(Failed) {
      DeadIsPending(s.row);
    }
  }

  lemma DeadIsPending(row: Row)
    requires RowOk(row) && Trouble(row) && !row.AnyStatus(Failed)
    ensures exists svc: Service :: row.LaneOf(svc).worker == Dead && row.LaneOf(svc).status == Pending
  {
    var svc :=
      if row.billing.worker == Dead then Billing
      else if row.inventory.worker == Dead then Inventory
      else Logistics;
    assert row.LaneOf(svc).worker == Dead && row.LaneOf(svc).status == Pending;
  }

  lemma NoJobWithoutCause(s: Saga)
    requires RowOk(s.row) && CauseOk(s) && s.row.global == Completed && s.past.dispatches == []
    ensures s.runs == []
  {
    NoWorkerLeft(s.row);
  }

  /** A read-then-write without a lock never overwrites COMPLETED. */
  lemma BlindWritesSpareCompleted(s: Saga, e: Event)
    requires Reachable(s) && Enabled(s, e.at, e.act) && (e.act.DeadWrite? || e.act.AdminWrite?)
    ensures s.row.global != Completed && s.row.global != Processing
  {
    ReachableInv(s);
  }

  // ----- CANCELLED ---------------------------------------------------------

  lemma CancelledIsClean(s: Saga)
    requires Reachable(s) && s.row.global == GlobalStatus.Cancelled && !s.row.forced
    ensures s.row.barrier && !s.row.AnyStatus(Success) && !s.row.AnyStatus(Pending)
  {
    ReachableInv(s);
  }

  /** ... and stays so, also while a late compensation run passes through
      COMPENSATING again. */
  lemma {:induction false} CleanStays(s: Saga, events: seq<Event>)
    requires Inv(s) && Possible(s, events)
    requires s.row.barrier && !s.row.AnyStatus(Success) && !s.row.AnyStatus(Pending)
    ensures After(s, events).row.barrier
    ensures !After(s, events).row.AnyStatus(Success) && !After(s, events).row.AnyStatus(Pending)
    decreases |events|
  {
    if events == [] {
    } else {
      CleanStays(s, Front(events));
      Always(s, Front(events));
      Step(After(s, Front(events)), Last(events));
    }
  }

  // ----- Step statuses over a whole run ------------------------------------

  /** PENDING to anything, then only SUCCESS to COMPENSATED. */
  ghost predicate Later(st: StepStatus, st': StepStatus) {
    st == st' || st == Pending || (st == Success && st' == Compensated)
  }

  lemma {:induction false} StatusesMoveForward(s: Saga, events: seq<Event>, svc: Service)
    requires Inv(s) && Possible(s, events)
    ensures Later(s.row.LaneOf(svc).status, After(s, events).row.LaneOf(svc).status)
    decreases |events|
  {
    if events == [] {
    } else {
      StatusesMoveForward(s, Front(events), svc);
      Always(s, Front(events));
      Step(After(s, Front(events)), Last(events));
      assert Moves(After(s, Front(events)).row.LaneOf(svc).status, After(s, events).row.LaneOf(svc).status);
    }
  }

  // ----- A dead handler ----------------------------------------------------

  /** The price of the barrier: a handler that died leaves its step PENDING for
      good, and then the order neither completes nor is cancelled by the system. */
  lemma {:induction false} DeadHandlerBlocks(s: Saga, events: seq<Event>, svc: Service)
    requires Inv(s) && Possible(s, events) && s.row.LaneOf(svc).worker == Dead
    ensures After(s, events).row.LaneOf(svc).worker == Dead && After(s, events).row.LaneOf(svc).status == Pending
    ensures !After(s, events).row.barrier && After(s, events).row.global != Completed
    ensures After(s, events).row.global == GlobalStatus.Cancelled ==> After(s, events).row.forced
    decreases |events|
  {
    if events == [] {
      assert After(s, events) == s;
    } else {
      var last := Last(events);
      DeadHandlerBlocks(s, Front(events), svc);
      Always(s, Front(events));
      Step(After(s, Front(events)), last);
      OverStep(After(s, Front(events)), last.at, last.act);
    }
  }
}
