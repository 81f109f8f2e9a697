/** What must have happened for something to be so, over whole runs. */
module RunLaws {
  import opened SagaTypes
  import opened SagaMachine
  import opened SagaInvariant
  import opened SagaTheorems
  import opened StepLaws

  lemma {:induction false} RunReaches(payment: PaymentWay, t: int, events: seq<Event>)
    requires Possible(Init(payment, t), events)
    ensures Reachable(After(Init(payment, t), events))
  {
    ReachableInit(payment, t);
    ReachableAfter(Init(payment, t), events);
  }

  // ----- Why a step is COMPENSATED -----------------------------------------

  /** Job k has sent a reversal to this service, the service had carried it out by then,
      and its answer arrived. */
  ghost predicate Reversed(s: Saga, events: seq<Event>, k: nat, svc: Service)
    requires Possible(s, events)
    decreases |events|
  {
    events != [] &&
    (|| Reversed(s, Front(events), k, svc)
     || (var a := Last(events).act;
         && a.CompCall? && a.run == k && a.svc == svc && a.delivered
         && After(s, events).row.LaneOf(svc).record == Record.Reversed))
  }

  /** Such a job has come to its second transaction. */
  ghost predicate TakenBack(s: Saga, events: seq<Event>, svc: Service)
    requires Possible(s, events)
    decreases |events|
  {
    events != [] &&
    (|| TakenBack(s, Front(events), svc)
     || (Last(events).act.CompMerge? && Reversed(s, Front(events), Last(events).act.run, svc)))
  }

  /** What a run has counted is what the network brought. */
  ghost predicate CountsAnswers(s: Saga, k: nat, svc: Service, reversed: bool) {
    && (k >= |s.runs| || s.runs[k].phase.Waiting? ==> !reversed)
    && (k < |s.runs| && s.runs[k].phase.Reversing? ==> (s.runs[k].phase.acked.Has(svc) <==> reversed))
  }

  lemma AnswersStep(s: Saga, e: Event, k: nat, svc: Service, reversed: bool)
    requires Reachable(s) && Enabled(s, e.at, e.act) && CountsAnswers(s, k, svc, reversed)
    ensures CountsAnswers(Next(s, e), k, svc,
                          || reversed
                          || (e.act.CompCall? && e.act.run == k && e.act.svc == svc && e.act.delivered
                              && Next(s, e).row.LaneOf(svc).record == Record.Reversed))
  {
    if k < |s.runs| {
      JobsKept(s, e, k);
      if e.act.CompCall? && e.act.run == k {
        ReversalAnswered(s, e.at, k, e.act.svc, e.act.granted, e.act.delivered);
      } else if e.act.CompStart? && e.act.run == k {
        FirstTransaction(s, e.at, k);
      }
    } else if k < |Next(s, e).runs| {
      NewJobsWait(s, e, k);
    }
  }

  lemma NewJobsWait(s: Saga, e: Event, k: nat)
    requires Enabled(s, e.at, e.act) && |s.runs| <= k < |Next(s, e).runs|
    ensures Next(s, e).runs[k].phase.Waiting?
  {
  }

  lemma {:induction false} AnswersExactly(payment: PaymentWay, t: int, events: seq<Event>, k: nat, svc: Service)
    requires Possible(Init(payment, t), events)
    ensures CountsAnswers(After(Init(payment, t), events), k, svc, Reversed(Init(payment, t), events, k, svc))
    decreases |events|
  {
    var start := Init(payment, t);
    if events == [] {
      assert After(start, events) == start;
    } else {
      AnswersExactly(payment, t, Front(events), k, svc);
      RunReaches(payment, t, Front(events));
      AnswersStep(After(start, Front(events)), Last(events), k, svc, Reversed(start, Front(events), k, svc));
    }
  }

  lemma CompensatedStep(s: Saga, e: Event, svc: Service)
    requires Reachable(s) && Enabled(s, e.at, e.act)
    ensures Next(s, e).row.LaneOf(svc).status == Compensated <==>
              || s.row.LaneOf(svc).status == Compensated
              || (e.act.CompMerge? && s.runs[e.act.run].phase.acked.Has(svc))
  {
    if e.act.CompMerge? {
      SecondTransaction(s, e.at, e.act.run);
    } else {
      RowKnown(s);
      NeverOtherwise(s, e, svc);
    }
  }

  lemma NeverOtherwise(s: Saga, e: Event, svc: Service)
    requires RowOk(s.row) && Enabled(s, e.at, e.act) && !e.act.CompMerge?
    ensures Next(s, e).row.LaneOf(svc).status == Compensated <==> s.row.LaneOf(svc).status == Compensated
  {
    if e.act.BillingCommit? || e.act.BillingReject? || e.act.StepCommit? {
      HandlersDoNot(s, e, svc);
    } else if !SameStatuses(s.row, Next(s, e).row) {
      OnlyTheseWriteStatuses(s, e);
    }
  }

  lemma HandlersDoNot(s: Saga, e: Event, svc: Service)
    requires RowOk(s.row) && Enabled(s, e.at, e.act)
    requires e.act.BillingCommit? || e.act.BillingReject? || e.act.StepCommit?
    ensures Next(s, e).row.LaneOf(svc).status == Compensated <==> s.row.LaneOf(svc).status == Compensated
  {
  }

  /** Over every run, however many jobs overlap: a step is COMPENSATED exactly if some job
      sent a reversal that the service had carried out and whose answer arrived, and
      then came to its second transaction. */
  lemma {:induction false} CompensatedExactly(payment: PaymentWay, t: int, events: seq<Event>, svc: Service)
    requires Possible(Init(payment, t), events)
    ensures After(Init(payment, t), events).row.LaneOf(svc).status == Compensated
            <==> TakenBack(Init(payment, t), events, svc)
    decreases |events|
  {
    var start := Init(payment, t);
    if events == [] {
      assert After(start, events) == start;
    } else {
      var mid := After(start, Front(events));
      CompensatedExactly(payment, t, Front(events), svc);
      RunReaches(payment, t, Front(events));
      CompensatedStep(mid, Last(events), svc);
      if Last(events).act.CompMerge? {
        AnswersExactly(payment, t, Front(events), Last(events).act.run, svc);
      }
    }
  }

  // ----- What was seen before it was acted upon ----------------------------

  datatype Sight = InManual | OverdueByAnHour | StuckForAMinute

  /** A session reads the order in the state that it is looking for. */
  ghost predicate Sees(s: Saga, e: Event, sight: Sight) {
    match sight
    case InManual => e.act.AdminRead? && s.row.global == ManualRequired
    case OverdueByAnHour => e.act.DeadRead? && s.row.global == Compensating && s.updatedAt + 3_600_000_000 < e.at
    case StuckForAMinute =>
      && e.act.PollFetch? && s.updatedAt + 60_000_000 < e.at
      && (s.row.global == Processing || (s.row.global == Compensating && s.row.AnyStatus(Success)))
  }

  ghost predicate Seen(s: Saga, events: seq<Event>, sight: Sight)
    requires Possible(s, events)
    decreases |events|
  {
    events != [] &&
    (Seen(s, Front(events), sight) || Sees(After(s, Front(events)), Last(events), sight))
  }

  /** A session of this kind is open. */
  ghost predicate Holds(q: Sessions, sight: Sight) {
    match sight
    case InManual => q.forceCancels > 0
    case OverdueByAnHour => q.escalations > 0
    case StuckForAMinute => q.poll == Fetched
  }

  lemma HoldsStep(s: Saga, e: Event, sight: Sight)
    requires Reachable(s) && Enabled(s, e.at, e.act)
    requires Holds(Next(s, e).sessions, sight) && !Holds(s.sessions, sight)
    ensures Sees(s, e, sight)
  {
  }

  lemma {:induction false} HeldWasSeen(payment: PaymentWay, t: int, events: seq<Event>, sight: Sight)
    requires Possible(Init(payment, t), events) && Holds(After(Init(payment, t), events).sessions, sight)
    ensures Seen(Init(payment, t), events, sight)
    decreases |events|
  {
    var start := Init(payment, t);
    if events == [] {
    } else {
      var mid := After(start, Front(events));
      RunReaches(payment, t, Front(events));
      if Holds(mid.sessions, sight) {
        HeldWasSeen(payment, t, Front(events), sight);
      } else {
        HoldsStep(mid, Last(events), sight);
      }
    }
  }

  /** Nobody acts on an order without having read it so: a force-cancel was preceded by a
      read in MANUAL, an escalation by a read that found it COMPENSATING for more than an
      hour, and a dispatch by a poll that found it stuck for more than a minute. */
  lemma {:induction false} ActedUponWasSeen(payment: PaymentWay, t: int, events: seq<Event>, e: Event)
    requires Possible(Init(payment, t), events) && Enabled(After(Init(payment, t), events), e.at, e.act)
    ensures e.act.AdminWrite? ==> Seen(Init(payment, t), events, InManual)
    ensures e.act.DeadWrite? ==> Seen(Init(payment, t), events, OverdueByAnHour)
    ensures e.act.PollEnqueue? ==> Seen(Init(payment, t), events, StuckForAMinute)
  {
    if e.act.AdminWrite? {
      HeldWasSeen(payment, t, events, InManual);
    } else if e.act.DeadWrite? {
      HeldWasSeen(payment, t, events, OverdueByAnHour);
    } else if e.act.PollEnqueue? {
      HeldWasSeen(payment, t, events, StuckForAMinute);
    }
  }
}
