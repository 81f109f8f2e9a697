/** What the scheduler sees, how often it acts, and what the metrics count. */
module SchedulerTheorems {
  import opened SagaTypes
  import opened SagaMachine
  import opened SagaInvariant
  import opened SagaHistory
  import opened SagaTheorems

  // ----- Coverage ----------------------------------------------------------

  /** An unfinished order that goes stale is seen by the poll or by the dead-order
      check; a finished one by neither. */
  lemma SchedulerCoverage(s: Saga, now: int)
    requires Reachable(s)
    ensures s.row.global == Processing && s.updatedAt + 60_000_000 < now ==> MatchesPoll(s.row, s.updatedAt, now)
    ensures s.row.global == Compensating && s.updatedAt + 3_600_000_000 < now ==> MatchesDead(s.row, s.updatedAt, now)
    ensures MatchesPoll(s.row, s.updatedAt, now) ==> s.updatedAt + 60_000_000 < now
    ensures MatchesDead(s.row, s.updatedAt, now) ==> s.updatedAt + 3_600_000_000 < now
    ensures MatchesPoll(s.row, s.updatedAt, now) || MatchesDead(s.row, s.updatedAt, now) ==>
              s.row.global == Processing || s.row.global == Compensating
  {
    ReachableInv(s);
  }

  // ----- Dispatch rate -----------------------------------------------------

  /** Dispatches i to j - 1 have all stamped the order. */
  ghost predicate Stamped(unstamped: set<int>, i: nat, j: nat) {
    forall k :: i <= k < j ==> k !in unstamped
  }

  lemma {:induction false} SpacedFar(ds: seq<int>, unstamped: set<int>, i: nat, j: nat)
    requires Spaced(ds, unstamped) && i <= j < |ds| && Stamped(unstamped, i, j)
    ensures (j - i) * STUCK_TIMEOUT <= ds[j] - ds[i]
    ensures i < j ==> (j - i) * STUCK_TIMEOUT < ds[j] - ds[i]
    decreases j
  {
    if i < j {
      SpacedFar(ds, unstamped, i, j - 1);
      assert ds[j - 1] + STUCK_TIMEOUT < ds[j];
      assert (j - i) * STUCK_TIMEOUT == (j - 1 - i) * STUCK_TIMEOUT + STUCK_TIMEOUT;
    }
  }

  lemma {:induction false} SpacedRate(ds: seq<int>, unstamped: set<int>, i: nat, j: nat, window: nat)
    requires Spaced(ds, unstamped) && i <= j < |ds| && Stamped(unstamped, i, j) && ds[j] - ds[i] <= window
    ensures j - i + 1 <= window / STUCK_TIMEOUT + 1
  {
    SpacedFar(ds, unstamped, i, j);
  }

  /** As long as dispatches get to stamp the order, the poll dispatches it at most
      window / 60 s + 1 times in a window. */
  lemma DispatchRate(s: Saga, i: nat, j: nat, window: nat)
    requires Reachable(s) && i <= j < |s.past.dispatches| && Stamped(s.past.unstamped, i, j)
    requires s.past.dispatches[j] - s.past.dispatches[i] <= window
    ensures j - i + 1 <= window / 60_000_000 + 1
  {
    DispatchesSpaced(s);
    SpacedRate(s.past.dispatches, s.past.unstamped, i, j, window);
  }

  lemma DispatchesSpaced(s: Saga)
    requires Reachable(s)
    ensures Spaced(s.past.dispatches, s.past.unstamped)
  {
    ReachableInv(s);
  }

  lemma {:induction false} InOrder(ds: seq<int>, unstamped: set<int>, i: nat, j: nat)
    requires Spaced(ds, unstamped) && i <= j < |ds|
    ensures ds[i] <= ds[j]
    decreases j
  {
    if i < j {
      InOrder(ds, unstamped, i, j - 1);
    }
  }

  /** Every dispatch that the queue gets starts a fresh job, unless a retry took the
      same second for its id, or the dispatch before did and left no stamp: dispatches
      that stamp the order never share an id. */
  lemma DispatchLeavesJob(s: Saga, e: Event)
    requires Reachable(s) && Enabled(s, e.at, e.act) && e.act.PollEnqueue? && !e.act.delivery.Dropped?
    ensures || Next(s, e).runs == s.runs + [Run(StampedId(e.at), 0, Waiting)]
            || (exists k :: 0 <= k < |s.runs| && s.runs[k].job == StampedId(e.at) && s.runs[k].retry > 0
                            && (Live(s.runs[k]) || e.act.cached))
            || (|s.past.dispatches| > 0 && |s.past.dispatches| - 1 in s.past.unstamped
                && StampedId(s.past.dispatches[|s.past.dispatches| - 1]) == StampedId(e.at))
  {
    if Taken(s.runs, StampedId(e.at), e.act.cached) {
      var k :| 0 <= k < |s.runs| && s.runs[k].job == StampedId(e.at) && (Live(s.runs[k]) || e.act.cached);
      if s.runs[k].retry == 0 {
        StampedByPolls(s, k);
        OwnSecond(s.past.dispatches, s.past.unstamped, e.at, s.runs[k].job.second);
      }
    }
  }

  lemma StampedByPolls(s: Saga, k: nat)
    requires Reachable(s) && k < |s.runs| && s.runs[k].retry == 0
    ensures s.runs[k].job.Stamped? ==> DispatchedIn(s.past.dispatches, s.runs[k].job.second)
    ensures TimeOk(s)
  {
    ReachableInv(s);
  }

  /** A dispatch in the current second can only be the last one. */
  lemma {:induction false} OwnSecond(ds: seq<int>, unstamped: set<int>, t: int, second: int)
    requires Spaced(ds, unstamped) && DispatchedIn(ds, second) && second == t / SECOND
    requires ds[|ds| - 1] <= t
    requires |ds| - 1 !in unstamped ==> ds[|ds| - 1] + STUCK_TIMEOUT < t
    ensures |ds| - 1 in unstamped && ds[|ds| - 1] / SECOND == second
  {
    var i :| 0 <= i < |ds| && ds[i] / SECOND == second;
    InOrder(ds, unstamped, i, |ds| - 1);
  }

  // ----- The success counter -----------------------------------------------

  /** The order is COMPLETED somewhere along the run. */
  ghost predicate EverCompleted(s: Saga, events: seq<Event>)
    requires Possible(s, events)
    decreases |events|
  {
    After(s, events).row.global == Completed || (events != [] && EverCompleted(s, Front(events)))
  }

  lemma CompletionStep(s: Saga, e: Event)
    requires Enabled(s, e.at, e.act) && RowOk(s.row) && CountOk(s) && CountOk(Next(s, e))
    ensures Next(s, e).past.completions == 1 <==> s.past.completions == 1 || Next(s, e).row.global == Completed
  {
    if e.act.StepCommit? && Counts(s.row, e.act) {
      CommitCompletes(s.row, e.act.svc);
    }
  }

  lemma CommitCompletes(row: Row, svc: Service)
    requires WouldComplete(row, svc)
    ensures CommitRow(row, svc).global == Completed
  {
  }

  lemma {:induction false} CompletionsExactly(payment: PaymentWay, t: int, events: seq<Event>)
    requires Possible(Init(payment, t), events)
    ensures After(Init(payment, t), events).past.completions == Bit(EverCompleted(Init(payment, t), events))
    decreases |events|
  {
    var start := Init(payment, t);
    InitInv(payment, t);
    InitHistory(payment, t);
    if events == [] {
      assert After(start, events) == start;
    } else {
      var front := Front(events);
      CompletionsExactly(payment, t, front);
      HistoryAlways(start, front);
      HistoryAlways(start, events);
      CompletionStep(After(start, front), Last(events));
    }
  }

  /** Step handlers that counted a completion and then died in its commit. */
  ghost function Miscounts(s: Saga, events: seq<Event>): nat
    requires Possible(s, events)
    decreases |events|
  {
    if events == [] then 0
    else
      var mid := After(s, Front(events));
      Miscounts(s, Front(events)) + Bit(Last(events).act.Abort? && Counts(mid.row, Last(events).act))
  }

  lemma {:induction false} CountedExactly(s: Saga, events: seq<Event>)
    requires Possible(s, events) && s.past.counted == s.past.completions
    ensures After(s, events).past.counted == After(s, events).past.completions + Miscounts(s, events)
    decreases |events|
  {
    if events == [] {
      assert After(s, events) == s;
    } else {
      CountedExactly(s, Front(events));
    }
  }

  /** One order adds one to the "success" counter if it is ever COMPLETED, and one if
      a step handler counted and then died in its commit; never both, nor more. */
  lemma {:induction false} SuccessCounter(payment: PaymentWay, t: int, events: seq<Event>)
    requires Possible(Init(payment, t), events)
    ensures After(Init(payment, t), events).past.counted
            == Bit(EverCompleted(Init(payment, t), events)) + Miscounts(Init(payment, t), events)
    ensures After(Init(payment, t), events).past.counted <= 1
  {
    var start := Init(payment, t);
    InitInv(payment, t);
    InitHistory(payment, t);
    HistoryAlways(start, events);
    CompletionsExactly(payment, t, events);
    CountedExactly(start, events);
  }

  // ----- The other counters ------------------------------------------------

  /** A merge that takes the order into CANCELLED. */
  ghost predicate Cancels(s: Saga, e: Event)
    requires Enabled(s, e.at, e.act)
  {
    e.act.CompMerge? && s.row.global != GlobalStatus.Cancelled && Next(s, e).row.global == GlobalStatus.Cancelled
  }

  /** A merge in the fifth attempt that leaves a SUCCESS. */
  ghost predicate GivesUp(s: Saga, e: Event)
    requires Enabled(s, e.at, e.act)
  {
    e.act.CompMerge? && s.runs[e.act.run].retry == 4 && Next(s, e).row.AnyStatus(Success)
  }

  /** The merge that a run died in. */
  ghost function Unwritten(e: Event): Event
    requires e.act.CompDie?
  {
    Event(e.at, CompMerge(e.act.run))
  }

  /** How often a merge took the order into CANCELLED. */
  ghost function Cancellations(s: Saga, events: seq<Event>): nat
    requires Possible(s, events)
    decreases |events|
  {
    if events == [] then 0
    else Cancellations(s, Front(events)) + Bit(Cancels(After(s, Front(events)), Last(events)))
  }

  /** How often a run died in a merge that would have done so. */
  ghost function LostCancellations(s: Saga, events: seq<Event>): nat
    requires Possible(s, events)
    decreases |events|
  {
    if events == [] then 0
    else
      var last := Last(events);
      LostCancellations(s, Front(events))
      + Bit(last.act.CompDie? && last.act.atCommit && Cancels(After(s, Front(events)), Unwritten(last)))
  }

  /** How often the order was handed to an operator: by a run that gave up, or by the
      dead-order check. */
  ghost function HandOvers(s: Saga, events: seq<Event>): nat
    requires Possible(s, events)
    decreases |events|
  {
    if events == [] then 0
    else
      var last := Last(events);
      HandOvers(s, Front(events)) + Bit(last.act.DeadWrite? || GivesUp(After(s, Front(events)), last))
  }

  /** How often that was counted and then not committed. */
  ghost function LostHandOvers(s: Saga, events: seq<Event>): nat
    requires Possible(s, events)
    decreases |events|
  {
    if events == [] then 0
    else
      var last := Last(events);
      LostHandOvers(s, Front(events))
      + Bit((last.act.DeadDrop? && last.act.counted)
            || (last.act.CompDie? && last.act.atCommit && GivesUp(After(s, Front(events)), Unwritten(last))))
  }

  lemma OtherCountersStep(s: Saga, e: Event)
    requires RunsOk(s.row, s.runs) && Enabled(s, e.at, e.act)
    ensures Next(s, e).past.compensated == s.past.compensated + Bit(Cancels(s, e))
              + Bit(e.act.CompDie? && e.act.atCommit && Cancels(s, Unwritten(e)))
    ensures Next(s, e).past.stuck == s.past.stuck + Bit(e.act.DeadWrite? || GivesUp(s, e))
              + Bit((e.act.DeadDrop? && e.act.counted)
                    || (e.act.CompDie? && e.act.atCommit && GivesUp(s, Unwritten(e))))
  {
    if Finishing(e.act) {
      assert RunOk(s.row, s.runs[e.act.run]);
    }
  }

  /** "compensated" counts the merges that take the order into CANCELLED, and "stuck"
      its handovers to an operator; both also count what was then not committed. */
  lemma {:induction false} OtherCounters(payment: PaymentWay, t: int, events: seq<Event>)
    requires Possible(Init(payment, t), events)
    ensures After(Init(payment, t), events).past.compensated
            == Cancellations(Init(payment, t), events) + LostCancellations(Init(payment, t), events)
    ensures After(Init(payment, t), events).past.stuck
            == HandOvers(Init(payment, t), events) + LostHandOvers(Init(payment, t), events)
    decreases |events|
  {
    var start := Init(payment, t);
    InitInv(payment, t);
    if events == [] {
      assert After(start, events) == start;
    } else {
      OtherCounters(payment, t, Front(events));
      Always(start, Front(events));
      OtherCountersStep(After(start, Front(events)), Last(events));
    }
  }

  // ----- Several orders ----------------------------------------------------

  /** The run of one order so far. */
  datatype OrderRun = OrderRun(payment: PaymentWay, start: int, events: seq<Event>) {
    ghost predicate Happened() {
      Possible(Init(payment, start), events)
    }

    ghost function End(): Saga
      requires Happened()
    {
      After(Init(payment, start), events)
    }

    ghost function Start(): Saga {
      Init(payment, start)
    }
  }

  ghost function CompletionsOf(run: OrderRun): nat
    requires run.Happened()
  {
    Bit(EverCompleted(run.Start(), run.events))
  }

  ghost function MiscountsOf(run: OrderRun): nat
    requires run.Happened()
  {
    Miscounts(run.Start(), run.events)
  }

  ghost function CancellationsOf(run: OrderRun): nat
    requires run.Happened()
  {
    Cancellations(run.Start(), run.events) + LostCancellations(run.Start(), run.events)
  }

  ghost function HandOversOf(run: OrderRun): nat
    requires run.Happened()
  {
    HandOvers(run.Start(), run.events) + LostHandOvers(run.Start(), run.events)
  }

  ghost function DispatchesOf(run: OrderRun): nat
    requires run.Happened()
  {
    run.End().past.dispatched
  }

  ghost predicate AllHappened(runs: seq<OrderRun>) {
    forall i :: 0 <= i < |runs| ==> runs[i].Happened()
  }

  ghost function SumOf(runs: seq<OrderRun>, weight: OrderRun --> nat): nat
    requires forall i :: 0 <= i < |runs| ==> weight.requires(runs[i])
  {
    if runs == [] then 0 else SumOf(runs[..|runs| - 1], weight) + weight(runs[|runs| - 1])
  }
}
