/** The saga as a machine: `Next` is what one atomic piece of a handler does to
    one order. A handler is split exactly where it can be interleaved. */
module SagaMachine {
  import opened SagaTypes

  datatype Act =
    // src/services/order.py, after the order was committed
    | EnqueueBilling
    // the HTTP call of a forward handler
    | CallService(svc: Service, granted: bool, delivered: bool)
    // the transaction of process_billing
    | BillingLock
    | FanOut(svc: Service)
    | BillingCommit
    | BillingReject(cached: bool)
    // the transaction of process_inventory and process_logistic
    | StepCommit(svc: Service, cached: bool)
    // a forward handler that ends without committing, or a request that ends before it
    // has enqueued billing
    | Abort(svc: Service, atCommit: bool, up: bool, cached: bool)
    // compensation
    | CompStart(run: nat)
    | CompCall(run: nat, svc: Service, granted: bool, delivered: bool)
    | CompMerge(run: nat)
    | CompRequeue(run: nat, up: bool, cached: bool)
    | CompDie(run: nat, atCommit: bool)
    // scheduler
    | PollFetch
    | PollEnqueue(delivery: Delivery, cached: bool)
    | PollCommit
    | PollDrop
    | DeadRead
    | DeadWrite
    | DeadDrop(counted: bool)
    // force_cancel
    | AdminRead
    | AdminWrite
    | AdminDrop

  datatype Event = Event(at: int, act: Act)

  // ----- External services -------------------------------------------------

  function Target(reversal: bool): Record {
    if reversal then Reversed else Processed
  }

  /** `process_service_call`: a repeated action is acknowledged as it stands; a
      refused one leaves the record alone; a granted one overwrites it. */
  function ServiceCall(record: Record, reversal: bool, granted: bool): (Record, bool) {
    if record == Target(reversal) then (record, true)
    else if granted then (Target(reversal), true)
    else (record, false)
  }

  // ----- The job queue -----------------------------------------------------

  predicate Live(run: Run) {
    !run.phase.Ended?
  }

  /** An id is taken while its job is queued or running, and after that for as
      long as the job's result is cached. */
  predicate Taken(runs: seq<Run>, id: JobId, cached: bool) {
    exists k :: 0 <= k < |runs| && runs[k].job == id && (Live(runs[k]) || cached)
  }

  function Enqueue(runs: seq<Run>, id: JobId, retry: nat, cached: bool): seq<Run> {
    if Taken(runs, id, cached) then runs else runs + [Run(id, retry, Waiting)]
  }

  function StampedId(t: int): JobId {
    Stamped(t / SECOND)
  }

  // ----- What handlers do to the row ---------------------------------------

  function Acked(row: Row, svc: Service, reversal: bool, granted: bool, delivered: bool): bool {
    ServiceCall(row.LaneOf(svc).record, reversal, granted).1 && delivered
  }

  predicate SkipsBilling(row: Row, svc: Service) {
    svc == Billing && row.payment == Postpayment
  }

  function CallRow(row: Row, svc: Service, granted: bool, delivered: bool): Row {
    var lane := row.LaneOf(svc);
    if SkipsBilling(row, svc) then row.WithLane(svc, lane.(worker := Called(Skipped)))
    else
      var (record, ok) := ServiceCall(lane.record, false, granted);
      row.WithLane(svc, lane.(record := record,
                              worker := Called(if ok && delivered then Success else Failed),
                              lost := ok && !delivered))
  }

  function WorkerRow(row: Row, svc: Service, worker: Worker): Row {
    row.WithLane(svc, row.LaneOf(svc).(worker := worker))
  }

  function BilledRow(row: Row): Row
    requires row.Locked()
  {
    row.(billing := row.billing.(status := row.billing.worker.result, worker := Done))
  }

  function RejectRow(row: Row): Row {
    row.(billing := row.billing.(status := Failed, worker := Done),
         inventory := row.inventory.(status := StepStatus.Cancelled),
         logistics := row.logistics.(status := StepStatus.Cancelled),
         global := Compensating)
  }

  /** The other of the two parallel steps. */
  function Sibling(svc: Service): Service {
    if svc == Inventory then Logistics else Inventory
  }

  predicate Billed(row: Row) {
    row.billing.status == Success || row.billing.status == Skipped
  }

  /** The branch of a step handler that completes the saga. */
  predicate WouldComplete(row: Row, svc: Service) {
    && svc != Billing
    && row.LaneOf(svc).worker == Called(Success)
    && row.global != Compensating
    && row.LaneOf(Sibling(svc)).status == Success
    && Billed(row)
  }

  function CommitRow(row: Row, svc: Service): Row
    requires row.LaneOf(svc).worker.Called?
  {
    var lane := row.LaneOf(svc);
    var result := lane.worker.result;
    row.WithLane(svc, lane.(status := result, worker := Done))
       .(global := if row.global == Compensating then Compensating
                   else if result != Success then Compensating
                   else if WouldComplete(row, svc) then Completed
                   else row.global)
  }

  function Successes(row: Row): Flags {
    Flags(row.billing.status == Success, row.inventory.status == Success, row.logistics.status == Success)
  }

  function StartRow(row: Row): Row {
    row.(global := Compensating, barrier := true)
  }

  function ReversalRow(row: Row, svc: Service, granted: bool): Row {
    var lane := row.LaneOf(svc);
    row.WithLane(svc, lane.(record := ServiceCall(lane.record, true, granted).0))
  }

  function Merge(lane: Lane, hit: bool): Lane {
    if hit then lane.(status := Compensated) else lane
  }

  function Merged(row: Row, hits: Flags): Row {
    row.(billing := Merge(row.billing, hits.billing),
         inventory := Merge(row.inventory, hits.inventory),
         logistics := Merge(row.logistics, hits.logistics))
  }

  /** The services whose reversal a run saw acknowledged. */
  function Hits(phase: Phase): Flags
    requires phase.Reversing?
  {
    Flags(phase.snapshot.billing && phase.acked.billing,
          phase.snapshot.inventory && phase.acked.inventory,
          phase.snapshot.logistics && phase.acked.logistics)
  }

  /** The final transaction of a compensation run whose reversals of `hits` were
      acknowledged. */
  function MergeRow(row: Row, hits: Flags, retry: nat): Row {
    var merged := Merged(row, hits);
    if !merged.AnyStatus(Success) then merged.(global := GlobalStatus.Cancelled)
    else if retry >= LAST_RETRY then merged.(global := ManualRequired)
    else merged
  }

  // ----- When a step can happen --------------------------------------------

  predicate InFlight(w: Worker) {
    w.Queued? || w.Called? || w.FanningOut?
  }

  /** A forward job can die while it is under way. A request can die before it has
      enqueued billing, and then nothing else happens. */
  predicate CanDie(row: Row, svc: Service, atCommit: bool, up: bool) {
    || (InFlight(row.LaneOf(svc).worker) && (atCommit && svc != Billing ==> !row.Locked()))
    || (svc == Billing && row.billing.worker == NotEnqueued && !atCommit && !up)
  }

  predicate ByCompensation(a: Act) {
    a.CompStart? || a.CompCall? || a.CompMerge? || a.CompRequeue? || a.CompDie?
  }

  predicate RunEnabled(s: Saga, a: Act)
    requires ByCompensation(a)
  {
    && a.run < |s.runs|
    && var phase := s.runs[a.run].phase;
       match a
       case CompStart(_) => phase.Waiting? && !s.row.Locked()
       case CompCall(_, svc, _, _) => phase.Reversing? && phase.todo.Has(svc)
       case CompMerge(_) => phase.Reversing? && phase.todo == NONE && !s.row.Locked()
       case CompRequeue(_, _, _) => phase.Retrying?
       case CompDie(_, atCommit) =>
         Live(s.runs[a.run]) && (atCommit ==> phase.Reversing? && phase.todo == NONE && !s.row.Locked())
  }

  predicate Enabled(s: Saga, t: int, a: Act) {
    && s.clock <= t
    && match a
       case EnqueueBilling => s.row.billing.worker == NotEnqueued
       case CallService(svc, _, _) => s.row.LaneOf(svc).worker == Queued
       case BillingLock => s.row.billing.worker.Called? && s.row.billing.worker.result != Failed
       case FanOut(svc) => svc != Billing && s.row.Locked() && s.row.LaneOf(svc).worker == NotEnqueued
       case BillingCommit =>
         s.row.Locked() && s.row.inventory.worker != NotEnqueued && s.row.logistics.worker != NotEnqueued
       case BillingReject(_) => s.row.billing.worker == Called(Failed)
       case StepCommit(svc, _) => svc != Billing && s.row.LaneOf(svc).worker.Called? && !s.row.Locked()
       case Abort(svc, atCommit, up, _) => CanDie(s.row, svc, atCommit, up)
       case CompStart(_) => RunEnabled(s, a)
       case CompCall(_, _, _, _) => RunEnabled(s, a)
       case CompMerge(_) => RunEnabled(s, a)
       case CompRequeue(_, _, _) => RunEnabled(s, a)
       case CompDie(_, _) => RunEnabled(s, a)
       case PollFetch => s.sessions.poll == Idle && MatchesPoll(s.row, s.updatedAt, t)
       case PollEnqueue(_, _) => s.sessions.poll == Fetched
       case PollCommit => s.sessions.poll.Stamping? && !s.row.Locked()
       case PollDrop => s.sessions.poll.Stamping?
       case DeadRead => MatchesDead(s.row, s.updatedAt, t)
       case DeadWrite => s.sessions.escalations > 0 && !s.row.Locked()
       case DeadDrop(_) => s.sessions.escalations > 0
       case AdminRead => s.row.global == ManualRequired
       case AdminWrite => s.sessions.forceCancels > 0 && !s.row.Locked()
       case AdminDrop => s.sessions.forceCancels > 0
  }

  // ----- What a step does --------------------------------------------------

  function RowAfter(s: Saga, t: int, a: Act): Row
    requires Enabled(s, t, a)
  {
    match a
    case EnqueueBilling => WorkerRow(s.row, Billing, Queued)
    case CallService(svc, granted, delivered) => CallRow(s.row, svc, granted, delivered)
    case BillingLock => WorkerRow(s.row, Billing, FanningOut(s.row.billing.worker.result))
    case FanOut(svc) => WorkerRow(s.row, svc, Queued)
    case BillingCommit => BilledRow(s.row)
    case BillingReject(_) => RejectRow(s.row)
    case StepCommit(svc, _) => CommitRow(s.row, svc)
    case Abort(svc, _, _, _) => WorkerRow(s.row, svc, Dead)
    case CompStart(_) => if s.row.AnyStatus(Pending) then s.row else StartRow(s.row)
    case CompCall(_, svc, granted, _) => ReversalRow(s.row, svc, granted)
    case CompMerge(k) => MergeRow(s.row, Hits(s.runs[k].phase), s.runs[k].retry)
    case DeadWrite => s.row.(global := ManualRequired)
    case AdminWrite => s.row.(global := GlobalStatus.Cancelled, forced := true)
    case _ => s.row
  }

  /** The ORM stamps every UPDATE, and issues one only for changed columns. */
  function UpdatedAfter(s: Saga, t: int, a: Act): int
    requires Enabled(s, t, a)
  {
    match a
    case PollCommit => s.sessions.poll.at
    case CompStart(_) => if s.row.AnyStatus(Pending) then s.updatedAt else t
    case DeadWrite => t
    case AdminWrite => t
    case _ => if s.row.SameColumns(RowAfter(s, t, a)) then s.updatedAt else t
  }

  /** The compensation job a step enqueues without it being a retry. */
  function Dispatched(s: Saga, t: int, a: Act): Option<JobId> {
    match a
    case BillingReject(_) => Some(Fixed)
    case StepCommit(svc, _) =>
      if s.row.global != Compensating && s.row.LaneOf(svc).worker == Called(Failed) then Some(Fixed) else None
    case Abort(_, _, up, _) => if up then Some(Fixed) else None
    case PollEnqueue(delivery, _) => if delivery.Dropped? then None else Some(StampedId(t))
    case _ => None
  }

  function Cached(a: Act): bool {
    match a
    case BillingReject(cached) => cached
    case StepCommit(_, cached) => cached
    case Abort(_, _, _, cached) => cached
    case PollEnqueue(_, cached) => cached
    case CompRequeue(_, _, cached) => cached
    case _ => false
  }

  function WithPhase(runs: seq<Run>, k: nat, phase: Phase): seq<Run>
    requires k < |runs|
  {
    runs[k := runs[k].(phase := phase)]
  }

  function PhaseAfter(s: Saga, t: int, a: Act): Phase
    requires Enabled(s, t, a) && ByCompensation(a)
  {
    var phase := s.runs[a.run].phase;
    match a
    case CompStart(_) =>
      if s.row.AnyStatus(Pending) then Ended else Reversing(Successes(s.row), Successes(s.row), NONE)
    case CompCall(_, svc, granted, delivered) =>
      phase.(todo := phase.todo.With(svc, false),
             acked := if Acked(s.row, svc, true, granted, delivered) then phase.acked.With(svc, true) else phase.acked)
    case CompMerge(_) =>
      if RowAfter(s, t, a).AnyStatus(Success) && s.runs[a.run].retry < LAST_RETRY then Retrying else Ended
    case CompRequeue(_, _, _) => Ended
    case CompDie(_, _) => Ended
  }

  /** The parent's own job is still running while it enqueues its retry. */
  function RunsAfter(s: Saga, t: int, a: Act): seq<Run>
    requires Enabled(s, t, a)
  {
    if ByCompensation(a) then
      var queued := if a.CompRequeue? && a.up then Enqueue(s.runs, StampedId(t), s.runs[a.run].retry + 1, a.cached)
                    else s.runs;
      WithPhase(queued, a.run, PhaseAfter(s, t, a))
    else if Dispatched(s, t, a).Some? then
      Enqueue(s.runs, Dispatched(s, t, a).value, 0, Cached(a))
    else s.runs
  }

  function SessionsAfter(s: Saga, t: int, a: Act): Sessions
    requires Enabled(s, t, a)
  {
    var q := s.sessions;
    match a
    case PollFetch => q.(poll := Fetched)
    case PollEnqueue(delivery, _) => q.(poll := if delivery.Confirmed? then Stamping(t) else Idle)
    case PollCommit => q.(poll := Idle)
    case PollDrop => q.(poll := Idle)
    case DeadRead => q.(escalations := q.escalations + 1)
    case DeadWrite => q.(escalations := q.escalations - 1)
    case DeadDrop(_) => q.(escalations := q.escalations - 1)
    case AdminRead => q.(forceCancels := q.forceCancels + 1)
    case AdminWrite => q.(forceCancels := q.forceCancels - 1)
    case AdminDrop => q.(forceCancels := q.forceCancels - 1)
    case _ => q
  }

  function Bit(b: bool): nat {
    if b then 1 else 0
  }

  /** A step handler reaches `record_final_status_transition` with COMPLETED; the
      counter moves only if the status was another one. */
  predicate Counts(row: Row, a: Act) {
    && ((a.StepCommit? && WouldComplete(row, a.svc)) || (a.Abort? && a.atCommit && WouldComplete(row, a.svc)))
    && row.global != Completed
  }

  /** A run in its final transaction, whether its commit succeeds or not. */
  predicate Finishing(a: Act) {
    a.CompMerge? || (a.CompDie? && a.atCommit)
  }

  /** What that transaction writes, or would. */
  function Outcome(s: Saga, t: int, a: Act): Row
    requires Enabled(s, t, a) && Finishing(a)
  {
    MergeRow(s.row, Hits(s.runs[a.run].phase), s.runs[a.run].retry)
  }

  function CompensatedBy(s: Saga, t: int, a: Act): nat
    requires Enabled(s, t, a)
  {
    Bit(Finishing(a) && s.row.global != GlobalStatus.Cancelled && Outcome(s, t, a).global == GlobalStatus.Cancelled)
  }

  function StuckBy(s: Saga, t: int, a: Act): nat
    requires Enabled(s, t, a)
  {
    if Finishing(a) then Bit(Outcome(s, t, a).AnyStatus(Success) && s.runs[a.run].retry >= LAST_RETRY)
    else Bit(a.DeadWrite? || (a.DeadDrop? && a.counted))
  }

  function LogAfter(s: Saga, a: Act): seq<Call> {
    match a
    case CallService(svc, granted, delivered) =>
      if SkipsBilling(s.row, svc) then s.past.log
      else s.past.log + [Call(svc, false, Acked(s.row, svc, false, granted, delivered))]
    case CompCall(_, svc, granted, delivered) =>
      s.past.log + [Call(svc, true, Acked(s.row, svc, true, granted, delivered))]
    case _ => s.past.log
  }

  function PastAfter(s: Saga, t: int, a: Act): History
    requires Enabled(s, t, a)
  {
    History(
      s.past.broken || (a.CompDie? && s.runs[a.run].phase.Reversing?),
      s.past.dispatched
        + Bit(Dispatched(s, t, a).Some? && !Taken(s.runs, Dispatched(s, t, a).value, Cached(a))),
      s.past.attempted + Bit(a.CompStart? || (a.CompDie? && s.runs[a.run].phase.Waiting?)),
      s.past.counted + Bit(Counts(s.row, a)),
      s.past.compensated + CompensatedBy(s, t, a),
      s.past.stuck + StuckBy(s, t, a),
      s.past.completions + Bit(a.StepCommit? && Counts(s.row, a)),
      if a.PollEnqueue? && !a.delivery.Dropped? then s.past.dispatches + [t] else s.past.dispatches,
      if a.PollEnqueue? && a.delivery.Unconfirmed? then s.past.unstamped + {|s.past.dispatches|}
      else if a.PollDrop? then s.past.unstamped + {|s.past.dispatches| - 1}
      else s.past.unstamped,
      LogAfter(s, a))
  }

  function Apply(s: Saga, t: int, a: Act): Saga
    requires Enabled(s, t, a)
  {
    Saga(RowAfter(s, t, a), UpdatedAfter(s, t, a), RunsAfter(s, t, a), SessionsAfter(s, t, a), t, PastAfter(s, t, a))
  }

  function Next(s: Saga, e: Event): Saga
    requires Enabled(s, e.at, e.act)
  {
    Apply(s, e.at, e.act)
  }

  const FRESH := Lane(Pending, NotEnqueued, Absent, false)

  /** An order as committed by the API, before its billing job is enqueued. */
  function Init(payment: PaymentWay, t: int): Saga {
    Saga(Row(payment, FRESH, FRESH, FRESH, Processing, false, false), t, [], Sessions(Idle, 0, 0), t,
         History(false, 0, 0, 0, 0, 0, 0, [], {}, []))
  }

  // ----- Runs --------------------------------------------------------------

  function Front<T>(events: seq<T>): seq<T>
    requires events != []
  {
    events[..|events| - 1]
  }

  function Last<T>(events: seq<T>): T
    requires events != []
  {
    events[|events| - 1]
  }

  /** `events` can happen, one after the other, from `s` on. */
  ghost predicate Possible(s: Saga, events: seq<Event>)
    decreases |events|, 0
  {
    events == [] ||
    (Possible(s, Front(events)) && Enabled(After(s, Front(events)), Last(events).at, Last(events).act))
  }

  ghost function After(s: Saga, events: seq<Event>): Saga
    requires Possible(s, events)
    decreases |events|, 1
  {
    if events == [] then s else Next(After(s, Front(events)), Last(events))
  }
}
