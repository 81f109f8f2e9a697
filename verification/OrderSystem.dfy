/** All orders together: they share the services and the counters, and any of them may
    take its next step at any time. */
module OrderSystem {
  import opened SagaTypes
  import opened SagaMachine
  import opened SagaTheorems
  import opened CompensationTheorems
  import opened SchedulerTheorems
  import opened MockEnv
  import opened Metrics
  import opened OrderRow
  import opened Handlers
  import opened Scheduler

  // ----- What the orders' histories add up to ------------------------------

  ghost function Pasts(sagas: seq<OrderSaga>): (pasts: seq<History>)
    reads sagas
    ensures |pasts| == |sagas| && forall k :: 0 <= k < |sagas| ==> pasts[k] == sagas[k].shadow.past
  {
    seq(|sagas|, k requires 0 <= k < |sagas| reads sagas => sagas[k].shadow.past)
  }

  function Sum(pasts: seq<History>, weight: History -> nat): nat {
    if pasts == [] then 0 else Sum(pasts[..|pasts| - 1], weight) + weight(pasts[|pasts| - 1])
  }

  function Counted(past: History): nat { past.counted }

  function Compensated(past: History): nat { past.compensated }

  function Stuck(past: History): nat { past.stuck }

  function Attempted(past: History): nat { past.attempted }

  lemma {:induction false} OneMoved(pasts: seq<History>, i: nat, past: History, weight: History -> nat)
    requires i < |pasts|
    ensures Sum(pasts[i := past], weight) == Sum(pasts, weight) + weight(past) - weight(pasts[i])
  {
    var front := pasts[..|pasts| - 1];
    var after := pasts[i := past];
    if i == |pasts| - 1 {
      assert after[..|pasts| - 1] == front;
    } else {
      assert after[..|pasts| - 1] == front[i := past];
      OneMoved(front, i, past, weight);
    }
  }

  /** The counters are what the histories add up to. */
  ghost predicate AddUp(counts: Counts, pasts: seq<History>) {
    && counts.success == Sum(pasts, Counted)
    && counts.compensated == Sum(pasts, Compensated)
    && counts.stuck == Sum(pasts, Stuck)
    && counts.attempted == Sum(pasts, Attempted)
  }

  lemma {:induction false} StillAddUp(counts: Counts, counts': Counts, pasts: seq<History>, i: nat, past: History)
    requires AddUp(counts, pasts) && i < |pasts|
    requires counts'.success - counts.success == past.counted - pasts[i].counted
    requires counts'.compensated - counts.compensated == past.compensated - pasts[i].compensated
    requires counts'.stuck - counts.stuck == past.stuck - pasts[i].stuck
    requires counts'.attempted - counts.attempted == past.attempted - pasts[i].attempted
    ensures AddUp(counts', pasts[i := past])
  {
    OneMoved(pasts, i, past, Counted);
    OneMoved(pasts, i, past, Compensated);
    OneMoved(pasts, i, past, Stuck);
    OneMoved(pasts, i, past, Attempted);
  }

  // ----- The system --------------------------------------------------------

  /** One object and one id per order. */
  ghost predicate Separate(sagas: seq<OrderSaga>) {
    Distinct(sagas)
    && forall i, j :: 0 <= i < j < |sagas| ==> sagas[i].order.id != sagas[j].order.id
  }

  lemma {:induction false} OneMore(sagas: seq<OrderSaga>, saga: OrderSaga)
    requires Separate(sagas)
    requires forall s :: s in sagas ==> s != saga && s.order != saga.order && s.order.id != saga.order.id
    ensures Separate(sagas + [saga])
  {
    var more := sagas + [saga];
    forall i, j | 0 <= i < j < |more|
      ensures more[i] != more[j] && more[i].order != more[j].order && more[i].order.id != more[j].order.id
    {
      assert more[i] == sagas[i] && more[i] in sagas;
    }
  }

  ghost predicate Sharing(sagas: seq<OrderSaga>, services: Services, counters: Counters) {
    forall s :: s in sagas ==> s.services == services && s.counters == counters
  }

  /** An order's row changes only with its own objects and records. */
  lemma SameRecords(saga: OrderSaga, db: Records, db': Records)
    requires forall svc: Service :: RecordIn(db', svc, saga.order.id) == RecordIn(db, svc, saga.order.id)
    ensures saga.RowIn(db') == saga.RowIn(db)
  {
  }

  class OrderSystem {
    const services: Services
    const counters: Counters
    var sagas: seq<OrderSaga>

    ghost predicate AllValid()
      reads this, sagas, Orders(sagas), services
    {
      && Separate(sagas) && Sharing(sagas, services, counters) && services.Valid()
      && forall s :: s in sagas ==> s.order in Orders(sagas) && s.services == services && s.Valid()
    }

    ghost predicate Tally()
      reads this, sagas, counters
    {
      AddUp(counters.All(), Pasts(sagas))
    }

    ghost predicate Valid()
      reads this, sagas, Orders(sagas), services, counters
    {
      AllValid() && Tally()
    }

    constructor (services: Services, counters: Counters)
      requires services.Valid() && counters.All() == Counts(0, 0, 0, 0)
      ensures Valid() && sagas == [] && this.services == services && this.counters == counters
    {
      this.services, this.counters, sagas := services, counters, [];
    }

    /** A new order is committed. */
    method Accept(order: Order, now: int)
      requires Valid() && order.Stores(Init(order.paymentType, now).row) && order.updatedAt == now
      requires forall s :: s in sagas ==> s.order != order && s.order.id != order.id
      requires forall svc: Service :: RecordIn(services.db, svc, order.id) == Absent
      modifies this
      ensures Valid() && |sagas| == |old(sagas)| + 1 && sagas[..|old(sagas)|] == old(sagas)
      ensures sagas[|old(sagas)|].order == order
      ensures sagas[|old(sagas)|].State() == Init(order.paymentType, now)
    {
      var saga := new OrderSaga(order, services, counters, now);
      Add(saga);
    }

    method Add(saga: OrderSaga)
      requires Valid() && saga.services == services && saga.counters == counters && saga.Valid()
      requires forall s :: s in sagas ==> s != saga && s.order != saga.order && s.order.id != saga.order.id
      requires saga.shadow.past == Init(saga.order.paymentType, 0).past
      modifies this`sagas
      ensures Valid() && sagas == old(sagas) + [saga]
    {
      ghost var pasts := Pasts(sagas);
      OneMore(sagas, saga);
      sagas := sagas + [saga];
      assert Pasts(sagas)[..|pasts|] == pasts;
    }

    /** Any order takes any step that it can take, and the others stay as they are. */
    method Perform(i: nat, now: int, a: Act)
      requires Valid() && i < |sagas| && Enabled(sagas[i].State(), now, a)
      modifies sagas[i], sagas[i].order, services, counters
      ensures Valid()
      ensures sagas[i].State() == Next(old(sagas[i].State()), Event(now, a))
      ensures forall k :: 0 <= k < |sagas| && k != i ==> sagas[k].State() == old(sagas[k].State())
    {
      ghost var pasts, counts := Pasts(sagas), counters.All();
      Move(i, now, a);
      assert Pasts(sagas) == pasts[i := sagas[i].shadow.past];
      StillAddUp(counts, counters.All(), pasts, i, sagas[i].shadow.past);
    }

    method Move(i: nat, now: int, a: Act)
      requires AllValid() && i < |sagas| && Enabled(sagas[i].State(), now, a)
      modifies sagas[i], sagas[i].order, services, counters
      ensures AllValid() && sagas[i].Tallied(old(counters.All()), old(sagas[i].State()))
      ensures sagas[i].State() == Next(old(sagas[i].State()), Event(now, a))
      ensures forall k :: 0 <= k < |sagas| && k != i ==>
                sagas[k].State() == old(sagas[k].State()) && sagas[k].shadow == old(sagas[k].shadow)
    {
      ghost var db := services.db;
      DistinctFrom(sagas, i);
      sagas[i].Perform(now, a);
      forall k | 0 <= k < |sagas| && k != i
        ensures sagas[k].Valid() && sagas[k].State() == old(sagas[k].State())
      {
        assert sagas[k] in sagas && sagas[i] in sagas;
        assert sagas[k].order.id != sagas[i].order.id;
        var id := sagas[k].order.id;
        assert forall svc: Service :: RecordIn(services.db, svc, id) == RecordIn(db, svc, id);
        SameRecords(sagas[k], db, services.db);
      }
    }
  }

  // ----- What the counters say ---------------------------------------------

  lemma RunOf(s: Saga) returns (run: OrderRun)
    requires Reachable(s)
    ensures run.Happened() && run.End() == s
  {
    ReachableExactly(s);
    var payment, t, events :| Possible(Init(payment, t), events) && s == After(Init(payment, t), events);
    run := OrderRun(payment, t, events);
  }

  lemma {:induction false} RunsOf(sagas: seq<OrderSaga>) returns (runs: seq<OrderRun>)
    requires forall s :: s in sagas ==> s.Valid()
    ensures |runs| == |sagas| && AllHappened(runs)
    ensures forall k :: 0 <= k < |sagas| ==> runs[k].End() == sagas[k].State()
  {
    runs := [];
    if sagas != [] {
      var front := sagas[..|sagas| - 1];
      var before := RunsOf(front);
      var last := sagas[|sagas| - 1];
      assert last in sagas && last.Valid();
      var run := RunOf(last.State());
      runs := before + [run];
    }
  }

  /** The histories belong to these runs. */
  ghost predicate Tells(pasts: seq<History>, runs: seq<OrderRun>) {
    && |pasts| == |runs| && AllHappened(runs)
    && forall k :: 0 <= k < |runs| ==> pasts[k] == runs[k].End().past
  }

  lemma {:induction false} TotalsTell(pasts: seq<History>, runs: seq<OrderRun>)
    requires Tells(pasts, runs)
    ensures Sum(pasts, Counted) == SumOf(runs, CompletionsOf) + SumOf(runs, MiscountsOf)
    ensures Sum(pasts, Compensated) == SumOf(runs, CancellationsOf)
    ensures Sum(pasts, Stuck) == SumOf(runs, HandOversOf)
    ensures Sum(pasts, Attempted) <= 5 * SumOf(runs, DispatchesOf)
  {
    if runs != [] {
      var front, last := runs[..|runs| - 1], runs[|runs| - 1];
      assert Tells(pasts[..|pasts| - 1], front);
      TotalsTell(pasts[..|pasts| - 1], front);
      SuccessCounter(last.payment, last.start, last.events);
      OtherCounters(last.payment, last.start, last.events);
      RunAttempts(last);
    }
  }

  lemma RunAttempts(run: OrderRun)
    requires run.Happened()
    ensures run.End().past.attempted <= 5 * run.End().past.dispatched
  {
    ReachableInit(run.payment, run.start);
    ReachableAfter(Init(run.payment, run.start), run.events);
    AttemptsBounded(run.End());
  }

  /** Whatever the orders have done so far: "success" is the number of orders that were
      ever COMPLETED plus the number whose handler counted and then died in its commit;
      "compensated" is the number of merges into CANCELLED and "stuck" that of
      handovers to an operator, committed or not; and "compensation_attempted" is at
      most five per compensation job that was accepted other than as a retry. */
  lemma CountersTell(system: OrderSystem) returns (runs: seq<OrderRun>)
    requires system.Valid()
    ensures |runs| == |system.sagas| && AllHappened(runs)
    ensures forall k :: 0 <= k < |runs| ==> runs[k].End() == system.sagas[k].State()
    ensures system.counters.success == SumOf(runs, CompletionsOf) + SumOf(runs, MiscountsOf)
    ensures system.counters.compensated == SumOf(runs, CancellationsOf)
    ensures system.counters.stuck == SumOf(runs, HandOversOf)
    ensures system.counters.attempted <= 5 * SumOf(runs, DispatchesOf)
  {
    runs := RunsOf(system.sagas);
    TotalsTell(Pasts(system.sagas), runs);
  }
}
