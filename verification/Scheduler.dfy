/** The scheduler's passes over the table, each cut at its session boundaries. A pass
    takes the same step of every order that it has found. */
module Scheduler {
  import opened SagaTypes
  import opened SagaMachine
  import opened OrderRow
  import opened Metrics
  import opened Handlers

  /** One object per order. */
  ghost predicate Distinct(sagas: seq<OrderSaga>) {
    forall i, j :: 0 <= i < j < |sagas| ==> sagas[i] != sagas[j] && sagas[i].order != sagas[j].order
  }

  ghost function Orders(sagas: seq<OrderSaga>): set<Order> {
    set s | s in sagas :: s.order
  }

  lemma {:induction false} DistinctFrom(sagas: seq<OrderSaga>, i: nat)
    requires Distinct(sagas) && i < |sagas|
    ensures forall k :: 0 <= k < |sagas| && k != i ==> sagas[k] != sagas[i] && sagas[k].order != sagas[i].order
  {
  }

  lemma {:induction false} DistinctAppend(sagas: seq<OrderSaga>, i: nat, chosen: seq<OrderSaga>)
    requires Distinct(sagas) && i < |sagas| && Distinct(chosen)
    requires forall s :: s in chosen ==> s in sagas[..i]
    ensures Distinct(chosen + [sagas[i]])
  {
    DistinctFrom(sagas, i);
    forall k | 0 <= k < |chosen|
      ensures chosen[k] != sagas[i] && chosen[k].order != sagas[i].order
    {
      assert chosen[k] in sagas[..i];
    }
  }

  // ----- poll_and_dispatch_orders ------------------------------------------

  /** `get_stuck_orders_for_compensation`: exactly the orders that match, in order. */
  method SelectStuck(sagas: seq<OrderSaga>, now: int) returns (stuck: seq<OrderSaga>)
    requires Distinct(sagas)
    ensures forall s :: s in stuck <==> s in sagas && MatchesPoll(s.State().row, s.State().updatedAt, now)
    ensures forall s :: s in stuck ==> s.order.updatedAt + 60_000_000 < now
    ensures Distinct(stuck)
  {
    stuck := [];
    for i := 0 to |sagas|
      invariant forall s :: s in stuck <==> s in sagas[..i] && MatchesPoll(s.State().row, s.State().updatedAt, now)
      invariant Distinct(stuck)
    {
      assert sagas[..i + 1] == sagas[..i] + [sagas[i]];
      if sagas[i].IsStuck(now) {
        DistinctAppend(sagas, i, stuck);
        stuck := stuck + [sagas[i]];
      }
    }
    assert sagas[..|sagas|] == sagas;
  }

  method FetchOne(stuck: seq<OrderSaga>, i: nat, now: int)
    requires Distinct(stuck) && i < |stuck|
    requires stuck[i].Valid() && Enabled(stuck[i].State(), now, PollFetch)
    modifies stuck[i]
    ensures stuck[i].Valid() && stuck[i].State() == Next(old(stuck[i].State()), Event(now, PollFetch))
    ensures forall k :: 0 <= k < |stuck| && k != i ==>
              stuck[k].Valid() == old(stuck[k].Valid()) && stuck[k].State() == old(stuck[k].State())
  {
    DistinctFrom(stuck, i);
    stuck[i].Fetch(now);
  }

  /** The poll's session now holds these orders. */
  method Fetch(stuck: seq<OrderSaga>, now: int)
    requires Distinct(stuck)
    requires forall k :: 0 <= k < |stuck| ==> stuck[k].Valid() && Enabled(stuck[k].State(), now, PollFetch)
    modifies stuck
    ensures forall k :: 0 <= k < |stuck| ==>
              stuck[k].Valid() && stuck[k].State() == Next(old(stuck[k].State()), Event(now, PollFetch))
  {
    for i := 0 to |stuck|
      invariant forall k :: 0 <= k < i ==>
        stuck[k].Valid() && stuck[k].State() == Next(old(stuck[k].State()), Event(now, PollFetch))
      invariant forall k :: i <= k < |stuck| ==> stuck[k].Valid() && stuck[k].State() == old(stuck[k].State())
    {
      FetchOne(stuck, i, now);
    }
  }

  method DispatchOne(stuck: seq<OrderSaga>, i: nat, now: int, delivery: Delivery, cached: bool)
    requires Distinct(stuck) && i < |stuck|
    requires stuck[i].Valid() && Enabled(stuck[i].State(), now, PollEnqueue(delivery, cached))
    modifies stuck[i]
    ensures stuck[i].Valid()
    ensures stuck[i].State() == Next(old(stuck[i].State()), Event(now, PollEnqueue(delivery, cached)))
    ensures forall k :: 0 <= k < |stuck| && k != i ==>
              stuck[k].Valid() == old(stuck[k].Valid()) && stuck[k].State() == old(stuck[k].State())
  {
    DistinctFrom(stuck, i);
    stuck[i].DispatchCompensation(now, delivery, cached);
  }

  /** The loop: one job per fetched order, and a time stamp to commit for each order
      whose enqueue went through. */
  method DispatchStuck(stuck: seq<OrderSaga>, now: int, deliveries: seq<Delivery>, cached: seq<bool>)
    requires Distinct(stuck) && |deliveries| == |cached| == |stuck|
    requires forall k :: 0 <= k < |stuck| ==>
               stuck[k].Valid() && Enabled(stuck[k].State(), now, PollEnqueue(deliveries[k], cached[k]))
    modifies stuck
    ensures forall k :: 0 <= k < |stuck| ==>
              && stuck[k].Valid()
              && stuck[k].State() == Next(old(stuck[k].State()), Event(now, PollEnqueue(deliveries[k], cached[k])))
  {
    for i := 0 to |stuck|
      invariant forall k :: 0 <= k < i ==>
        && stuck[k].Valid()
        && stuck[k].State() == Next(old(stuck[k].State()), Event(now, PollEnqueue(deliveries[k], cached[k])))
      invariant forall k :: i <= k < |stuck| ==> stuck[k].Valid() && stuck[k].State() == old(stuck[k].State())
    {
      DispatchOne(stuck, i, now, deliveries[i], cached[i]);
    }
  }

  method CommitOne(sent: seq<OrderSaga>, i: nat, now: int)
    requires Distinct(sent) && i < |sent|
    requires sent[i].Valid() && Enabled(sent[i].State(), now, PollCommit)
    modifies sent[i], sent[i].order
    ensures sent[i].Valid() && sent[i].State() == Next(old(sent[i].State()), Event(now, PollCommit))
    ensures forall k :: 0 <= k < |sent| && k != i ==>
              sent[k].Valid() == old(sent[k].Valid()) && sent[k].State() == old(sent[k].State())
  {
    DistinctFrom(sent, i);
    sent[i].CommitDispatch(now);
  }

  /** The commit of the poll's session, for the orders that were enqueued. */
  method CommitPoll(sent: seq<OrderSaga>, now: int)
    requires Distinct(sent)
    requires forall k :: 0 <= k < |sent| ==> sent[k].Valid() && Enabled(sent[k].State(), now, PollCommit)
    modifies sent, Orders(sent)
    ensures forall k :: 0 <= k < |sent| ==>
              sent[k].Valid() && sent[k].State() == Next(old(sent[k].State()), Event(now, PollCommit))
  {
    for i := 0 to |sent|
      invariant forall k :: 0 <= k < i ==>
        sent[k].Valid() && sent[k].State() == Next(old(sent[k].State()), Event(now, PollCommit))
      invariant forall k :: i <= k < |sent| ==> sent[k].Valid() && sent[k].State() == old(sent[k].State())
    {
      CommitOne(sent, i, now);
    }
  }

  // ----- check_and_alert_dead_orders ---------------------------------------

  /** Its query. */
  method SelectDead(sagas: seq<OrderSaga>, now: int) returns (dead: seq<OrderSaga>)
    requires Distinct(sagas)
    ensures forall s :: s in dead <==> s in sagas && MatchesDead(s.State().row, s.State().updatedAt, now)
    ensures forall s :: s in dead <==>
              s in sagas && s.order.globalStatus == Compensating && s.order.updatedAt + 3_600_000_000 < now
    ensures Distinct(dead)
  {
    dead := [];
    for i := 0 to |sagas|
      invariant forall s :: s in dead <==> s in sagas[..i] && MatchesDead(s.State().row, s.State().updatedAt, now)
      invariant Distinct(dead)
    {
      assert sagas[..i + 1] == sagas[..i] + [sagas[i]];
      if sagas[i].IsDead(now) {
        DistinctAppend(sagas, i, dead);
        dead := dead + [sagas[i]];
      }
    }
    assert sagas[..|sagas|] == sagas;
  }

  method FetchDeadOne(dead: seq<OrderSaga>, i: nat, now: int)
    requires Distinct(dead) && i < |dead|
    requires dead[i].Valid() && Enabled(dead[i].State(), now, DeadRead)
    modifies dead[i]
    ensures dead[i].Valid() && dead[i].State() == Next(old(dead[i].State()), Event(now, DeadRead))
    ensures forall k :: 0 <= k < |dead| && k != i ==>
              dead[k].Valid() == old(dead[k].Valid()) && dead[k].State() == old(dead[k].State())
  {
    DistinctFrom(dead, i);
    dead[i].FetchDead(now);
  }

  /** The check's session now holds these orders. */
  method FetchDead(dead: seq<OrderSaga>, now: int)
    requires Distinct(dead)
    requires forall k :: 0 <= k < |dead| ==> dead[k].Valid() && Enabled(dead[k].State(), now, DeadRead)
    modifies dead
    ensures forall k :: 0 <= k < |dead| ==>
              dead[k].Valid() && dead[k].State() == Next(old(dead[k].State()), Event(now, DeadRead))
  {
    for i := 0 to |dead|
      invariant forall k :: 0 <= k < i ==>
        dead[k].Valid() && dead[k].State() == Next(old(dead[k].State()), Event(now, DeadRead))
      invariant forall k :: i <= k < |dead| ==> dead[k].Valid() && dead[k].State() == old(dead[k].State())
    {
      FetchDeadOne(dead, i, now);
    }
  }

  method EscalateOne(dead: seq<OrderSaga>, i: nat, counters: Counters, now: int)
    requires Distinct(dead) && i < |dead| && dead[i].counters == counters
    requires dead[i].Valid() && Enabled(dead[i].State(), now, DeadWrite)
    modifies dead[i], dead[i].order, counters
    ensures dead[i].Valid() && dead[i].State() == Next(old(dead[i].State()), Event(now, DeadWrite))
    ensures forall k :: 0 <= k < |dead| && k != i ==>
              dead[k].Valid() == old(dead[k].Valid()) && dead[k].State() == old(dead[k].State())
    ensures counters.All() == old(counters.All()).(stuck := old(counters.stuck) + 1)
  {
    DistinctFrom(dead, i);
    dead[i].Escalate(now);
  }

  /** Its loop and commit: every fetched order goes to MANUAL, whatever has become of
      it meanwhile, and each counts as stuck once. */
  method EscalateDead(dead: seq<OrderSaga>, counters: Counters, now: int)
    requires Distinct(dead)
    requires forall k :: 0 <= k < |dead| ==> dead[k].Valid() && Enabled(dead[k].State(), now, DeadWrite)
    requires forall s :: s in dead ==> s.counters == counters
    modifies dead, Orders(dead), counters
    ensures forall k :: 0 <= k < |dead| ==>
              dead[k].Valid() && dead[k].State() == Next(old(dead[k].State()), Event(now, DeadWrite))
    ensures counters.All() == old(counters.All()).(stuck := old(counters.stuck) + |dead|)
  {
    for i := 0 to |dead|
      invariant forall k :: 0 <= k < i ==>
        dead[k].Valid() && dead[k].State() == Next(old(dead[k].State()), Event(now, DeadWrite))
      invariant forall k :: i <= k < |dead| ==> dead[k].Valid() && dead[k].State() == old(dead[k].State())
      invariant counters.All() == old(counters.All()).(stuck := old(counters.stuck) + i)
    {
      EscalateOne(dead, i, counters, now);
    }
  }
}
