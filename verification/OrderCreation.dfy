/** Bulk creation of orders: idempotent by key, also between racing requests. */
module OrderCreation {
  import opened SagaTypes

  datatype OrderData = OrderData(key: string, goodId: int, payment: PaymentWay, quantity: nat)

  datatype StoredOrder = StoredOrder(id: nat, data: OrderData)

  /** A conflict is a violated unique constraint; the request then fails as a whole. */
  datatype Outcome = Conflict | Created(saved: seq<StoredOrder>, existing: seq<StoredOrder>)

  // ----- What a request does -----------------------------------------------

  predicate HasKey(orders: seq<StoredOrder>, key: string) {
    exists i :: 0 <= i < |orders| && orders[i].data.key == key
  }

  predicate Requested(data: seq<OrderData>, key: string) {
    exists i :: 0 <= i < |data| && data[i].key == key
  }

  /** The unique constraint on `idempotency_key`, and the numbering of rows. */
  ghost predicate TableOk(orders: seq<StoredOrder>) {
    && (forall i, j :: 0 <= i < j < |orders| ==> orders[i].data.key != orders[j].data.key)
    && (forall i :: 0 <= i < |orders| ==> orders[i].id == i)
  }

  /** `SELECT ... WHERE idempotency_key IN (keys)`. */
  function Select(orders: seq<StoredOrder>, data: seq<OrderData>): seq<StoredOrder> {
    if orders == [] then []
    else
      var last := orders[|orders| - 1];
      Select(orders[..|orders| - 1], data) + if Requested(data, last.data.key) then [last] else []
  }

  /** The orders of a request that are not among the existing ones. */
  function Fresh(data: seq<OrderData>, existing: seq<StoredOrder>): seq<OrderData> {
    if data == [] then []
    else
      var last := data[|data| - 1];
      Fresh(data[..|data| - 1], existing) + if HasKey(existing, last.key) then [] else [last]
  }

  function Rows(data: seq<OrderData>, first: nat): seq<StoredOrder> {
    seq(|data|, i requires 0 <= i < |data| => StoredOrder(first + i, data[i]))
  }

  ghost predicate DistinctKeys(data: seq<OrderData>) {
    forall i, j :: 0 <= i < j < |data| ==> data[i].key != data[j].key
  }

  /** The flush goes through if the constraint holds of the rows as they are then. */
  ghost predicate Insertable(orders: seq<StoredOrder>, novel: seq<OrderData>) {
    DistinctKeys(novel) && forall i :: 0 <= i < |novel| ==> !HasKey(orders, novel[i].key)
  }

  /** A request that read the existing orders when the table had `seen` rows and
      writes when it has these. */
  ghost function Persisted(orders: seq<StoredOrder>, data: seq<OrderData>, seen: nat): seq<StoredOrder>
    requires seen <= |orders|
  {
    var novel := Fresh(data, Select(orders[..seen], data));
    if Insertable(orders, novel) then orders + Rows(novel, |orders|) else orders
  }

  // ----- Selection and partition -------------------------------------------

  lemma {:induction false} SelectExactly(orders: seq<StoredOrder>, data: seq<OrderData>, o: StoredOrder)
    ensures o in Select(orders, data) <==> o in orders && Requested(data, o.data.key)
  {
    if orders == [] {
    } else {
      var front := orders[..|orders| - 1];
      SelectExactly(front, data, o);
      assert orders == front + [orders[|orders| - 1]];
    }
  }

  lemma {:induction false} SelectHasKey(orders: seq<StoredOrder>, data: seq<OrderData>, key: string)
    ensures HasKey(Select(orders, data), key) <==> HasKey(orders, key) && Requested(data, key)
  {
    var chosen := Select(orders, data);
    if HasKey(chosen, key) {
      var i :| 0 <= i < |chosen| && chosen[i].data.key == key;
      SelectExactly(orders, data, chosen[i]);
      var j :| 0 <= j < |orders| && orders[j] == chosen[i];
    }
    if HasKey(orders, key) && Requested(data, key) {
      var i :| 0 <= i < |orders| && orders[i].data.key == key;
      SelectExactly(orders, data, orders[i]);
      var j :| 0 <= j < |chosen| && chosen[j] == orders[i];
    }
  }

  lemma {:induction false} FreshExactly(data: seq<OrderData>, existing: seq<StoredOrder>, d: OrderData)
    ensures d in Fresh(data, existing) <==> d in data && !HasKey(existing, d.key)
  {
    if data == [] {
    } else {
      var front := data[..|data| - 1];
      FreshExactly(front, existing, d);
      assert data == front + [data[|data| - 1]];
    }
  }

  lemma {:induction false} FreshRequested(data: seq<OrderData>, existing: seq<StoredOrder>, key: string)
    ensures Requested(Fresh(data, existing), key) <==> Requested(data, key) && !HasKey(existing, key)
  {
    var novel := Fresh(data, existing);
    if Requested(novel, key) {
      var i :| 0 <= i < |novel| && novel[i].key == key;
      FreshExactly(data, existing, novel[i]);
      var j :| 0 <= j < |data| && data[j] == novel[i];
    }
    if Requested(data, key) && !HasKey(existing, key) {
      var i :| 0 <= i < |data| && data[i].key == key;
      FreshExactly(data, existing, data[i]);
      var j :| 0 <= j < |novel| && novel[j] == data[i];
    }
  }

  lemma {:induction false} RowsHaveKeys(data: seq<OrderData>, first: nat, key: string)
    ensures HasKey(Rows(data, first), key) <==> Requested(data, key)
  {
    var rows := Rows(data, first);
    if Requested(data, key) {
      var i :| 0 <= i < |data| && data[i].key == key;
      assert rows[i].data.key == key;
    }
    if HasKey(rows, key) {
      var i :| 0 <= i < |rows| && rows[i].data.key == key;
      assert data[i].key == key;
    }
  }

  /** These are, in order, the entries at these positions: all those whose key was not
      there. */
  ghost predicate Picked(novel: seq<OrderData>, data: seq<OrderData>, read: seq<StoredOrder>, at: seq<nat>) {
    && |at| == |novel|
    && (forall i, j :: 0 <= i < j < |at| ==> at[i] < at[j])
    && (forall i :: 0 <= i < |at| ==> at[i] < |data| && novel[i] == data[at[i]])
    && (forall j :: 0 <= j < |data| ==> (j in at <==> !HasKey(read, data[j].key)))
  }

  /** These rows hold the picked entries, numbered from `first`. */
  ghost predicate SavedFrom(saved: seq<StoredOrder>, data: seq<OrderData>, read: seq<StoredOrder>, first: nat,
                            at: seq<nat>)
  {
    && (forall i :: 0 <= i < |saved| ==> saved[i].id == first + i)
    && Picked(seq(|saved|, i requires 0 <= i < |saved| => saved[i].data), data, read, at)
  }

  lemma {:induction false} PickedSkip(novel: seq<OrderData>, data: seq<OrderData>, read: seq<StoredOrder>,
                                      at: seq<nat>, d: OrderData)
    requires Picked(novel, data, read, at) && HasKey(read, d.key)
    ensures Picked(novel, data + [d], read, at)
  {
    assert forall i :: 0 <= i < |at| ==> at[i] < |data|;
  }

  lemma {:induction false} PickedMore(novel: seq<OrderData>, data: seq<OrderData>, read: seq<StoredOrder>,
                                      at: seq<nat>, d: OrderData)
    requires Picked(novel, data, read, at) && !HasKey(read, d.key)
    ensures Picked(novel + [d], data + [d], read, at + [|data|])
  {
    var more := at + [|data|];
    forall j | 0 <= j < |data + [d]|
      ensures j in more <==> !HasKey(read, (data + [d])[j].key)
    {
      assert j in more <==> j in at || j == |data|;
    }
  }

  lemma {:induction false} FreshPicked(data: seq<OrderData>, read: seq<StoredOrder>, existing: seq<StoredOrder>)
      returns (at: seq<nat>)
    requires forall j :: 0 <= j < |data| ==> (HasKey(existing, data[j].key) <==> HasKey(read, data[j].key))
    ensures Picked(Fresh(data, existing), data, read, at)
  {
    if data == [] {
      at := [];
    } else {
      var front := data[..|data| - 1];
      var last := data[|data| - 1];
      assert forall j :: 0 <= j < |front| ==> front[j] == data[j];
      at := FreshPicked(front, read, existing);
      assert data == front + [last];
      if HasKey(existing, last.key) {
        PickedSkip(Fresh(front, existing), front, read, at, last);
        assert Fresh(data, existing) == Fresh(front, existing);
      } else {
        PickedMore(Fresh(front, existing), front, read, at, last);
        at := at + [|front|];
      }
    }
  }

  /** Each saved row holds its own entry of the request: the entries whose key was not
      stored at the read, all of them and in their order. */
  lemma {:induction false} SavedAsRequested(orders: seq<StoredOrder>, data: seq<OrderData>, first: nat)
      returns (at: seq<nat>)
    ensures SavedFrom(Rows(Fresh(data, Select(orders, data)), first), data, orders, first, at)
  {
    forall j | 0 <= j < |data|
      ensures HasKey(Select(orders, data), data[j].key) <==> HasKey(orders, data[j].key)
    {
      SelectHasKey(orders, data, data[j].key);
    }
    var novel := Fresh(data, Select(orders, data));
    at := FreshPicked(data, orders, Select(orders, data));
    var saved := Rows(novel, first);
    assert seq(|saved|, i requires 0 <= i < |saved| => saved[i].data) == novel;
  }

  /** Saved and existing orders together have exactly the requested keys, and no key
      in common. */
  lemma {:induction false} Partition(orders: seq<StoredOrder>, data: seq<OrderData>, first: nat, key: string)
    ensures var existing := Select(orders, data);
            var saved := Rows(Fresh(data, existing), first);
            && (HasKey(saved, key) || HasKey(existing, key) <==> Requested(data, key))
            && !(HasKey(saved, key) && HasKey(existing, key))
  {
    var existing := Select(orders, data);
    SelectHasKey(orders, data, key);
    FreshRequested(data, existing, key);
    RowsHaveKeys(Fresh(data, existing), first, key);
  }

  // ----- One commit --------------------------------------------------------

  /** However requests race, the keys stay unique and rows are only added. */
  lemma {:induction false} PersistKeepsTable(orders: seq<StoredOrder>, data: seq<OrderData>, seen: nat)
    requires TableOk(orders) && seen <= |orders|
    ensures TableOk(Persisted(orders, data, seen))
    ensures orders <= Persisted(orders, data, seen)
  {
    var novel := Fresh(data, Select(orders[..seen], data));
    var table := Persisted(orders, data, seen);
    if Insertable(orders, novel) {
      forall i, j | 0 <= i < j < |table|
        ensures table[i].data.key != table[j].data.key
      {
        if j >= |orders| && i < |orders| {
          assert !HasKey(orders, novel[j - |orders|].key);
        }
      }
    }
  }

  lemma {:induction false} HasKeyMonotone(orders: seq<StoredOrder>, more: seq<StoredOrder>, key: string)
    requires orders <= more && HasKey(orders, key)
    ensures HasKey(more, key)
  {
    var i :| 0 <= i < |orders| && orders[i].data.key == key;
    assert more[i].data.key == key;
  }

  lemma {:induction false} KeyStored(orders: seq<StoredOrder>, data: seq<OrderData>, seen: nat, key: string)
    requires seen <= |orders| && Requested(data, key)
    requires Insertable(orders, Fresh(data, Select(orders[..seen], data)))
    ensures HasKey(Persisted(orders, data, seen), key)
  {
    var existing := Select(orders[..seen], data);
    var after := Persisted(orders, data, seen);
    Partition(orders[..seen], data, |orders|, key);
    if HasKey(existing, key) {
      SelectHasKey(orders[..seen], data, key);
      HasKeyMonotone(orders[..seen], after, key);
    } else {
      var saved := Rows(Fresh(data, existing), |orders|);
      var i :| 0 <= i < |saved| && saved[i].data.key == key;
      assert after[|orders| + i].data.key == key;
    }
  }

  /** Two orders of the request have the same key, and it is not stored. */
  ghost predicate Repeats(orders: seq<StoredOrder>, data: seq<OrderData>) {
    exists i, j :: 0 <= i < j < |data| && data[i].key == data[j].key && !HasKey(orders, data[i].key)
  }

  /** A requested key was stored after the request had read the table. */
  ghost predicate Overtaken(orders: seq<StoredOrder>, data: seq<OrderData>, seen: nat)
    requires seen <= |orders|
  {
    exists i :: 0 <= i < |data| && HasKey(orders, data[i].key) && !HasKey(orders[..seen], data[i].key)
  }

  /** A request fails exactly if it repeats a key that was not stored when it read
      the table, or if another request has stored one of its keys since. Then it
      stores nothing at all. */
  lemma {:induction false} FailsExactly(orders: seq<StoredOrder>, data: seq<OrderData>, seen: nat)
    requires seen <= |orders|
    ensures !Insertable(orders, Fresh(data, Select(orders[..seen], data))) <==>
              Repeats(orders[..seen], data) || Overtaken(orders, data, seen)
    ensures Repeats(orders[..seen], data) || Overtaken(orders, data, seen) ==> Persisted(orders, data, seen) == orders
  {
    var read := orders[..seen];
    var existing := Select(read, data);
    var novel := Fresh(data, existing);
    forall i | 0 <= i < |data|
      ensures HasKey(existing, data[i].key) <==> HasKey(read, data[i].key)
    {
      SelectHasKey(read, data, data[i].key);
    }
    RepeatedKeys(read, data, existing);
    if Overtaken(orders, data, seen) {
      var i :| 0 <= i < |data| && HasKey(orders, data[i].key) && !HasKey(read, data[i].key);
      FreshExactly(data, existing, data[i]);
      var j :| 0 <= j < |novel| && novel[j] == data[i];
      assert HasKey(orders, novel[j].key);
    }
    if j :| 0 <= j < |novel| && HasKey(orders, novel[j].key) {
      FreshExactly(data, existing, novel[j]);
      var i :| 0 <= i < |data| && data[i] == novel[j];
      assert HasKey(orders, data[i].key) && !HasKey(read, data[i].key);
    }
  }

  /** So a request that runs undisturbed fails exactly if it repeats a key that is
      not stored yet. */
  lemma {:induction false} UndisturbedFailsExactly(orders: seq<StoredOrder>, data: seq<OrderData>)
    ensures !Insertable(orders, Fresh(data, Select(orders, data))) <==> Repeats(orders, data)
  {
    assert orders[..|orders|] == orders;
    FailsExactly(orders, data, |orders|);
  }

  lemma {:induction false} RepeatedKeys(orders: seq<StoredOrder>, data: seq<OrderData>, existing: seq<StoredOrder>)
    requires forall i :: 0 <= i < |data| ==> (HasKey(existing, data[i].key) <==> HasKey(orders, data[i].key))
    ensures !DistinctKeys(Fresh(data, existing)) <==> Repeats(orders, data)
  {
    if data == [] {
    } else {
      var front := data[..|data| - 1];
      var last := data[|data| - 1];
      assert forall i :: 0 <= i < |front| ==> front[i] == data[i];
      RepeatedKeys(orders, front, existing);
      FreshRequested(front, existing, last.key);
      RepeatsInFront(orders, data);
      DistinctSnoc(Fresh(front, existing), last);
      assert Fresh(front, existing) + [] == Fresh(front, existing);
    }
  }

  lemma {:induction false} DistinctSnoc(novel: seq<OrderData>, d: OrderData)
    ensures DistinctKeys(novel + [d]) <==> DistinctKeys(novel) && !Requested(novel, d.key)
  {
    var all := novel + [d];
    if DistinctKeys(all) {
      assert forall i :: 0 <= i < |novel| ==> all[i] == novel[i];
      assert all[|novel|] == d;
    }
    if !Requested(novel, d.key) && DistinctKeys(novel) {
      forall i, j | 0 <= i < j < |all|
        ensures all[i].key != all[j].key
      {
        assert novel[i].key != d.key;
      }
    }
  }

  lemma {:induction false} RepeatsInFront(orders: seq<StoredOrder>, data: seq<OrderData>)
    requires data != []
    ensures var front := data[..|data| - 1];
            var last := data[|data| - 1];
            Repeats(orders, data) <==>
             (Repeats(orders, front) || (Requested(front, last.key) && !HasKey(orders, last.key)))
  {
    var front := data[..|data| - 1];
    var last := data[|data| - 1];
    if Repeats(orders, front) {
      var i, j :| 0 <= i < j < |front| && front[i].key == front[j].key && !HasKey(orders, front[i].key);
      assert data[i].key == data[j].key && !HasKey(orders, data[i].key);
    }
    if Requested(front, last.key) && !HasKey(orders, last.key) {
      var i :| 0 <= i < |front| && front[i].key == last.key;
      assert data[i].key == data[|data| - 1].key && !HasKey(orders, data[i].key);
    }
    if Repeats(orders, data) {
      var i, j :| 0 <= i < j < |data| && data[i].key == data[j].key && !HasKey(orders, data[i].key);
      if j < |front| {
        assert front[i].key == front[j].key && !HasKey(orders, front[i].key);
      } else {
        assert front[i].key == last.key;
      }
    }
  }

  // ----- The answer --------------------------------------------------------

  lemma {:induction false} SelectOne(orders: seq<StoredOrder>, d: OrderData)
    requires TableOk(orders)
    ensures |Select(orders, [d])| == if HasKey(orders, d.key) then 1 else 0
  {
    if orders == [] {
    } else {
      var front := orders[..|orders| - 1];
      var last := orders[|orders| - 1];
      SelectOne(front, d);
      assert [d][0].key == d.key;
      if HasKey(front, d.key) {
        HasKeyMonotone(front, orders, d.key);
        var i :| 0 <= i < |front| && front[i].data.key == d.key;
        assert orders[i].data.key != last.data.key;
      }
      if last.data.key == d.key {
        assert orders[|orders| - 1].data.key == d.key;
      }
      if HasKey(orders, d.key) {
        var i :| 0 <= i < |orders| && orders[i].data.key == d.key;
        assert i < |front| ==> front[i].data.key == d.key;
      }
    }
  }

  /** A request for one order is answered with exactly one order: the stored one if
      its key was there, a new one otherwise. */
  lemma {:induction false} SingleAnswer(orders: seq<StoredOrder>, d: OrderData, first: nat)
    requires TableOk(orders)
    ensures var existing := Select(orders, [d]);
            var saved := Rows(Fresh([d], existing), first);
            && |saved| + |existing| == 1
            && (|existing| == 1 <==> HasKey(orders, d.key))
            && (|saved| == 1 ==> saved[0].data == d)
  {
    SelectOne(orders, d);
    assert [d][0].key == d.key;
    SelectHasKey(orders, [d], d.key);
    assert [d][..0] == [];
    assert Fresh([], Select(orders, [d])) == [];
  }

  // ----- Requests that race ------------------------------------------------

  /** Where a request stands: it has read the table when that had `seen` rows; it has
      committed and still has to enqueue billing for these ids; it is over. */
  datatype Stage =
    | Open(data: seq<OrderData>, existing: seq<StoredOrder>, seen: nat)
    | Saved(todo: seq<nat>)
    | Over

  /** The table, the billing jobs enqueued so far, the ids that a request died with
      between its commit and its enqueues, and all requests, in order of arrival. */
  datatype Shop = Shop(orders: seq<StoredOrder>, jobs: seq<nat>, lost: seq<nat>, requests: seq<Stage>)

  datatype BulkEvent = Read(data: seq<OrderData>) | Commit(k: nat) | EnqueueJob(k: nat, i: nat) | Die(k: nat)

  predicate Ready(s: Shop, e: BulkEvent) {
    match e
    case Read(_) => true
    case Commit(k) => k < |s.requests| && s.requests[k].Open?
    case EnqueueJob(k, i) => k < |s.requests| && s.requests[k].Saved? && i < |s.requests[k].todo|
    case Die(k) => k < |s.requests|
  }

  function Without(todo: seq<nat>, i: nat): seq<nat>
    requires i < |todo|
  {
    todo[..i] + todo[i + 1..]
  }

  function Ids(first: nat, n: nat): seq<nat> {
    seq(n, i requires 0 <= i < n => first + i)
  }

  function WithStage(s: Shop, k: nat, stage: Stage): Shop
    requires k < |s.requests|
  {
    s.(requests := s.requests[k := stage])
  }

  ghost function NextShop(s: Shop, e: BulkEvent): Shop
    requires Ready(s, e)
  {
    match e
    case Read(data) => s.(requests := s.requests + [Open(data, Select(s.orders, data), |s.orders|)])
    case Commit(k) =>
      var novel := Fresh(s.requests[k].data, s.requests[k].existing);
      if Insertable(s.orders, novel) then
        WithStage(s, k, Saved(Ids(|s.orders|, |novel|))).(orders := s.orders + Rows(novel, |s.orders|))
      else WithStage(s, k, Over)
    case EnqueueJob(k, i) =>
      var todo := s.requests[k].todo;
      WithStage(s, k, Saved(Without(todo, i))).(jobs := s.jobs + [todo[i]])
    case Die(k) =>
      WithStage(s, k, Over).(lost := if s.requests[k].Saved? then s.lost + s.requests[k].todo else s.lost)
  }

  const EMPTY := Shop([], [], [], [])

  ghost predicate Happens(s: Shop, events: seq<BulkEvent>)
    decreases |events|, 0
  {
    events == [] ||
    (var front := events[..|events| - 1];
     Happens(s, front) && Ready(ShopAfter(s, front), events[|events| - 1]))
  }

  ghost function ShopAfter(s: Shop, events: seq<BulkEvent>): Shop
    requires Happens(s, events)
    decreases |events|, 1
  {
    if events == [] then s else NextShop(ShopAfter(s, events[..|events| - 1]), events[|events| - 1])
  }

  // ----- Every order has one place -----------------------------------------

  ghost function Count(ids: seq<nat>, id: nat): nat {
    multiset(ids)[id]
  }

  function Todo(stage: Stage): seq<nat> {
    if stage.Saved? then stage.todo else []
  }

  /** How often the requests still have to enqueue a billing job. */
  ghost function Owed(requests: seq<Stage>, id: nat): nat {
    if requests == [] then 0
    else Owed(requests[..|requests| - 1], id) + Count(Todo(requests[|requests| - 1]), id)
  }

  ghost function Places(s: Shop, id: nat): nat {
    Count(s.jobs, id) + Count(s.lost, id) + Owed(s.requests, id)
  }

  ghost predicate StageOk(orders: seq<StoredOrder>, stage: Stage) {
    stage.Open? ==> stage.seen <= |orders| && stage.existing == Select(orders[..stage.seen], stage.data)
  }

  ghost predicate StagesOk(orders: seq<StoredOrder>, requests: seq<Stage>) {
    forall k :: 0 <= k < |requests| ==> StageOk(orders, requests[k])
  }

  /** A stored order's billing job is enqueued once, or owed once, or lost once. */
  ghost predicate PlacesOk(s: Shop) {
    forall id: nat :: Places(s, id) == if id < |s.orders| then 1 else 0
  }

  /** Keys are unique, requests work on what was once the table, and every stored
      order has its billing job in exactly one place. */
  ghost predicate ShopOk(s: Shop) {
    TableOk(s.orders) && StagesOk(s.orders, s.requests) && PlacesOk(s)
  }

  lemma {:induction false} OwedUpdate(requests: seq<Stage>, k: nat, stage: Stage, id: nat)
    requires k < |requests|
    ensures Owed(requests[k := stage], id) + Count(Todo(requests[k]), id)
            == Owed(requests, id) + Count(Todo(stage), id)
  {
    var front := requests[..|requests| - 1];
    var after := requests[k := stage];
    if k == |requests| - 1 {
      assert after[..|requests| - 1] == front;
    } else {
      assert after[..|requests| - 1] == front[k := stage];
      OwedUpdate(front, k, stage, id);
    }
  }

  lemma {:induction false} CountId(first: nat, n: nat, id: nat)
    ensures Count(Ids(first, n), id) == if first <= id < first + n then 1 else 0
  {
    if n == 0 {
      assert Ids(first, 0) == [];
    } else {
      assert Ids(first, n) == Ids(first, n - 1) + [first + n - 1];
      CountId(first, n - 1, id);
    }
  }

  lemma {:induction false} CountWithout(todo: seq<nat>, i: nat, id: nat)
    requires i < |todo|
    ensures Count(Without(todo, i), id) + Count([todo[i]], id) == Count(todo, id)
  {
    assert todo == todo[..i] + [todo[i]] + todo[i + 1..];
  }

  lemma {:induction false} StagesKept(orders: seq<StoredOrder>, more: seq<StoredOrder>, requests: seq<Stage>)
    requires orders <= more && StagesOk(orders, requests)
    ensures StagesOk(more, requests)
  {
    forall k | 0 <= k < |requests| && requests[k].Open?
      ensures StageOk(more, requests[k])
    {
      assert StageOk(orders, requests[k]);
      assert more[..requests[k].seen] == orders[..requests[k].seen];
    }
  }

  lemma ReadPlaces(s: Shop, data: seq<OrderData>, id: nat)
    ensures Places(NextShop(s, Read(data)), id) == Places(s, id)
  {
    assert NextShop(s, Read(data)).requests[..|s.requests|] == s.requests;
  }

  lemma CommitPlaces(s: Shop, k: nat, id: nat)
    requires Ready(s, Commit(k))
    ensures var s' := NextShop(s, Commit(k));
            Places(s', id) == Places(s, id) + if |s.orders| <= id < |s'.orders| then 1 else 0
  {
    var s' := NextShop(s, Commit(k));
    OwedUpdate(s.requests, k, s'.requests[k], id);
    CountId(|s.orders|, |s'.orders| - |s.orders|, id);
  }

  lemma EnqueuePlaces(s: Shop, k: nat, i: nat, id: nat)
    requires Ready(s, EnqueueJob(k, i))
    ensures Places(NextShop(s, EnqueueJob(k, i)), id) == Places(s, id)
  {
    var todo := s.requests[k].todo;
    OwedUpdate(s.requests, k, Saved(Without(todo, i)), id);
    CountWithout(todo, i, id);
  }

  lemma DiePlaces(s: Shop, k: nat, id: nat)
    requires Ready(s, Die(k))
    ensures Places(NextShop(s, Die(k)), id) == Places(s, id)
  {
    OwedUpdate(s.requests, k, Over, id);
  }

  lemma PlacesStep(s: Shop, e: BulkEvent)
    requires PlacesOk(s) && Ready(s, e) && s.orders <= NextShop(s, e).orders
    ensures PlacesOk(NextShop(s, e))
  {
    var s' := NextShop(s, e);
    forall id: nat
      ensures Places(s', id) == if id < |s'.orders| then 1 else 0
    {
      assert Places(s, id) == if id < |s.orders| then 1 else 0;
      match e
      case Read(data) => ReadPlaces(s, data, id);
      case Commit(k) => CommitPlaces(s, k, id);
      case EnqueueJob(k, i) => EnqueuePlaces(s, k, i, id);
      case Die(k) => DiePlaces(s, k, id);
    }
  }

  lemma TableStep(s: Shop, e: BulkEvent)
    requires TableOk(s.orders) && StagesOk(s.orders, s.requests) && Ready(s, e)
    ensures var s' := NextShop(s, e);
            && TableOk(s'.orders) && s.orders <= s'.orders
            && (e.Commit? ==> s'.orders == Persisted(s.orders, s.requests[e.k].data, s.requests[e.k].seen))
  {
    if e.Commit? {
      assert StageOk(s.orders, s.requests[e.k]);
      PersistKeepsTable(s.orders, s.requests[e.k].data, s.requests[e.k].seen);
    }
  }

  lemma StagesStep(s: Shop, e: BulkEvent)
    requires StagesOk(s.orders, s.requests) && Ready(s, e) && s.orders <= NextShop(s, e).orders
    ensures StagesOk(NextShop(s, e).orders, NextShop(s, e).requests)
    ensures |s.requests| <= |NextShop(s, e).requests|
  {
    StagesKept(s.orders, NextShop(s, e).orders, s.requests);
    assert s.orders[..|s.orders|] == s.orders;
  }

  /** Every step of every request keeps all that. */
  lemma BulkStep(s: Shop, e: BulkEvent)
    requires ShopOk(s) && Ready(s, e)
    ensures ShopOk(NextShop(s, e)) && s.orders <= NextShop(s, e).orders
    ensures |s.requests| <= |NextShop(s, e).requests|
  {
    TableStep(s, e);
    StagesStep(s, e);
    PlacesStep(s, e);
  }

  /** However requests interleave, keys stay unique, rows are only added, and every
      order keeps its one place. */
  lemma {:induction false} BulkAlways(s: Shop, events: seq<BulkEvent>)
    requires ShopOk(s) && Happens(s, events)
    ensures ShopOk(ShopAfter(s, events)) && s.orders <= ShopAfter(s, events).orders
    ensures |s.requests| <= |ShopAfter(s, events).requests|
    decreases |events|
  {
    if events == [] {
    } else {
      var front := events[..|events| - 1];
      BulkAlways(s, front);
      BulkStep(ShopAfter(s, front), events[|events| - 1]);
    }
  }

  // ----- At most one billing job, and exactly one --------------------------

  lemma {:induction false} CountTwice(ids: seq<nat>, i: nat, j: nat)
    requires i < j < |ids| && ids[i] == ids[j]
    ensures Count(ids, ids[i]) >= 2
  {
    assert ids == ids[..j] + [ids[j]] + ids[j + 1..];
    assert ids[..j][i] == ids[i];
    assert ids[i] in multiset(ids[..j]);
  }

  lemma {:induction false} Counted(ids: seq<nat>, id: nat)
    ensures id in ids <==> Count(ids, id) > 0
  {
    assert id in ids <==> id in multiset(ids);
  }

  lemma {:induction false} OwedBy(requests: seq<Stage>, id: nat) returns (k: nat)
    requires Owed(requests, id) > 0
    ensures k < |requests| && id in Todo(requests[k])
  {
    k := |requests| - 1;
    Counted(Todo(requests[k]), id);
    if id !in Todo(requests[k]) {
      k := OwedBy(requests[..k], id);
    }
  }

  lemma {:induction false} OwedOnce(requests: seq<Stage>, k: nat, id: nat)
    requires k < |requests| && id in Todo(requests[k])
    ensures Owed(requests, id) >= 1
  {
    OwedUpdate(requests, k, Over, id);
    Counted(Todo(requests[k]), id);
  }

  lemma {:induction false} OwedTwice(requests: seq<Stage>, k: nat, l: nat, id: nat)
    requires k < l < |requests| && id in Todo(requests[k]) && id in Todo(requests[l])
    ensures Owed(requests, id) >= 2
  {
    OwedUpdate(requests, k, Over, id);
    Counted(Todo(requests[k]), id);
    assert requests[k := Over][l] == requests[l];
    OwedOnce(requests[k := Over], l, id);
  }

  ghost predicate JobsDistinct(s: Shop) {
    forall i, j :: 0 <= i < j < |s.jobs| ==> s.jobs[i] != s.jobs[j]
  }

  ghost predicate JobsStored(s: Shop) {
    forall i :: 0 <= i < |s.jobs| ==> s.jobs[i] < |s.orders| && s.orders[s.jobs[i]].id == s.jobs[i]
  }

  /** What this request still has to enqueue is stored, and has no job. */
  ghost predicate TodoFree(s: Shop, todo: seq<nat>) {
    forall i :: 0 <= i < |todo| ==> todo[i] < |s.orders| && todo[i] !in s.jobs
  }

  ghost predicate Disjoint(one: seq<nat>, two: seq<nat>) {
    forall i :: 0 <= i < |one| ==> one[i] !in two
  }

  ghost predicate TodosDisjoint(s: Shop) {
    && (forall k :: 0 <= k < |s.requests| ==> TodoFree(s, Todo(s.requests[k])))
    && (forall k, l :: 0 <= k < l < |s.requests| ==> Disjoint(Todo(s.requests[k]), Todo(s.requests[l])))
  }

  lemma OnePlaceForJobs(s: Shop)
    requires ShopOk(s)
    ensures JobsDistinct(s) && JobsStored(s)
  {
    forall i, j | 0 <= i < j < |s.jobs|
      ensures s.jobs[i] != s.jobs[j]
    {
      assert Places(s, s.jobs[i]) <= 1;
      if s.jobs[i] == s.jobs[j] { CountTwice(s.jobs, i, j); }
    }
    forall i | 0 <= i < |s.jobs|
      ensures s.jobs[i] < |s.orders|
    {
      Counted(s.jobs, s.jobs[i]);
      assert Places(s, s.jobs[i]) > 0;
    }
  }

  lemma OnePlaceForTodos(s: Shop)
    requires ShopOk(s)
    ensures TodosDisjoint(s)
  {
    forall k | 0 <= k < |s.requests|
      ensures TodoFree(s, Todo(s.requests[k]))
    {
      var todo := Todo(s.requests[k]);
      forall i | 0 <= i < |todo|
        ensures todo[i] < |s.orders| && todo[i] !in s.jobs
      {
        OwedOnce(s.requests, k, todo[i]);
        Counted(s.jobs, todo[i]);
        assert Places(s, todo[i]) == if todo[i] < |s.orders| then 1 else 0;
      }
    }
    forall k, l | 0 <= k < l < |s.requests|
      ensures Disjoint(Todo(s.requests[k]), Todo(s.requests[l]))
    {
      var todo := Todo(s.requests[k]);
      forall i | 0 <= i < |todo|
        ensures todo[i] !in Todo(s.requests[l])
      {
        assert Places(s, todo[i]) <= 1;
        if todo[i] in Todo(s.requests[l]) { OwedTwice(s.requests, k, l, todo[i]); }
      }
    }
  }

  lemma EmptyOk()
    ensures ShopOk(EMPTY)
  {
  }

  /** After any history of racing requests no order has two billing jobs, every job
      belongs to a stored order, and what one request still has to enqueue no other
      request has to, and no job exists for. */
  lemma {:induction false} AtMostOneJob(events: seq<BulkEvent>)
    requires Happens(EMPTY, events)
    ensures JobsDistinct(ShopAfter(EMPTY, events)) && JobsStored(ShopAfter(EMPTY, events))
    ensures TodosDisjoint(ShopAfter(EMPTY, events))
  {
    EmptyOk();
    BulkAlways(EMPTY, events);
    OnePlaceForJobs(ShopAfter(EMPTY, events));
    OnePlaceForTodos(ShopAfter(EMPTY, events));
  }

  /** A stored order has its billing job exactly if the request that saved it does
      not still have to enqueue it and has not died before. */
  lemma {:induction false} JobExactly(events: seq<BulkEvent>, id: nat)
    requires Happens(EMPTY, events) && id < |ShopAfter(EMPTY, events).orders|
    ensures var s := ShopAfter(EMPTY, events);
            id in s.jobs <==> id !in s.lost && forall k :: 0 <= k < |s.requests| ==> id !in Todo(s.requests[k])
  {
    var s := ShopAfter(EMPTY, events);
    EmptyOk();
    BulkAlways(EMPTY, events);
    assert Places(s, id) == 1;
    Counted(s.jobs, id);
    Counted(s.lost, id);
    if k :| 0 <= k < |s.requests| && id in Todo(s.requests[k]) {
      OwedOnce(s.requests, k, id);
    } else if Owed(s.requests, id) > 0 {
      var k := OwedBy(s.requests, id);
    }
  }

  lemma LostStep(s: Shop, e: BulkEvent)
    requires Ready(s, e)
    ensures s.lost <= NextShop(s, e).lost
  {
  }

  /** An order whose request died before it could enqueue its billing job never gets
      one, whatever requests come later. */
  lemma {:induction false} LostForGood(s: Shop, events: seq<BulkEvent>, id: nat)
    requires ShopOk(s) && Happens(s, events) && id in s.lost
    ensures id in ShopAfter(s, events).lost && id !in ShopAfter(s, events).jobs
    decreases |events|
  {
    if events == [] {
      assert ShopAfter(s, events) == s;
      LostHasNoJob(s, id);
    } else {
      var front := events[..|events| - 1];
      LostForGood(s, front, id);
      LostStep(ShopAfter(s, front), events[|events| - 1]);
      BulkAlways(s, events);
      LostHasNoJob(ShopAfter(s, events), id);
    }
  }

  lemma LostHasNoJob(s: Shop, id: nat)
    requires ShopOk(s) && id in s.lost
    ensures id !in s.jobs
  {
    assert Places(s, id) <= 1;
    Counted(s.lost, id);
    Counted(s.jobs, id);
  }

  // ----- Where stored rows come from ---------------------------------------

  ghost predicate WasRequested(events: seq<BulkEvent>, d: OrderData) {
    exists i :: 0 <= i < |events| && events[i].Read? && d in events[i].data
  }

  lemma {:induction false} StillRequested(events: seq<BulkEvent>, d: OrderData)
    requires events != [] && WasRequested(events[..|events| - 1], d)
    ensures WasRequested(events, d)
  {
    var front := events[..|events| - 1];
    var i :| 0 <= i < |front| && front[i].Read? && d in front[i].data;
    assert events[i] == front[i];
  }

  ghost predicate OpenData(stage: Stage, d: OrderData) {
    stage.Open? && d in stage.data
  }

  lemma OpenDataStep(s: Shop, e: BulkEvent, k: nat, d: OrderData)
    requires Ready(s, e) && k < |NextShop(s, e).requests| && OpenData(NextShop(s, e).requests[k], d)
    ensures (k < |s.requests| && OpenData(s.requests[k], d)) || (e.Read? && d in e.data)
  {
  }

  lemma NewRow(s: Shop, e: BulkEvent, o: StoredOrder)
    requires Ready(s, e) && o in NextShop(s, e).orders && o !in s.orders
    ensures e.Commit? && OpenData(s.requests[e.k], o.data)
  {
    var stage := s.requests[e.k];
    var novel := Fresh(stage.data, stage.existing);
    var saved := Rows(novel, |s.orders|);
    var i :| 0 <= i < |saved| && saved[i] == o;
    assert novel[i] == o.data;
    FreshExactly(stage.data, stage.existing, o.data);
  }

  lemma {:induction false} OpenWasRequested(events: seq<BulkEvent>, k: nat, d: OrderData)
    requires Happens(EMPTY, events) && k < |ShopAfter(EMPTY, events).requests|
    requires OpenData(ShopAfter(EMPTY, events).requests[k], d)
    ensures WasRequested(events, d)
    decreases |events|
  {
    if events != [] {
      var front, last := events[..|events| - 1], events[|events| - 1];
      OpenDataStep(ShopAfter(EMPTY, front), last, k, d);
      if k < |ShopAfter(EMPTY, front).requests| && OpenData(ShopAfter(EMPTY, front).requests[k], d) {
        OpenWasRequested(front, k, d);
        StillRequested(events, d);
      }
    }
  }

  /** Whatever requests race, every stored row holds an entry of some request. */
  lemma {:induction false} StoredWasRequested(events: seq<BulkEvent>, o: StoredOrder)
    requires Happens(EMPTY, events) && o in ShopAfter(EMPTY, events).orders
    ensures WasRequested(events, o.data)
    decreases |events|
  {
    if events != [] {
      var front, last := events[..|events| - 1], events[|events| - 1];
      var mid := ShopAfter(EMPTY, front);
      if o in mid.orders {
        StoredWasRequested(front, o);
      } else {
        NewRow(mid, last, o);
        OpenWasRequested(front, last.k, o.data);
      }
      StillRequested(events, o.data);
    }
  }

  // ----- A repeated request ------------------------------------------------

  /** A request that arrived later has read a later table. */
  lemma {:induction false} LaterRead(s: Shop, events: seq<BulkEvent>, j: nat)
    requires ShopOk(s) && Happens(s, events) && |s.requests| <= j < |ShopAfter(s, events).requests|
    requires ShopAfter(s, events).requests[j].Open?
    ensures |s.orders| <= ShopAfter(s, events).requests[j].seen
    decreases |events|
  {
    if events == [] {
    } else {
      var front := events[..|events| - 1];
      BulkAlways(s, front);
      if j < |ShopAfter(s, front).requests| {
        LaterRead(s, front, j);
      }
    }
  }

  /** Once a request has gone through, a request with the same orders that arrives
      later saves nothing and enqueues nothing, whatever comes in between. */
  lemma {:induction false} RepeatSavesNothing(s: Shop, k: nat, events: seq<BulkEvent>, j: nat)
    requires ShopOk(s) && Ready(s, Commit(k)) && NextShop(s, Commit(k)).requests[k].Saved?
    requires Happens(NextShop(s, Commit(k)), events)
    requires var s' := ShopAfter(NextShop(s, Commit(k)), events);
             Ready(s', Commit(j)) && |s.requests| <= j && s'.requests[j].data == s.requests[k].data
    ensures var s' := ShopAfter(NextShop(s, Commit(k)), events);
            NextShop(s', Commit(j)) == WithStage(s', j, Saved([]))
  {
    var mid := NextShop(s, Commit(k));
    var s' := ShopAfter(mid, events);
    var first := s.requests[k];
    var again := s'.requests[j];
    BulkStep(s, Commit(k));
    TableStep(s, Commit(k));
    BulkAlways(mid, events);
    LaterRead(mid, events, j);
    assert StageOk(s.orders, first) && StageOk(s'.orders, again);
    assert mid.orders <= s'.orders[..again.seen];
    NothingFresh(s.orders, first.data, first.seen, s'.orders[..again.seen]);
    assert s'.orders + Rows([], |s'.orders|) == s'.orders && Ids(|s'.orders|, 0) == [];
  }

  lemma {:induction false} NothingFresh(orders: seq<StoredOrder>, data: seq<OrderData>, seen: nat,
                                        later: seq<StoredOrder>)
    requires seen <= |orders| && Insertable(orders, Fresh(data, Select(orders[..seen], data)))
    requires Persisted(orders, data, seen) <= later
    ensures Fresh(data, Select(later, data)) == []
  {
    var novel := Fresh(data, Select(later, data));
    if novel != [] {
      var d := novel[0];
      FreshExactly(data, Select(later, data), d);
      assert Requested(data, d.key);
      KeyStored(orders, data, seen, d.key);
      HasKeyMonotone(Persisted(orders, data, seen), later, d.key);
      SelectHasKey(later, data, d.key);
      assert false;
    }
  }

  lemma {:induction false} StillBroken(orders: seq<StoredOrder>, novel: seq<OrderData>, i: nat)
    requires i < |novel|
    requires !Insertable(orders, novel[..i + 1])
    ensures !Insertable(orders, novel)
  {
    var part := novel[..i + 1];
    if Insertable(orders, novel) {
      assert forall k :: 0 <= k < |part| ==> part[k] == novel[k];
      assert Insertable(orders, part);
      assert false;
    }
  }

  // ----- The service -------------------------------------------------------

  /** The goods on offer, the table of orders, the billing jobs that were enqueued,
      and the requests. */
  class OrderService {
    const goods: set<int>
    var orders: seq<StoredOrder>
    var jobs: seq<nat>
    var requests: seq<Stage>
    ghost var lost: seq<nat>

    ghost function State(): Shop
      reads this
    {
      Shop(orders, jobs, lost, requests)
    }

    ghost predicate Valid()
      reads this
    {
      ShopOk(State())
    }

    constructor (goods: set<int>)
      ensures Valid() && State() == EMPTY && this.goods == goods
    {
      this.goods, orders, jobs, requests, lost := goods, [], [], [], [];
      new;
      EmptyOk();
    }

    /** The reads of `create_bulk`: the goods, then the orders that exist. */
    method Begin(data: seq<OrderData>) returns (existing: Option<seq<StoredOrder>>)
      requires Valid()
      modifies this`requests
      ensures Valid()
      ensures existing == None <==> exists d :: d in data && d.goodId !in goods
      ensures existing == None ==> State() == old(State())
      ensures existing.Some? ==>
                State() == NextShop(old(State()), Read(data))
                && (forall o :: o in existing.value <==> o in orders && Requested(data, o.data.key))
                && requests == old(requests) + [Open(data, existing.value, |orders|)]
    {
      var missing := (set d | d in data :: d.goodId) - goods;
      if missing != {} {
        var id :| id in missing;
        assert exists d :: d in data && d.goodId == id;
        return None;
      }
      assert forall d :: d in data ==> d.goodId !in missing;
      var found := Select(orders, data);
      forall o
        ensures o in found <==> o in orders && Requested(data, o.data.key)
      {
        SelectExactly(orders, data, o);
      }
      BulkStep(State(), Read(data));
      requests := requests + [Open(data, found, |orders|)];
      return Some(found);
    }

    /** Its flush and commit: all new rows or none. Other requests may have written
        since this one read the table. */
    method Persist(k: nat) returns (outcome: Outcome)
      requires Valid() && Ready(State(), Commit(k))
      modifies this`orders, this`requests
      ensures Valid() && State() == NextShop(old(State()), Commit(k))
      ensures outcome == Conflict <==> Repeats(old(orders)[..old(requests)[k].seen], old(requests)[k].data)
                                       || Overtaken(old(orders), old(requests)[k].data, old(requests)[k].seen)
      ensures outcome == Conflict ==> orders == old(orders) && requests[k] == Over
      ensures outcome.Created? ==>
                && outcome.existing == old(requests)[k].existing
                && orders == old(orders) + outcome.saved
                && (exists at :: SavedFrom(outcome.saved, old(requests)[k].data,
                                           old(orders)[..old(requests)[k].seen], |old(orders)|, at))
                && requests[k].Saved? && |requests[k].todo| == |outcome.saved|
                && (forall i :: 0 <= i < |outcome.saved| ==> requests[k].todo[i] == outcome.saved[i].id)
    {
      var data, existing := requests[k].data, requests[k].existing;
      ghost var seen := requests[k].seen;
      assert StageOk(orders, requests[k]);
      FailsExactly(orders, data, seen);
      BulkStep(State(), Commit(k));
      ghost var at := SavedAsRequested(orders[..seen], data, |orders|);
      var rows := Insert(Fresh(data, existing));
      if rows == None {
        requests := requests[k := Over];
        return Conflict;
      }
      requests := requests[k := Saved(Ids(|orders|, |rows.value|))];
      orders := orders + rows.value;
      return Created(rows.value, existing);
    }

    /** The flush checks the constraint row by row. */
    method Insert(novel: seq<OrderData>) returns (rows: Option<seq<StoredOrder>>)
      ensures rows == if Insertable(orders, novel) then Some(Rows(novel, |orders|)) else None
    {
      var flushed := [];
      for i := 0 to |novel|
        invariant flushed == Rows(novel[..i], |orders|)
        invariant Insertable(orders, novel[..i])
      {
        var d := novel[i];
        RowsHaveKeys(novel[..i], |orders|, d.key);
        DistinctSnoc(novel[..i], d);
        assert novel[..i + 1] == novel[..i] + [d];
        if HasKey(orders, d.key) || HasKey(flushed, d.key) {
          StillBroken(orders, novel, i);
          return None;
        }
        flushed := flushed + [StoredOrder(|orders| + i, d)];
      }
      assert novel[..|novel|] == novel;
      return Some(flushed);
    }

    /** `enqueue_job("process_billing", ...)` for one order that the request saved. */
    method EnqueueOne(k: nat, i: nat)
      requires Valid() && Ready(State(), EnqueueJob(k, i))
      modifies this`jobs, this`requests
      ensures Valid() && State() == NextShop(old(State()), EnqueueJob(k, i))
      ensures jobs == old(jobs) + [old(requests)[k].todo[i]]
    {
      BulkStep(State(), EnqueueJob(k, i));
      var todo := requests[k].todo;
      jobs := jobs + [todo[i]];
      requests := requests[k := Saved(Without(todo, i))];
    }

    /** One billing job for each order that the request saved. */
    method EnqueueBilling(k: nat)
      requires Valid() && k < |requests| && requests[k].Saved?
      modifies this`jobs, this`requests
      ensures Valid() && jobs == old(jobs) + old(requests)[k].todo
      ensures requests == old(requests)[k := Saved([])]
    {
      ghost var all := requests[k].todo;
      ghost var done := 0;
      while requests[k].todo != []
        invariant Valid() && 0 <= done <= |all|
        invariant |requests| == |old(requests)| && requests == old(requests)[k := Saved(all[done..])]
        invariant jobs == old(jobs) + all[..done]
        decreases |requests[k].todo|
      {
        assert all[..done + 1] == all[..done] + [all[done]];
        assert Without(all[done..], 0) == all[done + 1..];
        EnqueueOne(k, 0);
        done := done + 1;
      }
      assert all[..done] == all;
    }
  }
}
