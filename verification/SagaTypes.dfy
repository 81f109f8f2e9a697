/** The state of one order's saga: the row in `orders`, the jobs that act on it,
    the external services' records about it, and what happened so far. */
module SagaTypes {

  datatype Option<+T> = None | Some(value: T)

  datatype StepStatus = Pending | Failed | Success | Cancelled | Compensated | Skipped

  datatype GlobalStatus = Processing | Completed | Cancelled | Compensating | ManualRequired

  datatype PaymentWay = Prepayment | Postpayment

  datatype Service = Billing | Inventory | Logistics

  /** What a service stores for an order: nothing, "processed" or "compensated".
      Each service has one forward and one reversing action, so the stored
      `last_action` is determined by the stored status. */
  datatype Record = Absent | Processed | Reversed

  /** Where the one forward job of a service stands. `Called` holds the local
      status variable between the HTTP call and the transaction; `FanningOut` is
      billing inside its transaction, holding the row lock while it enqueues. `Dead`
      is a job that died, and a billing job whose request died before enqueuing it. */
  datatype Worker = NotEnqueued | Queued | Called(result: StepStatus) | FanningOut(result: StepStatus) | Done | Dead

  /** One service of one order: its status column, its forward job, the record
      the service itself keeps, and whether its acknowledgement of the forward
      call was lost on the way back. */
  datatype Lane = Lane(status: StepStatus, worker: Worker, record: Record, lost: bool)

  /** The three booleans that `compensation` derives from one row. */
  datatype Flags = Flags(billing: bool, inventory: bool, logistics: bool) {
    predicate Has(svc: Service) {
      match svc
      case Billing => billing
      case Inventory => inventory
      case Logistics => logistics
    }

    function With(svc: Service, value: bool): Flags {
      match svc
      case Billing => this.(billing := value)
      case Inventory => this.(inventory := value)
      case Logistics => this.(logistics := value)
    }

    function Count(): nat {
      (if billing then 1 else 0) + (if inventory then 1 else 0) + (if logistics then 1 else 0)
    }

    function Or(that: Flags): Flags {
      Flags(billing || that.billing, inventory || that.inventory, logistics || that.logistics)
    }
  }

  const NONE := Flags(false, false, false)

  /** `compensation:{id}` or `compensation:{id}:{second}`. */
  datatype JobId = Fixed | Stamped(second: int)

  datatype Phase =
    | Waiting
    | Reversing(snapshot: Flags, todo: Flags, acked: Flags)
    | Retrying
    | Ended

  datatype Run = Run(job: JobId, retry: nat, phase: Phase)

  /** One request sent to a service; `acked` says that the caller saw a 200. */
  datatype Call = Call(svc: Service, reversal: bool, acked: bool)

  /** The outcome of an enqueue: the queue did not get it, or got it but its answer was
      lost, or answered. */
  datatype Delivery = Dropped | Unconfirmed | Confirmed

  datatype PollSession = Idle | Fetched | Stamping(at: int)

  /** The order and its three services. `forced` and `barrier` are history: an
      administrator has cancelled the order; some compensation run has passed its
      PENDING guard. */
  datatype Row = Row(payment: PaymentWay, billing: Lane, inventory: Lane, logistics: Lane,
                     global: GlobalStatus, forced: bool, barrier: bool)
  {
    function LaneOf(svc: Service): Lane {
      match svc
      case Billing => billing
      case Inventory => inventory
      case Logistics => logistics
    }

    function WithLane(svc: Service, lane: Lane): Row {
      match svc
      case Billing => this.(billing := lane)
      case Inventory => this.(inventory := lane)
      case Logistics => this.(logistics := lane)
    }

    predicate AnyStatus(st: StepStatus) {
      billing.status == st || inventory.status == st || logistics.status == st
    }

    /** Some forward job has died, or will never come about. */
    predicate AnyDead() {
      billing.worker == Dead || inventory.worker == Dead || logistics.worker == Dead
    }

    /** The row is locked across steps only while billing fans out. */
    predicate Locked() {
      billing.worker.FanningOut?
    }

    predicate SameColumns(that: Row) {
      && billing.status == that.billing.status
      && inventory.status == that.inventory.status
      && logistics.status == that.logistics.status
      && global == that.global
    }
  }

  /** Sessions that have read the order and not written it yet. */
  datatype Sessions = Sessions(poll: PollSession, escalations: nat, forceCancels: nat)

  datatype History = History(
    broken: bool,         // some run died between its two transactions
    dispatched: nat,      // compensation jobs accepted other than retries
    attempted: nat,       // compensation runs started
    counted: nat,         // increments of the "success" counter
    compensated: nat,     // increments of the "compensated" counter
    stuck: nat,           // increments of the "stuck" counter
    completions: nat,     // committed transitions into COMPLETED
    dispatches: seq<int>, // times of the poll's enqueues that the queue got
    unstamped: set<int>,  // which of these did not get to stamp the order
    log: seq<Call>)       // requests sent to the services

  /** `runs` holds the compensation jobs ever accepted, in order of acceptance. */
  datatype Saga = Saga(row: Row, updatedAt: int, runs: seq<Run>, sessions: Sessions, clock: int, past: History)

  // Times are in microseconds, the resolution of the timestamps compared.
  const SECOND := 1_000_000
  const STUCK_TIMEOUT := 60 * SECOND
  const DEAD_TIMEOUT := 3600 * SECOND
  const LAST_RETRY: nat := 4

  /** The poll query. */
  predicate MatchesPoll(row: Row, updatedAt: int, now: int) {
    && ( || (row.global == Processing && row.AnyStatus(Pending))
         || (row.global == Compensating && row.AnyStatus(Success)))
    && updatedAt < now - STUCK_TIMEOUT
  }

  /** The dead-order query. */
  predicate MatchesDead(row: Row, updatedAt: int, now: int) {
    row.global == Compensating && updatedAt < now - DEAD_TIMEOUT
  }
}
