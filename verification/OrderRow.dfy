/** A row of `orders`, with the transactions that the handlers run on it under the
    row lock. Each is specified by what the machine does to any row that has these
    columns; whatever else the machine's row holds is passed along as ghost. */
module OrderRow {
  import opened SagaTypes
  import opened SagaMachine
  import opened MockEnv

  /** The columns as loaded by a session, to be compared when it flushes. */
  datatype Columns = Columns(billing: StepStatus, inventory: StepStatus, logistics: StepStatus, global: GlobalStatus)

  class Order {
    const id: OrderId
    const paymentType: PaymentWay
    var billingStatus: StepStatus
    var inventoryStatus: StepStatus
    var logisticsStatus: StepStatus
    var globalStatus: GlobalStatus
    var updatedAt: int

    constructor (id: OrderId, paymentType: PaymentWay, now: int)
      ensures this.id == id && this.paymentType == paymentType && updatedAt == now
      ensures Stores(Init(paymentType, now).row)
    {
      this.id, this.paymentType := id, paymentType;
      billingStatus, inventoryStatus, logisticsStatus := Pending, Pending, Pending;
      globalStatus, updatedAt := Processing, now;
    }

    ghost predicate Stores(row: Row)
      reads this
    {
      && row.payment == paymentType
      && row.billing.status == billingStatus
      && row.inventory.status == inventoryStatus
      && row.logistics.status == logisticsStatus
      && row.global == globalStatus
    }

    predicate AnyStep(st: StepStatus)
      reads this
    {
      billingStatus == st || inventoryStatus == st || logisticsStatus == st
    }

    function Loaded(): Columns
      reads this
    {
      Columns(billingStatus, inventoryStatus, logisticsStatus, globalStatus)
    }

    /** The ORM issues an UPDATE, which stamps the row, only for changed columns. */
    method Flush(loaded: Columns, now: int)
      modifies this`updatedAt
      ensures updatedAt == if Loaded() == loaded then old(updatedAt) else now
    {
      if Loaded() != loaded {
        updatedAt := now;
      }
    }

    /** The succeeding branch of `process_billing`. */
    method CommitBilling(status: StepStatus, now: int, ghost row: Row)
      requires Stores(row) && row.billing.worker == FanningOut(status)
      modifies this
      ensures Stores(BilledRow(row))
      ensures updatedAt == if row.SameColumns(BilledRow(row)) then old(updatedAt) else now
    {
      var loaded := Loaded();
      billingStatus := status;
      Flush(loaded, now);
    }

    /** The failing branch of `process_billing`. */
    method RejectBilling(now: int, ghost row: Row)
      requires Stores(row)
      modifies this
      ensures Stores(RejectRow(row))
      ensures updatedAt == if row.SameColumns(RejectRow(row)) then old(updatedAt) else now
    {
      var loaded := Loaded();
      billingStatus := Failed;
      inventoryStatus := StepStatus.Cancelled;
      logisticsStatus := StepStatus.Cancelled;
      globalStatus := Compensating;
      Flush(loaded, now);
    }

    /** The transaction of `process_inventory`. */
    method CommitInventory(status: StepStatus, now: int, ghost row: Row)
      returns (previous: GlobalStatus, completes: bool, fails: bool)
      requires Stores(row) && row.inventory.worker == Called(status)
      modifies this
      ensures Stores(CommitRow(row, Inventory))
      ensures updatedAt == if row.SameColumns(CommitRow(row, Inventory)) then old(updatedAt) else now
      ensures previous == row.global && completes == WouldComplete(row, Inventory)
      ensures fails == (row.global != Compensating && status != Success)
    {
      var loaded := Loaded();
      previous, completes, fails := globalStatus, false, false;
      if globalStatus == Compensating {
        inventoryStatus := status;
        Flush(loaded, now);
        return;
      }
      inventoryStatus := status;
      if status == Success {
        if logisticsStatus == Success && (billingStatus == Success || billingStatus == Skipped) {
          globalStatus := Completed;
          completes := true;
        }
      } else {
        globalStatus := Compensating;
        fails := true;
      }
      Flush(loaded, now);
    }

    /** The transaction of `process_logistic`. */
    method CommitLogistics(status: StepStatus, now: int, ghost row: Row)
      returns (previous: GlobalStatus, completes: bool, fails: bool)
      requires Stores(row) && row.logistics.worker == Called(status)
      modifies this
      ensures Stores(CommitRow(row, Logistics))
      ensures updatedAt == if row.SameColumns(CommitRow(row, Logistics)) then old(updatedAt) else now
      ensures previous == row.global && completes == WouldComplete(row, Logistics)
      ensures fails == (row.global != Compensating && status != Success)
    {
      var loaded := Loaded();
      previous, completes, fails := globalStatus, false, false;
      if globalStatus == Compensating {
        logisticsStatus := status;
        Flush(loaded, now);
        return;
      }
      logisticsStatus := status;
      if status == Success {
        if inventoryStatus == Success && (billingStatus == Success || billingStatus == Skipped) {
          globalStatus := Completed;
          completes := true;
        }
      } else {
        globalStatus := Compensating;
        fails := true;
      }
      Flush(loaded, now);
    }

    /** The first transaction of `compensation`. */
    method StartCompensation(now: int, ghost row: Row) returns (deferred: bool, snapshot: Flags)
      requires Stores(row)
      modifies this
      ensures deferred == row.AnyStatus(Pending)
      ensures deferred ==> Stores(row) && updatedAt == old(updatedAt)
      ensures !deferred ==> Stores(StartRow(row)) && updatedAt == now && snapshot == Successes(row)
    {
      snapshot := NONE;
      deferred := AnyStep(Pending);
      if deferred {
        return;
      }
      snapshot := Flags(billingStatus == Success, inventoryStatus == Success, logisticsStatus == Success);
      globalStatus := Compensating;
      updatedAt := now;
    }

    /** Whether a step is left to take back once these reversals are merged. */
    predicate LeftAfter(snapshot: Flags, results: Flags)
      reads this
    {
      || (billingStatus == Success && !(snapshot.billing && results.billing))
      || (inventoryStatus == Success && !(snapshot.inventory && results.inventory))
      || (logisticsStatus == Success && !(snapshot.logistics && results.logistics))
    }

    method MergeStatuses(snapshot: Flags, results: Flags, ghost row: Row)
      requires Stores(row)
      modifies this`billingStatus, this`inventoryStatus, this`logisticsStatus
      ensures Stores(Merged(row, Hits(Reversing(snapshot, NONE, results))))
      ensures billingStatus == if snapshot.billing && results.billing then Compensated else old(billingStatus)
      ensures inventoryStatus == if snapshot.inventory && results.inventory then Compensated else old(inventoryStatus)
      ensures logisticsStatus == if snapshot.logistics && results.logistics then Compensated else old(logisticsStatus)
    {
      if snapshot.billing && results.billing {
        billingStatus := Compensated;
      }
      if snapshot.inventory && results.inventory {
        inventoryStatus := Compensated;
      }
      if snapshot.logistics && results.logistics {
        logisticsStatus := Compensated;
      }
    }

    /** The second transaction of `compensation`, written from the snapshot of the
        first without looking at the statuses again. */
    method FinishCompensation(snapshot: Flags, results: Flags, retry: nat, now: int, ghost row: Row)
      returns (previous: GlobalStatus, retries: bool)
      requires Stores(row)
      modifies this
      ensures var hits := Hits(Reversing(snapshot, NONE, results));
              && Stores(MergeRow(row, hits, retry))
              && updatedAt == (if row.SameColumns(MergeRow(row, hits, retry)) then old(updatedAt) else now)
              && retries == (MergeRow(row, hits, retry).AnyStatus(Success) && retry < LAST_RETRY)
      ensures previous == row.global
      ensures billingStatus == if snapshot.billing && results.billing then Compensated else old(billingStatus)
      ensures inventoryStatus == if snapshot.inventory && results.inventory then Compensated else old(inventoryStatus)
      ensures logisticsStatus == if snapshot.logistics && results.logistics then Compensated else old(logisticsStatus)
      ensures !AnyStep(Success) ==> globalStatus == GlobalStatus.Cancelled && !retries
      ensures AnyStep(Success) && retry >= 4 ==> globalStatus == ManualRequired && !retries
      ensures AnyStep(Success) && retry < 4 ==> globalStatus == old(globalStatus) && retries
    {
      var loaded := Loaded();
      previous, retries := globalStatus, false;
      MergeStatuses(snapshot, results, row);
      ghost var merged := Merged(row, Hits(Reversing(snapshot, NONE, results)));
      var statuses := [billingStatus, inventoryStatus, logisticsStatus];
      assert Success in statuses <==> merged.AnyStatus(Success);
      if Success !in statuses {
        globalStatus := GlobalStatus.Cancelled;
      } else if retry >= LAST_RETRY {
        globalStatus := ManualRequired;
      } else {
        retries := true;
      }
      Flush(loaded, now);
    }
  }
}
