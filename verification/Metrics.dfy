/** The saga counters. */
module Metrics {
  import opened SagaTypes

  datatype Counts = Counts(success: nat, compensated: nat, stuck: nat, attempted: nat)

  class Counters {
    var success: nat
    var compensated: nat
    var stuck: nat
    var attempted: nat

    constructor ()
      ensures success == compensated == stuck == attempted == 0
    {
      success, compensated, stuck, attempted := 0, 0, 0, 0;
    }

    ghost function All(): Counts
      reads this
    {
      Counts(success, compensated, stuck, attempted)
    }

    method CountAttempt()
      modifies this`attempted
      ensures attempted == old(attempted) + 1
    {
      attempted := attempted + 1;
    }

    method CountStuck()
      modifies this`stuck
      ensures stuck == old(stuck) + 1
    {
      stuck := stuck + 1;
    }

    /** Counts a transition into a final status, in that status's counter alone. */
    method RecordFinalStatusTransition(previous: GlobalStatus, current: GlobalStatus)
      modifies this
      ensures previous == current || current == Processing || current == Compensating ==> All() == old(All())
      ensures previous != current && current == Completed ==> All() == old(All()).(success := old(success) + 1)
      ensures previous != current && current == GlobalStatus.Cancelled ==>
                All() == old(All()).(compensated := old(compensated) + 1)
      ensures previous != current && current == ManualRequired ==> All() == old(All()).(stuck := old(stuck) + 1)
    {
      if previous == current {
        return;
      }
      if current == Completed {
        success := success + 1;
      } else if current == GlobalStatus.Cancelled {
        compensated := compensated + 1;
      } else if current == ManualRequired {
        stuck := stuck + 1;
      }
    }
  }
}
