/** The external services: per service and order, the last action carried out. */
module MockEnv {
  import opened SagaTypes
  import opened SagaMachine

  type OrderId = int

  /** A stored record: `status`, "processed" or "compensated", and `last_action`. */
  datatype Entry = Entry(compensated: bool, lastAction: string)

  /** The two actions that the endpoints of a service pass on. */
  function ActionName(svc: Service, isCompensation: bool): string {
    match svc
    case Billing => if isCompensation then "refund" else "charge"
    case Inventory => if isCompensation then "release" else "reserve"
    case Logistics => if isCompensation then "cancel" else "arrange"
  }

  lemma ActionsDiffer(svc: Service)
    ensures ActionName(svc, true) != ActionName(svc, false)
  {
    match svc
    case Billing => assert "refund"[0] != "charge"[0];
    case Inventory => assert "release"[2] != "reserve"[2];
    case Logistics => assert "cancel"[0] != "arrange"[0];
  }

  type Records = map<Service, map<OrderId, Entry>>

  ghost function RecordIn(db: Records, svc: Service, id: OrderId): Record {
    if svc !in db || id !in db[svc] then Absent
    else if db[svc][id].compensated then Reversed
    else Processed
  }

  /** Status and last action of an entry belong together. */
  ghost predicate EntryOk(db: Records, svc: Service, id: OrderId) {
    svc in db && (id in db[svc] ==> db[svc][id].lastAction == ActionName(svc, db[svc][id].compensated))
  }

  class Services {
    var db: Records

    ghost predicate Valid()
      reads this
    {
      forall svc: Service, id: OrderId :: EntryOk(db, svc, id)
    }

    constructor ()
      ensures Valid() && forall svc, id :: RecordIn(db, svc, id) == Absent
    {
      db := map[Billing := map[], Inventory := map[], Logistics := map[]];
      new;
      forall svc: Service, id: OrderId ensures EntryOk(db, svc, id) {
        match svc case Billing => case Inventory => case Logistics =>
      }
    }

    /** Repeating the last action succeeds without effect; otherwise the service
        either refuses and changes nothing, or records the action. No other record
        is touched. */
    method ProcessServiceCall(svc: Service, id: OrderId, action: string, isCompensation: bool, granted: bool)
      returns (ok: bool)
      requires Valid() && action == ActionName(svc, isCompensation)
      modifies this
      ensures Valid()
      ensures (RecordIn(db, svc, id), ok) == ServiceCall(RecordIn(old(db), svc, id), isCompensation, granted)
      ensures ok <==> RecordIn(db, svc, id) == if isCompensation then Reversed else Processed
      ensures ok <==> granted || RecordIn(old(db), svc, id) == if isCompensation then Reversed else Processed
      ensures !ok ==> db == old(db)
      ensures forall s, i :: (s, i) != (svc, id) ==> RecordIn(db, s, i) == RecordIn(old(db), s, i)
    {
      ActionsDiffer(svc);
      assert EntryOk(db, svc, id);
      if id in db[svc] && db[svc][id].lastAction == action {
        return true;
      }
      if !granted {
        return false;
      }
      db := db[svc := db[svc][id := Entry(isCompensation, action)]];
      assert forall s: Service, i: OrderId :: EntryOk(old(db), s, i) ==> EntryOk(db, s, i);
      return true;
    }
  }
}
