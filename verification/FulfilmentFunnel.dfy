/** The local bounds, composed along the join paths: no stage of an attempt carries more than the stage before it. */
module FulfilmentFunnel {
  import opened Links
  import opened ProcurementTables
  import opened FulfilmentInvariants

  lemma {:induction false} SettledSplit(db: DB, a: int)
    ensures Total(Lift(Settlements(db.outcomeLines), DispatchedBy(db)), a)
        == Total(AcceptedBy(db), a) + Total(RejectedBy(db), a)
  {
    TotalSplit(Lift(Settlements(db.outcomeLines), DispatchedBy(db)), AcceptedBy(db), RejectedBy(db), a);
  }

  lemma {:induction false} TargetTotal(attempts: seq<Attempt>, a: nat)
    requires a < |attempts|
    ensures Total(Targets(attempts), a) == attempts[a].qty
  {
    var n := |attempts| - 1;
    assert Targets(attempts) == Targets(attempts[..n]) + [Link(n, attempts[n].qty)];
    TotalAppend(Targets(attempts[..n]), Link(n, attempts[n].qty));
    if a == n {
      TotalZero(Targets(attempts[..n]), n);
    } else {
      TargetTotal(attempts[..n], a);
    }
  }

  lemma {:induction false} DispatchedWithinReserved(db: DB, a: nat)
    requires Linked(db)
    ensures |DispatchedBy(db)| == |db.deliveryLines| && Total(DispatchedBy(db), a) <= Total(ReservedBy(db), a)
    ensures 0 <= Total(AcceptedBy(db), a) && 0 <= Total(RejectedBy(db), a)
  {
    TotalNonNegative(AcceptedBy(db), a);
    TotalNonNegative(RejectedBy(db), a);
    Pointwise(DispatchedBy(db), ReservedBy(db), a);
  }

  /** Accepted plus rejected never exceeds dispatched, nor dispatched reserved, nor reserved received,
      nor received purchased, nor purchased the attempt's quantity. */
  lemma {:induction false} Funnel(db: DB, a: nat)
    requires Linked(db) && Bounds(db) && a < |db.attempts|
    ensures 0 <= Total(AcceptedBy(db), a) && 0 <= Total(RejectedBy(db), a)
    ensures Total(AcceptedBy(db), a) + Total(RejectedBy(db), a) <= Total(DispatchedBy(db), a)
    ensures Total(DispatchedBy(db), a) <= Total(ReservedBy(db), a) <= Total(ReceivedBy(db), a)
            <= Total(PurchasedBy(db), a) <= db.attempts[a].qty
  {
    hide Under, DispatchedBy, AcceptedBy, RejectedBy, Settlements;
    DispatchedWithinReserved(db, a);
    LiftBound(Settlements(db.outcomeLines), DispatchedBy(db), a);
    SettledSplit(db, a);
    LiftBound(Reservations(db.deliveryLines), ReceivedBy(db), a);
    LiftBound(Receipts(db.receiptLines), PurchasedBy(db), a);
    assert Targets(db.attempts)[a].qty == db.attempts[a].qty;
  }

  /** When everything an attempt asked for is settled, every one of its purchase, receipt and delivery
      lines is used up exactly, and every delivery line has left. */
  lemma {:induction false} SaturatedLines(db: DB, a: nat)
    requires Linked(db) && Bounds(db) && a < |db.attempts|
    requires Total(AcceptedBy(db), a) + Total(RejectedBy(db), a) == db.attempts[a].qty
    ensures forall i | 0 <= i < |db.purchaseLines| && db.purchaseLines[i].attempt == a ::
              Total(Receipts(db.receiptLines), i) == db.purchaseLines[i].qty
    ensures forall i | 0 <= i < |db.receiptLines| && ReceivedBy(db)[i].parent == a ::
              Total(Reservations(db.deliveryLines), i) == db.receiptLines[i].qty
    ensures forall i | 0 <= i < |db.deliveryLines| && ReservedBy(db)[i].parent == a ::
              Total(Settlements(db.outcomeLines), i) == DispatchedBy(db)[i].qty == db.deliveryLines[i].qty
  {
    Funnel(db, a);
    SettledSplit(db, a);
    LiftBound(Settlements(db.outcomeLines), DispatchedBy(db), a);
    Pointwise(DispatchedBy(db), ReservedBy(db), a);
    LiftBound(Reservations(db.deliveryLines), ReceivedBy(db), a);
    LiftBound(Receipts(db.receiptLines), PurchasedBy(db), a);
    forall i | 0 <= i < |db.purchaseLines| && db.purchaseLines[i].attempt == a
      ensures Total(Receipts(db.receiptLines), i) == db.purchaseLines[i].qty
    {
      assert PurchasedBy(db)[i].parent == a;
    }
    forall i | 0 <= i < |db.deliveryLines| && ReservedBy(db)[i].parent == a
      ensures Total(Settlements(db.outcomeLines), i) == DispatchedBy(db)[i].qty == db.deliveryLines[i].qty
    {
      assert DispatchedBy(db)[i].parent == a;
    }
  }

  /** What one rejection can put back is within the attempt it was delivered for. */
  lemma {:induction false} RejectedWithin(db: Store, rejection: nat)
    requires Bounds(db) && rejection < |db.outcomeLines|
    ensures RejectedBy(db)[rejection].parent == AttemptOf(db, rejection)
    ensures db.outcomeLines[rejection].rejected <= db.attempts[AttemptOf(db, rejection)].qty
  {
    SchemaLinks(db);
    RejectedParent(db, rejection);
    var a := AttemptOf(db, rejection);
    Funnel(db, a);
    RowWithinTotal(RejectedBy(db), rejection);
  }

  lemma {:induction false} RejectedParent(db: Store, rejection: nat)
    requires rejection < |db.outcomeLines|
    ensures RejectedBy(db)[rejection] == Link(AttemptOf(db, rejection), db.outcomeLines[rejection].rejected)
  {
  }
}
