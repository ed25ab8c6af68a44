/** The tracker's sums, taken in one pass along the whole join path, are the sums taken level by level. */
module FulfilmentGrouping {
  import opened Links
  import opened ProcurementTables
  import opened FulfilmentInvariants
  import opened FulfilmentFunnel
  import opened Tracking

  // ---- level by level up to the attempts

  function OverPurchases(db: DB, rows: seq<Link>): seq<Link> {
    Roll(rows, PurchasedBy(db))
  }

  function OverReceipts(db: DB, rows: seq<Link>): seq<Link> {
    OverPurchases(db, Roll(rows, Receipts(db.receiptLines)))
  }

  function OverDeliveries(db: DB, rows: seq<Link>): seq<Link> {
    OverReceipts(db, Roll(rows, Reservations(db.deliveryLines)))
  }

  function OverOutcomes(db: DB, rows: seq<Link>): seq<Link> {
    OverDeliveries(db, Roll(rows, Rejections(db.outcomeLines)))
  }

  /** The quantities of an attempt, each summed within its parent row, then within that row's parent, and so on. */
  function Nested(db: DB, a: nat): Quantities
    requires a < |db.attempts|
  {
    var rejected := Total(OverDeliveries(db, Rejections(db.outcomeLines)), a);
    var closed := Total(OverOutcomes(db, ActionsOf(db.actions, Close)), a);
    var reassigned := Total(OverOutcomes(db, Replacements(db.attempts)), a);
    Quantities(
      Total(PurchasedBy(db), a),
      Total(OverPurchases(db, Receipts(db.receiptLines)), a),
      Total(OverReceipts(db, Reservations(db.deliveryLines)), a),
      Total(OverReceipts(db, Dispatches(db.deliveryLines, db.deliveries)), a),
      Total(OverDeliveries(db, Acceptances(db.outcomeLines)), a),
      rejected, closed, reassigned, db.attempts[a].qty, rejected - closed - reassigned)
  }

  lemma {:induction false} UnderLift(rows: seq<Link>, parents: seq<Link>, n: nat)
    requires Under(rows, |parents|) && forall i | 0 <= i < |parents| :: 0 <= parents[i].parent < n
    ensures Under(Lift(rows, parents), n)
  {
  }

  /** Every row of the four tables of lines hangs under a row. */
  ghost predicate Hangs(db: DB) {
    && (forall i | 0 <= i < |db.purchaseLines| :: 0 <= PurchasedBy(db)[i].parent < |db.attempts|)
    && (forall i | 0 <= i < |db.receiptLines| :: 0 <= Receipts(db.receiptLines)[i].parent < |db.purchaseLines|)
    && (forall i | 0 <= i < |db.deliveryLines| :: 0 <= Reservations(db.deliveryLines)[i].parent < |db.receiptLines|)
    && (forall i | 0 <= i < |db.outcomeLines| :: 0 <= Rejections(db.outcomeLines)[i].parent < |db.deliveryLines|)
  }

  lemma {:induction false} LinesHang(db: DB)
    requires Linked(db)
    ensures Hangs(db)
  {
  }

  lemma {:induction false} NestedOverReceipts(db: DB, rows: seq<Link>, a: nat)
    requires Hangs(db) && Under(rows, |db.receiptLines|)
    ensures Total(OverReceipts(db, rows), a) == Total(Lift(rows, ReceivedBy(db)), a)
  {
    var r, p := Receipts(db.receiptLines), PurchasedBy(db);
    RollOfLift(rows, r, p);
    UnderLift(rows, r, |p|);
    GroupedEqualsNested(Lift(rows, r), p, a);
    LiftAssociative(rows, r, p);
  }

  lemma {:induction false} NestedOverDeliveries(db: DB, rows: seq<Link>, a: nat)
    requires Hangs(db) && Under(rows, |db.deliveryLines|)
    ensures Total(OverDeliveries(db, rows), a) == Total(Lift(rows, ReservedBy(db)), a)
  {
    var d, r := Reservations(db.deliveryLines), Receipts(db.receiptLines);
    RollOfLift(rows, d, r);
    UnderLift(rows, d, |r|);
    NestedOverReceipts(db, Lift(rows, d), a);
    LiftAssociative(rows, d, ReceivedBy(db));
  }

  lemma {:induction false} NestedOverOutcomes(db: DB, rows: seq<Link>, a: nat)
    requires Hangs(db) && Under(rows, |db.outcomeLines|)
    ensures Total(OverOutcomes(db, rows), a) == Total(Lift(rows, RejectedBy(db)), a)
  {
    var j, d := Rejections(db.outcomeLines), Reservations(db.deliveryLines);
    RollOfLift(rows, j, d);
    UnderLift(rows, j, |d|);
    NestedOverDeliveries(db, Lift(rows, j), a);
    LiftAssociative(rows, j, ReservedBy(db));
  }

  /** Every quantity of an attempt that one pass groups along the join path is the nested sum of its lines. */
  lemma {:induction false} GroupedRefinesNested(db: DB, a: nat)
    requires Linked(db) && a < |db.attempts|
    ensures AttemptSummary(db, a).quantities == Nested(db, a)
  {
    SummaryIsTally(db, a);
    LinesHang(db);
    GroupedEqualsNested(Receipts(db.receiptLines), PurchasedBy(db), a);
    NestedOverReceipts(db, Reservations(db.deliveryLines), a);
    NestedOverReceipts(db, Dispatches(db.deliveryLines, db.deliveries), a);
    NestedOverDeliveries(db, Acceptances(db.outcomeLines), a);
    NestedOverDeliveries(db, Rejections(db.outcomeLines), a);
    NestedOverOutcomes(db, ActionsOf(db.actions, Close), a);
    NestedOverOutcomes(db, Replacements(db.attempts), a);
  }

  // ---- every line once

  /** A quantity summed over all attempts. */
  function OverAll(db: DB, rows: seq<Link>): int {
    Total(Roll(rows, OneGroup(|db.attempts|)), 0)
  }

  lemma {:induction false} GrandLift(children: seq<Link>, parents: seq<Link>)
    ensures Grand(Lift(children, parents)) == Grand(children)
  {
    if children != [] {
      var k := |children| - 1;
      assert Lift(children, parents)[..k] == Lift(children[..k], parents);
      GrandLift(children[..k], parents);
    }
  }

  lemma {:induction false} LiftedOnce(db: DB, rows: seq<Link>, path: seq<Link>)
    requires Under(rows, |path|) && forall i | 0 <= i < |path| :: 0 <= path[i].parent < |db.attempts|
    ensures OverAll(db, Lift(rows, path)) == Grand(rows)
  {
    UnderLift(rows, path, |db.attempts|);
    EveryRowOnce(Lift(rows, path), |db.attempts|);
    GrandLift(rows, path);
  }

  lemma {:induction false} PathsHang(db: DB)
    requires Hangs(db)
    ensures forall i | 0 <= i < |db.receiptLines| :: 0 <= ReceivedBy(db)[i].parent < |db.attempts|
    ensures forall i | 0 <= i < |db.deliveryLines| :: 0 <= ReservedBy(db)[i].parent < |db.attempts|
    ensures forall i | 0 <= i < |db.outcomeLines| :: 0 <= RejectedBy(db)[i].parent < |db.attempts|
  {
  }

  /** Over all attempts, every line of every table is counted exactly once. */
  lemma {:induction false} EveryLineOnce(db: DB)
    requires Linked(db)
    ensures OverAll(db, PurchasedBy(db)) == Grand(PurchasedBy(db))
    ensures OverAll(db, ReceivedBy(db)) == Grand(Receipts(db.receiptLines))
    ensures OverAll(db, ReservedBy(db)) == Grand(Reservations(db.deliveryLines))
    ensures OverAll(db, DispatchedBy(db)) == Grand(Dispatches(db.deliveryLines, db.deliveries))
    ensures OverAll(db, AcceptedBy(db)) == Grand(Acceptances(db.outcomeLines))
    ensures OverAll(db, RejectedBy(db)) == Grand(Rejections(db.outcomeLines))
    ensures OverAll(db, ClosedBy(db)) == Grand(ActionsOf(db.actions, Close))
    ensures OverAll(db, ReplacedBy(db)) == Grand(Replacements(db.attempts))
  {
    LinesHang(db);
    PathsHang(db);
    EveryRowOnce(PurchasedBy(db), |db.attempts|);
    LiftedOnce(db, Receipts(db.receiptLines), PurchasedBy(db));
    LiftedOnce(db, Reservations(db.deliveryLines), ReceivedBy(db));
    LiftedOnce(db, Dispatches(db.deliveryLines, db.deliveries), ReceivedBy(db));
    LiftedOnce(db, Acceptances(db.outcomeLines), ReservedBy(db));
    LiftedOnce(db, Rejections(db.outcomeLines), ReservedBy(db));
    LiftedOnce(db, ActionsOf(db.actions, Close), RejectedBy(db));
    LiftedOnce(db, Replacements(db.attempts), RejectedBy(db));
  }

  /** An outcome line counts, accepted and rejected quantity alike, towards the one attempt that its delivery
      line, receipt line and purchase line lead back to. */
  lemma {:induction false} EveryOutcomeOnce(db: Store, o: nat)
    requires o < |db.outcomeLines|
    ensures AcceptedBy(db)[o] == Link(AttemptOf(db, o), db.outcomeLines[o].accepted)
    ensures RejectedBy(db)[o] == Link(AttemptOf(db, o), db.outcomeLines[o].rejected)
    ensures |AcceptedBy(db)| == |RejectedBy(db)| == |db.outcomeLines|
  {
    RejectedParent(db, o);
    assert AcceptedBy(db)[o].parent == RejectedBy(db)[o].parent;
  }
}
