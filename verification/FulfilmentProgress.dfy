/** Which attempts can still be brought to an end, and by what operations. */
module FulfilmentProgress {
  import opened Options
  import opened Links
  import opened ProcurementTables
  import opened ProcurementSteps
  import opened ProcurementMoves
  import opened Runs
  import opened SingleRows
  import opened FulfilmentInvariants
  import opened FulfilmentSteps
  import FulfilmentFunnel
  import opened FulfilmentTheorems
  import opened FulfilmentGenerations
  import opened Tracking

  ghost predicate Ready(db: DB) {
    Inv(db) && Timely(db)
  }

  /** Everything ever done for an attempt; it can only grow, up to six times the attempt's quantity. */
  function Done(q: Quantities): int {
    q.purchased + q.received + q.reserved + q.dispatched + (q.accepted + q.rejected) + (q.closed + q.reassigned)
  }

  /** The stages of an attempt narrow, which bounds all that can ever be done for it. */
  lemma {:induction false} DoneBounded(db: Store, a: nat)
    requires Ready(db) && a < |db.attempts|
    ensures Narrowing(Tally(db, a)) && 0 <= Done(Tally(db, a)) <= 6 * db.attempts[a].qty
  {
    TallyNarrows(db, a);
  }

  // ---- where something is left to do

  lemma {:induction false} LessSomewhere(less: seq<Link>, more: seq<Link>, p: int) returns (i: nat)
    requires |less| == |more| && forall k | 0 <= k < |less| :: less[k].parent == more[k].parent
    requires Total(less, p) < Total(more, p)
    ensures i < |less| && less[i].parent == p && less[i].qty < more[i].qty
    decreases |less|
  {
    var n := |less| - 1;
    if less[n].parent == p && less[n].qty < more[n].qty {
      i := n;
    } else {
      i := LessSomewhere(less[..n], more[..n], p);
    }
  }

  /** If a row's grandchildren fall short, one of its children is not drawn in full. */
  lemma {:induction false} Undrawn(children: seq<Link>, parents: seq<Link>, p: int) returns (i: nat)
    requires Under(children, |parents|) && Total(Lift(children, parents), p) < Total(parents, p)
    ensures i < |parents| && parents[i].parent == p && Total(children, i) < parents[i].qty
  {
    GroupedEqualsNested(children, parents, p);
    i := LessSomewhere(Roll(children, parents), parents, p);
  }

  // ---- one step

  /** No outcome, resolution or attempt is added. */
  ghost predicate Quiet(db: DB, next: DB) {
    next.attempts == db.attempts && next.actions == db.actions && next.outcomeLines == db.outcomeLines
  }

  /** The request of an attempt, which is submitted. */
  function RequestOf(db: Store, a: nat): nat
    requires a < |db.attempts|
  {
    db.items[db.attempts[a].item].request
  }

  lemma {:induction false} RequestOpen(db: Store, a: nat)
    requires Timely(db) && a < |db.attempts|
    ensures Locked(db, RequestOf(db, a), true)
  {
    assert AttemptTimely(db, db.attempts[a]);
  }

  /** A supplier that the attempt may be bought from. */
  function SellerFor(db: Store, a: nat): (supplier: nat)
    requires a < |db.attempts|
    ensures SupplierAllowed(db, a, supplier)
  {
    var t := db.attempts[a];
    if t.replaced.None? then 0
    else
      var before := SupplierOf(db, PurchaseLineOf(db, t.replaced.value));
      if t.strategy == SameSupplier then before else before + 1
  }

  function OfferFor(db: Store, a: nat): Offer
    requires a < |db.attempts|
  {
    Offer(db.attempts[a].item, None, SellerFor(db, a), "NGN", None)
  }

  /** Offers decide nothing about an attempt. */
  lemma {:induction false} OfferingOnly(db: Store, next: Store, a: nat)
    requires next == db.(offers := next.offers) && a < |db.attempts|
    ensures Tally(next, a) == Tally(db, a) && OfferFor(next, a) == OfferFor(db, a)
  {
  }

  /** An offer of that one line. */
  lemma {:induction false} Offered(db: Store, a: nat) returns (op: Op, next: Store)
    requires Timely(db) && a < |db.attempts|
    ensures Attempted(db, op) == Some(next) && next == db.(offers := db.offers + [OfferFor(db, a)])
  {
    hide SupplierAllowed, SellerFor, Timely;
    RequestOpen(db, a);
    next := db.(offers := db.offers + [OfferFor(db, a)]);
    var rows := [OfferRow(db.attempts[a].item, None)];
    var input := OfferInput(RequestOf(db, a), SellerFor(db, a), "NGN", None, rows, true, AT_ONCE);
    assert OfferLines(input) == [OfferFor(db, a)];
    op := OpOffer(input);
  }

  lemma {:induction false} BoughtRow(db: Store, a: nat, qty: nat, begun: Store) returns (next: Store)
    requires a < |db.attempts| && 0 < qty && Total(PurchasedBy(db), a) + qty <= db.attempts[a].qty
    requires db.offers != [] && db.offers[|db.offers| - 1] == OfferFor(db, a)
    requires begun == OpenPurchase(db, Purchase(RequestOf(db, a), SellerFor(db, a), "NGN"), db.clock)
    ensures PurchaseOneRow(begun, |db.purchases|, PurchaseRow(a, |db.offers| - 1, qty), db.clock) == Some(next)
    ensures next.purchaseLines == db.purchaseLines + [PurchaseLine(|db.purchases|, a, qty, db.clock)] && Quiet(db, next)
  {
    assert begun.purchases[|db.purchases|] == Purchase(RequestOf(db, a), SellerFor(db, a), "NGN");
    assert SupplierAllowed(begun, a, SellerFor(db, a));
    hide SupplierAllowed;
    next := PurchaseOneRow(begun, |db.purchases|, PurchaseRow(a, |db.offers| - 1, qty), db.clock).value;
  }

  /** Buy what is still to be bought for the attempt, on the newest offer. */
  lemma {:induction false} BoughtRest(db: Store, a: nat, qty: nat) returns (op: Op, next: Store)
    requires Timely(db) && a < |db.attempts| && 0 < qty && Total(PurchasedBy(db), a) + qty <= db.attempts[a].qty
    requires db.offers != [] && db.offers[|db.offers| - 1] == OfferFor(db, a)
    ensures Attempted(db, op) == Some(next)
    ensures next.purchaseLines == db.purchaseLines + [PurchaseLine(|db.purchases|, a, qty, db.clock)] && Quiet(db, next)
  {
    hide Timely, Attempted, OfferFor, SellerFor, SupplierAllowed, PurchaseOneRow, Quiet, Schema;
    RequestOpen(db, a);
    var row, purchase := PurchaseRow(a, |db.offers| - 1, qty), Purchase(RequestOf(db, a), SellerFor(db, a), "NGN");
    var begun := OpenPurchase(db, purchase, db.clock);
    next := BoughtRow(db, a, qty, begun);
    var input := PurchaseInput(purchase.request, purchase.supplier, "NGN", [row], true, AT_ONCE);
    PurchaseOfOne(db, input, row, begun, next);
    op := OpPurchase(input);
  }

  lemma {:induction false} ReceivedRow(db: Store, i: nat, qty: nat, begun: Store) returns (next: Store)
    requires Timely(db) && i < |db.purchaseLines|
    requires 0 < qty && Total(Receipts(db.receiptLines), i) + qty <= db.purchaseLines[i].qty
    requires begun == OpenReceipt(db, Receipt(db.purchaseLines[i].purchase, db.clock), db.clock)
    ensures ReceiveOneRow(begun, |db.receipts|, ReceiptRow(i, qty)) == Some(next)
    ensures next.receiptLines == db.receiptLines + [ReceiptLine(|db.receipts|, i, qty)]
    ensures next.purchaseLines == db.purchaseLines && Quiet(db, next)
  {
    assert begun.receipts[|db.receipts|] == Receipt(db.purchaseLines[i].purchase, db.clock);
    next := ReceiveOneRow(begun, |db.receipts|, ReceiptRow(i, qty)).value;
  }

  /** Receive what is still to come of a purchase line. */
  lemma {:induction false} ReceivedRest(db: Store, i: nat, qty: nat) returns (op: Op, next: Store)
    requires Timely(db) && PurchasedWithin(db) && i < |db.purchaseLines|
    requires 0 < qty && Total(Receipts(db.receiptLines), i) + qty <= db.purchaseLines[i].qty
    ensures Attempted(db, op) == Some(next)
    ensures next.receiptLines == db.receiptLines + [ReceiptLine(|db.receipts|, i, qty)]
    ensures next.purchaseLines == db.purchaseLines && Quiet(db, next)
  {
    hide Timely, Attempted, ReceiveOneRow, Quiet, Schema;
    var row, purchase := ReceiptRow(i, qty), db.purchaseLines[i].purchase;
    RequestOpen(db, db.purchaseLines[i].attempt);
    var begun := OpenReceipt(db, Receipt(purchase, db.clock), db.clock);
    next := ReceivedRow(db, i, qty, begun);
    var input := ReceiptInput(purchase, None, [row], true, AT_ONCE);
    ReceiptOfOne(db, input, row, begun, next);
    op := OpReceipt(input);
  }

  /** Put what is left of a receipt line on a delivery. */
  lemma {:induction false} DeliveredRest(db: Store, i: nat, qty: nat) returns (op: Op, next: Store)
    requires Timely(db) && PurchasedWithin(db) && ReceivedWithin(db) && i < |db.receiptLines|
    requires 0 < qty && Total(Reservations(db.deliveryLines), i) + qty <= db.receiptLines[i].qty
    ensures Attempted(db, op) == Some(next)
    ensures next.deliveryLines == db.deliveryLines + [DeliveryLine(|db.deliveries|, i, qty)]
    ensures next.receiptLines == db.receiptLines && next.purchaseLines == db.purchaseLines && Quiet(db, next)
  {
    hide Attempted;
    var row, request := DeliveryRow(i, qty), db.purchases[db.receipts[db.receiptLines[i].receipt].purchase].request;
    RequestOpen(db, db.purchaseLines[db.receiptLines[i].purchaseLine].attempt);
    hide Timely;
    var begun := OpenDelivery(db, request, db.clock);
    next := DeliverOneRow(begun, |db.deliveries|, row).value;
    assert Quiet(db, next);
    hide DeliverOneRow, Schema, Quiet;
    var input := DeliveryInput(request, [row], true, AT_ONCE);
    DeliveryOfOne(db, input, row, begun, next);
    op := OpDelivery(input);
  }

  lemma {:induction false} DeliveryOpen(db: Store, i: nat)
    requires Timely(db) && OneRequest(db) && i < |db.deliveryLines|
    ensures Locked(db, db.deliveries[db.deliveryLines[i].delivery].request, true)
  {
    RequestOpen(db, db.purchaseLines[db.receiptLines[db.deliveryLines[i].receiptLine].purchaseLine].attempt);
  }

  /** Let the delivery of a line leave. */
  lemma {:induction false} SentOff(db: Store, i: nat) returns (op: Op, next: Store)
    requires Timely(db) && OneRequest(db) && i < |db.deliveryLines|
    requires db.deliveries[db.deliveryLines[i].delivery].dispatched.None?
    ensures Attempted(db, op) == Some(next) && Quiet(db, next)
    ensures next.deliveryLines == db.deliveryLines && next.receiptLines == db.receiptLines
    ensures next.purchaseLines == db.purchaseLines && 0 < DispatchedBy(next)[i].qty
  {
    hide Timely, OneRequest, WaybillEvents;
    DeliveryOpen(db, i);
    op := OpDispatch(db.deliveryLines[i].delivery, true, true, AT_ONCE);
    next := Dispatch(db, db.deliveryLines[i].delivery, true, true, AT_ONCE).value;
  }

  /** An outcome line is added to what was there. */
  ghost predicate MetLine(db: DB, next: DB, line: OutcomeLine) {
    && next.outcomeLines == db.outcomeLines + [line] && next.deliveryLines == db.deliveryLines
    && next.receiptLines == db.receiptLines && next.purchaseLines == db.purchaseLines
    && next.actions == db.actions && next.attempts == db.attempts
  }

  /** The delivery of the line has left. */
  ghost predicate LeftBy(db: DB, i: nat) {
    i < |db.deliveryLines| && Left(db, db.deliveryLines[i].delivery, db.clock)
  }

  lemma {:induction false} MetRow(db: Store, i: nat, accepted: nat, rejected: nat, begun: Store) returns (next: Store)
    requires i < |db.deliveryLines| && 0 < accepted + rejected
    requires Total(Settlements(db.outcomeLines), i) + accepted + rejected <= db.deliveryLines[i].qty
    requires begun == OpenOutcome(db, Outcome(db.deliveryLines[i].delivery, db.clock), db.clock)
    ensures OutcomeOneRow(begun, |db.outcomes|, OutcomeRow(i, accepted, rejected, true), true) == Some(next)
    ensures MetLine(db, next, OutcomeLine(|db.outcomes|, i, accepted, rejected))
  {
    TotalSplit(Settlements(db.outcomeLines), Acceptances(db.outcomeLines), Rejections(db.outcomeLines), i);
    hide Settlements, Acceptances, Rejections;
    assert begun.outcomes[|db.outcomes|] == Outcome(db.deliveryLines[i].delivery, db.clock);
    next := OutcomeOneRow(begun, |db.outcomes|, OutcomeRow(i, accepted, rejected, true), true).value;
  }

  /** Record that the client accepts some and refuses some of what is left of a delivery line. */
  lemma {:induction false} MetRest(db: Store, i: nat, accepted: nat, rejected: nat) returns (op: Op, next: Store)
    requires Timely(db) && OneRequest(db) && i < |db.deliveryLines| && 0 < accepted + rejected
    requires Total(Settlements(db.outcomeLines), i) + accepted + rejected <= db.deliveryLines[i].qty
    requires LeftBy(db, i)
    ensures Attempted(db, op) == Some(next) && MetLine(db, next, OutcomeLine(|db.outcomes|, i, accepted, rejected))
  {
    hide OneRequest, Timely, Attempted, OutcomeOneRow, MetLine, Schema;
    DeliveryOpen(db, i);
    var row, delivery := OutcomeRow(i, accepted, rejected, true), db.deliveryLines[i].delivery;
    var begun := OpenOutcome(db, Outcome(delivery, db.clock), db.clock);
    next := MetRow(db, i, accepted, rejected, begun);
    var input := OutcomeInput(delivery, true, None, [row], true, AT_ONCE);
    OutcomeOfOne(db, input, row, begun, next);
    op := OpOutcome(input);
  }

  /** What was done of a rejection may be completed by closing it or by sourcing it anew. */
  lemma {:induction false} ResolvableRest(db: Store, r: nat, qty: nat, kind: ActionKind) returns (op: Op)
    requires Timely(db) && r < |db.outcomeLines| && kind in {Close, Source}
    requires 0 < qty && 0 <= Total(Resolving(db), r) && Total(Resolving(db), r) + qty <= db.outcomeLines[r].rejected
    ensures var timed := At(db, db.clock);
            Attempted(db, op) == Some(
              if kind == Source then InsertReplacement(timed, r, qty, Source) else InsertAction(timed, r, qty, Close))
  {
    hide Attempted, InsertReplacement, InsertAction, Timely;
    var input := ActionInput(r, kind, qty, false, false, true, AT_ONCE);
    RequestOpen(db, AttemptOf(db, r));
    ResolvingTotal(db, r);
    ResolvedAtOnce(db, input);
    op := OpResolve(input);
  }

  // ---- what a step adds to the attempt

  lemma {:induction false} Longer(rows: seq<Link>, more: seq<Link>, p: int, qty: int)
    requires more == rows + [Link(p, qty)]
    ensures Total(more, p) == Total(rows, p) + qty
  {
    TotalAppend(rows, Link(p, qty));
  }

  lemma {:induction false} ReceivingAdds(db: DB, next: DB, a: nat, line: ReceiptLine)
    requires next.purchaseLines == db.purchaseLines && next.receiptLines == db.receiptLines + [line]
    requires line.purchaseLine < |db.purchaseLines| && PurchasedBy(db)[line.purchaseLine].parent == a
    ensures Total(ReceivedBy(next), a) == Total(ReceivedBy(db), a) + line.qty
  {
    assert Receipts(next.receiptLines) == Receipts(db.receiptLines) + [Link(line.purchaseLine, line.qty)];
    LiftAppend(Receipts(db.receiptLines), Link(line.purchaseLine, line.qty), PurchasedBy(db));
    Longer(ReceivedBy(db), ReceivedBy(next), a, line.qty);
  }

  lemma {:induction false} DeliveringAdds(db: DB, next: DB, a: nat, line: DeliveryLine)
    requires next.purchaseLines == db.purchaseLines && next.receiptLines == db.receiptLines
    requires next.deliveryLines == db.deliveryLines + [line]
    requires line.receiptLine < |db.receiptLines| && ReceivedBy(db)[line.receiptLine].parent == a
    ensures Total(ReservedBy(next), a) == Total(ReservedBy(db), a) + line.qty
  {
    assert Reservations(next.deliveryLines) == Reservations(db.deliveryLines) + [Link(line.receiptLine, line.qty)];
    LiftAppend(Reservations(db.deliveryLines), Link(line.receiptLine, line.qty), ReceivedBy(db));
    Longer(ReservedBy(db), ReservedBy(next), a, line.qty);
  }

  lemma {:induction false} SendingAdds(db: DB, next: DB, a: nat, i: nat)
    requires Linked(db) && DeliveredWithin(db) && Grows(db, next) && next.deliveryLines == db.deliveryLines
    requires next.receiptLines == db.receiptLines && next.purchaseLines == db.purchaseLines
    requires i < |db.deliveryLines| && DispatchedBy(db)[i].parent == a
        && DispatchedBy(db)[i].qty < DispatchedBy(next)[i].qty
    ensures Total(DispatchedBy(db), a) < Total(DispatchedBy(next), a)
  {
    assert ReceivedBy(next) == ReceivedBy(db);
    forall j | 0 <= j < |db.deliveryLines|
      ensures DispatchedBy(db)[j].parent == DispatchedBy(next)[j].parent
          && DispatchedBy(db)[j].qty <= DispatchedBy(next)[j].qty
    {
    }
    Pointwise(DispatchedBy(db), DispatchedBy(next), a);
  }

  lemma {:induction false} MeetingAdds(db: DB, next: DB, a: nat, line: OutcomeLine)
    requires MetLine(db, next, line)
    requires line.deliveryLine < |db.deliveryLines| && ReservedBy(db)[line.deliveryLine].parent == a
    ensures Total(AcceptedBy(next), a) == Total(AcceptedBy(db), a) + line.accepted
    ensures Total(RejectedBy(next), a) == Total(RejectedBy(db), a) + line.rejected
  {
    assert Acceptances(next.outcomeLines) == Acceptances(db.outcomeLines) + [Link(line.deliveryLine, line.accepted)];
    assert Rejections(next.outcomeLines) == Rejections(db.outcomeLines) + [Link(line.deliveryLine, line.rejected)];
    LiftAppend(Acceptances(db.outcomeLines), Link(line.deliveryLine, line.accepted), ReservedBy(db));
    LiftAppend(Rejections(db.outcomeLines), Link(line.deliveryLine, line.rejected), ReservedBy(db));
    Longer(AcceptedBy(db), AcceptedBy(next), a, line.accepted);
    Longer(RejectedBy(db), RejectedBy(next), a, line.rejected);
  }

  lemma {:induction false} ClosingAdds(db: DB, next: DB, a: nat, action: Action)
    requires next.purchaseLines == db.purchaseLines && next.receiptLines == db.receiptLines
    requires next.deliveryLines == db.deliveryLines && next.outcomeLines == db.outcomeLines
    requires next.actions == db.actions + [action] && action.kind == Close
    requires action.rejection < |db.outcomeLines| && RejectedBy(db)[action.rejection].parent == a
    ensures Total(ClosedBy(next), a) == Total(ClosedBy(db), a) + action.qty
  {
    assert ActionsOf(next.actions, Close) == ActionsOf(db.actions, Close) + [Link(action.rejection, action.qty)];
    LiftAppend(ActionsOf(db.actions, Close), Link(action.rejection, action.qty), RejectedBy(db));
    Longer(ClosedBy(db), ClosedBy(next), a, action.qty);
  }

  /** Without new outcome lines, what was accepted and rejected of an attempt is as it was, and without new
      actions and attempts so is what was closed and replaced. */
  lemma {:induction false} SameFigures(db: DB, next: DB, a: nat)
    requires Linked(db) && Grows(db, next)
    ensures next.outcomeLines == db.outcomeLines ==>
              Total(AcceptedBy(next), a) == Total(AcceptedBy(db), a)
                  && Total(RejectedBy(next), a) == Total(RejectedBy(db), a)
    ensures next.actions == db.actions && next.attempts == db.attempts ==>
              Total(ClosedBy(next), a) == Total(ClosedBy(db), a)
                  && Total(ReplacedBy(next), a) == Total(ReplacedBy(db), a)
  {
    PathsGrow(db, next);
    assert next.outcomeLines == db.outcomeLines ==>
        AcceptedBy(next) == AcceptedBy(db) && RejectedBy(next) == RejectedBy(db);
    assert next.actions == db.actions && next.attempts == db.attempts ==>
        ClosedBy(next) == ClosedBy(db) && ReplacedBy(next) == ReplacedBy(db);
  }

  // ---- a step forward

  /** `next` is reached from `db` by `ops`, is as good as `db`, and has done more for one of the same attempts. */
  ghost predicate Proceeds(db: Store, ops: seq<Op>, next: Store, a: nat) {
    && Run(db, ops) == next && Ready(next) && a < |db.attempts| && next.attempts == db.attempts
    && Done(Tally(db, a)) < Done(Tally(next, a))
  }

  lemma {:induction false} Went(db: Store, op: Op, next: Store)
    requires Ready(db) && Attempted(db, op) == Some(next)
    ensures Ready(next) && Grows(db, next) && Run(db, [op]) == next
  {
    hide Inv, Timely, Grows, Run, Attempted;
    RunOfOne(db, op);
    FulfilmentSteps.RunKeeps(db, [op]);
    TimelyOn(db, [op]);
  }

  /** Some stage of the attempt has more in `next` than in `db`. */
  ghost predicate MoreDone(db: DB, next: DB, a: nat) {
    || Total(PurchasedBy(db), a) < Total(PurchasedBy(next), a) || Total(ReceivedBy(db), a) < Total(ReceivedBy(next), a)
    || Total(ReservedBy(db), a) < Total(ReservedBy(next), a)
        || Total(DispatchedBy(db), a) < Total(DispatchedBy(next), a)
    || Total(AcceptedBy(db), a) < Total(AcceptedBy(next), a) || Total(RejectedBy(db), a) < Total(RejectedBy(next), a)
    || Total(ClosedBy(db), a) < Total(ClosedBy(next), a)
  }

  lemma {:induction false} Forward(db: Store, op: Op, next: Store, a: nat) returns (ops: seq<Op>)
    requires Ready(db) && Attempted(db, op) == Some(next) && a < |db.attempts| && next.attempts == db.attempts
    requires MoreDone(db, next, a)
    ensures Proceeds(db, ops, next, a)
  {
    hide Inv, Timely, Grows, Attempted, Run, Linked, DeliveredWithin;
    Within(db);
    Went(db, op, next);
    TallyGrows(db, next, a);
    ops := [op];
  }

  lemma {:induction false} Within(db: Store)
    requires Ready(db)
    ensures Linked(db) && OneRequest(db) && PurchasedWithin(db) && ReceivedWithin(db) && DeliveredWithin(db)
    ensures DispatchesTimely(db)
  {
  }

  // ---- stage by stage

  lemma {:induction false} BuyOnOffer(db: Store, a: nat) returns (ops: seq<Op>, next: Store)
    requires Ready(db) && a < |db.attempts| && Total(PurchasedBy(db), a) < db.attempts[a].qty
    requires db.offers != [] && db.offers[|db.offers| - 1] == OfferFor(db, a)
    ensures Proceeds(db, ops, next, a) && Quiet(db, next)
  {
    hide Inv, Timely, Attempted, OfferFor, Proceeds;
    var op;
    op, next := BoughtRest(db, a, db.attempts[a].qty - Total(PurchasedBy(db), a));
    Longer(PurchasedBy(db), PurchasedBy(next), a, db.attempts[a].qty - Total(PurchasedBy(db), a));
    ops := Forward(db, op, next, a);
  }

  lemma {:induction false} AdvanceBuying(db: Store, a: nat) returns (ops: seq<Op>, next: Store)
    requires Ready(db) && a < |db.attempts| && Total(PurchasedBy(db), a) < db.attempts[a].qty
    ensures Proceeds(db, ops, next, a) && Quiet(db, next)
  {
    hide Inv, Timely, Attempted, OfferFor, Run, Grows, Tally, Done, Schema;
    var offer, offered := Offered(db, a);
    Went(db, offer, offered);
    OfferingOnly(db, offered, a);
    ops, next := BuyOnOffer(offered, a);
    RunOn(db, [offer], ops);
    ops := [offer] + ops;
  }

  lemma {:induction false} AdvanceReceiving(db: Store, a: nat) returns (ops: seq<Op>, next: Store)
    requires Ready(db) && a < |db.attempts| && Total(ReceivedBy(db), a) < Total(PurchasedBy(db), a)
    ensures Proceeds(db, ops, next, a) && Quiet(db, next)
  {
    hide Inv, Timely, Attempted, Proceeds, PurchasedWithin, Linked, OneRequest, ReceivedWithin, DeliveredWithin;
    Within(db);
    var i := Undrawn(Receipts(db.receiptLines), PurchasedBy(db), a);
    var op;
    op, next := ReceivedRest(db, i, db.purchaseLines[i].qty - Total(Receipts(db.receiptLines), i));
    ReceivingAdds(db, next, a, next.receiptLines[|db.receiptLines|]);
    ops := Forward(db, op, next, a);
  }

  lemma {:induction false} AdvanceDelivering(db: Store, a: nat) returns (ops: seq<Op>, next: Store)
    requires Ready(db) && a < |db.attempts| && Total(ReservedBy(db), a) < Total(ReceivedBy(db), a)
    ensures Proceeds(db, ops, next, a) && Quiet(db, next)
  {
    hide Inv, Timely, Attempted, Proceeds, PurchasedWithin, Linked, OneRequest, ReceivedWithin, DeliveredWithin;
    Within(db);
    var i := Undrawn(Reservations(db.deliveryLines), ReceivedBy(db), a);
    var op;
    op, next := DeliveredRest(db, i, db.receiptLines[i].qty - Total(Reservations(db.deliveryLines), i));
    DeliveringAdds(db, next, a, next.deliveryLines[|db.deliveryLines|]);
    ops := Forward(db, op, next, a);
  }

  lemma {:induction false} AdvanceSending(db: Store, a: nat) returns (ops: seq<Op>, next: Store)
    requires Ready(db) && a < |db.attempts| && Total(DispatchedBy(db), a) < Total(ReservedBy(db), a)
    ensures Proceeds(db, ops, next, a) && Quiet(db, next)
  {
    hide Inv, Timely, Attempted, Proceeds, PurchasedWithin, Linked, OneRequest, ReceivedWithin, DeliveredWithin;
    hide Grows, Run;
    Within(db);
    var i := LessSomewhere(DispatchedBy(db), ReservedBy(db), a);
    var op;
    op, next := SentOff(db, i);
    Went(db, op, next);
    SendingAdds(db, next, a, i);
    ops := Forward(db, op, next, a);
  }

  /** A delivery line of the attempt that the client has not wholly met. */
  lemma {:induction false} Unmet(db: Store, a: nat) returns (i: nat, qty: nat)
    requires Ready(db) && Total(AcceptedBy(db), a) + Total(RejectedBy(db), a) < Total(DispatchedBy(db), a)
    ensures i < |db.deliveryLines| && ReservedBy(db)[i].parent == a
    ensures 0 < qty && Total(Settlements(db.outcomeLines), i) + qty == db.deliveryLines[i].qty
    ensures LeftBy(db, i)
  {
    hide Inv, Timely, OneRequest, PurchasedWithin, ReceivedWithin, Schema;
    Within(db);
    FulfilmentFunnel.SettledSplit(db, a);
    i := Undrawn(Settlements(db.outcomeLines), DispatchedBy(db), a);
    TotalNonNegative(Settlements(db.outcomeLines), i);
    qty := db.deliveryLines[i].qty - Total(Settlements(db.outcomeLines), i);
  }

  /** The client accepts, or refuses, what is left of one delivery line of the attempt. */
  lemma {:induction false} AdvanceMeeting(db: Store, a: nat, accept: bool)
    returns (ops: seq<Op>, next: Store, line: OutcomeLine)
    requires Ready(db) && a < |db.attempts|
    requires Total(AcceptedBy(db), a) + Total(RejectedBy(db), a) < Total(DispatchedBy(db), a)
    ensures Proceeds(db, ops, next, a) && MetLine(db, next, line)
    ensures if accept then line.rejected == 0 else line.accepted == 0 < line.rejected
    ensures Total(RejectedBy(next), a) == Total(RejectedBy(db), a) + line.rejected
  {
    hide Inv, Timely, Attempted, Proceeds, PurchasedWithin, Linked, OneRequest, ReceivedWithin;
    hide DeliveredWithin, Grows, Run;
    var i, qty := Unmet(db, a);
    Within(db);
    line := OutcomeLine(|db.outcomes|, i, if accept then qty else 0, if accept then 0 else qty);
    var op;
    op, next := MetRest(db, i, line.accepted, line.rejected);
    MeetingAdds(db, next, a, line);
    ops := Forward(db, op, next, a);
  }

  /** What is sent to replacements or closed stays within each rejection. */
  lemma {:induction false} ResolvingWithin(db: Store)
    requires Ready(db)
    ensures Under(Resolving(db), |db.outcomeLines|) && Covered(Resolving(db), RejectedBy(db))
    ensures NonNegative(Resolving(db))
  {
    ResolvingCovered(db);
  }

  lemma {:induction false} AdvanceClosing(db: Store, a: nat) returns (ops: seq<Op>, next: Store)
    requires Ready(db) && a < |db.attempts| && 0 < Tally(db, a).unresolved
    ensures Proceeds(db, ops, next, a) && 0 < Tally(next, a).closed
  {
    hide Inv, Timely, Attempted, Resolving, Proceeds;
    ResolvedNonNegative(db, a);
    ResolvingLifted(db, a);
    ResolvingWithin(db);
    var r := Undrawn(Resolving(db), RejectedBy(db), a);
    TotalNonNegative(Resolving(db), r);
    var qty := db.outcomeLines[r].rejected - Total(Resolving(db), r);
    var op := ResolvableRest(db, r, qty, Close);
    next := InsertAction(At(db, db.clock), r, qty, Close);
    ClosingAdds(db, next, a, next.actions[|db.actions|]);
    ops := Forward(db, op, next, a);
  }

  /** What the attempt is for can be brought on its way to the client. */
  lemma {:induction false} AdvanceSupply(db: Store, a: nat) returns (ops: seq<Op>, next: Store)
    requires Ready(db) && a < |db.attempts| && Tally(db, a).dispatched < db.attempts[a].qty
    ensures Proceeds(db, ops, next, a) && Quiet(db, next)
  {
    DoneBounded(db, a);
    hide Inv, Timely, Proceeds;
    var q := Tally(db, a);
    if q.purchased < q.target {
      ops, next := AdvanceBuying(db, a);
    } else if q.received < q.purchased {
      ops, next := AdvanceReceiving(db, a);
    } else if q.reserved < q.received {
      ops, next := AdvanceDelivering(db, a);
    } else {
      ops, next := AdvanceSending(db, a);
    }
  }

  lemma {:induction false} Advance(db: Store, a: nat) returns (ops: seq<Op>, next: Store)
    requires Ready(db) && a < |db.attempts| && !Settled(Tally(db, a))
    ensures Proceeds(db, ops, next, a) && (Settled(Tally(next, a)) ==> 0 < Tally(next, a).closed)
  {
    hide Inv, Timely, Run, Grows, Linked;
    Within(db);
    DoneBounded(db, a);
    var q := Tally(db, a);
    if q.accepted + q.rejected == q.dispatched == q.target {
      ops, next := AdvanceClosing(db, a);
    } else {
      if q.dispatched < q.target {
        ops, next := AdvanceSupply(db, a);
      } else {
        var line;
        ops, next, line := AdvanceMeeting(db, a, false);
      }
      FulfilmentSteps.RunKeeps(db, ops);
      SameFigures(db, next, a);
    }
  }

  // ---- to the end

  /** An attempt that is not settled can be settled, with something of it closed. */
  lemma {:induction false} Finish(db: Store, a: nat) returns (ops: seq<Op>, next: Store)
    requires Ready(db) && a < |db.attempts| && !Settled(Tally(db, a))
    ensures Run(db, ops) == next && Ready(next) && next.attempts == db.attempts
    ensures Settled(Tally(next, a)) && 0 < Tally(next, a).closed
    decreases 6 * db.attempts[a].qty - Done(Tally(db, a))
  {
    hide Inv, Timely, Run;
    DoneBounded(db, a);
    ops, next := Advance(db, a);
    if !Settled(Tally(next, a)) {
      DoneBounded(next, a);
      var rest, end := Finish(next, a);
      RunOn(db, ops, rest);
      ops, next := ops + rest, end;
    }
  }

  lemma {:induction false} SettledStatus(attempt: Attempt, q: Quantities)
    requires Narrowing(q) && Settled(q) && q.target == attempt.qty
    ensures Terminal(Summary(q, StatusOf(attempt, q))) <==> q.accepted == q.target || 0 < q.closed
    ensures StatusOf(attempt, q) == ReplacementLinked <==> q.accepted < q.target && q.closed == 0
  {
  }

  /** Everything that the attempt was for was accepted or rejected, and every rejection went to a replacement. */
  ghost predicate HandedOver(s: Summary) {
    s.status == ReplacementLinked && s.quantities.accepted + s.quantities.rejected == s.quantities.target
  }

  lemma {:induction false} HandedOverIsSettled(db: Store, a: nat)
    requires Ready(db) && a < |db.attempts| && HandedOver(AttemptSummary(db, a))
    ensures Settled(Tally(db, a)) && !Terminal(AttemptSummary(db, a))
  {
    SummaryIsTally(db, a);
    DoneBounded(db, a);
  }

  lemma {:induction false} HandedOverForever(db: Store, ops: seq<Op>, a: nat)
    requires Ready(db) && a < |db.attempts| && HandedOver(AttemptSummary(db, a))
    ensures a < |Run(db, ops).attempts| && AttemptSummary(Run(db, ops), a) == AttemptSummary(db, a)
  {
    var next := Run(db, ops);
    FulfilmentSteps.RunKeeps(db, ops);
    HandedOverIsSettled(db, a);
    SettledStays(db, next, a);
    assert next.attempts[a] == db.attempts[a];
    SummaryIsTally(db, a);
    SummaryIsTally(next, a);
  }

  /** The run leaves the attempt ACCEPTED or CLOSED_WITH_REJECTION. */
  ghost predicate Ends(db: Store, ops: seq<Op>, a: nat) {
    a < |Run(db, ops).attempts| && Terminal(AttemptSummary(Run(db, ops), a))
  }

  lemma {:induction false} Ended(db: Store, a: nat) returns (ops: seq<Op>)
    requires Ready(db) && a < |db.attempts| && !HandedOver(AttemptSummary(db, a))
    ensures Ends(db, ops, a)
  {
    SummaryIsTally(db, a);
    DoneBounded(db, a);
    if Settled(Tally(db, a)) {
      SettledStatus(db.attempts[a], Tally(db, a));
      ops := [];
    } else {
      var next;
      ops, next := Finish(db, a);
      SummaryIsTally(next, a);
      DoneBounded(next, a);
      SettledStatus(next.attempts[a], Tally(next, a));
    }
  }

  /** In every reachable state an attempt can still be brought to ACCEPTED or CLOSED_WITH_REJECTION if and
      only if it has not been handed over: an attempt all of whose rejections went to replacements before
      anything of it was closed shows REPLACEMENT_LINKED for ever. */
  lemma {:induction false} EndsUnlessHandedOver(start: Store, past: seq<Op>, a: nat)
    requires Fresh(start) && a < |Run(start, past).attempts|
    ensures var db := Run(start, past);
            (exists ops :: Ends(db, ops, a)) <==> !HandedOver(AttemptSummary(db, a))
  {
    var db := Run(start, past);
    Reachable(start, past);
    TimelyOverRuns(start, past);
    if HandedOver(AttemptSummary(db, a)) {
      forall ops ensures !Ends(db, ops, a) {
        HandedOverForever(db, ops, a);
        HandedOverIsSettled(db, a);
      }
    } else {
      var ops := Ended(db, a);
      assert Ends(db, ops, a);
    }
  }
}
