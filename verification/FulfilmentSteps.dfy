/** Each row an operation adds keeps every invariant; so does each operation, and each run. */
module FulfilmentSteps {
  import opened Options
  import opened Links
  import opened ProcurementTables
  import opened ProcurementSteps
  import opened ProcurementMoves
  import opened FulfilmentInvariants
  import opened FulfilmentSums
  import opened FulfilmentShape
  import opened FulfilmentFunnel

  // ---- rows

  lemma {:induction false} OrderRowKeeps(db: Store, order: nat, row: OrderRow, occurred: int)
    requires order < |db.orders| && OrderOneRow(db, order, row, occurred).Some? && Inv(db)
    requires occurred <= db.orders[order].received
    ensures Inv(OrderOneRow(db, order, row, occurred).value) && Grows(db, OrderOneRow(db, order, row, occurred).value)
  {
    hide Under, Covered, Agree, Ladder, Replayed, Granted, Lineage, SupplierKept, Counted, IssuedLatest;
    var next := OrderOneRow(db, order, row, occurred).value;
    var line, t := next.orderLines[|db.orderLines|], next.attempts[|db.attempts|];
    SchemaLinks(next);
    OrderSums(db, next, line, t);
    OrderShape(db, next, line, t);
    AttributedAdd(db.attempts, db.events, next.attempts, [next.events[|db.events|]]);
  }

  lemma {:induction false} SellerAgrees(db: Store, attempt: nat, supplier: nat)
    requires attempt < |db.attempts| && SupplierAllowed(db, attempt, supplier)
    ensures SellerAllowed(db.attempts, attempt, supplier, ReturnedTo(db))
  {
    var a := db.attempts[attempt];
    if a.replaced.Some? {
      var o := a.replaced.value;
      var d := db.outcomeLines[o].deliveryLine;
      var r := db.deliveryLines[d].receiptLine;
      var p := db.receiptLines[r].purchaseLine;
      var received := Lift(Receipts(db.receiptLines), Sellers(db));
      assert received[r].parent == Sellers(db)[p].parent;
      var reserved := Lift(Reservations(db.deliveryLines), received);
      assert reserved[d].parent == received[r].parent;
      assert ReturnedTo(db)[o].parent == reserved[d].parent;
    }
  }

  lemma {:induction false} PurchaseRowKeeps(db: Store, purchase: nat, row: PurchaseRow, now: int)
    requires purchase < |db.purchases| && PurchaseOneRow(db, purchase, row, now).Some? && Inv(db)
    ensures Inv(PurchaseOneRow(db, purchase, row, now).value) && Grows(db, PurchaseOneRow(db, purchase, row, now).value)
  {
    hide SupplierAllowed, OfferUsable;
    hide Under, Covered, Agree, Ladder, Replayed, Granted, Lineage, SupplierKept, Counted, IssuedLatest;
    SellerAgrees(db, row.attempt, db.purchases[purchase].supplier);
    var next := PurchaseOneRow(db, purchase, row, now).value;
    var line := next.purchaseLines[|db.purchaseLines|];
    SchemaLinks(next);
    PurchaseSums(db, next, line, db.attempts[row.attempt].item);
    PurchaseShape(db, next, line);
    AttributedAdd(db.attempts, db.events, db.attempts, [next.events[|db.events|]]);
  }

  lemma {:induction false} ReceiveRowKeeps(db: Store, receipt: nat, row: ReceiptRow)
    requires receipt < |db.receipts| && ReceiveOneRow(db, receipt, row).Some? && Inv(db)
    ensures Inv(ReceiveOneRow(db, receipt, row).value) && Grows(db, ReceiveOneRow(db, receipt, row).value)
  {
    var next := ReceiveOneRow(db, receipt, row).value;
    var line := next.receiptLines[|db.receiptLines|];
    var attempt := db.purchaseLines[row.purchaseLine].attempt;
    SchemaLinks(next);
    ReceiptSums(db, next, line, db.attempts[attempt].item, attempt);
    ReceiptShape(db, next, line);
    AttributedAdd(db.attempts, db.events, next.attempts, [next.events[|db.events|]]);
  }

  lemma {:induction false} DeliverRowKeeps(db: Store, delivery: nat, row: DeliveryRow)
    requires delivery < |db.deliveries| && DeliverOneRow(db, delivery, row).Some? && Inv(db)
    requires db.deliveries[delivery].dispatched.None?
    ensures Inv(DeliverOneRow(db, delivery, row).value) && Grows(db, DeliverOneRow(db, delivery, row).value)
  {
    var next := DeliverOneRow(db, delivery, row).value;
    var line := next.deliveryLines[|db.deliveryLines|];
    SchemaLinks(next);
    DeliverySums(db, next, line);
    DeliveryShape(db, next, line);
  }

  lemma {:induction false} DispatchKeeps(db: Store, delivery: nat, waybill: bool, admitted: bool, tick: Tick)
    requires Dispatch(db, delivery, waybill, admitted, tick).Some? && Inv(db)
    ensures var next := Dispatch(db, delivery, waybill, admitted, tick).value; Inv(next) && Grows(db, next)
  {
    var next := Dispatch(db, delivery, waybill, admitted, tick).value;
    SchemaLinks(next);
    DispatchSums(db, next, delivery, next.clock);
    DispatchShape(db, next, delivery);
    AttributedAdd(db.attempts, db.events, next.attempts, WaybillEvents(db, delivery, |db.deliveryLines|));
  }

  lemma {:induction false} ReservedFor(db: Store, deliveryLine: nat)
    requires deliveryLine < |db.deliveryLines|
    ensures ReservedBy(db)[deliveryLine].parent
         == db.purchaseLines[db.receiptLines[db.deliveryLines[deliveryLine].receiptLine].purchaseLine].attempt
  {
  }

  lemma {:induction false} OutcomeDispatched(db: Store, outcome: nat, deliveryLine: nat)
    requires SettledAfterDispatch(db) && outcome < |db.outcomes| && deliveryLine < |db.deliveryLines|
    requires db.deliveryLines[deliveryLine].delivery == db.outcomes[outcome].delivery
    ensures IsDispatched(db.deliveryLines[deliveryLine], db.deliveries)
  {
  }

  lemma {:induction false} OutcomeRowKeeps(db: Store, outcome: nat, row: OutcomeRow, signed: bool)
    requires outcome < |db.outcomes| && OutcomeOneRow(db, outcome, row, signed).Some? && Inv(db)
    ensures Inv(OutcomeOneRow(db, outcome, row, signed).value)
        && Grows(db, OutcomeOneRow(db, outcome, row, signed).value)
  {
    hide Under, Covered, Agree, Ladder, Replayed, Granted, Lineage, SupplierKept, Counted, IssuedLatest;
    hide Bounds, OneRequest, OrderedAfterIssue, PurchasedAfterOrder, ReceivedAfterPurchase, DispatchedAfterReceipt;
    var next := OutcomeOneRow(db, outcome, row, signed).value;
    var received := db.deliveryLines[row.deliveryLine].receiptLine;
    var attempt := db.purchaseLines[db.receiptLines[received].purchaseLine].attempt;
    var line, item := next.outcomeLines[|db.outcomeLines|], db.attempts[attempt].item;
    ReservedFor(db, row.deliveryLine);
    OutcomeDispatched(db, outcome, row.deliveryLine);
    SchemaLinks(next);
    OutcomeSums(db, next, line, item, attempt);
    OutcomeShape(db, next, line);
    AttributedAdd(db.attempts, db.events, db.attempts, OutcomeEvents(item, attempt, row.accepted, row.rejected));
  }

  lemma {:induction false} InsertReplacementKeeps(db: Store, rejection: nat, qty: nat, kind: ActionKind)
    requires Inv(db) && rejection < |db.outcomeLines| && 0 < qty && kind in {Replace, Source}
    requires qty <= db.outcomeLines[rejection].rejected
    requires Allowed(db.attempts, db.actions, db.outcomeLines[rejection].rejected, rejection, kind, qty)
    ensures var next := InsertReplacement(db, rejection, qty, kind); Inv(next) && Grows(db, next)
  {
    hide Allowed, Bounds, OneRequest, Chronology;
    hide Under, Covered, Agree, Ladder, Replayed, Granted, Lineage, SupplierKept, Counted, IssuedLatest;
    var next, original := InsertReplacement(db, rejection, qty, kind), AttemptOf(db, rejection);
    var action, t := next.actions[|db.actions|], next.attempts[|db.attempts|];
    SchemaLinks(next);
    RejectedWithin(db, rejection);
    ReplacementSums(db, next, action, t);
    ReplacementShape(db, next, action, t, original);
    AttributedAdd(db.attempts, db.events, next.attempts,
                  [Event(Resolved(kind), t.item, |db.attempts|, qty),
                   Event(SourcingReopened, t.item, |db.attempts|, qty)]);
  }

  lemma {:induction false} InsertActionKeeps(db: Store, rejection: nat, qty: nat, kind: ActionKind)
    requires Inv(db) && rejection < |db.outcomeLines| && 0 < qty && kind !in {Replace, Source}
    requires Allowed(db.attempts, db.actions, db.outcomeLines[rejection].rejected, rejection, kind, qty)
    ensures var next := InsertAction(db, rejection, qty, kind); Inv(next) && Grows(db, next)
  {
    hide Allowed;
    hide Under, Covered, Agree, Ladder, Replayed, Granted, Lineage, SupplierKept, Counted, IssuedLatest;
    var next := InsertAction(db, rejection, qty, kind);
    SchemaLinks(next);
    RejectedWithin(db, rejection);
    ActionSums(db, next, next.actions[|db.actions|], next.events[|db.events|]);
    ActionShape(db, next, next.actions[|db.actions|]);
    AttributedAdd(db.attempts, db.events, next.attempts, [next.events[|db.events|]]);
  }

  /** Writing rows that no sum ranges over. */
  lemma {:induction false} OpeningKeeps(db: Store, next: Store)
    requires Inv(db) && db.clock <= next.clock
    requires next == db.(clock := next.clock, requests := next.requests, items := next.items, offers := next.offers,
                         orders := next.orders, purchases := next.purchases, receipts := next.receipts,
                         deliveries := next.deliveries, outcomes := next.outcomes)
    requires db.items <= next.items && db.orders <= next.orders && db.purchases <= next.purchases
    requires db.receipts <= next.receipts && db.deliveries <= next.deliveries && db.outcomes <= next.outcomes
    requires forall i | |db.orders| <= i < |next.orders| :: next.orders[i].received <= next.clock
    requires forall i | |db.receipts| <= i < |next.receipts| :: next.receipts[i].received <= next.clock
    requires forall i | |db.outcomes| <= i < |next.outcomes| ::
               Left(db, next.outcomes[i].delivery, next.outcomes[i].occurred) && next.outcomes[i].occurred <= next.clock
    ensures Inv(next) && Grows(db, next)
  {
    HeaderKeeps(db, next);
    SchemaLinks(next);
  }

  lemma {:induction false} ResolveKeeps(db: Store, input: ActionInput)
    requires Inv(db) && ResolveRejection(db, input).Some?
    ensures Inv(ResolveRejection(db, input).value) && Grows(db, ResolveRejection(db, input).value)
  {
    hide Inv, Grows, InsertReplacement, InsertAction, Schema;
    var timed, rejected := At(db, Later(db, input.tick)), db.outcomeLines[input.rejection].rejected;
    OpeningKeeps(db, timed);
    assert Allowed(db.attempts, db.actions, rejected, input.rejection, input.kind, input.qty) && input.qty <= rejected;
    hide Allowed;
    if input.kind == Replace || input.kind == Source {
      InsertReplacementKeeps(timed, input.rejection, input.qty, input.kind);
      GrowsTrans(db, timed, InsertReplacement(timed, input.rejection, input.qty, input.kind));
    } else {
      InsertActionKeeps(timed, input.rejection, input.qty, input.kind);
      GrowsTrans(db, timed, InsertAction(timed, input.rejection, input.qty, input.kind));
    }
  }

  lemma {:induction false} CreateQuoteKeeps(db: Store, input: QuoteInput)
    requires Inv(db) && CreateQuote(db, input).Some?
    ensures Inv(CreateQuote(db, input).value) && Grows(db, CreateQuote(db, input).value)
  {
    hide QuoteRows, Schema;
    var next, revision := CreateQuote(db, input).value, NextRevision(db, input);
    QuoteRowsQuote(OpenRevision(OpenQuotation(db, input).value, revision, Later(db, input.tick)), |db.revisions|,
                   input.rows, {}, Now(db, input.tick));
    RevisionKeeps(db, next, revision);
    SchemaLinks(next);
  }

  lemma {:induction false} IssueQuoteKeeps(db: Store, op: Op)
    requires Inv(db) && op.OpIssue? && Attempted(db, op).Some?
    ensures Inv(Attempted(db, op).value) && Grows(db, Attempted(db, op).value)
  {
    var next := Attempted(db, op).value;
    SchemaLinks(next);
    IssueKeeps(db, next, next.issues[|db.issues|]);
  }

  lemma {:induction false} WholeKeeps(db: Store, op: Op)
    requires Inv(db) && !ByRows(op) && Attempted(db, op).Some?
    ensures Inv(Attempted(db, op).value) && Grows(db, Attempted(db, op).value)
  {
    hide Inv, Grows, CreateQuote, IssueQuote, Dispatch, ResolveRejection, Schema;
    match op
    case OpQuote(input) => CreateQuoteKeeps(db, input);
    case OpIssue(_, _, _, _, _) => IssueQuoteKeeps(db, op);
    case OpDispatch(delivery, waybill, admitted, tick) => DispatchKeeps(db, delivery, waybill, admitted, tick);
    case OpResolve(input) => ResolveKeeps(db, input);
    case OpRequest(_, _, _) => OpeningKeeps(db, Attempted(db, op).value);
    case OpSubmit(_, _, _) => OpeningKeeps(db, Attempted(db, op).value);
    case OpOffer(_) => OpeningKeeps(db, Attempted(db, op).value);
  }

  /** Every elementary change keeps the invariants and only adds to the tables. */
  lemma {:induction false} ChangeKeeps(db: Store, m: Move, next: Store)
    requires Inv(db) && Moves(db, m, next)
    ensures Inv(next) && Grows(db, next)
  {
    hide Inv, Grows, Attempted, OrderOneRow, PurchaseOneRow, ReceiveOneRow, DeliverOneRow, OutcomeOneRow, Schema;
    match m
    case Whole(op) => WholeKeeps(db, op);
    case OrderMove(_, _) => OpeningKeeps(db, next);
    case OrderRowMove(into, row, occurred) => OrderRowKeeps(db, into, row, occurred);
    case PurchaseMove(_, _) => OpeningKeeps(db, next);
    case PurchaseRowMove(into, row, now) => PurchaseRowKeeps(db, into, row, now);
    case ReceiptMove(_, _) => OpeningKeeps(db, next);
    case ReceiptRowMove(into, row) => ReceiveRowKeeps(db, into, row);
    case DeliveryMove(_, _) => OpeningKeeps(db, next);
    case DeliveryRowMove(into, row) => DeliverRowKeeps(db, into, row);
    case OutcomeMove(_, _) => OpeningKeeps(db, next);
    case OutcomeRowMove(into, row, signed) => OutcomeRowKeeps(db, into, row, signed);
  }

  lemma {:induction false} ChangesKeep(start: DB, op: Op)
    ensures Keeps((x: Store) => Inv(x) && Grows(start, x), op)
  {
    hide Inv, Grows, Moves;
    forall db: Store, m: Move, next: Store | Inv(db) && Grows(start, db) && Of(op, m) && Moves(db, m, next)
      ensures Inv(next) && Grows(start, next)
    {
      ChangeKeeps(db, m, next);
      GrowsTrans(start, db, next);
    }
  }

  /** Every operation, whether it succeeds or rolls back, keeps the invariants and only adds to the tables. */
  lemma {:induction false} ApplyKeeps(db: Store, op: Op)
    requires Inv(db)
    ensures Inv(Apply(db, op)) && Grows(db, Apply(db, op))
  {
    assert Grows(db, db);
    hide Inv, Grows, Keeps, Apply;
    ChangesKeep(db, op);
    OperationKeeps((x: Store) => Inv(x) && Grows(db, x), db, op);
  }

  lemma {:induction false} NoSums(db: DB)
    requires Fresh(db)
    ensures Sums(db)
  {
  }

  lemma {:induction false} NoRows(db: DB)
    requires Fresh(db)
    ensures Inv(db)
  {
    NoSums(db);
  }

  lemma {:induction false} RunKeeps(db: Store, ops: seq<Op>)
    requires Inv(db)
    ensures Inv(Run(db, ops)) && Grows(db, Run(db, ops))
  {
    assert Grows(db, db);
    hide Inv, Grows, Keeps, Run;
    forall i | 0 <= i < |ops| ensures Keeps((x: Store) => Inv(x) && Grows(db, x), ops[i]) {
      ChangesKeep(db, ops[i]);
    }
    ProcurementMoves.RunKeeps((x: Store) => Inv(x) && Grows(db, x), db, ops);
  }

  /** Every state a run can reach from empty tables satisfies every invariant. */
  lemma {:induction false} Reachable(db: Store, ops: seq<Op>)
    requires Fresh(db)
    ensures Inv(Run(db, ops))
  {
    NoRows(db);
    RunKeeps(db, ops);
  }
}
