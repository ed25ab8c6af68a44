/** Every operation as a run of elementary changes: what each change keeps, each operation and each run keeps. */
module ProcurementMoves {
  import opened Options
  import opened ProcurementTables
  import opened ProcurementSteps
  import Pricing

  /** An operation that writes once, the opening of a header, or one row under it. */
  datatype Move =
    | Whole(op: Op)
    | OrderMove(order: Order, at: int)
    | OrderRowMove(into: nat, orderRow: OrderRow, occurred: int)
    | PurchaseMove(purchase: Purchase, at: int)
    | PurchaseRowMove(into: nat, purchaseRow: PurchaseRow, now: int)
    | ReceiptMove(receipt: Receipt, at: int)
    | ReceiptRowMove(into: nat, receiptRow: ReceiptRow)
    | DeliveryMove(request: nat, at: int)
    | DeliveryRowMove(into: nat, deliveryRow: DeliveryRow)
    | OutcomeMove(outcome: Outcome, at: int)
    | OutcomeRowMove(into: nat, outcomeRow: OutcomeRow, signed: bool)

  /** The operations that open a header and add rows to it one by one. */
  predicate ByRows(op: Op) {
    op.OpOrder? || op.OpPurchase? || op.OpReceipt? || op.OpDelivery? || op.OpOutcome?
  }

  predicate Submitted(db: DB, request: nat) {
    request < |db.requests| && db.requests[request].submitted
  }

  predicate Left(db: DB, delivery: nat, until: int) {
    delivery < |db.deliveries| && db.deliveries[delivery].dispatched.Some?
        && db.deliveries[delivery].dispatched.value <= until
  }

  ghost predicate Moves(db: Store, m: Move, next: Store) {
    match m
    case Whole(op) => !ByRows(op) && Attempted(db, op) == Some(next)
    case OrderMove(order, at) =>
      Submitted(db, order.request) && db.clock <= at && order.received <= at && next == OpenOrder(db, order, at)
    case OrderRowMove(into, row, occurred) =>
      && into < |db.orders| && occurred <= db.orders[into].received && Submitted(db, db.orders[into].request)
      && OrderOneRow(db, into, row, occurred) == Some(next)
    case PurchaseMove(purchase, at) =>
      Submitted(db, purchase.request) && db.clock <= at && next == OpenPurchase(db, purchase, at)
    case PurchaseRowMove(into, row, now) =>
      into < |db.purchases| && PurchaseOneRow(db, into, row, now) == Some(next)
    case ReceiptMove(receipt, at) =>
      receipt.purchase < |db.purchases| && db.clock <= at && receipt.received <= at
          && next == OpenReceipt(db, receipt, at)
    case ReceiptRowMove(into, row) =>
      into < |db.receipts| && ReceiveOneRow(db, into, row) == Some(next)
    case DeliveryMove(request, at) =>
      Submitted(db, request) && db.clock <= at && next == OpenDelivery(db, request, at)
    case DeliveryRowMove(into, row) =>
      && into < |db.deliveries| && db.deliveries[into].dispatched.None?
      && DeliverOneRow(db, into, row) == Some(next)
    case OutcomeMove(outcome, at) =>
      Left(db, outcome.delivery, outcome.occurred) && outcome.occurred <= at && db.clock <= at
      && next == OpenOutcome(db, outcome, at)
    case OutcomeRowMove(into, row, signed) =>
      into < |db.outcomes| && OutcomeOneRow(db, into, row, signed) == Some(next)
  }

  /** The changes that an operation may make. */
  ghost predicate Of(op: Op, m: Move) {
    match op
    case OpOrder(input) => m.OrderMove? || (m.OrderRowMove? && m.orderRow in input.rows)
    case OpPurchase(_) => m.PurchaseMove? || m.PurchaseRowMove?
    case OpReceipt(_) => m.ReceiptMove? || m.ReceiptRowMove?
    case OpDelivery(_) => m.DeliveryMove? || m.DeliveryRowMove?
    case OpOutcome(_) => m.OutcomeMove? || m.OutcomeRowMove?
    case _ => m == Whole(op)
  }

  /** `holds` survives every change that the operation may make. */
  ghost predicate Keeps(holds: Store -> bool, op: Op) {
    forall db: Store, m: Move, next: Store | holds(db) && Of(op, m) && Moves(db, m, next) :: holds(next)
  }

  lemma {:induction false} MoveKeeps(holds: Store -> bool, op: Op, db: Store, m: Move, next: Store)
    requires Keeps(holds, op) && holds(db) && Of(op, m) && Moves(db, m, next)
    ensures holds(next)
  {
  }

  lemma {:induction false} OrderRowsKeep(holds: Store -> bool, op: Op, db: Store, into: nat, rows: seq<OrderRow>,
      occurred: int)
    requires op.OpOrder? && Keeps(holds, op) && holds(db) && forall row | row in rows :: row in op.order.rows
    requires into < |db.orders| && occurred <= db.orders[into].received && Submitted(db, db.orders[into].request)
    requires OrderRows(db, into, rows, occurred).Some?
    ensures holds(OrderRows(db, into, rows, occurred).value)
    decreases |rows|
  {
    hide OrderOneRow, Schema;
    if rows != [] {
      var next := OrderOneRow(db, into, rows[0], occurred).value;
      assert Moves(db, OrderRowMove(into, rows[0], occurred), next);
      hide Keeps, Moves;
      MoveKeeps(holds, op, db, OrderRowMove(into, rows[0], occurred), next);
      OrderRowsKeep(holds, op, next, into, rows[1..], occurred);
    }
  }

  lemma {:induction false} PurchaseRowsKeep(holds: Store -> bool, op: Op, db: Store, into: nat, rows: seq<PurchaseRow>,
      now: int)
    requires op.OpPurchase? && Keeps(holds, op) && holds(db)
    requires into < |db.purchases| && PurchaseRows(db, into, rows, now).Some?
    ensures holds(PurchaseRows(db, into, rows, now).value)
    decreases |rows|
  {
    hide PurchaseOneRow, Schema;
    if rows != [] {
      var next := PurchaseOneRow(db, into, rows[0], now).value;
      assert Moves(db, PurchaseRowMove(into, rows[0], now), next);
      hide Keeps, Moves;
      MoveKeeps(holds, op, db, PurchaseRowMove(into, rows[0], now), next);
      PurchaseRowsKeep(holds, op, next, into, rows[1..], now);
    }
  }

  lemma {:induction false} ReceiptRowsKeep(holds: Store -> bool, op: Op, db: Store, into: nat, rows: seq<ReceiptRow>)
    requires op.OpReceipt? && Keeps(holds, op) && holds(db)
    requires into < |db.receipts| && ReceiveRows(db, into, rows).Some?
    ensures holds(ReceiveRows(db, into, rows).value)
    decreases |rows|
  {
    hide ReceiveOneRow, Schema;
    if rows != [] {
      var next := ReceiveOneRow(db, into, rows[0]).value;
      assert Moves(db, ReceiptRowMove(into, rows[0]), next);
      hide Keeps, Moves;
      MoveKeeps(holds, op, db, ReceiptRowMove(into, rows[0]), next);
      ReceiptRowsKeep(holds, op, next, into, rows[1..]);
    }
  }

  lemma {:induction false} DeliveryRowsKeep(holds: Store -> bool, op: Op, db: Store, into: nat, rows: seq<DeliveryRow>)
    requires op.OpDelivery? && Keeps(holds, op) && holds(db)
    requires into < |db.deliveries| && db.deliveries[into].dispatched.None? && DeliverRows(db, into, rows).Some?
    ensures holds(DeliverRows(db, into, rows).value)
    decreases |rows|
  {
    hide DeliverOneRow, Schema;
    if rows != [] {
      var next := DeliverOneRow(db, into, rows[0]).value;
      assert Moves(db, DeliveryRowMove(into, rows[0]), next);
      hide Keeps, Moves;
      MoveKeeps(holds, op, db, DeliveryRowMove(into, rows[0]), next);
      DeliveryRowsKeep(holds, op, next, into, rows[1..]);
    }
  }

  lemma {:induction false} OutcomeRowsKeep(holds: Store -> bool, op: Op, db: Store, into: nat, rows: seq<OutcomeRow>,
      signed: bool)
    requires op.OpOutcome? && Keeps(holds, op) && holds(db)
    requires into < |db.outcomes| && OutcomeRows(db, into, rows, signed).Some?
    ensures holds(OutcomeRows(db, into, rows, signed).value)
    decreases |rows|
  {
    hide OutcomeOneRow, Schema;
    if rows != [] {
      var next := OutcomeOneRow(db, into, rows[0], signed).value;
      assert Moves(db, OutcomeRowMove(into, rows[0], signed), next);
      hide Keeps, Moves;
      MoveKeeps(holds, op, db, OutcomeRowMove(into, rows[0], signed), next);
      OutcomeRowsKeep(holds, op, next, into, rows[1..], signed);
    }
  }

  /** A property that survives every elementary change of an operation survives the operation, which a refusal
      takes back whole. */
  lemma {:induction false} OperationKeeps(holds: Store -> bool, db: Store, op: Op)
    requires Keeps(holds, op) && holds(db)
    ensures holds(Apply(db, op))
  {
    hide Keeps, OrderRows, PurchaseRows, ReceiveRows, DeliverRows, OutcomeRows, Schema;
    if Attempted(db, op).Some? {
      match op
      case OpOrder(input) =>
        var later := Later(db, input.tick);
        var order := Order(input.request, GivenOr(input.received, later));
        MoveKeeps(holds, op, db, OrderMove(order, later), OpenOrder(db, order, later));
        OrderRowsKeep(holds, op, OpenOrder(db, order, later), |db.orders|, input.rows,
                      GivenOr(input.received, Now(db, input.tick)));
      case OpPurchase(input) =>
        var later, purchase := Later(db, input.tick), Purchase(input.request, input.supplier, input.currency);
        MoveKeeps(holds, op, db, PurchaseMove(purchase, later), OpenPurchase(db, purchase, later));
        PurchaseRowsKeep(holds, op, OpenPurchase(db, purchase, later), |db.purchases|, input.rows, Now(db, input.tick));
      case OpReceipt(input) =>
        var later := Later(db, input.tick);
        var receipt := Receipt(input.purchase, GivenOr(input.received, later));
        MoveKeeps(holds, op, db, ReceiptMove(receipt, later), OpenReceipt(db, receipt, later));
        ReceiptRowsKeep(holds, op, OpenReceipt(db, receipt, later), |db.receipts|, input.rows);
      case OpDelivery(input) =>
        var later := Later(db, input.tick);
        MoveKeeps(holds, op, db, DeliveryMove(input.request, later), OpenDelivery(db, input.request, later));
        DeliveryRowsKeep(holds, op, OpenDelivery(db, input.request, later), |db.deliveries|, input.rows);
      case OpOutcome(input) =>
        var later := Later(db, input.tick);
        var outcome := Outcome(input.delivery, GivenOr(input.occurred, later));
        MoveKeeps(holds, op, db, OutcomeMove(outcome, later), OpenOutcome(db, outcome, later));
        OutcomeRowsKeep(holds, op, OpenOutcome(db, outcome, later), |db.outcomes|, input.rows, input.signed);
      case _ => MoveKeeps(holds, op, db, Whole(op), Attempted(db, op).value);
    }
  }

  /** A property that survives every elementary change survives every run. */
  lemma {:induction false} RunKeeps(holds: Store -> bool, db: Store, ops: seq<Op>)
    requires holds(db) && forall i | 0 <= i < |ops| :: Keeps(holds, ops[i])
    ensures holds(Run(db, ops))
    decreases |ops|
  {
    hide Keeps, Apply;
    if ops != [] {
      RunKeeps(holds, db, ops[..|ops| - 1]);
      OperationKeeps(holds, Run(db, ops[..|ops| - 1]), ops[|ops| - 1]);
    }
  }

  // ---- the lines of a new quotation

  /** A line quotes an offer of its own item in the currency of its revision, at amounts computed from its row. */
  ghost predicate LineTerms(line: QuoteLine, offers: seq<Offer>, revisions: seq<Revision>) {
    && line.offer < |offers| && line.revision < |revisions|
    && offers[line.offer].item == line.item && offers[line.offer].currency == revisions[line.revision].currency
    && Pricing.QuotationAmounts(line.priced.row) == Some(line.priced)
  }

  /** Lines of the revision were added, for items not in `seen` and each only once. */
  ghost predicate Quotes(db: DB, next: DB, revision: nat, seen: set<nat>) {
    && db.quoteLines <= next.quoteLines && next == db.(quoteLines := next.quoteLines)
    && (forall i | |db.quoteLines| <= i < |next.quoteLines| ::
          && next.quoteLines[i].revision == revision && next.quoteLines[i].item !in seen
          && LineTerms(next.quoteLines[i], db.offers, db.revisions))
    && (forall i, j | |db.quoteLines| <= i < j < |next.quoteLines| ::
        next.quoteLines[i].item != next.quoteLines[j].item)
  }

  lemma {:induction false} QuoteRowsQuote(db: Store, revision: nat, rows: seq<QuoteRow>, seen: set<nat>, now: int)
    requires revision < |db.revisions| && QuoteRows(db, revision, rows, seen, now).Some?
    ensures Quotes(db, QuoteRows(db, revision, rows, seen, now).value, revision, seen)
    decreases |rows|
  {
    hide Schema;
    if rows != [] {
      var next := QuoteOneRow(db, revision, rows[0], seen, now).value;
      assert Pricing.QuotationAmounts(rows[0].row).value.row == rows[0].row;
      hide Pricing.QuotationAmounts;
      QuoteRowsQuote(next, revision, rows[1..], seen + {rows[0].item}, now);
    }
  }
}
