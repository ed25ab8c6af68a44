/** The retained tables of the fulfilment chain.

    A row is named by its index in its table; tables only ever grow, and the one field that changes
    in place is a delivery's dispatch time.  Quantities are integers in units of 0.0001.
  */
module ProcurementTables {
  import opened Options
  import opened Links
  import Pricing

  datatype Strategy = Original | SameSupplier | DifferentSupplier

  datatype ActionKind = Returned | SupplierAccepted | SupplierRefused | Replace | Source | Refund | Close

  datatype EventKind =
    | PurchaseOrderReceived | ItemPurchased | ItemReceived | ItemWaybilled
    | ItemAccepted | ItemRejected | Resolved(kind: ActionKind) | SourcingReopened

  datatype Request = Request(submitted: bool)
  datatype Item = Item(request: nat)
  datatype Offer = Offer(item: nat, attempt: Option<nat>, supplier: nat, currency: string, expires: Option<int>)
  datatype Revision = Revision(
    quotation: nat, number: nat, currency: string, created: int, expires: Option<int>, document: bool)
  datatype QuoteLine = QuoteLine(revision: nat, item: nat, offer: nat, priced: Pricing.PricedLine)
  datatype Issue = Issue(revision: nat, occurred: int, recorded: int)
  datatype Order = Order(request: nat, received: int)
  /** `quoteLine` is absent for a line that originates from an invoice, which `invoiceLine` then names. */
  datatype OrderLine = OrderLine(
    order: nat, item: nat, quoteLine: Option<nat>, invoiceLine: Option<nat>, qty: nat, unitPrice: nat)
  datatype Attempt = Attempt(
    item: nat, orderLine: nat, qty: nat, replaced: Option<nat>, strategy: Strategy, created: int)
  datatype Purchase = Purchase(request: nat, supplier: nat, currency: string)
  datatype PurchaseLine = PurchaseLine(purchase: nat, attempt: nat, qty: nat, created: int)
  datatype Receipt = Receipt(purchase: nat, received: int)
  datatype ReceiptLine = ReceiptLine(receipt: nat, purchaseLine: nat, qty: nat)
  datatype Delivery = Delivery(request: nat, dispatched: Option<int>)
  datatype DeliveryLine = DeliveryLine(delivery: nat, receiptLine: nat, qty: nat)
  datatype Outcome = Outcome(delivery: nat, occurred: int)
  datatype OutcomeLine = OutcomeLine(outcome: nat, deliveryLine: nat, accepted: nat, rejected: nat)
  datatype Action = Action(rejection: nat, kind: ActionKind, qty: nat, replacement: Option<nat>)
  datatype Event = Event(kind: EventKind, item: nat, attempt: nat, qty: nat)

  datatype DB = DB(
    clock: int,
    requests: seq<Request>,
    items: seq<Item>,
    offers: seq<Offer>,
    quotations: seq<nat>, // the request of each client quotation
    revisions: seq<Revision>,
    quoteLines: seq<QuoteLine>,
    issues: seq<Issue>,
    orders: seq<Order>,
    orderLines: seq<OrderLine>,
    attempts: seq<Attempt>,
    purchases: seq<Purchase>,
    purchaseLines: seq<PurchaseLine>,
    receipts: seq<Receipt>,
    receiptLines: seq<ReceiptLine>,
    deliveries: seq<Delivery>,
    deliveryLines: seq<DeliveryLine>,
    outcomes: seq<Outcome>,
    outcomeLines: seq<OutcomeLine>,
    actions: seq<Action>,
    events: seq<Event>)

  const EMPTY := DB(0, [], [], [], [], [], [], [], [], [], [], [], [], [], [], [], [], [], [], [], [])

  predicate Refers(key: Option<nat>, n: nat) {
    key.Some? ==> key.value < n
  }

  /** Foreign keys name existing rows and the check constraints on quantities hold. */
  predicate Schema(db: DB) {
    && (forall i | 0 <= i < |db.items| :: var r := db.items[i]; r.request < |db.requests|)
    && (forall i | 0 <= i < |db.offers| ::
          var r := db.offers[i];
          r.item < |db.items| && Refers(r.attempt, |db.attempts|))
    && (forall i | 0 <= i < |db.quotations| :: var r := db.quotations[i]; r < |db.requests|)
    && (forall i | 0 <= i < |db.revisions| :: var r := db.revisions[i]; r.quotation < |db.quotations|)
    && (forall i | 0 <= i < |db.quoteLines| ::
          var r := db.quoteLines[i];
          r.revision < |db.revisions| && r.item < |db.items| && r.offer < |db.offers|)
    && (forall i | 0 <= i < |db.issues| :: var r := db.issues[i]; r.revision < |db.revisions|)
    && (forall i | 0 <= i < |db.orders| :: var r := db.orders[i]; r.request < |db.requests|)
    && (forall i | 0 <= i < |db.orderLines| ::
          var r := db.orderLines[i];
          r.order < |db.orders| && r.item < |db.items| && Refers(r.quoteLine, |db.quoteLines|) && 0 < r.qty)
    && (forall i | 0 <= i < |db.attempts| ::
          var r := db.attempts[i];
          r.item < |db.items| && r.orderLine < |db.orderLines| && Refers(r.replaced, |db.outcomeLines|) && 0 < r.qty)
    && (forall i | 0 <= i < |db.purchases| :: var r := db.purchases[i]; r.request < |db.requests|)
    && (forall i | 0 <= i < |db.purchaseLines| ::
          var r := db.purchaseLines[i];
          r.purchase < |db.purchases| && r.attempt < |db.attempts| && 0 < r.qty)
    && (forall i | 0 <= i < |db.receipts| :: var r := db.receipts[i]; r.purchase < |db.purchases|)
    && (forall i | 0 <= i < |db.receiptLines| ::
          var r := db.receiptLines[i];
          r.receipt < |db.receipts| && r.purchaseLine < |db.purchaseLines| && 0 < r.qty)
    && (forall i | 0 <= i < |db.deliveries| :: var r := db.deliveries[i]; r.request < |db.requests|)
    && (forall i | 0 <= i < |db.deliveryLines| ::
          var r := db.deliveryLines[i];
          r.delivery < |db.deliveries| && r.receiptLine < |db.receiptLines| && 0 < r.qty)
    && (forall i | 0 <= i < |db.outcomes| :: var r := db.outcomes[i]; r.delivery < |db.deliveries|)
    && (forall i | 0 <= i < |db.outcomeLines| ::
          var r := db.outcomeLines[i];
          r.outcome < |db.outcomes| && r.deliveryLine < |db.deliveryLines| && 0 < r.accepted + r.rejected)
    && (forall i | 0 <= i < |db.actions| ::
          var r := db.actions[i];
          r.rejection < |db.outcomeLines| && Refers(r.replacement, |db.attempts|) && 0 < r.qty)
    && (forall i | 0 <= i < |db.events| :: var r := db.events[i]; r.item < |db.items| && r.attempt < |db.attempts|)
  }

  type Store = db: DB | Schema(db) witness EMPTY

  // ---- the child rows each sum ranges over

  function Purchases(rows: seq<PurchaseLine>): (links: seq<Link>) {
    seq(|rows|, i requires 0 <= i < |rows| => Link(rows[i].attempt, rows[i].qty))
  }

  function Receipts(rows: seq<ReceiptLine>): (links: seq<Link>) {
    seq(|rows|, i requires 0 <= i < |rows| => Link(rows[i].purchaseLine, rows[i].qty))
  }

  function Reservations(rows: seq<DeliveryLine>): (links: seq<Link>) {
    seq(|rows|, i requires 0 <= i < |rows| => Link(rows[i].receiptLine, rows[i].qty))
  }

  predicate IsDispatched(row: DeliveryLine, deliveries: seq<Delivery>) {
    row.delivery < |deliveries| && deliveries[row.delivery].dispatched.Some?
  }

  /** The delivery lines whose delivery has left. */
  function Dispatches(rows: seq<DeliveryLine>, deliveries: seq<Delivery>): (links: seq<Link>) {
    seq(|rows|, i requires 0 <= i < |rows| =>
      Link(rows[i].receiptLine, if IsDispatched(rows[i], deliveries) then rows[i].qty else 0))
  }

  function Acceptances(rows: seq<OutcomeLine>): (links: seq<Link>) {
    seq(|rows|, i requires 0 <= i < |rows| => Link(rows[i].deliveryLine, rows[i].accepted))
  }

  function Rejections(rows: seq<OutcomeLine>): (links: seq<Link>) {
    seq(|rows|, i requires 0 <= i < |rows| => Link(rows[i].deliveryLine, rows[i].rejected))
  }

  /** Accepted and rejected together. */
  function Settlements(rows: seq<OutcomeLine>): (links: seq<Link>) {
    seq(|rows|, i requires 0 <= i < |rows| => Link(rows[i].deliveryLine, rows[i].accepted + rows[i].rejected))
  }

  function ActionsOf(rows: seq<Action>, kind: ActionKind): (links: seq<Link>) {
    seq(|rows|, i requires 0 <= i < |rows| =>
      Link(rows[i].rejection, if rows[i].kind == kind then rows[i].qty else 0))
  }

  /** The replacement attempts of one strategy, under the rejection each replaces. */
  function ReplacementsOf(rows: seq<Attempt>, strategy: Strategy): (links: seq<Link>) {
    seq(|rows|, i requires 0 <= i < |rows| =>
      if rows[i].replaced.Some?
      then Link(rows[i].replaced.value, if rows[i].strategy == strategy then rows[i].qty else 0)
      else Link(-1, 0))
  }

  /** All replacement attempts, under the rejection each replaces. */
  function Replacements(rows: seq<Attempt>): (links: seq<Link>) {
    seq(|rows|, i requires 0 <= i < |rows| =>
      if rows[i].replaced.Some? then Link(rows[i].replaced.value, rows[i].qty) else Link(-1, 0))
  }

  /** Every attempt under itself, with the quantity it is to deliver. */
  function Targets(rows: seq<Attempt>): (links: seq<Link>) {
    seq(|rows|, i requires 0 <= i < |rows| => Link(i, rows[i].qty))
  }

  /** The order lines placed on invoice lines, under the invoice line. */
  function InvoiceOrders(rows: seq<OrderLine>): (links: seq<Link>) {
    seq(|rows|, i requires 0 <= i < |rows| =>
      if rows[i].invoiceLine.Some? then Link(rows[i].invoiceLine.value, rows[i].qty) else Link(-1, 0))
  }

  function EventsOf(rows: seq<Event>, kind: EventKind): (links: seq<Link>) {
    seq(|rows|, i requires 0 <= i < |rows| =>
      Link(rows[i].attempt, if rows[i].kind == kind then rows[i].qty else 0))
  }

  // ---- the join paths back to the attempt

  function PurchasedBy(db: DB): seq<Link> { Purchases(db.purchaseLines) }
  function ReceivedBy(db: DB): seq<Link> { Lift(Receipts(db.receiptLines), PurchasedBy(db)) }
  function ReservedBy(db: DB): seq<Link> { Lift(Reservations(db.deliveryLines), ReceivedBy(db)) }
  function DispatchedBy(db: DB): seq<Link> { Lift(Dispatches(db.deliveryLines, db.deliveries), ReceivedBy(db)) }
  function AcceptedBy(db: DB): seq<Link> { Lift(Acceptances(db.outcomeLines), ReservedBy(db)) }
  function RejectedBy(db: DB): seq<Link> { Lift(Rejections(db.outcomeLines), ReservedBy(db)) }
  function ClosedBy(db: DB): seq<Link> { Lift(ActionsOf(db.actions, Close), RejectedBy(db)) }
  function ReplacedBy(db: DB): seq<Link> { Lift(Replacements(db.attempts), RejectedBy(db)) }

  /** The purchase line a rejected or accepted outcome line goes back to. */
  function PurchaseLineOf(db: Store, outcomeLine: nat): (line: nat)
    requires outcomeLine < |db.outcomeLines|
    ensures line < |db.purchaseLines|
  {
    var d := db.outcomeLines[outcomeLine].deliveryLine;
    db.receiptLines[db.deliveryLines[d].receiptLine].purchaseLine
  }

  function AttemptOf(db: Store, outcomeLine: nat): (attempt: nat)
    requires outcomeLine < |db.outcomeLines|
    ensures attempt < |db.attempts|
  {
    db.purchaseLines[PurchaseLineOf(db, outcomeLine)].attempt
  }

  function SupplierOf(db: Store, purchaseLine: nat): nat
    requires purchaseLine < |db.purchaseLines|
  {
    db.purchases[db.purchaseLines[purchaseLine].purchase].supplier
  }
}
