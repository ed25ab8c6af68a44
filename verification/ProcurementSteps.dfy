/** What each procurement operation does to the tables, as a function: the new tables, or `None`
    when the operation raises and its transaction leaves them as they were.

    `admitted` carries the checks made elsewhere: visibility and permission of the actor, and the
    validity of the party, the contact and the attached documents.
  */
module ProcurementSteps {
  import opened Options
  import opened Links
  import opened ProcurementTables
  import Pricing

  /** A call reads the clock when it validates and again when it inserts. */
  datatype Tick = Tick(wait: nat, lag: nat)

  function Now(db: DB, tick: Tick): int { db.clock + tick.wait }
  function Later(db: DB, tick: Tick): int { Now(db, tick) + tick.lag }

  predicate Unexpired(expires: Option<int>, now: int) {
    expires.Some? ==> now < expires.value
  }

  /** The request is visible to the actor and submitted. */
  predicate Locked(db: DB, request: nat, admitted: bool) {
    admitted && request < |db.requests| && db.requests[request].submitted
  }

  /** An occurrence time the caller may give; it may not lie in the future. */
  predicate NotFuture(given: Option<int>, now: int) {
    given.Some? ==> given.value <= now
  }

  function GivenOr(given: Option<int>, default: int): int {
    if given.Some? then given.value else default
  }

  function RevisionCount(revisions: seq<Revision>, quotation: nat): nat {
    if revisions == [] then 0
    else
      var k := |revisions| - 1;
      RevisionCount(revisions[..k], quotation) + if revisions[k].quotation == quotation then 1 else 0
  }

  // ---- requests, offers and quotations

  function NewItems(request: nat, n: nat): (items: seq<Item>)
    ensures |items| == n && forall i | 0 <= i < n :: items[i] == Item(request)
  {
    seq(n, i => Item(request))
  }

  function CreateRequest(db: Store, items: nat, admitted: bool, tick: Tick): Option<Store> {
    if !admitted then None
    else Some(db.(clock := Later(db, tick),
                  requests := db.requests + [Request(false)],
                  items := db.items + NewItems(|db.requests|, items)))
  }

  predicate HasItem(items: seq<Item>, request: nat) {
    exists i :: 0 <= i < |items| && items[i].request == request
  }

  function SubmitRequest(db: Store, request: nat, admitted: bool, tick: Tick): Option<Store> {
    if !admitted || |db.requests| <= request || db.requests[request].submitted || !HasItem(db.items, request) then None
    else Some(db.(clock := Later(db, tick), requests := db.requests[request := Request(true)]))
  }

  datatype OfferRow = OfferRow(item: nat, attempt: Option<nat>)
  datatype OfferInput = OfferInput(
    request: nat, supplier: nat, currency: string, expires: Option<int>, rows: seq<OfferRow>,
    admitted: bool, tick: Tick)

  /** A line of an offer is for an item of the request and, if it names an attempt, for an attempt at that item. */
  predicate OfferRowAllowed(db: DB, request: nat, row: OfferRow) {
    && row.item < |db.items| && db.items[row.item].request == request
    && (row.attempt.Some? ==> row.attempt.value < |db.attempts| && db.attempts[row.attempt.value].item == row.item)
  }

  function OfferLine(input: OfferInput, row: OfferRow): Offer {
    Offer(row.item, row.attempt, input.supplier, input.currency, input.expires)
  }

  function OfferLines(input: OfferInput): (lines: seq<Offer>)
    ensures |lines| == |input.rows|
  {
    seq(|input.rows|, i requires 0 <= i < |input.rows| => OfferLine(input, input.rows[i]))
  }

  /** A supplier's offer, with all its lines. */
  function CreateOffer(db: Store, input: OfferInput): Option<Store> {
    if !Locked(db, input.request, input.admitted) || !Unexpired(input.expires, Now(db, input.tick)) then None
    else if exists i :: 0 <= i < |input.rows| && !OfferRowAllowed(db, input.request, input.rows[i]) then None
    else Some(db.(clock := Later(db, input.tick), offers := db.offers + OfferLines(input)))
  }

  datatype QuoteRow = QuoteRow(item: nat, offer: nat, row: Pricing.Row)
  datatype QuoteInput = QuoteInput(
    request: nat, quotation: Option<nat>, reason: bool, currency: string, expires: Option<int>,
    document: bool, rows: seq<QuoteRow>, admitted: bool, tick: Tick)

  function QuoteOneRow(db: Store, revision: nat, row: QuoteRow, earlier: set<nat>, now: int): Option<Store>
    requires revision < |db.revisions|
  {
    if |db.items| <= row.item || |db.offers| <= row.offer then None
    else if db.items[row.item].request != db.quotations[db.revisions[revision].quotation] then None
    else if row.item in earlier then None
    else
      var offer := db.offers[row.offer];
      var priced := Pricing.QuotationAmounts(row.row);
      if offer.item != row.item || offer.currency != db.revisions[revision].currency then None
      else if !Unexpired(offer.expires, now) || priced.None? then None
      else Some(db.(quoteLines := db.quoteLines + [QuoteLine(revision, row.item, row.offer, priced.value)]))
  }

  function QuoteRows(db: Store, revision: nat, rows: seq<QuoteRow>, earlier: set<nat>, now: int): Option<Store>
    requires revision < |db.revisions|
    decreases |rows|
  {
    if rows == [] then Some(db)
    else
      var next := QuoteOneRow(db, revision, rows[0], earlier, now);
      if next.None? then None else QuoteRows(next.value, revision, rows[1..], earlier + {rows[0].item}, now)
  }

  /** The quotation a new revision belongs to: the one named, or a new one. */
  function OpenQuotation(db: Store, input: QuoteInput): Option<Store> {
    if !Locked(db, input.request, input.admitted) then None
    else if input.quotation.None? then Some(db.(quotations := db.quotations + [input.request]))
    else if |db.quotations| <= input.quotation.value then None
    else if db.quotations[input.quotation.value] != input.request || !input.reason then None
    else Some(db)
  }

  function OpenRevision(db: Store, revision: Revision, at: int): Store
    requires revision.quotation < |db.quotations|
  {
    db.(clock := at, revisions := db.revisions + [revision])
  }

  /** The revision a quotation gains: numbered after the ones it has. */
  function NextRevision(db: Store, input: QuoteInput): Revision {
    var q := if input.quotation.Some? then input.quotation.value else |db.quotations|;
    var number := RevisionCount(db.revisions, q) + 1;
    Revision(q, number, input.currency, Later(db, input.tick), input.expires, input.document)
  }

  function CreateQuote(db: Store, input: QuoteInput): Option<Store> {
    var entered := OpenQuotation(db, input);
    if entered.None? || !Unexpired(input.expires, Now(db, input.tick)) then None
    else
      var begun := OpenRevision(entered.value, NextRevision(db, input), Later(db, input.tick));
      QuoteRows(begun, |db.revisions|, input.rows, {}, Now(db, input.tick))
  }

  function IssueQuote(db: Store, revision: nat, given: Option<int>, approved: bool, admitted: bool, tick: Tick)
    : Option<Store>
  {
    if |db.revisions| <= revision then None
    else
      var r := db.revisions[revision];
      var occurred := GivenOr(given, Now(db, tick));
      if !Locked(db, db.quotations[r.quotation], admitted) || !approved then None
      else if !Unexpired(r.expires, Now(db, tick)) then None
      else if r.number != RevisionCount(db.revisions, r.quotation) || !r.document then None
      else if !NotFuture(given, Now(db, tick)) || occurred < r.created then None
      else
        var later := Later(db, tick);
        Some(db.(clock := later, issues := db.issues + [Issue(revision, GivenOr(given, later), later)]))
  }

  // ---- client purchase orders

  /** What the ledger shows of an invoice line at the time of the call: the line it is, the item it bills if
      any, whether its invoice is posted, and the quantity that posted credit notes cancel. */
  datatype InvoiceLine = InvoiceLine(
    id: nat, item: Option<nat>, posted: bool, unitPrice: nat, qty: nat, cancelled: nat)
  datatype OrderRow = OrderRow(quoteLine: Option<nat>, invoice: Option<InvoiceLine>, qty: nat, unitPrice: nat)
  datatype OrderInput = OrderInput(
    request: nat, verbal: bool, evidence: bool, document: bool, received: Option<int>,
    rows: seq<OrderRow>, admitted: bool, tick: Tick)

  /** Some issue of the revision was sent no later than `occurred`. */
  predicate SentBy(issues: seq<Issue>, revision: nat, occurred: int) {
    exists i :: 0 <= i < |issues| && issues[i].revision == revision && issues[i].occurred <= occurred
  }

  /** The item a purchase-order row orders, if the row may be ordered. */
  function OrderedItem(db: Store, request: nat, row: OrderRow, occurred: int): (item: Option<nat>)
    ensures item.Some? ==> item.value < |db.items|
  {
    if row.quoteLine.Some? == row.invoice.Some? then None
    else if row.quoteLine.Some? then
      if |db.quoteLines| <= row.quoteLine.value then None
      else
        var quote := db.quoteLines[row.quoteLine.value];
        var expires := db.revisions[quote.revision].expires;
        if db.items[quote.item].request != request || !SentBy(db.issues, quote.revision, occurred) then None
        else if expires.Some? && expires.value < occurred then None
        else if row.unitPrice != quote.priced.row.unitPrice then None
        else Some(quote.item)
    else
      var line := row.invoice.value;
      if !line.posted || line.item.None? || |db.items| <= line.item.value then None
      else if db.items[line.item.value].request != request || row.unitPrice != line.unitPrice then None
      else if line.qty < Total(InvoiceOrders(db.orderLines), line.id) + line.cancelled + row.qty then None
      else line.item
  }

  function NewOrderLine(order: nat, item: nat, row: OrderRow): OrderLine {
    OrderLine(order, item, row.quoteLine, if row.invoice.Some? then Some(row.invoice.value.id) else None,
              row.qty, row.unitPrice)
  }

  function OrderOneRow(db: Store, order: nat, row: OrderRow, occurred: int): (next: Option<Store>)
    requires order < |db.orders|
    ensures next.Some? ==> next.value.orders == db.orders && next.value.requests == db.requests
  {
    var item := OrderedItem(db, db.orders[order].request, row, occurred);
    if item.None? || row.qty == 0 then None
    else Some(db.(
      orderLines := db.orderLines + [NewOrderLine(order, item.value, row)],
      attempts := db.attempts + [Attempt(item.value, |db.orderLines|, row.qty, None, Original, db.clock)],
      events := db.events + [Event(PurchaseOrderReceived, item.value, |db.attempts|, row.qty)]))
  }

  function OrderRows(db: Store, order: nat, rows: seq<OrderRow>, occurred: int): Option<Store>
    requires order < |db.orders|
    decreases |rows|
  {
    if rows == [] then Some(db)
    else
      var next := OrderOneRow(db, order, rows[0], occurred);
      if next.None? then None else OrderRows(next.value, order, rows[1..], occurred)
  }

  function OpenOrder(db: Store, order: Order, at: int): Store
    requires order.request < |db.requests|
  {
    db.(clock := at, orders := db.orders + [order])
  }

  function CreateOrder(db: Store, input: OrderInput): Option<Store> {
    var now, later := Now(db, input.tick), Later(db, input.tick);
    if !Locked(db, input.request, input.admitted) then None
    else if !(if input.verbal then input.evidence else input.document) then None
    else if !NotFuture(input.received, now) then None
    else
      var order := Order(input.request, GivenOr(input.received, later));
      OrderRows(OpenOrder(db, order, later), |db.orders|, input.rows, GivenOr(input.received, now))
  }

  // ---- supplier purchases and goods receipts

  datatype PurchaseRow = PurchaseRow(attempt: nat, offer: nat, qty: nat)
  datatype PurchaseInput = PurchaseInput(
    request: nat, supplier: nat, currency: string, rows: seq<PurchaseRow>, admitted: bool, tick: Tick)

  /** A replacement keeps the supplier of the purchase it replaces, or leaves it, as its strategy says. */
  predicate SupplierAllowed(db: Store, attempt: nat, supplier: nat)
    requires attempt < |db.attempts|
  {
    var a := db.attempts[attempt];
    a.replaced.Some? ==>
      var before := SupplierOf(db, PurchaseLineOf(db, a.replaced.value));
      if a.strategy == SameSupplier then supplier == before else supplier != before
  }

  predicate OfferUsable(db: Store, purchase: Purchase, row: PurchaseRow, now: int)
    requires row.attempt < |db.attempts| && row.offer < |db.offers|
  {
    var offer := db.offers[row.offer];
    && offer.item == db.attempts[row.attempt].item && offer.supplier == purchase.supplier
    && (offer.attempt.Some? ==> offer.attempt.value == row.attempt)
    && offer.currency == purchase.currency
    && Unexpired(offer.expires, now)
  }

  function PurchaseOneRow(db: Store, purchase: nat, row: PurchaseRow, now: int): (next: Option<Store>)
    requires purchase < |db.purchases|
    ensures next.Some? ==> next.value.purchases == db.purchases
  {
    if |db.attempts| <= row.attempt || |db.offers| <= row.offer then None
    else
      var a := db.attempts[row.attempt];
      if db.items[a.item].request != db.purchases[purchase].request then None
      else if !OfferUsable(db, db.purchases[purchase], row, now) then None
      else if !SupplierAllowed(db, row.attempt, db.purchases[purchase].supplier) then None
      else if row.qty == 0 || a.qty < Total(PurchasedBy(db), row.attempt) + row.qty then None
      else Some(db.(
        purchaseLines := db.purchaseLines + [PurchaseLine(purchase, row.attempt, row.qty, db.clock)],
        events := db.events + [Event(ItemPurchased, a.item, row.attempt, row.qty)]))
  }

  function PurchaseRows(db: Store, purchase: nat, rows: seq<PurchaseRow>, now: int): Option<Store>
    requires purchase < |db.purchases|
    decreases |rows|
  {
    if rows == [] then Some(db)
    else
      var next := PurchaseOneRow(db, purchase, rows[0], now);
      if next.None? then None else PurchaseRows(next.value, purchase, rows[1..], now)
  }

  function OpenPurchase(db: Store, purchase: Purchase, at: int): Store
    requires purchase.request < |db.requests|
  {
    db.(clock := at, purchases := db.purchases + [purchase])
  }

  function CreatePurchase(db: Store, input: PurchaseInput): Option<Store> {
    if !Locked(db, input.request, input.admitted) then None
    else
      var purchase := Purchase(input.request, input.supplier, input.currency);
      PurchaseRows(OpenPurchase(db, purchase, Later(db, input.tick)), |db.purchases|, input.rows, Now(db, input.tick))
  }

  datatype ReceiptRow = ReceiptRow(purchaseLine: nat, qty: nat)
  datatype ReceiptInput = ReceiptInput(
    purchase: nat, received: Option<int>, rows: seq<ReceiptRow>, admitted: bool, tick: Tick)

  function ReceiveOneRow(db: Store, receipt: nat, row: ReceiptRow): (next: Option<Store>)
    requires receipt < |db.receipts|
    ensures next.Some? ==> next.value.receipts == db.receipts
  {
    if |db.purchaseLines| <= row.purchaseLine then None
    else
      var line := db.purchaseLines[row.purchaseLine];
      if line.purchase != db.receipts[receipt].purchase then None
      else if db.receipts[receipt].received < line.created then None
      else if row.qty == 0 || line.qty < Total(Receipts(db.receiptLines), row.purchaseLine) + row.qty then None
      else Some(db.(
        receiptLines := db.receiptLines + [ReceiptLine(receipt, row.purchaseLine, row.qty)],
        events := db.events + [Event(ItemReceived, db.attempts[line.attempt].item, line.attempt, row.qty)]))
  }

  function ReceiveRows(db: Store, receipt: nat, rows: seq<ReceiptRow>): Option<Store>
    requires receipt < |db.receipts|
    decreases |rows|
  {
    if rows == [] then Some(db)
    else
      var next := ReceiveOneRow(db, receipt, rows[0]);
      if next.None? then None else ReceiveRows(next.value, receipt, rows[1..])
  }

  function OpenReceipt(db: Store, receipt: Receipt, at: int): Store
    requires receipt.purchase < |db.purchases|
  {
    db.(clock := at, receipts := db.receipts + [receipt])
  }

  function CreateReceipt(db: Store, input: ReceiptInput): Option<Store> {
    var now, later := Now(db, input.tick), Later(db, input.tick);
    if |db.purchases| <= input.purchase then None
    else if !Locked(db, db.purchases[input.purchase].request, input.admitted) then None
    else if !NotFuture(input.received, now) then None
    else
      var receipt := Receipt(input.purchase, GivenOr(input.received, later));
      ReceiveRows(OpenReceipt(db, receipt, later), |db.receipts|, input.rows)
  }

  // ---- deliveries

  datatype DeliveryRow = DeliveryRow(receiptLine: nat, qty: nat)
  datatype DeliveryInput = DeliveryInput(request: nat, rows: seq<DeliveryRow>, admitted: bool, tick: Tick)

  function DeliverOneRow(db: Store, delivery: nat, row: DeliveryRow): (next: Option<Store>)
    requires delivery < |db.deliveries|
    ensures next.Some? ==> next.value.deliveries == db.deliveries
  {
    if |db.receiptLines| <= row.receiptLine then None
    else
      var line := db.receiptLines[row.receiptLine];
      var request := db.purchases[db.receipts[line.receipt].purchase].request;
      if request != db.deliveries[delivery].request then None
      else if row.qty == 0 || line.qty < Total(Reservations(db.deliveryLines), row.receiptLine) + row.qty then None
      else Some(db.(deliveryLines := db.deliveryLines + [DeliveryLine(delivery, row.receiptLine, row.qty)]))
  }

  function DeliverRows(db: Store, delivery: nat, rows: seq<DeliveryRow>): Option<Store>
    requires delivery < |db.deliveries|
    decreases |rows|
  {
    if rows == [] then Some(db)
    else
      var next := DeliverOneRow(db, delivery, rows[0]);
      if next.None? then None else DeliverRows(next.value, delivery, rows[1..])
  }

  function OpenDelivery(db: Store, request: nat, at: int): Store
    requires request < |db.requests|
  {
    db.(clock := at, deliveries := db.deliveries + [Delivery(request, None)])
  }

  function CreateDelivery(db: Store, input: DeliveryInput): Option<Store> {
    if !Locked(db, input.request, input.admitted) then None
    else DeliverRows(OpenDelivery(db, input.request, Later(db, input.tick)), |db.deliveries|, input.rows)
  }

  function WaybilledEvent(db: Store, line: DeliveryLine): Event
    requires line in db.deliveryLines
  {
    var attempt := db.purchaseLines[db.receiptLines[line.receiptLine].purchaseLine].attempt;
    Event(ItemWaybilled, db.attempts[attempt].item, attempt, line.qty)
  }

  /** The waybill events of a delivery's lines among the first `n` delivery lines. */
  function WaybillEvents(db: Store, delivery: nat, n: nat): (events: seq<Event>)
    requires n <= |db.deliveryLines|
    ensures forall i | 0 <= i < |events| ::
              && events[i].kind == ItemWaybilled && events[i].attempt < |db.attempts|
              && events[i].item == db.attempts[events[i].attempt].item && 0 < events[i].qty
  {
    if n == 0 then []
    else
      var line := db.deliveryLines[n - 1];
      WaybillEvents(db, delivery, n - 1) + if line.delivery == delivery then [WaybilledEvent(db, line)] else []
  }

  /** `waybill` says that a waybill is attached and, if it was generated, that it is the official
      document of this delivery. */
  function Dispatch(db: Store, delivery: nat, waybill: bool, admitted: bool, tick: Tick): Option<Store> {
    if |db.deliveries| <= delivery then None
    else
      var d := db.deliveries[delivery];
      if !Locked(db, d.request, admitted) || d.dispatched.Some? || !waybill then None
      else
        var later := Later(db, tick);
        Some(db.(
          clock := later,
          deliveries := db.deliveries[delivery := d.(dispatched := Some(later))],
          events := db.events + WaybillEvents(db, delivery, |db.deliveryLines|)))
  }

  // ---- outcomes and rejections

  datatype OutcomeRow = OutcomeRow(deliveryLine: nat, accepted: nat, rejected: nat, reason: bool)
  datatype OutcomeInput = OutcomeInput(
    delivery: nat, signed: bool, occurred: Option<int>, rows: seq<OutcomeRow>, admitted: bool, tick: Tick)

  function QuantityEvent(kind: EventKind, item: nat, attempt: nat, qty: nat): seq<Event> {
    if qty != 0 then [Event(kind, item, attempt, qty)] else []
  }

  /** The events an outcome row records: one for each quantity that is not zero. */
  function OutcomeEvents(item: nat, attempt: nat, accepted: nat, rejected: nat): seq<Event> {
    QuantityEvent(ItemAccepted, item, attempt, accepted) + QuantityEvent(ItemRejected, item, attempt, rejected)
  }

  function OutcomeOneRow(db: Store, outcome: nat, row: OutcomeRow, signed: bool): (next: Option<Store>)
    requires outcome < |db.outcomes|
    ensures next.Some? ==> next.value.outcomes == db.outcomes
  {
    if |db.deliveryLines| <= row.deliveryLine then None
    else
      var line := db.deliveryLines[row.deliveryLine];
      var settled := Total(Acceptances(db.outcomeLines), row.deliveryLine)
          + Total(Rejections(db.outcomeLines), row.deliveryLine);
      if line.delivery != db.outcomes[outcome].delivery || row.accepted + row.rejected == 0 then None
      else if (row.accepted != 0 && !signed) || (row.rejected != 0 && !row.reason) then None
      else if line.qty < settled + row.accepted + row.rejected then None
      else
        var attempt := db.purchaseLines[db.receiptLines[line.receiptLine].purchaseLine].attempt;
        Some(db.(
          outcomeLines := db.outcomeLines + [OutcomeLine(outcome, row.deliveryLine, row.accepted, row.rejected)],
          events := db.events + OutcomeEvents(db.attempts[attempt].item, attempt, row.accepted, row.rejected)))
  }

  function OutcomeRows(db: Store, outcome: nat, rows: seq<OutcomeRow>, signed: bool): Option<Store>
    requires outcome < |db.outcomes|
    decreases |rows|
  {
    if rows == [] then Some(db)
    else
      var next := OutcomeOneRow(db, outcome, rows[0], signed);
      if next.None? then None else OutcomeRows(next.value, outcome, rows[1..], signed)
  }

  function OpenOutcome(db: Store, outcome: Outcome, at: int): Store
    requires outcome.delivery < |db.deliveries|
  {
    db.(clock := at, outcomes := db.outcomes + [outcome])
  }

  function RecordOutcome(db: Store, input: OutcomeInput): Option<Store> {
    var now, later := Now(db, input.tick), Later(db, input.tick);
    if |db.deliveries| <= input.delivery then None
    else
      var d := db.deliveries[input.delivery];
      if !Locked(db, d.request, input.admitted) || d.dispatched.None? then None
      else if !NotFuture(input.occurred, now) || GivenOr(input.occurred, now) < d.dispatched.value then None
      else
        var outcome := Outcome(input.delivery, GivenOr(input.occurred, later));
        OutcomeRows(OpenOutcome(db, outcome, later), |db.outcomes|, input.rows, input.signed)
  }

  /** `refundFields` says that a refund amount or currency was given, `refundEvidenced` that a
      positive amount, a currency and a document were. */
  datatype ActionInput = ActionInput(
    rejection: nat, kind: ActionKind, qty: nat, refundFields: bool, refundEvidenced: bool, admitted: bool, tick: Tick)

  /** The quantity checks of one rejection line. */
  predicate Resolvable(db: Store, rejection: nat, kind: ActionKind, qty: nat)
    requires rejection < |db.outcomeLines|
  {
    var rejected := db.outcomeLines[rejection].rejected;
    var done := (k: ActionKind) => Total(ActionsOf(db.actions, k), rejection);
    var committed := Total(Replacements(db.attempts), rejection) + done(Close);
    && 0 < rejected
    && (kind in {Replace, Source, Close} ==> committed + qty <= rejected)
    && (kind == Returned ==> done(Returned) + qty <= rejected)
    && (kind in {SupplierAccepted, SupplierRefused}
        ==> done(SupplierAccepted) + done(SupplierRefused) + qty <= done(Returned))
    && (kind == Replace ==> done(Replace) + qty <= done(SupplierAccepted))
    && qty <= rejected
  }

  /** Reopens sourcing: a replacement attempt, the action that granted it, and their two events. */
  function InsertReplacement(db: Store, rejection: nat, qty: nat, kind: ActionKind): Store
    requires rejection < |db.outcomeLines| && 0 < qty
  {
    var a := db.attempts[AttemptOf(db, rejection)];
    var attempt := |db.attempts|;
    var strategy := if kind == Replace then SameSupplier else DifferentSupplier;
    db.(
      attempts := db.attempts + [Attempt(a.item, a.orderLine, qty, Some(rejection), strategy, db.clock)],
      actions := db.actions + [Action(rejection, kind, qty, Some(attempt))],
      events := db.events + [Event(Resolved(kind), a.item, attempt, qty),
          Event(SourcingReopened, a.item, attempt, qty)])
  }

  function InsertAction(db: Store, rejection: nat, qty: nat, kind: ActionKind): Store
    requires rejection < |db.outcomeLines| && 0 < qty
  {
    var original := AttemptOf(db, rejection);
    db.(
      actions := db.actions + [Action(rejection, kind, qty, None)],
      events := db.events + [Event(Resolved(kind), db.attempts[original].item, original, qty)])
  }

  function At(db: Store, at: int): Store {
    db.(clock := at)
  }

  function ResolveRejection(db: Store, input: ActionInput): Option<Store> {
    if |db.outcomeLines| <= input.rejection || input.qty == 0 then None
    else
      var request := db.items[db.attempts[AttemptOf(db, input.rejection)].item].request;
      if !Locked(db, request, input.admitted) || !Resolvable(db, input.rejection, input.kind, input.qty) then None
      else if (if input.kind == Refund then !input.refundEvidenced else input.refundFields) then None
      else
        var timed := At(db, Later(db, input.tick));
        if input.kind == Replace || input.kind == Source
        then Some(InsertReplacement(timed, input.rejection, input.qty, input.kind))
        else Some(InsertAction(timed, input.rejection, input.qty, input.kind))
  }

  // ---- runs

  datatype Op =
    | OpRequest(items: nat, admitted: bool, tick: Tick)
    | OpSubmit(request: nat, admitted: bool, tick: Tick)
    | OpOffer(offer: OfferInput)
    | OpQuote(quote: QuoteInput)
    | OpIssue(revision: nat, given: Option<int>, approved: bool, admitted: bool, tick: Tick)
    | OpOrder(order: OrderInput)
    | OpPurchase(purchase: PurchaseInput)
    | OpReceipt(receipt: ReceiptInput)
    | OpDelivery(delivery: DeliveryInput)
    | OpDispatch(dispatched: nat, waybill: bool, admitted: bool, tick: Tick)
    | OpOutcome(outcome: OutcomeInput)
    | OpResolve(action: ActionInput)

  function Attempted(db: Store, op: Op): Option<Store> {
    match op
    case OpRequest(items, admitted, tick) => CreateRequest(db, items, admitted, tick)
    case OpSubmit(request, admitted, tick) => SubmitRequest(db, request, admitted, tick)
    case OpOffer(input) => CreateOffer(db, input)
    case OpQuote(input) => CreateQuote(db, input)
    case OpIssue(revision, given, approved, admitted, tick) => IssueQuote(db, revision, given, approved, admitted, tick)
    case OpOrder(input) => CreateOrder(db, input)
    case OpPurchase(input) => CreatePurchase(db, input)
    case OpReceipt(input) => CreateReceipt(db, input)
    case OpDelivery(input) => CreateDelivery(db, input)
    case OpDispatch(delivery, waybill, admitted, tick) => Dispatch(db, delivery, waybill, admitted, tick)
    case OpOutcome(input) => RecordOutcome(db, input)
    case OpResolve(input) => ResolveRejection(db, input)
  }

  /** A refused operation rolls back. */
  function Apply(db: Store, op: Op): Store {
    var result := Attempted(db, op);
    if result.Some? then result.value else db
  }

  /** A database before its first request, at any time. */
  predicate Fresh(db: DB) {
    && db.requests == [] && db.items == [] && db.offers == [] && db.quotations == [] && db.revisions == []
    && db.quoteLines == [] && db.issues == [] && db.orders == [] && db.orderLines == [] && db.attempts == []
    && db.purchases == [] && db.purchaseLines == [] && db.receipts == [] && db.receiptLines == []
    && db.deliveries == [] && db.deliveryLines == [] && db.outcomes == [] && db.outcomeLines == []
    && db.actions == [] && db.events == []
  }

  function Run(db: Store, ops: seq<Op>): Store {
    if ops == [] then db else Apply(Run(db, ops[..|ops| - 1]), ops[|ops| - 1])
  }
}
