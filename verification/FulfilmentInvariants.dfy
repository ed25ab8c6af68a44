/** What every reachable state of the fulfilment tables satisfies. */
module FulfilmentInvariants {
  import opened Options
  import opened Links
  import opened ProcurementTables
  import opened ProcurementSteps

  /** Each table of children points into its table of parents. */
  ghost predicate Linked(db: DB) {
    && Under(PurchasedBy(db), |db.attempts|)
    && Under(Receipts(db.receiptLines), |db.purchaseLines|)
    && Under(Reservations(db.deliveryLines), |db.receiptLines|)
    && Under(Dispatches(db.deliveryLines, db.deliveries), |db.receiptLines|)
    && Under(Acceptances(db.outcomeLines), |db.deliveryLines|)
    && Under(Rejections(db.outcomeLines), |db.deliveryLines|)
    && Under(Settlements(db.outcomeLines), |db.deliveryLines|)
    && Under(Replacements(db.attempts), |db.outcomeLines|)
    && Under(ActionsOf(db.actions, Close), |db.outcomeLines|)
  }

  /** No row is overdrawn by its own children: the local sums the operations check. */
  ghost predicate Bounds(db: DB) {
    && Covered(PurchasedBy(db), Targets(db.attempts))
    && Covered(Receipts(db.receiptLines), PurchasedBy(db))
    && Covered(Reservations(db.deliveryLines), ReceivedBy(db))
    && Covered(Settlements(db.outcomeLines), DispatchedBy(db))
  }

  function Done(actions: seq<Action>, kind: ActionKind, rejection: int): int {
    Total(ActionsOf(actions, kind), rejection)
  }

  /** The quantities resolved against one rejection, in the order the supplier must follow. */
  ghost predicate Rungs(attempts: seq<Attempt>, actions: seq<Action>, rejected: int, r: int) {
    && Total(Replacements(attempts), r) + Done(actions, Close, r) <= rejected
    && Total(ReplacementsOf(attempts, SameSupplier), r) == Done(actions, Replace, r)
    && Total(ReplacementsOf(attempts, DifferentSupplier), r) == Done(actions, Source, r)
    && Total(Replacements(attempts), r) == Done(actions, Replace, r) + Done(actions, Source, r)
    && Done(actions, Replace, r) <= Done(actions, SupplierAccepted, r)
    && Done(actions, SupplierAccepted, r) + Done(actions, SupplierRefused, r) <= Done(actions, Returned, r)
    && Done(actions, Returned, r) <= rejected
  }

  ghost predicate Ladder(attempts: seq<Attempt>, actions: seq<Action>, outcomeLines: seq<OutcomeLine>) {
    && (forall i | 0 <= i < |actions| :: actions[i].rejection < |outcomeLines|)
    && (forall i | 0 <= i < |attempts| :: Refers(attempts[i].replaced, |outcomeLines|))
    && (forall r | 0 <= r < |outcomeLines| :: Rungs(attempts, actions, outcomeLines[r].rejected, r))
  }

  /** Replacement attempts and the actions that grant them correspond one to one. */
  ghost predicate Granted(attempts: seq<Attempt>, actions: seq<Action>) {
    && (forall i | 0 <= i < |actions| :: Grants(attempts, actions[i]))
    && (forall a | 0 <= a < |attempts| && attempts[a].replaced.Some? :: HasGrant(actions, a))
    && (forall i, j | 0 <= i < j < |actions| && actions[i].replacement.Some? ::
          actions[i].replacement != actions[j].replacement)
  }

  ghost predicate HasGrant(actions: seq<Action>, a: nat) {
    exists i :: 0 <= i < |actions| && actions[i].replacement == Some(a)
  }

  ghost predicate Grants(attempts: seq<Attempt>, action: Action) {
    && (action.replacement.Some? <==> action.kind in {Replace, Source})
    && (action.replacement.Some? ==>
          && action.replacement.value < |attempts|
          && var a := attempts[action.replacement.value];
             && a.replaced == Some(action.rejection) && a.qty == action.qty
             && a.strategy == if action.kind == Replace then SameSupplier else DifferentSupplier)
  }

  /** The events that bring an attempt into being. */
  function OriginEvents(rows: seq<Event>): (links: seq<Link>) {
    seq(|rows|, i requires 0 <= i < |rows| =>
      Link(rows[i].attempt, if rows[i].kind in {PurchaseOrderReceived, SourcingReopened} then rows[i].qty else 0))
  }

  /** The event log and the tables tell the same quantities. */
  ghost predicate Replayed(db: DB) {
    && Agree(OriginEvents(db.events), Targets(db.attempts))
    && Agree(EventsOf(db.events, ItemPurchased), PurchasedBy(db))
    && Agree(EventsOf(db.events, ItemReceived), ReceivedBy(db))
    && Agree(EventsOf(db.events, ItemWaybilled), DispatchedBy(db))
    && Agree(EventsOf(db.events, ItemAccepted), AcceptedBy(db))
    && Agree(EventsOf(db.events, ItemRejected), RejectedBy(db))
    && Agree(EventsOf(db.events, Resolved(Close)), ClosedBy(db))
  }

  /** Every event is about the item of its attempt, and about some quantity of it. */
  ghost predicate Attributed(attempts: seq<Attempt>, events: seq<Event>) {
    forall i | 0 <= i < |events| ::
      events[i].attempt < |attempts| && events[i].item == attempts[events[i].attempt].item && 0 < events[i].qty
  }

  lemma {:induction false} AttributedAdd(attempts: seq<Attempt>, events: seq<Event>, moreAttempts: seq<Attempt>,
      added: seq<Event>)
    requires Attributed(attempts, events) && attempts <= moreAttempts && Attributed(moreAttempts, added)
    ensures Attributed(moreAttempts, events + added)
  {
  }

  /** An attempt knows the order line it serves, and a replacement the earlier attempt it replaces. */
  ghost predicate Lineage(attempts: seq<Attempt>, orderLines: seq<OrderLine>, rejectedBy: seq<Link>) {
    forall a | 0 <= a < |attempts| :: Descends(attempts, orderLines, rejectedBy, a)
  }

  ghost predicate Descends(attempts: seq<Attempt>, orderLines: seq<OrderLine>, rejectedBy: seq<Link>, a: nat)
    requires a < |attempts|
  {
    var t := attempts[a];
    && t.orderLine < |orderLines| && t.item == orderLines[t.orderLine].item
    && (t.strategy == Original <==> t.replaced.None?)
    && (t.replaced.None? ==> t.qty == orderLines[t.orderLine].qty)
    && (t.replaced.Some? ==>
          && t.replaced.value < |rejectedBy|
          && var b := rejectedBy[t.replaced.value].parent;
             && 0 <= b < a && attempts[b].item == t.item && attempts[b].orderLine == t.orderLine
             && t.qty <= attempts[b].qty)
  }

  /** The supplier of each purchase line, and of the purchase line each outcome line goes back to. */
  function SellersOf(lines: seq<PurchaseLine>, purchases: seq<Purchase>): seq<Link> {
    seq(|lines|, i requires 0 <= i < |lines| =>
      Link(if lines[i].purchase < |purchases| then purchases[lines[i].purchase].supplier else -1, 0))
  }

  function Sellers(db: DB): seq<Link> { SellersOf(db.purchaseLines, db.purchases) }

  function ReturnedTo(db: DB): seq<Link> {
    Lift(Rejections(db.outcomeLines),
        Lift(Reservations(db.deliveryLines), Lift(Receipts(db.receiptLines), Sellers(db))))
  }

  /** A replacement is bought from the supplier its strategy names. */
  ghost predicate SupplierKept(
    attempts: seq<Attempt>, purchasedBy: seq<Link>, sellers: seq<Link>, returnedTo: seq<Link>)
  {
    && |sellers| == |purchasedBy|
    && forall l | 0 <= l < |purchasedBy| ::
        SellerAllowed(attempts, purchasedBy[l].parent, sellers[l].parent, returnedTo)
  }

  ghost predicate SellerAllowed(attempts: seq<Attempt>, a: int, seller: int, returnedTo: seq<Link>) {
    && 0 <= a < |attempts|
    && (attempts[a].replaced.Some? ==>
          && attempts[a].replaced.value < |returnedTo|
          && var before := returnedTo[attempts[a].replaced.value].parent;
             if attempts[a].strategy == SameSupplier then seller == before else seller != before)
  }

  // ---- every row of a chain belongs to the request of its item

  ghost predicate OrderedWithin(db: DB) {
    forall i | 0 <= i < |db.orderLines| :: var l := db.orderLines[i];
      && l.item < |db.items| && l.order < |db.orders|
      && db.items[l.item].request == db.orders[l.order].request
  }

  ghost predicate PurchasedWithin(db: DB) {
    forall i | 0 <= i < |db.purchaseLines| :: var l := db.purchaseLines[i];
      && l.attempt < |db.attempts| && l.purchase < |db.purchases|
      && db.attempts[l.attempt].item < |db.items|
      && db.items[db.attempts[l.attempt].item].request == db.purchases[l.purchase].request
  }

  ghost predicate ReceivedWithin(db: DB) {
    forall i | 0 <= i < |db.receiptLines| :: var l := db.receiptLines[i];
      && l.receipt < |db.receipts| && l.purchaseLine < |db.purchaseLines|
      && db.receipts[l.receipt].purchase == db.purchaseLines[l.purchaseLine].purchase
  }

  ghost predicate DeliveredWithin(db: DB) {
    forall i | 0 <= i < |db.deliveryLines| :: var l := db.deliveryLines[i];
      && l.delivery < |db.deliveries| && l.receiptLine < |db.receiptLines|
      && var receipt := db.receiptLines[l.receiptLine].receipt;
         && receipt < |db.receipts| && db.receipts[receipt].purchase < |db.purchases|
         && db.deliveries[l.delivery].request == db.purchases[db.receipts[receipt].purchase].request
  }

  ghost predicate SettledWithin(db: DB) {
    forall i | 0 <= i < |db.outcomeLines| :: var l := db.outcomeLines[i];
      && l.outcome < |db.outcomes| && l.deliveryLine < |db.deliveryLines|
      && db.outcomes[l.outcome].delivery == db.deliveryLines[l.deliveryLine].delivery
  }

  ghost predicate OneRequest(db: DB) {
    OrderedWithin(db) && PurchasedWithin(db) && ReceivedWithin(db) && DeliveredWithin(db) && SettledWithin(db)
  }

  // ---- revisions are numbered in order and issued while they are the latest

  ghost predicate Counted(revisions: seq<Revision>) {
    forall r | 0 <= r < |revisions| ::
      revisions[r].number == RevisionCount(revisions[..r], revisions[r].quotation) + 1
  }

  ghost predicate IssuedLatest(revisions: seq<Revision>, issues: seq<Issue>, clock: int) {
    && (forall r | 0 <= r < |revisions| :: revisions[r].created <= clock)
    && (forall i | 0 <= i < |issues| ::
          && issues[i].revision < |revisions| && revisions[issues[i].revision].document
          && revisions[issues[i].revision].created <= issues[i].occurred <= issues[i].recorded <= clock)
    && (forall i, k | 0 <= i < |issues| && 0 <= k < |revisions| :: NotBehind(revisions, issues[i], revisions[k]))
  }

  /** A later revision of the issued quotation was made after the issue was recorded. */
  ghost predicate NotBehind(revisions: seq<Revision>, issue: Issue, later: Revision) {
    (&& issue.revision < |revisions|
     && later.quotation == revisions[issue.revision].quotation
     && revisions[issue.revision].number < later.number)
    ==> issue.recorded <= later.created
  }

  // ---- each step of a chain happens no earlier than the one before it, and none in the future

  ghost predicate OrderedAfterIssue(db: DB) {
    && (forall i | 0 <= i < |db.orders| :: db.orders[i].received <= db.clock)
    && forall i | 0 <= i < |db.orderLines| && db.orderLines[i].quoteLine.Some? ::
         && db.orderLines[i].order < |db.orders|
         && db.orderLines[i].quoteLine.value < |db.quoteLines|
         && var quote := db.quoteLines[db.orderLines[i].quoteLine.value];
            && quote.item == db.orderLines[i].item
            && quote.priced.row.unitPrice == db.orderLines[i].unitPrice
            && SentBy(db.issues, quote.revision, db.orders[db.orderLines[i].order].received)
  }

  ghost predicate PurchasedAfterOrder(db: DB) {
    forall i | 0 <= i < |db.purchaseLines| :: var l := db.purchaseLines[i];
      && l.attempt < |db.attempts| && db.attempts[l.attempt].orderLine < |db.orderLines|
      && var order := db.orderLines[db.attempts[l.attempt].orderLine].order;
         order < |db.orders| && db.orders[order].received <= l.created <= db.clock
  }

  ghost predicate ReceivedAfterPurchase(db: DB) {
    && (forall i | 0 <= i < |db.receipts| :: db.receipts[i].received <= db.clock)
    && forall i | 0 <= i < |db.receiptLines| :: var l := db.receiptLines[i];
         && l.receipt < |db.receipts| && l.purchaseLine < |db.purchaseLines|
         && db.purchaseLines[l.purchaseLine].created <= db.receipts[l.receipt].received
  }

  ghost predicate DispatchedAfterReceipt(db: DB) {
    forall i | 0 <= i < |db.deliveryLines| :: var l := db.deliveryLines[i];
      && l.delivery < |db.deliveries| && l.receiptLine < |db.receiptLines|
      && db.receiptLines[l.receiptLine].receipt < |db.receipts|
      && var dispatched := db.deliveries[l.delivery].dispatched;
         dispatched.Some? ==> db.receipts[db.receiptLines[l.receiptLine].receipt].received <= dispatched.value
  }

  ghost predicate SettledAfterDispatch(db: DB) {
    forall i | 0 <= i < |db.outcomes| ::
      && db.outcomes[i].delivery < |db.deliveries|
      && var dispatched := db.deliveries[db.outcomes[i].delivery].dispatched;
         dispatched.Some? && dispatched.value <= db.outcomes[i].occurred <= db.clock
  }

  ghost predicate Chronology(db: DB) {
    && OrderedAfterIssue(db) && PurchasedAfterOrder(db) && ReceivedAfterPurchase(db)
    && DispatchedAfterReceipt(db) && SettledAfterDispatch(db)
  }

  ghost predicate Sums(db: DB) {
    Linked(db) && Bounds(db) && Ladder(db.attempts, db.actions, db.outcomeLines) && Replayed(db)
  }

  ghost predicate Shape(db: DB) {
    && Granted(db.attempts, db.actions)
    && Lineage(db.attempts, db.orderLines, RejectedBy(db))
    && SupplierKept(db.attempts, PurchasedBy(db), Sellers(db), ReturnedTo(db))
    && OneRequest(db)
    && Counted(db.revisions) && IssuedLatest(db.revisions, db.issues, db.clock)
    && Chronology(db)
  }

  ghost predicate Inv(db: DB) {
    Sums(db) && Shape(db) && Attributed(db.attempts, db.events)
  }

  lemma {:induction false} SchemaLinks(db: Store)
    ensures Linked(db)
  {
  }

  /** Tables only grow, and a dispatched delivery stays dispatched. */
  ghost predicate Grows(db: DB, next: DB) {
    && db.clock <= next.clock
    && db.attempts <= next.attempts && db.purchaseLines <= next.purchaseLines
    && db.receiptLines <= next.receiptLines && db.deliveryLines <= next.deliveryLines
    && db.outcomeLines <= next.outcomeLines && db.actions <= next.actions && db.events <= next.events
    && |db.deliveries| <= |next.deliveries|
    && forall i | 0 <= i < |db.deliveries| && db.deliveries[i].dispatched.Some? ::
        next.deliveries[i] == db.deliveries[i]
  }

  lemma {:induction false} GrowsTrans(a: DB, b: DB, c: DB)
    requires Grows(a, b) && Grows(b, c)
    ensures Grows(a, c)
  {
  }
}
