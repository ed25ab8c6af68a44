/** A row added to one table keeps lineage, requests, numbering and chronology. */
module FulfilmentShape {
  import opened Options
  import opened Links
  import opened ProcurementTables
  import opened ProcurementSteps
  import opened FulfilmentInvariants
  import opened FulfilmentSums

  lemma {:induction false} LineageGrows(attempts: seq<Attempt>, orderLines: seq<OrderLine>, rejectedBy: seq<Link>,
      moreAttempts: seq<Attempt>, moreLines: seq<OrderLine>, moreRejected: seq<Link>)
    requires Lineage(attempts, orderLines, rejectedBy)
    requires attempts <= moreAttempts && orderLines <= moreLines && rejectedBy <= moreRejected
    requires forall a | |attempts| <= a < |moreAttempts| :: Descends(moreAttempts, moreLines, moreRejected, a)
    ensures Lineage(moreAttempts, moreLines, moreRejected)
  {
    forall a | 0 <= a < |moreAttempts| ensures Descends(moreAttempts, moreLines, moreRejected, a) {
      if a < |attempts| {
        assert Descends(attempts, orderLines, rejectedBy, a);
      }
    }
  }

  // ---- a purchase-order line and its attempt

  lemma {:induction false} OrderShape(db: DB, next: DB, line: OrderLine, t: Attempt)
    requires Shape(db)
    requires line.quoteLine.Some? ==>
               && line.quoteLine.value < |db.quoteLines|
               && line.order < |db.orders|
               && var quote := db.quoteLines[line.quoteLine.value];
                  && quote.item == line.item && quote.priced.row.unitPrice == line.unitPrice
                  && SentBy(db.issues, quote.revision, db.orders[line.order].received)
    requires t == Attempt(line.item, |db.orderLines|, line.qty, None, Original, t.created)
    requires line.item < |db.items| && line.order < |db.orders|
    requires db.items[line.item].request == db.orders[line.order].request
    requires next == db.(orderLines := db.orderLines + [line], attempts := db.attempts + [t], events := next.events)
    ensures Shape(next)
  {
    hide Counted, IssuedLatest, Lineage, SentBy;
    LineageGrows(db.attempts, db.orderLines, RejectedBy(db), next.attempts, next.orderLines, RejectedBy(next));
  }

  // ---- a supplier purchase line

  lemma {:induction false} PurchaseTies(db: DB, next: DB, line: PurchaseLine)
    requires Linked(db)
    requires next == db.(purchaseLines := db.purchaseLines + [line], events := next.events)
    ensures RejectedBy(next) == RejectedBy(db) && ReturnedTo(next) == ReturnedTo(db)
    ensures Sellers(next)
        == Sellers(db) + [Link(if line.purchase < |db.purchases| then db.purchases[line.purchase].supplier else -1, 0)]
  {
    PurchaseLineAdded(db, next, line);
    var seller := Link(if line.purchase < |db.purchases| then db.purchases[line.purchase].supplier else -1, 0);
    assert Sellers(next) == Sellers(db) + [seller];
    LiftFrame(Receipts(db.receiptLines), Sellers(db), seller);
  }

  lemma {:induction false} PurchaseShape(db: DB, next: DB, line: PurchaseLine)
    requires Linked(db) && Shape(db) && line.created == db.clock
    requires line.attempt < |db.attempts| && line.purchase < |db.purchases|
    requires db.attempts[line.attempt].orderLine < |db.orderLines|
    requires db.orderLines[db.attempts[line.attempt].orderLine].order < |db.orders|
    requires db.attempts[line.attempt].item < |db.items|
    requires db.items[db.attempts[line.attempt].item].request == db.purchases[line.purchase].request
    requires SellerAllowed(db.attempts, line.attempt, db.purchases[line.purchase].supplier, ReturnedTo(db))
    requires next == db.(purchaseLines := db.purchaseLines + [line], events := next.events)
    ensures Shape(next)
  {
    hide Linked, Granted, Lineage, Counted, IssuedLatest, RejectedBy, ReturnedTo;
    PurchaseTies(db, next, line);
    PurchaseLineAdded(db, next, line);
  }

  // ---- a goods receipt line

  lemma {:induction false} ReceiptTies(db: DB, next: DB, line: ReceiptLine)
    requires Linked(db) && line.purchaseLine < |db.purchaseLines|
    requires next == db.(receiptLines := db.receiptLines + [line], events := next.events)
    ensures RejectedBy(next) == RejectedBy(db) && ReturnedTo(next) == ReturnedTo(db)
  {
    ReceiptLineAdded(db, next, line);
    var sold := Lift(Receipts(db.receiptLines), Sellers(db));
    LiftAppend(Receipts(db.receiptLines), Link(line.purchaseLine, line.qty), Sellers(db));
    LiftFrame(Reservations(db.deliveryLines), sold, Link(Sellers(db)[line.purchaseLine].parent, line.qty));
  }

  lemma {:induction false} ReceiptShape(db: DB, next: DB, line: ReceiptLine)
    requires Linked(db) && Shape(db)
    requires line.receipt < |db.receipts| && line.purchaseLine < |db.purchaseLines|
    requires db.purchaseLines[line.purchaseLine].created <= db.receipts[line.receipt].received
    requires db.receipts[line.receipt].purchase == db.purchaseLines[line.purchaseLine].purchase
    requires next == db.(receiptLines := db.receiptLines + [line], events := next.events)
    ensures Shape(next)
  {
    hide Linked, Granted, Lineage, SupplierKept, Counted, IssuedLatest, RejectedBy, ReturnedTo;
    ReceiptTies(db, next, line);
  }

  // ---- a delivery line

  lemma {:induction false} DeliveryTies(db: DB, next: DB, line: DeliveryLine)
    requires Linked(db) && line.receiptLine < |db.receiptLines| && !IsDispatched(line, db.deliveries)
    requires next == db.(deliveryLines := db.deliveryLines + [line])
    ensures RejectedBy(next) == RejectedBy(db) && ReturnedTo(next) == ReturnedTo(db)
  {
    DeliveryLineAdded(db, next, line);
    var sold := Lift(Receipts(db.receiptLines), Sellers(db));
    LiftAppend(Reservations(db.deliveryLines), Link(line.receiptLine, line.qty), sold);
    LiftFrame(Rejections(db.outcomeLines), Lift(Reservations(db.deliveryLines), sold),
        Link(sold[line.receiptLine].parent, line.qty));
  }

  lemma {:induction false} DeliveryShape(db: DB, next: DB, line: DeliveryLine)
    requires Linked(db) && Shape(db)
    requires line.delivery < |db.deliveries| && db.deliveries[line.delivery].dispatched.None?
    requires line.receiptLine < |db.receiptLines|
    requires var receipt := db.receiptLines[line.receiptLine].receipt;
             && receipt < |db.receipts| && db.receipts[receipt].purchase < |db.purchases|
             && db.deliveries[line.delivery].request == db.purchases[db.receipts[receipt].purchase].request
    requires next == db.(deliveryLines := db.deliveryLines + [line])
    ensures Shape(next)
  {
    hide Linked, Granted, Lineage, SupplierKept, Counted, IssuedLatest, RejectedBy, ReturnedTo;
    DeliveryTies(db, next, line);
  }

  // ---- a dispatch

  lemma {:induction false} DispatchShape(db: DB, next: DB, delivery: nat)
    requires Linked(db) && Shape(db) && delivery < |db.deliveries| && db.deliveries[delivery].dispatched.None?
    requires db.clock <= next.clock
    requires next == db.(clock := next.clock, events := next.events,
                         deliveries := db.deliveries[delivery :=
                             db.deliveries[delivery].(dispatched := Some(next.clock))])
    ensures Shape(next)
  {
    assert RejectedBy(next) == RejectedBy(db) && ReturnedTo(next) == ReturnedTo(db);
  }

  // ---- an outcome line

  lemma {:induction false} OutcomeTies(db: DB, next: DB, line: OutcomeLine)
    requires Linked(db) && line.deliveryLine < |db.deliveryLines|
    requires next == db.(outcomeLines := db.outcomeLines + [line], events := next.events)
    ensures RejectedBy(db) <= RejectedBy(next) && ReturnedTo(db) <= ReturnedTo(next)
  {
    OutcomeLineAdded(db, next, line);
    var sold := Lift(Reservations(db.deliveryLines), Lift(Receipts(db.receiptLines), Sellers(db)));
    assert Rejections(next.outcomeLines) == Rejections(db.outcomeLines) + [Link(line.deliveryLine, line.rejected)];
    LiftAppend(Rejections(db.outcomeLines), Link(line.deliveryLine, line.rejected), sold);
  }

  lemma {:induction false} OutcomeShape(db: DB, next: DB, line: OutcomeLine)
    requires Linked(db) && Shape(db) && line.outcome < |db.outcomes| && line.deliveryLine < |db.deliveryLines|
    requires db.outcomes[line.outcome].delivery == db.deliveryLines[line.deliveryLine].delivery
    requires next == db.(outcomeLines := db.outcomeLines + [line], events := next.events)
    ensures Shape(next)
  {
    hide Linked, Granted, Lineage, Counted, IssuedLatest;
    OutcomeTies(db, next, line);
    LineageGrows(db.attempts, db.orderLines, RejectedBy(db), next.attempts, next.orderLines, RejectedBy(next));
  }

  // ---- resolutions

  lemma {:induction false} ActionShape(db: DB, next: DB, action: Action)
    requires Shape(db) && action.kind !in {Replace, Source} && action.replacement.None?
    requires next == db.(actions := db.actions + [action], events := next.events)
    ensures Shape(next)
  {
    GrantedAddAction(db.attempts, db.actions, action);
  }

  lemma {:induction false} GrantedAddAction(attempts: seq<Attempt>, actions: seq<Action>, action: Action)
    requires Granted(attempts, actions) && action.kind !in {Replace, Source} && action.replacement.None?
    ensures Granted(attempts, actions + [action])
  {
    forall a | 0 <= a < |attempts| && attempts[a].replaced.Some? ensures HasGrant(actions + [action], a) {
      var i :| 0 <= i < |actions| && actions[i].replacement == Some(a);
      assert (actions + [action])[i].replacement == Some(a);
    }
  }

  lemma {:induction false} GrantedAddReplacement(attempts: seq<Attempt>, actions: seq<Action>, action: Action,
      t: Attempt)
    requires Granted(attempts, actions) && action.kind in {Replace, Source} && action.replacement == Some(|attempts|)
    requires t.replaced == Some(action.rejection) && t.qty == action.qty
    requires t.strategy == if action.kind == Replace then SameSupplier else DifferentSupplier
    ensures Granted(attempts + [t], actions + [action])
  {
    var more := actions + [action];
    forall a | 0 <= a < |attempts + [t]| && (attempts + [t])[a].replaced.Some? ensures HasGrant(more, a) {
      if a < |attempts| {
        var i :| 0 <= i < |actions| && actions[i].replacement == Some(a);
        assert more[i].replacement == Some(a);
      } else {
        assert more[|actions|].replacement == Some(a);
      }
    }
    forall i | 0 <= i < |actions| ensures Grants(attempts + [t], actions[i]) {
      assert Grants(attempts, actions[i]);
    }
  }

  lemma {:induction false} ReplacementLineage(attempts: seq<Attempt>, orderLines: seq<OrderLine>, rejectedBy: seq<Link>,
      t: Attempt, original: nat)
    requires Lineage(attempts, orderLines, rejectedBy) && original < |attempts|
    requires t.replaced.Some? && t.replaced.value < |rejectedBy| && rejectedBy[t.replaced.value].parent == original
    requires t.item == attempts[original].item && t.orderLine == attempts[original].orderLine
    requires t.strategy != Original && t.qty <= attempts[original].qty
    ensures Lineage(attempts + [t], orderLines, rejectedBy)
  {
    assert Descends(attempts, orderLines, rejectedBy, original);
    LineageGrows(attempts, orderLines, rejectedBy, attempts + [t], orderLines, rejectedBy);
  }

  lemma {:induction false} ReplacementShape(db: DB, next: DB, action: Action, t: Attempt, original: nat)
    requires Shape(db) && action.kind in {Replace, Source}
        && action.replacement == Some(|db.attempts|)
    requires action.rejection < |db.outcomeLines| && original < |db.attempts|
    requires RejectedBy(db)[action.rejection].parent == original
    requires t == Attempt(db.attempts[original].item, db.attempts[original].orderLine, action.qty,
        Some(action.rejection),
                          if action.kind == Replace then SameSupplier else DifferentSupplier, t.created)
    requires action.qty <= db.attempts[original].qty
    requires next == db.(attempts := db.attempts + [t], actions := db.actions + [action], events := next.events)
    ensures Shape(next)
  {
    hide Granted, Lineage, Counted, IssuedLatest;
    GrantedAddReplacement(db.attempts, db.actions, action, t);
    ReplacementLineage(db.attempts, db.orderLines, RejectedBy(db), t, original);
  }

  // ---- headers: rows that no sum ranges over

  lemma {:induction false} HeaderTies(db: DB, next: DB)
    requires Linked(db) && OneRequest(db)
    requires next.purchaseLines == db.purchaseLines && next.receiptLines == db.receiptLines
    requires next.deliveryLines == db.deliveryLines && next.outcomeLines == db.outcomeLines
    requires db.purchases <= next.purchases && db.deliveries <= next.deliveries
    ensures DispatchedBy(next) == DispatchedBy(db)
    ensures Sellers(next) == Sellers(db) && ReturnedTo(next) == ReturnedTo(db) && RejectedBy(next) == RejectedBy(db)
  {
    assert Dispatches(next.deliveryLines, next.deliveries) == Dispatches(db.deliveryLines, db.deliveries);
    assert Sellers(next) == Sellers(db);
  }

  /** Opening a request, order, purchase, receipt, delivery or outcome, before it has any lines. */
  lemma {:induction false} HeaderKeeps(db: DB, next: DB)
    requires Inv(db) && db.clock <= next.clock
    requires next == db.(clock := next.clock, requests := next.requests, items := next.items, offers := next.offers,
                         orders := next.orders, purchases := next.purchases, receipts := next.receipts,
                         deliveries := next.deliveries, outcomes := next.outcomes)
    requires db.items <= next.items && db.orders <= next.orders && db.purchases <= next.purchases
    requires db.receipts <= next.receipts && db.deliveries <= next.deliveries && db.outcomes <= next.outcomes
    requires forall i | |db.orders| <= i < |next.orders| :: next.orders[i].received <= next.clock
    requires forall i | |db.receipts| <= i < |next.receipts| :: next.receipts[i].received <= next.clock
    requires forall i | |db.outcomes| <= i < |next.outcomes| ::
               && next.outcomes[i].delivery < |db.deliveries|
               && db.deliveries[next.outcomes[i].delivery].dispatched.Some?
               && db.deliveries[next.outcomes[i].delivery].dispatched.value <= next.outcomes[i].occurred <= next.clock
    ensures Bounds(next) && Ladder(next.attempts, next.actions, next.outcomeLines) && Replayed(next) && Shape(next)
  {
    HeaderTies(db, next);
  }

  // ---- quotations

  lemma {:induction false} NumberWithinCount(revisions: seq<Revision>, k: nat)
    requires Counted(revisions) && k < |revisions|
    ensures revisions[k].number <= RevisionCount(revisions, revisions[k].quotation)
  {
    var n := |revisions| - 1;
    if k < n {
      CountedPrefix(revisions, n);
      NumberWithinCount(revisions[..n], k);
    }
  }

  lemma {:induction false} CountedPrefix(revisions: seq<Revision>, n: nat)
    requires Counted(revisions) && n <= |revisions|
    ensures Counted(revisions[..n])
  {
    forall r | 0 <= r < n
      ensures revisions[..n][r].number == RevisionCount(revisions[..n][..r], revisions[..n][r].quotation) + 1
    {
      assert revisions[..n][..r] == revisions[..r];
    }
  }

  lemma {:induction false} CountedAppend(revisions: seq<Revision>, r: Revision)
    requires Counted(revisions) && r.number == RevisionCount(revisions, r.quotation) + 1
    ensures Counted(revisions + [r])
  {
    forall i | 0 <= i <= |revisions|
      ensures (revisions + [r])[i].number == RevisionCount((revisions + [r])[..i], (revisions + [r])[i].quotation) + 1
    {
      assert (revisions + [r])[..i] == revisions[..i];
      assert revisions[..|revisions|] == revisions;
    }
  }

  lemma {:induction false} IssuedLatestAddRevision(revisions: seq<Revision>, issues: seq<Issue>, clock: int,
      r: Revision)
    requires IssuedLatest(revisions, issues, clock) && clock <= r.created
    ensures IssuedLatest(revisions + [r], issues, r.created)
  {
    forall i, k | 0 <= i < |issues| && 0 <= k <= |revisions|
      ensures NotBehind(revisions + [r], issues[i], (revisions + [r])[k])
    {
      if k < |revisions| {
        assert NotBehind(revisions, issues[i], revisions[k]);
      }
    }
  }

  lemma {:induction false} RevisionKeeps(db: DB, next: DB, r: Revision)
    requires Inv(db) && db.clock <= next.clock
    requires r.number == RevisionCount(db.revisions, r.quotation) + 1 && r.created == next.clock
    requires db.quoteLines <= next.quoteLines
    requires next == db.(clock := next.clock, quotations := next.quotations, revisions := db.revisions + [r],
                         quoteLines := next.quoteLines)
    ensures Bounds(next) && Ladder(next.attempts, next.actions, next.outcomeLines) && Replayed(next) && Shape(next)
  {
    CountedAppend(db.revisions, r);
    IssuedLatestAddRevision(db.revisions, db.issues, db.clock, r);
    HeaderTies(db, next);
  }

  lemma {:induction false} IssueKeeps(db: DB, next: DB, issue: Issue)
    requires Inv(db) && db.clock <= next.clock && issue.revision < |db.revisions|
    requires var r := db.revisions[issue.revision];
             r.document && r.number == RevisionCount(db.revisions, r.quotation) && r.created <= issue.occurred
    requires issue.occurred <= issue.recorded == next.clock
    requires next == db.(clock := next.clock, issues := db.issues + [issue])
    ensures Bounds(next) && Ladder(next.attempts, next.actions, next.outcomeLines) && Replayed(next) && Shape(next)
  {
    HeaderTies(db, next);
    forall k | 0 <= k < |db.revisions| ensures NotBehind(db.revisions, issue, db.revisions[k]) {
      NumberWithinCount(db.revisions, k);
    }
    SentByMore(db, next);
  }

  lemma {:induction false} SentByMore(db: DB, next: DB)
    requires OrderedAfterIssue(db) && db.clock <= next.clock && db.issues <= next.issues
    requires next.orders == db.orders && next.orderLines == db.orderLines && next.quoteLines == db.quoteLines
    ensures OrderedAfterIssue(next)
  {
    forall revision, at | SentBy(db.issues, revision, at) ensures SentBy(next.issues, revision, at) {
      var i :| 0 <= i < |db.issues| && db.issues[i].revision == revision && db.issues[i].occurred <= at;
      assert next.issues[i] == db.issues[i];
    }
  }
}
