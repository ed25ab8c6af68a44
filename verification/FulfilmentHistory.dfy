/** What the log, the replacement lineage, the rejection actions and the clock say over every run. */
module FulfilmentHistory {
  import opened Links
  import opened ProcurementTables
  import opened ProcurementSteps
  import opened FulfilmentInvariants
  import opened FulfilmentFunnel
  import opened FulfilmentShape
  import opened FulfilmentSteps
  import opened Tracking

  // ---- the event log replays to the tables

  function Logged(db: DB, kind: EventKind, a: int): int {
    Total(EventsOf(db.events, kind), a)
  }

  lemma {:induction false} OriginTotal(events: seq<Event>, a: int)
    ensures Total(OriginEvents(events), a)
         == Total(EventsOf(events, PurchaseOrderReceived), a) + Total(EventsOf(events, SourcingReopened), a)
  {
    TotalSplit(OriginEvents(events), EventsOf(events, PurchaseOrderReceived), EventsOf(events, SourcingReopened), a);
  }

  /** The quantities in an attempt's events add up to the quantities its summary computes from the tables. */
  lemma {:induction false} LogReplays(start: Store, ops: seq<Op>, a: nat)
    requires Fresh(start) && a < |Run(start, ops).attempts|
    ensures var db := Run(start, ops);
            var q := AttemptSummary(db, a).quantities;
            && Logged(db, ItemPurchased, a) == q.purchased && Logged(db, ItemReceived, a) == q.received
            && Logged(db, ItemWaybilled, a) == q.dispatched
            && Logged(db, ItemAccepted, a) == q.accepted && Logged(db, ItemRejected, a) == q.rejected
            && Logged(db, Resolved(Close), a) == q.closed
            && Logged(db, PurchaseOrderReceived, a) + Logged(db, SourcingReopened, a) == q.target
  {
    var db := Run(start, ops);
    Reachable(start, ops);
    SummaryIsTally(db, a);
    OriginTotal(db.events, a);
    TargetTotal(db.attempts, a);
  }

  // ---- rejections

  /** Against each rejection: replacements follow supplier acceptance, supplier decisions follow returns,
      returns stay within the rejection, and replacement attempts and closures together do too; the
      committed quantity is the sum of the three actions that commit it. */
  lemma {:induction false} RejectionLadder(start: Store, ops: seq<Op>, r: nat)
    requires Fresh(start) && r < |Run(start, ops).outcomeLines|
    ensures var db := Run(start, ops);
            var rejected := db.outcomeLines[r].rejected;
            var done := (kind: ActionKind) => Done(db.actions, kind, r);
            && Total(ReplacementsOf(db.attempts, SameSupplier), r) == done(Replace) <= done(SupplierAccepted)
            && Total(ReplacementsOf(db.attempts, DifferentSupplier), r) == done(Source)
            && done(SupplierAccepted) + done(SupplierRefused) <= done(Returned) <= rejected
            && Total(Replacements(db.attempts), r) + done(Close) == done(Replace) + done(Source) + done(Close)
                <= rejected
  {
    Reachable(start, ops);
    assert Rungs(Run(start, ops).attempts, Run(start, ops).actions, Run(start, ops).outcomeLines[r].rejected, r);
  }

  /** Every replacement attempt was granted by exactly one action, which names it, its rejection, its
      quantity and its strategy; and every replacing or sourcing action granted one. */
  lemma {:induction false} OneGrantEach(start: Store, ops: seq<Op>)
    requires Fresh(start)
    ensures var db := Run(start, ops);
            && (forall a | 0 <= a < |db.attempts| && db.attempts[a].replaced.Some? :: HasGrant(db.actions, a))
            && (forall i | 0 <= i < |db.actions| :: Grants(db.attempts, db.actions[i]))
            && (forall i, j | 0 <= i < |db.actions| && 0 <= j < |db.actions| && db.actions[i].replacement.Some?
                              && db.actions[i].replacement == db.actions[j].replacement :: i == j)
  {
    Reachable(start, ops);
  }

  // ---- lineage

  /** The attempt a replacement stands in for; `rejectedBy` holds the attempt of every outcome line. */
  function Replaced(attempts: seq<Attempt>, orderLines: seq<OrderLine>, rejectedBy: seq<Link>, a: nat): (b: nat)
    requires Lineage(attempts, orderLines, rejectedBy) && a < |attempts| && attempts[a].replaced.Some?
    ensures b < a && attempts[b].item == attempts[a].item && attempts[b].orderLine == attempts[a].orderLine
    ensures attempts[a].qty <= attempts[b].qty
  {
    assert Descends(attempts, orderLines, rejectedBy, a);
    rejectedBy[attempts[a].replaced.value].parent
  }

  /** The attempts from `a` back to the one it ultimately descends from. */
  function Ancestry(attempts: seq<Attempt>, orderLines: seq<OrderLine>, rejectedBy: seq<Link>, a: nat): (path: seq<nat>)
    requires Lineage(attempts, orderLines, rejectedBy) && a < |attempts|
    ensures |path| > 0 && path[0] == a
    ensures forall i | 0 <= i < |path| :: path[i] < |attempts|
    decreases a
  {
    if attempts[a].replaced.None? then [a]
    else [a] + Ancestry(attempts, orderLines, rejectedBy, Replaced(attempts, orderLines, rejectedBy, a))
  }

  /** Following replacements back from any attempt ends at an original attempt of the same item and order
      line, which is to deliver that line's whole quantity. */
  lemma {:induction false} LineageEnds(attempts: seq<Attempt>, orderLines: seq<OrderLine>, rejectedBy: seq<Link>,
      a: nat)
    requires Lineage(attempts, orderLines, rejectedBy) && a < |attempts|
    ensures var path := Ancestry(attempts, orderLines, rejectedBy, a);
            var root := attempts[path[|path| - 1]];
            && root.strategy == Original && root.replaced.None?
            && root.item == attempts[a].item && root.orderLine == attempts[a].orderLine
            && root.orderLine < |orderLines| && root.qty == orderLines[root.orderLine].qty
    decreases a
  {
    assert Descends(attempts, orderLines, rejectedBy, a);
    if attempts[a].replaced.Some? {
      LineageEnds(attempts, orderLines, rejectedBy, Replaced(attempts, orderLines, rejectedBy, a));
    }
  }

  /** Each step of the way replaces the attempt before it, and never asks for more than that one did. */
  lemma {:induction false} LineageNarrows(attempts: seq<Attempt>, orderLines: seq<OrderLine>, rejectedBy: seq<Link>,
      a: nat, i: nat)
    requires Lineage(attempts, orderLines, rejectedBy) && a < |attempts|
    requires i + 1 < |Ancestry(attempts, orderLines, rejectedBy, a)|
    ensures var path := Ancestry(attempts, orderLines, rejectedBy, a);
            && attempts[path[i]].replaced.Some?
            && path[i + 1] == Replaced(attempts, orderLines, rejectedBy, path[i]) < path[i]
            && attempts[path[i]].qty <= attempts[path[i + 1]].qty
    decreases a
  {
    if i > 0 {
      LineageNarrows(attempts, orderLines, rejectedBy, Replaced(attempts, orderLines, rejectedBy, a), i - 1);
    }
  }

  /** Lineage holds of every reachable state, with the attempt each rejection was delivered for. */
  lemma {:induction false} LineageOverRuns(start: Store, ops: seq<Op>)
    requires Fresh(start)
    ensures var db := Run(start, ops);
            && Lineage(db.attempts, db.orderLines, RejectedBy(db))
            && forall o | 0 <= o < |db.outcomeLines| :: RejectedBy(db)[o].parent == AttemptOf(db, o)
  {
    var db := Run(start, ops);
    Reachable(start, ops);
    forall o | 0 <= o < |db.outcomeLines| ensures RejectedBy(db)[o].parent == AttemptOf(db, o) {
      RejectedParent(db, o);
    }
  }

  lemma {:induction false} EarlierAttempt(db: Store, a: nat)
    requires Inv(db) && a < |db.attempts| && db.attempts[a].replaced.Some?
    ensures AttemptOf(db, db.attempts[a].replaced.value) < a
  {
    RejectedParent(db, db.attempts[a].replaced.value);
    assert Descends(db.attempts, db.orderLines, RejectedBy(db), a);
  }

  lemma {:induction false} SellerKept(db: Store, line: nat)
    requires Inv(db) && line < |db.purchaseLines| && db.attempts[db.purchaseLines[line].attempt].replaced.Some?
    ensures var a := db.attempts[db.purchaseLines[line].attempt];
            (a.strategy == SameSupplier)
                == (SupplierOf(db, line) == SupplierOf(db, PurchaseLineOf(db, a.replaced.value)))
  {
    var a := db.attempts[db.purchaseLines[line].attempt];
    assert SellerAllowed(db.attempts, PurchasedBy(db)[line].parent, Sellers(db)[line].parent, ReturnedTo(db));
    ReturnedToSeller(db, a.replaced.value);
  }

  lemma {:induction false} ReturnedToSeller(db: Store, outcomeLine: nat)
    requires outcomeLine < |db.outcomeLines|
    ensures ReturnedTo(db)[outcomeLine].parent == SupplierOf(db, PurchaseLineOf(db, outcomeLine))
  {
    var d := db.outcomeLines[outcomeLine].deliveryLine;
    var r := db.deliveryLines[d].receiptLine;
    var received := Lift(Receipts(db.receiptLines), Sellers(db));
    assert received[r].parent == Sellers(db)[db.receiptLines[r].purchaseLine].parent;
    assert Lift(Reservations(db.deliveryLines), received)[d].parent == received[r].parent;
  }

  /** The purchase line at the far end of a run of same-supplier replacements. */
  function FirstSold(db: Store, line: nat): (first: nat)
    requires Inv(db) && line < |db.purchaseLines|
    ensures first < |db.purchaseLines|
    decreases db.purchaseLines[line].attempt
  {
    var attempt := db.purchaseLines[line].attempt;
    var a := db.attempts[attempt];
    if a.replaced.Some? && a.strategy == SameSupplier then
      EarlierAttempt(db, attempt);
      FirstSold(db, PurchaseLineOf(db, a.replaced.value))
    else line
  }

  /** A run of same-supplier replacements shares one supplier, and a different-supplier replacement is
      bought from another supplier than the purchase it replaces. */
  lemma {:induction false} SuppliersFollowStrategy(db: Store, line: nat)
    requires Inv(db) && line < |db.purchaseLines|
    ensures SupplierOf(db, FirstSold(db, line)) == SupplierOf(db, line)
    ensures db.attempts[db.purchaseLines[FirstSold(db, line)].attempt].strategy != SameSupplier
    ensures var a := db.attempts[db.purchaseLines[line].attempt];
            a.strategy == DifferentSupplier ==>
              a.replaced.Some? && SupplierOf(db, line) != SupplierOf(db, PurchaseLineOf(db, a.replaced.value))
    decreases db.purchaseLines[line].attempt
  {
    var attempt := db.purchaseLines[line].attempt;
    var a := db.attempts[attempt];
    assert Descends(db.attempts, db.orderLines, RejectedBy(db), attempt);
    if a.replaced.Some? {
      SellerKept(db, line);
      if a.strategy == SameSupplier {
        EarlierAttempt(db, attempt);
        SuppliersFollowStrategy(db, PurchaseLineOf(db, a.replaced.value));
      }
    }
  }

  // ---- chronology

  /** Along the chain of an outcome line: the order was received, then the purchase recorded, the goods
      received, the delivery dispatched and the outcome met, none of them in the future. */
  ghost predicate InOrder(db: Store, o: nat)
    requires o < |db.outcomeLines|
  {
    var outcome := db.outcomes[db.outcomeLines[o].outcome];
    var delivered := db.deliveryLines[db.outcomeLines[o].deliveryLine];
    var received := db.receiptLines[delivered.receiptLine];
    var purchased := db.purchaseLines[received.purchaseLine];
    var ordered := db.orderLines[db.attempts[purchased.attempt].orderLine];
    var dispatched := db.deliveries[delivered.delivery].dispatched;
    && dispatched.Some?
    && db.orders[ordered.order].received <= purchased.created <= db.receipts[received.receipt].received
       <= dispatched.value <= outcome.occurred <= db.clock
  }

  lemma {:induction false} ChainOf(db: Store, o: nat)
    requires Chronology(db) && SettledWithin(db) && o < |db.outcomeLines|
    ensures InOrder(db, o)
  {
  }

  /** In every reachable state the chain of each outcome line is in order. */
  lemma {:induction false} ChainInOrder(start: Store, ops: seq<Op>, o: nat)
    requires Fresh(start) && o < |Run(start, ops).outcomeLines|
    ensures InOrder(Run(start, ops), o)
  {
    hide InOrder, Run;
    Reachable(start, ops);
    ChainOf(Run(start, ops), o);
  }

  /** Chronology holds of every reachable state. */
  lemma {:induction false} ChronologyOverRuns(start: Store, ops: seq<Op>)
    requires Fresh(start)
    ensures Chronology(Run(start, ops)) && OneRequest(Run(start, ops))
  {
    Reachable(start, ops);
  }

  /** In every reachable state, before a line ordered from a quotation was received, some issue of its revision
      was sent, and the revision was made before that issue. */
  lemma {:induction false} IssuedBefore(start: Store, ops: seq<Op>, line: nat)
    requires Fresh(start) && line < |Run(start, ops).orderLines| && Run(start, ops).orderLines[line].quoteLine.Some?
    ensures var db := Run(start, ops);
            exists i :: 0 <= i < |db.issues|
              && db.issues[i].revision == db.quoteLines[db.orderLines[line].quoteLine.value].revision
              && db.revisions[db.issues[i].revision].created <= db.issues[i].occurred
                 <= db.orders[db.orderLines[line].order].received
  {
    hide Run;
    Reachable(start, ops);
    var db := Run(start, ops);
    var revision := db.quoteLines[db.orderLines[line].quoteLine.value].revision;
    var at := db.orders[db.orderLines[line].order].received;
    assert SentBy(db.issues, revision, at);
    var i :| 0 <= i < |db.issues| && db.issues[i].revision == revision && db.issues[i].occurred <= at;
  }

  // ---- quotation revisions

  ghost predicate Carries(revisions: seq<Revision>, q: nat, k: nat, r: int) {
    0 <= r < |revisions| && revisions[r].quotation == q && revisions[r].number == k
  }

  /** The newest revision of a quotation alone carries the highest number. */
  lemma {:induction false} NewestNumber(revisions: seq<Revision>, q: nat)
    requires Counted(revisions) && revisions != [] && revisions[|revisions| - 1].quotation == q
    ensures Carries(revisions, q, RevisionCount(revisions, q), |revisions| - 1)
    ensures forall r | Carries(revisions, q, RevisionCount(revisions, q), r) :: r == |revisions| - 1
  {
    var n := |revisions| - 1;
    CountedPrefix(revisions, n);
    forall r | 0 <= r < n && revisions[r].quotation == q ensures revisions[r].number < RevisionCount(revisions, q) {
      NumberWithinCount(revisions[..n], r);
    }
  }

  lemma {:induction false} OlderNumber(revisions: seq<Revision>, q: nat, k: nat)
    requires revisions != [] && !Carries(revisions, q, k, |revisions| - 1)
    ensures forall r :: Carries(revisions, q, k, r) <==> Carries(revisions[..|revisions| - 1], q, k, r)
  {
  }

  /** The revisions of a quotation, in the order they were made, carry exactly the numbers 1 to n. */
  lemma {:induction false} NumbersAreConsecutive(revisions: seq<Revision>, q: nat, k: nat)
    requires Counted(revisions) && 1 <= k <= RevisionCount(revisions, q)
    ensures exists r :: Carries(revisions, q, k, r)
    ensures forall r, s | Carries(revisions, q, k, r) && Carries(revisions, q, k, s) :: r == s
  {
    var n := |revisions| - 1;
    if revisions[n].quotation == q && k == RevisionCount(revisions, q) {
      NewestNumber(revisions, q);
    } else {
      CountedPrefix(revisions, n);
      if revisions[n].quotation == q {
        NewestNumber(revisions, q);
      }
      NumbersAreConsecutive(revisions[..n], q, k);
      OlderNumber(revisions, q, k);
      var r :| Carries(revisions[..n], q, k, r);
      assert Carries(revisions, q, k, r);
    }
  }

  /** Numbering holds of every reachable state, and whatever was issued was then the latest revision. */
  lemma {:induction false} RevisionsOverRuns(start: Store, ops: seq<Op>)
    requires Fresh(start)
    ensures var db := Run(start, ops);
            && Counted(db.revisions)
            && forall i, k | 0 <= i < |db.issues| && 0 <= k < |db.revisions| ::
                NotBehind(db.revisions, db.issues[i], db.revisions[k])
  {
    Reachable(start, ops);
  }
}
