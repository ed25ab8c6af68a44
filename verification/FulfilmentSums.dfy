/** A row added to one table keeps every bound and keeps the event log in step with the tables. */
module FulfilmentSums {
  import opened Options
  import opened Links
  import opened ProcurementTables
  import opened ProcurementSteps
  import opened FulfilmentInvariants

  function EventLink(e: Event, kind: EventKind): Link {
    Link(e.attempt, if e.kind == kind then e.qty else 0)
  }

  function OriginLink(e: Event): Link {
    Link(e.attempt, if e.kind in {PurchaseOrderReceived, SourcingReopened} then e.qty else 0)
  }

  lemma {:induction false} LogAppend(events: seq<Event>, e: Event)
    ensures forall k :: EventsOf(events + [e], k) == EventsOf(events, k) + [EventLink(e, k)]
    ensures OriginEvents(events + [e]) == OriginEvents(events) + [OriginLink(e)]
  {
  }

  /** An event of a kind the book does not record leaves book and log in agreement. */
  lemma {:induction false} LogOther(events: seq<Event>, e: Event, kind: EventKind, book: seq<Link>)
    requires Agree(EventsOf(events, kind), book) && e.kind != kind
    ensures Agree(EventsOf(events + [e], kind), book)
  {
    LogAppend(events, e);
    AgreeAppend(EventsOf(events, kind), book, EventLink(e, kind));
  }

  lemma {:induction false} LogBoth(events: seq<Event>, e: Event, book: seq<Link>, row: Link)
    requires Agree(EventsOf(events, e.kind), book) && row == Link(e.attempt, e.qty)
    ensures Agree(EventsOf(events + [e], e.kind), book + [row])
  {
    LogAppend(events, e);
    AgreeAppend(EventsOf(events, e.kind), book, row);
  }

  lemma {:induction false} LogOrigin(events: seq<Event>, e: Event, attempts: seq<Link>)
    requires Agree(OriginEvents(events), attempts) && e.kind !in {PurchaseOrderReceived, SourcingReopened}
    ensures Agree(OriginEvents(events + [e]), attempts)
  {
    LogAppend(events, e);
    AgreeAppend(OriginEvents(events), attempts, OriginLink(e));
  }

  // ---- a supplier purchase line

  lemma {:induction false} PurchaseLineAdded(db: DB, next: DB, line: PurchaseLine)
    requires Linked(db)
    requires next.purchaseLines == db.purchaseLines + [line] && next.receiptLines == db.receiptLines
    ensures PurchasedBy(next) == PurchasedBy(db) + [Link(line.attempt, line.qty)]
    ensures ReceivedBy(next) == ReceivedBy(db)
  {
    assert PurchasedBy(next) == PurchasedBy(db) + [Link(line.attempt, line.qty)];
    LiftFrame(Receipts(db.receiptLines), PurchasedBy(db), Link(line.attempt, line.qty));
  }

  lemma {:induction false} PurchaseSums(db: DB, next: DB, line: PurchaseLine, item: nat)
    requires Sums(db) && line.attempt < |db.attempts|
    requires Total(PurchasedBy(db), line.attempt) + line.qty <= db.attempts[line.attempt].qty
    requires next == db.(purchaseLines := db.purchaseLines + [line],
                         events := db.events + [Event(ItemPurchased, item, line.attempt, line.qty)])
    ensures Bounds(next) && Replayed(next)
  {
    var e, link := Event(ItemPurchased, item, line.attempt, line.qty), Link(line.attempt, line.qty);
    PurchaseLineAdded(db, next, line);
    CoveredAddChild(PurchasedBy(db), link, Targets(db.attempts));
    CoveredAddParent(Receipts(db.receiptLines), PurchasedBy(db), link);
    LogBoth(db.events, e, PurchasedBy(db), link);
    LogOrigin(db.events, e, Targets(db.attempts));
    LogOther(db.events, e, ItemReceived, ReceivedBy(db));
    LogOther(db.events, e, ItemWaybilled, DispatchedBy(db));
    LogOther(db.events, e, ItemAccepted, AcceptedBy(db));
    LogOther(db.events, e, ItemRejected, RejectedBy(db));
    LogOther(db.events, e, Resolved(Close), ClosedBy(db));
  }

  // ---- a goods receipt line

  lemma {:induction false} ReceiptLineAdded(db: DB, next: DB, line: ReceiptLine)
    requires Linked(db) && line.purchaseLine < |db.purchaseLines|
    requires next.receiptLines == db.receiptLines + [line] && next.purchaseLines == db.purchaseLines
    requires next.deliveryLines == db.deliveryLines && next.deliveries == db.deliveries
    ensures Receipts(next.receiptLines) == Receipts(db.receiptLines) + [Link(line.purchaseLine, line.qty)]
    ensures ReceivedBy(next) == ReceivedBy(db) + [Link(db.purchaseLines[line.purchaseLine].attempt, line.qty)]
    ensures ReservedBy(next) == ReservedBy(db) && DispatchedBy(next) == DispatchedBy(db)
  {
    var link := Link(db.purchaseLines[line.purchaseLine].attempt, line.qty);
    assert Receipts(next.receiptLines) == Receipts(db.receiptLines) + [Link(line.purchaseLine, line.qty)];
    LiftAppend(Receipts(db.receiptLines), Link(line.purchaseLine, line.qty), PurchasedBy(db));
    LiftFrame(Reservations(db.deliveryLines), ReceivedBy(db), link);
    LiftFrame(Dispatches(db.deliveryLines, db.deliveries), ReceivedBy(db), link);
  }

  lemma {:induction false} ReceiptSums(db: DB, next: DB, line: ReceiptLine, item: nat, attempt: nat)
    requires Sums(db) && line.purchaseLine < |db.purchaseLines|
    requires Total(Receipts(db.receiptLines), line.purchaseLine) + line.qty <= db.purchaseLines[line.purchaseLine].qty
    requires attempt == db.purchaseLines[line.purchaseLine].attempt
    requires next == db.(receiptLines := db.receiptLines + [line],
                         events := db.events + [Event(ItemReceived, item, attempt, line.qty)])
    ensures Bounds(next) && Replayed(next)
  {
    var e, link := Event(ItemReceived, item, attempt, line.qty), Link(attempt, line.qty);
    ReceiptLineAdded(db, next, line);
    CoveredAddChild(Receipts(db.receiptLines), Link(line.purchaseLine, line.qty), PurchasedBy(db));
    CoveredAddParent(Reservations(db.deliveryLines), ReceivedBy(db), link);
    LogBoth(db.events, e, ReceivedBy(db), link);
    LogOrigin(db.events, e, Targets(db.attempts));
    LogOther(db.events, e, ItemPurchased, PurchasedBy(db));
    LogOther(db.events, e, ItemWaybilled, DispatchedBy(db));
    LogOther(db.events, e, ItemAccepted, AcceptedBy(db));
    LogOther(db.events, e, ItemRejected, RejectedBy(db));
    LogOther(db.events, e, Resolved(Close), ClosedBy(db));
  }

  // ---- a delivery line

  lemma {:induction false} DeliveryLineAdded(db: DB, next: DB, line: DeliveryLine)
    requires Linked(db) && line.receiptLine < |db.receiptLines| && !IsDispatched(line, db.deliveries)
    requires next.deliveryLines == db.deliveryLines + [line] && next.deliveries == db.deliveries
    requires next.purchaseLines == db.purchaseLines && next.receiptLines == db.receiptLines
    requires next.outcomeLines == db.outcomeLines
    ensures Reservations(next.deliveryLines) == Reservations(db.deliveryLines) + [Link(line.receiptLine, line.qty)]
    ensures DispatchedBy(next) == DispatchedBy(db) + [Link(ReceivedBy(db)[line.receiptLine].parent, 0)]
    ensures AcceptedBy(next) == AcceptedBy(db) && RejectedBy(next) == RejectedBy(db)
  {
    var link := Link(ReceivedBy(db)[line.receiptLine].parent, line.qty);
    assert Reservations(next.deliveryLines) == Reservations(db.deliveryLines) + [Link(line.receiptLine, line.qty)];
    assert Dispatches(next.deliveryLines, next.deliveries)
        == Dispatches(db.deliveryLines, db.deliveries) + [Link(line.receiptLine, 0)];
    LiftAppend(Reservations(db.deliveryLines), Link(line.receiptLine, line.qty), ReceivedBy(db));
    LiftAppend(Dispatches(db.deliveryLines, db.deliveries), Link(line.receiptLine, 0), ReceivedBy(db));
    LiftFrame(Acceptances(db.outcomeLines), ReservedBy(db), link);
    LiftFrame(Rejections(db.outcomeLines), ReservedBy(db), link);
  }

  lemma {:induction false} DeliverySums(db: DB, next: DB, line: DeliveryLine)
    requires Sums(db) && line.receiptLine < |db.receiptLines| && !IsDispatched(line, db.deliveries)
    requires Total(Reservations(db.deliveryLines), line.receiptLine) + line.qty <= db.receiptLines[line.receiptLine].qty
    requires next == db.(deliveryLines := db.deliveryLines + [line])
    ensures Bounds(next) && Replayed(next)
  {
    DeliveryLineAdded(db, next, line);
    var link := Link(ReceivedBy(db)[line.receiptLine].parent, 0);
    CoveredAddChild(Reservations(db.deliveryLines), Link(line.receiptLine, line.qty), ReceivedBy(db));
    CoveredAddParent(Settlements(db.outcomeLines), DispatchedBy(db), link);
    AgreeAppend(EventsOf(db.events, ItemWaybilled), DispatchedBy(db), link);
  }

  // ---- a dispatch

  /** The lines of one delivery among the first `n`, under the attempts they are for. */
  function LinesOf(db: DB, delivery: nat, n: nat): seq<Link>
    requires n <= |db.deliveryLines|
  {
    seq(n, i requires 0 <= i < n => LineLink(db, delivery, i))
  }

  function LineLink(db: DB, delivery: nat, i: nat): Link
    requires i < |db.deliveryLines|
  {
    Link(ReservedBy(db)[i].parent, if db.deliveryLines[i].delivery == delivery then db.deliveryLines[i].qty else 0)
  }

  lemma {:induction false} LinesStep(db: DB, delivery: nat, n: nat, a: int)
    requires 0 < n <= |db.deliveryLines|
    ensures Total(LinesOf(db, delivery, n), a)
         == Total(LinesOf(db, delivery, n - 1), a)
            + if LineLink(db, delivery, n - 1).parent == a then LineLink(db, delivery, n - 1).qty else 0
  {
    assert LinesOf(db, delivery, n) == LinesOf(db, delivery, n - 1) + [LineLink(db, delivery, n - 1)];
    TotalAppend(LinesOf(db, delivery, n - 1), LineLink(db, delivery, n - 1));
  }

  lemma {:induction false} WaybilledLink(db: Store, i: nat)
    requires i < |db.deliveryLines|
    ensures WaybilledEvent(db, db.deliveryLines[i]).attempt == ReservedBy(db)[i].parent
  {
  }

  lemma {:induction false} LogOne(events: seq<Event>, e: Event, a: int)
    ensures Total(EventsOf(events + [e], e.kind), a) == Total(EventsOf(events, e.kind), a)
            + if e.attempt == a then e.qty else 0
  {
    LogAppend(events, e);
    TotalAppend(EventsOf(events, e.kind), EventLink(e, e.kind));
  }

  lemma {:induction false} WaybillStep(db: Store, delivery: nat, n: nat, a: int)
    requires 0 < n <= |db.deliveryLines|
    ensures Total(EventsOf(WaybillEvents(db, delivery, n), ItemWaybilled), a)
         == Total(EventsOf(WaybillEvents(db, delivery, n - 1), ItemWaybilled), a)
            + if LineLink(db, delivery, n - 1).parent == a then LineLink(db, delivery, n - 1).qty else 0
  {
    if db.deliveryLines[n - 1].delivery == delivery {
      WaybilledLink(db, n - 1);
      LogOne(WaybillEvents(db, delivery, n - 1), WaybilledEvent(db, db.deliveryLines[n - 1]), a);
    } else {
      assert WaybillEvents(db, delivery, n) == WaybillEvents(db, delivery, n - 1);
    }
  }

  lemma {:induction false} NoWaybills(db: Store, delivery: nat, a: int)
    ensures Total(EventsOf(WaybillEvents(db, delivery, 0), ItemWaybilled), a) == 0 == Total(LinesOf(db, delivery, 0), a)
  {
  }

  lemma {:induction false} WaybillTotal(db: Store, delivery: nat, n: nat, a: int)
    requires n <= |db.deliveryLines|
    ensures Total(EventsOf(WaybillEvents(db, delivery, n), ItemWaybilled), a) == Total(LinesOf(db, delivery, n), a)
  {
    hide WaybillEvents, LinesOf, EventsOf;
    if n == 0 {
      NoWaybills(db, delivery, a);
    } else {
      WaybillTotal(db, delivery, n - 1, a);
      LinesStep(db, delivery, n, a);
      WaybillStep(db, delivery, n, a);
    }
  }

  lemma {:induction false} WaybillLog(db: Store, delivery: nat, kind: EventKind)
    ensures var events := db.events + WaybillEvents(db, delivery, |db.deliveryLines|);
            forall a :: Total(EventsOf(events, kind), a)
              == Total(EventsOf(db.events, kind), a)
                 + if kind == ItemWaybilled then Total(LinesOf(db, delivery, |db.deliveryLines|), a) else 0
  {
    var added := WaybillEvents(db, delivery, |db.deliveryLines|);
    assert EventsOf(db.events + added, kind) == EventsOf(db.events, kind) + EventsOf(added, kind);
    forall a
      ensures Total(EventsOf(db.events + added, kind), a)
           == Total(EventsOf(db.events, kind), a)
              + if kind == ItemWaybilled then Total(LinesOf(db, delivery, |db.deliveryLines|), a) else 0
    {
      TotalConcat(EventsOf(db.events, kind), EventsOf(added, kind), a);
      if kind == ItemWaybilled {
        WaybillTotal(db, delivery, |db.deliveryLines|, a);
      } else {
        TotalZero(EventsOf(added, kind), a);
      }
    }
  }

  lemma {:induction false} WaybillOrigin(db: Store, delivery: nat)
    ensures Agree(OriginEvents(db.events + WaybillEvents(db, delivery, |db.deliveryLines|)), OriginEvents(db.events))
  {
    var added := WaybillEvents(db, delivery, |db.deliveryLines|);
    assert OriginEvents(db.events + added) == OriginEvents(db.events) + OriginEvents(added);
    forall a
      ensures Total(OriginEvents(db.events + added), a) == Total(OriginEvents(db.events), a)
    {
      TotalConcat(OriginEvents(db.events), OriginEvents(added), a);
      TotalZero(OriginEvents(added), a);
    }
  }

  /** Marking a delivery dispatched moves exactly its own lines into the dispatched sums. */
  lemma {:induction false} DispatchMoves(db: DB, next: DB, delivery: nat, at: int)
    requires Linked(db) && delivery < |db.deliveries| && db.deliveries[delivery].dispatched.None?
    requires next.deliveries == db.deliveries[delivery := db.deliveries[delivery].(dispatched := Some(at))]
    requires next.purchaseLines == db.purchaseLines && next.receiptLines == db.receiptLines
    requires next.deliveryLines == db.deliveryLines
    ensures forall a ::
              Total(DispatchedBy(next), a)
                == Total(DispatchedBy(db), a) + Total(LinesOf(db, delivery, |db.deliveryLines|), a)
    ensures forall i | 0 <= i < |db.deliveryLines| :: DispatchedBy(db)[i].qty <= DispatchedBy(next)[i].qty
  {
    forall a
      ensures Total(DispatchedBy(next), a)
          == Total(DispatchedBy(db), a) + Total(LinesOf(db, delivery, |db.deliveryLines|), a)
    {
      TotalSplit(DispatchedBy(next), DispatchedBy(db), LinesOf(db, delivery, |db.deliveryLines|), a);
    }
  }

  lemma {:induction false} DispatchSums(db: Store, next: DB, delivery: nat, at: int)
    requires Sums(db) && delivery < |db.deliveries| && db.deliveries[delivery].dispatched.None?
    requires next == db.(clock := next.clock,
                         deliveries := db.deliveries[delivery := db.deliveries[delivery].(dispatched := Some(at))],
                         events := db.events + WaybillEvents(db, delivery, |db.deliveryLines|))
    ensures Bounds(next) && Replayed(next)
  {
    DispatchMoves(db, next, delivery, at);
    WaybillOrigin(db, delivery);
    WaybillLog(db, delivery, ItemWaybilled);
    WaybillLog(db, delivery, ItemPurchased);
    WaybillLog(db, delivery, ItemReceived);
    WaybillLog(db, delivery, ItemAccepted);
    WaybillLog(db, delivery, ItemRejected);
    WaybillLog(db, delivery, Resolved(Close));
  }

  // ---- an outcome line

  lemma {:induction false} OutcomeLineAdded(db: DB, next: DB, line: OutcomeLine)
    requires Linked(db) && line.deliveryLine < |db.deliveryLines|
    requires next.outcomeLines == db.outcomeLines + [line]
    requires next.purchaseLines == db.purchaseLines && next.receiptLines == db.receiptLines
    requires next.deliveryLines == db.deliveryLines && next.actions == db.actions && next.attempts == db.attempts
    ensures var a := ReservedBy(db)[line.deliveryLine].parent;
            && AcceptedBy(next) == AcceptedBy(db) + [Link(a, line.accepted)]
            && RejectedBy(next) == RejectedBy(db) + [Link(a, line.rejected)]
    ensures Settlements(next.outcomeLines)
         == Settlements(db.outcomeLines) + [Link(line.deliveryLine, line.accepted + line.rejected)]
    ensures ClosedBy(next) == ClosedBy(db)
  {
    var a := ReservedBy(db)[line.deliveryLine].parent;
    assert Acceptances(next.outcomeLines) == Acceptances(db.outcomeLines) + [Link(line.deliveryLine, line.accepted)];
    assert Rejections(next.outcomeLines) == Rejections(db.outcomeLines) + [Link(line.deliveryLine, line.rejected)];
    assert Settlements(next.outcomeLines)
        == Settlements(db.outcomeLines) + [Link(line.deliveryLine, line.accepted + line.rejected)];
    LiftAppend(Acceptances(db.outcomeLines), Link(line.deliveryLine, line.accepted), ReservedBy(db));
    LiftAppend(Rejections(db.outcomeLines), Link(line.deliveryLine, line.rejected), ReservedBy(db));
    LiftFrame(ActionsOf(db.actions, Close), RejectedBy(db), Link(a, line.rejected));
  }

  lemma {:induction false} LogQuantity(events: seq<Event>, kind: EventKind, item: nat, a: nat, qty: nat,
      book: seq<Link>)
    requires Agree(EventsOf(events, kind), book)
    ensures Agree(EventsOf(events + QuantityEvent(kind, item, a, qty), kind), book + [Link(a, qty)])
  {
    if qty == 0 {
      assert events + QuantityEvent(kind, item, a, qty) == events;
      AgreeAppend(EventsOf(events, kind), book, Link(a, qty));
    } else {
      LogBoth(events, Event(kind, item, a, qty), book, Link(a, qty));
    }
  }

  lemma {:induction false} LogOtherQuantity(events: seq<Event>, kind: EventKind, item: nat, a: nat, qty: nat,
      other: EventKind, book: seq<Link>)
    requires Agree(EventsOf(events, other), book) && kind != other
    ensures Agree(EventsOf(events + QuantityEvent(kind, item, a, qty), other), book)
  {
    if qty == 0 {
      assert events + QuantityEvent(kind, item, a, qty) == events;
    } else {
      LogOther(events, Event(kind, item, a, qty), other, book);
    }
  }

  lemma {:induction false} LogOriginQuantity(events: seq<Event>, kind: EventKind, item: nat, a: nat, qty: nat,
      attempts: seq<Link>)
    requires Agree(OriginEvents(events), attempts) && kind !in {PurchaseOrderReceived, SourcingReopened}
    ensures Agree(OriginEvents(events + QuantityEvent(kind, item, a, qty)), attempts)
  {
    if qty == 0 {
      assert events + QuantityEvent(kind, item, a, qty) == events;
    } else {
      LogOrigin(events, Event(kind, item, a, qty), attempts);
    }
  }

  /** The events of one outcome row, seen by a book of any kind. */
  lemma {:induction false} OutcomeLog(events: seq<Event>, item: nat, a: nat, accepted: nat, rejected: nat,
      kind: EventKind, book: seq<Link>)
    requires Agree(EventsOf(events, kind), book)
    ensures var after := EventsOf(events + OutcomeEvents(item, a, accepted, rejected), kind);
            if kind == ItemAccepted then Agree(after, book + [Link(a, accepted)])
            else if kind == ItemRejected then Agree(after, book + [Link(a, rejected)])
            else Agree(after, book)
  {
    var mid := events + QuantityEvent(ItemAccepted, item, a, accepted);
    assert events + OutcomeEvents(item, a, accepted, rejected) == mid + QuantityEvent(ItemRejected, item, a, rejected);
    if kind == ItemAccepted {
      LogQuantity(events, kind, item, a, accepted, book);
      LogOtherQuantity(mid, ItemRejected, item, a, rejected, kind, book + [Link(a, accepted)]);
    } else {
      LogOtherQuantity(events, ItemAccepted, item, a, accepted, kind, book);
      if kind == ItemRejected {
        LogQuantity(mid, kind, item, a, rejected, book);
      } else {
        LogOtherQuantity(mid, ItemRejected, item, a, rejected, kind, book);
      }
    }
  }

  lemma {:induction false} SettlementTotal(rows: seq<OutcomeLine>, p: int)
    ensures Total(Settlements(rows), p) == Total(Acceptances(rows), p) + Total(Rejections(rows), p)
  {
    TotalSplit(Settlements(rows), Acceptances(rows), Rejections(rows), p);
  }

  lemma {:induction false} OutcomeReplay(db: DB, next: DB, line: OutcomeLine, item: nat, attempt: nat)
    requires Linked(db) && Replayed(db) && line.deliveryLine < |db.deliveryLines|
    requires attempt == ReservedBy(db)[line.deliveryLine].parent
    requires next == db.(outcomeLines := db.outcomeLines + [line],
                         events := db.events + OutcomeEvents(item, attempt, line.accepted, line.rejected))
    ensures Replayed(next)
  {
    OutcomeLineAdded(db, next, line);
    var mid := db.events + QuantityEvent(ItemAccepted, item, attempt, line.accepted);
    assert next.events == mid + QuantityEvent(ItemRejected, item, attempt, line.rejected);
    LogOriginQuantity(db.events, ItemAccepted, item, attempt, line.accepted, Targets(db.attempts));
    LogOriginQuantity(mid, ItemRejected, item, attempt, line.rejected, Targets(db.attempts));
    OutcomeLog(db.events, item, attempt, line.accepted, line.rejected, ItemPurchased, PurchasedBy(db));
    OutcomeLog(db.events, item, attempt, line.accepted, line.rejected, ItemReceived, ReceivedBy(db));
    OutcomeLog(db.events, item, attempt, line.accepted, line.rejected, ItemWaybilled, DispatchedBy(db));
    OutcomeLog(db.events, item, attempt, line.accepted, line.rejected, ItemAccepted, AcceptedBy(db));
    OutcomeLog(db.events, item, attempt, line.accepted, line.rejected, ItemRejected, RejectedBy(db));
    OutcomeLog(db.events, item, attempt, line.accepted, line.rejected, Resolved(Close), ClosedBy(db));
  }

  lemma {:induction false} OutcomeSums(db: DB, next: DB, line: OutcomeLine, item: nat, attempt: nat)
    requires Sums(db) && line.deliveryLine < |db.deliveryLines|
    requires attempt == ReservedBy(db)[line.deliveryLine].parent
    requires IsDispatched(db.deliveryLines[line.deliveryLine], db.deliveries)
    requires Total(Acceptances(db.outcomeLines), line.deliveryLine)
        + Total(Rejections(db.outcomeLines), line.deliveryLine)
             + line.accepted + line.rejected <= db.deliveryLines[line.deliveryLine].qty
    requires next == db.(outcomeLines := db.outcomeLines + [line],
                         events := db.events + OutcomeEvents(item, attempt, line.accepted, line.rejected))
    ensures Bounds(next) && Replayed(next) && Ladder(next.attempts, next.actions, next.outcomeLines)
  {
    OutcomeLineAdded(db, next, line);
    SettlementTotal(db.outcomeLines, line.deliveryLine);
    CoveredAddChild(Settlements(db.outcomeLines), Link(line.deliveryLine, line.accepted + line.rejected),
        DispatchedBy(db));
    OutcomeReplay(db, next, line, item, attempt);
    LadderAddOutcome(db.attempts, db.actions, db.outcomeLines, line);
  }

  // ---- the ladder

  lemma {:induction false} LadderAddOutcome(attempts: seq<Attempt>, actions: seq<Action>,
      outcomeLines: seq<OutcomeLine>, line: OutcomeLine)
    requires Ladder(attempts, actions, outcomeLines)
    ensures Ladder(attempts, actions, outcomeLines + [line])
  {
    var r := |outcomeLines|;
    TotalZero(Replacements(attempts), r);
    TotalZero(ReplacementsOf(attempts, SameSupplier), r);
    TotalZero(ReplacementsOf(attempts, DifferentSupplier), r);
    forall kind ensures Done(actions, kind, r) == 0 {
      TotalZero(ActionsOf(actions, kind), r);
    }
    forall i | 0 <= i < |attempts| ensures Refers(attempts[i].replaced, r + 1) {
      assert Refers(attempts[i].replaced, r);
    }
  }

  lemma {:induction false} ActionTotals(actions: seq<Action>, action: Action)
    ensures forall k, r :: Done(actions + [action], k, r)
                           == Done(actions, k, r) + if action.kind == k && action.rejection == r then action.qty else 0
  {
    forall k, r
      ensures Done(actions + [action], k, r)
           == Done(actions, k, r) + if action.kind == k && action.rejection == r then action.qty else 0
    {
      var link := Link(action.rejection, if action.kind == k then action.qty else 0);
      assert ActionsOf(actions + [action], k) == ActionsOf(actions, k) + [link];
      TotalAppend(ActionsOf(actions, k), link);
    }
  }

  lemma {:induction false} AttemptTotals(attempts: seq<Attempt>, t: Attempt)
    ensures forall r | 0 <= r :: Total(Replacements(attempts + [t]), r)
                                 == Total(Replacements(attempts), r) + if t.replaced == Some(r) then t.qty else 0
    ensures forall s, r | 0 <= r :: Total(ReplacementsOf(attempts + [t], s), r)
                                    == Total(ReplacementsOf(attempts, s), r)
                                       + if t.replaced == Some(r) && t.strategy == s then t.qty else 0
    ensures Targets(attempts + [t]) == Targets(attempts) + [Link(|attempts|, t.qty)]
  {
    var link := if t.replaced.Some? then Link(t.replaced.value, t.qty) else Link(-1, 0);
    assert Replacements(attempts + [t]) == Replacements(attempts) + [link];
    TotalAppend(Replacements(attempts), link);
    forall s, r | 0 <= r
      ensures Total(ReplacementsOf(attempts + [t], s), r)
           == Total(ReplacementsOf(attempts, s), r) + if t.replaced == Some(r) && t.strategy == s then t.qty else 0
    {
      var part := if t.replaced.Some? then Link(t.replaced.value, if t.strategy == s then t.qty else 0)
          else Link(-1, 0);
      assert ReplacementsOf(attempts + [t], s) == ReplacementsOf(attempts, s) + [part];
      TotalAppend(ReplacementsOf(attempts, s), part);
    }
  }

  /** The checks of one resolution, on the totals they read. */
  ghost predicate Allowed(
    attempts: seq<Attempt>, actions: seq<Action>, rejected: int, r: int, kind: ActionKind, qty: int)
  {
    && (kind in {Replace, Source, Close}
        ==> Total(Replacements(attempts), r) + Done(actions, Close, r) + qty <= rejected)
    && (kind == Returned ==> Done(actions, Returned, r) + qty <= rejected)
    && (kind in {SupplierAccepted, SupplierRefused} ==>
          Done(actions, SupplierAccepted, r) + Done(actions, SupplierRefused, r) + qty <= Done(actions, Returned, r))
    && (kind == Replace ==> Done(actions, Replace, r) + qty <= Done(actions, SupplierAccepted, r))
  }

  lemma {:induction false} LadderAddAction(attempts: seq<Attempt>, actions: seq<Action>, outcomeLines: seq<OutcomeLine>,
      action: Action)
    requires Ladder(attempts, actions, outcomeLines) && action.rejection < |outcomeLines|
    requires action.kind !in {Replace, Source}
    requires Allowed(attempts, actions, outcomeLines[action.rejection].rejected, action.rejection, action.kind,
        action.qty)
    ensures Ladder(attempts, actions + [action], outcomeLines)
  {
    ActionTotals(actions, action);
  }

  lemma {:induction false} LadderAddReplacement(attempts: seq<Attempt>, actions: seq<Action>,
      outcomeLines: seq<OutcomeLine>, action: Action, t: Attempt)
    requires Ladder(attempts, actions, outcomeLines) && action.rejection < |outcomeLines|
    requires action.kind in {Replace, Source}
    requires t.replaced == Some(action.rejection) && t.qty == action.qty
    requires t.strategy == if action.kind == Replace then SameSupplier else DifferentSupplier
    requires Allowed(attempts, actions, outcomeLines[action.rejection].rejected, action.rejection, action.kind,
        action.qty)
    ensures Ladder(attempts + [t], actions + [action], outcomeLines)
  {
    hide Rungs, Allowed;
    forall r | 0 <= r < |outcomeLines| ensures Rungs(attempts + [t], actions + [action], outcomeLines[r].rejected, r) {
      RungsAddReplacement(attempts, actions, outcomeLines[r].rejected, action, t, r);
    }
  }

  lemma {:induction false} RungsAddReplacement(attempts: seq<Attempt>, actions: seq<Action>, rejected: int,
      action: Action, t: Attempt, r: nat)
    requires Rungs(attempts, actions, rejected, r) && action.kind in {Replace, Source}
    requires t.replaced == Some(action.rejection) && t.qty == action.qty
    requires t.strategy == if action.kind == Replace then SameSupplier else DifferentSupplier
    requires r == action.rejection ==> Allowed(attempts, actions, rejected, r, action.kind, action.qty)
    ensures Rungs(attempts + [t], actions + [action], rejected, r)
  {
    ActionTotals(actions, action);
    AttemptTotals(attempts, t);
  }

  lemma {:induction false} LadderAddRoot(attempts: seq<Attempt>, actions: seq<Action>, outcomeLines: seq<OutcomeLine>,
      t: Attempt)
    requires Ladder(attempts, actions, outcomeLines) && t.replaced.None?
    ensures Ladder(attempts + [t], actions, outcomeLines)
  {
    AttemptTotals(attempts, t);
  }

  // ---- an attempt from a purchase order

  lemma {:induction false} OrderSums(db: DB, next: DB, line: OrderLine, t: Attempt)
    requires Sums(db) && t.replaced.None?
    requires next == db.(orderLines := db.orderLines + [line], attempts := db.attempts + [t],
                         events := db.events + [Event(PurchaseOrderReceived, t.item, |db.attempts|, t.qty)])
    ensures Bounds(next) && Replayed(next) && Ladder(next.attempts, next.actions, next.outcomeLines)
  {
    var e, link := Event(PurchaseOrderReceived, t.item, |db.attempts|, t.qty), Link(|db.attempts|, t.qty);
    AttemptTotals(db.attempts, t);
    LadderAddRoot(db.attempts, db.actions, db.outcomeLines, t);
    CoveredAddParent(PurchasedBy(db), Targets(db.attempts), link);
    LogAppend(db.events, e);
    AgreeAppend(OriginEvents(db.events), Targets(db.attempts), link);
    LogOther(db.events, e, ItemPurchased, PurchasedBy(db));
    LogOther(db.events, e, ItemReceived, ReceivedBy(db));
    LogOther(db.events, e, ItemWaybilled, DispatchedBy(db));
    LogOther(db.events, e, ItemAccepted, AcceptedBy(db));
    LogOther(db.events, e, ItemRejected, RejectedBy(db));
    LogOther(db.events, e, Resolved(Close), ClosedBy(db));
  }

  // ---- resolutions

  lemma {:induction false} ClosedAppend(db: DB, next: DB, action: Action)
    requires Linked(db) && action.rejection < |db.outcomeLines|
    requires next.actions == db.actions + [action] && next.outcomeLines == db.outcomeLines
    requires next.purchaseLines == db.purchaseLines && next.receiptLines == db.receiptLines
    requires next.deliveryLines == db.deliveryLines
    ensures ClosedBy(next) == ClosedBy(db)
              + [Link(RejectedBy(db)[action.rejection].parent, if action.kind == Close then action.qty else 0)]
  {
    var link := Link(action.rejection, if action.kind == Close then action.qty else 0);
    assert ActionsOf(next.actions, Close) == ActionsOf(db.actions, Close) + [link];
    LiftAppend(ActionsOf(db.actions, Close), link, RejectedBy(db));
  }

  lemma {:induction false} ActionSums(db: DB, next: DB, action: Action, e: Event)
    requires Sums(db) && action.rejection < |db.outcomeLines| && action.kind !in {Replace, Source}
    requires Allowed(db.attempts, db.actions, db.outcomeLines[action.rejection].rejected, action.rejection, action.kind,
        action.qty)
    requires e.kind == Resolved(action.kind) && e.qty == action.qty
        && e.attempt == RejectedBy(db)[action.rejection].parent
    requires next == db.(actions := db.actions + [action], events := db.events + [e])
    ensures Bounds(next) && Replayed(next) && Ladder(next.attempts, next.actions, next.outcomeLines)
  {
    LadderAddAction(db.attempts, db.actions, db.outcomeLines, action);
    ClosedAppend(db, next, action);
    var link := Link(e.attempt, if action.kind == Close then action.qty else 0);
    if action.kind == Close {
      LogBoth(db.events, e, ClosedBy(db), link);
    } else {
      LogOther(db.events, e, Resolved(Close), ClosedBy(db));
      AgreeAppend(EventsOf(next.events, Resolved(Close)), ClosedBy(db), link);
    }
    LogOrigin(db.events, e, Targets(db.attempts));
    LogOther(db.events, e, ItemPurchased, PurchasedBy(db));
    LogOther(db.events, e, ItemReceived, ReceivedBy(db));
    LogOther(db.events, e, ItemWaybilled, DispatchedBy(db));
    LogOther(db.events, e, ItemAccepted, AcceptedBy(db));
    LogOther(db.events, e, ItemRejected, RejectedBy(db));
  }

  lemma {:induction false} LogOtherTwice(events: seq<Event>, e: Event, f: Event, kind: EventKind, book: seq<Link>)
    requires Agree(EventsOf(events, kind), book) && e.kind != kind && f.kind != kind
    ensures Agree(EventsOf(events + [e, f], kind), book)
  {
    LogOther(events, e, kind, book);
    LogOther(events + [e], f, kind, book);
    assert events + [e, f] == events + [e] + [f];
  }

  lemma {:induction false} ReplacementSums(db: DB, next: DB, action: Action, t: Attempt)
    requires Sums(db) && action.rejection < |db.outcomeLines| && action.kind in {Replace, Source}
    requires Allowed(db.attempts, db.actions, db.outcomeLines[action.rejection].rejected, action.rejection, action.kind,
        action.qty)
    requires t.replaced == Some(action.rejection) && t.qty == action.qty
    requires t.strategy == if action.kind == Replace then SameSupplier else DifferentSupplier
    requires next == db.(attempts := db.attempts + [t], actions := db.actions + [action],
                         events := db.events + [Event(Resolved(action.kind), t.item, |db.attempts|, t.qty),
                                                Event(SourcingReopened, t.item, |db.attempts|, t.qty)])
    ensures Bounds(next) && Replayed(next) && Ladder(next.attempts, next.actions, next.outcomeLines)
  {
    var a := |db.attempts|;
    var e, f, link := Event(Resolved(action.kind), t.item, a, t.qty), Event(SourcingReopened, t.item, a, t.qty),
        Link(a, t.qty);
    LadderAddReplacement(db.attempts, db.actions, db.outcomeLines, action, t);
    AttemptTotals(db.attempts, t);
    CoveredAddParent(PurchasedBy(db), Targets(db.attempts), link);
    ClosedAppend(db, next, action);
    assert next.events == db.events + [e] + [f];
    LogOrigin(db.events, e, Targets(db.attempts));
    LogAppend(db.events + [e], f);
    AgreeAppend(OriginEvents(db.events + [e]), Targets(db.attempts), link);
    LogOtherTwice(db.events, e, f, Resolved(Close), ClosedBy(db));
    AgreeAppend(EventsOf(next.events, Resolved(Close)), ClosedBy(db), Link(RejectedBy(db)[action.rejection].parent, 0));
    LogOtherTwice(db.events, e, f, ItemPurchased, PurchasedBy(db));
    LogOtherTwice(db.events, e, f, ItemReceived, ReceivedBy(db));
    LogOtherTwice(db.events, e, f, ItemWaybilled, DispatchedBy(db));
    LogOtherTwice(db.events, e, f, ItemAccepted, AcceptedBy(db));
    LogOtherTwice(db.events, e, f, ItemRejected, RejectedBy(db));
  }
}
