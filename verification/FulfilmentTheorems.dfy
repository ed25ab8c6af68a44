/** What the tracker may rely on in every reachable state, and over every run. */
module FulfilmentTheorems {
  import opened Links
  import opened ProcurementTables
  import opened ProcurementSteps
  import opened FulfilmentInvariants
  import opened FulfilmentFunnel
  import opened FulfilmentSteps
  import opened Tracking

  // ---- the funnel, over runs

  /** In every reachable state the summary of every attempt narrows stage by stage. */
  lemma {:induction false} ReachableFunnel(start: Store, ops: seq<Op>, a: nat)
    requires Fresh(start) && a < |Run(start, ops).attempts|
    ensures Narrowing(AttemptSummary(Run(start, ops), a).quantities)
  {
    Reachable(start, ops);
    SummaryIsTally(Run(start, ops), a);
    TallyNarrows(Run(start, ops), a);
  }

  // ---- conservation over the replacement forest

  /** Every quantity sent to a replacement or closed, under its rejection. */
  function Resolving(db: DB): seq<Link> {
    Replacements(db.attempts) + ActionsOf(db.actions, Close)
  }

  lemma {:induction false} ResolvingTotal(db: DB, r: int)
    ensures Total(Resolving(db), r) == Total(Replacements(db.attempts), r) + Done(db.actions, Close, r)
  {
    TotalConcat(Replacements(db.attempts), ActionsOf(db.actions, Close), r);
  }

  lemma {:induction false} ResolvingLifted(db: DB, a: int)
    ensures Total(Lift(Resolving(db), RejectedBy(db)), a) == Total(ReplacedBy(db), a) + Total(ClosedBy(db), a)
  {
    LiftConcat(Replacements(db.attempts), ActionsOf(db.actions, Close), RejectedBy(db));
    hide RejectedBy;
    TotalConcat(ReplacedBy(db), ClosedBy(db), a);
  }

  lemma {:induction false} ResolvingCovered(db: DB)
    requires Under(Replacements(db.attempts), |db.outcomeLines|)
        && Under(ActionsOf(db.actions, Close), |db.outcomeLines|)
    requires Ladder(db.attempts, db.actions, db.outcomeLines)
    ensures Under(Resolving(db), |db.outcomeLines|) && Covered(Resolving(db), RejectedBy(db))
  {
    forall r | 0 <= r < |db.outcomeLines| ensures Total(Resolving(db), r) <= RejectedBy(db)[r].qty {
      ResolvingTotal(db, r);
      assert Rungs(db.attempts, db.actions, db.outcomeLines[r].rejected, r);
    }
  }

  lemma {:induction false} ResolvedWithinRejected(db: DB, a: int)
    requires Under(Replacements(db.attempts), |db.outcomeLines|)
        && Under(ActionsOf(db.actions, Close), |db.outcomeLines|)
    requires Ladder(db.attempts, db.actions, db.outcomeLines)
    ensures Total(Lift(Resolving(db), RejectedBy(db)), a) <= Total(RejectedBy(db), a)
  {
    ResolvingCovered(db);
    LiftBound(Resolving(db), RejectedBy(db), a);
  }

  lemma {:induction false} ResolvedNonNegative(db: DB, a: int)
    ensures 0 <= Total(ClosedBy(db), a) && 0 <= Total(ReplacedBy(db), a)
  {
    TotalNonNegative(ReplacedBy(db), a);
    TotalNonNegative(ClosedBy(db), a);
  }

  /** The stages of an attempt narrow, and what is closed or sent to a replacement was rejected. */
  ghost predicate Narrowing(q: Quantities) {
    && 0 <= q.accepted && 0 <= q.rejected && 0 <= q.closed && 0 <= q.reassigned
    && q.accepted + q.rejected <= q.dispatched <= q.reserved <= q.received <= q.purchased <= q.target
    && q.closed + q.reassigned + q.unresolved == q.rejected && 0 <= q.unresolved
  }

  lemma {:induction false} TallyNarrows(db: DB, a: nat)
    requires Sums(db) && a < |db.attempts|
    ensures Narrowing(Tally(db, a))
  {
    Funnel(db, a);
    ResolvedWithinRejected(db, a);
    ResolvedNonNegative(db, a);
    ResolvingLifted(db, a);
  }

  /** No part of an attempt's quantity is negative. */
  lemma {:induction false} PartNonNegative(db: DB, a: nat, figure: Figure)
    requires Sums(db) && a < |db.attempts| && figure in {AcceptedQty, ClosedQty, Unresolved, Open}
    ensures 0 <= Figured(db, a, figure)
  {
    FiguredIsTally(db, a, figure);
    TallyNarrows(db, a);
  }

  function ItemLinks(attempts: seq<Attempt>): seq<Link> {
    seq(|attempts|, a requires 0 <= a < |attempts| => Link(attempts[a].item, 0))
  }

  /** The replacement attempts, each under its own item. */
  function Replacing(attempts: seq<Attempt>): seq<Link> {
    seq(|attempts|, a requires 0 <= a < |attempts| =>
      Link(attempts[a].item, if attempts[a].replaced.Some? then attempts[a].qty else 0))
  }

  lemma {:induction false} ReplacedByItem(db: DB, item: nat)
    requires Lineage(db.attempts, db.orderLines, RejectedBy(db))
    ensures Under(ReplacedBy(db), |db.attempts|)
    ensures Total(Lift(ReplacedBy(db), ItemLinks(db.attempts)), item) == Total(Replacing(db.attempts), item)
  {
    forall i | 0 <= i < |db.attempts| && db.attempts[i].replaced.Some?
      ensures 0 <= ReplacedBy(db)[i].parent < i
      ensures Lift(ReplacedBy(db), ItemLinks(db.attempts))[i] == Replacing(db.attempts)[i]
    {
      assert Descends(db.attempts, db.orderLines, RejectedBy(db), i);
    }
    TotalMatch(Lift(ReplacedBy(db), ItemLinks(db.attempts)), Replacing(db.attempts), item);
  }

  lemma {:induction false} ReassignedFigures(db: DB)
    ensures Figures(db, Reassigned) == Roll(ReplacedBy(db), ItemLinks(db.attempts))
  {
    forall a | 0 <= a < |db.attempts| ensures Figured(db, a, Reassigned) == Total(ReplacedBy(db), a) {
      FiguredIsTally(db, a, Reassigned);
    }
  }

  /** What an item's attempts hand over to replacements is what its replacement attempts are to deliver. */
  lemma {:induction false} ReassignedIsReplacing(db: DB, item: nat)
    requires Lineage(db.attempts, db.orderLines, RejectedBy(db))
    ensures Sum(db, item, Target) == Sum(db, item, OriginalQty) + Sum(db, item, Reassigned)
  {
    TotalSplit(Figures(db, Target), Figures(db, OriginalQty), Replacing(db.attempts), item);
    ReassignedFigures(db);
    ReplacedByItem(db, item);
    GroupedEqualsNested(ReplacedBy(db), ItemLinks(db.attempts), item);
  }

  lemma {:induction false} PartsOfAttempt(db: DB, a: nat)
    requires a < |db.attempts|
    ensures Figured(db, a, Target)
        == Figured(db, a, AcceptedQty) + Figured(db, a, ClosedQty) + Figured(db, a, Unresolved)
                                      + Figured(db, a, Open) + Figured(db, a, Reassigned)
  {
    forall figure ensures Figured(db, a, figure) == Read(db.attempts[a], Tally(db, a), figure) {
      FiguredIsTally(db, a, figure);
    }
  }

  /** The five parts of an attempt's quantity, summed over an item. */
  lemma {:induction false} PartsOfTarget(db: DB, item: nat)
    ensures Sum(db, item, Target) == Sum(db, item, AcceptedQty) + Sum(db, item, ClosedQty) + Sum(db, item, Unresolved)
                                     + Sum(db, item, Open) + Sum(db, item, Reassigned)
  {
    forall a | 0 <= a < |db.attempts|
      ensures Figured(db, a, Target)
          == Figured(db, a, AcceptedQty) + Figured(db, a, ClosedQty) + Figured(db, a, Unresolved)
                                        + Figured(db, a, Open) + Figured(db, a, Reassigned)
    {
      PartsOfAttempt(db, a);
    }
    TotalSplit5(Figures(db, Target), Figures(db, AcceptedQty), Figures(db, ClosedQty), Figures(db, Unresolved),
                Figures(db, Open), Figures(db, Reassigned), item);
  }

  lemma {:induction false} FigureNonNegative(db: DB, figure: Figure, item: nat)
    requires Sums(db) && figure in {AcceptedQty, ClosedQty, Unresolved, Open}
    ensures NonNegative(Figures(db, figure)) && 0 <= Sum(db, item, figure)
  {
    forall a | 0 <= a < |db.attempts| ensures 0 <= Figured(db, a, figure) {
      PartNonNegative(db, a, figure);
    }
    TotalNonNegative(Figures(db, figure), item);
  }

  /** Ordered quantity is conserved over an item's whole replacement forest: it is what was accepted,
      closed, left unresolved or is still open, so the remaining quantity is exactly the last two. */
  lemma {:induction false} Conservation(db: DB, item: nat)
    requires Inv(db)
    ensures var t := TrackItem(db, item);
            && t.ordered == t.accepted + t.closed + Sum(db, item, Unresolved) + Sum(db, item, Open)
            && t.remaining == Sum(db, item, Unresolved) + Sum(db, item, Open)
            && 0 <= t.accepted && 0 <= t.closed && 0 <= Sum(db, item, Unresolved) && 0 <= Sum(db, item, Open)
  {
    PartsOfTarget(db, item);
    ReassignedIsReplacing(db, item);
    FigureNonNegative(db, AcceptedQty, item);
    FigureNonNegative(db, ClosedQty, item);
    FigureNonNegative(db, Unresolved, item);
    FigureNonNegative(db, Open, item);
  }

  /** A figure that sums to nothing over an item is nothing in each of its attempts. */
  lemma {:induction false} NothingAnywhere(db: DB, figure: Figure, item: nat, a: nat)
    requires Sums(db) && figure in {AcceptedQty, ClosedQty, Unresolved, Open}
    requires a < |db.attempts| && db.attempts[a].item == item && Sum(db, item, figure) == 0
    ensures Figured(db, a, figure) == 0
  {
    FigureNonNegative(db, figure, item);
    RowWithinTotal(Figures(db, figure), a);
  }

  /** Nothing of the item's forest is open, closed or unresolved. */
  ghost predicate AllSettled(db: DB, item: nat) {
    forall a | 0 <= a < |db.attempts| && db.attempts[a].item == item ::
      Figured(db, a, Open) == Figured(db, a, ClosedQty) == Figured(db, a, Unresolved) == 0
  }

  lemma {:induction false} CompletedSettles(db: DB, item: nat)
    requires Inv(db) && TrackItem(db, item).itemAccepted == Completed
    ensures TrackItem(db, item).remaining == 0 && TrackItem(db, item).closed == 0 && AllSettled(db, item)
  {
    Conservation(db, item);
    forall a | 0 <= a < |db.attempts| && db.attempts[a].item == item
      ensures Figured(db, a, Open) == Figured(db, a, ClosedQty) == Figured(db, a, Unresolved) == 0
    {
      NothingAnywhere(db, Open, item, a);
      NothingAnywhere(db, ClosedQty, item, a);
      NothingAnywhere(db, Unresolved, item, a);
    }
  }

  /** In every reachable state, ordered quantity is conserved over the replacement forest, the remaining
      quantity is never negative, and an item shown as completed has nothing open, closed or unresolved
      in any of its attempts. */
  lemma {:induction false} ReachableConservation(start: Store, ops: seq<Op>, item: nat)
    requires Fresh(start)
    ensures var db := Run(start, ops);
            var t := TrackItem(db, item);
            && t.ordered == t.accepted + t.closed + t.remaining && 0 <= t.remaining
            && t.remaining == Sum(db, item, Unresolved) + Sum(db, item, Open)
            && (t.itemAccepted == Completed ==> t.remaining == 0 && t.closed == 0 && AllSettled(db, item))
  {
    Reachable(start, ops);
    Conservation(Run(start, ops), item);
    if TrackItem(Run(start, ops), item).itemAccepted == Completed {
      CompletedSettles(Run(start, ops), item);
    }
  }

  // ---- milestones, which read the event log, agree with the figures, which read the tables

  /** A quantity of an attempt that the log records in events of one kind. */
  ghost predicate Recorded(db: DB, kind: EventKind, book: seq<Link>) {
    Attributed(db.attempts, db.events) && Agree(EventsOf(db.events, kind), book)
  }

  lemma {:induction false} NoEventNoQuantity(db: DB, item: nat, kind: EventKind, book: seq<Link>, a: nat)
    requires Recorded(db, kind, book) && !HasEvent(db, item, kind) && a < |db.attempts| && db.attempts[a].item == item
    ensures Total(book, a) == 0
  {
    TotalZero(EventsOf(db.events, kind), a);
  }

  lemma {:induction false} EventHasQuantity(db: DB, item: nat, kind: EventKind, book: seq<Link>) returns (a: nat)
    requires Recorded(db, kind, book) && HasEvent(db, item, kind)
    ensures a < |db.attempts| && db.attempts[a].item == item && 0 < Total(book, a)
  {
    var i :| 0 <= i < |db.events| && db.events[i].item == item && db.events[i].kind == kind;
    a := db.events[i].attempt;
    RowWithinTotal(EventsOf(db.events, kind), i);
  }

  lemma {:induction false} AcceptedEvent(db: DB, item: nat)
    requires Sums(db) && Attributed(db.attempts, db.events) && HasEvent(db, item, ItemAccepted)
    ensures 0 < Sum(db, item, AcceptedQty)
  {
    FigureNonNegative(db, AcceptedQty, item);
    var a := EventHasQuantity(db, item, ItemAccepted, AcceptedBy(db));
    FiguredIsTally(db, a, AcceptedQty);
    RowWithinTotal(Figures(db, AcceptedQty), a);
  }

  lemma {:induction false} NoAcceptedEvent(db: DB, item: nat)
    requires Sums(db) && Attributed(db.attempts, db.events) && !HasEvent(db, item, ItemAccepted)
    ensures Sum(db, item, AcceptedQty) == 0
  {
    forall a | 0 <= a < |db.attempts| && db.attempts[a].item == item ensures Figured(db, a, AcceptedQty) == 0 {
      NoEventNoQuantity(db, item, ItemAccepted, AcceptedBy(db), a);
      FiguredIsTally(db, a, AcceptedQty);
    }
    TotalZero(Figures(db, AcceptedQty), item);
  }

  /** An item has an acceptance event exactly when its accepted figure is positive, so its accepted
      milestone is pending, partial or completed, never merely recorded. */
  lemma {:induction false} AcceptedMilestone(db: DB, item: nat)
    requires Inv(db)
    ensures HasEvent(db, item, ItemAccepted) <==> 0 < TrackItem(db, item).accepted
    ensures TrackItem(db, item).itemAccepted in {Pending, Partial, Completed}
  {
    if HasEvent(db, item, ItemAccepted) {
      AcceptedEvent(db, item);
    } else {
      NoAcceptedEvent(db, item);
    }
  }

  /** The rejected milestone is an exception exactly when some attempt of the item has a rejected quantity. */
  lemma {:induction false} RejectedMilestone(db: DB, item: nat)
    requires Inv(db)
    ensures TrackItem(db, item).itemRejected == Exception
       <==> exists a ::
              0 <= a < |db.attempts| && db.attempts[a].item == item && 0 < AttemptSummary(db, a).quantities.rejected
  {
    if HasEvent(db, item, ItemRejected) {
      var a := EventHasQuantity(db, item, ItemRejected, RejectedBy(db));
      SummaryIsTally(db, a);
    } else {
      forall a | 0 <= a < |db.attempts| && db.attempts[a].item == item
        ensures AttemptSummary(db, a).quantities.rejected == 0
      {
        NoEventNoQuantity(db, item, ItemRejected, RejectedBy(db), a);
        SummaryIsTally(db, a);
      }
    }
  }

  // ---- terminal statuses

  ghost predicate Terminal(s: Summary) {
    s.status in {Accepted, ClosedWithRejection}
  }

  lemma {:induction false} PathsGrow(db: DB, next: DB)
    requires Linked(db) && Grows(db, next)
    ensures PurchasedBy(db) <= PurchasedBy(next) && ReceivedBy(db) <= ReceivedBy(next)
    ensures ReservedBy(db) <= ReservedBy(next) && AcceptedBy(db) <= AcceptedBy(next)
    ensures RejectedBy(db) <= RejectedBy(next)
    ensures ClosedBy(db) <= ClosedBy(next) && ReplacedBy(db) <= ReplacedBy(next)
  {
    LiftPrefix(Receipts(db.receiptLines), Receipts(next.receiptLines), PurchasedBy(db), PurchasedBy(next));
    LiftPrefix(Reservations(db.deliveryLines), Reservations(next.deliveryLines), ReceivedBy(db), ReceivedBy(next));
    LiftPrefix(Acceptances(db.outcomeLines), Acceptances(next.outcomeLines), ReservedBy(db), ReservedBy(next));
    LiftPrefix(Rejections(db.outcomeLines), Rejections(next.outcomeLines), ReservedBy(db), ReservedBy(next));
    LiftPrefix(ActionsOf(db.actions, Close), ActionsOf(next.actions, Close), RejectedBy(db), RejectedBy(next));
    LiftPrefix(Replacements(db.attempts), Replacements(next.attempts), RejectedBy(db), RejectedBy(next));
  }

  lemma {:induction false} DispatchedGrows(db: DB, next: DB, a: int)
    requires Linked(db) && Grows(db, next) && DeliveredWithin(db)
    ensures Total(DispatchedBy(db), a) <= Total(DispatchedBy(next), a)
  {
    PathsGrow(db, next);
    forall i | 0 <= i < |db.deliveryLines|
      ensures DispatchedBy(db)[i].parent == DispatchedBy(next)[i].parent
          && DispatchedBy(db)[i].qty <= DispatchedBy(next)[i].qty
    {
      assert ReservedBy(db)[i] == ReservedBy(next)[i];
    }
    TotalGrows(DispatchedBy(db), DispatchedBy(next), a);
  }

  lemma {:induction false} PrefixGrows(rows: seq<Link>, more: seq<Link>, a: int)
    requires rows <= more && NonNegative(more)
    ensures Total(rows, a) <= Total(more, a)
  {
    TotalGrows(rows, more, a);
  }

  lemma {:induction false} PathsNonNegative(db: DB)
    ensures NonNegative(PurchasedBy(db)) && NonNegative(ReceivedBy(db)) && NonNegative(ReservedBy(db))
    ensures NonNegative(AcceptedBy(db)) && NonNegative(RejectedBy(db)) && NonNegative(ClosedBy(db))
        && NonNegative(ReplacedBy(db))
  {
  }

  lemma {:induction false} TotalsGrow(db: DB, next: DB, a: int)
    requires Linked(db) && Grows(db, next)
    ensures Total(PurchasedBy(db), a) <= Total(PurchasedBy(next), a)
    ensures Total(ReceivedBy(db), a) <= Total(ReceivedBy(next), a)
    ensures Total(ReservedBy(db), a) <= Total(ReservedBy(next), a)
    ensures Total(AcceptedBy(db), a) <= Total(AcceptedBy(next), a)
    ensures Total(RejectedBy(db), a) <= Total(RejectedBy(next), a)
    ensures Total(ClosedBy(db), a) <= Total(ClosedBy(next), a)
    ensures Total(ReplacedBy(db), a) <= Total(ReplacedBy(next), a)
  {
    PathsGrow(db, next);
    PathsNonNegative(next);
    PrefixGrows(PurchasedBy(db), PurchasedBy(next), a);
    PrefixGrows(ReceivedBy(db), ReceivedBy(next), a);
    PrefixGrows(ReservedBy(db), ReservedBy(next), a);
    PrefixGrows(AcceptedBy(db), AcceptedBy(next), a);
    PrefixGrows(RejectedBy(db), RejectedBy(next), a);
    PrefixGrows(ClosedBy(db), ClosedBy(next), a);
    PrefixGrows(ReplacedBy(db), ReplacedBy(next), a);
  }

  ghost predicate Settled(q: Quantities) {
    q.accepted + q.rejected == q.target && q.unresolved == 0
  }

  /** A terminal status means that nothing of the attempt is open or unresolved. */
  lemma {:induction false} TerminalSettled(db: DB, a: nat)
    requires Sums(db) && a < |db.attempts| && Terminal(AttemptSummary(db, a))
    ensures Settled(Tally(db, a))
  {
    SummaryIsTally(db, a);
    TallyNarrows(db, a);
  }

  ghost predicate NoLess(q: Quantities, r: Quantities) {
    && q.purchased <= r.purchased && q.received <= r.received && q.reserved <= r.reserved
        && q.dispatched <= r.dispatched
    && q.accepted <= r.accepted && q.rejected <= r.rejected && q.closed <= r.closed && q.reassigned <= r.reassigned
    && q.target == r.target
  }

  /** The sums of a settled attempt have nowhere to go. */
  lemma {:induction false} SettledIsFull(q: Quantities, r: Quantities)
    requires Narrowing(q) && Narrowing(r) && NoLess(q, r) && Settled(q)
    ensures q == r
  {
  }

  lemma {:induction false} TallyGrows(db: DB, next: DB, a: nat)
    requires Linked(db) && DeliveredWithin(db) && Grows(db, next) && a < |db.attempts|
    ensures a < |next.attempts| && next.attempts[a] == db.attempts[a] && NoLess(Tally(db, a), Tally(next, a))
  {
    TotalsGrow(db, next, a);
    DispatchedGrows(db, next, a);
  }

  lemma {:induction false} SettledStays(db: DB, next: DB, a: nat)
    requires Inv(db) && Inv(next) && Grows(db, next) && a < |db.attempts| && Settled(Tally(db, a))
    ensures a < |next.attempts| && Tally(next, a) == Tally(db, a)
  {
    TallyGrows(db, next, a);
    TallyNarrows(db, a);
    TallyNarrows(next, a);
    SettledIsFull(Tally(db, a), Tally(next, a));
  }

  /** Once an attempt is accepted or closed with rejection, its sums and its status never move again. */
  lemma {:induction false} TerminalAbsorbing(db: DB, next: DB, a: nat)
    requires Inv(db) && Inv(next) && Grows(db, next) && a < |db.attempts|
    requires Terminal(AttemptSummary(db, a))
    ensures AttemptSummary(next, a) == AttemptSummary(db, a)
  {
    assert next.attempts[a] == db.attempts[a];
    TerminalSettled(db, a);
    SettledStays(db, next, a);
    SummaryIsTally(db, a);
    SummaryIsTally(next, a);
  }

  lemma {:induction false} TerminalForever(start: Store, ops: seq<Op>, later: seq<Op>, a: nat)
    requires Fresh(start) && a < |Run(start, ops).attempts|
    requires Terminal(AttemptSummary(Run(start, ops), a))
    ensures a < |Run(Run(start, ops), later).attempts|
    ensures AttemptSummary(Run(Run(start, ops), later), a) == AttemptSummary(Run(start, ops), a)
  {
    Reachable(start, ops);
    RunKeeps(Run(start, ops), later);
    TerminalAbsorbing(Run(start, ops), Run(Run(start, ops), later), a);
  }

  /** Every line of a terminal attempt is used up, so no purchase, receipt, delivery or outcome fits under
      it any more. */
  lemma {:induction false} TerminalLines(db: DB, a: nat)
    requires Sums(db) && a < |db.attempts| && Terminal(AttemptSummary(db, a))
    ensures Total(PurchasedBy(db), a) == db.attempts[a].qty
    ensures forall i | 0 <= i < |db.purchaseLines| && db.purchaseLines[i].attempt == a ::
              Total(Receipts(db.receiptLines), i) == db.purchaseLines[i].qty
    ensures forall i | 0 <= i < |db.receiptLines| && ReceivedBy(db)[i].parent == a ::
              Total(Reservations(db.deliveryLines), i) == db.receiptLines[i].qty
    ensures forall i | 0 <= i < |db.deliveryLines| && ReservedBy(db)[i].parent == a ::
              Total(Settlements(db.outcomeLines), i) == db.deliveryLines[i].qty
  {
    TerminalSettled(db, a);
    Funnel(db, a);
    SaturatedLines(db, a);
  }

  /** Each rejection of a terminal attempt is wholly resolved, so no replacement or closure fits under it. */
  lemma {:induction false} TerminalRejections(db: DB, a: nat, r: nat)
    requires Sums(db) && a < |db.attempts| && Terminal(AttemptSummary(db, a))
    requires r < |db.outcomeLines| && RejectedBy(db)[r].parent == a
    ensures Total(Replacements(db.attempts), r) + Done(db.actions, Close, r) == db.outcomeLines[r].rejected
  {
    TerminalSettled(db, a);
    ResolvingCovered(db);
    ResolvingLifted(db, a);
    LiftBound(Resolving(db), RejectedBy(db), a);
    ResolvingTotal(db, r);
  }
}
