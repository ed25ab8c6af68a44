/** Which items can still be completed: whatever is unresolved can be sourced anew, and whatever is open accepted. */
module FulfilmentCompletion {
  import opened Options
  import opened Links
  import opened ProcurementTables
  import opened ProcurementSteps
  import opened Runs
  import opened FulfilmentInvariants
  import opened FulfilmentFunnel
  import opened FulfilmentSteps
  import opened FulfilmentTheorems
  import opened FulfilmentGenerations
  import opened FulfilmentOrdering
  import Progress = FulfilmentProgress
  import opened Tracking

  // ---- sourcing what is unresolved

  /** Of the first `n` outcome lines, everything rejected was sent to a replacement or closed. */
  ghost predicate Resolved(db: DB, n: nat) {
    n <= |db.outcomeLines| && forall r | 0 <= r < n :: Total(Resolving(db), r) == db.outcomeLines[r].rejected
  }

  /** All that was added to the attempts are replacements, and no action that was added closes anything. */
  ghost predicate OnlySourced(db: DB, next: DB) {
    && |db.attempts| <= |next.attempts| && |db.actions| <= |next.actions|
    && (forall a | |db.attempts| <= a < |next.attempts| :: next.attempts[a].replaced.Some?)
    && (forall i | |db.actions| <= i < |next.actions| :: next.actions[i].kind == Source)
  }

  lemma {:induction false} SourcedOn(db: DB, between: DB, next: DB)
    requires OnlySourced(db, between) && OnlySourced(between, next)
    requires between.attempts <= next.attempts && between.actions <= next.actions
    ensures OnlySourced(db, next)
  {
  }

  /** The result of sourcing `qty` of a rejection. */
  ghost predicate Sourced(db: DB, next: DB, r: nat, qty: nat) {
    && next.outcomeLines == db.outcomeLines
    && |next.attempts| == |db.attempts| + 1 && |next.actions| == |db.actions| + 1
    && next.attempts == db.attempts + [next.attempts[|db.attempts|]]
    && next.attempts[|db.attempts|].replaced == Some(r) && next.attempts[|db.attempts|].qty == qty
    && next.actions == db.actions + [Action(r, Source, qty, Some(|db.attempts|))]
  }

  lemma {:induction false} InsertingSources(db: Store, r: nat, qty: nat)
    requires r < |db.outcomeLines| && 0 < qty
    ensures Sourced(db, InsertReplacement(At(db, db.clock), r, qty, Source), r, qty)
  {
  }

  lemma {:induction false} SourcingResolves(db: DB, next: DB, r: nat, qty: nat)
    requires Sourced(db, next, r, qty)
    ensures forall k :: Total(Resolving(next), k) == Total(Resolving(db), k) + if k == r then qty else 0
  {
    assert Replacements(next.attempts) == Replacements(db.attempts) + [Link(r, qty)];
    assert ActionsOf(next.actions, Close) == ActionsOf(db.actions, Close) + [Link(r, 0)];
    TotalAppend(Replacements(db.attempts), Link(r, qty));
    TotalAppend(ActionsOf(db.actions, Close), Link(r, 0));
    forall k ensures Total(Resolving(next), k) == Total(Resolving(db), k) + if k == r then qty else 0 {
      ResolvingTotal(db, k);
      ResolvingTotal(next, k);
    }
  }

  /** Source what is unresolved of one rejection: one more attempt, unless nothing is. */
  lemma {:induction false} SourceOne(db: Store, r: nat) returns (ops: seq<Op>, next: Store)
    requires Progress.Ready(db) && r < |db.outcomeLines| && Resolved(db, r)
    ensures Run(db, ops) == next && Progress.Ready(next) && next.outcomeLines == db.outcomeLines
    ensures Resolved(next, r + 1) && OnlySourced(db, next)
    ensures |next.attempts| == |db.attempts| + if Resolved(db, r + 1) then 0 else 1
  {
    hide Inv, Timely, Grows, Resolving, Attempted, Run, InsertReplacement;
    Progress.ResolvingWithin(db);
    TotalNonNegative(Resolving(db), r);
    assert RejectedBy(db)[r].qty == db.outcomeLines[r].rejected;
    var qty := db.outcomeLines[r].rejected - Total(Resolving(db), r);
    if qty == 0 {
      ops, next := [], db;
      RunOfNone(db);
    } else {
      var op := Progress.ResolvableRest(db, r, qty, Source);
      next := InsertReplacement(At(db, db.clock), r, qty, Source);
      Progress.Went(db, op, next);
      InsertingSources(db, r, qty);
      SourcingResolves(db, next, r, qty);
      ops := [op];
    }
  }

  lemma {:induction false} Lasting(db: Store, ops: seq<Op>)
    requires Progress.Ready(db)
    ensures Grows(db, Run(db, ops)) && db.attempts <= Run(db, ops).attempts && db.actions <= Run(db, ops).actions
  {
    hide Inv, Timely;
    RunKeeps(db, ops);
  }

  /** Source whatever is unresolved from the `r`th rejection on. */
  lemma {:induction false} SourceAll(db: Store, r: nat) returns (ops: seq<Op>, next: Store)
    requires Progress.Ready(db) && Resolved(db, r)
    ensures Run(db, ops) == next && Progress.Ready(next)
    ensures Resolved(next, |next.outcomeLines|) && OnlySourced(db, next)
    decreases |db.outcomeLines| - r
  {
    hide Progress.Ready, Run, Grows;
    if r == |db.outcomeLines| {
      ops, next := [], db;
      RunOfNone(db);
    } else {
      var first, between := SourceOne(db, r);
      var rest;
      rest, next := SourceAll(between, r + 1);
      RunOn(db, first, rest);
      Lasting(between, rest);
      SourcedOn(db, between, next);
      ops := first + rest;
    }
  }

  // ---- accepting what is open

  lemma {:induction false} NothingUnresolved(db: Store, a: nat)
    requires Progress.Ready(db) && Resolved(db, |db.outcomeLines|) && a < |db.attempts|
    ensures Tally(db, a).unresolved == 0
  {
    hide Inv, Timely, Ladder;
    Progress.ResolvingWithin(db);
    ResolvingLifted(db, a);
    GroupedEqualsNested(Resolving(db), RejectedBy(db), a);
    assert Roll(Resolving(db), RejectedBy(db)) == RejectedBy(db);
  }

  lemma {:induction false} SameResolving(db: DB, next: DB)
    requires next.attempts == db.attempts && next.actions == db.actions
    ensures Resolving(next) == Resolving(db)
  {
  }

  lemma {:induction false} AcceptingResolves(db: Store, next: DB, line: OutcomeLine)
    requires Progress.Ready(db) && Resolved(db, |db.outcomeLines|)
    requires Progress.MetLine(db, next, line) && line.rejected == 0
    ensures Resolved(next, |next.outcomeLines|)
  {
    hide Inv, Timely;
    Progress.ResolvingWithin(db);
    SameResolving(db, next);
    TotalZero(Resolving(db), |db.outcomeLines|);
  }

  /** One step towards accepting what is open of an attempt. */
  lemma {:induction false} AcceptOnward(db: Store, a: nat) returns (ops: seq<Op>, next: Store)
    requires Progress.Ready(db) && Resolved(db, |db.outcomeLines|) && a < |db.attempts| && !Settled(Tally(db, a))
    ensures Progress.Proceeds(db, ops, next, a) && Resolved(next, |next.outcomeLines|)
    ensures next.attempts == db.attempts && next.actions == db.actions
  {
    hide Inv, Timely, Run, Resolving, Progress.Proceeds;
    NothingUnresolved(db, a);
    Progress.DoneBounded(db, a);
    if Tally(db, a).dispatched < db.attempts[a].qty {
      ops, next := Progress.AdvanceSupply(db, a);
      SameResolving(db, next);
    } else {
      var line;
      ops, next, line := Progress.AdvanceMeeting(db, a, true);
      AcceptingResolves(db, next, line);
    }
  }

  /** One attempt is settled by accepting whatever is open of it. */
  lemma {:induction false} FinishAccepting(db: Store, a: nat) returns (ops: seq<Op>, next: Store)
    requires Progress.Ready(db) && Resolved(db, |db.outcomeLines|) && a < |db.attempts|
    ensures Run(db, ops) == next && Progress.Ready(next) && next.attempts == db.attempts && next.actions == db.actions
    ensures Resolved(next, |next.outcomeLines|) && Settled(Tally(next, a))
    decreases 6 * db.attempts[a].qty - Progress.Done(Tally(db, a))
  {
    hide Inv, Timely, Run, Resolved;
    Progress.DoneBounded(db, a);
    if Settled(Tally(db, a)) {
      ops, next := [], db;
      RunOfNone(db);
    } else {
      var first, between := AcceptOnward(db, a);
      Progress.DoneBounded(between, a);
      var rest;
      rest, next := FinishAccepting(between, a);
      RunOn(db, first, rest);
      ops := first + rest;
    }
  }

  ghost predicate SettledUpTo(db: DB, n: nat) {
    n <= |db.attempts| && forall a | 0 <= a < n :: Settled(Tally(db, a))
  }

  lemma {:induction false} StaySettled(db: Store, ops: seq<Op>, n: nat)
    requires Progress.Ready(db) && SettledUpTo(db, n)
    ensures SettledUpTo(Run(db, ops), n)
  {
    hide Inv, Timely, Tally, Settled, Run, Grows;
    RunKeeps(db, ops);
    Lasting(db, ops);
    forall a | 0 <= a < n ensures Settled(Tally(Run(db, ops), a)) {
      SettledStays(db, Run(db, ops), a);
    }
  }

  /** Accept whatever is open from the `a`th attempt on. */
  lemma {:induction false} AcceptAll(db: Store, a: nat) returns (ops: seq<Op>, next: Store)
    requires Progress.Ready(db) && Resolved(db, |db.outcomeLines|) && a <= |db.attempts| && SettledUpTo(db, a)
    ensures Run(db, ops) == next && Progress.Ready(next) && next.attempts == db.attempts && next.actions == db.actions
    ensures SettledUpTo(next, |next.attempts|)
    decreases |db.attempts| - a
  {
    hide Progress.Ready, Run, Resolved, Tally, Settled, Grows;
    if a == |db.attempts| {
      ops, next := [], db;
      RunOfNone(db);
    } else {
      var first, between := FinishAccepting(db, a);
      StaySettled(db, first, a);
      var rest;
      rest, next := AcceptAll(between, a + 1);
      RunOn(db, first, rest);
      ops := first + rest;
    }
  }

  // ---- the figures of an item afterwards

  lemma {:induction false} ExtraNothing(rows: seq<Link>, more: seq<Link>, p: int)
    requires rows <= more && forall i | |rows| <= i < |more| :: more[i].qty == 0
    ensures Total(more, p) == Total(rows, p)
    decreases |more|
  {
    if |more| == |rows| {
      assert more == rows;
    } else {
      ExtraNothing(rows, more[..|more| - 1], p);
    }
  }

  lemma {:induction false} ClosedUnder(db: Store)
    ensures Under(ClosedBy(db), |db.attempts|)
  {
    forall i | 0 <= i < |db.actions|
      ensures ClosedBy(db)[i].parent < |db.attempts| && (ClosedBy(db)[i].qty == 0 || 0 <= ClosedBy(db)[i].parent)
    {
      RejectedParent(db, db.actions[i].rejection);
    }
  }

  lemma {:induction false} ClosedFigures(db: DB)
    ensures Figures(db, ClosedQty) == Roll(ClosedBy(db), ItemLinks(db.attempts))
  {
    forall a | 0 <= a < |db.attempts| ensures Figured(db, a, ClosedQty) == Total(ClosedBy(db), a) {
      FiguredIsTally(db, a, ClosedQty);
    }
    hide Figured, ClosedBy;
  }

  /** What was closed of an item, in one pass over the actions. */
  lemma {:induction false} ClosedInOnePass(db: Store, item: nat)
    ensures Sum(db, item, ClosedQty) == Total(Lift(ClosedBy(db), ItemLinks(db.attempts)), item)
  {
    assert |ItemLinks(db.attempts)| == |db.attempts|;
    hide Figures, ClosedBy, ItemLinks;
    ClosedFigures(db);
    ClosedUnder(db);
    GroupedEqualsNested(ClosedBy(db), ItemLinks(db.attempts), item);
  }

  lemma {:induction false} ClosedPath(db: Store, next: Store)
    requires Linked(db) && Grows(db, next)
    ensures Lift(ClosedBy(db), ItemLinks(db.attempts)) <= Lift(ClosedBy(next), ItemLinks(next.attempts))
  {
    PathsGrow(db, next);
    ClosedUnder(db);
    LiftPrefix(ClosedBy(db), ClosedBy(next), ItemLinks(db.attempts), ItemLinks(next.attempts));
  }

  /** The closed links of an item's attempts are never negative, and those of other actions are empty. */
  lemma {:induction false} ClosedLinks(db: Store)
    ensures var links := Lift(ClosedBy(db), ItemLinks(db.attempts));
            && NonNegative(links) && |links| == |db.actions|
            && forall i | 0 <= i < |links| && db.actions[i].kind != Close :: links[i].qty == 0
  {
  }

  /** No action that was added closes anything. */
  ghost predicate NoneClosed(db: DB, next: DB) {
    forall i | |db.actions| <= i < |next.actions| :: next.actions[i].kind != Close
  }

  lemma {:induction false} ClosedGrows(db: Store, next: Store, item: nat)
    requires Linked(db) && Grows(db, next)
    ensures Sum(db, item, ClosedQty) <= Sum(next, item, ClosedQty)
    ensures NoneClosed(db, next) ==> Sum(next, item, ClosedQty) == Sum(db, item, ClosedQty)
  {
    hide Linked, Grows, ClosedBy, ItemLinks, Sum;
    var rows, more := Lift(ClosedBy(db), ItemLinks(db.attempts)), Lift(ClosedBy(next), ItemLinks(next.attempts));
    ClosedInOnePass(db, item);
    ClosedInOnePass(next, item);
    ClosedPath(db, next);
    ClosedLinks(db);
    ClosedLinks(next);
    PrefixGrows(rows, more, item);
    if NoneClosed(db, next) {
      ExtraNothing(rows, more, item);
    }
  }

  /** The original attempts, each under its own item. */
  function Originals(attempts: seq<Attempt>): seq<Link> {
    seq(|attempts|, a requires 0 <= a < |attempts| =>
      Link(attempts[a].item, if attempts[a].replaced.None? then attempts[a].qty else 0))
  }

  lemma {:induction false} OrderedInOnePass(db: DB)
    ensures Figures(db, OriginalQty) == Originals(db.attempts)
  {
  }

  lemma {:induction false} OrderedStays(db: DB, next: DB, item: nat)
    requires db.attempts <= next.attempts && OnlySourced(db, next)
    ensures Sum(next, item, OriginalQty) == Sum(db, item, OriginalQty)
  {
    hide Figures;
    OrderedInOnePass(db);
    OrderedInOnePass(next);
    ExtraNothing(Originals(db.attempts), Originals(next.attempts), item);
  }

  lemma {:induction false} NothingRemains(db: Store, item: nat)
    requires Inv(db) && SettledUpTo(db, |db.attempts|)
    ensures TrackItem(db, item).remaining == 0
  {
    hide Inv, Tally, Figured, TrackItem;
    forall a | 0 <= a < |db.attempts| ensures Figured(db, a, Unresolved) == Figured(db, a, Open) == 0 {
      FiguredIsTally(db, a, Unresolved);
      FiguredIsTally(db, a, Open);
    }
    TotalZero(Figures(db, Unresolved), item);
    TotalZero(Figures(db, Open), item);
    Conservation(db, item);
  }

  /** Everything ordered of every item that was not closed is accepted, and nothing more was ordered or closed. */
  ghost predicate AllAccepted(db: Store, next: Store) {
    forall item: nat :: AcceptedBut(TrackItem(db, item), TrackItem(next, item))
  }

  ghost predicate AcceptedBut(before: Tracker, after: Tracker) {
    && after.remaining == 0 && after.accepted == before.ordered - before.closed
    && after.ordered == before.ordered && after.closed == before.closed
  }

  lemma {:induction false} Afterwards(db: Store, next: Store, item: nat)
    requires Inv(db) && Inv(next) && Grows(db, next) && OnlySourced(db, next) && SettledUpTo(next, |next.attempts|)
    ensures AcceptedBut(TrackItem(db, item), TrackItem(next, item))
  {
    assert Linked(db) && db.attempts <= next.attempts && NoneClosed(db, next);
    hide Inv, Grows, Linked, OnlySourced, NoneClosed, SettledUpTo, Sum, HasEvent;
    ClosedGrows(db, next, item);
    OrderedStays(db, next, item);
    NothingRemains(next, item);
  }

  lemma {:induction false} SourceAndAccept(db: Store) returns (ops: seq<Op>, next: Store)
    requires Progress.Ready(db)
    ensures Run(db, ops) == next && Progress.Ready(next) && OnlySourced(db, next) && SettledUpTo(next, |next.attempts|)
  {
    hide Progress.Ready, Run, Tally;
    var first, sourced := SourceAll(db, 0);
    var rest;
    rest, next := AcceptAll(sourced, 0);
    RunOn(db, first, rest);
    Lasting(sourced, rest);
    SourcedOn(db, sourced, next);
    ops := first + rest;
  }

  /** In every reachable state some run accepts everything that was ordered and not closed, of every item at
      once, without ordering or closing anything more: nothing remains of any item. */
  lemma {:induction false} EverythingCanBeAccepted(start: Store, past: seq<Op>) returns (ops: seq<Op>)
    requires Fresh(start)
    ensures AllAccepted(Run(start, past), Run(Run(start, past), ops))
  {
    var db := Run(start, past);
    Reachable(start, past);
    TimelyOverRuns(start, past);
    var next;
    ops, next := SourceAndAccept(db);
    Lasting(db, ops);
    forall item: nat ensures AcceptedBut(TrackItem(db, item), TrackItem(next, item)) {
      Afterwards(db, next, item);
    }
  }

  ghost predicate Completes(db: Store, ops: seq<Op>, item: nat) {
    TrackItem(Run(db, ops), item).itemAccepted == Completed
  }

  lemma {:induction false} SomethingOrdered(db: Store, a: nat)
    requires a < |db.attempts| && db.attempts[a].replaced.None?
    ensures 0 < TrackItem(db, db.attempts[a].item).ordered
  {
    OrderedInOnePass(db);
    hide Figures;
    RowWithinTotal(Originals(db.attempts), a);
  }

  /** Ordering one more piece of an item closes nothing of it. */
  lemma {:induction false} OrderedFirst(db: Store, item: nat) returns (ops: seq<Op>)
    requires Progress.Ready(db)
    ensures 0 < TrackItem(Run(db, ops), item).ordered
    ensures TrackItem(Run(db, ops), item).closed == TrackItem(db, item).closed
  {
    assert Linked(db);
    hide Inv, Timely, Grows, Run, Sum, Linked, HasEvent;
    var next;
    ops, next := Orderable(db, item);
    Lasting(db, ops);
    SomethingOrdered(next, |db.attempts|);
    ClosedGrows(db, next, item);
  }

  lemma {:induction false} CompletedAfter(start: Store, past: seq<Op>, first: seq<Op>, item: nat) returns (ops: seq<Op>)
    requires Fresh(start) && var begun := Run(Run(start, past), first);
             0 < TrackItem(begun, item).ordered && TrackItem(begun, item).closed == 0
    ensures Completes(Run(start, past), ops, item)
  {
    hide Run, Sum, HasEvent;
    var rest := EverythingCanBeAccepted(start, past + first);
    RunOn(start, past, first);
    RunOn(Run(start, past), first, rest);
    var begun := Run(Run(start, past), first);
    assert AcceptedBut(TrackItem(begun, item), TrackItem(Run(begun, rest), item));
    ops := first + rest;
  }

  /** In every reachable state an item, whether or not it was ordered or even requested yet, can still be
      completed if and only if nothing of it was closed. */
  lemma {:induction false} CompletesUnlessClosed(start: Store, past: seq<Op>, item: nat)
    requires Fresh(start)
    ensures var db := Run(start, past);
            (exists ops :: Completes(db, ops, item)) <==> TrackItem(db, item).closed == 0
  {
    var db := Run(start, past);
    Reachable(start, past);
    TimelyOverRuns(start, past);
    if TrackItem(db, item).closed == 0 {
      var first := OrderedFirst(db, item);
      var ops := CompletedAfter(start, past, first, item);
      assert Completes(db, ops, item);
    } else {
      forall ops ensures !Completes(db, ops, item) {
        NeverAfterClosing(db, ops, item);
      }
    }
  }

  lemma {:induction false} NeverAfterClosing(db: Store, ops: seq<Op>, item: nat)
    requires Inv(db) && TrackItem(db, item).closed != 0
    ensures !Completes(db, ops, item)
  {
    var next := Run(db, ops);
    RunKeeps(db, ops);
    Conservation(db, item);
    ClosedGrows(db, next, item);
    if TrackItem(next, item).itemAccepted == Completed {
      CompletedSettles(next, item);
    }
  }
}
