/** Runs from empty tables that reach the two terminal statuses and a handed-over attempt, so that what is
    proved of them is proved of something. */
module FulfilmentExample {
  import opened Options
  import opened Links
  import opened ProcurementTables
  import opened ProcurementSteps
  import opened Runs
  import opened FulfilmentInvariants
  import opened FulfilmentTheorems
  import opened FulfilmentSteps
  import opened FulfilmentGenerations
  import opened FulfilmentOrdering
  import opened FulfilmentCompletion
  import Progress = FulfilmentProgress
  import opened Tracking

  /** One original attempt at one piece, with no outcome and no action yet. */
  ghost predicate OneOpen(db: Store) {
    && Progress.Ready(db) && |db.attempts| == 1 && db.attempts[0].qty == 1 && db.attempts[0].replaced.None?
    && db.actions == [] && db.outcomeLines == []
  }

  lemma {:induction false} FreshIsReady(start: Store)
    requires Fresh(start)
    ensures Progress.Ready(start)
  {
    NoRows(start);
    hide Inv, Schema;
  }

  lemma {:induction false} Begun(start: Store) returns (ops: seq<Op>, db: Store)
    requires Fresh(start)
    ensures Run(start, ops) == db && OneOpen(db)
  {
    FreshIsReady(start);
    assert start.attempts == [] && start.actions == [] && start.outcomeLines == [];
    hide Progress.Ready, Run, Fresh, Schema;
    ops, db := Orderable(start, 0);
  }

  lemma {:induction false} NothingMet(db: DB)
    requires db.outcomeLines == []
    ensures Total(AcceptedBy(db), 0) == Total(RejectedBy(db), 0) == 0
  {
    TotalZero(AcceptedBy(db), 0);
    TotalZero(RejectedBy(db), 0);
  }

  lemma {:induction false} NothingClosed(db: DB)
    requires forall i | 0 <= i < |db.actions| :: db.actions[i].kind != Close
    ensures Total(ClosedBy(db), 0) == 0
  {
    TotalZero(ClosedBy(db), 0);
  }

  lemma {:induction false} NothingReplaced(db: DB)
    requires |db.attempts| == 1 && db.attempts[0].replaced.None?
    ensures Total(ReplacedBy(db), 0) == Total(Resolving(db), 0) - Total(ActionsOf(db.actions, Close), 0) == 0
  {
    TotalZero(ReplacedBy(db), 0);
    TotalZero(Replacements(db.attempts), 0);
    ResolvingTotal(db, 0);
  }

  /** Some run from empty tables ends with an attempt ACCEPTED. */
  lemma {:induction false} AcceptedIsReached(start: Store) returns (ops: seq<Op>)
    requires Fresh(start)
    ensures |Run(start, ops).attempts| == 1 && AttemptSummary(Run(start, ops), 0).status == Accepted
  {
    hide Inv, Timely, Run, AttemptSummary;
    var first, db := Begun(start);
    var rest, next := AcceptAll(db, 0);
    RunOn(start, first, rest);
    ops := first + rest;
    NothingClosed(next);
    NothingReplaced(next);
    SummaryIsTally(next, 0);
  }

  /** Some run ends with an attempt CLOSED_WITH_REJECTION. */
  lemma {:induction false} ClosedIsReached(start: Store) returns (ops: seq<Op>)
    requires Fresh(start)
    ensures |Run(start, ops).attempts| == 1 && AttemptSummary(Run(start, ops), 0).status == ClosedWithRejection
  {
    hide Inv, Timely, Run, AttemptSummary;
    var first, db := Begun(start);
    NothingMet(db);
    var rest, next := Progress.Finish(db, 0);
    RunOn(start, first, rest);
    ops := first + rest;
    Progress.DoneBounded(next, 0);
    SummaryIsTally(next, 0);
  }

  /** An attempt can be brought to the client whole. */
  lemma {:induction false} Supplied(db: Store, a: nat) returns (ops: seq<Op>, next: Store)
    requires Progress.Ready(db) && a < |db.attempts|
    ensures Run(db, ops) == next && Progress.Ready(next) && Progress.Quiet(db, next)
    ensures Total(DispatchedBy(next), a) == db.attempts[a].qty
    decreases 6 * db.attempts[a].qty - Progress.Done(Tally(db, a))
  {
    hide Inv, Timely, Run;
    Progress.DoneBounded(db, a);
    if Tally(db, a).dispatched == db.attempts[a].qty {
      ops, next := [], db;
      RunOfNone(db);
    } else {
      var first, between := Progress.AdvanceSupply(db, a);
      Progress.DoneBounded(between, a);
      var rest;
      rest, next := Supplied(between, a);
      RunOn(db, first, rest);
      ops := first + rest;
    }
  }

  /** Some run brings one piece to the client, who refuses it. */
  lemma {:induction false} Refused(start: Store) returns (ops: seq<Op>, db: Store)
    requires Fresh(start)
    ensures Run(start, ops) == db && Progress.Ready(db) && |db.attempts| == 1 && db.actions == []
    ensures db.attempts[0].qty == 1 && db.attempts[0].replaced.None?
    ensures |db.outcomeLines| == 1 && db.outcomeLines[0].rejected == Total(RejectedBy(db), 0) == 1
    ensures Total(AcceptedBy(db), 0) == 0
  {
    hide Inv, Timely, Run, Progress.Done;
    var first, begun := Begun(start);
    var second, sent := Supplied(begun, 0);
    NothingMet(sent);
    var third, line;
    third, db, line := Progress.AdvanceMeeting(sent, 0, false);
    RunOn(start, first, second);
    RunOn(start, first + second, third);
    ops := first + second + third;
    Progress.DoneBounded(db, 0);
  }

  lemma {:induction false} ShownHandedOver(db: DB)
    requires 0 < |db.attempts| && db.attempts[0].qty == 1 && Tally(db, 0).unresolved == 0
    requires Total(AcceptedBy(db), 0) == Total(ClosedBy(db), 0) == 0 && Total(RejectedBy(db), 0) == 1
    ensures Progress.HandedOver(AttemptSummary(db, 0))
  {
    SummaryIsTally(db, 0);
  }

  /** Some run hands an attempt over: its only piece is rejected and sourced anew. By
      `FulfilmentProgress.EndsUnlessHandedOver` it never ends. */
  lemma {:induction false} HandedOverIsReached(start: Store) returns (ops: seq<Op>)
    requires Fresh(start)
    ensures |Run(start, ops).attempts| == 2 && Progress.HandedOver(AttemptSummary(Run(start, ops), 0))
  {
    hide Inv, Timely, Run, Grows, Linked, Tally, AttemptSummary, Progress.HandedOver;
    var first, db := Refused(start);
    NothingReplaced(db);
    var rest, next := SourceOne(db, 0);
    RunOn(start, first, rest);
    ops := first + rest;
    Lasting(db, rest);
    Progress.Within(db);
    Progress.SameFigures(db, next, 0);
    NothingUnresolved(next, 0);
    NothingClosed(next);
    ShownHandedOver(next);
  }
}
