/** The read-only projection of an item: grouped sums per attempt, a status, and the item's figures. */
module Tracking {
  import opened Links
  import opened ProcurementTables

  /** One aggregate per quantity, keyed by attempt. */
  datatype Totals = Totals(
    purchased: map<int, int>, received: map<int, int>, reserved: map<int, int>, dispatched: map<int, int>,
    accepted: map<int, int>, rejected: map<int, int>, closed: map<int, int>, reassigned: map<int, int>)

  predicate ForItem(attempts: seq<Attempt>, a: int, item: nat) {
    0 <= a < |attempts| && attempts[a].item == item
  }

  /** The rows that lead to an attempt for `item`. */
  function Where(rows: seq<Link>, attempts: seq<Attempt>, item: nat): seq<Link> {
    if rows == [] then []
    else
      var k := |rows| - 1;
      Where(rows[..k], attempts, item) + if ForItem(attempts, rows[k].parent, item) then [rows[k]] else []
  }

  function AttemptTotals(db: DB, item: nat): Totals {
    Totals(
      Grouped(Where(PurchasedBy(db), db.attempts, item)),
      Grouped(Where(ReceivedBy(db), db.attempts, item)),
      Grouped(Where(ReservedBy(db), db.attempts, item)),
      Grouped(Where(DispatchedBy(db), db.attempts, item)),
      Grouped(Where(AcceptedBy(db), db.attempts, item)),
      Grouped(Where(RejectedBy(db), db.attempts, item)),
      Grouped(Where(ClosedBy(db), db.attempts, item)),
      Grouped(Where(ReplacedBy(db), db.attempts, item)))
  }

  datatype Quantities = Quantities(
    purchased: int, received: int, reserved: int, dispatched: int,
    accepted: int, rejected: int, closed: int, reassigned: int, target: int, unresolved: int)

  datatype Status =
    | Accepted | RejectedAwaitingResolution | ClosedWithRejection | ReplacementLinked | DeliveryInProgress
    | ReceivedByHolan | PurchaseInProgress | Sourcing | AwaitingPurchase

  function Values(a: nat, attempt: Attempt, totals: Totals): Quantities {
    var rejected, closed, reassigned := Get(totals.rejected, a), Get(totals.closed, a), Get(totals.reassigned, a);
    Quantities(
      Get(totals.purchased, a), Get(totals.received, a), Get(totals.reserved, a), Get(totals.dispatched, a),
      Get(totals.accepted, a), rejected, closed, reassigned, attempt.qty, rejected - closed - reassigned)
  }

  function StatusOf(attempt: Attempt, q: Quantities): Status {
    if q.accepted == attempt.qty then Accepted
    else if q.unresolved != 0 then RejectedAwaitingResolution
    else if q.closed != 0 && q.closed + q.accepted + q.reassigned == attempt.qty then ClosedWithRejection
    else if q.reassigned != 0 then ReplacementLinked
    else if q.dispatched != 0 then DeliveryInProgress
    else if q.received != 0 then ReceivedByHolan
    else if q.purchased != 0 then PurchaseInProgress
    else if attempt.replaced.Some? then Sourcing
    else AwaitingPurchase
  }

  datatype Summary = Summary(quantities: Quantities, status: Status)

  function AttemptSummary(db: DB, a: nat): Summary
    requires a < |db.attempts|
  {
    var q := Values(a, db.attempts[a], AttemptTotals(db, db.attempts[a].item));
    Summary(q, StatusOf(db.attempts[a], q))
  }

  /** The figures of an attempt that an item adds up; `Open` is neither accepted nor rejected yet. */
  datatype Figure = Target | OriginalQty | AcceptedQty | ClosedQty | Unresolved | Open | Reassigned

  function Read(attempt: Attempt, q: Quantities, figure: Figure): int {
    match figure
    case Target => q.target
    case OriginalQty => if attempt.replaced.None? then q.target else 0
    case AcceptedQty => q.accepted
    case ClosedQty => q.closed
    case Unresolved => q.unresolved
    case Open => q.target - q.accepted - q.rejected
    case Reassigned => q.reassigned
  }

  function Figured(db: DB, a: nat, figure: Figure): int
    requires a < |db.attempts|
  {
    Read(db.attempts[a], AttemptSummary(db, a).quantities, figure)
  }

  /** A figure of every attempt, under its item. */
  function Figures(db: DB, figure: Figure): seq<Link> {
    seq(|db.attempts|, a requires 0 <= a < |db.attempts| => Link(db.attempts[a].item, Figured(db, a, figure)))
  }

  datatype MilestoneState = Completed | Partial | Recorded | Exception | Pending | NotApplicableYet

  datatype Tracker = Tracker(
    ordered: int, accepted: int, closed: int, remaining: int,
    itemAccepted: MilestoneState, itemRejected: MilestoneState)

  predicate HasEvent(db: DB, item: nat, kind: EventKind) {
    exists i :: 0 <= i < |db.events| && db.events[i].item == item && db.events[i].kind == kind
  }

  function Sum(db: DB, item: nat, figure: Figure): int {
    Total(Figures(db, figure), item)
  }

  function TrackItem(db: DB, item: nat): Tracker {
    var ordered, accepted, closed := Sum(db, item, OriginalQty), Sum(db, item, AcceptedQty), Sum(db, item, ClosedQty);
    Tracker(
      ordered, accepted, closed, ordered - accepted - closed,
      if accepted != 0 then (if accepted == ordered then Completed else Partial)
      else if HasEvent(db, item, ItemAccepted) then Recorded else Pending,
      if HasEvent(db, item, ItemRejected) then Exception else NotApplicableYet)
  }

  // ---- the aggregates are the sums

  lemma {:induction false} WhereTotal(rows: seq<Link>, attempts: seq<Attempt>, item: nat, a: int)
    requires ForItem(attempts, a, item)
    ensures Total(Where(rows, attempts, item), a) == Total(rows, a)
  {
    if rows != [] {
      var k := |rows| - 1;
      WhereTotal(rows[..k], attempts, item, a);
      if ForItem(attempts, rows[k].parent, item) {
        TotalAppend(Where(rows[..k], attempts, item), rows[k]);
      } else {
        assert Where(rows, attempts, item) == Where(rows[..k], attempts, item);
      }
    }
  }

  lemma {:induction false} GroupedFor(rows: seq<Link>, attempts: seq<Attempt>, a: nat)
    requires a < |attempts|
    ensures Get(Grouped(Where(rows, attempts, attempts[a].item)), a) == Total(rows, a)
  {
    var found := Where(rows, attempts, attempts[a].item);
    GroupedIsTotal(found, a);
    WhereTotal(rows, attempts, attempts[a].item, a);
  }

  /** The quantities of an attempt as sums along the join paths. */
  function Tally(db: DB, a: nat): Quantities
    requires a < |db.attempts|
  {
    var rejected, closed, reassigned := Total(RejectedBy(db), a), Total(ClosedBy(db), a), Total(ReplacedBy(db), a);
    Quantities(
      Total(PurchasedBy(db), a), Total(ReceivedBy(db), a), Total(ReservedBy(db), a), Total(DispatchedBy(db), a),
      Total(AcceptedBy(db), a), rejected, closed, reassigned, db.attempts[a].qty, rejected - closed - reassigned)
  }

  /** A summary read from the aggregates shows the sums along the join paths. */
  lemma {:induction false} SummaryIsTally(db: DB, a: nat)
    requires a < |db.attempts|
    ensures AttemptSummary(db, a) == Summary(Tally(db, a), StatusOf(db.attempts[a], Tally(db, a)))
  {
    GroupedFor(PurchasedBy(db), db.attempts, a);
    GroupedFor(ReceivedBy(db), db.attempts, a);
    GroupedFor(ReservedBy(db), db.attempts, a);
    GroupedFor(DispatchedBy(db), db.attempts, a);
    GroupedFor(AcceptedBy(db), db.attempts, a);
    GroupedFor(RejectedBy(db), db.attempts, a);
    GroupedFor(ClosedBy(db), db.attempts, a);
    GroupedFor(ReplacedBy(db), db.attempts, a);
  }

  lemma {:induction false} FiguredIsTally(db: DB, a: nat, figure: Figure)
    requires a < |db.attempts|
    ensures Figured(db, a, figure) == Read(db.attempts[a], Tally(db, a), figure)
  {
    SummaryIsTally(db, a);
  }
}
