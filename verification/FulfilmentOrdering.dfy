/** Any item can be ordered, whether or not it has been requested yet. */
module FulfilmentOrdering {
  import opened Options
  import opened Links
  import opened ProcurementTables
  import opened ProcurementSteps
  import opened Runs
  import opened SingleRows
  import opened FulfilmentInvariants
  import opened FulfilmentGenerations
  import opened FulfilmentProgress

  /** `next` is reached from `db` by `ops`, with nothing added to any attempt. */
  ghost predicate Prepares(db: Store, ops: seq<Op>, next: Store) {
    Run(db, ops) == next && Ready(next) && Quiet(db, next) && db.items <= next.items
  }

  lemma {:induction false} Prepared(db: Store, ops: seq<Op>, between: Store, op: Op, next: Store)
    requires Prepares(db, ops, between) && Attempted(between, op) == Some(next)
    requires Quiet(between, next) && between.items <= next.items
    ensures Prepares(db, ops + [op], next)
  {
    hide Attempted, Inv, Timely, Grows, Run;
    Went(between, op, next);
    RunOn(db, ops, [op]);
  }

  lemma {:induction false} Unprepared(db: Store)
    requires Ready(db)
    ensures Prepares(db, [], db)
  {
    RunOfNone(db);
  }

  lemma {:induction false} Entering(db: Store, item: nat) returns (op: Op, next: Store)
    ensures Attempted(db, op) == Some(next) && Quiet(db, next) && db.items <= next.items && item < |next.items|
  {
    op := OpRequest(item + 1, true, AT_ONCE);
    next := CreateRequest(db, item + 1, true, AT_ONCE).value;
  }

  lemma {:induction false} Submitting(db: Store, item: nat) returns (op: Op, next: Store)
    requires item < |db.items| && !db.requests[db.items[item].request].submitted
    ensures Attempted(db, op) == Some(next) && Quiet(db, next) && db.items <= next.items
    ensures Locked(next, next.items[item].request, true)
  {
    op := OpSubmit(db.items[item].request, true, AT_ONCE);
    next := SubmitRequest(db, db.items[item].request, true, AT_ONCE).value;
  }

  /** Enter a request with enough items unless there are enough, and submit that of the item unless it is. */
  lemma {:induction false} Opened(db: Store, item: nat) returns (ops: seq<Op>, next: Store)
    requires Ready(db)
    ensures Prepares(db, ops, next) && item < |next.items| && Locked(next, next.items[item].request, true)
  {
    Unprepared(db);
    hide Prepares, Ready, Attempted, Quiet;
    ops, next := [], db;
    if |db.items| <= item {
      var op, entered := Entering(db, item);
      Prepared(db, ops, next, op, entered);
      ops, next := ops + [op], entered;
    }
    if !next.requests[next.items[item].request].submitted {
      var op, submitted := Submitting(next, item);
      Prepared(db, ops, next, op, submitted);
      ops, next := ops + [op], submitted;
    }
  }

  /** An original attempt at the item was added, and nothing else was done for any. */
  ghost predicate AttemptAdded(db: DB, next: DB, item: nat) {
    && |next.attempts| == |db.attempts| + 1 && db.attempts == next.attempts[..|db.attempts|]
    && next.attempts[|db.attempts|] == Attempt(item, |db.orderLines|, 1, None, Original, db.clock)
    && next.actions == db.actions && next.outcomeLines == db.outcomeLines
  }

  /** One piece of an item, ordered on an invoice that bills enough of it. */
  function OneOf(db: Store, item: nat): OrderRow {
    TotalNonNegative(InvoiceOrders(db.orderLines), 0);
    OrderRow(None, Some(InvoiceLine(0, Some(item), true, 1, Total(InvoiceOrders(db.orderLines), 0) + 1, 0)), 1, 1)
  }

  lemma {:induction false} OneOrdered(db: Store, item: nat) returns (op: Op, next: Store)
    requires item < |db.items| && Locked(db, db.items[item].request, true)
    ensures Attempted(db, op) == Some(next) && AttemptAdded(db, next, item)
  {
    hide Attempted;
    var request, row := db.items[item].request, OneOf(db, item);
    var begun := OpenOrder(db, Order(request, db.clock), db.clock);
    assert begun.orders[|db.orders|] == Order(request, db.clock);
    next := OrderOneRow(begun, |db.orders|, row, db.clock).value;
    assert AttemptAdded(db, next, item);
    hide AttemptAdded, OrderOneRow, OneOf, Schema;
    var input := OrderInput(request, true, true, false, None, [row], true, AT_ONCE);
    OrderOfOne(db, input, row, begun, next);
    op := OpOrder(input);
  }

  /** In every state some run orders one more piece of an item, and does nothing else for any attempt. */
  lemma {:induction false} Orderable(db: Store, item: nat) returns (ops: seq<Op>, next: Store)
    requires Ready(db)
    ensures Run(db, ops) == next && Ready(next) && |next.attempts| == |db.attempts| + 1
    ensures db.attempts == next.attempts[..|db.attempts|]
    ensures next.attempts[|db.attempts|].item == item && next.attempts[|db.attempts|].qty == 1
    ensures next.attempts[|db.attempts|].replaced.None?
    ensures next.actions == db.actions && next.outcomeLines == db.outcomeLines
  {
    hide Inv, Timely, Attempted, Run, Grows, Locked;
    var first, begun := Opened(db, item);
    var op;
    op, next := OneOrdered(begun, item);
    Went(begun, op, next);
    RunOn(db, first, [op]);
    ops := first + [op];
  }
}
