/** Time across the generations of a fulfilment: a replacement is made after the outcome that it answers, and
    everything done for it comes later still. */
module FulfilmentGenerations {
  import opened ProcurementTables
  import opened ProcurementSteps
  import opened ProcurementMoves
  import opened FulfilmentInvariants
  import opened FulfilmentFunnel
  import opened FulfilmentSteps
  import opened FulfilmentHistory

  // ---- invariant

  /** An attempt belongs to a submitted request and, if it is a replacement, was made after its outcome. */
  ghost predicate AttemptTimely(db: DB, t: Attempt) {
    && t.item < |db.items| && db.items[t.item].request < |db.requests|
        && db.requests[db.items[t.item].request].submitted
    && t.created <= db.clock
    && (t.replaced.Some? ==>
          && t.replaced.value < |db.outcomeLines| && db.outcomeLines[t.replaced.value].outcome < |db.outcomes|
          && db.outcomes[db.outcomeLines[t.replaced.value].outcome].occurred <= t.created)
  }

  ghost predicate AttemptsTimely(db: DB) {
    forall a | 0 <= a < |db.attempts| :: AttemptTimely(db, db.attempts[a])
  }

  ghost predicate PurchasesTimely(db: DB) {
    forall i | 0 <= i < |db.purchaseLines| ::
      && db.purchaseLines[i].attempt < |db.attempts|
      && db.attempts[db.purchaseLines[i].attempt].created <= db.purchaseLines[i].created <= db.clock
  }

  ghost predicate OutcomesTimely(db: DB) {
    forall i | 0 <= i < |db.outcomes| :: db.outcomes[i].occurred <= db.clock
  }

  ghost predicate DispatchesTimely(db: DB) {
    forall i | 0 <= i < |db.deliveries| && db.deliveries[i].dispatched.Some? ::
        db.deliveries[i].dispatched.value <= db.clock
  }

  ghost predicate Timely(db: DB) {
    AttemptsTimely(db) && PurchasesTimely(db) && OutcomesTimely(db) && DispatchesTimely(db)
  }

  /** Rows stay, requests stay submitted and the clock does not fall. */
  ghost predicate Extends(db: DB, next: DB) {
    && db.clock <= next.clock && db.items <= next.items && db.attempts <= next.attempts
    && db.purchaseLines <= next.purchaseLines && db.outcomes <= next.outcomes && db.outcomeLines <= next.outcomeLines
    && |db.requests| <= |next.requests|
    && forall r | 0 <= r < |db.requests| && db.requests[r].submitted :: next.requests[r].submitted
  }

  lemma {:induction false} AttemptStays(db: DB, next: DB, t: Attempt)
    requires AttemptTimely(db, t) && Extends(db, next)
    ensures AttemptTimely(next, t)
  {
  }

  /** What is new is timely, so everything is. */
  lemma {:induction false} ExtendsTimely(db: DB, next: DB)
    requires Timely(db) && Extends(db, next) && DispatchesTimely(next)
    requires forall a | |db.attempts| <= a < |next.attempts| :: AttemptTimely(next, next.attempts[a])
    requires forall i | |db.purchaseLines| <= i < |next.purchaseLines| ::
               && next.purchaseLines[i].attempt < |db.attempts|
               && db.attempts[next.purchaseLines[i].attempt].created <= next.purchaseLines[i].created <= next.clock
    requires forall i | |db.outcomes| <= i < |next.outcomes| :: next.outcomes[i].occurred <= next.clock
    ensures Timely(next)
  {
    forall a | 0 <= a < |next.attempts| ensures AttemptTimely(next, next.attempts[a]) {
      if a < |db.attempts| {
        AttemptStays(db, next, db.attempts[a]);
      }
    }
  }

  /** Nothing that times depend on changes but the clock. */
  lemma {:induction false} SameWork(db: DB, next: DB)
    requires Timely(db) && db.clock <= next.clock && db.items == next.items && db.requests == next.requests
    requires db.attempts == next.attempts && db.purchaseLines == next.purchaseLines
    requires db.outcomes == next.outcomes && db.outcomeLines == next.outcomeLines && DispatchesTimely(next)
    ensures Timely(next)
  {
    ExtendsTimely(db, next);
  }

  // ---- change by change

  lemma {:induction false} OrderRowTimely(db: Store, into: nat, row: OrderRow, occurred: int)
    requires Timely(db) && into < |db.orders| && Submitted(db, db.orders[into].request)
    requires OrderOneRow(db, into, row, occurred).Some?
    ensures Timely(OrderOneRow(db, into, row, occurred).value)
  {
    ExtendsTimely(db, OrderOneRow(db, into, row, occurred).value);
  }

  lemma {:induction false} PurchaseRowTimely(db: Store, into: nat, row: PurchaseRow, now: int)
    requires Timely(db) && into < |db.purchases| && PurchaseOneRow(db, into, row, now).Some?
    ensures Timely(PurchaseOneRow(db, into, row, now).value)
  {
    hide OfferUsable, SupplierAllowed;
    ExtendsTimely(db, PurchaseOneRow(db, into, row, now).value);
  }

  lemma {:induction false} ResolveTimely(db: Store, input: ActionInput)
    requires Timely(db) && ResolveRejection(db, input).Some?
    ensures Timely(ResolveRejection(db, input).value)
  {
    hide Resolvable;
    assert AttemptTimely(db, db.attempts[AttemptOf(db, input.rejection)]);
    ExtendsTimely(db, ResolveRejection(db, input).value);
  }

  lemma {:induction false} WholeTimely(db: Store, op: Op)
    requires Timely(db) && !ByRows(op) && Attempted(db, op).Some?
    ensures Timely(Attempted(db, op).value)
  {
    hide ResolveRejection, QuoteRows, OfferRowAllowed;
    match op
    case OpResolve(input) => ResolveTimely(db, input);
    case OpQuote(input) =>
      QuoteRowsQuote(OpenRevision(OpenQuotation(db, input).value, NextRevision(db, input), Later(db, input.tick)),
                     |db.revisions|, input.rows, {}, Now(db, input.tick));
      SameWork(db, CreateQuote(db, input).value);
    case OpRequest(_, _, _) => ExtendsTimely(db, Attempted(db, op).value);
    case OpSubmit(_, _, _) => ExtendsTimely(db, Attempted(db, op).value);
    case OpOffer(_) => SameWork(db, Attempted(db, op).value);
    case OpIssue(_, _, _, _, _) => SameWork(db, Attempted(db, op).value);
    case OpDispatch(_, _, _, _) => SameWork(db, Attempted(db, op).value);
  }

  lemma {:induction false} ChangeTimely(db: Store, m: Move, next: Store)
    requires Timely(db) && Moves(db, m, next)
    ensures Timely(next)
  {
    hide Attempted, OrderOneRow, PurchaseOneRow, Schema;
    match m
    case Whole(op) => WholeTimely(db, op);
    case OrderRowMove(into, row, occurred) => OrderRowTimely(db, into, row, occurred);
    case PurchaseRowMove(into, row, now) => PurchaseRowTimely(db, into, row, now);
    case OutcomeMove(_, _) => ExtendsTimely(db, next);
    case OutcomeRowMove(_, _, _) => ExtendsTimely(db, next);
    case _ => SameWork(db, next);
  }

  lemma {:induction false} ChangesTimely(op: Op)
    ensures Keeps((x: Store) => Timely(x), op)
  {
    hide Timely, Moves;
    forall db: Store, m: Move, next: Store | Timely(db) && Of(op, m) && Moves(db, m, next) ensures Timely(next) {
      ChangeTimely(db, m, next);
    }
  }

  lemma {:induction false} TimelyOn(db: Store, ops: seq<Op>)
    requires Timely(db)
    ensures Timely(Run(db, ops))
  {
    hide Timely, Keeps, Run;
    forall i | 0 <= i < |ops| ensures Keeps((x: Store) => Timely(x), ops[i]) {
      ChangesTimely(ops[i]);
    }
    ProcurementMoves.RunKeeps((x: Store) => Timely(x), db, ops);
  }

  lemma {:induction false} TimelyOverRuns(start: Store, ops: seq<Op>)
    requires Fresh(start)
    ensures Timely(Run(start, ops))
  {
    assert Timely(start);
    TimelyOn(start, ops);
  }

  // ---- one generation after the other

  /** From the attempt that a rejection goes back to, to whatever is bought for its replacement: made, bought,
      received, dispatched, met, replaced and bought again, each no earlier than the one before. */
  lemma {:induction false} ReplacementInTime(start: Store, ops: seq<Op>, a: nat, i: nat)
    requires Fresh(start) && a < |Run(start, ops).attempts| && Run(start, ops).attempts[a].replaced.Some?
    requires i < |Run(start, ops).purchaseLines| && Run(start, ops).purchaseLines[i].attempt == a
    ensures var db := Run(start, ops);
            var r := db.attempts[a].replaced.value;
            var outcome := db.outcomes[db.outcomeLines[r].outcome];
            && db.attempts[AttemptOf(db, r)].created <= db.purchaseLines[PurchaseLineOf(db, r)].created
                <= outcome.occurred
            && outcome.occurred <= db.attempts[a].created <= db.purchaseLines[i].created <= db.clock
  {
    var db := Run(start, ops);
    TimelyOverRuns(start, ops);
    Reachable(start, ops);
    ChainOf(db, db.attempts[a].replaced.value);
    assert AttemptTimely(db, db.attempts[a]);
  }

  lemma {:induction false} MadeAfterReplaced(db: Store, a: nat)
    requires Inv(db) && Timely(db) && a < |db.attempts| && db.attempts[a].replaced.Some?
    ensures db.attempts[AttemptOf(db, db.attempts[a].replaced.value)].created <= db.attempts[a].created
    ensures RejectedBy(db)[db.attempts[a].replaced.value].parent == AttemptOf(db, db.attempts[a].replaced.value)
  {
    var r := db.attempts[a].replaced.value;
    RejectedParent(db, r);
    ChainOf(db, r);
    assert AttemptTimely(db, db.attempts[a]);
  }

  /** Along the whole way back to the original attempt, each attempt was made no later than the one that
      replaces it. */
  lemma {:induction false} GenerationsInTime(db: Store, a: nat, i: nat)
    requires Inv(db) && Timely(db) && a < |db.attempts|
    requires i + 1 < |Ancestry(db.attempts, db.orderLines, RejectedBy(db), a)|
    ensures var path := Ancestry(db.attempts, db.orderLines, RejectedBy(db), a);
            db.attempts[path[i + 1]].created <= db.attempts[path[i]].created
  {
    LineageNarrows(db.attempts, db.orderLines, RejectedBy(db), a, i);
    MadeAfterReplaced(db, Ancestry(db.attempts, db.orderLines, RejectedBy(db), a)[i]);
  }
}
