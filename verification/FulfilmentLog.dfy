/** The resolution events of the log are the action rows, one by one and in order. */
module FulfilmentLog {
  import opened Links
  import opened ProcurementTables
  import opened ProcurementSteps
  import opened ProcurementMoves
  import opened FulfilmentInvariants
  import opened FulfilmentSums
  import opened FulfilmentSteps

  /** The resolution events of a log, oldest first. */
  function Resolutions(events: seq<Event>): seq<Event> {
    if events == [] then []
    else
      var k := |events| - 1;
      Resolutions(events[..k]) + if events[k].kind.Resolved? then [events[k]] else []
  }

  /** The attempt an action is about: the replacement it grants, or the attempt whose goods were rejected. */
  function ActsOn(db: Store, i: nat): (attempt: nat)
    requires i < |db.actions|
    ensures attempt < |db.attempts|
  {
    if db.actions[i].replacement.Some? then db.actions[i].replacement.value else AttemptOf(db, db.actions[i].rejection)
  }

  function ActionEvent(db: Store, i: nat): Event
    requires i < |db.actions|
  {
    var attempt := ActsOn(db, i);
    Event(Resolved(db.actions[i].kind), db.attempts[attempt].item, attempt, db.actions[i].qty)
  }

  function ActionEvents(db: Store): seq<Event> {
    seq(|db.actions|, i requires 0 <= i < |db.actions| => ActionEvent(db, i))
  }

  ghost predicate Faithful(db: Store) {
    Resolutions(db.events) == ActionEvents(db)
  }

  // ---- what resolves nothing

  ghost predicate NothingResolved(db: DB, next: DB) {
    next.actions == db.actions && Resolutions(next.events) == Resolutions(db.events)
  }

  lemma {:induction false} ResolutionsAppend(events: seq<Event>, e: Event)
    ensures Resolutions(events + [e]) == Resolutions(events) + if e.kind.Resolved? then [e] else []
  {
    assert (events + [e])[..|events|] == events;
  }

  lemma {:induction false} ResolutionsSkip(events: seq<Event>, added: seq<Event>)
    requires forall i | 0 <= i < |added| :: !added[i].kind.Resolved?
    ensures Resolutions(events + added) == Resolutions(events)
    decreases |added|
  {
    if added == [] {
      assert events + added == events;
    } else {
      var k := |added| - 1;
      assert events + added == (events + added[..k]) + [added[k]];
      ResolutionsSkip(events, added[..k]);
      ResolutionsAppend(events + added[..k], added[k]);
    }
  }

  /** The log gains no resolution event. */
  ghost predicate Elsewhere(events: seq<Event>, more: seq<Event>) {
    events <= more && forall i | |events| <= i < |more| :: !more[i].kind.Resolved?
  }

  lemma {:induction false} WholeElsewhere(db: Store, op: Op)
    requires !ByRows(op) && !op.OpResolve? && Attempted(db, op).Some?
    ensures Attempted(db, op).value.actions == db.actions && Elsewhere(db.events, Attempted(db, op).value.events)
  {
    hide QuoteRows, OfferRowAllowed, Schema;
    if op.OpQuote? {
      var input := op.quote;
      QuoteRowsQuote(OpenRevision(OpenQuotation(db, input).value, NextRevision(db, input), Later(db, input.tick)),
                     |db.revisions|, input.rows, {}, Now(db, input.tick));
    }
  }

  lemma {:induction false} ChangeResolvesNothing(db: Store, m: Move, next: Store)
    requires Moves(db, m, next) && !(m.Whole? && m.op.OpResolve?)
    ensures NothingResolved(db, next)
  {
    hide Attempted, OrderedItem, OfferUsable, SupplierAllowed, Schema, Resolutions;
    if m.Whole? {
      WholeElsewhere(db, m.op);
    }
    assert next.actions == db.actions && Elsewhere(db.events, next.events);
    hide Moves;
    var added := next.events[|db.events|..];
    assert next.events == db.events + added;
    ResolutionsSkip(db.events, added);
  }

  // ---- over runs

  lemma {:induction false} ActionStays(db: Store, next: Store, i: nat)
    requires Grows(db, next) && i < |db.actions|
    ensures i < |next.actions| && ActionEvent(next, i) == ActionEvent(db, i)
  {
  }

  lemma {:induction false} ActionsStay(db: Store, next: Store)
    requires Grows(db, next)
    ensures |db.actions| <= |next.actions| && ActionEvents(next)[..|db.actions|] == ActionEvents(db)
  {
    assert |db.actions| <= |next.actions|;
    hide Grows, ActionEvent;
    forall i | 0 <= i < |db.actions| ensures ActionEvent(next, i) == ActionEvent(db, i) {
      ActionStays(db, next, i);
    }
  }

  lemma {:induction false} ReplacementLogged(db: Store, rejection: nat, qty: nat, kind: ActionKind)
    requires rejection < |db.outcomeLines| && 0 < qty
    ensures var next := InsertReplacement(db, rejection, qty, kind);
            && |next.actions| == |db.actions| + 1
            && Resolutions(next.events) == Resolutions(db.events) + [ActionEvent(next, |db.actions|)]
  {
    var next := InsertReplacement(db, rejection, qty, kind);
    var first, second := next.events[|db.events|], next.events[|db.events| + 1];
    assert next.events == (db.events + [first]) + [second];
    ResolutionsAppend(db.events, first);
    ResolutionsAppend(db.events + [first], second);
  }

  lemma {:induction false} ActionLogged(db: Store, rejection: nat, qty: nat, kind: ActionKind)
    requires rejection < |db.outcomeLines| && 0 < qty
    ensures var next := InsertAction(db, rejection, qty, kind);
            && |next.actions| == |db.actions| + 1
            && Resolutions(next.events) == Resolutions(db.events) + [ActionEvent(next, |db.actions|)]
  {
    var next := InsertAction(db, rejection, qty, kind);
    ResolutionsAppend(db.events, next.events[|db.events|]);
  }

  lemma {:induction false} ResolutionLogged(db: Store, input: ActionInput)
    requires ResolveRejection(db, input).Some?
    ensures var next := ResolveRejection(db, input).value;
            && |next.actions| == |db.actions| + 1
            && Resolutions(next.events) == Resolutions(db.events) + [ActionEvent(next, |db.actions|)]
  {
    hide Resolutions, Resolvable, InsertReplacement, InsertAction, ActionEvent;
    var timed := At(db, Later(db, input.tick));
    if input.kind == Replace || input.kind == Source {
      ReplacementLogged(timed, input.rejection, input.qty, input.kind);
    } else {
      ActionLogged(timed, input.rejection, input.qty, input.kind);
    }
  }

  lemma {:induction false} ChangeFaithful(db: Store, m: Move, next: Store)
    requires Inv(db) && Faithful(db) && Moves(db, m, next)
    ensures Inv(next) && Faithful(next)
  {
    hide Inv, Grows, Resolutions, ActionEvent, ResolveRejection, Schema;
    hide OrderOneRow, PurchaseOneRow, ReceiveOneRow, DeliverOneRow, OutcomeOneRow;
    ChangeKeeps(db, m, next);
    ActionsStay(db, next);
    if m.Whole? && m.op.OpResolve? {
      ResolutionLogged(db, m.op.action);
    } else {
      ChangeResolvesNothing(db, m, next);
    }
  }

  lemma {:induction false} ChangesFaithful(op: Op)
    ensures Keeps((x: Store) => Inv(x) && Faithful(x), op)
  {
    hide Inv, Faithful, Moves;
    forall db: Store, m: Move, next: Store | Inv(db) && Faithful(db) && Of(op, m) && Moves(db, m, next)
      ensures Inv(next) && Faithful(next)
    {
      ChangeFaithful(db, m, next);
    }
  }

  /** In every reachable state the resolution events of the log, in order, are the action rows: one event for
      each, with its kind, its quantity and the attempt it acts on. */
  lemma {:induction false} ResolutionsReplay(start: Store, ops: seq<Op>)
    requires Fresh(start)
    ensures Resolutions(Run(start, ops).events) == ActionEvents(Run(start, ops))
  {
    assert Faithful(start);
    hide Inv, Keeps, Moves, Run, Resolutions, ActionEvents;
    NoRows(start);
    forall i | 0 <= i < |ops| ensures Keeps((x: Store) => Inv(x) && Faithful(x), ops[i]) {
      ChangesFaithful(ops[i]);
    }
    ProcurementMoves.RunKeeps((x: Store) => Inv(x) && Faithful(x), start, ops);
  }

  // ---- in quantities

  /** The actions of one kind, each under the attempt it acts on. */
  function ActionsUpon(db: Store, kind: ActionKind): seq<Link> {
    seq(|db.actions|, i requires 0 <= i < |db.actions| =>
      Link(ActsOn(db, i), if db.actions[i].kind == kind then db.actions[i].qty else 0))
  }

  lemma {:induction false} OnlyResolutionsCount(events: seq<Event>, kind: ActionKind, a: int)
    ensures Total(EventsOf(Resolutions(events), Resolved(kind)), a) == Total(EventsOf(events, Resolved(kind)), a)
    decreases |events|
  {
    if events != [] {
      var k := |events| - 1;
      OnlyResolutionsCount(events[..k], kind, a);
      assert events == events[..k] + [events[k]];
      LogAppend(events[..k], events[k]);
      TotalAppend(EventsOf(events[..k], Resolved(kind)), EventLink(events[k], Resolved(kind)));
      if !events[k].kind.Resolved? {
        assert Resolutions(events) == Resolutions(events[..k]);
      } else {
        assert Resolutions(events) == Resolutions(events[..k]) + [events[k]];
        LogAppend(Resolutions(events[..k]), events[k]);
        TotalAppend(EventsOf(Resolutions(events[..k]), Resolved(kind)), EventLink(events[k], Resolved(kind)));
      }
    }
  }

  lemma {:induction false} ActionsUponEvents(db: Store, kind: ActionKind)
    ensures EventsOf(ActionEvents(db), Resolved(kind)) == ActionsUpon(db, kind)
  {
  }

  /** For returns, supplier decisions, replacements, sourcing, refunds and closures alike, the quantities in an
      attempt's events add up to those of the actions upon it. */
  lemma {:induction false} ResolvedQuantities(start: Store, ops: seq<Op>, kind: ActionKind, a: nat)
    requires Fresh(start)
    ensures var db := Run(start, ops);
            Total(EventsOf(db.events, Resolved(kind)), a) == Total(ActionsUpon(db, kind), a)
  {
    hide Run, Resolutions, ActionEvents, ActionsUpon, EventsOf;
    ResolutionsReplay(start, ops);
    OnlyResolutionsCount(Run(start, ops).events, kind, a);
    ActionsUponEvents(Run(start, ops), kind);
  }
}
