/** The procurement operations behind the retry wrapper: what holds over runs of operations holds over runs of
    requests with keys, retries, conflicts and failures. */
module ProcurementDesk {
  import opened ProcurementTables
  import opened ProcurementSteps
  import opened Runs
  import opened Operations
  import opened Tracking
  import Theorems = FulfilmentTheorems

  /** Wrapper rules whose change is one procurement operation, refused operations raising. */
  ghost predicate Procures<B(!new)>(rules: Rules<Store, Op, B>) {
    forall db, user, op ::
      && (rules.act(db, user, op).Some? <==> Attempted(db, op).Some?)
      && (rules.act(db, user, op).Some? ==> rules.act(db, user, op).value.state == Attempted(db, op).value)
  }

  function Performed<A>(calls: seq<Call<A>>): (ops: seq<A>)
    ensures |ops| == |calls|
  {
    seq(|calls|, i requires 0 <= i < |calls| => calls[i].action)
  }

  lemma {:induction false} RunFromFirst(db: Store, op: Op, ops: seq<Op>)
    ensures ProcurementSteps.Run(db, [op] + ops) == ProcurementSteps.Run(Apply(db, op), ops)
  {
    hide Apply;
    RunOn(db, [op], ops);
    RunOfOne(db, op);
  }

  function After<B>(rules: Rules<Store, Op, B>, db: Store, call: Call<Op>): Store {
    var done := rules.act(db, call.user, call.action);
    if done.Some? then done.value.state else db
  }

  lemma {:induction false} AfterIsApply<B(!new)>(rules: Rules<Store, Op, B>, db: Store, call: Call<Op>)
    requires Procures(rules)
    ensures After(rules, db, call) == Apply(db, call.action)
  {
  }

  lemma {:induction false} DirectFromFirst<B(!new)>(rules: Rules<Store, Op, B>, db: Store, calls: seq<Call<Op>>)
    requires Procures(rules) && calls != []
    ensures Direct(rules, db, calls) == Direct(rules, Apply(db, calls[0].action), calls[1..])
  {
    AfterIsApply(rules, db, calls[0]);
  }

  lemma {:induction false} PerformedFromFirst<A>(calls: seq<Call<A>>)
    requires calls != []
    ensures Performed(calls) == [calls[0].action] + Performed(calls[1..])
  {
  }

  lemma {:induction false} DirectIsRun<B(!new)>(rules: Rules<Store, Op, B>, db: Store, calls: seq<Call<Op>>)
    requires Procures(rules)
    ensures Direct(rules, db, calls) == ProcurementSteps.Run(db, Performed(calls))
    decreases |calls|
  {
    hide Apply, Procures;
    if calls != [] {
      DirectFromFirst(rules, db, calls);
      DirectIsRun(rules, Apply(db, calls[0].action), calls[1..]);
      PerformedFromFirst(calls);
      RunFromFirst(db, calls[0].action, Performed(calls[1..]));
    }
  }

  /** Whatever requests arrive, with whatever keys and retries, the tables are those of a run of the first
      successful operation of each key, so the conservation of quantities holds of what was served. */
  lemma {:induction false} ServedConservation<B(!new)>(rules: Rules<Store, Op, B>, start: Store, calls: seq<Call<Op>>,
      item: nat)
    requires Procures(rules) && Fresh(start)
    ensures var db := Operations.Run(rules, Ledger(start, map[]), calls).business;
            var t := TrackItem(db, item);
            && db == ProcurementSteps.Run(start, Performed(FirstSuccesses(rules, start, {}, calls)))
            && t.ordered == t.accepted + t.closed + t.remaining && 0 <= t.remaining
            && (t.itemAccepted == Completed ==> t.remaining == 0 && t.closed == 0 && Theorems.AllSettled(db, item))
  {
    var at := Ledger(start, map[]);
    ExactlyOnce(rules, at, calls, 0);
    assert at.operations.Keys == {};
    var firsts := FirstSuccesses(rules, start, {}, calls);
    DirectIsRun(rules, start, firsts);
    Theorems.ReachableConservation(start, Performed(firsts), item);
  }
}
