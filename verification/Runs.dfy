/** Taking runs of operations apart. */
module Runs {
  import opened ProcurementTables
  import opened ProcurementSteps

  lemma {:induction false} RunOfLast(db: Store, ops: seq<Op>, op: Op)
    ensures Run(db, ops + [op]) == Apply(Run(db, ops), op)
  {
    hide Apply;
    assert (ops + [op])[..|ops|] == ops;
  }

  lemma {:induction false} RunOfNone(db: Store)
    ensures Run(db, []) == db
  {
  }

  lemma {:induction false} LastOfBoth(first: seq<Op>, more: seq<Op>)
    requires more != []
    ensures first + more == (first + more[..|more| - 1]) + [more[|more| - 1]]
    ensures more == more[..|more| - 1] + [more[|more| - 1]]
  {
  }

  /** Running two lists of operations one after the other is running them together. */
  lemma {:induction false} RunOn(db: Store, first: seq<Op>, more: seq<Op>)
    ensures Run(db, first + more) == Run(Run(db, first), more)
    decreases |more|
  {
    hide Apply, Run;
    if more == [] {
      assert first + more == first;
      RunOfNone(Run(db, first));
    } else {
      var init, last := more[..|more| - 1], more[|more| - 1];
      RunOn(db, first, init);
      RunOfLast(db, first + init, last);
      RunOfLast(Run(db, first), init, last);
      LastOfBoth(first, more);
    }
  }

  lemma {:induction false} RunOfOne(db: Store, op: Op)
    ensures Run(db, [op]) == Apply(db, op)
  {
    hide Apply;
    assert [op][..0] == [];
  }
}
