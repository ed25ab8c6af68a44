/** The kinds of parties that were merged: compatible at the merge, and when they stop being so. */
module PartyKinds {
  import opened Options
  import opened PartyGraph

  /** Every merged party is of a kind compatible with that of the party it was merged into. */
  ghost predicate Alike(r: Register) {
    forall p, q | p in r.parties && q in r.parties && r.parties[p].mergedInto == Some(q) ::
      Compatible(r.parties[p].kind, r.parties[q].kind)
  }

  /** The party was merged away, or another one was merged into it. */
  predicate Joined(r: Register, id: Id) {
    && id in r.parties
    && (r.parties[id].mergedInto.Some? || exists p :: p in r.parties && r.parties[p].mergedInto == Some(id))
  }

  /** A change of kind, from or to an individual, that is allowed and meets a joined party. */
  predicate Crosses(r: Register, op: Op) {
    op.OpReclassify? && op.free && Joined(r, op.id) && !Compatible(r.parties[op.id].kind, op.kind)
  }

  /** The target of every merge is registered. */
  lemma {:induction false} TargetStands(r: Register, p: Id)
    requires Tombstones(r) && Records(r) && p in r.parties && r.parties[p].mergedInto.Some?
    ensures r.parties[p].mergedInto.value in r.parties
  {
    var k := RecordOf(r, p);
    assert r.parties[r.merges[k].source].mergedInto == Some(r.merges[k].target);
  }

  lemma {:induction false} CrossingParts(r: Register, id: Id, kind: Kind)
    requires Tombstones(r) && Records(r) && Alike(r) && Joined(r, id)
    ensures Alike(Reclassify(r, id, kind, true)) ==> Compatible(r.parties[id].kind, kind)
  {
    var next := Reclassify(r, id, kind, true);
    if r.parties[id].mergedInto.Some? {
      TargetStands(r, id);
      var q := r.parties[id].mergedInto.value;
      assert next.parties[id].mergedInto == Some(q);
      assert Compatible(r.parties[id].kind, r.parties[q].kind);
      assert q == id || next.parties[q] == r.parties[q];
      if q == id {
        PathsLeadToTheSurvivor(r, [id, id]);
      }
    } else {
      var p :| p in r.parties && r.parties[p].mergedInto == Some(id);
      assert next.parties[p].mergedInto == Some(id) && next.parties[p].kind == r.parties[p].kind;
    }
  }

  /** Compatible kinds stay so along every merge unless an allowed change of kind crosses between individuals and
      others at a party that was merged or merged into; the check on a change of kind does not ask for that. */
  lemma {:induction false} AlikeUnlessCrossed(r: Register, op: Op)
    requires Tombstones(r) && Records(r) && Alike(r)
    ensures Alike(Apply(r, op)) <==> !Crosses(r, op)
  {
    match op
    case OpReclassify(id, kind, free) =>
      if free && Joined(r, id) {
        CrossingParts(r, id, kind);
      }
    case OpCreate(id, _, _) =>
      if id !in r.parties {
        forall p | p in r.parties && r.parties[p].mergedInto.Some? ensures r.parties[p].mergedInto.value != id {
          TargetStands(r, p);
        }
      }
    case _ =>
  }

  /** No change of kind in the run crosses at a joined party. */
  ghost predicate NeverCrosses(r: Register, ops: seq<Op>)
    decreases |ops|
  {
    ops == [] || (!Crosses(r, ops[0]) && NeverCrosses(Apply(r, ops[0]), ops[1..]))
  }

  ghost predicate AlikeThroughout(r: Register, ops: seq<Op>)
    decreases |ops|
  {
    Alike(r) && (ops == [] || AlikeThroughout(Apply(r, ops[0]), ops[1..]))
  }

  /** Over any run, merged parties are of compatible kinds at all times if and only if no change of kind crosses
      at one of them. */
  lemma {:induction false} AlikeOverRuns(r: Register, ops: seq<Op>)
    requires Tombstones(r) && Records(r) && Alike(r)
    ensures AlikeThroughout(r, ops) <==> NeverCrosses(r, ops)
    decreases |ops|
  {
    hide Alike, Crosses, Tombstones, Records, Apply;
    if ops != [] {
      var next := Apply(r, ops[0]);
      AlikeUnlessCrossed(r, ops[0]);
      ApplyKeepsRecords(r, ops[0]);
      if Alike(next) {
        AlikeOverRuns(next, ops[1..]);
      } else {
        assert !AlikeThroughout(next, ops[1..]);
      }
    }
  }

  /** While kinds are compatible along each merge, every party is of a kind compatible with that of its survivor. */
  lemma {:induction false} AlikeToTheSurvivor(r: Register, p: Id)
    requires Tombstones(r) && Records(r) && Alike(r) && p in r.parties
    ensures Compatible(r.parties[p].kind, r.parties[Survivor(r, p)].kind)
    decreases if r.parties[p].status == Merged then |r.merges| - RecordOf(r, p) else 0
  {
    if r.parties[p].status == Merged {
      var k := RecordOf(r, p);
      var q := r.merges[k].target;
      assert r.parties[p].mergedInto == Some(q);
      AlikeToTheSurvivor(r, q);
    }
  }

  const JOINING := [OpCreate(0, Individual, Active), OpCreate(1, Individual, Active), OpMerge(0, 1, true)]

  lemma {:induction false} JoinedPair()
    ensures Run(EMPTY, JOINING).parties
         == map[0 := Entry(Individual, Merged, true, Some(1)), 1 := Entry(Individual, Active, false, None)]
  {
    assert JOINING[1..][1..] == JOINING[2..] && JOINING[2..][1..] == [];
    assert Run(EMPTY, JOINING) == Apply(Apply(Apply(EMPTY, JOINING[0]), JOINING[1]), JOINING[2]);
  }

  /** Two individuals are merged, and the one that is left becomes an organisation. */
  lemma {:induction false} CrossingIsReached()
    ensures Alike(Run(EMPTY, JOINING)) && !Alike(Apply(Run(EMPTY, JOINING), OpReclassify(1, Kind.Organisation, true)))
  {
    hide Run;
    JoinedPair();
    var next := Apply(Run(EMPTY, JOINING), OpReclassify(1, Kind.Organisation, true));
    assert next.parties[0].mergedInto == Some(1);
  }
}
