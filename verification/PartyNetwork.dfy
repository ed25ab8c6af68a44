/** The register of parties together with the one table of affiliations between them, over whole runs. */
module PartyNetwork {
  import opened Options
  import opened PartyGraph
  import opened PartyAffiliations

  datatype Network = Network(register: Register, table: Table)

  const NOTHING := Network(EMPTY, [])

  predicate Names(slot: Option<Affiliation>, id: Id) {
    slot.Some? && (slot.value.person == id || slot.value.organisation == id)
  }

  predicate Affiliated(table: Table, id: Id) {
    exists i :: 0 <= i < |table| && Names(table[i], id)
  }

  /** The end that parties of a kind stand at. */
  function EndOf(kind: Kind): End {
    if kind == Individual then End.Person else End.Organisation
  }

  /** An individual with an organisation or trading name, both registered. */
  predicate Suits(parties: map<Id, Entry>, row: Affiliation) {
    && row.person in parties && parties[row.person].kind == Individual
    && row.organisation in parties && parties[row.organisation].kind != Individual
  }

  /** Some row other than `self` is a current affiliation of the same pair. */
  predicate Taken(table: Table, row: Affiliation, self: Option<nat>) {
    exists k :: 0 <= k < |table| && Some(k) != self && Links(table[k], Person, row.person, row.organisation)
  }

  predicate RolesOnce(rows: seq<Assignment>) {
    forall i, j | 0 <= i < j < |rows| :: rows[i].role != rows[j].role
  }

  predicate Enters(net: Network, row: Affiliation, self: Option<nat>) {
    Suits(net.register.parties, row) && RolesOnce(row.roles) && (row.current ==> !Taken(net.table, row, self))
  }

  datatype Step =
    | Service(op: Op)
    | Affiliate(row: Affiliation)
    | Edit(at: nat, row: Affiliation)
    | Drop(at: nat)

  /** Affiliations protect their parties from deletion and hold their kinds. */
  function Protecting(op: Op, table: Table): Op {
    match op
    case OpDelete(id, superuser, referenced, held) => OpDelete(id, superuser, referenced, held || Affiliated(table, id))
    case OpReclassify(id, kind, free) => OpReclassify(id, kind, free && !Affiliated(table, id))
    case _ => op
  }

  function Take(net: Network, step: Step): Network {
    match step
    case Service(op) =>
      var table :=
        if op.OpMerge? && MergeError(net.register, op.source, op.target, op.reasoned).None?
        then ReassignAll(net.table, EndOf(net.register.parties[op.source].kind), op.source, op.target)
        else net.table;
      Network(Apply(net.register, Protecting(op, net.table)), table)
    case Affiliate(row) => if Enters(net, row, None) then net.(table := net.table + [Some(row)]) else net
    case Edit(at, row) =>
      if at < |net.table| && net.table[at].Some? && Enters(net, row, Some(at))
      then net.(table := net.table[at := Some(row)]) else net
    case Drop(at) => if at < |net.table| then net.(table := net.table[at := None]) else net
  }

  function Run(net: Network, steps: seq<Step>): Network
    decreases |steps|
  {
    if steps == [] then net else Run(Take(net, steps[0]), steps[1..])
  }

  // ---- invariant

  ghost predicate Kinds(parties: map<Id, Entry>, table: Table) {
    forall i | 0 <= i < |table| && table[i].Some? :: Suits(parties, table[i].value)
  }

  ghost predicate Inv(net: Network) {
    && PartyGraph.Inv(net.register) && PairsOnce(net.table) && Proper(net.table)
    && Kinds(net.register.parties, net.table)
  }

  lemma {:induction false} RowsSuit(table: Table, parties: map<Id, Entry>, next: map<Id, Entry>)
    requires Kinds(parties, table)
    requires forall p | p in parties && Affiliated(table, p) :: p in next && next[p].kind == parties[p].kind
    ensures Kinds(next, table)
  {
    forall i | 0 <= i < |table| && table[i].Some? ensures Suits(next, table[i].value) {
      assert Names(table[i], table[i].value.person) && Names(table[i], table[i].value.organisation);
    }
  }

  lemma {:induction false} KindStays(net: Network, op: Op, p: Id)
    requires !op.OpMerge? && p in net.register.parties && Affiliated(net.table, p)
    ensures var next := Apply(net.register, Protecting(op, net.table)).parties;
            p in next && next[p].kind == net.register.parties[p].kind
  {
  }

  /** Every operation but a merge leaves the kinds of affiliated parties alone and the parties in place. */
  lemma {:induction false} OthersKeepKinds(net: Network, op: Op)
    requires Inv(net) && !op.OpMerge?
    ensures Kinds(Apply(net.register, Protecting(op, net.table)).parties, net.table)
  {
    var next := Apply(net.register, Protecting(op, net.table)).parties;
    hide Apply, Protecting;
    forall p | p in net.register.parties && Affiliated(net.table, p)
      ensures p in next && next[p].kind == net.register.parties[p].kind
    {
      KindStays(net, op, p);
    }
    RowsSuit(net.table, net.register.parties, next);
  }

  lemma {:induction false} MergeKeepsKinds(net: Network, source: Id, target: Id, reasoned: bool)
    requires Inv(net) && MergeError(net.register, source, target, reasoned).None?
    ensures Kinds(Merge(net.register, source, target, reasoned).parties,
                  ReassignAll(net.table, EndOf(net.register.parties[source].kind), source, target))
  {
    var parties, end := net.register.parties, EndOf(net.register.parties[source].kind);
    var merged, table := Merge(net.register, source, target, reasoned).parties,
        ReassignAll(net.table, end, source, target);
    forall j | 0 <= j < |table| && table[j].Some? ensures Suits(merged, table[j].value) {
      SlotOf(net.table, end, source, target, j);
      SlotIsProper(net.table, end, source, target, j);
      assert Suits(parties, net.table[j].value);
    }
  }

  lemma {:induction false} ServiceKeeps(net: Network, op: Op)
    requires Inv(net)
    ensures Inv(Take(net, Service(op)))
  {
    ApplyKeepsRecords(net.register, Protecting(op, net.table));
    ApplyKeepsHistory(net.register, Protecting(op, net.table));
    if op.OpMerge? {
      if MergeError(net.register, op.source, op.target, op.reasoned).None? {
        ReassignedOnce(net.table, EndOf(net.register.parties[op.source].kind), op.source, op.target);
        MergeKeepsKinds(net, op.source, op.target, op.reasoned);
      }
    } else {
      OthersKeepKinds(net, op);
    }
  }

  lemma {:induction false} EnteredOnce(net: Network, row: Affiliation, at: nat, table: Table)
    requires Inv(net) && at < |table| && table[at] == Some(row)
    requires Enters(net, row, if at < |net.table| then Some(at) else None)
    requires |net.table| <= |table| <= |net.table| + 1 && (|table| > |net.table| ==> at == |net.table|)
    requires forall i | 0 <= i < |table| && i != at :: table[i] == net.table[i]
    ensures PairsOnce(table) && Proper(table) && Kinds(net.register.parties, table)
  {
    forall i | 0 <= i < |table| && i != at && table[i].Some? && table[i].value.current && row.current
      ensures table[i].value.person != row.person || table[i].value.organisation != row.organisation
    {
      assert !Links(net.table[i], Person, row.person, row.organisation);
    }
  }

  lemma {:induction false} AffiliateKeeps(net: Network, row: Affiliation)
    requires Inv(net)
    ensures Inv(Take(net, Affiliate(row)))
  {
    hide Enters;
    if Enters(net, row, None) {
      EnteredOnce(net, row, |net.table|, net.table + [Some(row)]);
    }
  }

  lemma {:induction false} EditKeeps(net: Network, at: nat, row: Affiliation)
    requires Inv(net)
    ensures Inv(Take(net, Edit(at, row)))
  {
    hide Enters;
    if at < |net.table| && net.table[at].Some? && Enters(net, row, Some(at)) {
      EnteredOnce(net, row, at, net.table[at := Some(row)]);
    }
  }

  lemma {:induction false} DropKeeps(net: Network, at: nat)
    requires Inv(net)
    ensures Inv(Take(net, Drop(at)))
  {
  }

  lemma {:induction false} TakeKeeps(net: Network, step: Step)
    requires Inv(net)
    ensures Inv(Take(net, step))
  {
    hide Inv, Take;
    match step
    case Service(op) => ServiceKeeps(net, op);
    case Affiliate(row) => AffiliateKeeps(net, row);
    case Edit(at, row) => EditKeeps(net, at, row);
    case Drop(at) => DropKeeps(net, at);
  }

  lemma {:induction false} RunKeeps(net: Network, steps: seq<Step>)
    requires Inv(net)
    ensures Inv(Run(net, steps))
    decreases |steps|
  {
    if steps != [] {
      TakeKeeps(net, steps[0]);
      RunKeeps(Take(net, steps[0]), steps[1..]);
    }
  }

  /** Over every run of merges, other services and changes of affiliations: no pair has two current
      affiliations, each affiliation joins a registered individual to a registered organisation or trading
      name, and the register keeps its own invariant. */
  lemma {:induction false} Reachable(steps: seq<Step>)
    ensures Inv(Run(NOTHING, steps))
  {
    RunKeeps(NOTHING, steps);
  }

  // ---- what a merge leaves behind

  /** After any run, the two parties of an accepted merge are never affiliated with each other, so the branch that
      drops such an affiliation is never taken. */
  lemma {:induction false} NoneToDrop(steps: seq<Step>, source: Id, target: Id, reasoned: bool, i: nat)
    requires var net := Run(NOTHING, steps);
             && MergeError(net.register, source, target, reasoned).None? && i < |net.table| && net.table[i].Some?
    ensures var net := Run(NOTHING, steps); !(Names(net.table[i], source) && Names(net.table[i], target))
  {
    Reachable(steps);
    var net := Run(NOTHING, steps);
    assert Suits(net.register.parties, net.table[i].value);
  }

  /** After an accepted merge no affiliation names the source, at either end. */
  lemma {:induction false} SourceForgotten(net: Network, source: Id, target: Id, reasoned: bool)
    requires Inv(net) && MergeError(net.register, source, target, reasoned).None?
    ensures !Affiliated(Take(net, Service(OpMerge(source, target, reasoned))).table, source)
  {
    var end := EndOf(net.register.parties[source].kind);
    var table := ReassignAll(net.table, end, source, target);
    ReassignedOnce(net.table, end, source, target);
    forall j | 0 <= j < |table| ensures !Names(table[j], source) {
      if table[j].Some? {
        SlotOf(net.table, end, source, target, j);
        SlotIsProper(net.table, end, source, target, j);
        assert Suits(net.register.parties, net.table[j].value);
      }
    }
  }

  ghost predicate Lives(register: Register, id: Id) {
    id in register.parties && register.parties[id].status != Merged
  }

  /** No affiliation names a merged party. */
  ghost predicate NamesLive(net: Network) {
    forall i | 0 <= i < |net.table| && net.table[i].Some? ::
      Lives(net.register, net.table[i].value.person) && Lives(net.register, net.table[i].value.organisation)
  }

  /** Whether the row that a step would enter names live parties; the check on entry asks for their kinds only. */
  ghost predicate Careful(net: Network, step: Step) {
    match step
    case Affiliate(row) => Lives(net.register, row.person) && Lives(net.register, row.organisation)
    case Edit(_, row) => Lives(net.register, row.person) && Lives(net.register, row.organisation)
    case _ => true
  }

  /** Whether the check on entry lets a step write its row. */
  predicate Writes(net: Network, step: Step) {
    match step
    case Affiliate(row) => Enters(net, row, None)
    case Edit(at, row) => at < |net.table| && net.table[at].Some? && Enters(net, row, Some(at))
    case _ => false
  }

  lemma {:induction false} MergeKeepsLive(net: Network, source: Id, target: Id, reasoned: bool)
    requires Inv(net) && NamesLive(net) && MergeError(net.register, source, target, reasoned).None?
    ensures NamesLive(Take(net, Service(OpMerge(source, target, reasoned))))
  {
    var end := EndOf(net.register.parties[source].kind);
    var next := Take(net, Service(OpMerge(source, target, reasoned)));
    SourceForgotten(net, source, target, reasoned);
    forall j | 0 <= j < |next.table| && next.table[j].Some?
      ensures Lives(next.register, next.table[j].value.person) && Lives(next.register, next.table[j].value.organisation)
    {
      assert !Names(next.table[j], source);
      SlotOf(net.table, end, source, target, j);
      SlotIsProper(net.table, end, source, target, j);
    }
  }

  lemma {:induction false} RowsLive(net: Network, register: Register)
    requires NamesLive(net)
    requires forall p | Lives(net.register, p) && Affiliated(net.table, p) :: Lives(register, p)
    ensures NamesLive(Network(register, net.table))
  {
    forall i | 0 <= i < |net.table| && net.table[i].Some?
      ensures Lives(register, net.table[i].value.person) && Lives(register, net.table[i].value.organisation)
    {
      assert Names(net.table[i], net.table[i].value.person) && Names(net.table[i], net.table[i].value.organisation);
    }
  }

  lemma {:induction false} StaysLive(net: Network, op: Op, p: Id)
    requires op.OpMerge? ==> MergeError(net.register, op.source, op.target, op.reasoned).Some?
    requires Lives(net.register, p) && Affiliated(net.table, p)
    ensures Lives(Apply(net.register, Protecting(op, net.table)), p)
  {
  }

  lemma {:induction false} ServiceKeepsLive(net: Network, op: Op)
    requires Inv(net) && NamesLive(net)
    ensures NamesLive(Take(net, Service(op)))
  {
    if op.OpMerge? && MergeError(net.register, op.source, op.target, op.reasoned).None? {
      MergeKeepsLive(net, op.source, op.target, op.reasoned);
    } else {
      forall p | Lives(net.register, p) && Affiliated(net.table, p)
        ensures Lives(Apply(net.register, Protecting(op, net.table)), p)
      {
        StaysLive(net, op, p);
      }
      RowsLive(net, Apply(net.register, Protecting(op, net.table)));
    }
  }

  /** While no affiliation names a merged party, a step ends that if and only if it writes one that does. */
  lemma {:induction false} LiveUnlessEntered(net: Network, step: Step)
    requires Inv(net) && NamesLive(net)
    ensures NamesLive(Take(net, step)) <==> (Writes(net, step) ==> Careful(net, step))
  {
    match step
    case Service(op) => ServiceKeepsLive(net, op);
    case Affiliate(row) =>
      if Writes(net, step) {
        var next := Take(net, step);
        assert next.table[|net.table|] == Some(row);
        forall i | 0 <= i < |net.table| ensures next.table[i] == net.table[i] {
        }
      }
    case Edit(at, row) =>
      if Writes(net, step) {
        var next := Take(net, step);
        assert next.table[at] == Some(row);
      }
    case Drop(at) =>
  }

  /** Every step of a run that writes an affiliation writes one with live parties. */
  ghost predicate CarefulRun(net: Network, steps: seq<Step>)
    decreases |steps|
  {
    steps == [] || ((Writes(net, steps[0]) ==> Careful(net, steps[0])) && CarefulRun(Take(net, steps[0]), steps[1..]))
  }

  /** No affiliation names a merged party at any time of a run. */
  ghost predicate LiveThroughout(net: Network, steps: seq<Step>)
    decreases |steps|
  {
    NamesLive(net) && (steps == [] || LiveThroughout(Take(net, steps[0]), steps[1..]))
  }

  /** Over any run, merges included, no affiliation ever names a merged party if and only if none is entered
      with one. */
  lemma {:induction false} LiveOverRuns(net: Network, steps: seq<Step>)
    requires Inv(net) && NamesLive(net)
    ensures LiveThroughout(net, steps) <==> CarefulRun(net, steps)
    decreases |steps|
  {
    if steps != [] {
      var next := Take(net, steps[0]);
      LiveUnlessEntered(net, steps[0]);
      TakeKeeps(net, steps[0]);
      if NamesLive(next) {
        LiveOverRuns(next, steps[1..]);
      } else {
        assert !LiveThroughout(next, steps[1..]);
      }
    }
  }

  // ---- a run that enters one

  const PERSON := Entry(Individual, Active, false, None)
  const COMPANY := Entry(Kind.Organisation, Active, false, None)
  const ABSORBED := Entry(Kind.Organisation, Merged, true, Some(2))
  const EMPLOYMENT := Affiliation(0, 1, true, false, "", "", "", [])

  /** An individual 0 and two organisations, 1 merged into 2. */
  const MERGING := [
    Service(OpCreate(0, Individual, Active)), Service(OpCreate(1, Kind.Organisation, Active)),
    Service(OpCreate(2, Kind.Organisation, Active)), Service(OpMerge(1, 2, true))]

  lemma {:induction false} Absorbed()
    ensures Run(NOTHING, MERGING).register.parties == map[0 := PERSON, 1 := ABSORBED, 2 := COMPANY]
    ensures Run(NOTHING, MERGING).table == []
  {
    var one := Take(NOTHING, MERGING[0]);
    var two := Take(one, MERGING[1]);
    var three := Take(two, MERGING[2]);
    assert three.register.parties == map[0 := PERSON, 1 := COMPANY, 2 := COMPANY];
    assert MERGING[1..][1..] == MERGING[2..] && MERGING[2..][1..] == MERGING[3..];
    assert Run(NOTHING, MERGING) == Run(three, MERGING[3..]);
    assert MERGING[3..][1..] == [];
    assert Run(three, MERGING[3..]) == Take(three, MERGING[3]);
  }

  lemma {:induction false} EmploymentEnters(net: Network)
    requires net.table == [] && net.register.parties == map[0 := PERSON, 1 := ABSORBED, 2 := COMPANY]
    ensures NamesLive(net) && Writes(net, Affiliate(EMPLOYMENT)) && !Careful(net, Affiliate(EMPLOYMENT))
  {
    assert Suits(net.register.parties, EMPLOYMENT);
  }

  /** A run that enters an affiliation with a merged party: it names live parties until its last step, which
      affiliates the individual with the organisation that was merged away. */
  lemma {:induction false} MergedIsEntered()
    ensures NamesLive(Run(NOTHING, MERGING))
    ensures !NamesLive(Take(Run(NOTHING, MERGING), Affiliate(EMPLOYMENT)))
  {
    hide Run, Take, Inv, NamesLive, Writes, Careful;
    Absorbed();
    Reachable(MERGING);
    EmploymentEnters(Run(NOTHING, MERGING));
    LiveUnlessEntered(Run(NOTHING, MERGING), Affiliate(EMPLOYMENT));
  }
}
