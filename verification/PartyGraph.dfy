/** The register of parties over whole runs: status, archive, deletion and merging, with the merge records and
    status history that protect it. */
module PartyGraph {
  import opened Options

  type Id = nat

  datatype Kind = Individual | Organisation | TradingName
  datatype Status = Active | Inactive | Suspended | Blocked | Merged
  datatype Entry = Entry(kind: Kind, status: Status, archived: bool, mergedInto: Option<Id>)
  datatype MergeRecord = MergeRecord(source: Id, target: Id)
  datatype Change = Change(party: Id, previous: Status, next: Status)
  datatype Register = Register(parties: map<Id, Entry>, merges: seq<MergeRecord>, history: seq<Change>)
  datatype Error = Invalid | Conflict | Forbidden | Missing | Protected

  // ---- operations

  function CreateError(r: Register, id: Id, status: Status): Option<Error> {
    if id in r.parties || status == Merged then Some(Invalid) else None
  }

  function Create(r: Register, id: Id, kind: Kind, status: Status): Register {
    if CreateError(r, id, status).Some? then r
    else r.(parties := r.parties[id := Entry(kind, status, false, None)])
  }

  function StatusError(r: Register, id: Id, status: Status, reasoned: bool): Option<Error> {
    if !reasoned || status == Merged then Some(Invalid)
    else if id !in r.parties then Some(Missing)
    else if r.parties[id].status == Merged then Some(Conflict)
    else None
  }

  function ChangeStatus(r: Register, id: Id, status: Status, reasoned: bool): Register {
    if StatusError(r, id, status, reasoned).Some? || r.parties[id].status == status then r
    else r.(parties := r.parties[id := r.parties[id].(status := status)],
            history := r.history + [Change(id, r.parties[id].status, status)])
  }

  function ArchiveError(r: Register, id: Id, reasoned: bool): Option<Error> {
    if !reasoned then Some(Invalid)
    else if id !in r.parties then Some(Missing)
    else if r.parties[id].status == Merged then Some(Conflict)
    else None
  }

  function SetArchived(r: Register, id: Id, archived: bool, reasoned: bool): Register {
    if ArchiveError(r, id, reasoned).Some? then r
    else r.(parties := r.parties[id := r.parties[id].(archived := archived)])
  }

  /** Rows of the register that refuse the deletion of a party. */
  predicate Held(r: Register, id: Id) {
    || (exists p :: p in r.parties && p != id && r.parties[p].mergedInto == Some(id))
    || (exists i :: 0 <= i < |r.merges| && (r.merges[i].source == id || r.merges[i].target == id))
    || (exists i :: 0 <= i < |r.history| && r.history[i].party == id)
  }

  /** `referenced` says that a business record names the party, `held` that another protected child does. */
  function DeleteError(r: Register, id: Id, superuser: bool, referenced: bool, held: bool): Option<Error> {
    if !superuser then Some(Forbidden)
    else if id !in r.parties then Some(Missing)
    else if referenced then Some(Conflict)
    else if held || Held(r, id) then Some(Protected)
    else None
  }

  function Delete(r: Register, id: Id, superuser: bool, referenced: bool, held: bool): Register {
    if DeleteError(r, id, superuser, referenced, held).Some? then r else r.(parties := r.parties - {id})
  }

  predicate Compatible(a: Kind, b: Kind) {
    a == b || (a != Individual && b != Individual)
  }

  function MergeError(r: Register, source: Id, target: Id, reasoned: bool): Option<Error> {
    if !reasoned || source !in r.parties || target !in r.parties || source == target then Some(Invalid)
    else if r.parties[source].status == Merged || r.parties[target].status == Merged || r.parties[target].archived
    then Some(Conflict)
    else if !Compatible(r.parties[source].kind, r.parties[target].kind) then Some(Invalid)
    else None
  }

  function Merge(r: Register, source: Id, target: Id, reasoned: bool): Register {
    if MergeError(r, source, target, reasoned).Some? then r
    else
      var tombstone := r.parties[source].(status := Merged, mergedInto := Some(target), archived := true);
      Register(r.parties[source := tombstone],
               r.merges + [MergeRecord(source, target)],
               r.history + [Change(source, r.parties[source].status, Merged)])
  }

  /** The kind of a party may change while it has no profile and no affiliation. */
  function Reclassify(r: Register, id: Id, kind: Kind, free: bool): Register {
    if id !in r.parties || !free then r else r.(parties := r.parties[id := r.parties[id].(kind := kind)])
  }

  datatype Op =
    | OpCreate(id: Id, kind: Kind, status: Status)
    | OpStatus(id: Id, status: Status, reasoned: bool)
    | OpArchive(id: Id, archived: bool, reasoned: bool)
    | OpDelete(id: Id, superuser: bool, referenced: bool, held: bool)
    | OpMerge(source: Id, target: Id, reasoned: bool)
    | OpReclassify(id: Id, kind: Kind, free: bool)

  function Apply(r: Register, op: Op): Register {
    match op
    case OpCreate(id, kind, status) => Create(r, id, kind, status)
    case OpStatus(id, status, reasoned) => ChangeStatus(r, id, status, reasoned)
    case OpArchive(id, archived, reasoned) => SetArchived(r, id, archived, reasoned)
    case OpDelete(id, superuser, referenced, held) => Delete(r, id, superuser, referenced, held)
    case OpMerge(source, target, reasoned) => Merge(r, source, target, reasoned)
    case OpReclassify(id, kind, free) => Reclassify(r, id, kind, free)
  }

  function Run(r: Register, ops: seq<Op>): Register
    decreases |ops|
  {
    if ops == [] then r else Run(Apply(r, ops[0]), ops[1..])
  }

  const EMPTY := Register(map[], [], [])

  // ---- invariant

  ghost predicate Tombstones(r: Register) {
    forall p | p in r.parties ::
      && (r.parties[p].status == Merged <==> r.parties[p].mergedInto.Some?)
      && (r.parties[p].status == Merged ==> r.parties[p].archived && HasRecord(r.merges, p))
  }

  predicate HasRecord(merges: seq<MergeRecord>, p: Id) {
    exists i :: 0 <= i < |merges| && merges[i].source == p
  }

  /** Each record stands for one merged party and names the target that the party points at; whatever was
      merged into a party was merged before that party itself was. */
  ghost predicate Records(r: Register) {
    && (forall i | 0 <= i < |r.merges| ::
          && r.merges[i].source in r.parties && r.merges[i].target in r.parties
          && r.parties[r.merges[i].source].mergedInto == Some(r.merges[i].target))
    && (forall i, j | 0 <= i < j < |r.merges| :: r.merges[i].source != r.merges[j].source)
    && (forall i, j | 0 <= i < |r.merges| && 0 <= j < |r.merges| && r.merges[i].target == r.merges[j].source :: i < j)
  }

  /** The changes of one party, oldest first. */
  function ChangesOf(history: seq<Change>, p: Id): seq<Change> {
    if history == [] then []
    else ChangesOf(history[..|history| - 1], p)
         + (if history[|history| - 1].party == p then [history[|history| - 1]] else [])
  }

  /** Each change of a party starts where the one before it ended, and the last ended at its status. */
  ghost predicate HistoryOf(changes: seq<Change>, status: Status) {
    && (forall k | 0 < k < |changes| :: changes[k].previous == changes[k - 1].next)
    && (forall k | 0 <= k < |changes| :: changes[k].previous != Merged && changes[k].previous != changes[k].next)
    && (changes != [] ==> changes[|changes| - 1].next == status)
  }

  ghost predicate History(r: Register) {
    && (forall i | 0 <= i < |r.history| :: r.history[i].party in r.parties)
    && (forall p | p in r.parties :: HistoryOf(ChangesOf(r.history, p), r.parties[p].status))
  }

  ghost predicate Inv(r: Register) {
    Tombstones(r) && Records(r) && History(r)
  }

  lemma {:induction false} MergeKeepsRecords(r: Register, source: Id, target: Id, reasoned: bool)
    requires Tombstones(r) && Records(r)
    ensures Tombstones(Merge(r, source, target, reasoned)) && Records(Merge(r, source, target, reasoned))
  {
    if MergeError(r, source, target, reasoned).None? {
      var next := Merge(r, source, target, reasoned);
      var n := |r.merges|;
      assert next.merges[n] == MergeRecord(source, target);
      forall i | 0 <= i < n ensures r.merges[i].source != source && r.merges[i].source != target {
        assert r.parties[r.merges[i].source].status == Merged;
      }
      forall p | p in next.parties && next.parties[p].status == Merged ensures HasRecord(next.merges, p) {
        if p != source {
          var i :| 0 <= i < n && r.merges[i].source == p;
          assert next.merges[i].source == p;
        }
      }
    }
  }

  lemma {:induction false} ApplyKeepsRecords(r: Register, op: Op)
    requires Tombstones(r) && Records(r)
    ensures Tombstones(Apply(r, op)) && Records(Apply(r, op))
  {
    match op
    case OpMerge(source, target, reasoned) => MergeKeepsRecords(r, source, target, reasoned);
    case OpDelete(id, superuser, referenced, held) =>
      var next := Apply(r, op);
      if next != r {
        assert !Held(r, id);
      }
    case _ =>
  }

  lemma {:induction false} ChangesAppend(history: seq<Change>, change: Change, p: Id)
    ensures ChangesOf(history + [change], p) == ChangesOf(history, p) + (if change.party == p then [change] else [])
  {
    assert (history + [change])[..|history|] == history;
  }

  lemma {:induction false} NoChanges(history: seq<Change>, p: Id)
    requires forall i | 0 <= i < |history| :: history[i].party != p
    ensures ChangesOf(history, p) == []
    decreases |history|
  {
    if history != [] {
      NoChanges(history[..|history| - 1], p);
    }
  }

  lemma {:induction false} ChainExtends(changes: seq<Change>, id: Id, previous: Status, next: Status)
    requires HistoryOf(changes, previous) && previous != Merged && previous != next
    ensures HistoryOf(changes + [Change(id, previous, next)], next)
  {
  }

  lemma {:induction false} RecordedKeepsHistory(r: Register, next: Register, id: Id)
    requires History(r) && id in r.parties && id in next.parties && next.parties.Keys == r.parties.Keys
    requires next.history == r.history + [Change(id, r.parties[id].status, next.parties[id].status)]
    requires r.parties[id].status != Merged && r.parties[id].status != next.parties[id].status
    requires forall p | p in r.parties && p != id :: next.parties[p].status == r.parties[p].status
    ensures History(next)
  {
    forall p | p in next.parties ensures HistoryOf(ChangesOf(next.history, p), next.parties[p].status) {
      ChangesAppend(r.history, Change(id, r.parties[id].status, next.parties[id].status), p);
      assert HistoryOf(ChangesOf(r.history, p), r.parties[p].status);
      if p == id {
        ChainExtends(ChangesOf(r.history, id), id, r.parties[id].status, next.parties[id].status);
      } else {
        assert ChangesOf(next.history, p) == ChangesOf(r.history, p);
      }
    }
  }

  lemma {:induction false} CreateKeepsHistory(r: Register, id: Id, kind: Kind, status: Status)
    requires History(r)
    ensures History(Create(r, id, kind, status))
  {
    if CreateError(r, id, status).None? {
      NoChanges(r.history, id);
    }
  }

  lemma {:induction false} ApplyKeepsHistory(r: Register, op: Op)
    requires History(r)
    ensures History(Apply(r, op))
  {
    var next := Apply(r, op);
    match op
    case OpCreate(id, kind, status) => CreateKeepsHistory(r, id, kind, status);
    case OpStatus(id, status, reasoned) =>
      if next != r {
        RecordedKeepsHistory(r, next, id);
      }
    case OpMerge(source, target, reasoned) =>
      if next != r {
        RecordedKeepsHistory(r, next, source);
      }
    case OpDelete(id, superuser, referenced, held) =>
      if next != r {
        assert !Held(r, id);
      }
    case _ =>
  }

  lemma {:induction false} RunKeeps(r: Register, ops: seq<Op>)
    requires Inv(r)
    ensures Inv(Run(r, ops))
    decreases |ops|
  {
    if ops != [] {
      ApplyKeepsRecords(r, ops[0]);
      ApplyKeepsHistory(r, ops[0]);
      RunKeeps(Apply(r, ops[0]), ops[1..]);
    }
  }

  /** In every register that the operations can produce: MERGED and merged_into go together, merged parties
      are archived, each has exactly one merge record and it names the party's target, and the status
      history of a party is one unbroken chain that ends at its status. */
  lemma {:induction false} Reachable(ops: seq<Op>)
    ensures Inv(Run(EMPTY, ops))
  {
    RunKeeps(EMPTY, ops);
  }

  // ---- survivors

  function RecordOf(r: Register, p: Id): (i: nat)
    requires Tombstones(r) && p in r.parties && r.parties[p].status == Merged
    ensures i < |r.merges| && r.merges[i].source == p
  {
    FirstRecord(r.merges, p)
  }

  function FirstRecord(merges: seq<MergeRecord>, p: Id): (i: nat)
    requires HasRecord(merges, p)
    ensures i < |merges| && merges[i].source == p
  {
    if merges[0].source == p then 0
    else
      assert HasRecord(merges[1..], p) by {
        var i :| 0 <= i < |merges| && merges[i].source == p;
        assert merges[1..][i - 1].source == p;
      }
      1 + FirstRecord(merges[1..], p)
  }

  /** Where the chain of merges from a party ends. Each step goes to a later merge record. */
  ghost function Survivor(r: Register, p: Id): (s: Id)
    requires Tombstones(r) && Records(r) && p in r.parties
    ensures s in r.parties && r.parties[s].status != Merged && r.parties[s].mergedInto == None
    decreases if r.parties[p].status == Merged then |r.merges| - RecordOf(r, p) else 0
  {
    if r.parties[p].status != Merged then p
    else
      var k := RecordOf(r, p);
      assert r.merges[k].target in r.parties && r.parties[p].mergedInto == Some(r.merges[k].target);
      Survivor(r, r.parties[p].mergedInto.value)
  }

  ghost predicate Path(r: Register, path: seq<Id>) {
    && path != []
    && (forall k | 0 <= k < |path| :: path[k] in r.parties)
    && (forall k | 0 <= k < |path| - 1 :: r.parties[path[k]].mergedInto == Some(path[k + 1]))
  }

  lemma {:induction false} PathRecords(r: Register, path: seq<Id>, j: nat, k: nat)
    requires Tombstones(r) && Records(r) && Path(r, path) && j < k < |path|
    ensures r.parties[path[j]].status == Merged
    ensures r.parties[path[k]].status == Merged ==> RecordOf(r, path[j]) < RecordOf(r, path[k])
    decreases k - j
  {
    assert r.parties[path[j]].mergedInto == Some(path[j + 1]);
    if k > j + 1 {
      PathRecords(r, path, j + 1, k);
    }
  }

  /** No party is met twice on a path of merges, every party on it has the same survivor, and a path that
      cannot be continued ends at that survivor. */
  lemma {:induction false} PathsLeadToTheSurvivor(r: Register, path: seq<Id>)
    requires Tombstones(r) && Records(r) && Path(r, path)
    ensures forall j, k | 0 <= j < k < |path| :: path[j] != path[k]
    ensures forall k | 0 <= k < |path| :: Survivor(r, path[k]) == Survivor(r, path[0])
    ensures r.parties[path[|path| - 1]].mergedInto.None? ==> path[|path| - 1] == Survivor(r, path[0])
    decreases |path|
  {
    forall j, k | 0 <= j < k < |path| ensures path[j] != path[k] {
      PathRecords(r, path, j, k);
    }
    if |path| > 1 {
      var rest := path[1..];
      forall k | 0 <= k < |rest| - 1 ensures r.parties[rest[k]].mergedInto == Some(rest[k + 1]) {
        assert rest[k] == path[k + 1] && rest[k + 1] == path[k + 2];
      }
      PathsLeadToTheSurvivor(r, rest);
      PathRecords(r, path, 0, 1);
      assert Survivor(r, path[0]) == Survivor(r, path[1]) && rest[0] == path[1];
      forall k | 0 <= k < |path| ensures Survivor(r, path[k]) == Survivor(r, path[0]) {
        assert k > 0 ==> path[k] == rest[k - 1];
      }
    }
  }

  /** A merge redirects exactly the parties that led to its source. */
  lemma {:induction false} MergeRedirects(r: Register, source: Id, target: Id, reasoned: bool, p: Id)
    requires Tombstones(r) && Records(r) && MergeError(r, source, target, reasoned).None? && p in r.parties
    ensures var next := Merge(r, source, target, reasoned);
            && Tombstones(next) && Records(next)
            && Survivor(next, p) == if Survivor(r, p) == source then target else Survivor(r, p)
    decreases if r.parties[p].status == Merged then |r.merges| - RecordOf(r, p) else 0
  {
    MergeKeepsRecords(r, source, target, reasoned);
    var next := Merge(r, source, target, reasoned);
    if p == source {
      assert Survivor(next, source) == Survivor(next, target);
    } else if r.parties[p].status == Merged {
      var k := RecordOf(r, p);
      assert r.parties[p].mergedInto == Some(r.merges[k].target);
      MergeRedirects(r, source, target, reasoned, r.merges[k].target);
    }
  }

  /** No operation but a merge changes where a party leads. */
  lemma {:induction false} OthersKeepSurvivors(r: Register, op: Op, p: Id)
    requires Tombstones(r) && Records(r) && !op.OpMerge? && p in r.parties && p in Apply(r, op).parties
    ensures Tombstones(Apply(r, op)) && Records(Apply(r, op)) && Survivor(Apply(r, op), p) == Survivor(r, p)
    decreases if r.parties[p].status == Merged then |r.merges| - RecordOf(r, p) else 0
  {
    ApplyKeepsRecords(r, op);
    var next := Apply(r, op);
    if r.parties[p].status == Merged {
      var k := RecordOf(r, p);
      var q := r.merges[k].target;
      assert r.parties[p].mergedInto == Some(q);
      if op.OpDelete? && next != r {
        assert !Held(r, op.id);
      }
      assert next.parties[p].mergedInto == Some(q);
      OthersKeepSurvivors(r, op, q);
    }
  }

  // ---- over runs

  /** A tombstone: merged, archived and pointing at its target. */
  ghost predicate Tombstone(r: Register, p: Id, target: Id) {
    p in r.parties && r.parties[p].status == Merged && r.parties[p].archived && r.parties[p].mergedInto == Some(target)
  }

  lemma {:induction false} TombstoneStays(r: Register, op: Op, p: Id, target: Id)
    requires Tombstones(r) && Records(r) && Tombstone(r, p, target)
    ensures Tombstone(Apply(r, op), p, target) && r.merges <= Apply(r, op).merges
  {
    if op.OpDelete? && Apply(r, op) != r {
      assert !Held(r, op.id) && HasRecord(r.merges, p);
    }
  }

  /** MERGED is final: over any run a merged party keeps its status, its archive mark and its target, and is not
      deleted. Its kind may still change; see `PartyKinds`. */
  lemma {:induction false} MergedForever(r: Register, ops: seq<Op>, p: Id, target: Id)
    requires Tombstones(r) && Records(r) && Tombstone(r, p, target)
    ensures Tombstone(Run(r, ops), p, target) && r.merges <= Run(r, ops).merges
    decreases |ops|
  {
    if ops != [] {
      TombstoneStays(r, ops[0], p, target);
      ApplyKeepsRecords(r, ops[0]);
      MergedForever(Apply(r, ops[0]), ops[1..], p, target);
    }
  }

  /** Two different parties with one survivor. */
  ghost predicate Together(r: Register, p: Id, q: Id) {
    Tombstones(r) && Records(r) && p in r.parties && q in r.parties && p != q && Survivor(r, p) == Survivor(r, q)
  }

  /** A party that others lead to cannot be deleted. */
  lemma {:induction false} SurvivorHeld(r: Register, p: Id)
    requires Tombstones(r) && Records(r) && p in r.parties && Survivor(r, p) != p
    ensures Held(r, p) && Held(r, Survivor(r, p))
    decreases if r.parties[p].status == Merged then |r.merges| - RecordOf(r, p) else 0
  {
    var k := RecordOf(r, p);
    var q := r.merges[k].target;
    assert r.parties[p].mergedInto == Some(q);
    if Survivor(r, q) != q {
      SurvivorHeld(r, q);
    }
  }

  lemma {:induction false} TogetherStep(r: Register, op: Op, p: Id, q: Id)
    requires Together(r, p, q)
    ensures Together(Apply(r, op), p, q)
  {
    ApplyKeepsRecords(r, op);
    if op.OpMerge? {
      if MergeError(r, op.source, op.target, op.reasoned).None? {
        MergeRedirects(r, op.source, op.target, op.reasoned, p);
        MergeRedirects(r, op.source, op.target, op.reasoned, q);
      }
    } else {
      if Survivor(r, p) != p {
        SurvivorHeld(r, p);
      }
      if Survivor(r, q) != q {
        SurvivorHeld(r, q);
      }
      OthersKeepSurvivors(r, op, p);
      OthersKeepSurvivors(r, op, q);
    }
  }

  /** Parties that lead to one survivor are never separated and never deleted. */
  lemma {:induction false} TogetherForever(r: Register, ops: seq<Op>, p: Id, q: Id)
    requires Together(r, p, q)
    ensures Together(Run(r, ops), p, q)
    decreases |ops|
  {
    if ops != [] {
      TogetherStep(r, ops[0], p, q);
      TogetherForever(Apply(r, ops[0]), ops[1..], p, q);
    }
  }

  // ---- census

  function Live(r: Register): set<Id> {
    set p | p in r.parties && r.parties[p].status != Merged
  }

  function Sources(merges: seq<MergeRecord>): set<Id> {
    set i | 0 <= i < |merges| :: merges[i].source
  }

  lemma {:induction false} SourcesCount(merges: seq<MergeRecord>)
    requires forall i, j | 0 <= i < j < |merges| :: merges[i].source != merges[j].source
    ensures |Sources(merges)| == |merges|
    decreases |merges|
  {
    if merges != [] {
      var n := |merges| - 1;
      SourcesCount(merges[..n]);
      assert Sources(merges) == Sources(merges[..n]) + {merges[n].source};
    }
  }

  /** Live parties and merge records together account for every party. */
  lemma {:induction false} Census(r: Register)
    requires Tombstones(r) && Records(r)
    ensures |Live(r)| + |r.merges| == |r.parties|
  {
    SourcesCount(r.merges);
    forall p | p in r.parties && r.parties[p].status == Merged ensures p in Sources(r.merges) {
      var k := RecordOf(r, p);
      assert r.merges[k].source == p;
    }
    assert r.parties.Keys == Live(r) + Sources(r.merges);
  }
}
