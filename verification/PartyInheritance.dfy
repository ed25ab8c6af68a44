/** What the merged records of a party amount to over whole runs: the survivor holds what was stated of the
    parties that lead to it. */
module PartyInheritance {
  import opened PartyGraph
  import opened PartyContacts
  import opened PartyPlaces
  import PartyMerge

  datatype Belongings =
    Belongings(roles: seq<Role>, contacts: seq<Contact>, addresses: seq<Place>, sources: seq<Place>)

  const NONE := Belongings([], [], [], [])

  /** Addresses and provenance sources, which move alike. */
  datatype Shelf = Addresses | Sources

  /** Something a party can hold: a role, an active role, a mark on a contact method, a primary of some kind,
      an address or a source, a primary one of some slot. */
  datatype Key =
    | RoleKey(role: string, active: bool)
    | ContactKey(kind: string, value: string, mark: Mark)
    | LeadKey(kind: string)
    | PlaceKey(shelf: Shelf, slot: string, active: bool, detail: string)
    | SlotKey(shelf: Shelf, slot: string)

  function Shelved(b: Belongings, shelf: Shelf): seq<Place> {
    if shelf == Addresses then b.addresses else b.sources
  }

  /** A row of that slot and detail, primary or not. */
  predicate Placed(rows: seq<Place>, slot: string, active: bool, detail: string) {
    exists i :: 0 <= i < |rows| && rows[i].slot == slot && rows[i].active == active && rows[i].detail == detail
  }

  ghost predicate Holds(b: Belongings, key: Key) {
    match key
    case RoleKey(role, active) => if active then ActiveRole(b.roles, role) else HasRole(b.roles, role)
    case ContactKey(kind, value, mark) => Marked(b.contacts, kind, value, mark)
    case LeadKey(kind) => HasPrimary(b.contacts, kind)
    case PlaceKey(shelf, slot, active, detail) => Placed(Shelved(b, shelf), slot, active, detail)
    case SlotKey(shelf, slot) => Led(Shelved(b, shelf), slot)
  }

  ghost predicate Proper(b: Belongings) {
    && OnePerRole(b.roles) && ContactsValid(b.contacts)
    && PlacesValid(b.addresses) && PartyMerge.SourcesValid(b.sources)
  }

  function Fold(source: Belongings, target: Belongings, tidy: string -> string): Belongings {
    Belongings(MergeRoles(source.roles, target.roles, tidy), MergeContacts(source.contacts, target.contacts),
               MovePlaces(source.addresses, target.addresses), MovePlaces(source.sources, target.sources))
  }

  lemma {:induction false} MovedPlaced(source: seq<Place>, target: seq<Place>, slot: string, active: bool,
      detail: string)
    requires PlacesValid(source) && PlacesValid(target)
    ensures Placed(MovePlaces(source, target), slot, active, detail)
       <==> Placed(source, slot, active, detail) || Placed(target, slot, active, detail)
  {
    MovedPlaces(source, target);
    var moved := MovePlaces(source, target);
    assert forall i | 0 <= i < |target| :: moved[i] == target[i];
    assert forall i | 0 <= i < |source| :: moved[|target| + i] == Arrived(source[i], target);
    if Placed(moved, slot, active, detail) {
      var i :| 0 <= i < |moved| && moved[i].slot == slot && moved[i].active == active && moved[i].detail == detail;
      assert i >= |target| ==> moved[i] == Arrived(source[i - |target|], target);
    }
  }

  /** The target of a merge holds exactly what either party held. */
  lemma {:induction false} FoldHolds(source: Belongings, target: Belongings, tidy: string -> string, key: Key)
    requires Proper(source) && Proper(target)
    ensures Proper(Fold(source, target, tidy))
    ensures Holds(Fold(source, target, tidy), key) <==> Holds(source, key) || Holds(target, key)
  {
    PartyMerge.RecordsKept(tidy, source.roles, target.roles, source.contacts, target.contacts,
                           source.addresses, target.addresses, source.sources, target.sources);
    match key
    case RoleKey(role, _) => MergedRoles(source.roles, target.roles, tidy, role);
    case ContactKey(kind, value, mark) => MergedMarks(source.contacts, target.contacts, kind, value, mark);
    case LeadKey(kind) => MergedContacts(source.contacts, target.contacts, kind);
    case PlaceKey(shelf, slot, active, detail) =>
      MovedPlaced(Shelved(source, shelf), Shelved(target, shelf), slot, active, detail);
    case SlotKey(shelf, slot) => PlacesKept(Shelved(source, shelf), Shelved(target, shelf), slot);
  }

  lemma {:induction false} NoneHolds(key: Key)
    ensures Proper(NONE) && !Holds(NONE, key)
  {
  }

  // ---- the register, what each party holds, and what was stated of whom

  datatype Claim = Claim(party: Id, key: Key)
  ghost predicate Stands(r: Register) { Tombstones(r) && PartyGraph.Records(r) }

  datatype Estate = Estate(register: Register, kept: map<Id, Belongings>, claims: iset<Claim>)
  datatype Step = Serve(op: Op) | Put(id: Id, belongings: Belongings)

  ghost predicate LeadsTo(r: Register, q: Id, p: Id) {
    Stands(r) && q in r.parties && Survivor(r, q) == p
  }

  /** The records of the parties after a service: a merge folds them, a deleted party takes its own along. */
  function KeptAfter(r: Register, kept: map<Id, Belongings>, op: Op, tidy: string -> string): map<Id, Belongings>
    requires kept.Keys == r.parties.Keys
  {
    match op
    case OpMerge(source, target, reasoned) =>
      if MergeError(r, source, target, reasoned).Some? then kept
      else kept[target := Fold(kept[source], kept[target], tidy)][source := NONE]
    case OpCreate(id, kind, status) => if CreateError(r, id, status).Some? then kept else kept[id := NONE]
    case OpDelete(id, superuser, referenced, held) =>
      if DeleteError(r, id, superuser, referenced, held).Some? then kept else kept - {id}
    case _ => kept
  }

  /** The records are those of the registered parties. */
  ghost predicate Paired(e: Estate) {
    e.kept.Keys == e.register.parties.Keys
  }

  ghost function Take(e: Estate, step: Step, tidy: string -> string): (next: Estate)
    requires Paired(e)
    ensures Paired(next)
  {
    match step
    case Serve(op) =>
      var next := Apply(e.register, op);
      Estate(next, KeptAfter(e.register, e.kept, op, tidy), iset c | c in e.claims && c.party in next.parties)
    case Put(id, belongings) =>
      if id !in e.register.parties || !Proper(belongings) then e
      else if e.register.parties[id].status == Merged then e.(kept := e.kept[id := belongings])
      else Estate(e.register, e.kept[id := belongings], Restated(e, id, belongings))
  }

  /** What is stated of a party replaces what was stated of the parties that lead to it. */
  ghost function Restated(e: Estate, id: Id, belongings: Belongings): iset<Claim> {
    (iset c | c in e.claims && !LeadsTo(e.register, c.party, id))
    + (iset key: Key | Holds(belongings, key) :: Claim(id, key))
  }

  ghost predicate Claimed(e: Estate, p: Id, key: Key) {
    exists q :: Claim(q, key) in e.claims && LeadsTo(e.register, q, p)
  }

  ghost predicate Kept(kept: map<Id, Belongings>) {
    forall p | p in kept :: Proper(kept[p])
  }

  /** A party that is not merged away holds what is claimed by the parties that lead to it. */
  ghost predicate Inherits(e: Estate) {
    forall p, key | p in e.kept && p in e.register.parties && e.register.parties[p].status != Merged ::
      Holds(e.kept[p], key) <==> Claimed(e, p, key)
  }

  ghost predicate Inv(e: Estate) {
    && Stands(e.register) && Paired(e) && Kept(e.kept)
    && (forall c | c in e.claims :: c.party in e.register.parties)
    && Inherits(e)
  }

  // ---- steps

  lemma {:induction false} MergeLeads(r: Register, source: Id, target: Id, reasoned: bool, q: Id, p: Id)
    requires Stands(r) && MergeError(r, source, target, reasoned).None? && q in r.parties && p != source
    ensures LeadsTo(Merge(r, source, target, reasoned), q, p)
       <==> LeadsTo(r, q, p) || (p == target && LeadsTo(r, q, source))
  {
    MergeRedirects(r, source, target, reasoned, q);
  }

  /** The same claims lead to a party after a merge, or those of the source as well if it is the target. */
  lemma {:induction false} MergeClaims(e: Estate, source: Id, target: Id, reasoned: bool, tidy: string -> string, p: Id,
      key: Key)
    requires Inv(e) && MergeError(e.register, source, target, reasoned).None?
    requires p in e.register.parties && p != source
    ensures var next := Take(e, Serve(OpMerge(source, target, reasoned)), tidy);
            Claimed(next, p, key) <==> Claimed(e, p, key) || (p == target && Claimed(e, source, key))
  {
    hide LeadsTo, Inherits, Kept, KeptAfter, Stands;
    var r, next := e.register, Take(e, Serve(OpMerge(source, target, reasoned)), tidy);
    assert next.register == Merge(r, source, target, reasoned) && next.claims == e.claims;
    assert Stands(r) && forall c | c in e.claims :: c.party in r.parties;
    forall q | q in r.parties
      ensures LeadsTo(next.register, q, p) <==> LeadsTo(r, q, p) || (p == target && LeadsTo(r, q, source))
    {
      MergeLeads(r, source, target, reasoned, q, p);
    }
  }

  lemma {:induction false} MergeKept(e: Estate, source: Id, target: Id, reasoned: bool, tidy: string -> string, p: Id)
    requires Paired(e) && MergeError(e.register, source, target, reasoned).None? && p in e.kept && p != source
    ensures var next := Take(e, Serve(OpMerge(source, target, reasoned)), tidy);
            && p in next.kept
            && next.kept[p] == if p == target then Fold(e.kept[source], e.kept[target], tidy) else e.kept[p]
  {
  }

  /** A merge leaves each live party with what leads to it. */
  lemma {:induction false} MergeInherits(e: Estate, source: Id, target: Id, reasoned: bool, tidy: string -> string,
      p: Id, key: Key)
    requires Inv(e) && MergeError(e.register, source, target, reasoned).None?
    requires p in e.register.parties && p != source && e.register.parties[p].status != Merged
    ensures var next := Take(e, Serve(OpMerge(source, target, reasoned)), tidy);
            p in next.kept && (Holds(next.kept[p], key) <==> Claimed(next, p, key))
  {
    assert Holds(e.kept[p], key) <==> Claimed(e, p, key);
    assert Holds(e.kept[source], key) <==> Claimed(e, source, key);
    assert Proper(e.kept[source]) && Proper(e.kept[target]);
    hide Holds, Claimed, Fold, Inv, Take, Proper;
    MergeClaims(e, source, target, reasoned, tidy, p, key);
    FoldHolds(e.kept[source], e.kept[target], tidy, key);
    MergeKept(e, source, target, reasoned, tidy, p);
  }

  /** A party is not deleted while the one it leads to stays. */
  lemma {:induction false} StaysRegistered(r: Register, op: Op, q: Id, p: Id)
    requires Stands(r) && LeadsTo(r, q, p) && !op.OpMerge? && p in Apply(r, op).parties
    ensures q in Apply(r, op).parties
  {
    if q != p {
      SurvivorHeld(r, q);
    }
  }

  lemma {:induction false} LeadsAsBefore(r: Register, op: Op, q: Id, p: Id)
    requires Stands(r) && !op.OpMerge? && q in r.parties && p in Apply(r, op).parties
    ensures q in Apply(r, op).parties && LeadsTo(Apply(r, op), q, p) <==> LeadsTo(r, q, p)
  {
    ApplyKeepsRecords(r, op);
    if LeadsTo(r, q, p) {
      StaysRegistered(r, op, q, p);
    }
    if q in Apply(r, op).parties {
      OthersKeepSurvivors(r, op, q);
    }
  }

  lemma {:induction false} OtherClaims(e: Estate, op: Op, tidy: string -> string, p: Id, key: Key)
    requires Inv(e) && !op.OpMerge? && p in e.register.parties && p in Apply(e.register, op).parties
    ensures Claimed(Take(e, Serve(op), tidy), p, key) <==> Claimed(e, p, key)
  {
    hide Inherits, Kept, KeptAfter, Stands, LeadsTo, Apply;
    var r, next := e.register, Take(e, Serve(op), tidy);
    assert Stands(r) && next.register == Apply(r, op) && forall c :: c in e.claims ==> c.party in r.parties;
    assert forall c :: c in next.claims <==> c in e.claims && c.party in next.register.parties;
    forall q | q in r.parties
      ensures q in next.register.parties && LeadsTo(next.register, q, p) <==> LeadsTo(r, q, p)
    {
      LeadsAsBefore(r, op, q, p);
    }
  }

  lemma {:induction false} OtherInherits(e: Estate, op: Op, tidy: string -> string, p: Id, key: Key)
    requires Inv(e) && !op.OpMerge? && p in e.register.parties && e.register.parties[p].status != Merged
    requires p in Apply(e.register, op).parties
    ensures var next := Take(e, Serve(op), tidy);
            p in next.kept && (Holds(next.kept[p], key) <==> Claimed(next, p, key))
  {
    OtherClaims(e, op, tidy, p, key);
    assert Holds(e.kept[p], key) <==> Claimed(e, p, key);
    hide Holds, Claimed, Inherits, Stands;
  }

  lemma {:induction false} PutInherits(e: Estate, id: Id, belongings: Belongings, tidy: string -> string, p: Id,
      key: Key)
    requires Inv(e) && id in e.register.parties && Proper(belongings) && e.register.parties[id].status != Merged
    requires p in e.register.parties && e.register.parties[p].status != Merged
    ensures var next := Take(e, Put(id, belongings), tidy);
            p in next.kept && (Holds(next.kept[p], key) <==> Claimed(next, p, key))
  {
    hide Kept, Proper;
    var next := Take(e, Put(id, belongings), tidy);
    assert LeadsTo(e.register, id, id);
    if p == id {
      assert Holds(belongings, key) ==> Claim(id, key) in next.claims;
      assert Claimed(next, id, key) ==> Holds(belongings, key);
    } else {
      assert forall q | LeadsTo(e.register, q, p) :: Claim(q, key) in next.claims <==> Claim(q, key) in e.claims;
    }
  }

  /** A party made by a step holds nothing, and nothing is claimed of it. */
  lemma {:induction false} NewInherits(e: Estate, op: Op, tidy: string -> string, p: Id, key: Key)
    requires Inv(e) && p !in e.register.parties && p in Apply(e.register, op).parties
    ensures var next := Take(e, Serve(op), tidy);
            p in next.kept && !Holds(next.kept[p], key) && !Claimed(next, p, key)
  {
    var r, next := e.register, Take(e, Serve(op), tidy);
    NoneHolds(key);
    forall q | q in r.parties && q in next.register.parties ensures !LeadsTo(next.register, q, p) {
      ApplyKeepsRecords(r, op);
      OthersKeepSurvivors(r, op, q);
    }
  }

  /** A party that is live after a service was live before it or is new; the source of a merge is not. */
  lemma {:induction false} LiveBefore(r: Register, op: Op, p: Id)
    requires p in Apply(r, op).parties && Apply(r, op).parties[p].status != Merged
    ensures p in r.parties ==> r.parties[p].status != Merged
    ensures op.OpMerge? && MergeError(r, op.source, op.target, op.reasoned).None? ==> p in r.parties && p != op.source
  {
  }

  lemma {:induction false} ServeInherits(e: Estate, op: Op, tidy: string -> string, p: Id, key: Key)
    requires Inv(e) && p in Apply(e.register, op).parties && Apply(e.register, op).parties[p].status != Merged
    ensures var next := Take(e, Serve(op), tidy);
            p in next.kept && (Holds(next.kept[p], key) <==> Claimed(next, p, key))
  {
    LiveBefore(e.register, op, p);
    hide Inherits, Stands, Holds, Claimed;
    if p !in e.register.parties {
      NewInherits(e, op, tidy, p, key);
    } else if !op.OpMerge? {
      OtherInherits(e, op, tidy, p, key);
    } else if MergeError(e.register, op.source, op.target, op.reasoned).None? {
      MergeInherits(e, op.source, op.target, op.reasoned, tidy, p, key);
    } else {
      RefusedInherits(e, op, tidy, p, key);
    }
  }

  lemma {:induction false} RefusedInherits(e: Estate, op: Op, tidy: string -> string, p: Id, key: Key)
    requires Inv(e) && op.OpMerge? && MergeError(e.register, op.source, op.target, op.reasoned).Some?
    requires p in e.register.parties && e.register.parties[p].status != Merged
    ensures var next := Take(e, Serve(op), tidy);
            p in next.kept && (Holds(next.kept[p], key) <==> Claimed(next, p, key))
  {
    assert Take(e, Serve(op), tidy).claims == e.claims;
  }

  lemma {:induction false} ServeKeeps(e: Estate, op: Op, tidy: string -> string)
    requires Inv(e)
    ensures Inv(Take(e, Serve(op), tidy))
  {
    var next := Take(e, Serve(op), tidy);
    ApplyKeepsRecords(e.register, op);
    KeptStays(e, op, tidy);
    forall p, key | p in next.kept && p in next.register.parties && next.register.parties[p].status != Merged
      ensures Holds(next.kept[p], key) <==> Claimed(next, p, key)
    {
      ServeInherits(e, op, tidy, p, key);
    }
    hide Holds, Claimed;
  }

  lemma {:induction false} KeptStays(e: Estate, op: Op, tidy: string -> string)
    requires Inv(e)
    ensures var kept := KeptAfter(e.register, e.kept, op, tidy);
            Kept(kept) && kept.Keys == Apply(e.register, op).parties.Keys
  {
    hide Proper, Holds, Fold, Stands, Inherits;
    if op.OpMerge? && MergeError(e.register, op.source, op.target, op.reasoned).None? {
      FoldHolds(e.kept[op.source], e.kept[op.target], tidy, LeadKey(""));
    }
    NoneHolds(LeadKey(""));
  }

  /** What is stated of a merged party, or not properly, changes no claim. */
  lemma {:induction false} UnheardKeeps(e: Estate, id: Id, belongings: Belongings, tidy: string -> string)
    requires Inv(e)
    requires id !in e.register.parties || !Proper(belongings) || e.register.parties[id].status == Merged
    ensures Inv(Take(e, Put(id, belongings), tidy))
  {
    hide Holds, Proper, Stands;
    var next := Take(e, Put(id, belongings), tidy);
    assert forall p, key :: Claimed(next, p, key) <==> Claimed(e, p, key);
  }

  lemma {:induction false} PutKeeps(e: Estate, id: Id, belongings: Belongings, tidy: string -> string)
    requires Inv(e)
    ensures Inv(Take(e, Put(id, belongings), tidy))
  {
    hide Holds, Claimed, Proper, Stands;
    var next := Take(e, Put(id, belongings), tidy);
    if id in e.register.parties && Proper(belongings) && e.register.parties[id].status != Merged {
      forall p, key | p in next.kept && p in next.register.parties && next.register.parties[p].status != Merged
        ensures Holds(next.kept[p], key) <==> Claimed(next, p, key)
      {
        PutInherits(e, id, belongings, tidy, p, key);
      }
    } else {
      UnheardKeeps(e, id, belongings, tidy);
    }
  }

  // ---- over runs

  lemma {:induction false} TakeKeeps(e: Estate, step: Step, tidy: string -> string)
    requires Inv(e)
    ensures Inv(Take(e, step, tidy))
  {
    match step
    case Serve(op) => ServeKeeps(e, op, tidy);
    case Put(id, belongings) => PutKeeps(e, id, belongings, tidy);
  }

  ghost function Run(e: Estate, steps: seq<Step>, tidy: string -> string): (end: Estate)
    requires Paired(e)
    decreases |steps|
  {
    if steps == [] then e else Run(Take(e, steps[0], tidy), steps[1..], tidy)
  }

  lemma {:induction false} RunKeeps(e: Estate, steps: seq<Step>, tidy: string -> string)
    requires Inv(e)
    ensures Inv(Run(e, steps, tidy))
    decreases |steps|
  {
    hide Stands, Kept, Inherits, Take;
    if steps != [] {
      TakeKeeps(e, steps[0], tidy);
      RunKeeps(Take(e, steps[0], tidy), steps[1..], tidy);
    }
  }

  const UNSTATED := Estate(EMPTY, map[], iset{})

  lemma {:induction false} UnstatedInv()
    ensures Inv(UNSTATED)
  {
  }

  /** After any run of services and of changes to what parties hold, a party that is not merged away has a role,
      an active role, a contact method, a mark on one, a primary of a kind, an address, a provenance source or a
      primary one of a slot exactly when that was stated of some party that leads to it, itself included, and not
      restated since; and every constraint on its rows holds. */
  lemma {:induction false} SurvivorInherits(steps: seq<Step>, tidy: string -> string, p: Id, key: Key)
    requires var r := Run(UNSTATED, steps, tidy).register; p in r.parties && r.parties[p].status != Merged
    ensures var e := Run(UNSTATED, steps, tidy);
            p in e.kept && Proper(e.kept[p]) && (Holds(e.kept[p], key) <==> Claimed(e, p, key))
  {
    UnstatedInv();
    RunKeeps(UNSTATED, steps, tidy);
    assert Inherits(Run(UNSTATED, steps, tidy));
  }
}
