/** The party services as they run: each checks, then updates the rows it locked and appends its history. */
module PartyDirectory {
  import opened Options
  import opened PartyGraph
  import opened PartyAffiliations
  import opened PartyNetwork
  import PartyContacts
  import PartyPlaces
  import PartyMerge
  import PartyRecords

  /** Move the contact roles of an affiliation that is about to go to the one that stays. */
  method MoveAssignments(source: seq<Assignment>, target: seq<Assignment>)
    returns (moved: seq<Assignment>, processed: nat)
    ensures moved == MoveRoles(source, target) && processed == |source|
    ensures UniqueRoles(source) && UniqueRoles(target) ==> UniqueRoles(moved)
  {
    var rest := source;
    moved, processed := target, 0;
    while rest != []
      invariant MoveRoles(rest, moved) == MoveRoles(source, target) && processed + |rest| == |source|
      decreases |rest|
    {
      var assignment := rest[0];
      var k := FindRole(moved, assignment.role);
      if k.None? {
        moved := moved + [assignment];
      } else if assignment.primary && !moved[k.value].primary {
        moved := moved[k.value := moved[k.value].(primary := true)];
      }
      rest := rest[1..];
      processed := processed + 1;
    }
    if UniqueRoles(source) && UniqueRoles(target) {
      MovedRoles(source, target, 0);
    }
  }

  /** Fill what the kept affiliation leaves blank, mark it primary if the other was, and move the roles. */
  method CombineAffiliations(row: Affiliation, target: Affiliation) returns (kept: Affiliation)
    ensures kept == Combine(row, target)
  {
    kept := target;
    if kept.jobTitle == "" && row.jobTitle != "" {
      kept := kept.(jobTitle := row.jobTitle);
    }
    if kept.department == "" && row.department != "" {
      kept := kept.(department := row.department);
    }
    if kept.notes == "" && row.notes != "" {
      kept := kept.(notes := row.notes);
    }
    if row.primaryContact && !kept.primaryContact {
      kept := kept.(primaryContact := true);
    }
    var roles, processed := MoveAssignments(row.roles, kept.roles);
    kept := kept.(roles := roles);
  }

  /** The affiliations of a party that stand among the first `n` rows at an end. */
  function Standing(table: Table, end: End, id: Id, n: nat): nat
    requires n <= |table|
  {
    if n == 0 then 0
    else Standing(table, end, id, n - 1) + if table[n - 1].Some? && Near(table[n - 1].value, end) == id then 1 else 0
  }

  lemma {:induction false} StandingStays(table: Table, end: End, source: Id, target: Id, n: nat, j: nat)
    requires source != target && n <= j < |table|
    ensures var stage := ReassignUpTo(table, end, source, target, n);
            (stage[j].Some? && Near(stage[j].value, end) == source)
                <==> (table[j].Some? && Near(table[j].value, end) == source)
    decreases n
  {
    if n > 0 {
      StandingStays(table, end, source, target, n - 1, j);
    }
  }

  /** What a merge makes of the register and the affiliations. */
  lemma {:induction false} MergeMeans(net: Network, source: Id, target: Id, reasoned: bool)
    ensures var next := Take(net, Service(OpMerge(source, target, reasoned)));
            if MergeError(net.register, source, target, reasoned).Some? then next == net
            else next == Network(PartyGraph.Merge(net.register, source, target, reasoned),
                                 ReassignAll(net.table, EndOf(net.register.parties[source].kind), source, target))
                 && (PartyNetwork.Inv(net) ==> PartyNetwork.Inv(next) && !Affiliated(next.table, source))
  {
    if MergeError(net.register, source, target, reasoned).None? && PartyNetwork.Inv(net) {
      TakeKeeps(net, Service(OpMerge(source, target, reasoned)));
      SourceForgotten(net, source, target, reasoned);
    }
  }

  lemma {:induction false} StepKeeps(net: Network, step: Step)
    ensures PartyNetwork.Inv(net) ==> PartyNetwork.Inv(Take(net, step))
  {
    hide Take;
    if PartyNetwork.Inv(net) {
      TakeKeeps(net, step);
    }
  }

  lemma {:induction false} JournalFollows(r: Register, source: Id, target: Id, reasoned: bool,
      journal: PartyRecords.Journal)
    requires MergeError(r, source, target, reasoned).None? && PartyRecords.Filed(r.parties, journal)
    ensures var moved := PartyRecords.Move(journal, source, target);
            PartyRecords.Filed(PartyGraph.Merge(r, source, target, reasoned).parties, moved)
            && !PartyRecords.NamedBy(moved, source)
  {
    PartyRecords.MoveKeepsFiled(r, source, target, reasoned, journal);
  }

  class Directory {
    var parties: map<Id, Entry>
    var merges: seq<MergeRecord>
    var history: seq<Change>
    var affiliations: Table
    var journal: PartyRecords.Journal

    constructor ()
      ensures Net() == NOTHING && PartyNetwork.Inv(Net()) && Filed()
    {
      parties, merges, history, affiliations := map[], [], [], [];
      journal := PartyRecords.Journal([], []);
    }

    function Net(): Network
      reads this
    {
      Network(Register(parties, merges, history), affiliations)
    }

    ghost predicate Filed()
      reads this
    {
      PartyRecords.Filed(parties, journal)
    }

    method CreateParty(id: Id, kind: Kind, status: Status) returns (error: Option<Error>)
      modifies this`parties
      ensures error == CreateError(old(Net()).register, id, status)
      ensures Net() == Take(old(Net()), Service(OpCreate(id, kind, status)))
      ensures PartyNetwork.Inv(old(Net())) ==> PartyNetwork.Inv(Net())
      ensures old(Filed()) ==> Filed()
    {
      hide PartyNetwork.Inv;
      StepKeeps(Net(), Service(OpCreate(id, kind, status)));
      if id in parties || status == Merged {
        return Some(Invalid);
      }
      parties := parties[id := Entry(kind, status, false, None)];
      return None;
    }

    /** The kind of a party with a profile or an affiliation cannot change. */
    method Reclassify(id: Id, kind: Kind, profiled: bool) returns (ok: bool)
      modifies this`parties
      ensures ok == (id in old(parties) && !profiled && !Affiliated(affiliations, id))
      ensures Net() == Take(old(Net()), Service(OpReclassify(id, kind, !profiled)))
      ensures PartyNetwork.Inv(old(Net())) ==> PartyNetwork.Inv(Net())
      ensures old(Filed()) ==> Filed()
    {
      hide PartyNetwork.Inv;
      StepKeeps(Net(), Service(OpReclassify(id, kind, !profiled)));
      if id !in parties || profiled || Affiliated(affiliations, id) {
        return false;
      }
      parties := parties[id := parties[id].(kind := kind)];
      return true;
    }

    /** The checks on an affiliation; `self` is the row it is written over. */
    method CheckAffiliation(row: Affiliation, self: Option<nat>) returns (ok: bool)
      ensures ok == Enters(Net(), row, self)
    {
      if row.person !in parties || row.organisation !in parties {
        return false;
      }
      if parties[row.person].kind != Individual || parties[row.organisation].kind == Individual {
        return false;
      }
      if row.current && Taken(affiliations, row, self) {
        return false;
      }
      return RolesOnce(row.roles);
    }

    method Affiliate(row: Affiliation) returns (ok: bool)
      modifies this`affiliations
      ensures ok == Enters(old(Net()), row, None)
      ensures Net() == Take(old(Net()), PartyNetwork.Step.Affiliate(row))
      ensures PartyNetwork.Inv(old(Net())) ==> PartyNetwork.Inv(Net())
    {
      hide Enters, PartyNetwork.Inv;
      StepKeeps(Net(), PartyNetwork.Step.Affiliate(row));
      ok := CheckAffiliation(row, None);
      if ok {
        affiliations := affiliations + [Some(row)];
      }
    }

    method EditAffiliation(at: nat, row: Affiliation) returns (ok: bool)
      modifies this`affiliations
      ensures ok == Writes(old(Net()), Edit(at, row))
      ensures Net() == Take(old(Net()), Edit(at, row))
      ensures PartyNetwork.Inv(old(Net())) ==> PartyNetwork.Inv(Net())
    {
      hide Enters, PartyNetwork.Inv;
      StepKeeps(Net(), Edit(at, row));
      if at >= |affiliations| || affiliations[at].None? {
        return false;
      }
      ok := CheckAffiliation(row, Some(at));
      if ok {
        affiliations := affiliations[at := Some(row)];
      }
    }

    method DropAffiliation(at: nat) returns (ok: bool)
      modifies this`affiliations
      ensures ok == (at < |old(affiliations)| && old(affiliations)[at].Some?)
      ensures Net() == Take(old(Net()), Drop(at))
      ensures PartyNetwork.Inv(old(Net())) ==> PartyNetwork.Inv(Net())
    {
      hide PartyNetwork.Inv;
      StepKeeps(Net(), Drop(at));
      if at >= |affiliations| || affiliations[at].None? {
        assert at < |affiliations| ==> affiliations[at := None] == affiliations;
        return false;
      }
      affiliations := affiliations[at := None];
      return true;
    }

    method AddNote(party: Id) returns (ok: bool)
      modifies this`journal
      ensures ok == (party in parties)
      ensures journal == if ok then old(journal).(notes := old(journal).notes + [party]) else old(journal)
      ensures old(Filed()) ==> Filed()
    {
      if party !in parties {
        return false;
      }
      journal := journal.(notes := journal.notes + [party]);
      return true;
    }

    /** A contact named in an interaction must be an individual. */
    method AddInteraction(party: Id, contact: Option<Id>) returns (ok: bool)
      modifies this`journal
      ensures ok == (party in parties
                     && (contact.Some? ==> contact.value in parties && parties[contact.value].kind == Individual))
      ensures journal == if ok then old(journal).(interactions := old(journal).interactions
                                                                  + [PartyRecords.Interaction(party, contact)])
                         else old(journal)
      ensures old(Filed()) ==> Filed()
      ensures PartyRecords.ContactsFit(parties, old(journal)) ==> PartyRecords.ContactsFit(parties, journal)
    {
      if party !in parties || (contact.Some? && contact.value !in parties) {
        return false;
      }
      if contact.Some? && parties[contact.value].kind != Individual {
        return false;
      }
      journal := journal.(interactions := journal.interactions + [PartyRecords.Interaction(party, contact)]);
      return true;
    }

    method ChangeStatus(id: Id, status: Status, reasoned: bool) returns (error: Option<Error>)
      modifies this`parties, this`history
      ensures error == StatusError(old(Net()).register, id, status, reasoned)
      ensures Net() == Take(old(Net()), Service(OpStatus(id, status, reasoned)))
      ensures PartyNetwork.Inv(old(Net())) ==> PartyNetwork.Inv(Net())
      ensures old(Filed()) ==> Filed()
    {
      hide PartyNetwork.Inv;
      StepKeeps(Net(), Service(OpStatus(id, status, reasoned)));
      if !reasoned {
        return Some(Invalid);
      }
      if status == Merged {
        return Some(Invalid);
      }
      if id !in parties {
        return Some(Missing);
      }
      var party := parties[id];
      if party.status == Merged {
        return Some(Conflict);
      }
      if party.status == status {
        return None;
      }
      var previous := party.status;
      parties := parties[id := party.(status := status)];
      history := history + [Change(id, previous, status)];
      return None;
    }

    method SetArchived(id: Id, archived: bool, reasoned: bool) returns (error: Option<Error>)
      modifies this`parties
      ensures error == ArchiveError(old(Net()).register, id, reasoned)
      ensures Net() == Take(old(Net()), Service(OpArchive(id, archived, reasoned)))
      ensures PartyNetwork.Inv(old(Net())) ==> PartyNetwork.Inv(Net())
      ensures old(Filed()) ==> Filed()
    {
      hide PartyNetwork.Inv;
      StepKeeps(Net(), Service(OpArchive(id, archived, reasoned)));
      if !reasoned {
        return Some(Invalid);
      }
      if id !in parties {
        return Some(Missing);
      }
      var party := parties[id];
      if party.status == Merged {
        return Some(Conflict);
      }
      if party.archived == archived {
        assert parties[id := party] == parties;
        return None;
      }
      parties := parties[id := party.(archived := archived)];
      return None;
    }

    /** `held` says that a protected child other than an affiliation or an interaction names the party. */
    method Delete(id: Id, superuser: bool, referenced: bool, held: bool) returns (error: Option<Error>)
      modifies this`parties, this`journal
      ensures var protected := held || PartyRecords.Interacts(old(journal), id);
              && error == DeleteError(old(Net()).register, id, superuser, referenced,
                                      protected || Affiliated(affiliations, id))
              && Net() == Take(old(Net()), Service(OpDelete(id, superuser, referenced, protected)))
      ensures PartyNetwork.Inv(old(Net())) ==> PartyNetwork.Inv(Net())
      ensures journal == if error.None? then PartyRecords.Forget(old(journal), id) else old(journal)
      ensures old(Filed()) ==> Filed() && (error.None? ==> !PartyRecords.NamedBy(journal, id))
    {
      hide PartyNetwork.Inv;
      StepKeeps(Net(), Service(OpDelete(id, superuser, referenced, false)));
      if !superuser {
        return Some(Forbidden);
      }
      if id !in parties {
        return Some(Missing);
      }
      if referenced {
        return Some(Conflict);
      }
      if held || PartyRecords.Interacts(journal, id) || Affiliated(affiliations, id) || Held(Net().register, id) {
        return Some(Protected);
      }
      if Filed() {
        PartyRecords.ForgetKeepsFiled(parties, journal, id);
      }
      parties, journal := parties - {id}, PartyRecords.Forget(journal, id);
      return None;
    }

    /** Redirect the source's affiliations row by row, in the one table both ends are read from. */
    method ReassignAffiliations(end: End, source: Id, target: Id) returns (moved: nat, combined: nat, removed: nat)
      requires source != target
      modifies this`affiliations
      ensures affiliations == ReassignAll(old(affiliations), end, source, target)
      ensures moved + combined + removed == Standing(old(affiliations), end, source, |old(affiliations)|)
    {
      moved, combined, removed := 0, 0, 0;
      for i := 0 to |affiliations|
        invariant |affiliations| == |old(affiliations)|
        invariant affiliations == ReassignUpTo(old(affiliations), end, source, target, i)
        invariant moved + combined + removed == Standing(old(affiliations), end, source, i)
      {
        StandingStays(old(affiliations), end, source, target, i, i);
        if affiliations[i].Some? && Near(affiliations[i].value, end) == source {
          var row := affiliations[i].value;
          if Far(row, end) == target {
            affiliations := affiliations[i := None];
            removed := removed + 1;
          } else {
            var existing := None;
            if row.current {
              existing := FindCurrent(affiliations, end, target, Far(row, end));
            }
            if existing.Some? {
              var kept := CombineAffiliations(row, affiliations[existing.value].value);
              affiliations := affiliations[existing.value := Some(kept)];
              affiliations := affiliations[i := None];
              combined := combined + 1;
            } else {
              affiliations := affiliations[i := Some(Redirected(row, end, target))];
              moved := moved + 1;
            }
          }
        }
      }
    }

    /** Merging: the target absorbs the records of the source, the affiliations are redirected, notes and
        interactions are moved, the source becomes a tombstone and the merge is recorded. A refused merge
        touches nothing. */
    method Merge(source: PartyMerge.Party, target: PartyMerge.Party, reasoned: bool, tidy: string -> string)
      returns (error: Option<Error>)
      requires source.id == target.id <==> source == target
      requires source.Valid() && target.Valid()
      requires source.profile.Some? && target.profile.Some? ==> |source.profile.value| == |target.profile.value|
      modifies this, source, target
      ensures error == MergeError(old(Net()).register, source.id, target.id, reasoned)
      ensures Net() == Take(old(Net()), Service(OpMerge(source.id, target.id, reasoned)))
      ensures PartyNetwork.Inv(old(Net())) ==> PartyNetwork.Inv(Net())
      ensures PartyNetwork.Inv(old(Net())) && error.None? ==> !Affiliated(affiliations, source.id)
      ensures journal == if error.None? then PartyRecords.Move(old(journal), source.id, target.id) else old(journal)
      ensures old(Filed()) ==> Filed() && (error.None? ==> !PartyRecords.NamedBy(journal, source.id))
      ensures target.Valid() && source.Valid()
      ensures error.Some? ==> unchanged(this, source, target)
      ensures error.None? ==>
          source.roles == [] && source.contacts == [] && source.addresses == [] && source.sources == []
          && source.profile == None
      ensures error.None? ==>
          target.roles == PartyContacts.MergeRoles(old(source.roles), old(target.roles), tidy)
          && target.contacts == PartyContacts.MergeContacts(old(source.contacts), old(target.contacts))
          && target.addresses == PartyPlaces.MovePlaces(old(source.addresses), old(target.addresses))
          && target.sources == PartyPlaces.MovePlaces(old(source.sources), old(target.sources))
          && target.profile == PartyMerge.MergeProfile(old(source.profile), old(target.profile))
    {
      hide PartyNetwork.Inv, Take, Affiliated, ReassignAll, PartyGraph.Merge, PartyContacts.MergeRoles;
      hide PartyContacts.MergeContacts, PartyPlaces.MovePlaces, PartyMerge.MergeProfile;
      MergeMeans(Net(), source.id, target.id, reasoned);
      if !reasoned {
        return Some(Invalid);
      }
      if source.id !in parties || target.id !in parties {
        return Some(Invalid);
      }
      error := ValidateMerge(source.id, target.id);
      if error.Some? {
        return;
      }
      if Filed() {
        JournalFollows(Net().register, source.id, target.id, reasoned, journal);
      }
      hide PartyRecords.Move, PartyRecords.Filed, PartyRecords.NamedBy;
      var summary := target.Absorb(source, tidy);
      var moved, combined, removed := ReassignAffiliations(EndOf(parties[source.id].kind), source.id, target.id);
      MoveRecords(source.id, target.id);
      Bury(source.id, target.id, reasoned);
    }

    /** Notes and interactions of the source, and those it took part in, become the target's. */
    method MoveRecords(source: Id, target: Id)
      modifies this`journal
      ensures journal == PartyRecords.Move(old(journal), source, target)
    {
      journal := journal.(notes := PartyRecords.MoveNotes(journal.notes, source, target));
      journal := journal.(interactions := PartyRecords.MoveInteractions(journal.interactions, source, target));
      journal := journal.(interactions := PartyRecords.MoveContacts(journal.interactions, source, target));
    }

    /** The source becomes a tombstone, and the change of status and the merge are recorded. */
    method Bury(source: Id, target: Id, reasoned: bool)
      requires MergeError(Net().register, source, target, reasoned).None?
      modifies this`parties, this`history, this`merges
      ensures Net().register == PartyGraph.Merge(old(Net()).register, source, target, reasoned)
    {
      var previous := parties[source].status;
      parties := parties[source := parties[source].(status := Merged, mergedInto := Some(target), archived := true)];
      history := history + [Change(source, previous, Merged)];
      merges := merges + [MergeRecord(source, target)];
    }

    method ValidateMerge(source: Id, target: Id) returns (error: Option<Error>)
      requires source in parties && target in parties
      ensures error == MergeError(Net().register, source, target, true)
    {
      if source == target {
        return Some(Invalid);
      }
      if parties[source].status == Merged {
        return Some(Conflict);
      }
      if parties[target].status == Merged {
        return Some(Conflict);
      }
      if parties[target].archived {
        return Some(Conflict);
      }
      var organisationKinds := {Kind.Organisation, TradingName};
      var compatible := parties[source].kind == parties[target].kind
        || {parties[source].kind, parties[target].kind} <= organisationKinds;
      if !compatible {
        return Some(Invalid);
      }
      return None;
    }
  }
}
