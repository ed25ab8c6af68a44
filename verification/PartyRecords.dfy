/** Notes and interactions of parties: rows that a merge moves to the target in bulk. */
module PartyRecords {
  import opened Options
  import opened PartyGraph

  /** An interaction with a party, and the individual who took part in it if one is named. */
  datatype Interaction = Interaction(party: Id, contact: Option<Id>)

  /** Each note is the party it is about. */
  datatype Journal = Journal(notes: seq<Id>, interactions: seq<Interaction>)

  function Retargeted(id: Id, source: Id, target: Id): Id {
    if id == source then target else id
  }

  function MoveNotes(notes: seq<Id>, source: Id, target: Id): seq<Id> {
    seq(|notes|, i requires 0 <= i < |notes| => Retargeted(notes[i], source, target))
  }

  function MoveInteractions(rows: seq<Interaction>, source: Id, target: Id): seq<Interaction> {
    seq(|rows|, i requires 0 <= i < |rows| => rows[i].(party := Retargeted(rows[i].party, source, target)))
  }

  function MoveContacts(rows: seq<Interaction>, source: Id, target: Id): seq<Interaction> {
    seq(|rows|, i requires 0 <= i < |rows| =>
      if rows[i].contact == Some(source) then rows[i].(contact := Some(target)) else rows[i])
  }

  function Move(journal: Journal, source: Id, target: Id): Journal {
    Journal(MoveNotes(journal.notes, source, target),
            MoveContacts(MoveInteractions(journal.interactions, source, target), source, target))
  }

  /** An interaction protects its party from deletion. */
  predicate Interacts(journal: Journal, id: Id) {
    exists i :: 0 <= i < |journal.interactions| && journal.interactions[i].party == id
  }

  function NotesWithout(notes: seq<Id>, id: Id): seq<Id> {
    if notes == [] then []
    else
      var k := |notes| - 1;
      NotesWithout(notes[..k], id) + if notes[k] == id then [] else [notes[k]]
  }

  /** Deleting a party takes its notes along and leaves its interactions as a contact without one. */
  function Forget(journal: Journal, id: Id): Journal {
    var rows := journal.interactions;
    Journal(NotesWithout(journal.notes, id),
            seq(|rows|, i requires 0 <= i < |rows| =>
              if rows[i].contact == Some(id) then rows[i].(contact := None) else rows[i]))
  }

  /** Every note and interaction is about a registered party, and every contact is registered. */
  ghost predicate Filed(parties: map<Id, Entry>, journal: Journal) {
    && (forall i | 0 <= i < |journal.notes| :: journal.notes[i] in parties)
    && (forall i | 0 <= i < |journal.interactions| ::
          && journal.interactions[i].party in parties
          && (journal.interactions[i].contact.Some? ==> journal.interactions[i].contact.value in parties))
  }

  predicate IsContact(journal: Journal, id: Id) {
    exists i :: 0 <= i < |journal.interactions| && journal.interactions[i].contact == Some(id)
  }

  /** Every contact is an individual, as the check on entry asks. */
  ghost predicate ContactsFit(parties: map<Id, Entry>, journal: Journal) {
    forall p | p in parties && IsContact(journal, p) :: parties[p].kind == Individual
  }

  ghost predicate NamedBy(journal: Journal, id: Id) {
    || (exists i :: 0 <= i < |journal.notes| && journal.notes[i] == id)
    || (exists i :: 0 <= i < |journal.interactions| && journal.interactions[i].party == id)
    || IsContact(journal, id)
  }

  /** After an accepted merge no record names the source, and contacts that were individuals still are. */
  lemma {:induction false} MoveKeepsFiled(r: Register, source: Id, target: Id, reasoned: bool, journal: Journal)
    requires MergeError(r, source, target, reasoned).None? && Filed(r.parties, journal)
    ensures var next, moved := Merge(r, source, target, reasoned), Move(journal, source, target);
            && Filed(next.parties, moved) && !NamedBy(moved, source)
            && (ContactsFit(r.parties, journal) ==> ContactsFit(next.parties, moved))
  {
    var moved := Move(journal, source, target);
    forall p | IsContact(moved, p)
      ensures p != source && (IsContact(journal, p) || (p == target && IsContact(journal, source)))
    {
      var i :| 0 <= i < |moved.interactions| && moved.interactions[i].contact == Some(p);
      assert journal.interactions[i].contact == Some(p)
          || (p == target && journal.interactions[i].contact == Some(source));
    }
  }

  /** A change of kind asks for profiles and affiliations but not for interactions: it makes a contact of
      something else than an individual if and only if it is allowed and the party is one. */
  lemma {:induction false} FitUnlessReclassified(r: Register, journal: Journal, id: Id, kind: Kind, free: bool)
    requires ContactsFit(r.parties, journal)
    ensures ContactsFit(Reclassify(r, id, kind, free).parties, journal)
       <==> !(free && id in r.parties && kind != Individual && IsContact(journal, id))
  {
    var next := Reclassify(r, id, kind, free).parties;
    if free && id in r.parties && kind != Individual && IsContact(journal, id) {
      assert next[id].kind != Individual;
    }
  }

  // ---- over runs of the services and of new records

  datatype Files = Files(register: Register, journal: Journal)
  datatype Step = Serve(op: Op) | Note(party: Id) | Meet(party: Id, contact: Option<Id>)

  /** A contact named in an interaction must be an individual. */
  predicate Meets(parties: map<Id, Entry>, party: Id, contact: Option<Id>) {
    party in parties && (contact.Some? ==> contact.value in parties && parties[contact.value].kind == Individual)
  }

  function Take(files: Files, step: Step): Files {
    var Files(r, journal) := files;
    match step
    case Serve(OpMerge(source, target, reasoned)) =>
      if MergeError(r, source, target, reasoned).Some? then files
      else Files(Merge(r, source, target, reasoned), Move(journal, source, target))
    case Serve(OpDelete(id, superuser, referenced, held)) =>
      if DeleteError(r, id, superuser, referenced, held || Interacts(journal, id)).Some? then files
      else Files(r.(parties := r.parties - {id}), Forget(journal, id))
    case Serve(op) => Files(Apply(r, op), journal)
    case Note(party) => if party in r.parties then Files(r, journal.(notes := journal.notes + [party])) else files
    case Meet(party, contact) =>
      if !Meets(r.parties, party, contact) then files
      else Files(r, journal.(interactions := journal.interactions + [Interaction(party, contact)]))
  }

  ghost predicate FilesFit(files: Files) {
    Filed(files.register.parties, files.journal) && ContactsFit(files.register.parties, files.journal)
  }

  /** A change of kind that is allowed and makes a contact something else than an individual. */
  predicate Unfits(files: Files, step: Step) {
    && step.Serve? && step.op.OpReclassify? && step.op.free && step.op.id in files.register.parties
    && step.op.kind != Individual && IsContact(files.journal, step.op.id)
  }

  lemma {:induction false} ForgetFits(r: Register, journal: Journal, id: Id)
    requires FilesFit(Files(r, journal)) && !Interacts(journal, id)
    ensures FilesFit(Files(r.(parties := r.parties - {id}), Forget(journal, id)))
  {
    ForgetKeepsFiled(r.parties, journal, id);
    forall p: Id | IsContact(Forget(journal, id), p) ensures IsContact(journal, p) {
      var i :| 0 <= i < |journal.interactions| && Forget(journal, id).interactions[i].contact == Some(p);
      assert journal.interactions[i].contact == Some(p);
    }
  }

  lemma {:induction false} MeetFits(r: Register, journal: Journal, party: Id, contact: Option<Id>)
    requires FilesFit(Files(r, journal)) && Meets(r.parties, party, contact)
    ensures FilesFit(Files(r, journal.(interactions := journal.interactions + [Interaction(party, contact)])))
  {
    var rows := journal.interactions + [Interaction(party, contact)];
    forall p: Id | IsContact(journal.(interactions := rows), p) ensures contact == Some(p) || IsContact(journal, p) {
      var i :| 0 <= i < |rows| && rows[i].contact == Some(p);
      assert i < |journal.interactions| ==> journal.interactions[i].contact == Some(p);
    }
  }

  /** A step ends what the check on entry establishes if and only if it is an allowed change of a contact's kind. */
  lemma {:induction false} FitsUnlessUnfit(files: Files, step: Step)
    requires FilesFit(files)
    ensures FilesFit(Take(files, step)) <==> !Unfits(files, step)
  {
    var Files(r, journal) := files;
    match step
    case Serve(OpMerge(source, target, reasoned)) =>
      if MergeError(r, source, target, reasoned).None? {
        MoveKeepsFiled(r, source, target, reasoned, journal);
      }
    case Serve(OpDelete(id, superuser, referenced, held)) =>
      if DeleteError(r, id, superuser, referenced, held || Interacts(journal, id)).None? {
        ForgetFits(r, journal, id);
      }
    case Serve(OpReclassify(id, kind, free)) => FitUnlessReclassified(r, journal, id, kind, free);
    case Serve(OpCreate(_, _, _)) =>
    case Serve(OpStatus(_, _, _)) =>
    case Serve(OpArchive(_, _, _)) =>
    case Note(_) =>
    case Meet(party, contact) =>
      if Meets(r.parties, party, contact) {
        MeetFits(r, journal, party, contact);
      }
  }

  ghost predicate FitThroughout(files: Files, steps: seq<Step>)
    decreases |steps|
  {
    FilesFit(files) && (steps == [] || FitThroughout(Take(files, steps[0]), steps[1..]))
  }

  ghost predicate NeverUnfits(files: Files, steps: seq<Step>)
    decreases |steps|
  {
    steps == [] || (!Unfits(files, steps[0]) && NeverUnfits(Take(files, steps[0]), steps[1..]))
  }

  /** Over any run of services, notes and interactions, every record names registered parties and every contact
      is an individual at all times if and only if no step changes the kind of a contact. */
  lemma {:induction false} FitOverRuns(files: Files, steps: seq<Step>)
    requires FilesFit(files)
    ensures FitThroughout(files, steps) <==> NeverUnfits(files, steps)
    decreases |steps|
  {
    hide FilesFit, Unfits, Take;
    if steps != [] {
      var next := Take(files, steps[0]);
      FitsUnlessUnfit(files, steps[0]);
      if FilesFit(next) {
        FitOverRuns(next, steps[1..]);
      } else {
        assert !FitThroughout(next, steps[1..]);
      }
    }
  }

  const MEETING := Journal([], [Interaction(1, Some(0))])
  const PAIR := [OpCreate(0, Individual, Active), OpCreate(1, Kind.Organisation, Active)]

  lemma {:induction false} PairMade()
    ensures Run(EMPTY, PAIR).parties
         == map[0 := Entry(Individual, Active, false, None), 1 := Entry(Kind.Organisation, Active, false, None)]
  {
    assert PAIR[1..][1..] == [];
    assert Run(EMPTY, PAIR) == Apply(Apply(EMPTY, PAIR[0]), PAIR[1]);
  }

  /** An individual who took part in an interaction becomes an organisation. */
  lemma {:induction false} ContactIsReclassified()
    ensures ContactsFit(Run(EMPTY, PAIR).parties, MEETING)
    ensures !ContactsFit(Apply(Run(EMPTY, PAIR), OpReclassify(0, Kind.Organisation, true)).parties, MEETING)
  {
    PairMade();
    hide Run;
    assert MEETING.interactions[0].contact == Some(0);
    FitUnlessReclassified(Run(EMPTY, PAIR), MEETING, 0, Kind.Organisation, true);
  }

  lemma {:induction false} RetargetedSurvivor(r: Register, source: Id, target: Id, reasoned: bool, id: Id)
    requires PartyGraph.Inv(r) && MergeError(r, source, target, reasoned).None? && id in r.parties
    ensures var next := Merge(r, source, target, reasoned);
            && Tombstones(next) && PartyGraph.Records(next) && Retargeted(id, source, target) in next.parties
            && Survivor(next, Retargeted(id, source, target)) == Survivor(next, id)
  {
    MergeKeepsRecords(r, source, target, reasoned);
    var next := Merge(r, source, target, reasoned);
    assert Survivor(next, source) == Survivor(next, target);
  }

  /** A merge moves a record only from the source to the party that the source now leads to, so the survivor of
      the party a record is about is the same whether it is followed from the moved record or from the old one. */
  lemma {:induction false} MoveKeepsSurvivors(r: Register, source: Id, target: Id, reasoned: bool, journal: Journal)
    requires PartyGraph.Inv(r) && MergeError(r, source, target, reasoned).None? && Filed(r.parties, journal)
    ensures var next, moved := Merge(r, source, target, reasoned), Move(journal, source, target);
            && Tombstones(next) && PartyGraph.Records(next) && Filed(next.parties, journal)
                && Filed(next.parties, moved)
            && |moved.notes| == |journal.notes| && |moved.interactions| == |journal.interactions|
            && (forall i | 0 <= i < |journal.notes| ::
                  Survivor(next, moved.notes[i]) == Survivor(next, journal.notes[i]))
            && (forall i | 0 <= i < |journal.interactions| ::
                  Survivor(next, moved.interactions[i].party) == Survivor(next, journal.interactions[i].party))
  {
    var next, moved := Merge(r, source, target, reasoned), Move(journal, source, target);
    MergeKeepsRecords(r, source, target, reasoned);
    MoveKeepsFiled(r, source, target, reasoned, journal);
    hide PartyGraph.Inv, Tombstones, PartyGraph.Records, Survivor, Merge;
    forall i | 0 <= i < |journal.notes| ensures Survivor(next, moved.notes[i]) == Survivor(next, journal.notes[i]) {
      RetargetedSurvivor(r, source, target, reasoned, journal.notes[i]);
    }
    forall i | 0 <= i < |journal.interactions|
      ensures Survivor(next, moved.interactions[i].party) == Survivor(next, journal.interactions[i].party)
    {
      RetargetedSurvivor(r, source, target, reasoned, journal.interactions[i].party);
    }
  }

  lemma {:induction false} NotesStay(parties: map<Id, Entry>, notes: seq<Id>, id: Id)
    requires forall i | 0 <= i < |notes| :: notes[i] in parties
    ensures forall i | 0 <= i < |NotesWithout(notes, id)| :: NotesWithout(notes, id)[i] in parties - {id}
    decreases |notes|
  {
    if notes != [] {
      NotesStay(parties, notes[..|notes| - 1], id);
    }
  }

  lemma {:induction false} ForgetKeepsFiled(parties: map<Id, Entry>, journal: Journal, id: Id)
    requires Filed(parties, journal) && !Interacts(journal, id)
    ensures Filed(parties - {id}, Forget(journal, id)) && !NamedBy(Forget(journal, id), id)
  {
    NotesStay(parties, journal.notes, id);
  }
}
