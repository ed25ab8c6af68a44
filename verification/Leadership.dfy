/** Terms of department leadership and the check that keeps primary terms apart. */
module Leadership {
  import opened Options

  type Id = nat
  type Day = int

  datatype Level = Manager | Deputy

  /** Days from `from` to `until`, both included; a term without `until` is open-ended. */
  datatype Term = Term(department: Id, manager: Id, level: Level, primary: bool, from: Day, until: Option<Day>)

  /** The employment of the proposed leader. */
  datatype Employment = Employment(active: bool, start: Day, end: Option<Day>)

  type Terms = map<Id, Term>

  datatype Error = InactiveManager | BadDates | BeforeEmployment | AfterEmployment | PrimaryTaken | Duplicate | Unknown

  predicate Dated(t: Term) {
    t.until.Some? ==> t.from <= t.until.value
  }

  predicate Covers(t: Term, day: Day) {
    t.from <= day && (t.until.Some? ==> day <= t.until.value)
  }

  // ---- the overlap filter

  /** The overlap test of a proposed term: the other term begins before this one ends, and does not end before
      this one begins. */
  predicate Overlaps(t: Term, other: Term) {
    && (t.until.Some? ==> other.from <= t.until.value)
    && (other.until.None? || t.from <= other.until.value)
  }

  /** The filter says exactly that the terms share a day. */
  lemma {:induction false} OverlapIsSharedDay(t: Term, other: Term)
    requires Dated(t) && Dated(other)
    ensures Overlaps(t, other) <==> exists day :: Covers(t, day) && Covers(other, day)
  {
    var day := if t.from <= other.from then other.from else t.from;
    if Overlaps(t, other) {
      assert Covers(t, day) && Covers(other, day);
    }
  }

  ghost predicate Rivals(a: Term, b: Term) {
    a.primary && b.primary && a.department == b.department
  }

  /** No day has two primary leaders of one department. */
  ghost predicate Apart(terms: Terms) {
    forall i, j, day | i in terms && j in terms && i != j && Rivals(terms[i], terms[j]) ::
      !(Covers(terms[i], day) && Covers(terms[j], day))
  }

  /** No two terms put the same leader into the same position from the same day. */
  ghost predicate NoTwins(terms: Terms) {
    forall i, j | i in terms && j in terms && i != j ::
      terms[i].department != terms[j].department || terms[i].manager != terms[j].manager
      || terms[i].level != terms[j].level || terms[i].from != terms[j].from
  }

  ghost predicate AllDated(terms: Terms) {
    forall i | i in terms :: Dated(terms[i])
  }

  // ---- the validated writes

  function Rival(terms: Terms, self: Option<Id>, t: Term): set<Id> {
    set i | i in terms && Some(i) != self && terms[i].department == t.department && terms[i].primary
        && Overlaps(t, terms[i])
  }

  function Twins(terms: Terms, self: Option<Id>, t: Term): set<Id> {
    set i | i in terms && Some(i) != self && terms[i].department == t.department && terms[i].manager == t.manager
            && terms[i].level == t.level && terms[i].from == t.from
  }

  /** The checks of a proposed term, in order. */
  function TermError(terms: Terms, self: Option<Id>, t: Term, leader: Employment): Option<Error> {
    if !leader.active then Some(InactiveManager)
    else if !Dated(t) then Some(BadDates)
    else if t.from < leader.start then Some(BeforeEmployment)
    else if leader.end.Some? && leader.end.value < t.from then Some(AfterEmployment)
    else if t.primary && Rival(terms, self, t) != {} then Some(PrimaryTaken)
    else if Twins(terms, self, t) != {} then Some(Duplicate)
    else None
  }

  datatype Op =
    | Create(id: Id, term: Term, leader: Employment)
    | Update(id: Id, term: Term, leader: Employment)
    | Delete(id: Id)

  function Apply(terms: Terms, op: Op): Terms {
    match op
    case Create(id, t, leader) =>
      if id in terms || TermError(terms, None, t, leader).Some? then terms else terms[id := t]
    case Update(id, t, leader) =>
      if id !in terms || TermError(terms, Some(id), t, leader).Some? then terms else terms[id := t]
    case Delete(id) => terms - {id}
  }

  function Run(terms: Terms, ops: seq<Op>): Terms
    decreases |ops|
  {
    if ops == [] then terms else Run(Apply(terms, ops[0]), ops[1..])
  }

  /** Among dated terms that are apart, the overlap check refuses exactly the writes that would give some
      day two primary leaders. */
  lemma {:induction false} CheckIsExact(terms: Terms, id: Id, t: Term)
    requires Apart(terms) && AllDated(terms) && Dated(t)
    ensures !(t.primary && Rival(terms, Some(id), t) != {}) <==> Apart(terms[id := t])
  {
    var next := terms[id := t];
    if t.primary && Rival(terms, Some(id), t) != {} {
      var i :| i in Rival(terms, Some(id), t);
      OverlapIsSharedDay(t, terms[i]);
      var day :| Covers(t, day) && Covers(terms[i], day);
      assert Rivals(next[id], next[i]) && Covers(next[id], day) && Covers(next[i], day);
    } else {
      forall i, day | i in terms && i != id && Rivals(t, terms[i]) ensures !(Covers(t, day) && Covers(terms[i], day)) {
        assert i !in Rival(terms, Some(id), t);
        OverlapIsSharedDay(t, terms[i]);
      }
      assert forall i, j, day | i in next && j in next && i != j && Rivals(next[i], next[j]) ::
          !(Covers(next[i], day) && Covers(next[j], day));
    }
  }

  lemma {:induction false} ApplyKeepsApart(terms: Terms, op: Op)
    requires Apart(terms) && AllDated(terms)
    ensures Apart(Apply(terms, op)) && AllDated(Apply(terms, op))
  {
    match op
    case Create(id, t, leader) =>
      if id !in terms && TermError(terms, None, t, leader).None? {
        assert Rival(terms, Some(id), t) == Rival(terms, None, t);
        CheckIsExact(terms, id, t);
      }
    case Update(id, t, leader) =>
      if id in terms && TermError(terms, Some(id), t, leader).None? {
        CheckIsExact(terms, id, t);
      }
    case Delete(id) =>
  }

  lemma {:induction false} ApplyKeepsTwins(terms: Terms, op: Op)
    requires NoTwins(terms)
    ensures NoTwins(Apply(terms, op))
  {
    match op
    case Create(id, t, leader) =>
      if id !in terms && TermError(terms, None, t, leader).None? {
        assert forall i | i in terms :: i !in Twins(terms, None, t);
      }
    case Update(id, t, leader) =>
      if id in terms && TermError(terms, Some(id), t, leader).None? {
        assert forall i | i in terms :: i !in Twins(terms, Some(id), t);
      }
    case Delete(id) =>
  }

  lemma {:induction false} RunKeepsApart(terms: Terms, ops: seq<Op>)
    requires Apart(terms) && AllDated(terms) && NoTwins(terms)
    ensures Apart(Run(terms, ops)) && AllDated(Run(terms, ops)) && NoTwins(Run(terms, ops))
    decreases |ops|
  {
    if ops != [] {
      ApplyKeepsApart(terms, ops[0]);
      ApplyKeepsTwins(terms, ops[0]);
      RunKeepsApart(Apply(terms, ops[0]), ops[1..]);
    }
  }

  function PrimaryOn(terms: Terms, department: Id, day: Day): set<Id> {
    set i | i in terms && terms[i].primary && terms[i].department == department && Covers(terms[i], day)
  }

  function OpenPrimary(terms: Terms, department: Id): set<Id> {
    set i | i in terms && terms[i].primary && terms[i].department == department && terms[i].until.None?
  }

  lemma {:induction false} AtMostOne(s: set<Id>)
    requires forall i, j | i in s && j in s :: i == j
    ensures |s| <= 1
  {
    if s != {} {
      var i :| i in s;
      assert s == {i};
    }
  }

  /** After any run of creations, updates and deletions every department has at most one primary leader on
      every calendar day, so at most one open-ended primary term, and no assignment twice. */
  lemma {:induction false} OnePrimaryLeader(ops: seq<Op>, department: Id, day: Day)
    ensures |PrimaryOn(Run(map[], ops), department, day)| <= 1
    ensures |OpenPrimary(Run(map[], ops), department)| <= 1
    ensures NoTwins(Run(map[], ops))
  {
    var terms := Run(map[], ops);
    RunKeepsApart(map[], ops);
    forall i, j | i in PrimaryOn(terms, department, day) && j in PrimaryOn(terms, department, day) ensures i == j {
      assert Rivals(terms[i], terms[j]);
    }
    AtMostOne(PrimaryOn(terms, department, day));
    forall i, j | i in OpenPrimary(terms, department) && j in OpenPrimary(terms, department) ensures i == j {
      assert Rivals(terms[i], terms[j]) && Overlaps(terms[i], terms[j]);
      OverlapIsSharedDay(terms[i], terms[j]);
    }
    AtMostOne(OpenPrimary(terms, department));
  }

  // ---- the service

  class Register {
    var terms: Terms

    constructor ()
      ensures terms == map[]
    {
      terms := map[];
    }

    /** Narrow the primary terms of the department to those that overlap; any left refuse the write. */
    method Validate(self: Option<Id>, t: Term, leader: Employment) returns (error: Option<Error>)
      ensures error == TermError(terms, self, t, leader)
    {
      if !leader.active {
        return Some(InactiveManager);
      }
      if t.until.Some? && t.until.value < t.from {
        return Some(BadDates);
      }
      if t.from < leader.start {
        return Some(BeforeEmployment);
      }
      if leader.end.Some? && t.from > leader.end.value {
        return Some(AfterEmployment);
      }
      if t.primary {
        var overlapping := set i | i in terms && terms[i].department == t.department && terms[i].primary;
        if self.Some? {
          overlapping := overlapping - {self.value};
        }
        if t.until.Some? {
          overlapping := set i | i in overlapping && terms[i].from <= t.until.value;
        }
        overlapping := set i | i in overlapping && (terms[i].until.None? || terms[i].until.value >= t.from);
        assert overlapping == Rival(terms, self, t);
        if overlapping != {} {
          return Some(PrimaryTaken);
        }
      }
      var duplicates := set i | i in terms && terms[i].department == t.department && terms[i].manager == t.manager
                                && terms[i].level == t.level && terms[i].from == t.from;
      if self.Some? {
        duplicates := duplicates - {self.value};
      }
      assert duplicates == Twins(terms, self, t);
      if duplicates != {} {
        return Some(Duplicate);
      }
      return None;
    }

    method Create(id: Id, t: Term, leader: Employment) returns (error: Option<Error>)
      modifies this
      ensures terms == Apply(old(terms), Op.Create(id, t, leader))
    {
      if id in terms {
        return Some(Duplicate);
      }
      error := Validate(None, t, leader);
      if error.None? {
        terms := terms[id := t];
      }
    }

    method Update(id: Id, t: Term, leader: Employment) returns (error: Option<Error>)
      modifies this
      ensures terms == Apply(old(terms), Op.Update(id, t, leader))
    {
      if id !in terms {
        return Some(Unknown);
      }
      error := Validate(Some(id), t, leader);
      if error.None? {
        terms := terms[id := t];
      }
    }
  }
}
