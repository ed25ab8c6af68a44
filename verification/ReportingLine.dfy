/** Who reports to whom, and the walk that keeps the reporting lines free of cycles. */
module ReportingLine {
  import opened Options

  type Id = nat
  type Day = int

  /** `active` belongs to the user account behind the profile. */
  datatype Profile = Profile(manager: Option<Id>, active: bool, endDate: Option<Day>)

  type Staff = map<Id, Profile>

  datatype Error = Unknown | SelfReport | InactiveManager | EndedManager | WouldCycle | AlreadyCyclic

  /** The foreign key: a manager is a profile. */
  ghost predicate Linked(staff: Staff) {
    forall p | p in staff && staff[p].manager.Some? :: staff[p].manager.value in staff
  }

  // ---- reporting lines

  ghost predicate Line(staff: Staff, line: seq<Id>) {
    && line != []
    && (forall k | 0 <= k < |line| :: line[k] in staff)
    && (forall k | 0 <= k < |line| - 1 :: staff[line[k]].manager == Some(line[k + 1]))
  }

  ghost predicate LineTo(staff: Staff, line: seq<Id>, from: Id, to: Id) {
    Line(staff, line) && line[0] == from && line[|line| - 1] == to
  }

  ghost predicate Reaches(staff: Staff, from: Id, to: Id) {
    exists line :: LineTo(staff, line, from, to)
  }

  ghost predicate TopLine(staff: Staff, line: seq<Id>, from: Id) {
    Line(staff, line) && line[0] == from && staff[line[|line| - 1]].manager.None?
  }

  /** The line from a profile upwards ends. */
  ghost predicate Topped(staff: Staff, from: Id) {
    exists line :: TopLine(staff, line, from)
  }

  ghost predicate Acyclic(staff: Staff) {
    forall p | p in staff :: Topped(staff, p)
  }

  // ---- what a line can and cannot meet

  /** Every member of `s` reports to a member of `s`. */
  ghost predicate Closed(staff: Staff, s: set<Id>) {
    forall p | p in s :: p in staff && staff[p].manager.Some? && staff[p].manager.value in s
  }

  lemma {:induction false} ClosedTraps(staff: Staff, s: set<Id>, line: seq<Id>)
    requires Closed(staff, s) && Line(staff, line) && line[0] in s
    ensures line[|line| - 1] in s
    decreases |line|
  {
    var n := |line| - 1;
    if n > 0 {
      ClosedTraps(staff, s, line[..n]);
      assert staff[line[n - 1]].manager == Some(line[n]);
    }
  }

  lemma {:induction false} ClosedNeverTopped(staff: Staff, s: set<Id>, from: Id)
    requires Closed(staff, s) && from in s
    ensures !Topped(staff, from)
  {
    if Topped(staff, from) {
      var line :| TopLine(staff, line, from);
      ClosedTraps(staff, s, line);
      assert false;
    }
  }

  lemma {:induction false} ClosedWithout(staff: Staff, s: set<Id>, from: Id, to: Id)
    requires Closed(staff, s) && from in s && to !in s
    ensures !Reaches(staff, from, to)
  {
    if Reaches(staff, from, to) {
      var line :| LineTo(staff, line, from, to);
      ClosedTraps(staff, s, line);
      assert false;
    }
  }

  /** Two lines from the same profile: the shorter is the beginning of the longer. */
  lemma {:induction false} LinesAgree(staff: Staff, a: seq<Id>, b: seq<Id>)
    requires Line(staff, a) && Line(staff, b) && a[0] == b[0] && |a| <= |b|
    ensures a == b[..|a|]
    decreases |a|
  {
    var n := |a| - 1;
    if n > 0 {
      LinesAgree(staff, a[..n], b);
      assert a[n - 1] == b[n - 1];
    }
  }

  lemma {:induction false} WithinTopLine(staff: Staff, top: seq<Id>, from: Id, to: Id)
    requires TopLine(staff, top, from) && Reaches(staff, from, to)
    ensures to in top
  {
    var line :| LineTo(staff, line, from, to);
    assert |line| > |top| ==> staff[line[|top| - 1]].manager == Some(line[|top|]);
    if |line| <= |top| {
      LinesAgree(staff, line, top);
    } else {
      LinesAgree(staff, top, line);
      assert false;
    }
  }

  // ---- the walk

  datatype Verdict = Clear | MeetsSelf | MeetsCycle

  /** What the walk of the reporting line must answer, in terms of lines only. */
  ghost predicate Judged(staff: Staff, self: Option<Id>, manager: Id, verdict: Verdict) {
    && (verdict == MeetsSelf <==> self.Some? && Reaches(staff, manager, self.value))
    && (verdict == Clear <==> (self.Some? ==> !Reaches(staff, manager, self.value)) && Topped(staff, manager))
  }

  /** The profiles met so far, in order: a line from the manager whose last profile reports to `current`. */
  ghost predicate Met(staff: Staff, line: seq<Id>, visited: set<Id>, manager: Id, current: Option<Id>) {
    && (forall p :: p in visited <==> p in line)
    && (line == [] ==> current == Some(manager))
    && (line != [] ==> Line(staff, line) && line[0] == manager && staff[line[|line| - 1]].manager == current)
    && (current.Some? ==> current.value in staff)
  }

  lemma {:induction false} MetSelf(staff: Staff, line: seq<Id>, visited: set<Id>, manager: Id, self: Id)
    requires Met(staff, line, visited, manager, Some(self))
    ensures Judged(staff, Some(self), manager, MeetsSelf)
  {
    assert LineTo(staff, line + [self], manager, self);
  }

  lemma {:induction false} MetTwice(staff: Staff, line: seq<Id>, visited: set<Id>, manager: Id, current: Id,
      self: Option<Id>)
    requires Met(staff, line, visited, manager, Some(current)) && current in visited
    requires self.Some? ==> self.value !in visited
    ensures Judged(staff, self, manager, MeetsCycle)
  {
    forall q | q in visited ensures q in staff && staff[q].manager.Some? && staff[q].manager.value in visited {
      var k :| 0 <= k < |line| && line[k] == q;
      if k < |line| - 1 {
        assert staff[line[k]].manager == Some(line[k + 1]);
      }
    }
    ClosedNeverTopped(staff, visited, manager);
    if self.Some? {
      ClosedWithout(staff, visited, manager, self.value);
    }
  }

  lemma {:induction false} MetTop(staff: Staff, line: seq<Id>, visited: set<Id>, manager: Id, self: Option<Id>)
    requires Met(staff, line, visited, manager, None) && (self.Some? ==> self.value !in visited)
    ensures Judged(staff, self, manager, Clear)
  {
    assert TopLine(staff, line, manager);
    if self.Some? && Reaches(staff, manager, self.value) {
      WithinTopLine(staff, line, manager, self.value);
      assert false;
    }
  }

  lemma {:induction false} MetNext(staff: Staff, line: seq<Id>, visited: set<Id>, manager: Id, p: Id)
    requires Linked(staff) && Met(staff, line, visited, manager, Some(p))
    ensures Met(staff, line + [p], visited + {p}, manager, staff[p].manager)
  {
  }

  /** Walk upwards from the manager, remembering who was met. The walk ends on every relation, cyclic ones
      included: each round meets a profile that was not met before. */
  method Walk(staff: Staff, self: Option<Id>, manager: Id) returns (verdict: Verdict)
    requires Linked(staff) && manager in staff
    ensures Judged(staff, self, manager, verdict)
  {
    var visited: set<Id> := {};
    var current := Some(manager);
    ghost var line: seq<Id> := [];
    while current.Some?
      invariant visited <= staff.Keys && Met(staff, line, visited, manager, current)
      invariant self.Some? ==> self.value !in visited
      decreases |staff| - |visited|
    {
      var p := current.value;
      if self == Some(p) {
        MetSelf(staff, line, visited, manager, p);
        return MeetsSelf;
      }
      if p in visited {
        MetTwice(staff, line, visited, manager, p, self);
        return MeetsCycle;
      }
      Smaller(visited, p, staff.Keys);
      MetNext(staff, line, visited, manager, p);
      visited := visited + {p};
      line := line + [p];
      current := staff[p].manager;
    }
    MetTop(staff, line, visited, manager, self);
    return Clear;
  }

  lemma {:induction false} Smaller(s: set<Id>, p: Id, whole: set<Id>)
    requires s <= whole && p in whole && p !in s
    ensures |s| < |s + {p}| <= |whole|
  {
    assert s + {p} <= whole;
    Subset(s + {p}, whole);
  }

  lemma {:induction false} Subset(a: set<Id>, b: set<Id>)
    requires a <= b
    ensures |a| <= |b|
  {
    assert b == a + (b - a);
  }

  // ---- changes of the relation

  ghost predicate Accepted(staff: Staff, self: Option<Id>, manager: Option<Id>, today: Day) {
    manager.Some? ==>
      && manager.value in staff && self != manager
      && staff[manager.value].active
      && (staff[manager.value].endDate.Some? ==> today <= staff[manager.value].endDate.value)
      && Judged(staff, self, manager.value, Clear)
  }

  function WithManager(staff: Staff, id: Id, manager: Option<Id>): Staff
    requires id in staff
  {
    staff[id := staff[id].(manager := manager)]
  }

  lemma {:induction false} LineSurvives(staff: Staff, id: Id, manager: Option<Id>, line: seq<Id>)
    requires id in staff && Line(staff, line) && id !in line[..|line| - 1]
    ensures Line(WithManager(staff, id, manager), line)
  {
    var next := WithManager(staff, id, manager);
    forall k | 0 <= k < |line| - 1 ensures next[line[k]].manager == Some(line[k + 1]) {
      assert line[k] == line[..|line| - 1][k];
    }
  }

  /** The first part of a line, up to the first time it meets `id`. */
  lemma {:induction false} CutAt(staff: Staff, line: seq<Id>, id: Id) returns (cut: seq<Id>)
    requires Line(staff, line) && id in line
    ensures LineTo(staff, cut, line[0], id) && id !in cut[..|cut| - 1]
    decreases |line|
  {
    var last := |line| - 1;
    if id in line[..last] {
      cut := CutAt(staff, line[..last], id);
    } else {
      cut := line;
    }
  }

  lemma {:induction false} Joined(staff: Staff, a: seq<Id>, b: seq<Id>)
    requires Line(staff, a) && Line(staff, b) && staff[a[|a| - 1]].manager == Some(b[0])
    ensures Line(staff, a + b)
  {
  }

  ghost predicate Harmless(staff: Staff, id: Id, manager: Option<Id>) {
    manager.Some? ==> manager.value in staff && !Reaches(staff, manager.value, id)
  }

  /** The top line of a harmless manager goes past `id` and stays as it is. */
  lemma {:induction false} ManagerTopped(staff: Staff, id: Id, manager: Id) returns (line: seq<Id>)
    requires Acyclic(staff) && id in staff && Harmless(staff, id, Some(manager))
    ensures TopLine(WithManager(staff, id, Some(manager)), line, manager)
  {
    line :| TopLine(staff, line, manager);
    if id in line {
      var cut := CutAt(staff, line, id);
      assert false;
    }
    LineSurvives(staff, id, Some(manager), line);
  }

  lemma {:induction false} StaysTopped(staff: Staff, id: Id, manager: Option<Id>, p: Id)
    requires Acyclic(staff) && id in staff && Harmless(staff, id, manager) && p in staff
    ensures Topped(WithManager(staff, id, manager), p)
  {
    var next := WithManager(staff, id, manager);
    var line :| TopLine(staff, line, p);
    if id in line {
      var cut := CutAt(staff, line, id);
      LineSurvives(staff, id, manager, cut);
      if manager.Some? {
        var tail := ManagerTopped(staff, id, manager.value);
        Joined(next, cut, tail);
        assert TopLine(next, cut + tail, p);
      } else {
        assert TopLine(next, cut, p);
      }
    } else {
      LineSurvives(staff, id, manager, line);
      assert TopLine(next, line, p);
    }
  }

  lemma {:induction false} HarmlessKeepsAcyclic(staff: Staff, id: Id, manager: Option<Id>)
    requires Acyclic(staff) && id in staff && Harmless(staff, id, manager)
    ensures Acyclic(WithManager(staff, id, manager))
  {
    forall p | p in staff ensures Topped(WithManager(staff, id, manager), p) {
      StaysTopped(staff, id, manager, p);
    }
  }

  /** A validated change keeps the relation free of cycles. */
  lemma {:induction false} AcceptedKeepsAcyclic(staff: Staff, id: Id, manager: Option<Id>, today: Day)
    requires Linked(staff) && Acyclic(staff) && id in staff && Accepted(staff, Some(id), manager, today)
    ensures Linked(WithManager(staff, id, manager)) && Acyclic(WithManager(staff, id, manager))
  {
    assert Harmless(staff, id, manager);
    HarmlessKeepsAcyclic(staff, id, manager);
  }

  lemma {:induction false} LoopClosed(staff: Staff, id: Id, manager: Id)
    requires id in staff && Reaches(staff, manager, id)
    ensures !Topped(WithManager(staff, id, Some(manager)), id)
  {
    var next := WithManager(staff, id, Some(manager));
    var line :| LineTo(staff, line, manager, id);
    var s := set p | p in line;
    forall p | p in s ensures p in next && next[p].manager.Some? && next[p].manager.value in s {
      var k :| 0 <= k < |line| && line[k] == p;
      if p == id {
        assert manager == line[0];
      } else {
        assert staff[line[k]].manager == Some(line[k + 1]);
      }
    }
    assert line[|line| - 1] in s;
    ClosedNeverTopped(next, s, id);
  }

  /** In a relation without cycles the walk refuses exactly the managers that would close one, and never
      for a cycle that was there before. */
  lemma {:induction false} RefusedWouldCycle(staff: Staff, id: Id, manager: Id)
    requires Acyclic(staff) && id in staff && manager in staff
    ensures Judged(staff, Some(id), manager, Clear) <==> Acyclic(WithManager(staff, id, Some(manager)))
    ensures !Judged(staff, Some(id), manager, MeetsCycle)
  {
    var next := WithManager(staff, id, Some(manager));
    if Reaches(staff, manager, id) {
      LoopClosed(staff, id, manager);
      assert id in next;
    } else {
      HarmlessKeepsAcyclic(staff, id, Some(manager));
    }
  }

  // ---- over runs

  datatype Op =
    | Hire(id: Id, manager: Option<Id>)
    | Assign(id: Id, manager: Option<Id>)
    | Employment(id: Id, active: bool, endDate: Option<Day>)
    | Remove(id: Id)

  /** Removing a profile clears the manager of those who reported to it. */
  function Removed(staff: Staff, id: Id): Staff {
    map p | p in staff && p != id :: if staff[p].manager == Some(id) then staff[p].(manager := None) else staff[p]
  }

  ghost function Apply(staff: Staff, op: Op, today: Day): Staff {
    match op
    case Hire(id, manager) =>
      if id in staff || !Accepted(staff, None, manager, today) then staff else staff[id := Profile(manager, true, None)]
    case Assign(id, manager) =>
      if id !in staff || !Accepted(staff, Some(id), manager, today) then staff else WithManager(staff, id, manager)
    case Employment(id, active, endDate) =>
      if id !in staff then staff else staff[id := staff[id].(active := active, endDate := endDate)]
    case Remove(id) => Removed(staff, id)
  }

  /** Changes that leave every manager as it was leave every line as it was. */
  lemma {:induction false} SameManagersTopped(staff: Staff, next: Staff, p: Id)
    requires forall q | q in staff :: q in next && next[q].manager == staff[q].manager
    requires Topped(staff, p)
    ensures Topped(next, p)
  {
    var line :| TopLine(staff, line, p);
    assert TopLine(next, line, p);
  }

  lemma {:induction false} HiredTopped(next: Staff, id: Id)
    requires id in next && (next[id].manager.Some? ==> Topped(next, next[id].manager.value))
    ensures Topped(next, id)
  {
    var hired := [id];
    if next[id].manager.None? {
      assert TopLine(next, hired, id);
    } else {
      var line :| TopLine(next, line, next[id].manager.value);
      Joined(next, hired, line);
      assert TopLine(next, hired + line, id);
    }
  }

  lemma {:induction false} HireKeepsAcyclic(staff: Staff, id: Id, manager: Option<Id>)
    requires Acyclic(staff) && id !in staff && (manager.Some? ==> manager.value in staff)
    ensures Acyclic(staff[id := Profile(manager, true, None)])
  {
    var next := staff[id := Profile(manager, true, None)];
    forall p | p in staff ensures Topped(next, p) {
      SameManagersTopped(staff, next, p);
    }
    HiredTopped(next, id);
  }

  lemma {:induction false} EmploymentKeepsAcyclic(staff: Staff, id: Id, active: bool, endDate: Option<Day>)
    requires Acyclic(staff) && id in staff
    ensures Acyclic(staff[id := staff[id].(active := active, endDate := endDate)])
  {
    var next := staff[id := staff[id].(active := active, endDate := endDate)];
    forall p | p in next ensures Topped(next, p) {
      SameManagersTopped(staff, next, p);
    }
  }

  lemma {:induction false} LineWithout(staff: Staff, id: Id, line: seq<Id>)
    requires Line(staff, line) && id !in line
    ensures Line(Removed(staff, id), line)
  {
    forall k | 0 <= k < |line| - 1 ensures Removed(staff, id)[line[k]].manager == Some(line[k + 1]) {
      assert line[k + 1] in line;
    }
  }

  lemma {:induction false} RemovedTopped(staff: Staff, id: Id, p: Id)
    requires Acyclic(staff) && p in staff && p != id
    ensures Topped(Removed(staff, id), p)
  {
    var line :| TopLine(staff, line, p);
    if id in line {
      var cut := CutAt(staff, line, id);
      var above := cut[..|cut| - 1];
      LineWithout(staff, id, above);
      assert staff[cut[|above| - 1]].manager == Some(cut[|above|]);
      assert TopLine(Removed(staff, id), above, p);
    } else {
      LineWithout(staff, id, line);
      assert TopLine(Removed(staff, id), line, p);
    }
  }

  lemma {:induction false} RemovedKeepsAcyclic(staff: Staff, id: Id)
    requires Linked(staff) && Acyclic(staff)
    ensures Linked(Removed(staff, id)) && Acyclic(Removed(staff, id))
  {
    forall p | p in Removed(staff, id) ensures Topped(Removed(staff, id), p) {
      RemovedTopped(staff, id, p);
    }
  }

  lemma {:induction false} ApplyKeepsAcyclic(staff: Staff, op: Op, today: Day)
    requires Linked(staff) && Acyclic(staff)
    ensures Linked(Apply(staff, op, today)) && Acyclic(Apply(staff, op, today))
  {
    hide Acyclic, Removed;
    match op
    case Hire(id, manager) =>
      if id !in staff && Accepted(staff, None, manager, today) {
        HireKeepsAcyclic(staff, id, manager);
      }
    case Assign(id, manager) =>
      if id in staff && Accepted(staff, Some(id), manager, today) {
        AcceptedKeepsAcyclic(staff, id, manager, today);
      }
    case Employment(id, active, endDate) =>
      if id in staff {
        EmploymentKeepsAcyclic(staff, id, active, endDate);
      }
    case Remove(id) => RemovedKeepsAcyclic(staff, id);
  }

  ghost function Run(staff: Staff, ops: seq<(Op, Day)>): Staff
    decreases |ops|
  {
    if ops == [] then staff else Run(Apply(staff, ops[0].0, ops[0].1), ops[1..])
  }

  /** No run of hires, changes of manager, employment changes and removals creates a cycle. */
  lemma {:induction false} NeverCyclic(staff: Staff, ops: seq<(Op, Day)>)
    requires Linked(staff) && Acyclic(staff)
    ensures Linked(Run(staff, ops)) && Acyclic(Run(staff, ops))
    decreases |ops|
  {
    if ops != [] {
      ApplyKeepsAcyclic(staff, ops[0].0, ops[0].1);
      NeverCyclic(Apply(staff, ops[0].0, ops[0].1), ops[1..]);
    }
  }

  // ---- the service

  class Directory {
    var staff: Staff

    constructor ()
      ensures staff == map[]
    {
      staff := map[];
    }

    /** The checks of a proposed manager, in order. */
    method CheckManager(self: Option<Id>, manager: Id, today: Day) returns (error: Option<Error>)
      requires Linked(staff) && manager in staff
      ensures error.None? <==> Accepted(staff, self, Some(manager), today)
      ensures error == Some(SelfReport) <==> self == Some(manager)
      ensures error == Some(WouldCycle) ==> self.Some? && Reaches(staff, manager, self.value)
      ensures error == Some(AlreadyCyclic) ==> !Topped(staff, manager)
    {
      if self == Some(manager) {
        return Some(SelfReport);
      }
      var profile := staff[manager];
      if !profile.active {
        return Some(InactiveManager);
      }
      if profile.endDate.Some? && profile.endDate.value < today {
        return Some(EndedManager);
      }
      var verdict := Walk(staff, self, manager);
      match verdict
      case MeetsSelf => return Some(WouldCycle);
      case MeetsCycle => return Some(AlreadyCyclic);
      case Clear => return None;
    }

    method Hire(id: Id, manager: Option<Id>, today: Day) returns (error: Option<Error>)
      requires Linked(staff)
      modifies this
      ensures staff == Apply(old(staff), Op.Hire(id, manager), today)
    {
      if id in staff || (manager.Some? && manager.value !in staff) {
        return Some(Unknown);
      }
      if manager.Some? {
        error := CheckManager(None, manager.value, today);
        if error.Some? {
          return;
        }
      }
      staff := staff[id := Profile(manager, true, None)];
      return None;
    }

    method Assign(id: Id, manager: Option<Id>, today: Day) returns (error: Option<Error>)
      requires Linked(staff)
      modifies this
      ensures staff == Apply(old(staff), Op.Assign(id, manager), today)
      ensures error.None? <==> id in old(staff) && Accepted(old(staff), Some(id), manager, today)
    {
      if id !in staff || (manager.Some? && manager.value !in staff) {
        return Some(Unknown);
      }
      if manager.Some? {
        error := CheckManager(Some(id), manager.value, today);
        if error.Some? {
          return;
        }
      }
      staff := WithManager(staff, id, manager);
      return None;
    }
  }
}
