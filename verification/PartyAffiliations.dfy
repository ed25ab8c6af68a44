/** The table of affiliations between people and organisations, and what merging two parties does to it. */
module PartyAffiliations {
  import opened Options

  type Id = nat

  // ---- contact roles: one assignment per affiliation and role

  datatype Assignment = Assignment(role: Id, primary: bool)

  ghost predicate UniqueRoles(rows: seq<Assignment>) {
    forall i, j | 0 <= i < j < |rows| :: rows[i].role != rows[j].role
  }

  function FindRole(rows: seq<Assignment>, role: Id): (k: Option<nat>)
    ensures k.Some? ==> k.value < |rows| && rows[k.value].role == role
    ensures k.None? ==> forall i | 0 <= i < |rows| :: rows[i].role != role
  {
    if rows == [] then None
    else if rows[|rows| - 1].role == role then Some(|rows| - 1)
    else FindRole(rows[..|rows| - 1], role)
  }

  /** The role is assigned if it was not, and becomes primary if the moved assignment is. */
  function MoveRole(target: seq<Assignment>, row: Assignment): seq<Assignment> {
    var k := FindRole(target, row.role);
    if k.None? then target + [row]
    else if row.primary && !target[k.value].primary then target[k.value := target[k.value].(primary := true)]
    else target
  }

  function MoveRoles(source: seq<Assignment>, target: seq<Assignment>): seq<Assignment>
    decreases |source|
  {
    if source == [] then target else MoveRoles(source[1..], MoveRole(target, source[0]))
  }

  ghost predicate Assigned(rows: seq<Assignment>, role: Id) {
    exists i :: 0 <= i < |rows| && rows[i].role == role
  }

  ghost predicate Primary(rows: seq<Assignment>, role: Id) {
    exists i :: 0 <= i < |rows| && rows[i].role == role && rows[i].primary
  }

  lemma {:induction false} MoveRoleStep(target: seq<Assignment>, row: Assignment, role: Id)
    requires UniqueRoles(target)
    ensures var moved := MoveRole(target, row);
            && UniqueRoles(moved)
            && (Assigned(moved, role) <==> Assigned(target, role) || row.role == role)
            && (Primary(moved, role) <==> Primary(target, role) || (row.role == role && row.primary))
  {
    var moved := MoveRole(target, row);
    assert |target| < |moved| ==> moved[|target|] == row;
    forall i | 0 <= i < |target| && target[i].role == role
      ensures moved[i].role == role && (target[i].primary ==> moved[i].primary)
    {
    }
  }

  lemma {:induction false} RoleHead(rows: seq<Assignment>, role: Id)
    requires UniqueRoles(rows) && rows != []
    ensures UniqueRoles(rows[1..])
    ensures Assigned(rows, role) <==> rows[0].role == role || Assigned(rows[1..], role)
    ensures Primary(rows, role) <==> (rows[0].role == role && rows[0].primary) || Primary(rows[1..], role)
  {
    forall i | 1 <= i < |rows| ensures rows[1..][i - 1] == rows[i] {
    }
    if Assigned(rows[1..], role) {
      var i :| 0 <= i < |rows[1..]| && rows[1..][i].role == role;
      assert rows[i + 1].role == role;
    }
    if Primary(rows[1..], role) {
      var i :| 0 <= i < |rows[1..]| && rows[1..][i].role == role && rows[1..][i].primary;
      assert rows[i + 1].role == role && rows[i + 1].primary;
    }
  }

  /** After the assignments are moved, each role is assigned at most once, and is assigned, and primary,
      exactly when it was on one of the two affiliations. */
  lemma {:induction false} MovedRoles(source: seq<Assignment>, target: seq<Assignment>, role: Id)
    requires UniqueRoles(source) && UniqueRoles(target)
    ensures var moved := MoveRoles(source, target);
            && UniqueRoles(moved)
            && (Assigned(moved, role) <==> Assigned(source, role) || Assigned(target, role))
            && (Primary(moved, role) <==> Primary(source, role) || Primary(target, role))
    decreases |source|
  {
    if source != [] {
      RoleHead(source, role);
      MoveRoleStep(target, source[0], role);
      MovedRoles(source[1..], MoveRole(target, source[0]), role);
    }
  }

  // ---- affiliations

  datatype Affiliation = Affiliation(
    person: Id, organisation: Id, current: bool, primaryContact: bool,
    jobTitle: string, department: string, notes: string, roles: seq<Assignment>)

  /** A row is named by its index; a deleted row is `None`. */
  type Table = seq<Option<Affiliation>>

  /** The end of an affiliation that a party stands at. */
  datatype End = Person | Organisation

  function Near(row: Affiliation, end: End): Id {
    if end == Person then row.person else row.organisation
  }

  function Far(row: Affiliation, end: End): Id {
    if end == Person then row.organisation else row.person
  }

  function Redirected(row: Affiliation, end: End, id: Id): Affiliation {
    if end == Person then row.(person := id) else row.(organisation := id)
  }

  function Filled(kept: string, offered: string): string {
    if kept == "" then offered else kept
  }

  function Combine(row: Affiliation, kept: Affiliation): Affiliation {
    kept.(jobTitle := Filled(kept.jobTitle, row.jobTitle),
          department := Filled(kept.department, row.department),
          notes := Filled(kept.notes, row.notes),
          primaryContact := kept.primaryContact || row.primaryContact,
          roles := MoveRoles(row.roles, kept.roles))
  }

  /** A current affiliation of `near`, standing at `end`, with `far`. */
  predicate Links(slot: Option<Affiliation>, end: End, near: Id, far: Id) {
    slot.Some? && slot.value.current && Near(slot.value, end) == near && Far(slot.value, end) == far
  }

  function FindCurrent(table: Table, end: End, near: Id, far: Id): (k: Option<nat>)
    ensures k.Some? ==> k.value < |table| && Links(table[k.value], end, near, far)
    ensures k.None? ==> forall i | 0 <= i < |table| :: !Links(table[i], end, near, far)
  {
    if table == [] then None
    else if Links(table[|table| - 1], end, near, far) then Some(|table| - 1)
    else FindCurrent(table[..|table| - 1], end, near, far)
  }

  // ---- reassigning the affiliations of a source to a target

  /** One affiliation of the source: dropped when it is with the target, combined into a current one that the
      target already has, or redirected. Other rows stay. */
  function Reassign(table: Table, end: End, source: Id, target: Id, i: nat): (next: Table)
    requires i < |table|
    ensures |next| == |table|
  {
    if table[i].None? || Near(table[i].value, end) != source then table
    else
      var row := table[i].value;
      if Far(row, end) == target then table[i := None]
      else
        var k := if row.current then FindCurrent(table, end, target, Far(row, end)) else None;
        if k.Some? then table[k.value := Some(Combine(row, table[k.value].value))][i := None]
        else table[i := Some(Redirected(row, end, target))]
  }

  function ReassignUpTo(table: Table, end: End, source: Id, target: Id, n: nat): (next: Table)
    requires n <= |table|
    ensures |next| == |table|
  {
    if n == 0 then table else Reassign(ReassignUpTo(table, end, source, target, n - 1), end, source, target, n - 1)
  }

  function ReassignAll(table: Table, end: End, source: Id, target: Id): (next: Table)
    ensures |next| == |table|
  {
    ReassignUpTo(table, end, source, target, |table|)
  }

  /** No two current affiliations join the same person and organisation. */
  ghost predicate PairsOnce(table: Table) {
    forall i, j | 0 <= i < j < |table| && table[i].Some? && table[j].Some? && table[i].value.current
        && table[j].value.current ::
      table[i].value.person != table[j].value.person || table[i].value.organisation != table[j].value.organisation
  }

  /** No party is affiliated with itself, and no affiliation has a role twice. */
  ghost predicate Proper(table: Table) {
    forall i | 0 <= i < |table| && table[i].Some? ::
      table[i].value.person != table[i].value.organisation && UniqueRoles(table[i].value.roles)
  }

  // ---- the result in closed form

  /** Row `j` after the first `n` rows have been gone through, in terms of the table before the merge only. */
  function Slot(table: Table, end: End, source: Id, target: Id, n: nat, j: nat): Option<Affiliation>
    requires n <= |table| && j < |table|
  {
    if table[j].None? then None
    else
      var row := table[j].value;
      if Near(row, end) == source then
        if n <= j then table[j]
        else if Far(row, end) == target then None
        else if row.current && FindCurrent(table, end, target, Far(row, end)).Some? then None
        else Some(Redirected(row, end, target))
      else if Near(row, end) == target && row.current then
        var k := FindCurrent(table[..n], end, source, Far(row, end));
        if k.Some? then Some(Combine(table[k.value].value, row)) else table[j]
      else table[j]
  }

  ghost predicate Staged(table: Table, end: End, source: Id, target: Id, n: nat, stage: Table)
    requires n <= |table|
  {
    |stage| == |table| && forall j | 0 <= j < |table| :: stage[j] == Slot(table, end, source, target, n, j)
  }

  lemma {:induction false} PairAt(table: Table, end: End, near: Id, far: Id, i: nat, j: nat)
    requires PairsOnce(table) && i < |table| && j < |table|
    requires Links(table[i], end, near, far) && Links(table[j], end, near, far)
    ensures i == j
  {
  }

  /** A row that the merge has gone through is looked up as it was before the merge. */
  lemma {:induction false} FoundAsBefore(table: Table, end: End, source: Id, target: Id, n: nat, stage: Table)
    requires source != target && PairsOnce(table) && n < |table| && Staged(table, end, source, target, n, stage)
    requires table[n].Some? && table[n].value.current && Near(table[n].value, end) == source
    ensures var far := Far(table[n].value, end);
            && FindCurrent(stage, end, target, far) == FindCurrent(table, end, target, far)
            && (var k := FindCurrent(table, end, target, far); k.Some? ==> stage[k.value] == table[k.value])
  {
    var far := Far(table[n].value, end);
    assert Links(table[n], end, source, far);
    forall j | 0 <= j < |table| ensures Links(stage[j], end, target, far) <==> Links(table[j], end, target, far) {
      assert stage[j] == Slot(table, end, source, target, n, j);
      if Links(table[j], end, source, far) {
        PairAt(table, end, source, far, n, j);
      }
    }
    var k, m := FindCurrent(table, end, target, far), FindCurrent(stage, end, target, far);
    if k.Some? {
      assert m.Some?;
      PairAt(table, end, target, far, k.value, m.value);
      var s := FindCurrent(table[..n], end, source, far);
      if s.Some? {
        PairAt(table, end, source, far, s.value, n);
      }
      assert stage[k.value] == Slot(table, end, source, target, n, k.value);
    }
  }

  lemma {:induction false} FindNext(table: Table, n: nat, end: End, near: Id, far: Id)
    requires n < |table|
    ensures FindCurrent(table[..n + 1], end, near, far)
         == if Links(table[n], end, near, far) then Some(n) else FindCurrent(table[..n], end, near, far)
  {
    assert table[..n + 1][..n] == table[..n];
  }

  /** A row that is not an affiliation of the source changes no slot. */
  lemma {:induction false} SlotSkipped(table: Table, end: End, source: Id, target: Id, n: nat, j: nat)
    requires n < |table| && j < |table| && (table[n].None? || Near(table[n].value, end) != source)
    ensures Slot(table, end, source, target, n + 1, j) == Slot(table, end, source, target, n, j)
  {
    if table[j].Some? {
      FindNext(table, n, end, source, Far(table[j].value, end));
    }
  }

  lemma {:induction false} SlotGone(table: Table, end: End, source: Id, target: Id, n: nat, j: nat)
    requires source != target && Proper(table) && n < |table| && j < |table|
    requires table[n].Some? && Near(table[n].value, end) == source
    requires Far(table[n].value, end) == target || !table[n].value.current
    requires n != j
    ensures Slot(table, end, source, target, n + 1, j) == Slot(table, end, source, target, n, j)
  {
    if table[j].Some? {
      FindNext(table, n, end, source, Far(table[j].value, end));
    }
  }

  lemma {:induction false} SlotTaken(table: Table, end: End, source: Id, target: Id, n: nat, stage: Table, j: nat)
    requires source != target && PairsOnce(table) && Proper(table) && n < |table| && j < |table|
    requires Staged(table, end, source, target, n, stage)
    requires table[n].Some? && Near(table[n].value, end) == source && table[n].value.current
    requires Far(table[n].value, end) != target
    ensures Reassign(stage, end, source, target, n)[j] == Slot(table, end, source, target, n + 1, j)
  {
    var far := Far(table[n].value, end);
    FoundAsBefore(table, end, source, target, n, stage);
    assert stage[n] == Slot(table, end, source, target, n, n) && stage[j] == Slot(table, end, source, target, n, j);
    if table[j].Some? {
      FindNext(table, n, end, source, Far(table[j].value, end));
    }
    if Links(table[j], end, target, far) {
      var k := FindCurrent(table, end, target, far);
      PairAt(table, end, target, far, k.value, j);
    }
  }

  lemma {:induction false} SlotNext(table: Table, end: End, source: Id, target: Id, n: nat, stage: Table, j: nat)
    requires source != target && PairsOnce(table) && Proper(table) && n < |table| && j < |table|
    requires Staged(table, end, source, target, n, stage)
    ensures Reassign(stage, end, source, target, n)[j] == Slot(table, end, source, target, n + 1, j)
  {
    assert stage[n] == Slot(table, end, source, target, n, n) && stage[j] == Slot(table, end, source, target, n, j);
    if table[n].None? || Near(table[n].value, end) != source {
      SlotSkipped(table, end, source, target, n, j);
    } else if table[n].value.current && Far(table[n].value, end) != target {
      SlotTaken(table, end, source, target, n, stage, j);
    } else if n != j {
      SlotGone(table, end, source, target, n, j);
    }
  }

  /** Going through the rows one after the other, looking the target's affiliations up in the changing table,
      gives each row what the table before the merge determines. */
  lemma {:induction false} Reassigned(table: Table, end: End, source: Id, target: Id, n: nat)
    requires source != target && PairsOnce(table) && Proper(table) && n <= |table|
    ensures Staged(table, end, source, target, n, ReassignUpTo(table, end, source, target, n))
    decreases n
  {
    if n == 0 {
      forall j | 0 <= j < |table| ensures table[j] == Slot(table, end, source, target, 0, j) {
      }
    } else {
      Reassigned(table, end, source, target, n - 1);
      var stage := ReassignUpTo(table, end, source, target, n - 1);
      forall j | 0 <= j < |table|
        ensures Reassign(stage, end, source, target, n - 1)[j] == Slot(table, end, source, target, n, j)
      {
        SlotNext(table, end, source, target, n - 1, stage, j);
      }
    }
  }

  // ---- what the closed form says

  lemma {:induction false} SlotOf(table: Table, end: End, source: Id, target: Id, j: nat)
    requires source != target && PairsOnce(table) && Proper(table) && j < |table|
    ensures ReassignAll(table, end, source, target)[j] == Slot(table, end, source, target, |table|, j)
  {
    Reassigned(table, end, source, target, |table|);
  }

  /** After the reassignment no affiliation is the source's at that end, and no pair is joined twice. */
  lemma {:induction false} ReassignedOnce(table: Table, end: End, source: Id, target: Id)
    requires source != target && PairsOnce(table) && Proper(table)
    ensures var next := ReassignAll(table, end, source, target);
            && PairsOnce(next) && Proper(next)
            && forall j | 0 <= j < |next| && next[j].Some? :: Near(next[j].value, end) != source
  {
    var next := ReassignAll(table, end, source, target);
    forall j | 0 <= j < |table| ensures SlotProper(table, end, source, target, j, next[j]) {
      SlotOf(table, end, source, target, j);
      SlotIsProper(table, end, source, target, j);
    }
    forall i, j | 0 <= i < j < |next| && next[i].Some? && next[j].Some? && next[i].value.current
        && next[j].value.current
      ensures next[i].value.person != next[j].value.person || next[i].value.organisation != next[j].value.organisation
    {
      SlotOf(table, end, source, target, i);
      SlotOf(table, end, source, target, j);
      SlotsApart(table, end, source, target, i, j);
    }
  }

  ghost predicate SlotProper(table: Table, end: End, source: Id, target: Id, j: nat, slot: Option<Affiliation>)
    requires j < |table|
  {
    slot.Some? ==>
      && table[j].Some? && slot.value.current == table[j].value.current
      && Near(slot.value, end) == (if Near(table[j].value, end) == source then target else Near(table[j].value, end))
      && Far(slot.value, end) == Far(table[j].value, end)
      && slot.value.person != slot.value.organisation && UniqueRoles(slot.value.roles)
  }

  lemma {:induction false} SlotIsProper(table: Table, end: End, source: Id, target: Id, j: nat)
    requires source != target && Proper(table) && j < |table|
    ensures SlotProper(table, end, source, target, j, Slot(table, end, source, target, |table|, j))
  {
    assert table[..|table|] == table;
    if table[j].Some? && Near(table[j].value, end) != source {
      var k := FindCurrent(table, end, source, Far(table[j].value, end));
      if k.Some? {
        MovedRoles(table[k.value].value.roles, table[j].value.roles, 0);
      }
    }
  }

  lemma {:induction false} SlotsApart(table: Table, end: End, source: Id, target: Id, i: nat, j: nat)
    requires source != target && PairsOnce(table) && Proper(table) && i < j < |table|
    requires var a, b := Slot(table, end, source, target, |table|, i), Slot(table, end, source, target, |table|, j);
             a.Some? && b.Some? && a.value.current && b.value.current
    ensures var a, b := Slot(table, end, source, target, |table|, i), Slot(table, end, source, target, |table|, j);
            a.value.person != b.value.person || a.value.organisation != b.value.organisation
  {
    SlotIsProper(table, end, source, target, i);
    SlotIsProper(table, end, source, target, j);
    var a, b := Slot(table, end, source, target, |table|, i).value, Slot(table, end, source, target, |table|, j).value;
    assert Links(table[i], end, Near(table[i].value, end), Far(a, end));
    assert Links(table[j], end, Near(table[j].value, end), Far(b, end));
  }

  /** The current affiliation of a pair, when there is one. */
  function CurrentOf(table: Table, end: End, near: Id, far: Id): Option<Affiliation> {
    var k := FindCurrent(table, end, near, far);
    if k.Some? then table[k.value] else None
  }

  lemma {:induction false} CurrentAt(table: Table, end: End, near: Id, far: Id, k: nat)
    requires PairsOnce(table) && k < |table| && Links(table[k], end, near, far)
    ensures CurrentOf(table, end, near, far) == table[k]
  {
    var m := FindCurrent(table, end, near, far);
    PairAt(table, end, near, far, k, m.value);
  }

  function Joined(offered: Option<Affiliation>, kept: Option<Affiliation>, end: End, target: Id): Option<Affiliation> {
    if offered.None? then kept
    else if kept.None? then Some(Redirected(offered.value, end, target))
    else Some(Combine(offered.value, kept.value))
  }

  /** With every other party, seen from either end, the current affiliations of source and target become
      one, joined into the target's. */
  lemma {:induction false} CurrentJoined(table: Table, end: End, source: Id, target: Id, far: Id)
    requires source != target && far != target && PairsOnce(table) && Proper(table)
    ensures CurrentOf(ReassignAll(table, end, source, target), end, target, far)
         == Joined(CurrentOf(table, end, source, far), CurrentOf(table, end, target, far), end, target)
  {
    var next := ReassignAll(table, end, source, target);
    ReassignedOnce(table, end, source, target);
    assert table[..|table|] == table;
    var s, t := FindCurrent(table, end, source, far), FindCurrent(table, end, target, far);
    if t.Some? {
      SlotOf(table, end, source, target, t.value);
      CurrentAt(next, end, target, far, t.value);
    } else if s.Some? {
      SlotOf(table, end, source, target, s.value);
      CurrentAt(next, end, target, far, s.value);
    } else {
      var k := FindCurrent(next, end, target, far);
      if k.Some? {
        SlotOf(table, end, source, target, k.value);
        SlotIsProper(table, end, source, target, k.value);
        assert false;
      }
    }
  }
}
