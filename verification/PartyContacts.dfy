/** Merging the roles and contact methods of one party into another. */
module PartyContacts {
  import opened Options

  // ---- roles: one row per role

  /** `deactivated` says that the deactivation time is set. */
  datatype Role = Role(role: string, active: bool, deactivated: bool, notes: string)

  ghost predicate RoleSaved(r: Role) {
    r.deactivated <==> !r.active
  }

  ghost predicate OnePerRole(rows: seq<Role>) {
    && (forall i | 0 <= i < |rows| :: RoleSaved(rows[i]))
    && forall i, j | 0 <= i < j < |rows| :: rows[i].role != rows[j].role
  }

  function FindRole(rows: seq<Role>, role: string): (k: Option<nat>)
    ensures k.Some? ==> k.value < |rows| && rows[k.value].role == role
    ensures k.None? ==> forall i | 0 <= i < |rows| :: rows[i].role != role
  {
    if rows == [] then None
    else if rows[|rows| - 1].role == role then Some(|rows| - 1)
    else FindRole(rows[..|rows| - 1], role)
  }

  predicate StartsAt(text: string, part: string, i: int) {
    0 <= i <= |text| - |part| && text[i..i + |part|] == part
  }

  predicate Contains(text: string, part: string) {
    exists i :: 0 <= i <= |text| && StartsAt(text, part, i)
  }

  /** Notes that say something new are joined on, and the whole is tidied. */
  function JoinedNotes(kept: string, offered: string, tidy: string -> string): string {
    if offered == "" || Contains(kept, offered) then kept
    else tidy(if kept == "" then offered else kept + "\n" + offered)
  }

  function CombineRole(row: Role, kept: Role, tidy: string -> string): Role {
    var woken := if row.active && !kept.active then kept.(active := true, deactivated := false) else kept;
    woken.(notes := JoinedNotes(kept.notes, row.notes, tidy))
  }

  function MergeRole(target: seq<Role>, row: Role, tidy: string -> string): seq<Role> {
    var k := FindRole(target, row.role);
    if k.None? then target + [row] else target[k.value := CombineRole(row, target[k.value], tidy)]
  }

  function MergeRoles(source: seq<Role>, target: seq<Role>, tidy: string -> string): seq<Role>
    decreases |source|
  {
    if source == [] then target else MergeRoles(source[1..], MergeRole(target, source[0], tidy), tidy)
  }

  ghost predicate HasRole(rows: seq<Role>, role: string) {
    exists i :: 0 <= i < |rows| && rows[i].role == role
  }

  ghost predicate ActiveRole(rows: seq<Role>, role: string) {
    exists i :: 0 <= i < |rows| && rows[i].role == role && rows[i].active
  }

  lemma {:induction false} MergeRoleStep(target: seq<Role>, row: Role, tidy: string -> string, role: string)
    requires OnePerRole(target) && RoleSaved(row)
    ensures var merged := MergeRole(target, row, tidy);
            && OnePerRole(merged)
            && (HasRole(merged, role) <==> HasRole(target, role) || row.role == role)
            && (ActiveRole(merged, role) <==> ActiveRole(target, role) || (row.role == role && row.active))
  {
    var merged := MergeRole(target, row, tidy);
    assert |target| < |merged| ==> merged[|target|] == row;
    forall i | 0 <= i < |target| && target[i].role == role
      ensures merged[i].role == role && (target[i].active ==> merged[i].active)
    {
    }
  }

  lemma {:induction false} RoleHead(rows: seq<Role>, role: string)
    requires OnePerRole(rows) && rows != []
    ensures OnePerRole(rows[1..])
    ensures HasRole(rows, role) <==> rows[0].role == role || HasRole(rows[1..], role)
    ensures ActiveRole(rows, role) <==> (rows[0].role == role && rows[0].active) || ActiveRole(rows[1..], role)
  {
    forall i | 1 <= i < |rows| ensures rows[1..][i - 1] == rows[i] {
    }
    if HasRole(rows[1..], role) {
      var i :| 0 <= i < |rows[1..]| && rows[1..][i].role == role;
      assert rows[i + 1].role == role;
    }
    if ActiveRole(rows[1..], role) {
      var i :| 0 <= i < |rows[1..]| && rows[1..][i].role == role && rows[1..][i].active;
      assert rows[i + 1].role == role && rows[i + 1].active;
    }
  }

  /** After the roles of a source are merged, the target has one row per role of either party, and a role
      is active exactly when it was active on one of them. */
  lemma {:induction false} MergedRoles(source: seq<Role>, target: seq<Role>, tidy: string -> string, role: string)
    requires OnePerRole(source) && OnePerRole(target)
    ensures var merged := MergeRoles(source, target, tidy);
            && OnePerRole(merged)
            && (HasRole(merged, role) <==> HasRole(source, role) || HasRole(target, role))
            && (ActiveRole(merged, role) <==> ActiveRole(source, role) || ActiveRole(target, role))
    decreases |source|
  {
    if source != [] {
      RoleHead(source, role);
      MergeRoleStep(target, source[0], tidy, role);
      MergedRoles(source[1..], MergeRole(target, source[0], tidy), tidy, role);
    }
  }

  function RoleOf(rows: seq<Role>, role: string): Option<Role> {
    var k := FindRole(rows, role);
    if k.Some? then Some(rows[k.value]) else None
  }

  lemma {:induction false} RoleAt(rows: seq<Role>, k: nat)
    requires OnePerRole(rows) && k < |rows|
    ensures RoleOf(rows, rows[k].role) == Some(rows[k])
  {
  }

  function JoinedRole(offered: Option<Role>, kept: Option<Role>, tidy: string -> string): Option<Role> {
    if offered.None? then kept else if kept.None? then offered else Some(CombineRole(offered.value, kept.value, tidy))
  }

  lemma {:induction false} MergeRoleFound(target: seq<Role>, row: Role, tidy: string -> string, role: string)
    requires OnePerRole(target) && RoleSaved(row)
    ensures RoleOf(MergeRole(target, row, tidy), role)
         == JoinedRole(if row.role == role then Some(row) else None, RoleOf(target, role), tidy)
  {
    var merged := MergeRole(target, row, tidy);
    MergeRoleStep(target, row, tidy, role);
    var k := FindRole(target, role);
    if k.Some? {
      RoleAt(merged, k.value);
    } else if row.role == role {
      RoleAt(merged, |target|);
    }
  }

  lemma {:induction false} RoleOfHead(rows: seq<Role>, role: string)
    requires OnePerRole(rows) && rows != []
    ensures RoleOf(rows, role) == if rows[0].role == role then Some(rows[0]) else RoleOf(rows[1..], role)
    ensures rows[0].role == role ==> RoleOf(rows[1..], role).None?
  {
    var k := FindRole(rows[1..], role);
    if k.Some? {
      RoleAt(rows, k.value + 1);
    } else if rows[0].role == role {
      RoleAt(rows, 0);
    } else {
      assert forall i | 1 <= i < |rows| :: rows[1..][i - 1] == rows[i];
    }
  }

  /** The target's row of each role in full: the source's if it had none, and otherwise its own, woken if the
      source's was active and with notes that were not in it joined on. */
  lemma {:induction false} RolesJoined(source: seq<Role>, target: seq<Role>, tidy: string -> string, role: string)
    requires OnePerRole(source) && OnePerRole(target)
    ensures RoleOf(MergeRoles(source, target, tidy), role)
         == JoinedRole(RoleOf(source, role), RoleOf(target, role), tidy)
    decreases |source|
  {
    if source != [] {
      RoleHead(source, role);
      RoleOfHead(source, role);
      MergeRoleStep(target, source[0], tidy, role);
      MergeRoleFound(target, source[0], tidy, role);
      RolesJoined(source[1..], MergeRole(target, source[0], tidy), tidy, role);
    }
  }

  // ---- contact methods: one row per kind and normalised value, one active primary per kind

  datatype Contact = Contact(kind: string, value: string, verified: bool, active: bool, primary: bool)

  /** Saving a primary contact method makes it active. */
  ghost predicate ContactSaved(c: Contact) {
    c.primary ==> c.active
  }

  predicate Leads(c: Contact, kind: string) {
    c.kind == kind && c.primary && c.active
  }

  ghost predicate ContactsValid(rows: seq<Contact>) {
    && (forall i | 0 <= i < |rows| :: ContactSaved(rows[i]))
    && (forall i, j | 0 <= i < j < |rows| :: rows[i].kind != rows[j].kind || rows[i].value != rows[j].value)
    && (forall i, j, kind | 0 <= i < j < |rows| && Leads(rows[i], kind) :: !Leads(rows[j], kind))
  }

  function FindContact(rows: seq<Contact>, kind: string, value: string): (k: Option<nat>)
    ensures k.Some? ==> k.value < |rows| && rows[k.value].kind == kind && rows[k.value].value == value
    ensures k.None? ==> forall i | 0 <= i < |rows| :: rows[i].kind != kind || rows[i].value != value
  {
    if rows == [] then None
    else if rows[|rows| - 1].kind == kind && rows[|rows| - 1].value == value then Some(|rows| - 1)
    else FindContact(rows[..|rows| - 1], kind, value)
  }

  predicate HasPrimary(rows: seq<Contact>, kind: string) {
    exists i :: 0 <= i < |rows| && Leads(rows[i], kind)
  }

  predicate HasOtherPrimary(rows: seq<Contact>, kind: string, k: nat) {
    exists i :: 0 <= i < |rows| && i != k && Leads(rows[i], kind)
  }

  function CombineContact(kept: Contact, row: Contact, otherPrimary: bool): Contact {
    var primary := kept.primary || (row.primary && !otherPrimary);
    kept.(verified := kept.verified || row.verified, primary := primary, active := kept.active || row.active || primary)
  }

  function MergeContact(target: seq<Contact>, row: Contact): seq<Contact> {
    var k := FindContact(target, row.kind, row.value);
    if k.Some? then
      target[k.value := CombineContact(target[k.value], row, HasOtherPrimary(target, row.kind, k.value))]
    else target + [row.(primary := row.primary && !HasPrimary(target, row.kind))]
  }

  function MergeContacts(source: seq<Contact>, target: seq<Contact>): seq<Contact>
    decreases |source|
  {
    if source == [] then target else MergeContacts(source[1..], MergeContact(target, source[0]))
  }

  datatype Mark = Present | Verified | Active

  predicate Shows(c: Contact, mark: Mark) {
    match mark
    case Present => true
    case Verified => c.verified
    case Active => c.active
  }

  predicate Bears(c: Contact, kind: string, value: string, mark: Mark) {
    c.kind == kind && c.value == value && Shows(c, mark)
  }

  ghost predicate Marked(rows: seq<Contact>, kind: string, value: string, mark: Mark) {
    exists i :: 0 <= i < |rows| && Bears(rows[i], kind, value, mark)
  }

  /** Row by row, `later` keeps every contact method of `rows` and takes no mark or primary from it. */
  ghost predicate Keeps(rows: seq<Contact>, later: seq<Contact>) {
    && |rows| <= |later|
    && forall i | 0 <= i < |rows| ::
         && later[i].kind == rows[i].kind && later[i].value == rows[i].value
         && (rows[i].verified ==> later[i].verified) && (rows[i].active ==> later[i].active)
         && (rows[i].primary ==> later[i].primary)
  }

  lemma {:induction false} MergeContactValid(target: seq<Contact>, row: Contact)
    requires ContactsValid(target) && ContactSaved(row)
    ensures ContactsValid(MergeContact(target, row)) && Keeps(target, MergeContact(target, row))
  {
  }

  lemma {:induction false} MergeContactMarks(target: seq<Contact>, row: Contact, kind: string, value: string,
      mark: Mark)
    requires ContactsValid(target) && ContactSaved(row)
    ensures Marked(MergeContact(target, row), kind, value, mark)
       <==> Marked(target, kind, value, mark) || Bears(row, kind, value, mark)
  {
    var merged := MergeContact(target, row);
    var found := FindContact(target, row.kind, row.value);
    var k := if found.Some? then found.value else |target|;
    forall i | 0 <= i < |target| && i != k ensures merged[i] == target[i] {
    }
    if Marked(target, kind, value, mark) {
      var i :| 0 <= i < |target| && Bears(target[i], kind, value, mark);
      assert Bears(merged[i], kind, value, mark);
    }
    if Bears(row, kind, value, mark) {
      assert Bears(merged[k], kind, value, mark);
    }
    if Marked(merged, kind, value, mark) {
      var i :| 0 <= i < |merged| && Bears(merged[i], kind, value, mark);
      assert i == k || Bears(target[i], kind, value, mark);
      assert i == k && found.Some? ==> Bears(target[k], kind, value, mark) || Bears(row, kind, value, mark);
    }
  }

  lemma {:induction false} MergeContactPrimary(target: seq<Contact>, row: Contact, kind: string)
    requires ContactsValid(target) && ContactSaved(row)
    ensures HasPrimary(MergeContact(target, row), kind) <==> HasPrimary(target, kind) || Leads(row, kind)
  {
    var merged := MergeContact(target, row);
    var found := FindContact(target, row.kind, row.value);
    var k := if found.Some? then found.value else |target|;
    forall i | 0 <= i < |target| && i != k ensures merged[i] == target[i] {
    }
    if HasPrimary(target, kind) {
      var i :| 0 <= i < |target| && Leads(target[i], kind);
      assert Leads(merged[i], kind);
    } else if Leads(row, kind) {
      assert !HasOtherPrimary(target, kind, k);
      assert Leads(merged[k], kind);
    }
    if HasPrimary(merged, kind) {
      var i :| 0 <= i < |merged| && Leads(merged[i], kind);
      assert i == k || Leads(target[i], kind);
    }
  }

  lemma {:induction false} PrimaryHead(rows: seq<Contact>, kind: string)
    requires rows != []
    ensures HasPrimary(rows, kind) <==> Leads(rows[0], kind) || HasPrimary(rows[1..], kind)
  {
    if HasPrimary(rows[1..], kind) {
      var i :| 0 <= i < |rows[1..]| && Leads(rows[1..][i], kind);
      assert Leads(rows[i + 1], kind);
    }
    if HasPrimary(rows, kind) && !Leads(rows[0], kind) {
      var i :| 0 <= i < |rows| && Leads(rows[i], kind);
      assert Leads(rows[1..][i - 1], kind);
    }
  }

  lemma {:induction false} ValidTail(rows: seq<Contact>)
    requires ContactsValid(rows) && rows != []
    ensures ContactsValid(rows[1..]) && ContactSaved(rows[0])
  {
  }

  lemma {:induction false} KeepsOnward(rows: seq<Contact>, next: seq<Contact>, later: seq<Contact>)
    requires Keeps(rows, next) && Keeps(next, later)
    ensures Keeps(rows, later)
  {
  }

  /** Merging contact methods keeps both constraints and every row, mark and primary of the target; a kind
      has a primary afterwards exactly when one of the parties had one. */
  lemma {:induction false} MergedContacts(source: seq<Contact>, target: seq<Contact>, kind: string)
    requires ContactsValid(target) && ContactsValid(source)
    ensures var merged := MergeContacts(source, target);
            && ContactsValid(merged) && Keeps(target, merged)
            && (HasPrimary(merged, kind) <==> HasPrimary(source, kind) || HasPrimary(target, kind))
    decreases |source|
  {
    if source != [] {
      var next := MergeContact(target, source[0]);
      ValidTail(source);
      MergeContactValid(target, source[0]);
      MergeContactPrimary(target, source[0], kind);
      PrimaryHead(source, kind);
      MergedContacts(source[1..], next, kind);
      KeepsOnward(target, next, MergeContacts(source, target));
    }
  }

  lemma {:induction false} MarkedHead(rows: seq<Contact>, kind: string, value: string, mark: Mark)
    requires rows != []
    ensures Marked(rows, kind, value, mark)
        <==> Bears(rows[0], kind, value, mark) || Marked(rows[1..], kind, value, mark)
  {
    if Marked(rows[1..], kind, value, mark) {
      var i :| 0 <= i < |rows[1..]| && Bears(rows[1..][i], kind, value, mark);
      assert Bears(rows[i + 1], kind, value, mark);
    }
    if Marked(rows, kind, value, mark) && !Bears(rows[0], kind, value, mark) {
      var i :| 0 <= i < |rows| && Bears(rows[i], kind, value, mark);
      assert Bears(rows[1..][i - 1], kind, value, mark);
    }
  }

  /** The target ends with the contact methods of both parties, each verified or active exactly when it
      was so on one of them. */
  lemma {:induction false} MergedMarks(source: seq<Contact>, target: seq<Contact>, kind: string, value: string,
      mark: Mark)
    requires ContactsValid(target) && ContactsValid(source)
    ensures Marked(MergeContacts(source, target), kind, value, mark)
       <==> Marked(source, kind, value, mark) || Marked(target, kind, value, mark)
    decreases |source|
  {
    if source != [] {
      MergeContactValid(target, source[0]);
      MergeContactMarks(target, source[0], kind, value, mark);
      ValidTail(source);
      MarkedHead(source, kind, value, mark);
      MergedMarks(source[1..], MergeContact(target, source[0]), kind, value, mark);
    }
  }
}
