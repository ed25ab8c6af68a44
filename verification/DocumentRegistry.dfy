/** Client codes, annual serials and the registered versions of documents, over whole runs. */
module DocumentRegistry {
  import opened Options
  import opened DocumentNumbers

  type Id = nat
  type Year = nat
  type Snapshot = string

  /** What a register stands for: a quotation, a delivery, or a record of the ledger. */
  datatype Source = OfQuotation(quotation: Id) | OfDelivery(delivery: Id) | OfLedger

  datatype Register = Register(source: Source, client: Id, number: Number)
  datatype Version = Version(register: nat, revision: nat, snapshot: Snapshot)

  datatype Registry = Registry(
    codes: map<Id, string>, last: map<Year, nat>, registers: seq<Register>, versions: seq<Version>)

  const EMPTY := Registry(map[], map[], [], [])

  datatype Error = Refused | Malformed | CodeFixed | CodeTaken | NoCode

  // ---- client codes

  predicate CodeUsed(r: Registry, code: string) {
    exists c :: c in r.codes && r.codes[c] == code
  }

  function CodeError(r: Registry, client: Id, code: string, allowed: bool): Option<Error> {
    if !allowed then Some(Refused)
    else if client in r.codes then (if r.codes[client] == code then None else Some(CodeFixed))
    else if CodeUsed(r, code) then Some(CodeTaken)
    else if !ValidCode(code) then Some(Malformed)
    else None
  }

  /** `opens` says that the caller also opens the sequence of the year, as procurement does. */
  function SetCode(r: Registry, client: Id, code: string, allowed: bool, opens: bool, year: Year): Registry {
    if CodeError(r, client, code, allowed).Some? || client in r.codes then r
    else r.(codes := r.codes[client := code],
            last := if opens && year !in r.last then r.last[year := 0] else r.last)
  }

  // ---- numbers

  function LastSerial(r: Registry, year: Year): nat {
    if year in r.last then r.last[year] else 0
  }

  function Allocate(r: Registry, client: Id, kind: Kind, source: Source, year: Year): Registry
    requires client in r.codes
  {
    var serial := LastSerial(r, year) + 1;
    r.(last := r.last[year := serial],
       registers := r.registers + [Register(source, client, Number(r.codes[client], kind, year, serial))])
  }

  function FindRegister(registers: seq<Register>, source: Source): (k: Option<nat>)
    ensures k.Some? ==> k.value < |registers| && registers[k.value].source == source
    ensures k.None? ==> forall i | 0 <= i < |registers| :: registers[i].source != source
  {
    if registers == [] then None
    else if registers[|registers| - 1].source == source then Some(|registers| - 1)
    else FindRegister(registers[..|registers| - 1], source)
  }

  function FindVersion(versions: seq<Version>, register: nat, revision: nat): (k: Option<nat>)
    ensures k.Some? ==>
              k.value < |versions| && versions[k.value].register == register && versions[k.value].revision == revision
    ensures k.None? ==> forall i | 0 <= i < |versions| ::
        versions[i].register != register || versions[i].revision != revision
  {
    if versions == [] then None
    else if versions[|versions| - 1].register == register && versions[|versions| - 1].revision == revision
    then Some(|versions| - 1)
    else FindVersion(versions[..|versions| - 1], register, revision)
  }

  // ---- preparing a document

  /** `quotation` names a quotation and one of its revisions; `sameRequest` says that the chosen document
      belongs to the request and `allowed` that the request could be locked. */
  datatype Order = Order(client: Id, kind: Kind, quotation: Option<(Id, nat)>, delivery: Option<Id>,
                         sameRequest: bool, allowed: bool, snapshot: Snapshot, year: Year)

  function OrderError(o: Order): Option<Error> {
    if !o.allowed then Some(Refused)
    else if o.kind.Invoice? || o.kind.Receipt? then Some(Malformed)
    else if o.kind.Quote? && (o.quotation.None? || o.delivery.Some?) then Some(Malformed)
    else if o.kind.Waybill? && (o.delivery.None? || o.quotation.Some?) then Some(Malformed)
    else if !o.sameRequest then Some(Refused)
    else None
  }

  function SourceOf(o: Order): Source
    requires OrderError(o).None?
  {
    if o.kind.Quote? then OfQuotation(o.quotation.value.0) else OfDelivery(o.delivery.value)
  }

  function RevisionOf(o: Order): nat
    requires OrderError(o).None?
  {
    if o.kind.Quote? then o.quotation.value.1 else 1
  }

  datatype Prepared = Prepared(registry: Registry, version: nat) | Unprepared(error: Error)

  function Prepare(r: Registry, o: Order): Prepared {
    if OrderError(o).Some? then Unprepared(OrderError(o).value)
    else
      var found := FindRegister(r.registers, SourceOf(o));
      if found.None? && o.client !in r.codes then Unprepared(NoCode)
      else
        var numbered := if found.Some? then r else Allocate(r, o.client, o.kind, SourceOf(o), o.year);
        var register := if found.Some? then found.value else |r.registers|;
        var version := FindVersion(numbered.versions, register, RevisionOf(o));
        if version.Some? then Prepared(numbered, version.value)
        else Prepared(numbered.(versions := numbered.versions + [Version(register, RevisionOf(o), o.snapshot)]),
                      |numbered.versions|)
  }

  /** The ledger registers an invoice or a receipt: always a new number. */
  function RegisterFinancial(r: Registry, client: Id, kind: Kind, revision: nat, snapshot: Snapshot, year: Year)
    : Registry
  {
    if client !in r.codes || kind.Quote? || kind.Waybill? then r
    else
      var numbered := Allocate(r, client, kind, OfLedger, year);
      numbered.(versions := numbered.versions + [Version(|r.registers|, revision, snapshot)])
  }

  datatype Op =
    | OpCode(client: Id, code: string, allowed: bool, opens: bool, year: Year)
    | OpPrepare(order: Order)
    | OpFinancial(client: Id, kind: Kind, revision: nat, snapshot: Snapshot, year: Year)

  function Apply(r: Registry, op: Op): Registry {
    match op
    case OpCode(client, code, allowed, opens, year) => SetCode(r, client, code, allowed, opens, year)
    case OpPrepare(order) => (match Prepare(r, order) case Prepared(next, _) => next case Unprepared(_) => r)
    case OpFinancial(client, kind, revision, snapshot, year) =>
      RegisterFinancial(r, client, kind, revision, snapshot, year)
  }

  function Run(r: Registry, ops: seq<Op>): Registry
    decreases |ops|
  {
    if ops == [] then r else Run(Apply(r, ops[0]), ops[1..])
  }

  // ---- invariant

  ghost predicate CodesValid(r: Registry) {
    && (forall c | c in r.codes :: ValidCode(r.codes[c]))
    && (forall c, d | c in r.codes && d in r.codes && r.codes[c] == r.codes[d] :: c == d)
  }

  /** The serials of a year, in the order of registration. */
  function Serials(registers: seq<Register>, year: Year): seq<nat> {
    if registers == [] then []
    else Serials(registers[..|registers| - 1], year)
         + (if registers[|registers| - 1].number.year == year then [registers[|registers| - 1].number.serial] else [])
  }

  function UpTo(n: nat): seq<nat> {
    seq(n, i => i + 1)
  }

  ghost predicate SerialsRun(r: Registry) {
    forall year :: Serials(r.registers, year) == UpTo(LastSerial(r, year))
  }

  ghost predicate Registered(r: Registry) {
    && (forall i | 0 <= i < |r.registers| ::
          r.registers[i].client in r.codes && r.registers[i].number.code == r.codes[r.registers[i].client])
    && (forall i, j | 0 <= i < j < |r.registers| && r.registers[i].source == r.registers[j].source ::
        r.registers[i].source == OfLedger)
  }

  ghost predicate Versioned(r: Registry) {
    && (forall i | 0 <= i < |r.versions| :: r.versions[i].register < |r.registers|)
    && (forall i, j | 0 <= i < j < |r.versions| ::
          r.versions[i].register != r.versions[j].register || r.versions[i].revision != r.versions[j].revision)
  }

  ghost predicate Inv(r: Registry) {
    CodesValid(r) && SerialsRun(r) && Registered(r) && Versioned(r)
  }

  lemma {:induction false} SerialsAppend(registers: seq<Register>, row: Register, year: Year)
    ensures Serials(registers + [row], year)
         == Serials(registers, year) + (if row.number.year == year then [row.number.serial] else [])
  {
    assert (registers + [row])[..|registers|] == registers;
  }

  lemma {:induction false} AllocateKeepsSerials(r: Registry, client: Id, kind: Kind, source: Source, year: Year)
    requires SerialsRun(r) && client in r.codes
    ensures SerialsRun(Allocate(r, client, kind, source, year))
  {
    var next := Allocate(r, client, kind, source, year);
    forall y: Year ensures Serials(next.registers, y) == UpTo(LastSerial(next, y)) {
      SerialsAppend(r.registers, next.registers[|r.registers|], y);
      assert Serials(r.registers, y) == UpTo(LastSerial(r, y));
      assert y == year ==> UpTo(LastSerial(r, y)) + [LastSerial(r, y) + 1] == UpTo(LastSerial(next, y));
    }
  }

  lemma {:induction false} AllocateKeeps(r: Registry, client: Id, kind: Kind, source: Source, year: Year)
    requires Inv(r) && client in r.codes
    requires source != OfLedger ==> FindRegister(r.registers, source).None?
    ensures Inv(Allocate(r, client, kind, source, year))
  {
    AllocateKeepsSerials(r, client, kind, source, year);
    assert Registered(Allocate(r, client, kind, source, year));
  }

  lemma {:induction false} SetCodeKeeps(r: Registry, client: Id, code: string, allowed: bool, opens: bool, year: Year)
    requires Inv(r)
    ensures Inv(SetCode(r, client, code, allowed, opens, year))
  {
    var next := SetCode(r, client, code, allowed, opens, year);
    assert forall y: Year :: LastSerial(next, y) == LastSerial(r, y);
  }

  lemma {:induction false} AddVersionKeeps(r: Registry, register: nat, revision: nat, snapshot: Snapshot)
    requires Inv(r) && register < |r.registers| && FindVersion(r.versions, register, revision).None?
    ensures Inv(r.(versions := r.versions + [Version(register, revision, snapshot)]))
  {
    var next := r.(versions := r.versions + [Version(register, revision, snapshot)]);
    assert forall year: Year :: LastSerial(next, year) == LastSerial(r, year);
  }

  lemma {:induction false} PrepareKeeps(r: Registry, o: Order)
    requires Inv(r) && Prepare(r, o).Prepared?
    ensures Inv(Prepare(r, o).registry)
  {
    var found := FindRegister(r.registers, SourceOf(o));
    var numbered := if found.Some? then r else Allocate(r, o.client, o.kind, SourceOf(o), o.year);
    var register := if found.Some? then found.value else |r.registers|;
    if found.None? {
      AllocateKeeps(r, o.client, o.kind, SourceOf(o), o.year);
    }
    if FindVersion(numbered.versions, register, RevisionOf(o)).None? {
      AddVersionKeeps(numbered, register, RevisionOf(o), o.snapshot);
    }
  }

  lemma {:induction false} FinancialKeeps(r: Registry, client: Id, kind: Kind, revision: nat, snapshot: Snapshot,
      year: Year)
    requires Inv(r)
    ensures Inv(RegisterFinancial(r, client, kind, revision, snapshot, year))
  {
    if client in r.codes && !kind.Quote? && !kind.Waybill? {
      AllocateKeeps(r, client, kind, OfLedger, year);
      AddVersionKeeps(Allocate(r, client, kind, OfLedger, year), |r.registers|, revision, snapshot);
    }
  }

  lemma {:induction false} ApplyKeeps(r: Registry, op: Op)
    requires Inv(r)
    ensures Inv(Apply(r, op))
  {
    match op
    case OpCode(client, code, allowed, opens, year) => SetCodeKeeps(r, client, code, allowed, opens, year);
    case OpPrepare(o) =>
      if Prepare(r, o).Prepared? {
        PrepareKeeps(r, o);
      }
    case OpFinancial(client, kind, revision, snapshot, year) =>
      FinancialKeeps(r, client, kind, revision, snapshot, year);
  }

  lemma {:induction false} RunKeeps(r: Registry, ops: seq<Op>)
    requires Inv(r)
    ensures Inv(Run(r, ops))
    decreases |ops|
  {
    if ops != [] {
      ApplyKeeps(r, ops[0]);
      RunKeeps(Apply(r, ops[0]), ops[1..]);
    }
  }

  lemma {:induction false} EmptyInv()
    ensures Inv(EMPTY)
  {
    assert forall year: Year :: UpTo(LastSerial(EMPTY, year)) == [];
  }

  /** After any run the serials of a year, in the order of registration, are exactly 1, 2, …, last serial. */
  lemma {:induction false} GaplessSerials(ops: seq<Op>, year: Year)
    ensures Serials(Run(EMPTY, ops).registers, year) == UpTo(LastSerial(Run(EMPTY, ops), year))
  {
    EmptyInv();
    RunKeeps(EMPTY, ops);
  }

  // ---- uniqueness of printed numbers

  lemma {:induction false} SerialAt(registers: seq<Register>, i: nat) returns (k: nat)
    requires i < |registers|
    ensures var serials := Serials(registers, registers[i].number.year);
            && k < |serials| && serials[k] == registers[i].number.serial
    ensures k == |Serials(registers[..i], registers[i].number.year)|
    decreases |registers|
  {
    var n := |registers| - 1;
    if i == n {
      k := |Serials(registers[..n], registers[n].number.year)|;
    } else {
      k := SerialAt(registers[..n], i);
      assert registers[..n][..i] == registers[..i];
    }
  }

  lemma {:induction false} SerialsGrow(registers: seq<Register>, i: nat, year: Year)
    requires i <= |registers|
    ensures |Serials(registers[..i], year)| <= |Serials(registers, year)|
    decreases |registers|
  {
    if i == |registers| {
      assert registers[..i] == registers;
    } else {
      SerialsGrow(registers[..|registers| - 1], i, year);
      assert registers[..|registers| - 1][..i] == registers[..i];
    }
  }

  lemma {:induction false} DifferentSerials(r: Registry, i: nat, j: nat)
    requires Inv(r) && i < j < |r.registers| && r.registers[i].number.year == r.registers[j].number.year
    ensures r.registers[i].number.serial != r.registers[j].number.serial
  {
    var year := r.registers[i].number.year;
    assert Serials(r.registers, year) == UpTo(LastSerial(r, year));
    var a := SerialAt(r.registers, i);
    var b := SerialAt(r.registers, j);
    var upToI := r.registers[..i + 1];
    assert upToI[..i] == r.registers[..i];
    SerialsGrow(r.registers[..j], i + 1, year);
    assert r.registers[..j][..i + 1] == upToI;
  }

  /** No two registered documents carry the same printed number. */
  lemma {:induction false} NumbersUnique(ops: seq<Op>, i: nat, j: nat)
    requires i < j < |Run(EMPTY, ops).registers|
    ensures var rows := Run(EMPTY, ops).registers; Print(rows[i].number) != Print(rows[j].number)
  {
    EmptyInv();
    RunKeeps(EMPTY, ops);
    var r := Run(EMPTY, ops);
    if Print(r.registers[i].number) == Print(r.registers[j].number) {
      PrintInjective(r.registers[i].number, r.registers[j].number);
      DifferentSerials(r, i, j);
    }
  }

  // ---- what never changes

  /** Client codes stay with their clients, and registers and versions stay in place. */
  ghost predicate Extends(r: Registry, later: Registry) {
    && (forall c | c in r.codes :: c in later.codes && later.codes[c] == r.codes[c])
    && r.registers <= later.registers && r.versions <= later.versions
  }

  lemma {:induction false} ApplyExtends(r: Registry, op: Op)
    ensures Extends(r, Apply(r, op))
  {
  }

  lemma {:induction false} NothingIsRenamed(r: Registry, ops: seq<Op>)
    ensures Extends(r, Run(r, ops))
    decreases |ops|
  {
    if ops != [] {
      ApplyExtends(r, ops[0]);
      NothingIsRenamed(Apply(r, ops[0]), ops[1..]);
    }
  }

  ghost predicate SameDocument(a: Order, b: Order) {
    OrderError(a).None? && OrderError(b).None? && SourceOf(a) == SourceOf(b) && RevisionOf(a) == RevisionOf(b)
  }

  lemma {:induction false} RegisterIs(r: Registry, k: nat)
    requires Registered(r) && k < |r.registers| && r.registers[k].source != OfLedger
    ensures FindRegister(r.registers, r.registers[k].source) == Some(k)
  {
  }

  lemma {:induction false} VersionIs(r: Registry, k: nat)
    requires Versioned(r) && k < |r.versions|
    ensures FindVersion(r.versions, r.versions[k].register, r.versions[k].revision) == Some(k)
  {
  }

  lemma {:induction false} Made(r: Registry, o: Order)
    requires Inv(r) && Prepare(r, o).Prepared?
    ensures var made := Prepare(r, o);
            && made.version < |made.registry.versions|
            && (var v := made.registry.versions[made.version];
                && v.register < |made.registry.registers| && v.revision == RevisionOf(o)
                && made.registry.registers[v.register].source == SourceOf(o))
  {
  }

  /** Preparing the same document again, after anything else has happened and in whatever year, returns the
      version that was made first, with its snapshot, and changes nothing. */
  lemma {:induction false} PreparedOnce(r: Registry, first: Order, ops: seq<Op>, again: Order)
    requires Inv(r) && Prepare(r, first).Prepared? && SameDocument(first, again)
    ensures var made := Prepare(r, first);
            var later := Run(made.registry, ops);
            && Prepare(later, again) == Prepared(later, made.version)
            && made.version < |made.registry.versions| <= |later.versions|
            && later.versions[made.version] == made.registry.versions[made.version]
  {
    var made := Prepare(r, first);
    var later := Run(made.registry, ops);
    PrepareKeeps(r, first);
    Made(r, first);
    RunKeeps(made.registry, ops);
    NothingIsRenamed(made.registry, ops);
    var v := made.registry.versions[made.version];
    assert later.versions[made.version] == v && later.registers[v.register] == made.registry.registers[v.register];
    RegisterIs(later, v.register);
    VersionIs(later, made.version);
  }

  /** A quotation or a delivery uses at most one serial. */
  lemma {:induction false} OneNumberEach(ops: seq<Op>, i: nat, j: nat)
    requires i < j < |Run(EMPTY, ops).registers|
    requires Run(EMPTY, ops).registers[i].source != OfLedger
    ensures Run(EMPTY, ops).registers[i].source != Run(EMPTY, ops).registers[j].source
  {
    EmptyInv();
    RunKeeps(EMPTY, ops);
  }
}
