/** Document numbering as it runs: rows are looked up, created when missing, and counted in place. */
module DocumentOffice {
  import opened Options
  import opened DocumentNumbers
  import R = DocumentRegistry
  import opened DocumentRegistry

  /** Numbering stays in order, and nothing that was there is renamed or lost. */
  ghost predicate Kept(before: Registry, next: Registry) {
    (Inv(before) ==> Inv(next)) && Extends(before, next)
  }

  lemma {:induction false} OperationKeeps(r: Registry, op: Op)
    ensures Kept(r, Apply(r, op))
  {
    if Inv(r) {
      ApplyKeeps(r, op);
    }
    ApplyExtends(r, op);
  }

  class Office {
    var codes: map<Id, string>
    var last: map<Year, nat>
    var registers: seq<Register>
    var versions: seq<Version>

    constructor ()
      ensures State() == R.EMPTY
    {
      codes, last, registers, versions := map[], map[], [], [];
    }

    function State(): R.Registry
      reads this
    {
      R.Registry(codes, last, registers, versions)
    }

    method SetCode(client: Id, code: string, allowed: bool, opens: bool, year: Year) returns (error: Option<Error>)
      modifies this
      ensures error == CodeError(old(State()), client, code, allowed)
      ensures State() == R.SetCode(old(State()), client, code, allowed, opens, year)
      ensures Kept(old(State()), State())
    {
      hide Kept;
      OperationKeeps(State(), OpCode(client, code, allowed, opens, year));
      if !allowed {
        return Some(Refused);
      }
      if client in codes {
        return if codes[client] == code then None else Some(CodeFixed);
      }
      if CodeUsed(State(), code) {
        return Some(CodeTaken);
      }
      if !ValidCode(code) {
        return Some(Malformed);
      }
      if opens && year !in last {
        last := last[year := 0];
      }
      codes := codes[client := code];
      return None;
    }

    method AllocateNumber(client: Id, kind: Kind, year: Year) returns (number: Option<Number>)
      modifies this`last
      ensures number.None? <==> client !in codes
      ensures client !in codes ==> last == old(last)
      ensures client in codes ==>
          var serial := LastSerial(old(State()), year) + 1;
          number == Some(Number(codes[client], kind, year, serial)) && last == old(last)[year := serial]
    {
      if client !in codes {
        return None;
      }
      if year !in last {
        last := last[year := 0];
      }
      last := last[year := last[year] + 1];
      return Some(Number(codes[client], kind, year, last[year]));
    }

    method Prepare(o: Order) returns (version: Option<nat>, error: Option<Error>)
      modifies this
      ensures match R.Prepare(old(State()), o)
              case Prepared(next, k) => State() == next && version == Some(k) && error == None
              case Unprepared(e) => State() == old(State()) && version == None && error == Some(e)
      ensures Kept(old(State()), State())
    {
      hide Kept;
      OperationKeeps(State(), OpPrepare(o));
      version, error := None, OrderError(o);
      if error.Some? {
        return;
      }
      var source, revision := SourceOf(o), RevisionOf(o);
      var register := FindRegister(registers, source);
      if register.None? {
        var number := AllocateNumber(o.client, o.kind, o.year);
        if number.None? {
          return None, Some(NoCode);
        }
        register := Some(|registers|);
        registers := registers + [Register(source, o.client, number.value)];
      }
      version := FindVersion(versions, register.value, revision);
      if version.Some? {
        return;
      }
      version := Some(|versions|);
      versions := versions + [Version(register.value, revision, o.snapshot)];
    }

    method RegisterFinancial(client: Id, kind: Kind, revision: nat, snapshot: Snapshot, year: Year) returns (done: bool)
      requires kind.Invoice? || kind.Receipt?
      modifies this
      ensures State() == R.RegisterFinancial(old(State()), client, kind, revision, snapshot, year)
      ensures done == (client in old(codes))
      ensures Kept(old(State()), State())
    {
      hide Kept;
      OperationKeeps(State(), OpFinancial(client, kind, revision, snapshot, year));
      var number := AllocateNumber(client, kind, year);
      if number.None? {
        return false;
      }
      registers := registers + [Register(OfLedger, client, number.value)];
      versions := versions + [Version(|registers| - 1, revision, snapshot)];
      return true;
    }
  }
}
