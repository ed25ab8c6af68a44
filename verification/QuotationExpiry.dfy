/** Recording that quotation revisions have expired, by a scheduled command between the operations. */
module QuotationExpiry {
  import opened ProcurementTables
  import opened ProcurementSteps
  import opened ProcurementMoves

  /** One expiry event: a line of the revision, as its index in the table of quote lines. */
  datatype Mark = Mark(revision: nat, line: nat)

  /** The tables, when each expired revision was recorded, and the expiry events. */
  datatype Book = Book(db: Store, recorded: map<nat, int>, log: seq<Mark>)

  /** The lines of a revision among the first `n` quote lines. */
  function LinesOf(lines: seq<QuoteLine>, revision: nat): seq<nat> {
    if lines == [] then []
    else LinesOf(lines[..|lines| - 1], revision)
         + (if lines[|lines| - 1].revision == revision then [|lines| - 1] else [])
  }

  function MarksOf(log: seq<Mark>, revision: nat): seq<nat> {
    if log == [] then []
    else MarksOf(log[..|log| - 1], revision)
         + (if log[|log| - 1].revision == revision then [log[|log| - 1].line] else [])
  }

  predicate Issued(db: Store, revision: nat) {
    exists i :: 0 <= i < |db.issues| && db.issues[i].revision == revision
  }

  /** Whether the command records the revision at `now`. */
  predicate Due(b: Book, revision: nat, now: int) {
    && revision < |b.db.revisions| && b.db.revisions[revision].expires.Some?
    && b.db.revisions[revision].expires.value <= now
    && revision !in b.recorded && Issued(b.db, revision)
  }

  function Marks(revision: nat, lines: seq<nat>): (marks: seq<Mark>)
    ensures |marks| == |lines|
  {
    seq(|lines|, i requires 0 <= i < |lines| => Mark(revision, lines[i]))
  }

  function Expire(b: Book, revision: nat, tick: Tick): Book {
    if !Due(b, revision, Now(b.db, tick)) then b
    else Book(At(b.db, Later(b.db, tick)), b.recorded[revision := Later(b.db, tick)],
              b.log + Marks(revision, LinesOf(b.db.quoteLines, revision)))
  }

  datatype Step = Work(op: Op) | Command(revision: nat, tick: Tick)

  function Take(b: Book, step: Step): Book {
    match step
    case Work(op) => b.(db := Apply(b.db, op))
    case Command(revision, tick) => Expire(b, revision, tick)
  }

  function Run(b: Book, steps: seq<Step>): Book
    decreases |steps|
  {
    if steps == [] then b else Run(Take(b, steps[0]), steps[1..])
  }

  // ---- what an operation can do to revisions, their lines and their issues

  ghost predicate SameQuotes(db: DB, next: DB) {
    && db.clock <= next.clock && db.offers == next.offers
    && db.revisions == next.revisions && db.quoteLines == next.quoteLines && db.issues == next.issues
  }

  /** Revisions stay, gain no lines, and are sent only while they have not expired. */
  ghost predicate QuotesStay(db: DB, next: DB) {
    && db.clock <= next.clock && db.revisions <= next.revisions && db.issues <= next.issues
    && (forall r | 0 <= r < |db.revisions| :: LinesOf(next.quoteLines, r) == LinesOf(db.quoteLines, r))
    && (forall i | |db.issues| <= i < |next.issues| ::
          next.issues[i].revision < |next.revisions|
          && Unexpired(next.revisions[next.issues[i].revision].expires, db.clock))
  }

  lemma {:induction false} NoNewLines(lines: seq<QuoteLine>, more: seq<QuoteLine>, r: nat)
    requires lines <= more && forall i | |lines| <= i < |more| :: more[i].revision != r
    ensures LinesOf(more, r) == LinesOf(lines, r)
    decreases |more|
  {
    if |more| > |lines| {
      NoNewLines(lines, more[..|more| - 1], r);
    } else {
      assert more == lines;
    }
  }

  lemma {:induction false} CreateQuoteStays(db: Store, input: QuoteInput)
    requires CreateQuote(db, input).Some?
    ensures QuotesStay(db, CreateQuote(db, input).value)
  {
    hide QuoteRows, Schema;
    var next := CreateQuote(db, input).value;
    QuoteRowsQuote(OpenRevision(OpenQuotation(db, input).value, NextRevision(db, input), Later(db, input.tick)),
                   |db.revisions|, input.rows, {}, Now(db, input.tick));
    forall r | 0 <= r < |db.revisions| ensures LinesOf(next.quoteLines, r) == LinesOf(db.quoteLines, r) {
      NoNewLines(db.quoteLines, next.quoteLines, r);
    }
  }

  lemma {:induction false} RowsLeaveQuotes(db: Store, op: Op)
    requires ByRows(op)
    ensures Keeps((x: Store) => SameQuotes(db, x), op)
  {
    hide OrderedItem, OfferUsable, SupplierAllowed, Schema;
  }

  lemma {:induction false} WholeStays(db: Store, op: Op)
    requires !ByRows(op) && Attempted(db, op).Some?
    ensures QuotesStay(db, Attempted(db, op).value)
  {
    hide CreateQuote, Resolvable, WaybillEvents, OfferRowAllowed, Schema;
    if op.OpQuote? {
      CreateQuoteStays(db, op.quote);
    }
  }

  lemma {:induction false} ApplyStays(db: Store, op: Op)
    ensures QuotesStay(db, Apply(db, op))
  {
    hide Keeps, Attempted, Schema;
    if ByRows(op) {
      RowsLeaveQuotes(db, op);
      OperationKeeps((x: Store) => SameQuotes(db, x), db, op);
    } else if Attempted(db, op).Some? {
      WholeStays(db, op);
    }
  }

  // ---- invariant

  /** A recorded revision was sent, had expired when it was recorded, and has one event for each of its lines;
      another revision has none. */
  ghost predicate Recorded(b: Book, r: nat) {
    if r in b.recorded then
      && r < |b.db.revisions| && Issued(b.db, r) && b.db.revisions[r].expires.Some?
      && b.db.revisions[r].expires.value <= b.recorded[r] <= b.db.clock
      && MarksOf(b.log, r) == LinesOf(b.db.quoteLines, r)
    else MarksOf(b.log, r) == []
  }

  ghost predicate Inv(b: Book) {
    forall r :: Recorded(b, r)
  }

  lemma {:induction false} AddMarks(log: seq<Mark>, revision: nat, lines: seq<nat>, r: nat)
    ensures MarksOf(log + Marks(revision, lines), r) == MarksOf(log, r) + (if r == revision then lines else [])
    decreases |lines|
  {
    var all := log + Marks(revision, lines);
    if lines == [] {
      assert all == log;
    } else {
      var k := |lines| - 1;
      AddMarks(log, revision, lines[..k], r);
      assert all[..|all| - 1] == log + Marks(revision, lines[..k]);
      assert lines == lines[..k] + [lines[k]];
    }
  }

  lemma {:induction false} WorkKeeps(b: Book, op: Op, r: nat)
    requires Recorded(b, r)
    ensures Recorded(Take(b, Work(op)), r)
  {
    ApplyStays(b.db, op);
    if r in b.recorded {
      var i :| 0 <= i < |b.db.issues| && b.db.issues[i].revision == r;
      assert Apply(b.db, op).issues[i] == b.db.issues[i];
    }
  }

  lemma {:induction false} TakeKeeps(b: Book, step: Step)
    requires Inv(b)
    ensures Inv(Take(b, step))
  {
    forall r: nat ensures Recorded(Take(b, step), r) {
      assert Recorded(b, r);
      match step
      case Work(op) => WorkKeeps(b, op, r);
      case Command(revision, tick) =>
        AddMarks(b.log, revision, LinesOf(b.db.quoteLines, revision), r);
    }
  }

  lemma {:induction false} RunKeeps(b: Book, steps: seq<Step>)
    requires Inv(b)
    ensures Inv(Run(b, steps))
    decreases |steps|
  {
    if steps != [] {
      TakeKeeps(b, steps[0]);
      RunKeeps(Take(b, steps[0]), steps[1..]);
    }
  }

  /** Over runs of operations and commands, every revision is recorded as expired at most once, only after it
      was sent and has expired, and the log holds exactly one expiry event for each line of a recorded
      revision and none for any other. */
  lemma {:induction false} ExpiryRecordedOnce(start: Store, steps: seq<Step>, r: nat)
    requires Fresh(start)
    ensures Recorded(Run(Book(start, map[], []), steps), r)
  {
    RunKeeps(Book(start, map[], []), steps);
  }

  function IssuesOf(issues: seq<Issue>, revision: nat): nat {
    if issues == [] then 0
    else IssuesOf(issues[..|issues| - 1], revision) + if issues[|issues| - 1].revision == revision then 1 else 0
  }

  lemma {:induction false} NoNewIssues(issues: seq<Issue>, more: seq<Issue>, r: nat)
    requires issues <= more && forall i | |issues| <= i < |more| :: more[i].revision != r
    ensures IssuesOf(more, r) == IssuesOf(issues, r)
    decreases |more|
  {
    if |more| > |issues| {
      NoNewIssues(issues, more[..|more| - 1], r);
    } else {
      assert more == issues;
    }
  }

  /** A recorded revision stays recorded at the same time and is never sent again. */
  ghost predicate Closed(b: Book, later: Book, r: nat) {
    r in later.recorded && r in b.recorded && later.recorded[r] == b.recorded[r]
    && IssuesOf(later.db.issues, r) == IssuesOf(b.db.issues, r)
  }

  lemma {:induction false} TakeCloses(b: Book, step: Step, r: nat)
    requires Inv(b) && r in b.recorded
    ensures Closed(b, Take(b, step), r)
  {
    assert Recorded(b, r);
    match step
    case Command(_, _) =>
    case Work(op) =>
      ApplyStays(b.db, op);
      NoNewIssues(b.db.issues, Apply(b.db, op).issues, r);
  }

  lemma {:induction false} NeverSentAfterRecorded(b: Book, steps: seq<Step>, r: nat)
    requires Inv(b) && r in b.recorded
    ensures Closed(b, Run(b, steps), r)
    decreases |steps|
  {
    if steps != [] {
      TakeKeeps(b, steps[0]);
      TakeCloses(b, steps[0], r);
      NeverSentAfterRecorded(Take(b, steps[0]), steps[1..], r);
    }
  }

  // ---- the command as it runs

  class Clerk {
    var db: Store
    var recorded: map<nat, int>
    var log: seq<Mark>

    constructor (db: Store)
      ensures State() == Book(db, map[], [])
    {
      this.db, recorded, log := db, map[], [];
    }

    function State(): Book
      reads this
    {
      Book(db, recorded, log)
    }

    /** One event for each line of the revision. */
    method LogLines(revision: nat)
      modifies this`log
      ensures log == old(log) + Marks(revision, LinesOf(db.quoteLines, revision))
    {
      var lines := db.quoteLines;
      for i := 0 to |lines|
        invariant log == old(log) + Marks(revision, LinesOf(lines[..i], revision))
      {
        assert lines[..i + 1][..i] == lines[..i];
        if lines[i].revision == revision {
          log := log + [Mark(revision, i)];
        }
      }
      assert lines[..|lines|] == lines;
    }

    method ExpireRevision(revision: nat, tick: Tick) returns (expired: bool)
      modifies this
      ensures expired == Due(old(State()), revision, Now(old(db), tick))
      ensures State() == Expire(old(State()), revision, tick)
    {
      hide Marks, LinesOf, Issued, Schema;
      if revision >= |db.revisions| || db.revisions[revision].expires.None?
         || db.revisions[revision].expires.value > Now(db, tick) || revision in recorded || !Issued(db, revision)
      {
        return false;
      }
      recorded := recorded[revision := Later(db, tick)];
      db := At(db, Later(db, tick));
      LogLines(revision);
      return true;
    }
  }
}
