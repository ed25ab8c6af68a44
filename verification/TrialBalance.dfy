/** Ledger totals by account: the trial balance and the balances of the analytics report. */
module TrialBalance {
  import opened Links
  import opened Options

  type Day = int
  type Currency = nat

  datatype Class = Asset | Liability | Equity | Revenue | Expense

  /** An entry is posted or still open; its lines share its date and currency. */
  datatype Entry = Entry(posted: bool, currency: Currency, date: Day)

  /** `entry` and `account` are indices; money in units of 0.0001. */
  datatype Line = Line(entry: nat, account: nat, debit: int, credit: int)

  datatype Journal = Journal(entries: seq<Entry>, classes: seq<Class>, lines: seq<Line>)

  /** The lines of a report: posted, in its currency, up to `to` and, when given, from `from`. */
  datatype Period = Period(currency: Currency, from: Option<Day>, to: Day)

  ghost predicate LinesLinked(lines: seq<Line>, entries: nat, accounts: nat) {
    forall i | 0 <= i < |lines| :: lines[i].entry < entries && lines[i].account < accounts
  }

  ghost predicate Linked(j: Journal) {
    LinesLinked(j.lines, |j.entries|, |j.classes|)
  }

  predicate Chosen(e: Entry, p: Period) {
    e.posted && e.currency == p.currency && e.date <= p.to && (p.from.Some? ==> p.from.value <= e.date)
  }

  function Selected(entries: seq<Entry>, lines: seq<Line>, p: Period): seq<Line> {
    if lines == [] then []
    else
      var last := lines[|lines| - 1];
      Selected(entries, lines[..|lines| - 1], p)
      + (if last.entry < |entries| && Chosen(entries[last.entry], p) then [last] else [])
  }

  datatype Side = Debit | Credit

  function Amount(line: Line, side: Side): int {
    if side == Debit then line.debit else line.credit
  }

  function ByAccount(lines: seq<Line>, side: Side): (links: seq<Link>)
    ensures |links| == |lines|
  {
    seq(|lines|, i requires 0 <= i < |lines| => Link(lines[i].account, Amount(lines[i], side)))
  }

  function ByEntry(lines: seq<Line>, side: Side): (links: seq<Link>)
    ensures |links| == |lines|
  {
    seq(|lines|, i requires 0 <= i < |lines| => Link(lines[i].entry, Amount(lines[i], side)))
  }

  // ---- the reports

  /** One row of an aggregate by account; `balance` is filled in afterwards. */
  datatype Row = Row(account: nat, debit: int, credit: int, balance: int)

  predicate Moves(lines: seq<Line>, account: nat) {
    exists i :: 0 <= i < |lines| && lines[i].account == account
  }

  /** The aggregate: a row for each of the first `n` accounts that has a line. */
  function Rows(lines: seq<Line>, n: nat): seq<Row> {
    if n == 0 then []
    else Rows(lines, n - 1)
         + (if Moves(lines, n - 1)
            then [Row(n - 1, Total(ByAccount(lines, Debit), n - 1), Total(ByAccount(lines, Credit), n - 1), 0)]
            else [])
  }

  function Sum(rows: seq<Row>, side: Side): int {
    if rows == [] then 0
    else Sum(rows[..|rows| - 1], side)
         + (if side == Debit then rows[|rows| - 1].debit else rows[|rows| - 1].credit)
  }

  datatype Trial = Trial(rows: seq<Row>, debit: int, credit: int)

  function TrialOf(j: Journal, p: Period): Trial {
    var rows := Rows(Selected(j.entries, j.lines, p), |j.classes|);
    Trial(rows, Sum(rows, Debit), Sum(rows, Credit))
  }

  predicate DebitClass(c: Class) {
    c.Asset? || c.Expense?
  }

  function BalanceOf(row: Row, c: Class): int {
    if DebitClass(c) then row.debit - row.credit else -(row.debit - row.credit)
  }

  /** The balances of the accounts whose class keeps a debit balance, or of the others. */
  function SumBalances(rows: seq<Row>, classes: seq<Class>, debitSide: bool): int {
    if rows == [] then 0
    else
      var last := rows[|rows| - 1];
      SumBalances(rows[..|rows| - 1], classes, debitSide)
      + (if last.account < |classes| && DebitClass(classes[last.account]) == debitSide then last.balance else 0)
  }

  // ---- every line counts once

  lemma {:induction false} AddRow(rows: seq<Row>, row: Row, side: Side)
    ensures Sum(rows + [row], side) == Sum(rows, side) + if side == Debit then row.debit else row.credit
  {
    assert (rows + [row])[..|rows|] == rows;
  }

  lemma {:induction false} RollNext(links: seq<Link>, n: nat)
    ensures Total(Roll(links, OneGroup(n + 1)), 0) == Total(Roll(links, OneGroup(n)), 0) + Total(links, n)
  {
    assert Roll(links, OneGroup(n + 1)) == Roll(links, OneGroup(n)) + [Link(0, Total(links, n))];
    TotalAppend(Roll(links, OneGroup(n)), Link(0, Total(links, n)));
  }

  lemma {:induction false} NothingMoves(lines: seq<Line>, account: nat, side: Side)
    requires !Moves(lines, account)
    ensures Total(ByAccount(lines, side), account) == 0
  {
    TotalZero(ByAccount(lines, side), account);
  }

  lemma {:induction false} RowsNext(lines: seq<Line>, n: nat, side: Side)
    ensures Sum(Rows(lines, n + 1), side) == Sum(Rows(lines, n), side) + Total(ByAccount(lines, side), n)
  {
    var rows := Rows(lines, n);
    if Moves(lines, n) {
      AddRow(rows, Row(n, Total(ByAccount(lines, Debit), n), Total(ByAccount(lines, Credit), n), 0), side);
    } else {
      NothingMoves(lines, n, side);
      assert rows + [] == rows;
    }
  }

  lemma {:induction false} SumSelectedRows(lines: seq<Line>, n: nat, side: Side)
    ensures Sum(Rows(lines, n), side) == Total(Roll(ByAccount(lines, side), OneGroup(n)), 0)
    decreases n
  {
    if n > 0 {
      SumSelectedRows(lines, n - 1, side);
      RollNext(ByAccount(lines, side), n - 1);
      RowsNext(lines, n - 1, side);
    }
  }

  lemma {:induction false} SameGrand(a: seq<Link>, b: seq<Link>)
    requires |a| == |b| && forall i | 0 <= i < |a| :: a[i].qty == b[i].qty
    ensures Grand(a) == Grand(b)
    decreases |a|
  {
    if a != [] {
      SameGrand(a[..|a| - 1], b[..|b| - 1]);
    }
  }

  lemma {:induction false} SelectedLinked(entries: seq<Entry>, lines: seq<Line>, p: Period, n: nat)
    requires LinesLinked(lines, |entries|, n)
    ensures LinesLinked(Selected(entries, lines, p), |entries|, n)
    decreases |lines|
  {
    if lines != [] {
      SelectedLinked(entries, lines[..|lines| - 1], p, n);
    }
  }

  lemma {:induction false} LinksUnder(lines: seq<Line>, entries: nat, accounts: nat, side: Side)
    requires LinesLinked(lines, entries, accounts)
    ensures Under(ByAccount(lines, side), accounts) && Under(ByEntry(lines, side), entries)
  {
  }

  lemma {:induction false} AddLine(lines: seq<Line>, line: Line, side: Side, e: nat)
    ensures Total(ByEntry(lines + [line], side), e)
         == Total(ByEntry(lines, side), e) + if line.entry == e then Amount(line, side) else 0
  {
    assert ByEntry(lines + [line], side) == ByEntry(lines, side) + [Link(line.entry, Amount(line, side))];
    TotalAppend(ByEntry(lines, side), Link(line.entry, Amount(line, side)));
  }

  /** The filter takes an entry with all its lines or with none. */
  lemma {:induction false} EntriesWhole(entries: seq<Entry>, lines: seq<Line>, p: Period, side: Side, e: nat)
    requires e < |entries|
    ensures Total(ByEntry(Selected(entries, lines, p), side), e)
         == if Chosen(entries[e], p) then Total(ByEntry(lines, side), e) else 0
    decreases |lines|
  {
    if lines != [] {
      var n := |lines| - 1;
      var init := Selected(entries, lines[..n], p);
      EntriesWhole(entries, lines[..n], p, side, e);
      AddLine(lines[..n], lines[n], side, e);
      AddLine(init, lines[n], side, e);
      assert lines == lines[..n] + [lines[n]];
      assert init + [] == init;
    }
  }

  /** One link per entry of the period with its debits less its credits. */
  function Gaps(j: Journal, p: Period): (links: seq<Link>)
    ensures |links| == |j.entries|
  {
    seq(|j.entries|, e requires 0 <= e < |j.entries| =>
      Link(0, if Chosen(j.entries[e], p)
          then Total(ByEntry(j.lines, Debit), e) - Total(ByEntry(j.lines, Credit), e) else 0))
  }

  lemma {:induction false} SumByEntry(j: Journal, p: Period, side: Side)
    requires Linked(j)
    ensures Sum(TrialOf(j, p).rows, side)
         == Total(Roll(ByEntry(Selected(j.entries, j.lines, p), side), OneGroup(|j.entries|)), 0)
  {
    var lines := Selected(j.entries, j.lines, p);
    SelectedLinked(j.entries, j.lines, p, |j.classes|);
    LinksUnder(lines, |j.entries|, |j.classes|, side);
    SumSelectedRows(lines, |j.classes|, side);
    EveryRowOnce(ByAccount(lines, side), |j.classes|);
    EveryRowOnce(ByEntry(lines, side), |j.entries|);
    SameGrand(ByAccount(lines, side), ByEntry(lines, side));
  }

  /** What the trial balance is out by is exactly what the entries of the period are out by together. */
  lemma {:induction false} GapIsEntryGaps(j: Journal, p: Period)
    requires Linked(j)
    ensures TrialOf(j, p).debit - TrialOf(j, p).credit == Total(Gaps(j, p), 0)
  {
    SumByEntry(j, p, Debit);
    SumByEntry(j, p, Credit);
    var lines := Selected(j.entries, j.lines, p);
    var debits := Roll(ByEntry(lines, Debit), OneGroup(|j.entries|));
    var credits := Roll(ByEntry(lines, Credit), OneGroup(|j.entries|));
    forall e | 0 <= e < |j.entries| ensures debits[e].qty == credits[e].qty + Gaps(j, p)[e].qty {
      EntriesWhole(j.entries, j.lines, p, Debit, e);
      EntriesWhole(j.entries, j.lines, p, Credit, e);
    }
    TotalSplit(debits, credits, Gaps(j, p), 0);
  }

  ghost predicate EntryBalances(j: Journal, e: nat) {
    Total(ByEntry(j.lines, Debit), e) == Total(ByEntry(j.lines, Credit), e)
  }

  ghost predicate Balanced(j: Journal) {
    forall e | 0 <= e < |j.entries| && j.entries[e].posted :: EntryBalances(j, e)
  }

  /** When every posted entry balances, the trial balance of every period does. */
  lemma {:induction false} TrialBalances(j: Journal, p: Period)
    requires Linked(j) && Balanced(j)
    ensures TrialOf(j, p).debit == TrialOf(j, p).credit
  {
    GapIsEntryGaps(j, p);
    forall e | 0 <= e < |j.entries| ensures Gaps(j, p)[e].qty == 0 {
      assert j.entries[e].posted ==> EntryBalances(j, e);
    }
    TotalZero(Gaps(j, p), 0);
  }

  // ---- analytics

  ghost predicate Filled(rows: seq<Row>, filled: seq<Row>, classes: seq<Class>) {
    && |rows| == |filled|
    && (forall i | 0 <= i < |rows| :: rows[i].account < |classes|)
    && (forall i | 0 <= i < |rows| :: filled[i] == rows[i].(balance := BalanceOf(rows[i], classes[rows[i].account])))
  }

  /** Write the balance into each aggregated row, in place. */
  method FillBalances(rows: array<Row>, classes: seq<Class>)
    requires forall i | 0 <= i < rows.Length :: rows[i].account < |classes|
    modifies rows
    ensures Filled(old(rows[..]), rows[..], classes)
  {
    for i := 0 to rows.Length
      invariant forall k | 0 <= k < i ::
          rows[k] == old(rows[k]).(balance := BalanceOf(old(rows[k]), classes[old(rows[k]).account]))
      invariant forall k | i <= k < rows.Length :: rows[k] == old(rows[k])
    {
      var value := rows[i].debit - rows[i].credit;
      var kept := classes[rows[i].account];
      rows[i] := rows[i].(balance := if kept == Asset || kept == Expense then value else -value);
    }
  }

  lemma {:induction false} BalancesDiffer(rows: seq<Row>, filled: seq<Row>, classes: seq<Class>)
    requires Filled(rows, filled, classes)
    ensures SumBalances(filled, classes, true) - SumBalances(filled, classes, false)
        == Sum(rows, Debit) - Sum(rows, Credit)
    decreases |rows|
  {
    if rows != [] {
      BalancesDiffer(rows[..|rows| - 1], filled[..|rows| - 1], classes);
    }
  }

  /** The accounting equation: when every posted entry balances, the balances of the asset and expense
      accounts sum to those of all the others. */
  lemma {:induction false} AccountingEquation(j: Journal, p: Period, filled: seq<Row>)
    requires Linked(j) && Balanced(j) && Filled(TrialOf(j, p).rows, filled, j.classes)
    ensures SumBalances(filled, j.classes, true) == SumBalances(filled, j.classes, false)
  {
    TrialBalances(j, p);
    BalancesDiffer(TrialOf(j, p).rows, filled, j.classes);
  }
}
