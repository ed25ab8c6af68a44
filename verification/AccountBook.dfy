/** The book of one ledger account: opening balance, ordered rows with a running balance, closing balance. */
module AccountBook {

  type Day = int

  /** A posted journal line of the account; money in units of 0.0001, debit positive. */
  datatype Posting = Posting(date: Day, created: int, id: nat, debit: int, credit: int)

  ghost predicate UniqueIds(lines: seq<Posting>) {
    forall i, j | 0 <= i < j < |lines| :: lines[i].id != lines[j].id
  }

  /** The order of the book: by date, then creation time, then id. */
  predicate Before(a: Posting, b: Posting) {
    a.date < b.date || (a.date == b.date && (a.created < b.created || (a.created == b.created && a.id < b.id)))
  }

  function Net(lines: seq<Posting>): int {
    if lines == [] then 0 else Net(lines[..|lines| - 1]) + lines[|lines| - 1].debit - lines[|lines| - 1].credit
  }

  function Debits(lines: seq<Posting>): int {
    if lines == [] then 0 else Debits(lines[..|lines| - 1]) + lines[|lines| - 1].debit
  }

  function Credits(lines: seq<Posting>): int {
    if lines == [] then 0 else Credits(lines[..|lines| - 1]) + lines[|lines| - 1].credit
  }

  /** Lines dated from `from` to `to`, both included. */
  function Within(lines: seq<Posting>, from: Day, to: Day): seq<Posting> {
    if lines == [] then []
    else
      var last := lines[|lines| - 1];
      Within(lines[..|lines| - 1], from, to) + (if from <= last.date <= to then [last] else [])
  }

  function Prior(lines: seq<Posting>, from: Day): seq<Posting> {
    if lines == [] then []
    else
      var last := lines[|lines| - 1];
      Prior(lines[..|lines| - 1], from) + (if last.date < from then [last] else [])
  }

  // ---- order

  ghost predicate Ordered(lines: seq<Posting>) {
    forall i, j | 0 <= i < j < |lines| :: Before(lines[i], lines[j])
  }

  function Insert(line: Posting, lines: seq<Posting>): (r: seq<Posting>)
    ensures multiset(r) == multiset(lines) + multiset{line}
  {
    if lines == [] || Before(lines[|lines| - 1], line) then lines + [line]
    else
      assert lines == lines[..|lines| - 1] + [lines[|lines| - 1]];
      Insert(line, lines[..|lines| - 1]) + [lines[|lines| - 1]]
  }

  function Sorted(lines: seq<Posting>): (r: seq<Posting>)
    ensures multiset(r) == multiset(lines)
  {
    if lines == [] then []
    else
      assert lines == lines[..|lines| - 1] + [lines[|lines| - 1]];
      Insert(lines[|lines| - 1], Sorted(lines[..|lines| - 1]))
  }

  lemma {:induction false} InsertOrdered(line: Posting, lines: seq<Posting>)
    requires Ordered(lines) && forall i | 0 <= i < |lines| :: lines[i].id != line.id
    ensures Ordered(Insert(line, lines))
    decreases |lines|
  {
    if lines != [] && !Before(lines[|lines| - 1], line) {
      var last := lines[|lines| - 1];
      var rest := Insert(line, lines[..|lines| - 1]);
      InsertOrdered(line, lines[..|lines| - 1]);
      forall i | 0 <= i < |rest| ensures Before(rest[i], last) {
        assert rest[i] in multiset(rest);
        assert rest[i] == line || rest[i] in lines[..|lines| - 1];
      }
    }
  }

  lemma {:induction false} SortedOrdered(lines: seq<Posting>)
    requires UniqueIds(lines)
    ensures Ordered(Sorted(lines))
    decreases |lines|
  {
    if lines != [] {
      var rest := Sorted(lines[..|lines| - 1]);
      SortedOrdered(lines[..|lines| - 1]);
      forall i | 0 <= i < |rest| ensures rest[i].id != lines[|lines| - 1].id {
        assert rest[i] in multiset(rest);
        assert rest[i] in lines[..|lines| - 1];
      }
      InsertOrdered(lines[|lines| - 1], rest);
    }
  }

  lemma {:induction false} SameLast(a: seq<Posting>, b: seq<Posting>)
    requires Ordered(a) && Ordered(b) && multiset(a) == multiset(b) && |a| == |b| && a != []
    ensures a[|a| - 1] == b[|b| - 1]
  {
    var n := |a| - 1;
    assert a[n] in multiset(a) && b[n] in multiset(b);
    var k :| 0 <= k <= n && b[k] == a[n];
    var m :| 0 <= m <= n && a[m] == b[n];
    assert k < n ==> Before(b[k], b[n]);
    assert m < n ==> Before(a[m], a[n]);
  }

  lemma {:induction false} PrefixMultiset(a: seq<Posting>)
    requires a != []
    ensures multiset(a[..|a| - 1]) == multiset(a) - multiset{a[|a| - 1]}
  {
    assert a == a[..|a| - 1] + [a[|a| - 1]];
  }

  /** Lines can be put into the order of the book in one way only. */
  lemma {:induction false} OneOrder(a: seq<Posting>, b: seq<Posting>)
    requires Ordered(a) && Ordered(b) && multiset(a) == multiset(b)
    ensures a == b
    decreases |a|
  {
    assert |a| == |multiset(a)| == |b|;
    if a != [] {
      var n := |a| - 1;
      SameLast(a, b);
      PrefixMultiset(a);
      PrefixMultiset(b);
      OneOrder(a[..n], b[..n]);
    }
  }

  // ---- the book

  /** The running sum of the window: everything in the period that is not after the line. */
  function UpToLine(lines: seq<Posting>, line: Posting): int {
    if lines == [] then 0
    else
      var last := lines[|lines| - 1];
      UpToLine(lines[..|lines| - 1], line) + (if Before(line, last) then 0 else last.debit - last.credit)
  }

  datatype Row = Row(line: Posting, balance: int)
  datatype Book = Book(opening: int, rows: seq<Row>, debit: int, credit: int, closing: int)

  function BookOf(lines: seq<Posting>, from: Day, to: Day): Book {
    var opening := Debits(Prior(lines, from)) - Credits(Prior(lines, from));
    var period := Within(lines, from, to);
    var ordered := Sorted(period);
    var debit, credit := Debits(period), Credits(period);
    Book(opening,
         seq(|ordered|, i requires 0 <= i < |ordered| => Row(ordered[i], opening + UpToLine(period, ordered[i]))),
         debit, credit, opening + debit - credit)
  }

  // ---- sums do not depend on the order of the lines

  lemma {:induction false} NetIsDifference(lines: seq<Posting>)
    ensures Net(lines) == Debits(lines) - Credits(lines)
  {
    if lines != [] {
      NetIsDifference(lines[..|lines| - 1]);
    }
  }

  lemma {:induction false} NetConcat(a: seq<Posting>, b: seq<Posting>)
    ensures Net(a + b) == Net(a) + Net(b)
    decreases |b|
  {
    if b == [] {
      assert a + b == a;
    } else {
      assert (a + b)[..|a + b| - 1] == a + b[..|b| - 1];
      NetConcat(a, b[..|b| - 1]);
    }
  }

  lemma {:induction false} NetOfInsert(line: Posting, lines: seq<Posting>)
    ensures Net(Insert(line, lines)) == Net(lines) + line.debit - line.credit
    decreases |lines|
  {
    var r := Insert(line, lines);
    if lines == [] || Before(lines[|lines| - 1], line) {
      assert r[..|r| - 1] == lines;
    } else {
      NetOfInsert(line, lines[..|lines| - 1]);
      assert r[..|r| - 1] == Insert(line, lines[..|lines| - 1]);
    }
  }

  lemma {:induction false} NetOfSorted(lines: seq<Posting>)
    ensures Net(Sorted(lines)) == Net(lines)
    decreases |lines|
  {
    if lines != [] {
      NetOfSorted(lines[..|lines| - 1]);
      NetOfInsert(lines[|lines| - 1], Sorted(lines[..|lines| - 1]));
    }
  }

  lemma {:induction false} UpToOfInsert(line: Posting, lines: seq<Posting>, at: Posting)
    ensures UpToLine(Insert(line, lines), at) == UpToLine(lines + [line], at)
    decreases |lines|
  {
    var r := Insert(line, lines);
    assert (lines + [line])[..|lines|] == lines;
    if lines == [] || Before(lines[|lines| - 1], line) {
    } else {
      UpToOfInsert(line, lines[..|lines| - 1], at);
      assert r[..|r| - 1] == Insert(line, lines[..|lines| - 1]);
      assert (lines[..|lines| - 1] + [line])[..|lines| - 1] == lines[..|lines| - 1];
    }
  }

  lemma {:induction false} UpToOfSorted(lines: seq<Posting>, at: Posting)
    ensures UpToLine(Sorted(lines), at) == UpToLine(lines, at)
    decreases |lines|
  {
    if lines != [] {
      var rest := Sorted(lines[..|lines| - 1]);
      UpToOfSorted(lines[..|lines| - 1], at);
      UpToOfInsert(lines[|lines| - 1], rest, at);
      assert (rest + [lines[|lines| - 1]])[..|rest|] == rest;
    }
  }

  /** In ordered lines, everything not after the k-th line is the first k + 1 lines. */
  lemma {:induction false} UpToIsPrefix(lines: seq<Posting>, k: nat)
    requires Ordered(lines) && k < |lines|
    ensures UpToLine(lines, lines[k]) == Net(lines[..k + 1])
    decreases |lines|
  {
    var n := |lines| - 1;
    if k < n {
      UpToIsPrefix(lines[..n], k);
      assert lines[..n][..k + 1] == lines[..k + 1];
      assert Before(lines[k], lines[n]);
    } else {
      AllUpTo(lines[..n], lines[n]);
      assert lines[..k + 1] == lines && lines[..n] == lines[..k + 1][..n];
    }
  }

  lemma {:induction false} AllUpTo(lines: seq<Posting>, at: Posting)
    requires forall i | 0 <= i < |lines| :: Before(lines[i], at)
    ensures UpToLine(lines, at) == Net(lines)
    decreases |lines|
  {
    if lines != [] {
      AllUpTo(lines[..|lines| - 1], at);
      assert !Before(at, lines[|lines| - 1]);
    }
  }

  lemma {:induction false} WithinUnique(lines: seq<Posting>, from: Day, to: Day)
    requires UniqueIds(lines)
    ensures UniqueIds(Within(lines, from, to))
    ensures forall p | p in Within(lines, from, to) :: p in lines && from <= p.date <= to
    decreases |lines|
  {
    if lines != [] {
      WithinUnique(lines[..|lines| - 1], from, to);
    }
  }

  lemma {:induction false} PeriodOrdered(lines: seq<Posting>, from: Day, to: Day)
    requires UniqueIds(lines)
    ensures Ordered(Sorted(Within(lines, from, to)))
  {
    WithinUnique(lines, from, to);
    SortedOrdered(Within(lines, from, to));
  }

  lemma {:induction false} OpeningIsNet(lines: seq<Posting>, from: Day, to: Day)
    ensures BookOf(lines, from, to).opening == Net(Prior(lines, from))
    ensures BookOf(lines, from, to).closing == Net(Prior(lines, from)) + Net(Sorted(Within(lines, from, to)))
  {
    NetIsDifference(Prior(lines, from));
    NetIsDifference(Within(lines, from, to));
    NetOfSorted(Within(lines, from, to));
  }

  /** The window sum of a row is the net of the rows up to it, so its balance is the net of everything on
      the account up to it, whatever the period asked for. */
  lemma {:induction false} BalanceIsPrefix(lines: seq<Posting>, from: Day, to: Day, k: nat)
    requires UniqueIds(lines) && k < |Sorted(Within(lines, from, to))|
    ensures BookOf(lines, from, to).rows[k].line == Sorted(Within(lines, from, to))[k]
    ensures BookOf(lines, from, to).rows[k].balance
         == Net(Prior(lines, from)) + Net(Sorted(Within(lines, from, to))[..k + 1])
  {
    var period := Within(lines, from, to);
    PeriodOrdered(lines, from, to);
    UpToOfSorted(period, Sorted(period)[k]);
    UpToIsPrefix(Sorted(period), k);
    OpeningIsNet(lines, from, to);
  }

  lemma {:induction false} NetStep(lines: seq<Posting>, k: nat)
    requires k < |lines|
    ensures Net(lines[..k + 1]) == Net(lines[..k]) + lines[k].debit - lines[k].credit
  {
    assert lines[..k + 1][..k] == lines[..k];
  }

  ghost predicate Runs(book: Book, k: nat)
    requires k < |book.rows|
  {
    book.rows[k].balance == (if k == 0 then book.opening else book.rows[k - 1].balance)
                            + book.rows[k].line.debit - book.rows[k].line.credit
  }

  lemma {:induction false} RowRuns(lines: seq<Posting>, from: Day, to: Day, k: nat)
    requires UniqueIds(lines) && k < |BookOf(lines, from, to).rows|
    ensures Runs(BookOf(lines, from, to), k)
  {
    BalanceIsPrefix(lines, from, to, k);
    NetStep(Sorted(Within(lines, from, to)), k);
    if k > 0 {
      BalanceIsPrefix(lines, from, to, k - 1);
    } else {
      OpeningIsNet(lines, from, to);
    }
  }

  lemma {:induction false} WholePrefix(lines: seq<Posting>)
    ensures lines[..|lines|] == lines
  {
  }

  lemma {:induction false} ClosesAtLast(lines: seq<Posting>, from: Day, to: Day, n: nat)
    requires UniqueIds(lines) && n + 1 == |BookOf(lines, from, to).rows|
    ensures BookOf(lines, from, to).closing == BookOf(lines, from, to).rows[n].balance
  {
    OpeningIsNet(lines, from, to);
    BalanceIsPrefix(lines, from, to, n);
    WholePrefix(Sorted(Within(lines, from, to)));
  }

  /** Each row's balance is the one before it, or the opening balance, plus the row's own debit less its
      credit; the last balance is the closing balance, and a period without rows closes as it opened. */
  lemma {:induction false} RunningBalance(lines: seq<Posting>, from: Day, to: Day)
    requires UniqueIds(lines)
    ensures var book := BookOf(lines, from, to);
            && (forall k | 0 <= k < |book.rows| :: Runs(book, k))
            && book.closing == (if book.rows == [] then book.opening else book.rows[|book.rows| - 1].balance)
  {
    forall k | 0 <= k < |BookOf(lines, from, to).rows| ensures Runs(BookOf(lines, from, to), k) {
      RowRuns(lines, from, to, k);
    }
    if BookOf(lines, from, to).rows != [] {
      ClosesAtLast(lines, from, to, |BookOf(lines, from, to).rows| - 1);
    } else {
      OpeningIsNet(lines, from, to);
    }
  }

  // ---- adjacent periods

  lemma {:induction false} AddToNet(lines: seq<Posting>, line: Posting)
    ensures Net(lines + [line]) == Net(lines) + line.debit - line.credit
  {
    assert (lines + [line])[..|lines|] == lines;
  }

  lemma {:induction false} PriorSplits(lines: seq<Posting>, from: Day, to: Day)
    requires from <= to + 1
    ensures Net(Prior(lines, to + 1)) == Net(Prior(lines, from)) + Net(Within(lines, from, to))
    decreases |lines|
  {
    if lines != [] {
      var init, last := lines[..|lines| - 1], lines[|lines| - 1];
      PriorSplits(init, from, to);
      AddToNet(Prior(init, to + 1), last);
      AddToNet(Prior(init, from), last);
      AddToNet(Within(init, from, to), last);
      assert Prior(init, to + 1) + [] == Prior(init, to + 1) && Prior(init, from) + [] == Prior(init, from);
      assert Within(init, from, to) + [] == Within(init, from, to);
    }
  }

  lemma {:induction false} WithinSplits(lines: seq<Posting>, from: Day, middle: Day, to: Day)
    requires from <= middle + 1 && middle <= to
    ensures multiset(Within(lines, from, to))
        == multiset(Within(lines, from, middle)) + multiset(Within(lines, middle + 1, to))
    decreases |lines|
  {
    if lines != [] {
      WithinSplits(lines[..|lines| - 1], from, middle, to);
    }
  }

  lemma {:induction false} SortedDates(lines: seq<Posting>, from: Day, to: Day, i: nat)
    requires UniqueIds(lines) && i < |Sorted(Within(lines, from, to))|
    ensures from <= Sorted(Within(lines, from, to))[i].date <= to
  {
    WithinUnique(lines, from, to);
    assert Sorted(Within(lines, from, to))[i] in multiset(Sorted(Within(lines, from, to)));
  }

  lemma {:induction false} OrderedAppend(a: seq<Posting>, b: seq<Posting>, middle: Day)
    requires Ordered(a) && Ordered(b)
    requires (forall i | 0 <= i < |a| :: a[i].date <= middle) && (forall i | 0 <= i < |b| :: middle < b[i].date)
    ensures Ordered(a + b)
  {
  }

  lemma {:induction false} InOrder(lines: seq<Posting>, from: Day, middle: Day, to: Day)
    requires UniqueIds(lines)
    ensures Ordered(Sorted(Within(lines, from, middle)) + Sorted(Within(lines, middle + 1, to)))
  {
    var a, b := Sorted(Within(lines, from, middle)), Sorted(Within(lines, middle + 1, to));
    PeriodOrdered(lines, from, middle);
    PeriodOrdered(lines, middle + 1, to);
    forall i | 0 <= i < |a| ensures a[i].date <= middle {
      SortedDates(lines, from, middle, i);
    }
    forall i | 0 <= i < |b| ensures middle < b[i].date {
      SortedDates(lines, middle + 1, to, i);
    }
    OrderedAppend(a, b, middle);
  }

  lemma {:induction false} SortedSplits(lines: seq<Posting>, from: Day, middle: Day, to: Day)
    requires UniqueIds(lines) && from <= middle + 1 && middle <= to
    ensures Sorted(Within(lines, from, to))
        == Sorted(Within(lines, from, middle)) + Sorted(Within(lines, middle + 1, to))
  {
    InOrder(lines, from, middle, to);
    PeriodOrdered(lines, from, to);
    WithinSplits(lines, from, middle, to);
    OneOrder(Sorted(Within(lines, from, to)),
             Sorted(Within(lines, from, middle)) + Sorted(Within(lines, middle + 1, to)));
  }

  lemma {:induction false} NetOfSpliced(a: seq<Posting>, b: seq<Posting>, k: nat)
    requires k < |a| + |b|
    ensures Net((a + b)[..k + 1]) == if k < |a| then Net(a[..k + 1]) else Net(a) + Net(b[..k - |a| + 1])
  {
    if k < |a| {
      assert (a + b)[..k + 1] == a[..k + 1];
    } else {
      assert (a + b)[..k + 1] == a + b[..k - |a| + 1];
      NetConcat(a, b[..k - |a| + 1]);
    }
  }

  /** A book closes with what the next day opens with. */
  lemma {:induction false} OpensAfter(lines: seq<Posting>, from: Day, to: Day)
    requires from <= to + 1
    ensures Net(Prior(lines, from)) + Net(Sorted(Within(lines, from, to))) == Net(Prior(lines, to + 1))
  {
    PriorSplits(lines, from, to);
    NetOfSorted(Within(lines, from, to));
  }

  /** The k-th row of ordered lines. */
  function RowOf(opening: int, ordered: seq<Posting>, k: nat): Row
    requires k < |ordered|
  {
    Row(ordered[k], opening + Net(ordered[..k + 1]))
  }

  lemma {:induction false} RowIs(lines: seq<Posting>, from: Day, to: Day, k: nat)
    requires UniqueIds(lines) && k < |BookOf(lines, from, to).rows|
    ensures BookOf(lines, from, to).rows[k] == RowOf(Net(Prior(lines, from)), Sorted(Within(lines, from, to)), k)
  {
    BalanceIsPrefix(lines, from, to, k);
  }

  lemma {:induction false} SplicedRow(opening: int, middle: int, a: seq<Posting>, b: seq<Posting>, k: nat)
    requires middle == opening + Net(a) && k < |a| + |b|
    ensures RowOf(opening, a + b, k) == if k < |a| then RowOf(opening, a, k) else RowOf(middle, b, k - |a|)
  {
    NetOfSpliced(a, b, k);
  }

  lemma {:induction false} RowsSplice(lines: seq<Posting>, from: Day, middle: Day, to: Day, k: nat)
    requires UniqueIds(lines) && from <= middle + 1 && middle <= to && k < |BookOf(lines, from, to).rows|
    ensures var n := |BookOf(lines, from, middle).rows|;
            && |BookOf(lines, from, to).rows| == n + |BookOf(lines, middle + 1, to).rows|
            && BookOf(lines, from, to).rows[k]
               == if k < n then BookOf(lines, from, middle).rows[k] else BookOf(lines, middle + 1, to).rows[k - n]
  {
    var a, b := Sorted(Within(lines, from, middle)), Sorted(Within(lines, middle + 1, to));
    RowIs(lines, from, to, k);
    SortedSplits(lines, from, middle, to);
    OpensAfter(lines, from, middle);
    SplicedRow(Net(Prior(lines, from)), Net(Prior(lines, middle + 1)), a, b, k);
    if k < |a| {
      RowIs(lines, from, middle, k);
    } else {
      RowIs(lines, middle + 1, to, k - |a|);
    }
  }

  ghost predicate SplicedAt(whole: seq<Row>, a: seq<Row>, b: seq<Row>, k: nat)
    requires |whole| == |a| + |b| && k < |whole|
  {
    whole[k] == if k < |a| then a[k] else b[k - |a|]
  }

  lemma {:induction false} Concatenated(whole: seq<Row>, a: seq<Row>, b: seq<Row>)
    requires |whole| == |a| + |b|
    requires forall k | 0 <= k < |whole| :: SplicedAt(whole, a, b, k)
    ensures whole == a + b
  {
    forall k | 0 <= k < |whole| ensures whole[k] == (a + b)[k] {
      assert SplicedAt(whole, a, b, k);
    }
  }

  lemma {:induction false} RowCount(lines: seq<Posting>, from: Day, middle: Day, to: Day)
    requires UniqueIds(lines) && from <= middle + 1 && middle <= to
    ensures |BookOf(lines, from, to).rows| == |BookOf(lines, from, middle).rows| + |BookOf(lines, middle + 1, to).rows|
  {
    SortedSplits(lines, from, middle, to);
  }

  lemma {:induction false} RowsConcatenate(lines: seq<Posting>, from: Day, middle: Day, to: Day, whole: seq<Row>,
      a: seq<Row>, b: seq<Row>)
    requires UniqueIds(lines) && from <= middle + 1 && middle <= to
    requires whole == BookOf(lines, from, to).rows
    requires a == BookOf(lines, from, middle).rows && b == BookOf(lines, middle + 1, to).rows
    ensures whole == a + b
  {
    RowCount(lines, from, middle, to);
    forall k | 0 <= k < |whole| ensures SplicedAt(whole, a, b, k) {
      RowsSplice(lines, from, middle, to, k);
    }
    Concatenated(whole, a, b);
  }

  /** Two books of adjacent periods splice into the book of both: the first closes where the second opens,
      the rows concatenate with their balances, and the outer balances are those of the whole. */
  lemma {:induction false} AdjacentBooksSplice(lines: seq<Posting>, from: Day, middle: Day, to: Day)
    requires UniqueIds(lines) && from <= middle + 1 && middle <= to
    ensures var first, second := BookOf(lines, from, middle), BookOf(lines, middle + 1, to);
            var whole := BookOf(lines, from, to);
            && first.closing == second.opening
            && whole.rows == first.rows + second.rows
            && whole.opening == first.opening && whole.closing == second.closing
  {
    RowsConcatenate(lines, from, middle, to, BookOf(lines, from, to).rows, BookOf(lines, from, middle).rows,
                    BookOf(lines, middle + 1, to).rows);
    OpensAfter(lines, from, middle);
    OpensAfter(lines, middle + 1, to);
    OpensAfter(lines, from, to);
    OpeningIsNet(lines, from, middle);
    OpeningIsNet(lines, middle + 1, to);
    OpeningIsNet(lines, from, to);
  }
}
