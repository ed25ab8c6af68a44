/** When a purchase order is stored as received before its quotation expires.

    The order's time is checked against the expiry as it is read at validation; when the caller gives no
    time, the time stored is read later, when the row is made.
  */
module OrderExpiry {
  import opened Options
  import opened ProcurementTables
  import opened ProcurementSteps
  import opened SingleRows
  import Pricing

  /** Order rows leave orders and quotations alone. */
  predicate SameBooks(db: DB, next: DB) {
    next.orders == db.orders && next.quoteLines == db.quoteLines && next.revisions == db.revisions
  }

  predicate QuoteOpenAt(db: DB, quoteLine: nat, occurred: int) {
    && quoteLine < |db.quoteLines| && db.quoteLines[quoteLine].revision < |db.revisions|
    && var expires := db.revisions[db.quoteLines[quoteLine].revision].expires;
       expires.Some? ==> occurred <= expires.value
  }

  /** The order lines from index `n` on belong to `order`, and were ordered while their quotations were open. */
  predicate OrderedWhileOpen(db: DB, lines: seq<OrderLine>, n: nat, order: nat, occurred: int) {
    forall i | n <= i < |lines| ::
      lines[i].order == order && (lines[i].quoteLine.Some? ==> QuoteOpenAt(db, lines[i].quoteLine.value, occurred))
  }

  lemma {:induction false} RowChecked(db: Store, order: nat, row: OrderRow, occurred: int)
    requires order < |db.orders| && OrderOneRow(db, order, row, occurred).Some?
    ensures var next := OrderOneRow(db, order, row, occurred).value;
            SameBooks(db, next) && OrderedWhileOpen(db, next.orderLines, |db.orderLines|, order, occurred)
  {
  }

  lemma {:induction false} RowsChecked(db: Store, order: nat, rows: seq<OrderRow>, occurred: int, n: nat)
    requires order < |db.orders| && OrderRows(db, order, rows, occurred).Some?
    requires n <= |db.orderLines| && OrderedWhileOpen(db, db.orderLines, n, order, occurred)
    ensures var next := OrderRows(db, order, rows, occurred).value;
            SameBooks(db, next) && OrderedWhileOpen(next, next.orderLines, n, order, occurred)
    decreases |rows|
  {
    if rows != [] {
      RowChecked(db, order, rows[0], occurred);
      var next := OrderOneRow(db, order, rows[0], occurred).value;
      assert OrderedWhileOpen(next, next.orderLines, n, order, occurred);
      RowsChecked(next, order, rows[1..], occurred, n);
    }
  }

  /** A line of an accepted order whose quotation expires is stored as received by then if and only if
      the caller gave the receipt time or the row was made by then. */
  lemma {:induction false} ReceivedByExpiry(db: Store, input: OrderInput, i: nat)
    requires CreateOrder(db, input).Some? && |db.orderLines| <= i < |CreateOrder(db, input).value.orderLines|
    ensures var next := CreateOrder(db, input).value;
            var line := next.orderLines[i];
            line.quoteLine.Some? ==>
              var expires := next.revisions[next.quoteLines[line.quoteLine.value].revision].expires;
              expires.Some? ==>
                (next.orders[line.order].received <= expires.value
                 <==> input.received.Some? || Later(db, input.tick) <= expires.value)
  {
    var now, later := Now(db, input.tick), Later(db, input.tick);
    var order := Order(input.request, GivenOr(input.received, later));
    RowsChecked(OpenOrder(db, order, later), |db.orders|, input.rows, GivenOr(input.received, now), |db.orderLines|);
  }

  // ---- what the caller can see to before the call

  /** The same tables but for the clock, the receipt times of the orders and the attempts. */
  ghost predicate Alike(a: DB, b: DB) {
    && b == a.(clock := b.clock, orders := b.orders, attempts := b.attempts)
    && |a.orders| == |b.orders| && |a.attempts| == |b.attempts|
    && forall i | 0 <= i < |a.orders| :: a.orders[i].request == b.orders[i].request
  }

  lemma {:induction false} ItemAlike(a: Store, b: Store, request: nat, row: OrderRow, occurred: int)
    requires Alike(a, b)
    ensures OrderedItem(a, request, row, occurred) == OrderedItem(b, request, row, occurred)
  {
  }

  lemma {:induction false} RowAlike(a: Store, b: Store, order: nat, row: OrderRow, occurred: int)
    requires Alike(a, b) && order < |a.orders| && OrderOneRow(a, order, row, occurred).Some?
    ensures OrderOneRow(b, order, row, occurred).Some?
    ensures Alike(OrderOneRow(a, order, row, occurred).value, OrderOneRow(b, order, row, occurred).value)
    ensures OrderOneRow(b, order, row, occurred).value.orders == b.orders
  {
    hide OrderedItem;
    assert b.orders[order].request == a.orders[order].request;
    ItemAlike(a, b, a.orders[order].request, row, occurred);
  }

  /** No check of an order row reads the clock, a receipt time or an attempt. */
  lemma {:induction false} RowsAlike(a: Store, b: Store, order: nat, rows: seq<OrderRow>, occurred: int)
    requires Alike(a, b) && order < |a.orders| && OrderRows(a, order, rows, occurred).Some?
    ensures OrderRows(b, order, rows, occurred).Some?
    ensures Alike(OrderRows(a, order, rows, occurred).value, OrderRows(b, order, rows, occurred).value)
    ensures OrderRows(b, order, rows, occurred).value.orders == b.orders
    decreases |rows|
  {
    if rows != [] {
      RowAlike(a, b, order, rows[0], occurred);
      RowsAlike(OrderOneRow(a, order, rows[0], occurred).value, OrderOneRow(b, order, rows[0], occurred).value,
                order, rows[1..], occurred);
    }
  }

  /** The same call, its rows made `lag` after its checks. */
  function Delayed(input: OrderInput, lag: nat): OrderInput {
    input.(tick := Tick(input.tick.wait, lag))
  }

  /** The same order lines on the same quotations. */
  predicate SameLines(a: DB, b: DB) {
    a.orderLines == b.orderLines && a.quoteLines == b.quoteLines && a.revisions == b.revisions
  }

  /** The checks of the order itself, before its rows. */
  predicate Admits(db: Store, input: OrderInput) {
    && Locked(db, input.request, input.admitted) && (if input.verbal then input.evidence else input.document)
    && NotFuture(input.received, Now(db, input.tick))
  }

  /** The rows of the call, on an order opened at `at`. */
  function RowsAt(db: Store, input: OrderInput, at: int): Option<Store>
    requires Admits(db, input)
  {
    OrderRows(OpenOrder(db, Order(input.request, GivenOr(input.received, at)), at), |db.orders|, input.rows,
              GivenOr(input.received, Now(db, input.tick)))
  }

  /** The rows of an accepted call, entered at any other time, are accepted and make the same lines. */
  lemma {:induction false} EnteredLater(db: Store, input: OrderInput, at: int, made: Store) returns (next: Store)
    requires CreateOrder(db, input) == Some(made)
    ensures Admits(db, input) && RowsAt(db, input, at) == Some(next) && SameLines(made, next)
  {
    var a := OpenOrder(db, Order(input.request, GivenOr(input.received, Later(db, input.tick))), Later(db, input.tick));
    var b := OpenOrder(db, Order(input.request, GivenOr(input.received, at)), at);
    RowsAlike(a, b, |db.orders|, input.rows, GivenOr(input.received, Now(db, input.tick)));
    next := RowsAt(db, input, at).value;
  }

  lemma {:induction false} SameChecks(db: Store, input: OrderInput, lag: nat)
    requires Admits(db, input)
    ensures var other := Delayed(input, lag);
            && Admits(db, other) && other.rows == input.rows && other.request == input.request
                && other.received == input.received
            && Now(db, other.tick) == Now(db, input.tick) && Later(db, other.tick) == Now(db, input.tick) + lag
  {
  }

  lemma {:induction false} Accepted(db: Store, input: OrderInput)
    requires Admits(db, input)
    ensures CreateOrder(db, input) == RowsAt(db, input, Later(db, input.tick))
  {
  }

  lemma {:induction false} EnteredDelayed(db: Store, input: OrderInput, lag: nat)
    requires Admits(db, input)
    ensures Admits(db, Delayed(input, lag))
    ensures CreateOrder(db, Delayed(input, lag)) == RowsAt(db, input, Now(db, input.tick) + lag)
  {
    hide OrderRows;
    SameChecks(db, input, lag);
    Accepted(db, Delayed(input, lag));
  }

  /** The delay decides nothing but times: every delayed call is accepted, with the same order lines on the
      same quotations. */
  lemma {:induction false} DelayChangesTimesOnly(db: Store, input: OrderInput, lag: nat, made: Store)
    returns (next: Store)
    requires CreateOrder(db, input) == Some(made)
    ensures CreateOrder(db, Delayed(input, lag)) == Some(next) && SameLines(made, next)
  {
    hide CreateOrder, RowsAt;
    next := EnteredLater(db, input, Now(db, input.tick) + lag, made);
    EnteredDelayed(db, input, lag);
  }

  /** The expiry of the quotation that an order line was placed on, when there is one. */
  function ExpiryOf(db: Store, line: nat): Option<int>
    requires line < |db.orderLines|
  {
    var quoteLine := db.orderLines[line].quoteLine;
    if quoteLine.None? then None else db.revisions[db.quoteLines[quoteLine.value].revision].expires
  }

  /** The order line is stored as received while its quotation was open. */
  predicate InTime(db: Store, line: nat)
    requires line < |db.orderLines|
  {
    var expires := ExpiryOf(db, line);
    expires.Some? ==> db.orders[db.orderLines[line].order].received <= expires.value
  }

  lemma {:induction false} LineInTime(db: Store, input: OrderInput, i: nat)
    requires CreateOrder(db, input).Some? && |db.orderLines| <= i < |CreateOrder(db, input).value.orderLines|
    requires ExpiryOf(CreateOrder(db, input).value, i).Some?
    ensures InTime(CreateOrder(db, input).value, i)
       <==> input.received.Some? || Later(db, input.tick) <= ExpiryOf(CreateOrder(db, input).value, i).value
  {
    ReceivedByExpiry(db, input, i);
  }

  /** The delayed call stores line `i` in time. */
  ghost predicate InTimeAfter(db: Store, input: OrderInput, i: nat, lag: nat) {
    var next := CreateOrder(db, Delayed(input, lag));
    next.Some? && i < |next.value.orderLines| && InTime(next.value, i)
  }

  /** A new line of an accepted order, on a quotation that expires, is sure to be stored as received by then
      if and only if the caller gave the receipt time: without it some delay between the checks and the row
      stores a later time. */
  lemma {:induction false} InTimeIfAndOnlyIfGiven(db: Store, input: OrderInput, i: nat)
    requires CreateOrder(db, input).Some? && |db.orderLines| <= i < |CreateOrder(db, input).value.orderLines|
    requires ExpiryOf(CreateOrder(db, input).value, i).Some?
    ensures (forall lag: nat :: InTimeAfter(db, input, i, lag)) <==> input.received.Some?
  {
    var expires := ExpiryOf(CreateOrder(db, input).value, i).value;
    forall lag: nat
      ensures InTimeAfter(db, input, i, lag) <==> input.received.Some? || Now(db, input.tick) + lag <= expires
    {
      var next := DelayChangesTimesOnly(db, input, lag, CreateOrder(db, input).value);
      LineInTime(db, Delayed(input, lag), i);
    }
    if input.received.None? {
      var now := Now(db, input.tick);
      var lag: nat := if now <= expires then expires + 1 - now else 0;
      assert !InTimeAfter(db, input, i, lag);
    }
  }

  const OFFERED := Offer(0, None, 0, "NGN", None)
  const OFFERING := OfferInput(0, 0, "NGN", None, [OfferRow(0, None)], true, AT_ONCE)
  const ASKED := Pricing.Row(1, 1, Pricing.Amount, 0, 0, 0, 0)

  const PRICED := Pricing.PricedLine(ASKED, 0, 0)
  const QUOTED := Revision(0, 1, "NGN", 0, Some(10), true)
  const QUOTE := QuoteInput(0, None, false, "NGN", Some(10), true, [QuoteRow(0, 0, ASKED)], true, AT_ONCE)
  const LATE_ORDER := OrderInput(0, true, true, false, None, [OrderRow(Some(0), None, 1, 1)], true, Tick(10, 1))

  // One request, offered, quoted until time 10, issued, and ordered at 10 with the row made at 11.

  lemma {:induction false} Asked(before: Store) returns (db: Store)
    requires Fresh(before) && before.clock == 0
    ensures db == Apply(before, OpRequest(1, true, AT_ONCE))
    ensures db == before.(requests := [Request(false)], items := [Item(0)])
  {
    assert before.requests + [Request(false)] == [Request(false)];
    assert before.items + NewItems(0, 1) == [Item(0)];
    db := Apply(before, OpRequest(1, true, AT_ONCE));
  }

  lemma {:induction false} Submitted(before: Store) returns (db: Store)
    requires before.clock == 0 && before.requests == [Request(false)] && before.items == [Item(0)]
    ensures db == Apply(before, OpSubmit(0, true, AT_ONCE))
    ensures db == before.(requests := [Request(true)])
  {
    assert before.requests[0 := Request(true)] == [Request(true)] && before.items[0].request == 0;
    db := Apply(before, OpSubmit(0, true, AT_ONCE));
  }

  lemma {:induction false} Offered(before: Store) returns (db: Store)
    requires before.clock == 0 && before.requests == [Request(true)] && before.items == [Item(0)] && before.offers == []
    ensures db == Apply(before, OpOffer(OFFERING))
    ensures db == before.(offers := [OFFERED])
  {
    assert before.offers + OfferLines(OFFERING) == [OFFERED];
    db := Apply(before, OpOffer(OFFERING));
  }

  /** The tables a quotation reads and an order writes are still empty. */
  predicate Unquoted(db: DB) {
    db.quotations == [] && db.revisions == [] && db.quoteLines == [] && db.issues == [] && db.orders == []
  }

  lemma {:induction false} AskedIsPriced()
    ensures Pricing.QuotationAmounts(ASKED) == Some(PRICED)
  {
  }

  lemma {:induction false} QuotedOne(db: Store)
    requires db.items == [Item(0)] && db.offers == [OFFERED] && db.quotations == [0] && db.revisions == [QUOTED]
        && db.quoteLines == []
    ensures QuoteOneRow(db, 0, QuoteRow(0, 0, ASKED), {}, 0) == Some(db.(quoteLines := [QuoteLine(0, 0, 0, PRICED)]))
  {
    AskedIsPriced();
    assert db.quoteLines + [QuoteLine(0, 0, 0, PRICED)] == [QuoteLine(0, 0, 0, PRICED)];
  }

  lemma {:induction false} QuotedRow(db: Store)
    requires db.items == [Item(0)] && db.offers == [OFFERED] && db.quotations == [0] && db.revisions == [QUOTED]
        && db.quoteLines == []
    ensures QuoteRows(db, 0, QUOTE.rows, {}, 0).Some?
    ensures QuoteRows(db, 0, QUOTE.rows, {}, 0).value == db.(quoteLines := [QuoteLine(0, 0, 0, PRICED)])
  {
    QuotedOne(db);
    assert QUOTE.rows[0] == QuoteRow(0, 0, ASKED) && QUOTE.rows[1..] == [];
  }

  lemma {:induction false} QuoteBegun(before: Store)
    requires before.clock == 0 && before.requests == [Request(true)] && Unquoted(before)
    ensures OpenQuotation(before, QUOTE) == Some(before.(quotations := [0]))
  {
    assert before.quotations + [0] == [0];
  }

  lemma {:induction false} RevisionBegun(db: Store)
    requires db.quotations == [0] && db.revisions == []
    ensures OpenRevision(db, QUOTED, 0) == db.(clock := 0, revisions := [QUOTED])
  {
    assert db.revisions + [QUOTED] == [QUOTED];
  }

  lemma {:induction false} NextIsQuoted(before: Store)
    requires before.clock == 0 && Unquoted(before)
    ensures NextRevision(before, QUOTE) == QUOTED
  {
    assert RevisionCount(before.revisions, 0) == 0;
  }

  lemma {:induction false} QuoteMade(before: Store) returns (db: Store)
    requires before.clock == 0 && before.requests == [Request(true)] && before.items == [Item(0)]
    requires before.offers == [OFFERED] && Unquoted(before)
    ensures CreateQuote(before, QUOTE) == Some(db)
    ensures db == before.(quotations := [0], revisions := [QUOTED], quoteLines := [QuoteLine(0, 0, 0, PRICED)])
  {
    hide QuoteOneRow;
    QuoteBegun(before);
    NextIsQuoted(before);
    var entered := OpenQuotation(before, QUOTE).value;
    RevisionBegun(entered);
    var begun := OpenRevision(entered, QUOTED, 0);
    QuotedRow(begun);
    db := QuoteRows(begun, 0, QUOTE.rows, {}, 0).value;
  }

  lemma {:induction false} Quoted(before: Store) returns (db: Store)
    requires before.clock == 0 && before.requests == [Request(true)] && before.items == [Item(0)]
    requires before.offers == [OFFERED] && Unquoted(before)
    ensures Attempted(before, OpQuote(QUOTE)) == Some(db)
    ensures db == before.(quotations := [0], revisions := [QUOTED], quoteLines := [QuoteLine(0, 0, 0, PRICED)])
  {
    hide CreateQuote;
    db := QuoteMade(before);
  }

  lemma {:induction false} Issued(before: Store) returns (db: Store)
    requires before.clock == 0 && before.requests == [Request(true)] && before.quotations == [0]
    requires before.revisions == [QUOTED] && before.issues == []
    ensures db == Apply(before, OpIssue(0, None, true, true, AT_ONCE))
    ensures db == before.(issues := [Issue(0, 0, 0)])
  {
    assert RevisionCount([QUOTED], 0) == 1;
    db := Apply(before, OpIssue(0, None, true, true, AT_ONCE));
  }

  lemma {:induction false} OrderedRow(db: Store)
    requires db.items == [Item(0)] && db.revisions == [QUOTED] && db.issues == [Issue(0, 0, 0)]
    requires db.quoteLines == [QuoteLine(0, 0, 0, PRICED)] && |db.orders| == 1 && db.orders[0].request == 0
    ensures OrderRows(db, 0, LATE_ORDER.rows, 10).Some?
    ensures OrderRows(db, 0, LATE_ORDER.rows, 10).value.orders == db.orders
    ensures OrderRows(db, 0, LATE_ORDER.rows, 10).value.revisions == db.revisions
  {
    assert db.issues[0].occurred <= 10;
    assert SentBy(db.issues, 0, 10);
    assert OrderOneRow(db, 0, LATE_ORDER.rows[0], 10).Some?;
    assert LATE_ORDER.rows[1..] == [];
  }

  lemma {:induction false} OrderBegun(before: Store) returns (begun: Store)
    requires before.clock == 0 && before.requests == [Request(true)] && before.orders == []
    ensures begun == OpenOrder(before, Order(0, 11), 11)
    ensures CreateOrder(before, LATE_ORDER) == OrderRows(begun, 0, LATE_ORDER.rows, 10)
    ensures begun == before.(clock := 11, orders := [Order(0, 11)])
  {
    hide OrderRows;
    begun := OpenOrder(before, Order(0, 11), 11);
  }

  lemma {:induction false} Ordered(before: Store) returns (db: Store)
    requires before.clock == 0 && before.requests == [Request(true)] && before.items == [Item(0)]
    requires before.revisions == [QUOTED] && before.issues == [Issue(0, 0, 0)]
    requires before.quoteLines == [QuoteLine(0, 0, 0, PRICED)] && before.orders == []
    ensures db == Apply(before, OpOrder(LATE_ORDER))
    ensures db.revisions == [QUOTED] && db.orders == [Order(0, 11)]
  {
    hide OrderRows, CreateOrder, OpenOrder;
    var begun := OrderBegun(before);
    OrderedRow(begun);
    db := CreateOrder(before, LATE_ORDER).value;
    Applied(before, OpOrder(LATE_ORDER), db);
  }

  /** A run of six operations in which the accepted order is stored as received after its quotation expired. */
  lemma {:induction false} ReceivedAfterExpiry(start: Store)
    returns (asked: Store, submitted: Store, offered: Store, quoted: Store, issued: Store, db: Store)
    requires Fresh(start) && start.clock == 0
    ensures asked == Apply(start, OpRequest(1, true, AT_ONCE))
    ensures submitted == Apply(asked, OpSubmit(0, true, AT_ONCE))
    ensures offered == Apply(submitted, OpOffer(OFFERING))
    ensures quoted == Apply(offered, OpQuote(QUOTE))
    ensures issued == Apply(quoted, OpIssue(0, None, true, true, AT_ONCE))
    ensures db == Apply(issued, OpOrder(LATE_ORDER))
    ensures |db.orders| == 1 && |db.revisions| == 1 && db.revisions[0].expires.Some?
            && db.revisions[0].expires.value < db.orders[0].received
  {
    asked := Asked(start);
    submitted := Submitted(asked);
    offered := Offered(submitted);
    quoted := Quoted(offered);
    Applied(offered, OpQuote(QUOTE), quoted);
    issued := Issued(quoted);
    db := Ordered(issued);
  }
}
