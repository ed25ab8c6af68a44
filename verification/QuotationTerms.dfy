/** What the lines of every stored quotation and of every order placed on one agree with. */
module QuotationTerms {
  import opened Options
  import opened Links
  import opened ProcurementTables
  import opened ProcurementSteps
  import opened ProcurementMoves
  import Pricing

  /** An order line from a quotation orders the quoted item at the quoted price. */
  ghost predicate OrderTerms(line: OrderLine, quoteLines: seq<QuoteLine>) {
    line.quoteLine.Some? ==>
      && line.quoteLine.value < |quoteLines|
      && quoteLines[line.quoteLine.value].item == line.item
      && quoteLines[line.quoteLine.value].priced.row.unitPrice == line.unitPrice
  }

  ghost predicate OneLinePerItem(lines: seq<QuoteLine>) {
    forall i, j | 0 <= i < j < |lines| && lines[i].revision == lines[j].revision :: lines[i].item != lines[j].item
  }

  ghost predicate Terms(db: DB) {
    && (forall i | 0 <= i < |db.quoteLines| :: LineTerms(db.quoteLines[i], db.offers, db.revisions))
    && (forall i | 0 <= i < |db.orderLines| :: OrderTerms(db.orderLines[i], db.quoteLines))
    && OneLinePerItem(db.quoteLines)
  }

  lemma {:induction false} CreateQuoteKeepsTerms(db: Store, input: QuoteInput)
    requires Terms(db) && CreateQuote(db, input).Some?
    ensures Terms(CreateQuote(db, input).value)
  {
    hide QuoteRows, Schema, Pricing.QuotationAmounts;
    var next := CreateQuote(db, input).value;
    QuoteRowsQuote(OpenRevision(OpenQuotation(db, input).value, NextRevision(db, input), Later(db, input.tick)),
                   |db.revisions|, input.rows, {}, Now(db, input.tick));
    forall i | 0 <= i < |next.quoteLines| ensures LineTerms(next.quoteLines[i], next.offers, next.revisions) {
      assert i < |db.quoteLines| ==> LineTerms(db.quoteLines[i], db.offers, db.revisions);
    }
  }

  lemma {:induction false} CreateOfferKeepsTerms(db: Store, input: OfferInput)
    requires Terms(db) && CreateOffer(db, input).Some?
    ensures Terms(CreateOffer(db, input).value)
  {
    forall i | 0 <= i < |db.quoteLines|
      ensures LineTerms(db.quoteLines[i], db.offers + OfferLines(input), db.revisions)
    {
      assert LineTerms(db.quoteLines[i], db.offers, db.revisions);
    }
  }

  lemma {:induction false} ChangeKeepsTerms(db: Store, m: Move, next: Store)
    requires Terms(db) && Moves(db, m, next)
    ensures Terms(next)
  {
    hide LineTerms, CreateQuote, CreateOffer, OfferUsable, SupplierAllowed, Schema;
    if m.Whole? && m.op.OpOffer? {
      CreateOfferKeepsTerms(db, m.op.offer);
    } else if m.Whole? && m.op.OpQuote? {
      CreateQuoteKeepsTerms(db, m.op.quote);
    }
  }

  lemma {:induction false} ChangesKeepTerms(op: Op)
    ensures Keeps((x: Store) => Terms(x), op)
  {
    hide Terms, Moves;
    forall db: Store, m: Move, next: Store | Terms(db) && Of(op, m) && Moves(db, m, next) ensures Terms(next) {
      ChangeKeepsTerms(db, m, next);
    }
  }

  /** In every reachable state each quotation line has its own item, quotes an offer of that item in the
      revision's currency and is priced from its row; and orders on it are at its price. */
  lemma {:induction false} TermsOverRuns(start: Store, ops: seq<Op>)
    requires Fresh(start)
    ensures Terms(Run(start, ops))
  {
    assert Terms(start);
    hide Terms, Keeps, Run;
    forall i | 0 <= i < |ops| ensures Keeps((x: Store) => Terms(x), ops[i]) {
      ChangesKeepTerms(ops[i]);
    }
    RunKeeps((x: Store) => Terms(x), start, ops);
  }

  function PricedLines(lines: seq<QuoteLine>, revision: nat): seq<Pricing.PricedLine> {
    if lines == [] then []
    else PricedLines(lines[..|lines| - 1], revision)
         + (if lines[|lines| - 1].revision == revision then [lines[|lines| - 1].priced] else [])
  }

  lemma {:induction false} AllPriced(lines: seq<QuoteLine>, revision: nat)
    requires forall i | 0 <= i < |lines| :: Pricing.QuotationAmounts(lines[i].priced.row) == Some(lines[i].priced)
    ensures forall i | 0 <= i < |PricedLines(lines, revision)| ::
              var line := PricedLines(lines, revision)[i]; Pricing.QuotationAmounts(line.row) == Some(line)
    decreases |lines|
  {
    if lines != [] {
      AllPriced(lines[..|lines| - 1], revision);
    }
  }

  /** So the printed total of every stored quotation of n lines is within n times 0.0001 of the exact total,
      and another n times 10^-12 of a currency unit when some line does not fit the decimal context. */
  lemma {:induction false} StoredTotalBound(start: Store, ops: seq<Op>, revision: nat)
    requires Fresh(start)
    ensures var lines := PricedLines(Run(start, ops).quoteLines, revision);
            var error := Pricing.SumPricing(lines) * 1_000_000_000_000 - Pricing.SumExact(lines);
            var slack := if forall i | 0 <= i < |lines| :: Pricing.Fits(lines[i].row) then 0 else Pricing.SLACK;
            -(Pricing.TAX_SCALE + slack) * |lines| <= error <= (Pricing.TAX_SCALE + slack) * |lines|
  {
    var db := Run(start, ops);
    TermsOverRuns(start, ops);
    forall i | 0 <= i < |db.quoteLines|
      ensures Pricing.QuotationAmounts(db.quoteLines[i].priced.row) == Some(db.quoteLines[i].priced)
    {
      assert LineTerms(db.quoteLines[i], db.offers, db.revisions);
    }
    AllPriced(db.quoteLines, revision);
    Pricing.DocumentTotalBound(PricedLines(db.quoteLines, revision));
  }

  // ---- orders on invoice lines

  /** No row of the operation is shown more of an invoice line than `billed` says. */
  ghost predicate Bills(op: Op, billed: nat -> nat) {
    op.OpOrder? ==>
      forall i | 0 <= i < |op.order.rows| && op.order.rows[i].invoice.Some? ::
        op.order.rows[i].invoice.value.qty <= billed(op.order.rows[i].invoice.value.id)
  }

  ghost predicate WithinBill(orderLines: seq<OrderLine>, billed: nat -> nat) {
    forall id: nat :: Total(InvoiceOrders(orderLines), id) <= billed(id)
  }

  lemma {:induction false} OrderRowWithinBill(db: Store, order: nat, row: OrderRow, occurred: int, billed: nat -> nat)
    requires order < |db.orders| && OrderOneRow(db, order, row, occurred).Some? && WithinBill(db.orderLines, billed)
    requires row.invoice.Some? ==> row.invoice.value.qty <= billed(row.invoice.value.id)
    ensures WithinBill(OrderOneRow(db, order, row, occurred).value.orderLines, billed)
    ensures OrderOneRow(db, order, row, occurred).value.orders == db.orders
  {
    var next := OrderOneRow(db, order, row, occurred).value;
    var line := next.orderLines[|db.orderLines|];
    var link := if line.invoiceLine.Some? then Link(line.invoiceLine.value, line.qty) else Link(-1, 0);
    assert InvoiceOrders(next.orderLines) == InvoiceOrders(db.orderLines) + [link];
    TotalAppend(InvoiceOrders(db.orderLines), link);
  }

  lemma {:induction false} ChangeWithinBill(op: Op, billed: nat -> nat, db: Store, m: Move, next: Store)
    requires WithinBill(db.orderLines, billed) && Bills(op, billed) && Of(op, m) && Moves(db, m, next)
    ensures WithinBill(next.orderLines, billed)
  {
    hide WithinBill, OrderOneRow, OfferUsable, SupplierAllowed, QuoteRows, Schema;
    if m.OrderRowMove? {
      OrderRowWithinBill(db, m.into, m.orderRow, m.occurred, billed);
    } else if m.Whole? && m.op.OpQuote? {
      var input := m.op.quote;
      QuoteRowsQuote(OpenRevision(OpenQuotation(db, input).value, NextRevision(db, input), Later(db, input.tick)),
                     |db.revisions|, input.rows, {}, Now(db, input.tick));
    }
  }

  lemma {:induction false} ChangesWithinBill(op: Op, billed: nat -> nat)
    requires Bills(op, billed)
    ensures Keeps((x: Store) => WithinBill(x.orderLines, billed), op)
  {
    hide WithinBill, Bills, Of, Moves;
    forall db: Store, m: Move, next: Store | WithinBill(db.orderLines, billed) && Of(op, m) && Moves(db, m, next)
      ensures WithinBill(next.orderLines, billed)
    {
      ChangeWithinBill(op, billed, db, m, next);
    }
  }

  /** Over any run in which the ledger never shows more of an invoice line than was billed on it, no more than
      that is ordered on it, in whatever rows and calls. */
  lemma {:induction false} InvoicesNotOverdrawn(start: Store, ops: seq<Op>, billed: nat -> nat)
    requires Fresh(start) && forall i | 0 <= i < |ops| :: Bills(ops[i], billed)
    ensures WithinBill(Run(start, ops).orderLines, billed)
  {
    assert InvoiceOrders(start.orderLines) == [] && WithinBill(start.orderLines, billed);
    hide WithinBill, Bills, Keeps, Run;
    forall i | 0 <= i < |ops| ensures Keeps((x: Store) => WithinBill(x.orderLines, billed), ops[i]) {
      ChangesWithinBill(ops[i], billed);
    }
    RunKeeps((x: Store) => WithinBill(x.orderLines, billed), start, ops);
  }
}
