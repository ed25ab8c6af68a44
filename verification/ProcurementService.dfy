/** The operations as they run: rows are checked and inserted one at a time inside a transaction, and a
    refused row puts the tables back as they were when the operation began. */
module ProcurementService {
  import opened Options
  import opened Links
  import opened ProcurementTables
  import opened ProcurementSteps
  import Pricing
  import FulfilmentInvariants
  import FulfilmentSteps

  /** From a state that satisfies the invariant of the fulfilment chain, one that does too and has lost no row. */
  ghost predicate Kept(before: DB, next: DB) {
    FulfilmentInvariants.Inv(before) ==> FulfilmentInvariants.Inv(next) && FulfilmentInvariants.Grows(before, next)
  }

  /** What an operation leaves: its result, or on a refusal the tables as they were. */
  ghost predicate Leaves(before: DB, result: Option<Store>) {
    Kept(before, if result.Some? then result.value else before)
  }

  lemma {:induction false} OperationKeeps(db: Store, op: Op)
    ensures Leaves(db, Attempted(db, op))
  {
    if FulfilmentInvariants.Inv(db) {
      FulfilmentSteps.ApplyKeeps(db, op);
    }
  }

  lemma {:induction false} PurchaseKeeps(db: Store, input: PurchaseInput)
    ensures Leaves(db, ProcurementSteps.CreatePurchase(db, input))
  {
    hide Leaves, ProcurementSteps.CreatePurchase;
    OperationKeeps(db, OpPurchase(input));
  }

  lemma {:induction false} QuoteKeeps(db: Store, input: QuoteInput)
    ensures Leaves(db, ProcurementSteps.CreateQuote(db, input))
  {
    hide Leaves, ProcurementSteps.CreateQuote;
    OperationKeeps(db, OpQuote(input));
  }

  lemma {:induction false} DeliveryKeeps(db: Store, input: DeliveryInput)
    ensures Leaves(db, ProcurementSteps.CreateDelivery(db, input))
  {
    hide Leaves, ProcurementSteps.CreateDelivery;
    OperationKeeps(db, OpDelivery(input));
  }

  lemma {:induction false} OneMoreItem(before: Store, n: nat, tick: Tick)
    ensures var done := ProcurementSteps.CreateRequest(before, n, true, tick).value;
            ProcurementSteps.CreateRequest(before, n + 1, true, tick)
              == Some(done.(items := done.items + [Item(|before.requests|)]))
  {
    var request := |before.requests|;
    assert NewItems(request, n + 1) == NewItems(request, n) + [Item(request)];
    assert before.items + NewItems(request, n + 1) == (before.items + NewItems(request, n)) + [Item(request)];
  }

  lemma {:induction false} NoItems(before: Store, tick: Tick)
    ensures ProcurementSteps.CreateRequest(before, 0, true, tick)
         == Some(before.(clock := Later(before, tick), requests := before.requests + [Request(false)]))
  {
    assert before.items + NewItems(|before.requests|, 0) == before.items;
  }

  /** The offer with its first `n` lines. */
  function FirstLines(input: OfferInput, n: nat): OfferInput
    requires n <= |input.rows|
  {
    input.(rows := input.rows[..n])
  }

  lemma {:induction false} NoLines(before: Store, input: OfferInput)
    requires Locked(before, input.request, input.admitted) && Unexpired(input.expires, Now(before, input.tick))
    ensures ProcurementSteps.CreateOffer(before, FirstLines(input, 0)) == Some(At(before, Later(before, input.tick)))
  {
    assert before.offers + OfferLines(FirstLines(input, 0)) == before.offers;
  }

  lemma {:induction false} OneMoreLine(before: Store, input: OfferInput, n: nat)
    requires n < |input.rows| && ProcurementSteps.CreateOffer(before, FirstLines(input, n)).Some?
    ensures var done, row := ProcurementSteps.CreateOffer(before, FirstLines(input, n)).value, input.rows[n];
            if OfferRowAllowed(done, input.request, row)
            then ProcurementSteps.CreateOffer(before, FirstLines(input, n + 1))
                   == Some(done.(offers := done.offers + [OfferLine(input, row)]))
            else ProcurementSteps.CreateOffer(before, input).None?
  {
    var less, more := FirstLines(input, n), FirstLines(input, n + 1);
    assert forall i | 0 <= i < n :: more.rows[i] == less.rows[i];
    assert OfferLines(more) == OfferLines(less) + [OfferLine(input, input.rows[n])];
    assert before.offers + OfferLines(more) == (before.offers + OfferLines(less)) + [OfferLine(input, input.rows[n])];
  }

  lemma {:induction false} QuoteBegins(db: Store, input: QuoteInput)
    requires OpenQuotation(db, input).Some?
    ensures NextRevision(db, input).quotation < |OpenQuotation(db, input).value.quotations|
    ensures var begun := OpenRevision(OpenQuotation(db, input).value, NextRevision(db, input), Later(db, input.tick));
            && |db.revisions| < |begun.revisions|
            && ProcurementSteps.CreateQuote(db, input)
                 == if !Unexpired(input.expires, Now(db, input.tick)) then None
                    else QuoteRows(begun, |db.revisions|, input.rows, {}, Now(db, input.tick))
  {
    hide QuoteRows;
  }

  lemma {:induction false} QuoteRefused(db: Store, input: QuoteInput)
    requires OpenQuotation(db, input).None?
    ensures ProcurementSteps.CreateQuote(db, input).None?
  {
    hide QuoteRows, OpenRevision;
  }

  /** The attempt a delivery line delivers for. */
  function DeliveredFor(db: Store, deliveryLine: nat): (attempt: nat)
    requires deliveryLine < |db.deliveryLines|
    ensures attempt < |db.attempts| && db.attempts[attempt].item < |db.items|
  {
    db.purchaseLines[db.receiptLines[db.deliveryLines[deliveryLine].receiptLine].purchaseLine].attempt
  }

  lemma {:induction false} OutcomeEnters(db: Store, outcome: nat, row: OutcomeRow)
    requires outcome < |db.outcomes| && row.deliveryLine < |db.deliveryLines| && 0 < row.accepted + row.rejected
    ensures var attempt := DeliveredFor(db, row.deliveryLine);
            var line := OutcomeLine(outcome, row.deliveryLine, row.accepted, row.rejected);
            var added := OutcomeEvents(db.attempts[attempt].item, attempt, row.accepted, row.rejected);
            Schema(db.(outcomeLines := db.outcomeLines + [line], events := db.events + added))
  {
  }

  class Service {
    var db: Store

    constructor (start: Store)
      requires Fresh(start)
      ensures db == start
    {
      db := start;
    }

    method CreateRequest(items: nat, admitted: bool, tick: Tick) returns (ok: bool)
      modifies this
      ensures ok == ProcurementSteps.CreateRequest(old(db), items, admitted, tick).Some?
      ensures db == if ok then ProcurementSteps.CreateRequest(old(db), items, admitted, tick).value else old(db)
      ensures Kept(old(db), db)
    {
      hide Kept;
      OperationKeeps(db, OpRequest(items, admitted, tick));
      if !admitted {
        return false;
      }
      var request := |db.requests|;
      ghost var before := db;
      NoItems(before, tick);
      db := db.(clock := Later(db, tick), requests := db.requests + [Request(false)]);
      hide ProcurementSteps.CreateRequest;
      for i := 0 to items
        invariant ProcurementSteps.CreateRequest(before, i, true, tick) == Some(db)
      {
        OneMoreItem(before, i, tick);
        db := db.(items := db.items + [Item(request)]);
      }
      return true;
    }

    method SubmitRequest(request: nat, admitted: bool, tick: Tick) returns (ok: bool)
      modifies this
      ensures ok == ProcurementSteps.SubmitRequest(old(db), request, admitted, tick).Some?
      ensures db == if ok then ProcurementSteps.SubmitRequest(old(db), request, admitted, tick).value else old(db)
      ensures Kept(old(db), db)
    {
      hide Kept;
      OperationKeeps(db, OpSubmit(request, admitted, tick));
      if !admitted || request >= |db.requests| || db.requests[request].submitted || !HasItem(db.items, request) {
        return false;
      }
      db := db.(clock := Later(db, tick), requests := db.requests[request := Request(true)]);
      return true;
    }

    method CreateOffer(input: OfferInput) returns (ok: bool)
      modifies this
      ensures ok == ProcurementSteps.CreateOffer(old(db), input).Some?
      ensures db == if ok then ProcurementSteps.CreateOffer(old(db), input).value else old(db)
      ensures Kept(old(db), db)
    {
      hide Kept;
      OperationKeeps(db, OpOffer(input));
      if !Locked(db, input.request, input.admitted) || !Unexpired(input.expires, Now(db, input.tick)) {
        return false;
      }
      var saved := db;
      NoLines(saved, input);
      db := At(db, Later(db, input.tick));
      hide ProcurementSteps.CreateOffer, OfferRowAllowed;
      for i := 0 to |input.rows|
        invariant ProcurementSteps.CreateOffer(saved, FirstLines(input, i)) == Some(db)
      {
        OneMoreLine(saved, input, i);
        if !OfferRowAllowed(db, input.request, input.rows[i]) {
          db := saved;
          return false;
        }
        db := db.(offers := db.offers + [OfferLine(input, input.rows[i])]);
      }
      assert FirstLines(input, |input.rows|) == input;
      return true;
    }

    method IssueQuote(revision: nat, given: Option<int>, approved: bool, admitted: bool, tick: Tick) returns (ok: bool)
      modifies this
      ensures ok == ProcurementSteps.IssueQuote(old(db), revision, given, approved, admitted, tick).Some?
      ensures db == if ok then ProcurementSteps.IssueQuote(old(db), revision, given, approved, admitted, tick).value
          else old(db)
      ensures Kept(old(db), db)
    {
      hide Kept;
      OperationKeeps(db, OpIssue(revision, given, approved, admitted, tick));
      var now, later := Now(db, tick), Later(db, tick);
      if revision >= |db.revisions| {
        return false;
      }
      var r := db.revisions[revision];
      if !Locked(db, db.quotations[r.quotation], admitted) || !approved {
        return false;
      }
      if !Unexpired(r.expires, now) || r.number != RevisionCount(db.revisions, r.quotation) || !r.document {
        return false;
      }
      var occurred := GivenOr(given, now);
      if !NotFuture(given, now) || occurred < r.created {
        return false;
      }
      db := db.(clock := later, issues := db.issues + [Issue(revision, GivenOr(given, later), later)]);
      return true;
    }

    method CreateQuote(input: QuoteInput) returns (ok: bool)
      modifies this
      ensures ok == ProcurementSteps.CreateQuote(old(db), input).Some?
      ensures db == if ok then ProcurementSteps.CreateQuote(old(db), input).value else old(db)
      ensures Kept(old(db), db)
    {
      hide Kept, QuoteRows, ProcurementSteps.CreateQuote, OpenQuotation, NextRevision, OpenRevision, Schema;
      QuoteKeeps(db, input);
      var saved := db;
      var now, later := Now(db, input.tick), Later(db, input.tick);
      var entered := OpenQuotation(db, input);
      if entered.None? {
        QuoteRefused(db, input);
        return false;
      }
      QuoteBegins(db, input);
      if !Unexpired(input.expires, now) {
        return false;
      }
      var revision := |db.revisions|;
      db := OpenRevision(entered.value, NextRevision(db, input), later);
      ok := AddQuoteRows(revision, input.rows, now);
      if !ok {
        db := saved;
      }
    }

    /** Add rows until one is refused. */
    method AddQuoteRows(revision: nat, rows: seq<QuoteRow>, now: int) returns (ok: bool)
      requires revision < |db.revisions|
      modifies this
      ensures ok == QuoteRows(old(db), revision, rows, {}, now).Some?
      ensures ok ==> db == QuoteRows(old(db), revision, rows, {}, now).value
    {
      hide QuoteOneRow;
      var seen: set<nat> := {};
      for i := 0 to |rows|
        invariant revision < |db.revisions|
        invariant QuoteRows(db, revision, rows[i..], seen, now) == QuoteRows(old(db), revision, rows, {}, now)
      {
        assert rows[i..][0] == rows[i] && rows[i..][1..] == rows[i + 1..];
        var added := AddQuoteRow(revision, rows[i], seen, now);
        if !added {
          return false;
        }
        seen := seen + {rows[i].item};
      }
      return true;
    }

    method AddQuoteRow(revision: nat, row: QuoteRow, seen: set<nat>, now: int) returns (ok: bool)
      requires revision < |db.revisions|
      modifies this
      ensures ok == QuoteOneRow(old(db), revision, row, seen, now).Some?
      ensures db == if ok then QuoteOneRow(old(db), revision, row, seen, now).value else old(db)
      ensures db.revisions == old(db).revisions
    {
      if |db.items| <= row.item || |db.offers| <= row.offer {
        return false;
      }
      if db.items[row.item].request != db.quotations[db.revisions[revision].quotation] || row.item in seen {
        return false;
      }
      var offer := db.offers[row.offer];
      if offer.item != row.item || offer.currency != db.revisions[revision].currency || !Unexpired(offer.expires, now) {
        return false;
      }
      var priced := Pricing.QuotationAmounts(row.row);
      if priced.None? {
        return false;
      }
      db := db.(quoteLines := db.quoteLines + [QuoteLine(revision, row.item, row.offer, priced.value)]);
      return true;
    }

    method CreateOrder(input: OrderInput) returns (ok: bool)
      modifies this
      ensures ok == ProcurementSteps.CreateOrder(old(db), input).Some?
      ensures db == if ok then ProcurementSteps.CreateOrder(old(db), input).value else old(db)
      ensures Kept(old(db), db)
    {
      hide Kept, OrderRows;
      OperationKeeps(db, OpOrder(input));
      var saved := db;
      var now, later := Now(db, input.tick), Later(db, input.tick);
      if !Locked(db, input.request, input.admitted) {
        return false;
      }
      if input.verbal {
        if !input.evidence { return false; }
      } else if !input.document {
        return false;
      }
      if !NotFuture(input.received, now) {
        return false;
      }
      var occurred, order := GivenOr(input.received, now), |db.orders|;
      db := OpenOrder(db, Order(input.request, GivenOr(input.received, later)), later);
      ok := AddOrderRows(order, input.rows, occurred);
      if !ok {
        db := saved;
      }
    }

    method AddOrderRows(order: nat, rows: seq<OrderRow>, occurred: int) returns (ok: bool)
      requires order < |db.orders|
      modifies this
      ensures ok == OrderRows(old(db), order, rows, occurred).Some?
      ensures ok ==> db == OrderRows(old(db), order, rows, occurred).value
    {
      hide OrderOneRow;
      for i := 0 to |rows|
        invariant order < |db.orders|
        invariant OrderRows(db, order, rows[i..], occurred) == OrderRows(old(db), order, rows, occurred)
      {
        assert rows[i..][0] == rows[i] && rows[i..][1..] == rows[i + 1..];
        var added := AddOrderRow(order, rows[i], occurred);
        if !added {
          return false;
        }
      }
      return true;
    }

    method AddOrderRow(order: nat, row: OrderRow, occurred: int) returns (ok: bool)
      requires order < |db.orders|
      modifies this
      ensures ok == OrderOneRow(old(db), order, row, occurred).Some?
      ensures db == if ok then OrderOneRow(old(db), order, row, occurred).value else old(db)
      ensures db.orders == old(db).orders
    {
      var item := OrderedItem(db, db.orders[order].request, row, occurred);
      if item.None? || row.qty == 0 {
        return false;
      }
      var line := NewOrderLine(order, item.value, row);
      var attempt := Attempt(item.value, |db.orderLines|, row.qty, None, Original, db.clock);
      db := db.(orderLines := db.orderLines + [line],
                attempts := db.attempts + [attempt],
                events := db.events + [Event(PurchaseOrderReceived, item.value, |db.attempts|, row.qty)]);
      return true;
    }

    method CreatePurchase(input: PurchaseInput) returns (ok: bool)
      modifies this
      ensures ok == ProcurementSteps.CreatePurchase(old(db), input).Some?
      ensures db == if ok then ProcurementSteps.CreatePurchase(old(db), input).value else old(db)
      ensures Kept(old(db), db)
    {
      hide Kept, PurchaseOneRow;
      PurchaseKeeps(db, input);
      var saved := db;
      var now := Now(db, input.tick);
      if !Locked(db, input.request, input.admitted) {
        return false;
      }
      var purchase := |db.purchases|;
      db := OpenPurchase(db, Purchase(input.request, input.supplier, input.currency), Later(db, input.tick));
      for i := 0 to |input.rows|
        invariant purchase < |db.purchases|
        invariant PurchaseRows(db, purchase, input.rows[i..], now) == ProcurementSteps.CreatePurchase(saved, input)
      {
        assert input.rows[i..][0] == input.rows[i] && input.rows[i..][1..] == input.rows[i + 1..];
        var added := AddPurchaseRow(purchase, input.rows[i], now);
        if !added {
          db := saved;
          return false;
        }
      }
      return true;
    }

    method AddPurchaseRow(purchase: nat, row: PurchaseRow, now: int) returns (ok: bool)
      requires purchase < |db.purchases|
      modifies this
      ensures ok == PurchaseOneRow(old(db), purchase, row, now).Some?
      ensures db == if ok then PurchaseOneRow(old(db), purchase, row, now).value else old(db)
      ensures db.purchases == old(db).purchases
    {
      if |db.attempts| <= row.attempt || |db.offers| <= row.offer || row.qty == 0 {
        return false;
      }
      var item := db.attempts[row.attempt].item;
      if db.items[item].request != db.purchases[purchase].request
          || !OfferUsable(db, db.purchases[purchase], row, now) {
        return false;
      }
      if !SupplierAllowed(db, row.attempt, db.purchases[purchase].supplier) {
        return false;
      }
      if db.attempts[row.attempt].qty < Total(PurchasedBy(db), row.attempt) + row.qty {
        return false;
      }
      db := db.(purchaseLines := db.purchaseLines + [PurchaseLine(purchase, row.attempt, row.qty, db.clock)],
                events := db.events + [Event(ItemPurchased, item, row.attempt, row.qty)]);
      return true;
    }

    method CreateReceipt(input: ReceiptInput) returns (ok: bool)
      modifies this
      ensures ok == ProcurementSteps.CreateReceipt(old(db), input).Some?
      ensures db == if ok then ProcurementSteps.CreateReceipt(old(db), input).value else old(db)
      ensures Kept(old(db), db)
    {
      hide Kept, ReceiveOneRow;
      OperationKeeps(db, OpReceipt(input));
      var saved := db;
      var now, later := Now(db, input.tick), Later(db, input.tick);
      if |db.purchases| <= input.purchase || !Locked(db, db.purchases[input.purchase].request, input.admitted) {
        return false;
      }
      if !NotFuture(input.received, now) {
        return false;
      }
      var receipt := |db.receipts|;
      db := OpenReceipt(db, Receipt(input.purchase, GivenOr(input.received, later)), later);
      for i := 0 to |input.rows|
        invariant receipt < |db.receipts|
        invariant ReceiveRows(db, receipt, input.rows[i..]) == ProcurementSteps.CreateReceipt(saved, input)
      {
        assert input.rows[i..][0] == input.rows[i] && input.rows[i..][1..] == input.rows[i + 1..];
        var added := AddReceiptRow(receipt, input.rows[i]);
        if !added {
          db := saved;
          return false;
        }
      }
      return true;
    }

    method AddReceiptRow(receipt: nat, row: ReceiptRow) returns (ok: bool)
      requires receipt < |db.receipts|
      modifies this
      ensures ok == ReceiveOneRow(old(db), receipt, row).Some?
      ensures db == if ok then ReceiveOneRow(old(db), receipt, row).value else old(db)
      ensures db.receipts == old(db).receipts
    {
      if |db.purchaseLines| <= row.purchaseLine || row.qty == 0 {
        return false;
      }
      var line := db.purchaseLines[row.purchaseLine];
      if line.purchase != db.receipts[receipt].purchase || db.receipts[receipt].received < line.created {
        return false;
      }
      if line.qty < Total(Receipts(db.receiptLines), row.purchaseLine) + row.qty {
        return false;
      }
      db := db.(receiptLines := db.receiptLines + [ReceiptLine(receipt, row.purchaseLine, row.qty)],
                events := db.events + [Event(ItemReceived, db.attempts[line.attempt].item, line.attempt, row.qty)]);
      return true;
    }

    method CreateDelivery(input: DeliveryInput) returns (ok: bool)
      modifies this
      ensures ok == ProcurementSteps.CreateDelivery(old(db), input).Some?
      ensures db == if ok then ProcurementSteps.CreateDelivery(old(db), input).value else old(db)
      ensures Kept(old(db), db)
    {
      hide Kept, DeliverOneRow;
      DeliveryKeeps(db, input);
      var saved := db;
      if !Locked(db, input.request, input.admitted) {
        return false;
      }
      var delivery := |db.deliveries|;
      db := OpenDelivery(db, input.request, Later(db, input.tick));
      for i := 0 to |input.rows|
        invariant delivery < |db.deliveries|
        invariant DeliverRows(db, delivery, input.rows[i..]) == ProcurementSteps.CreateDelivery(saved, input)
      {
        assert input.rows[i..][0] == input.rows[i] && input.rows[i..][1..] == input.rows[i + 1..];
        var added := AddDeliveryRow(delivery, input.rows[i]);
        if !added {
          db := saved;
          return false;
        }
      }
      return true;
    }

    method AddDeliveryRow(delivery: nat, row: DeliveryRow) returns (ok: bool)
      requires delivery < |db.deliveries|
      modifies this
      ensures ok == DeliverOneRow(old(db), delivery, row).Some?
      ensures db == if ok then DeliverOneRow(old(db), delivery, row).value else old(db)
      ensures db.deliveries == old(db).deliveries
    {
      if |db.receiptLines| <= row.receiptLine || row.qty == 0 {
        return false;
      }
      var line := db.receiptLines[row.receiptLine];
      if db.purchases[db.receipts[line.receipt].purchase].request != db.deliveries[delivery].request {
        return false;
      }
      if line.qty < Total(Reservations(db.deliveryLines), row.receiptLine) + row.qty {
        return false;
      }
      db := db.(deliveryLines := db.deliveryLines + [DeliveryLine(delivery, row.receiptLine, row.qty)]);
      return true;
    }

    method Dispatch(delivery: nat, waybill: bool, admitted: bool, tick: Tick) returns (ok: bool)
      modifies this
      ensures ok == ProcurementSteps.Dispatch(old(db), delivery, waybill, admitted, tick).Some?
      ensures db == if ok then ProcurementSteps.Dispatch(old(db), delivery, waybill, admitted, tick).value else old(db)
      ensures Kept(old(db), db)
    {
      hide Kept;
      OperationKeeps(db, OpDispatch(delivery, waybill, admitted, tick));
      if |db.deliveries| <= delivery || !Locked(db, db.deliveries[delivery].request, admitted) {
        return false;
      }
      if db.deliveries[delivery].dispatched.Some? || !waybill {
        return false;
      }
      var before, later := db, Later(db, tick);
      var logged := [];
      for i := 0 to |db.deliveryLines|
        invariant db == before && logged == WaybillEvents(before, delivery, i)
      {
        if db.deliveryLines[i].delivery == delivery {
          logged := logged + [WaybilledEvent(db, db.deliveryLines[i])];
        }
      }
      var sent := db.deliveries[delivery].(dispatched := Some(later));
      db := db.(clock := later, deliveries := db.deliveries[delivery := sent], events := db.events + logged);
      return true;
    }

    method RecordOutcome(input: OutcomeInput) returns (ok: bool)
      modifies this
      ensures ok == ProcurementSteps.RecordOutcome(old(db), input).Some?
      ensures db == if ok then ProcurementSteps.RecordOutcome(old(db), input).value else old(db)
      ensures Kept(old(db), db)
    {
      hide Kept, OutcomeRows;
      OperationKeeps(db, OpOutcome(input));
      var saved := db;
      var now, later := Now(db, input.tick), Later(db, input.tick);
      if |db.deliveries| <= input.delivery || !Locked(db, db.deliveries[input.delivery].request, input.admitted) {
        return false;
      }
      var dispatched := db.deliveries[input.delivery].dispatched;
      if dispatched.None? || !NotFuture(input.occurred, now) || GivenOr(input.occurred, now) < dispatched.value {
        return false;
      }
      var outcome := |db.outcomes|;
      db := OpenOutcome(db, Outcome(input.delivery, GivenOr(input.occurred, later)), later);
      ok := AddOutcomeRows(outcome, input.rows, input.signed);
      if !ok {
        db := saved;
      }
    }

    method AddOutcomeRows(outcome: nat, rows: seq<OutcomeRow>, signed: bool) returns (ok: bool)
      requires outcome < |db.outcomes|
      modifies this
      ensures ok == OutcomeRows(old(db), outcome, rows, signed).Some?
      ensures ok ==> db == OutcomeRows(old(db), outcome, rows, signed).value
    {
      hide OutcomeOneRow;
      for i := 0 to |rows|
        invariant outcome < |db.outcomes|
        invariant OutcomeRows(db, outcome, rows[i..], signed) == OutcomeRows(old(db), outcome, rows, signed)
      {
        assert rows[i..][0] == rows[i] && rows[i..][1..] == rows[i + 1..];
        var added := AddOutcomeRow(outcome, rows[i], signed);
        if !added {
          return false;
        }
      }
      return true;
    }

    method AddOutcomeRow(outcome: nat, row: OutcomeRow, signed: bool) returns (ok: bool)
      requires outcome < |db.outcomes|
      modifies this
      ensures ok == OutcomeOneRow(old(db), outcome, row, signed).Some?
      ensures db == if ok then OutcomeOneRow(old(db), outcome, row, signed).value else old(db)
      ensures db.outcomes == old(db).outcomes
    {
      hide Schema;
      if |db.deliveryLines| <= row.deliveryLine || row.accepted + row.rejected == 0 {
        return false;
      }
      var line := db.deliveryLines[row.deliveryLine];
      if line.delivery != db.outcomes[outcome].delivery {
        return false;
      }
      if (row.accepted != 0 && !signed) || (row.rejected != 0 && !row.reason) {
        return false;
      }
      var accepted := Total(Acceptances(db.outcomeLines), row.deliveryLine);
      var rejected := Total(Rejections(db.outcomeLines), row.deliveryLine);
      if line.qty < accepted + rejected + row.accepted + row.rejected {
        return false;
      }
      var attempt := DeliveredFor(db, row.deliveryLine);
      OutcomeEnters(db, outcome, row);
      db := db.(outcomeLines := db.outcomeLines + [OutcomeLine(outcome, row.deliveryLine, row.accepted, row.rejected)],
                events := db.events + OutcomeEvents(db.attempts[attempt].item, attempt, row.accepted, row.rejected));
      return true;
    }

    method ResolveRejection(input: ActionInput) returns (ok: bool)
      modifies this
      ensures ok == ProcurementSteps.ResolveRejection(old(db), input).Some?
      ensures db == if ok then ProcurementSteps.ResolveRejection(old(db), input).value else old(db)
      ensures Kept(old(db), db)
    {
      hide Kept;
      OperationKeeps(db, OpResolve(input));
      if |db.outcomeLines| <= input.rejection || input.qty == 0 {
        return false;
      }
      var request := db.items[db.attempts[AttemptOf(db, input.rejection)].item].request;
      if !Locked(db, request, input.admitted) || !Resolvable(db, input.rejection, input.kind, input.qty) {
        return false;
      }
      if input.kind == Refund {
        if !input.refundEvidenced { return false; }
      } else if input.refundFields {
        return false;
      }
      db := At(db, Later(db, input.tick));
      if input.kind == Replace || input.kind == Source {
        db := InsertReplacement(db, input.rejection, input.qty, input.kind);
      } else {
        db := InsertAction(db, input.rejection, input.qty, input.kind);
      }
      return true;
    }
  }
}
