/** Operations of one row: the header is opened and the row is all there is to check. */
module SingleRows {
  import opened Options
  import opened ProcurementTables
  import opened ProcurementSteps

  /** A call whose clock readings all coincide with the latest one before it. */
  const AT_ONCE := Tick(0, 0)

  lemma {:induction false} Applied(before: Store, op: Op, db: Store)
    requires Attempted(before, op) == Some(db)
    ensures Apply(before, op) == db
  {
  }

  /** An order of one row is that row added to the new order. */
  lemma {:induction false} OrderOfOne(before: Store, input: OrderInput, row: OrderRow, begun: Store, db: Store)
    requires input.rows == [row] && Locked(before, input.request, input.admitted)
    requires input.verbal && input.evidence && input.received.None?
    requires begun == OpenOrder(before, Order(input.request, Later(before, input.tick)), Later(before, input.tick))
    requires OrderOneRow(begun, |before.orders|, row, Now(before, input.tick)) == Some(db)
    ensures Attempted(before, OpOrder(input)) == Some(db)
  {
    hide OrderOneRow, Schema;
    assert input.rows[1..] == [];
    assert OrderRows(begun, |before.orders|, input.rows, Now(before, input.tick)) == Some(db);
  }

  lemma {:induction false} PurchaseOfOne(before: Store, input: PurchaseInput, row: PurchaseRow, begun: Store, db: Store)
    requires input.rows == [row] && Locked(before, input.request, input.admitted)
    requires begun == OpenPurchase(before, Purchase(input.request, input.supplier, input.currency),
        Later(before, input.tick))
    requires PurchaseOneRow(begun, |before.purchases|, row, Now(before, input.tick)) == Some(db)
    ensures Attempted(before, OpPurchase(input)) == Some(db)
  {
    hide PurchaseOneRow, Schema;
    assert input.rows[1..] == [];
    assert PurchaseRows(begun, |before.purchases|, input.rows, Now(before, input.tick)) == Some(db);
  }

  lemma {:induction false} ReceiptOfOne(before: Store, input: ReceiptInput, row: ReceiptRow, begun: Store, db: Store)
    requires input.rows == [row] && input.purchase < |before.purchases| && input.received.None?
    requires Locked(before, before.purchases[input.purchase].request, input.admitted)
    requires begun == OpenReceipt(before, Receipt(input.purchase, Later(before, input.tick)), Later(before, input.tick))
    requires ReceiveOneRow(begun, |before.receipts|, row) == Some(db)
    ensures Attempted(before, OpReceipt(input)) == Some(db)
  {
    hide ReceiveOneRow, Schema;
    assert input.rows[1..] == [];
    assert ReceiveRows(begun, |before.receipts|, input.rows) == Some(db);
  }

  lemma {:induction false} DeliveryOfOne(before: Store, input: DeliveryInput, row: DeliveryRow, begun: Store, db: Store)
    requires input.rows == [row] && Locked(before, input.request, input.admitted)
    requires begun == OpenDelivery(before, input.request, Later(before, input.tick))
    requires DeliverOneRow(begun, |before.deliveries|, row) == Some(db)
    ensures Attempted(before, OpDelivery(input)) == Some(db)
  {
    hide DeliverOneRow, Schema;
    assert input.rows[1..] == [];
    assert DeliverRows(begun, |before.deliveries|, input.rows) == Some(db);
  }

  lemma {:induction false} OutcomeOfOne(before: Store, input: OutcomeInput, row: OutcomeRow, begun: Store, db: Store)
    requires input.rows == [row] && input.delivery < |before.deliveries| && input.occurred.None?
    requires Locked(before, before.deliveries[input.delivery].request, input.admitted)
    requires before.deliveries[input.delivery].dispatched.Some?
    requires before.deliveries[input.delivery].dispatched.value <= Now(before, input.tick)
    requires begun == OpenOutcome(before, Outcome(input.delivery, Later(before, input.tick)), Later(before, input.tick))
    requires OutcomeOneRow(begun, |before.outcomes|, row, input.signed) == Some(db)
    ensures Attempted(before, OpOutcome(input)) == Some(db)
  {
    hide OutcomeOneRow, Schema;
    assert input.rows[1..] == [];
    assert OutcomeRows(begun, |before.outcomes|, input.rows, input.signed) == Some(db);
  }

  /** Closing some of a rejection, or sourcing it anew, when its quantities allow it. */
  lemma {:induction false} ResolvedAtOnce(before: Store, input: ActionInput)
    requires input.rejection < |before.outcomeLines| && 0 < input.qty && !input.refundFields && input.tick == AT_ONCE
    requires Locked(before, before.items[before.attempts[AttemptOf(before, input.rejection)].item].request, true)
    requires input.admitted && input.kind in {Close, Source}
    requires Resolvable(before, input.rejection, input.kind, input.qty)
    ensures var timed := At(before, before.clock);
            Attempted(before, OpResolve(input)) == Some(
              if input.kind == Source then InsertReplacement(timed, input.rejection, input.qty, Source)
              else InsertAction(timed, input.rejection, input.qty, Close))
  {
    hide Resolvable, InsertAction, InsertReplacement, Schema;
  }
}
