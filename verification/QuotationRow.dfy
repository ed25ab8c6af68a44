/** A quotation row as it is submitted and rewritten in place before it is stored. */
module QuotationRow {
  import opened Options
  import opened Pricing

  /** 7.5 percent. */
  const DEFAULT_TAX_RATE := 7_5000

  /** The row's keys; an absent key is `None`. */
  class Input {
    var quantity: nat
    var unitPrice: nat
    var estimatedUnitCost: Option<nat>
    var discountType: Option<DiscountType>
    var discountValue: Option<nat>
    var taxRate: Option<nat>
    var logistics: nat
    var additionalCharges: nat
    var discount: Option<int>
    var tax: Option<int>

    constructor (row: Row)
      ensures Read() == row && estimatedUnitCost == None && discount == None && tax == None
    {
      quantity, unitPrice, estimatedUnitCost := row.quantity, row.unitPrice, None;
      discountType, discountValue, taxRate := Some(row.discountType), Some(row.discountValue), Some(row.taxRate);
      logistics, additionalCharges, discount, tax := row.logistics, row.additionalCharges, None, None;
    }

    /** The row with the defaults of its absent keys. */
    function Read(): Row
      reads this
    {
      Row(quantity, unitPrice,
          if discountType.Some? then discountType.value else Amount,
          if discountValue.Some? then discountValue.value else 0,
          if taxRate.Some? then taxRate.value else DEFAULT_TAX_RATE,
          logistics, additionalCharges)
    }

    /** Check the discount and write the two stored amounts. A priced row reads as it did before, has all its
        keys, and pricing it again changes nothing. */
    method Price() returns (accepted: bool)
      modifies this
      ensures accepted <==> Amounts(old(Read())).Some?
      ensures accepted ==>
          && Read() == old(Read()) && estimatedUnitCost == None
          && discountType.Some? && discountValue.Some? && taxRate.Some?
          && discount.Some? && tax.Some?
          && Amounts(old(Read())) == Some(PricedLine(Read(), discount.value, tax.value))
      ensures !accepted ==> discount == old(discount) && tax == old(tax)
    {
      hide Kept, RoundHalfUp;
      estimatedUnitCost := None;
      var subtotal := Kept(quantity * unitPrice);
      var value := if discountValue.Some? then discountValue.value else 0;
      discountValue := None;
      var mode := if discountType.Some? then discountType.value else Amount;
      discountType := None;
      if mode == Percent && value > HUNDRED {
        return false;
      }
      // In units of 10^-14, so that dividing the percentage by a hundred changes no digit.
      var kept := if mode == Percent then Kept(subtotal * value) else value * DISCOUNT_SCALE;
      if kept > subtotal * 1_000_000 {
        return false;
      }
      var rate := if taxRate.Some? then taxRate.value else DEFAULT_TAX_RATE;
      var due := Kept(Kept(subtotal * 1_000_000 - kept) * rate);
      var stored, charged := RoundHalfUp(kept, DISCOUNT_SCALE), RoundHalfUp(due, TAX_SCALE);
      if CONTEXT <= stored || CONTEXT <= charged {
        return false;
      }
      discountType, discountValue, taxRate := Some(mode), Some(value), Some(rate);
      discount, tax := Some(stored), Some(charged);
      return true;
    }
  }
}
