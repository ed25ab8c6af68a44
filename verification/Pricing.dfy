/** Quotation line arithmetic and the document total.

    Quantities, prices, percentages and stored amounts are integers in units of 0.0001.  A product
    of two of them is in units of 10^-8, the discount in units of 10^-14 and the tax in units of
    10^-20, so that each is an integer.  The decimal context keeps 28 significant digits of every
    product and difference; the two stored amounts are then rounded to units of 0.0001.
  */
module Pricing {
  import opened Options

  datatype DiscountType = Amount | Percent

  datatype Row = Row(
    quantity: nat, unitPrice: nat, discountType: DiscountType, discountValue: nat,
    taxRate: nat, logistics: nat, additionalCharges: nat)

  datatype PricedLine = PricedLine(row: Row, discount: int, tax: int)

  const UNIT := 1_0000
  const HUNDRED := 100 * UNIT
  /** Decimal(18, 4): the largest magnitude a stored column holds is one unit less than this. */
  const COLUMN_LIMIT := 1_000_000_000_000_000_000
  /** The stored unit, counted in units of 10^-14 and of 10^-20. */
  const DISCOUNT_SCALE := 10_000_000_000
  const TAX_SCALE := 10_000_000_000_000_000

  /** In units of 10^-8. */
  function Subtotal(row: Row): nat {
    row.quantity * row.unitPrice
  }

  /** In units of 10^-14. */
  function ExactDiscount(row: Row): nat {
    match row.discountType
    case Percent => Subtotal(row) * row.discountValue
    case Amount => row.discountValue * DISCOUNT_SCALE
  }

  /** In units of 10^-20. */
  function ExactTax(row: Row): int {
    (Subtotal(row) * 1_000_000 - ExactDiscount(row)) * row.taxRate
  }

  /** `x` counted in multiples of `unit`, ties away from zero. */
  function RoundHalfUp(x: int, unit: int): int
    requires 0 < unit
  {
    if 0 <= x then (2 * x + unit) / (2 * unit) else -((2 * -x + unit) / (2 * unit))
  }

  // ---- the decimal context

  const CONTEXT := 10_000_000_000_000_000_000_000_000_000

  /** The place of the last of 28 significant digits, as a power of ten. */
  function Place(x: nat): (place: nat)
    ensures 0 < place
  {
    if x < CONTEXT then 1 else 10 * Place(x / 10)
  }

  function RoundHalfEven(x: nat, unit: nat): nat
    requires 0 < unit
  {
    var q, r := x / unit, x % unit;
    if 2 * r < unit || (2 * r == unit && q % 2 == 0) then q * unit else (q + 1) * unit
  }

  /** A result as the context keeps it. */
  function Kept(x: nat): nat {
    RoundHalfEven(x, Place(x))
  }

  function KeptSubtotal(row: Row): nat {
    Kept(Subtotal(row))
  }

  function KeptDiscount(row: Row): nat {
    if row.discountType.Percent? then Kept(KeptSubtotal(row) * row.discountValue)
    else row.discountValue * DISCOUNT_SCALE
  }

  function KeptNet(row: Row): nat
    requires KeptDiscount(row) <= KeptSubtotal(row) * 1_000_000
  {
    Kept(KeptSubtotal(row) * 1_000_000 - KeptDiscount(row))
  }

  function KeptTax(row: Row): nat
    requires KeptDiscount(row) <= KeptSubtotal(row) * 1_000_000
  {
    Kept(KeptNet(row) * row.taxRate)
  }

  /** Every product and difference of the line fits the context, so nothing is lost before the stored
      amounts are rounded. */
  predicate Fits(row: Row) {
    && KeptSubtotal(row) == Subtotal(row) && KeptDiscount(row) == ExactDiscount(row)
    && (KeptDiscount(row) <= KeptSubtotal(row) * 1_000_000 ==> KeptTax(row) == ExactTax(row))
  }

  /** The discount and tax of a line, or a refusal. An amount of more than 28 digits cannot be rounded to units
      of 0.0001. */
  function Amounts(row: Row): Option<PricedLine> {
    if row.discountType.Percent? && HUNDRED < row.discountValue then None
    else if KeptSubtotal(row) * 1_000_000 < KeptDiscount(row) then None
    else
      var discount, tax := RoundHalfUp(KeptDiscount(row), DISCOUNT_SCALE), RoundHalfUp(KeptTax(row), TAX_SCALE);
      if CONTEXT <= discount || CONTEXT <= tax then None else Some(PricedLine(row, discount, tax))
  }

  /** The constraints of the stored line. */
  predicate Storable(line: PricedLine) {
    0 < line.row.quantity && line.row.taxRate <= HUNDRED && line.discount < COLUMN_LIMIT && line.tax < COLUMN_LIMIT
  }

  /** The priced line that is stored, or a refusal. */
  function QuotationAmounts(row: Row): Option<PricedLine> {
    var priced := Amounts(row);
    if priced.None? || !Storable(priced.value) then None else priced
  }

  /** The price a line shows, in units of 10^-8. */
  function PricingTotal(line: PricedLine): int {
    Subtotal(line.row) + (line.tax - line.discount + line.row.logistics + line.row.additionalCharges) * UNIT
  }

  /** The price with nothing rounded, in units of 10^-20. */
  function ExactTotal(row: Row): int {
    Subtotal(row) * 1_000_000_000_000 - ExactDiscount(row) * 1_000_000 + ExactTax(row)
    + (row.logistics + row.additionalCharges) * TAX_SCALE
  }

  lemma {:induction false} NearestMultiple(y: int, unit: int)
    requires 0 < unit
    ensures -unit < 2 * ((2 * y + unit) / (2 * unit) * unit - y) <= unit
  {
    var m, r := (2 * y + unit) / (2 * unit), (2 * y + unit) % (2 * unit);
    assert m * (2 * unit) + r == 2 * y + unit;
    assert 2 * (m * unit) == m * (2 * unit);
  }

  lemma {:induction false} RoundHalfUpBound(x: int, unit: int)
    requires 0 < unit
    ensures -unit <= 2 * (RoundHalfUp(x, unit) * unit - x) <= unit
    ensures 0 <= x ==> 2 * (RoundHalfUp(x, unit) * unit - x) > -unit && 0 <= RoundHalfUp(x, unit)
  {
    NearestMultiple(x, unit);
    NearestMultiple(-x, unit);
    assert x < 0 ==> RoundHalfUp(x, unit) * unit == -((2 * -x + unit) / (2 * unit) * unit);
  }

  lemma {:induction false} AmountDiscountIsExact(value: nat)
    ensures RoundHalfUp(value * DISCOUNT_SCALE, DISCOUNT_SCALE) == value
  {
  }

  // ---- what the context loses

  lemma {:induction false} PlaceBound(x: nat)
    ensures x < CONTEXT * Place(x)
    ensures CONTEXT <= x ==> 10 <= Place(x) && CONTEXT * Place(x) <= 10 * x
    ensures Place(x) == 1 || Place(x) % 10 == 0
    decreases x
  {
    if CONTEXT <= x {
      PlaceBound(x / 10);
    }
  }

  lemma {:induction false} HalfEvenBound(x: nat, unit: nat)
    requires 0 < unit
    ensures 0 - unit <= 2 * (RoundHalfEven(x, unit) - x) <= unit
    ensures unit == 1 ==> RoundHalfEven(x, unit) == x
  {
    var q, r := x / unit, x % unit;
    assert q * unit + r == x && (q + 1) * unit == q * unit + unit;
  }

  /** The context is exact up to 28 digits, and otherwise off by at most five parts in 10^28. */
  lemma {:induction false} KeptBound(x: nat)
    ensures x < CONTEXT ==> Kept(x) == x
    ensures -5 * x <= CONTEXT * (Kept(x) - x) <= 5 * x
    ensures Kept(x) < CONTEXT ==> x < CONTEXT
  {
    PlaceBound(x);
    HalfEvenBound(x, Place(x));
    if CONTEXT <= x {
      var place := Place(x);
      assert CONTEXT * (2 * (Kept(x) - x)) <= CONTEXT * place && -(CONTEXT * place) <= CONTEXT * (2 * (Kept(x) - x));
      KeptLarge(x, place);
    }
  }

  lemma {:induction false} DivLower(x: nat, unit: nat, c: nat)
    requires 0 < unit && c * unit <= x
    ensures c <= x / unit
  {
    var q := x / unit;
    assert q < c ==> (q + 1) * unit <= c * unit;
    assert q * unit + x % unit == x && (q + 1) * unit == q * unit + unit;
  }

  const TENTH := 1_000_000_000_000_000_000_000_000_000

  /** A number of more than 28 digits is still one after rounding. */
  lemma {:induction false} KeptLarge(x: nat, unit: nat)
    requires CONTEXT <= x && 10 <= unit && TENTH * unit <= x
    ensures CONTEXT <= RoundHalfEven(x, unit)
  {
    var q := x / unit;
    DivLower(x, unit, TENTH);
    assert TENTH * unit <= q * unit && (q + 1) * unit == q * unit + unit;
  }

  /** 10^-12 of a currency unit, in units of 10^-20. */
  const SLACK := 100_000_000

  lemma {:induction false} ScaleBound(a: int, b: nat, c: nat)
    requires -5 * b <= CONTEXT * a <= 5 * b
    ensures -5 * (b * c) <= CONTEXT * (a * c) <= 5 * (b * c)
  {
    assert (CONTEXT * a) * c == CONTEXT * (a * c) && (5 * b) * c == 5 * (b * c) && (-5 * b) * c == -5 * (b * c);
    assert (CONTEXT * a) * c <= (5 * b) * c && (-5 * b) * c <= (CONTEXT * a) * c;
  }
  /** What is stored small was small before it was rounded. */
  lemma {:induction false} StoredSmall(x: nat, unit: nat)
    requires 0 < unit && RoundHalfUp(x, unit) < COLUMN_LIMIT
    ensures x < COLUMN_LIMIT * unit
  {
    RoundHalfUpBound(x, unit);
    assert RoundHalfUp(x, unit) * unit <= (COLUMN_LIMIT - 1) * unit;
  }

  lemma {:induction false} ProductLoss(exact: nat, v: nat)
    requires Kept(exact) * v < CONTEXT
    ensures -5 <= Kept(exact) * v - exact * v <= 5
  {
    KeptBound(exact);
    ScaleBound(Kept(exact) - exact, exact, v);
    assert (Kept(exact) - exact) * v == Kept(exact) * v - exact * v;
  }

  /** How far the kept discount of a stored line is from the exact one, in units of 10^-14. */
  lemma {:induction false} DiscountLoss(row: Row)
    requires QuotationAmounts(row).Some?
    ensures KeptDiscount(row) < CONTEXT && -5 <= KeptDiscount(row) - ExactDiscount(row) <= 5
    ensures row.discountType.Amount? ==> KeptDiscount(row) == ExactDiscount(row)
  {
    StoredSmall(KeptDiscount(row), DISCOUNT_SCALE);
    if row.discountType.Percent? {
      KeptBound(KeptSubtotal(row) * row.discountValue);
      ProductLoss(Subtotal(row), row.discountValue);
    }
  }

  function Product(x: nat, r: nat): nat { x * r }

  /** What one rounding by the context loses of a product with `r`. */
  lemma {:induction false} ScaledLoss(x: nat, r: nat)
    ensures -5 * Product(x, r) <= CONTEXT * (Product(Kept(x), r) - Product(x, r)) <= 5 * Product(x, r)
  {
    KeptBound(x);
    ScaleBound(Kept(x) - x, x, r);
    assert (Kept(x) - x) * r == Kept(x) * r - x * r;
  }

  lemma {:induction false} Distributes(s: nat, d: nat, r: nat)
    requires d <= s * 1_000_000
    ensures Product(s * 1_000_000 - d, r) == Product(s, 1_000_000 * r) - Product(d, r)
  {
  }

  lemma {:induction false} SmallProduct(x: int, r: nat)
    requires -5 <= x <= 5 && r <= HUNDRED
    ensures -5_000_000 <= x * r <= 5_000_000
  {
    assert -5 * r <= x * r <= 5 * r;
  }

  lemma {:induction false} Bounded(d: nat, r: nat)
    requires d <= CONTEXT && r <= HUNDRED
    ensures Product(d, r) <= CONTEXT * HUNDRED
  {
    assert d * r <= CONTEXT * r;
  }

  /** Three results in a row, each off by at most five parts in 10^28. */
  lemma {:induction false} LossAlong(t: int, nr: int, mr: int, p: int, exactP: int, dr: int)
    requires t < CONTEXT * HUNDRED && 0 <= dr <= CONTEXT * HUNDRED && mr == p - dr
    requires -5 * nr <= CONTEXT * (t - nr) <= 5 * nr
    requires -5 * mr <= CONTEXT * (nr - mr) <= 5 * mr
    requires -5 * exactP <= CONTEXT * (p - exactP) <= 5 * exactP
    ensures -25_000_000 <= t - (exactP - dr) <= 25_000_000
  {
    assert -6_000_000 <= t - nr <= 6_000_000 && -6_000_000 <= nr - mr <= 6_000_000;
    assert -12_000_000 <= p - exactP <= 12_000_000;
  }

  lemma {:induction false} NetTaxLoss(exact: nat, d: nat, r: nat)
    requires d <= Kept(exact) * 1_000_000 && d <= CONTEXT && r <= HUNDRED
    requires Kept(Product(Kept(Kept(exact) * 1_000_000 - d), r)) < CONTEXT * HUNDRED
    ensures var kept := Kept(Product(Kept(Kept(exact) * 1_000_000 - d), r));
            -25_000_000 <= kept - (Product(exact, 1_000_000 * r) - Product(d, r)) <= 25_000_000
  {
    hide Kept, Product;
    var s := Kept(exact);
    var m := s * 1_000_000 - d;
    var n := Kept(m);
    KeptBound(Product(n, r));
    ScaledLoss(m, r);
    ScaledLoss(exact, 1_000_000 * r);
    Distributes(s, d, r);
    Bounded(d, r);
    LossAlong(Kept(Product(n, r)), Product(n, r), Product(m, r), Product(s, 1_000_000 * r),
              Product(exact, 1_000_000 * r), Product(d, r));
  }

  lemma {:induction false} Around(exact: int, lost: int, d: int, r: int)
    ensures (exact * 1_000_000 - lost) * r == exact * (1_000_000 * r) - d * r + (d - lost) * r
  {
  }

  lemma {:induction false} ExactTaxAround(row: Row, d: nat)
    ensures ExactTax(row)
        == Subtotal(row) * (1_000_000 * row.taxRate) - d * row.taxRate + (d - ExactDiscount(row)) * row.taxRate
  {
    hide Subtotal, ExactDiscount;
    Around(Subtotal(row), ExactDiscount(row), d, row.taxRate);
  }

  lemma {:induction false} TaxLoss(row: Row)
    requires QuotationAmounts(row).Some?
    ensures KeptDiscount(row) <= KeptSubtotal(row) * 1_000_000
    ensures -30_000_000 <= KeptTax(row) - ExactTax(row) <= 30_000_000
  {
    DiscountLoss(row);
    StoredSmall(KeptTax(row), TAX_SCALE);
    NetTaxLoss(Subtotal(row), KeptDiscount(row), row.taxRate);
    SmallProduct(KeptDiscount(row) - ExactDiscount(row), row.taxRate);
    ExactTaxAround(row, KeptDiscount(row));
  }

  /** Two amounts, each stored half a unit or less from what the context kept, which is `dLost` and `tLost`
      from the exact values. */
  lemma {:induction false} StoredError(subtotal: int, d: int, t: int, dLost: int, tLost: int, discount: int, tax: int,
      charges: int)
    requires -DISCOUNT_SCALE <= 2 * (discount * DISCOUNT_SCALE - d) <= DISCOUNT_SCALE
    requires -TAX_SCALE <= 2 * (tax * TAX_SCALE - t) <= TAX_SCALE
    ensures var error := (subtotal + (tax - discount + charges) * UNIT) * 1_000_000_000_000
                         - (subtotal * 1_000_000_000_000 - (d - dLost) * 1_000_000 + (t - tLost) + charges * TAX_SCALE);
            && -TAX_SCALE <= error - tLost + dLost * 1_000_000 <= TAX_SCALE
            && (d == discount * DISCOUNT_SCALE ==> -TAX_SCALE <= 2 * (error - tLost + dLost * 1_000_000) <= TAX_SCALE)
  {
  }

  lemma {:induction false} DiscountWithin(row: Row)
    requires QuotationAmounts(row).Some?
    ensures var discount := QuotationAmounts(row).value.discount;
            0 <= discount && 2 * discount * UNIT <= 2 * Subtotal(row) + UNIT
  {
    DiscountLoss(row);
    KeptBound(Subtotal(row));
    RoundHalfUpBound(KeptDiscount(row), DISCOUNT_SCALE);
  }

  /** What a stored total may be off by, in units of 10^-20, the rounding of the context included. */
  function Error(line: PricedLine): int {
    PricingTotal(line) * 1_000_000_000_000 - ExactTotal(line.row)
  }

  /** The stored total of a priced line is within 0.0001 of the exact one, and within 0.00005 when the
      discount was given as an amount: exactly so when the line fits the context, and otherwise up to another
      10^-12 of a currency unit. Stored discount and tax are not negative, and the discount exceeds the
      subtotal by at most 0.00005. */
  lemma {:induction false} RoundingBound(row: Row)
    requires QuotationAmounts(row).Some?
    ensures var line := QuotationAmounts(row).value;
            var slack := if Fits(row) then 0 else SLACK;
            && line.row == row
            && 0 <= line.discount && 0 <= line.tax
            && 2 * line.discount * UNIT <= 2 * Subtotal(row) + UNIT
            && -TAX_SCALE - slack <= Error(line) <= TAX_SCALE + slack
            && (row.discountType.Amount? ==>
                  line.discount == row.discountValue
                      && -TAX_SCALE - 2 * slack <= 2 * Error(line) <= TAX_SCALE + 2 * slack)
  {
    var line := QuotationAmounts(row).value;
    DiscountWithin(row);
    DiscountLoss(row);
    TaxLoss(row);
    var d, t := KeptDiscount(row), KeptTax(row);
    RoundHalfUpBound(d, DISCOUNT_SCALE);
    RoundHalfUpBound(t, TAX_SCALE);
    if row.discountType.Amount? {
      AmountDiscountIsExact(row.discountValue);
    }
    StoredError(Subtotal(row), d, t, d - ExactDiscount(row), t - ExactTax(row), line.discount, line.tax,
                row.logistics + row.additionalCharges);
  }

  function SumPricing(lines: seq<PricedLine>): int {
    if lines == [] then 0 else SumPricing(lines[..|lines| - 1]) + PricingTotal(lines[|lines| - 1])
  }

  function SumExact(lines: seq<PricedLine>): int {
    if lines == [] then 0 else SumExact(lines[..|lines| - 1]) + ExactTotal(lines[|lines| - 1].row)
  }

  /** The total a rendered quotation prints: five running sums, combined once at the end. */
  method RenderTotal(lines: seq<PricedLine>) returns (total: int)
    ensures total == SumPricing(lines)
  {
    var subtotal, discount, tax, logistics, charges := 0, 0, 0, 0, 0;
    for index := 0 to |lines|
      invariant subtotal + (tax - discount + logistics + charges) * UNIT == SumPricing(lines[..index])
    {
      var line := lines[index];
      subtotal := subtotal + Subtotal(line.row);
      discount := discount + line.discount;
      tax := tax + line.tax;
      logistics := logistics + line.row.logistics;
      charges := charges + line.row.additionalCharges;
      assert lines[..index + 1][..index] == lines[..index];
    }
    assert lines[..|lines|] == lines;
    total := subtotal - discount * UNIT + tax * UNIT + logistics * UNIT + charges * UNIT;
  }

  /** A printed total of n priced lines is within n times 0.0001 of the exact total, and another n times 10^-12
      of a currency unit when some line does not fit the context. */
  lemma {:induction false} DocumentTotalBound(lines: seq<PricedLine>)
    requires forall i | 0 <= i < |lines| :: QuotationAmounts(lines[i].row) == Some(lines[i])
    ensures var error := SumPricing(lines) * 1_000_000_000_000 - SumExact(lines);
            var slack := if forall i | 0 <= i < |lines| :: Fits(lines[i].row) then 0 else SLACK;
            -(TAX_SCALE + slack) * |lines| <= error <= (TAX_SCALE + slack) * |lines|
  {
    if lines != [] {
      var k := |lines| - 1;
      DocumentTotalBound(lines[..k]);
      RoundingBound(lines[k].row);
      assert (forall i | 0 <= i < |lines| :: Fits(lines[i].row)) ==> forall i | 0 <= i < k :: Fits(lines[..k][i].row);
      assert (forall i | 0 <= i < |lines| :: Fits(lines[i].row)) ==> Fits(lines[k].row);
    }
  }
}
