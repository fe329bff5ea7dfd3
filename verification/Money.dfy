/**
 Decimal amounts of the order engine.

 Prices, promo values and stored amounts are whole cents. A discount is computed exactly, in
 millionths of a currency unit ("micros"), and only becomes cents when a row is stored.
 */
module Money {
  const MICROS_PER_CENT := 10_000

  // NUMERIC(12, 2) holds ten digits before the point: its absolute value in cents is below this.
  const NUMERIC_LIMIT := 1_000_000_000_000

  // The 70% cap on percentage discounts, in hundredths of a percent.
  const MAX_PERCENT := 7_000

  datatype DiscountType = PERCENTAGE | FIXED_AMOUNT

  // PostgreSQL stores a numeric into NUMERIC(12, 2) by rounding to the nearest cent, ties away from zero.
  function RoundToCents(micros: int): int {
    if micros >= 0 then (micros + 5_000) / MICROS_PER_CENT else -((-micros + 5_000) / MICROS_PER_CENT)
  }

  // The exact discount in micros on a total in cents. A percentage value is in hundredths of a
  // percent, a fixed value in cents.
  function CalcDiscount(total: int, kind: DiscountType, value: int): int {
    match kind
    case PERCENTAGE =>
      var d := total * value;
      var maxDiscount := total * MAX_PERCENT;
      if d > maxDiscount then maxDiscount else d
    case FIXED_AMOUNT =>
      if value > total then total * MICROS_PER_CENT else value * MICROS_PER_CENT
  }

  // What rounding to the nearest cent with ties away from zero means, without computing it.
  ghost predicate IsNearestCent(micros: int, cents: int) {
    var distance := Abs(micros - cents * MICROS_PER_CENT);
    && 2 * distance <= MICROS_PER_CENT
    && (2 * distance == MICROS_PER_CENT ==> Abs(cents * MICROS_PER_CENT) > Abs(micros))
  }

  function Abs(x: int): int {
    if x < 0 then -x else x
  }

  lemma RoundToCentsIsNearest(micros: int, cents: int)
    ensures IsNearestCent(micros, cents) <==> cents == RoundToCents(micros)
  {
  }

  lemma MulMonotone(a: int, b: int, c: int)
    requires a <= b && 0 <= c
    ensures a * c <= b * c
  {
  }

  // Bounds on the exact discount, for every positive value, percentages above 100 included.
  lemma DiscountBounds(total: int, kind: DiscountType, value: int)
    requires total >= 0 && value > 0
    ensures 0 <= CalcDiscount(total, kind, value) <= total * MICROS_PER_CENT
    ensures kind == PERCENTAGE ==> 10 * CalcDiscount(total, kind, value) <= 7 * (total * MICROS_PER_CENT)
  {
    MulMonotone(0, value, total);
  }

  // Any percentage beyond the cap gives the same discount as 70%.
  lemma CapActsAsSeventyPercent(total: int, value: int)
    requires total >= 0 && value >= MAX_PERCENT
    ensures CalcDiscount(total, PERCENTAGE, value) == CalcDiscount(total, PERCENTAGE, MAX_PERCENT)
  {
    MulMonotone(MAX_PERCENT, value, total);
  }

  // Below the cap a percentage discount is the exact linear share of the total.
  lemma PercentageIsLinear(total: int, value: int)
    requires total >= 0 && value > 0
    ensures CalcDiscount(total, PERCENTAGE, value) == total * (if value < 7_000 then value else 7_000)
  {
    if value < MAX_PERCENT {
      MulMonotone(value, MAX_PERCENT, total);
    } else {
      MulMonotone(MAX_PERCENT, value, total);
    }
  }

  // Spending more never lowers the discount nor the price to pay, before and after rounding.
  lemma DiscountAndNetAreMonotone(small: int, large: int, kind: DiscountType, value: int)
    requires 0 <= small <= large && value > 0
    ensures CalcDiscount(small, kind, value) <= CalcDiscount(large, kind, value)
    ensures small * MICROS_PER_CENT - CalcDiscount(small, kind, value)
         <= large * MICROS_PER_CENT - CalcDiscount(large, kind, value)
    ensures StoredDiscount(small, kind, value) <= StoredDiscount(large, kind, value)
    ensures StoredNet(small, kind, value) <= StoredNet(large, kind, value)
  {
    if kind == PERCENTAGE {
      var rate := if value < MAX_PERCENT then value else MAX_PERCENT;
      PercentageIsLinear(small, value);
      PercentageIsLinear(large, value);
      MulMonotone(small, large, rate);
      MulMonotone(small, large, MICROS_PER_CENT - rate);
    }
  }

  function StoredDiscount(total: int, kind: DiscountType, value: int): int {
    RoundToCents(CalcDiscount(total, kind, value))
  }

  function StoredNet(total: int, kind: DiscountType, value: int): int {
    RoundToCents(total * MICROS_PER_CENT - CalcDiscount(total, kind, value))
  }

  ghost predicate EndsOnHalfCent(micros: int) {
    micros % MICROS_PER_CENT == MICROS_PER_CENT / 2
  }

  // The two stored columns are rounded independently: together they give the basket total, except
  // that a discount ending on exactly half a cent makes both round up.
  lemma StoredPartsAddUp(total: int, discount: int)
    requires 0 <= discount <= total * MICROS_PER_CENT
    ensures RoundToCents(total * MICROS_PER_CENT - discount) + RoundToCents(discount)
         == total + (if EndsOnHalfCent(discount) then 1 else 0)
    ensures 0 <= RoundToCents(discount) <= total
    ensures 0 <= RoundToCents(total * MICROS_PER_CENT - discount) <= total
  {
  }

  // A percentage takes the nearest cent to its exact share, and leaves the nearest cent to the rest.
  lemma PercentageAmounts(total: int, value: int)
    requires total >= 0 && value > 0
    ensures var rate := if value < 7_000 then value else 7_000;
            && IsNearestCent(total * rate, StoredDiscount(total, PERCENTAGE, value))
            && IsNearestCent(total * (10_000 - rate), StoredNet(total, PERCENTAGE, value))
  {
    var rate := if value < 7_000 then value else 7_000;
    PercentageIsLinear(total, value);
    ShareAndRest(total, rate);
    RoundToCentsIsNearest(total * rate, StoredDiscount(total, PERCENTAGE, value));
    RoundToCentsIsNearest(total * (10_000 - rate), StoredNet(total, PERCENTAGE, value));
  }

  lemma ShareAndRest(total: int, rate: int)
    ensures total * (10_000 - rate) == total * 10_000 - total * rate
  {
  }

  // A fixed amount is taken off as it is, down to nothing left to pay.
  lemma FixedAmounts(total: int, value: int)
    requires total >= 0 && value > 0
    ensures value <= total ==>
              && CalcDiscount(total, FIXED_AMOUNT, value) == value * 10_000
              && StoredDiscount(total, FIXED_AMOUNT, value) == value
              && StoredNet(total, FIXED_AMOUNT, value) == total - value
    ensures value > total ==>
              && CalcDiscount(total, FIXED_AMOUNT, value) == total * 10_000
              && StoredDiscount(total, FIXED_AMOUNT, value) == total
              && StoredNet(total, FIXED_AMOUNT, value) == 0
  {
  }

  // A fixed discount is whole cents, so the extra cent only ever comes from a percentage.
  lemma FixedDiscountIsWholeCents(total: int, value: int)
    ensures !EndsOnHalfCent(CalcDiscount(total, FIXED_AMOUNT, value))
  {
  }
}
