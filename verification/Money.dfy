/**
 Decimal money arithmetic: the percentage discount and the invoice tax, computed through decimal
 operations that round to 28 significant digits, and the single half-up rounding they amount to.
 */
module Money {
  import opened Schema

  /** A non-negative decimal: coefficient * 10^exponent. */
  datatype Decimal = Decimal(coefficient: nat, exponent: int)

  const PRECISION: nat := 28

  /** Hundredths of a percent in a whole: the 100.00 that the percentage formula divides by, squared. */
  const WHOLE: nat := 10_000

  function Pow10(n: nat): (p: nat)
    ensures p >= 1
  {
    if n == 0 then 1 else 10 * Pow10(n - 1)
  }

  /** n / d rounded to the nearest integer, ties up. */
  function HalfUp(n: nat, d: nat): (r: nat)
    requires d > 0
    ensures 2 * r * d <= 2 * n + d < 2 * r * d + 2 * d
  {
    var r := (2 * n + d) / (2 * d);
    assert 2 * n + d == r * (2 * d) + (2 * n + d) % (2 * d);
    r
  }

  /** n / d rounded to the nearest integer, ties to even: the rounding of the decimal context. */
  function HalfEven(n: nat, d: nat): nat
    requires d > 0
  {
    var q, rest := n / d, n % d;
    if 2 * rest < d || (2 * rest == d && q % 2 == 0) then q else q + 1
  }

  /** The number of digits of c beyond the context precision. */
  function Excess(c: nat): nat
  {
    if c < Pow10(PRECISION) then 0 else 1 + Excess(c / 10)
  }

  /** A result of the decimal context: exact when it has at most 28 digits. */
  function Fit(c: nat, e: int): Decimal
  {
    var k := Excess(c);
    if k == 0 then Decimal(c, e) else Decimal(HalfEven(c, Pow10(k)), e + k)
  }

  function Multiply(a: Decimal, b: Decimal): Decimal
  {
    Fit(a.coefficient * b.coefficient, a.exponent + b.exponent)
  }

  function DivideBy100(a: Decimal): Decimal
  {
    Fit(a.coefficient, a.exponent - 2)
  }

  /** quantize to 0.01 with ROUND_HALF_UP: the result in cents. */
  function QuantizeCents(a: Decimal): nat
  {
    if a.exponent >= -2 then a.coefficient * Pow10(a.exponent + 2)
    else HalfUp(a.coefficient, Pow10(-2 - a.exponent))
  }

  /** An amount of `cents`, or a rate with two decimals. */
  function TwoPlaces(cents: nat): Decimal
  {
    Decimal(cents, -2)
  }

  /** The discount of a percentage coupon of `rate` hundredths of a percent on `total` cents. */
  function PercentageDiscount(total: nat, rate: nat): nat
  {
    QuantizeCents(DivideBy100(Multiply(TwoPlaces(total), TwoPlaces(rate))))
  }

  /** The flat 15% tax on `total` cents. */
  function Tax(total: nat): nat
  {
    QuantizeCents(Multiply(TwoPlaces(total), TwoPlaces(15)))
  }

  // ------------------------------------------------------------ lemmas

  lemma Powers()
    ensures Pow10(2) == 100 && Pow10(4) == 10_000
    ensures Pow10(PRECISION) == 10_000_000_000_000_000_000_000_000_000
  {
    assert Pow10(8) == 100_000_000 by { assert Pow10(4) == 10_000; }
    assert Pow10(16) == 10_000_000_000_000_000 by { assert Pow10(12) == 1_000_000_000_000; }
    assert Pow10(24) == 1_000_000_000_000_000_000_000_000 by { assert Pow10(20) == 100_000_000_000_000_000_000; }
  }

  /**
   On any amount and rate that fit their columns, the product has at most 28 digits: the only
   rounding of the percentage formula is its final half-up rounding to cents.
   */
  lemma PercentageRoundsOnce(total: nat, rate: nat)
    requires total < MONEY_BOUND && rate <= 1_000_000_000_000
    ensures PercentageDiscount(total, rate) == HalfUp(total * rate, WHOLE)
  {
    Powers();
    Products(total, rate, MONEY_BOUND, 1_000_000_000_000);
  }

  lemma TaxRoundsOnce(total: nat)
    requires total < MONEY_BOUND
    ensures Tax(total) == HalfUp(15 * total, 100)
  {
    Powers();
  }

  lemma Scale(a: nat, b: nat, d: nat)
    requires a <= b
    ensures a * d <= b * d
  {
  }

  lemma HalfUpUnique(n: nat, d: nat, r: nat)
    requires d > 0 && 2 * r * d <= 2 * n + d < 2 * r * d + 2 * d
    ensures r == HalfUp(n, d)
  {
    var q := HalfUp(n, d);
    if r < q {
      Scale(r + 1, q, d);
    } else if q < r {
      Scale(q + 1, r, d);
    }
  }

  lemma HalfUpMonotone(n: nat, m: nat, d: nat)
    requires d > 0 && n <= m
    ensures HalfUp(n, d) <= HalfUp(m, d)
  {
    var a, b := HalfUp(n, d), HalfUp(m, d);
    if b < a {
      Scale(b + 1, a, d);
    }
  }

  /** The half-up hundredth-of-a-percent share p / WHOLE of at most `total`, and its growth with p. */
  lemma ShareBounds(total: nat, p: nat, p': nat)
    requires p <= p' && p <= WHOLE * total
    ensures var d := HalfUp(p, WHOLE);
            && d <= total
            && 2 * WHOLE * d <= 2 * p + WHOLE
            && 2 * p < 2 * WHOLE * d + WHOLE
            && d <= HalfUp(p', WHOLE)
  {
    HalfUpMonotone(p, p', WHOLE);
  }

  /**
   A percentage discount is the half-up cent value: within half a cent of the exact amount, a tie
   going up, never more than the total, and growing with both the total and the rate.
   */
  lemma PercentageDiscountBounds(total: nat, rate: nat, total': nat, rate': nat)
    requires total <= total' < MONEY_BOUND && rate <= rate' <= WHOLE
    ensures var d := PercentageDiscount(total, rate);
            && d <= total
            && 2 * WHOLE * d <= 2 * (total * rate) + WHOLE
            && 2 * (total * rate) < 2 * WHOLE * d + WHOLE
            && d <= PercentageDiscount(total', rate')
  {
    var p, p' := total * rate, total' * rate';
    assert PercentageDiscount(total, rate) == HalfUp(p, WHOLE) by { PercentageRoundsOnce(total, rate); }
    assert PercentageDiscount(total', rate') == HalfUp(p', WHOLE) by { PercentageRoundsOnce(total', rate'); }
    assert p <= WHOLE * total by { Scale(rate, WHOLE, total); }
    assert p <= p' by { Products(total, rate, total', rate'); }
    ShareBounds(total, p, p');
  }

  lemma Products(a: nat, b: nat, c: nat, d: nat)
    requires a <= c && b <= d
    ensures a * b <= c * d
  {
    Scale(a, c, b);
    Scale(b, d, c);
  }

  /** The tax is 15% to within half a cent, a tie going up, and grows with the total. */
  lemma TaxBounds(total: nat, total': nat)
    requires total <= total' < MONEY_BOUND
    ensures var t := Tax(total);
            && t <= total
            && 200 * t <= 30 * total + 100
            && 30 * total < 200 * t + 100
            && t <= Tax(total')
  {
    TaxRoundsOnce(total);
    TaxRoundsOnce(total');
    HalfUpMonotone(15 * total, 15 * total', 100);
  }

  /** Beyond the digits the columns allow, the context rounds first and the cent value can be wrong. */
  lemma SecondRoundingBeyondTheColumns()
    ensures exists total: nat, rate: nat ::
              rate <= WHOLE && PercentageDiscount(total, rate) != HalfUp(total * rate, WHOLE)
  {
    Powers();
    var total := 10_000_000_000_000_000_000_000_004_995;
    assert Excess(total) == 1 by { assert Excess(total / 10) == 0; }
    assert Pow10(1) == 10 && Pow10(3) == 1000;
    assert Multiply(TwoPlaces(total), TwoPlaces(1)) == Decimal(1_000_000_000_000_000_000_000_000_500, -3);
    assert PercentageDiscount(total, 1) == HalfUp(1_000_000_000_000_000_000_000_000_500, 1000);
    assert PercentageDiscount(total, 1) != HalfUp(total * 1, WHOLE);
  }
}
