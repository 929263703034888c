/** What a NUMERIC(10, 2) column keeps of an amount. */
module Amounts {
  import opened Prelude
  import opened Decimal

  // ---------------------------------------------------------------- rounding

  /** The value in hundredths as a NUMERIC(10, 2) column keeps it: rounded to the nearest,
      halves away from zero. */
  function Hundredths(r: Reading): int {
    if r.decimals <= 2 then r.coefficient * Pow10(2 - r.decimals)
    else Signed(r.coefficient < 0, RoundedQuotient(Abs(r.coefficient), Pow10(r.decimals - 2)))
  }

  function RoundedQuotient(n: nat, unit: nat): nat
    requires unit > 0
  {
    (2 * n + unit) / (2 * unit)
  }

  /** `h` units are nearest to `a`, of two equally near ones the one farther from zero. */
  predicate Nearest(h: int, unit: nat, a: int) {
    var off := Abs(h * unit - a);
    2 * off < unit || (2 * off == unit && Abs(h * unit) > Abs(a))
  }

  /** `h` hundredths are the value of `r` rounded, over the common denominator. */
  predicate NearestHundredth(h: int, r: Reading) { Nearest(h, Pow10(r.decimals), 100 * r.coefficient) }

  // ---------------------------------------------------------------- nearest

  lemma NearestIsOne(h: int, k: int, unit: nat, a: int)
    requires unit > 0 && Nearest(h, unit, a) && Nearest(k, unit, a)
    ensures h == k
  {
    assert h * unit - k * unit == (h - k) * unit;
    if h > k {
      MulMonotone(1, h - k, unit);
      if h - k > 1 {
        MulMonotone(2, h - k, unit);
      }
    } else if k > h {
      MulMonotone(1, k - h, unit);
      assert k * unit - h * unit == (k - h) * unit;
      if k - h > 1 {
        MulMonotone(2, k - h, unit);
      }
    }
  }

  lemma QuotientIsNearest(n: nat, unit: nat)
    requires unit > 0
    ensures Nearest(RoundedQuotient(n, unit), unit, n)
  {
    var q := RoundedQuotient(n, unit);
    assert 2 * n + unit == (2 * unit) * q + (2 * n + unit) % (2 * unit);
    assert (2 * unit) * q == 2 * (q * unit);
  }

  lemma NearestNegated(h: int, unit: nat, a: int)
    requires Nearest(h, unit, a)
    ensures Nearest(-h, unit, -a)
  {
    assert (-h) * unit == -(h * unit);
  }

  lemma NearestScaled(h: int, unit: nat, a: int, k: nat)
    requires k > 0 && Nearest(h, unit, a)
    ensures Nearest(h, k * unit, k * a)
  {
    TimesLeft(k, h, unit);
    AbsScaled(k, h * unit - a);
    AbsScaled(k, h * unit);
    AbsScaled(k, a);
    hide Abs;
    assert k * (h * unit) - k * a == k * (h * unit - a);
    ScaledLess(k, 2 * Abs(h * unit - a), unit);
    ScaledLess(k, Abs(a), Abs(h * unit));
    assert k * (2 * Abs(h * unit - a)) == 2 * (k * Abs(h * unit - a));
  }

  lemma TimesLeft(k: int, h: int, unit: int)
    ensures h * (k * unit) == k * (h * unit)
  {
  }

  lemma AbsScaled(k: nat, a: int)
    ensures Abs(k * a) == k * Abs(a)
  {
    if a < 0 {
      assert k * a == -(k * -a);
    }
  }

  lemma ScaledLess(k: nat, a: nat, b: nat)
    requires k > 0
    ensures (k * a < k * b <==> a < b) && (a == b ==> k * a == k * b)
  {
    if a < b {
      assert k * b == k * a + k * (b - a);
    } else {
      assert k * a == k * b + k * (a - b);
    }
  }

  /** The stored hundredths are the one nearest to the value. */
  lemma HundredthsAreNearest(h: int, r: Reading)
    ensures h == Hundredths(r) <==> NearestHundredth(h, r)
  {
    HundredthsNear(r);
    if NearestHundredth(h, r) {
      NearestIsOne(h, Hundredths(r), Pow10(r.decimals), 100 * r.coefficient);
    }
  }

  lemma HundredthsNear(r: Reading)
    ensures NearestHundredth(Hundredths(r), r)
  {
    assert Pow10(1) == 10 * Pow10(0) && Pow10(2) == 10 * Pow10(1);
    if r.decimals <= 2 {
      PowAdd(2 - r.decimals, r.decimals);
      var p, q := Pow10(2 - r.decimals), Pow10(r.decimals);
      assert (r.coefficient * p) * q == r.coefficient * (p * q);
    } else {
      var unit := Pow10(r.decimals - 2);
      PowAdd(2, r.decimals - 2);
      QuotientIsNearest(Abs(r.coefficient), unit);
      if r.coefficient < 0 {
        NearestNegated(RoundedQuotient(Abs(r.coefficient), unit), unit, Abs(r.coefficient));
      }
      NearestScaled(Hundredths(r), unit, r.coefficient, 100);
    }
  }

  /** The rounding loses nothing exactly when the value is a whole number of hundredths. */
  lemma HundredthsExactIff(r: Reading)
    ensures Hundredths(r) * Pow10(r.decimals) == 100 * r.coefficient <==> 100 * r.coefficient % Pow10(r.decimals) == 0
  {
    HundredthsNear(r);
    NearestExactIff(Hundredths(r), Pow10(r.decimals), 100 * r.coefficient);
  }

  lemma NearestExactIff(h: int, unit: nat, a: int)
    requires unit > 0 && Nearest(h, unit, a)
    ensures h * unit == a <==> a % unit == 0
  {
    if a % unit == 0 {
      WholeQuotient(a, unit);
      assert Nearest(a / unit, unit, a);
      hide Nearest;
      NearestIsOne(h, a / unit, unit, a);
    } else if h * unit == a {
      hide Nearest;
      ModOfProduct(h, unit);
    }
  }

  lemma WholeQuotient(a: int, unit: nat)
    requires unit > 0 && a % unit == 0
    ensures a / unit * unit == a
  {
  }

  lemma ModOfProduct(h: int, unit: nat)
    requires unit > 0
    ensures (h * unit) % unit == 0
  {
    var q, m := (h * unit) / unit, (h * unit) % unit;
    assert h * unit == unit * q + m;
    assert m == (h - q) * unit && (q - h) * unit == -m;
    if h > q {
      MulMonotone(1, h - q, unit);
    } else if h < q {
      MulMonotone(1, q - h, unit);
    }
  }

  // ---------------------------------------------------------------- the column

  /** Ten digits, two of them decimals. */
  const HUNDREDTHS_LIMIT := 10_000_000_000

  datatype ColumnError = NotNull | OutOfRange | CheckViolation

  /** NUMERIC(10, 2) NOT NULL CHECK (amount > 0), in which NaN counts as greater than any
      number; what is stored reads back with two decimals. */
  function AmountColumn(v: Numeric): Result<Numeric, ColumnError> {
    if !v.valid then Err(NotNull)
    else if v.nan then Ok(Numeric(None, 0, true, Finite, true))
    else if !v.IsFinite() then Err(OutOfRange)
    else
      var h := Hundredths(Exact(v));
      if Abs(h) >= HUNDREDTHS_LIMIT then Err(OutOfRange)
      else if h <= 0 then Err(CheckViolation)
      else Ok(InHundredths(h))
  }

  function InHundredths(h: int): Numeric { Numeric(Some(h), -2, false, Finite, true) }

  /** A value is stored as at least 0.01 and less than 10^8 exactly when it is at least
      0.005 and less than 10^8 - 0.005. */
  lemma FitsIff(r: Reading)
    ensures 1 <= Hundredths(r) <==> Pow10(r.decimals) <= 200 * r.coefficient
    ensures Hundredths(r) < HUNDREDTHS_LIMIT
       <==> 200 * r.coefficient < (2 * HUNDREDTHS_LIMIT - 1) * Pow10(r.decimals)
  {
    HundredthsNear(r);
    var h, unit := Hundredths(r), Pow10(r.decimals);
    AtLeastIff(h, unit, 100 * r.coefficient, 1);
    AtLeastIff(h, unit, 100 * r.coefficient, HUNDREDTHS_LIMIT);
  }

  lemma AtLeastIff(h: int, unit: nat, a: int, n: nat)
    requires unit > 0 && n > 0 && Nearest(h, unit, a)
    ensures n <= h <==> (2 * n - 1) * unit <= 2 * a
  {
    assert (2 * n - 1) * unit == 2 * (n * unit) - unit;
    if n <= h {
      MulMonotone(n, h, unit);
    } else {
      assert n * unit == h * unit + (n - h) * unit;
      MulMonotone(1, n - h, unit);
    }
  }

  /** The column takes a finite amount exactly when it is at least 0.005 and less than
      10^8 - 0.005, and keeps the nearest hundredth, which prints with two decimals. */
  lemma ColumnTakesIff(v: Numeric)
    requires v.IsFinite()
    ensures AmountColumn(v).Ok? <==>
      && Pow10(Exact(v).decimals) <= 200 * Exact(v).coefficient
      && 200 * Exact(v).coefficient < (2 * HUNDREDTHS_LIMIT - 1) * Pow10(Exact(v).decimals)
    ensures AmountColumn(v).Ok? ==>
      var stored := AmountColumn(v).value;
      && stored.IsFinite() && NearestHundredth(stored.mantissa.value, Exact(v))
      && NumericString(stored).Printed?
      && ReadDecimal(NumericString(stored).text) == Some(Reading(stored.mantissa.value, 2))
  {
    FitsIff(Exact(v));
    HundredthsNear(Exact(v));
    hide Exact, Hundredths, NearestHundredth, NumericString, ReadDecimal;
    if AmountColumn(v).Ok? {
      HundredthsPrint(Hundredths(Exact(v)));
    }
  }

  /** Of what is no finite number the column takes NaN alone. */
  lemma ColumnOfNoNumber(v: Numeric)
    requires !v.IsFinite()
    ensures AmountColumn(v).Ok? <==> v.valid && v.nan
    ensures AmountColumn(v).Ok? ==> AmountColumn(v).value.nan
  {
  }

  /** A positive number has at most `k` digits exactly when it is below the k-th power of ten. */
  lemma {:induction false} DigitsAtMost(n: nat, k: nat)
    requires k >= 1
    ensures |Digits(n)| <= k <==> n < Pow10(k)
  {
    if n >= 10 {
      if k >= 2 {
        DigitsAtMost(n / 10, k - 1);
        assert Pow10(k) == 10 * Pow10(k - 1);
      } else {
        assert Pow10(1) == 10 * Pow10(0);
      }
    } else {
      assert Pow10(k) == 10 * Pow10(k - 1);
    }
  }

  /** The column takes a positive number of hundredths exactly when it has at most ten digits. */
  lemma TenDigits(v: Numeric, h: int)
    requires v.IsFinite() && NearestHundredth(h, Exact(v))
    ensures AmountColumn(v) == Ok(InHundredths(h)) <==> h >= 1 && |Digits(Abs(h))| <= 10
    ensures AmountColumn(v).Ok? <==> h >= 1 && |Digits(Abs(h))| <= 10
  {
    HundredthsAreNearest(h, Exact(v));
    DigitsAtMost(Abs(h), 10);
    TenthPower();
    hide Exact, Hundredths, NearestHundredth, Digits, Pow10;
  }

  lemma TenthPower()
    ensures Pow10(10) == 10_000_000_000
  {
    assert Pow10(2) == 10 * Pow10(1) && Pow10(1) == 10 * Pow10(0);
    assert Pow10(4) == 10 * Pow10(3) && Pow10(3) == 10 * Pow10(2);
    assert Pow10(6) == 10 * Pow10(5) && Pow10(5) == 10 * Pow10(4);
    assert Pow10(8) == 10 * Pow10(7) && Pow10(7) == 10 * Pow10(6);
    assert Pow10(10) == 10 * Pow10(9) && Pow10(9) == 10 * Pow10(8);
  }

  lemma HundredthsPrint(h: int)
    ensures NumericString(InHundredths(h)).Printed?
    ensures ReadDecimal(NumericString(InHundredths(h)).text) == Some(Reading(h, 2))
  {
    PrintsAndReads(InHundredths(h));
  }
}
