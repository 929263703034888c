/** The decimal printer of payout amounts. The service and the worker carry the same
    printer; it is modelled once. Reading a numeral back is defined here on its own,
    digit by digit from the left, and the two are then related. */
module Decimal {
  import opened Prelude

  // ---------------------------------------------------------------- numerals

  function Pow10(n: nat): (p: nat)
    ensures p >= 1
  {
    if n == 0 then 1 else 10 * Pow10(n - 1)
  }

  predicate IsDigit(c: char) { '0' <= c <= '9' }

  predicate AllDigits(s: string) { forall i :: 0 <= i < |s| ==> IsDigit(s[i]) }

  function DigitChar(d: nat): (c: char)
    requires d < 10
    ensures IsDigit(c) && DigitValue(c) == d
  {
    '0' + d as char
  }

  function DigitValue(c: char): (d: nat)
    requires IsDigit(c)
    ensures d < 10
  {
    (c - '0') as nat
  }

  /** The shortest decimal numeral of `n`, as `big.Int.String` prints it. */
  function Digits(n: nat): (s: string)
    ensures |s| >= 1 && AllDigits(s)
  {
    if n < 10 then [DigitChar(n)] else Digits(n / 10) + [DigitChar(n % 10)]
  }

  /** Horner's reading of a digit string; leading zeros are allowed. */
  function Read(s: string): nat
    requires AllDigits(s)
  {
    if s == "" then 0 else 10 * Read(s[..|s| - 1]) + DigitValue(s[|s| - 1])
  }

  function Zeros(k: nat): (s: string)
    ensures |s| == k && AllDigits(s)
    ensures forall i :: 0 <= i < k ==> s[i] == '0'
  {
    seq(k, i requires 0 <= i < k => '0')
  }

  /** Zeros on the left up to at least `width` characters. */
  function PadLeft(s: string, width: nat): string {
    if |s| >= width then s else Zeros(width - |s|) + s
  }

  // ---------------------------------------------------------------- the printer

  datatype Infinity = Finite | PositiveInfinity | NegativeInfinity

  const MIN_INT32: int := -0x8000_0000
  const MAX_INT32: int := 0x7fff_ffff

  /** pgtype.Numeric: Int × 10^Exp with flags; `mantissa` is None when Int is nil. */
  datatype Numeric = Numeric(mantissa: Option<int>, exp: int, nan: bool, infinity: Infinity, valid: bool) {
    predicate WellTyped() { MIN_INT32 <= exp <= MAX_INT32 }

    predicate IsFinite() {
      valid && mantissa.Some? && !nan && infinity == Finite
    }
  }

  /** `Panics` is Go's slice-bounds panic, an outcome of its own beside the error. */
  datatype Print = Printed(text: string) | Unsupported | Panics

  /** Negation as Go computes it on an int32: the minimum is its own negation. */
  function NegateInt32(x: int): int {
    if x == MIN_INT32 then MIN_INT32 else -x
  }

  function NumericString(v: Numeric): Print {
    if !v.IsFinite() then Unsupported
    else
      var sign := if v.mantissa.value < 0 then "-" else "";
      var digits := Digits(Abs(v.mantissa.value));
      if v.exp >= 0 then
        Printed(sign + digits + Zeros(v.exp))
      else
        var scale := NegateInt32(v.exp);
        if |digits| <= scale then
          Printed(sign + "0." + Zeros(scale - |digits|) + digits)
        else
          var point := |digits| - scale;
          if 0 <= point <= |digits| then
            Printed(sign + digits[..point] + "." + digits[point..])
          else
            Panics
  }

  function Abs(i: int): nat { if i < 0 then -i else i }

  function Signed(negative: bool, n: nat): int {
    if negative then 0 - n else n
  }

  // ---------------------------------------------------------------- the reader

  /** What a decimal text says: a signed coefficient and the number of decimals,
      that is the value coefficient / 10^decimals. */
  datatype Reading = Reading(coefficient: int, decimals: nat)

  function IndexOfPoint(s: string): (i: nat)
    ensures i <= |s|
    ensures i < |s| ==> s[i] == '.'
    ensures forall j :: 0 <= j < i ==> s[j] != '.'
  {
    if s == "" || s[0] == '.' then 0 else 1 + IndexOfPoint(s[1..])
  }

  function ReadUnsigned(s: string): Option<Reading> {
    var i := IndexOfPoint(s);
    var whole := s[..i];
    if whole == "" || !AllDigits(whole) then None
    else if i == |s| then Some(Reading(Read(whole), 0))
    else
      var fraction := s[i + 1..];
      if fraction == "" || !AllDigits(fraction) then None
      else Some(WithFraction(whole, fraction))
  }

  /** whole + fraction / 10^|fraction|, over the common denominator. */
  function WithFraction(whole: string, fraction: string): Reading
    requires AllDigits(whole) && AllDigits(fraction)
  {
    Reading(Read(whole) * Pow10(|fraction|) + Read(fraction), |fraction|)
  }

  function ReadDecimal(s: string): Option<Reading> {
    if s != "" && s[0] == '-' then
      match ReadUnsigned(s[1..])
      case None => None
      case Some(r) => Some(r.(coefficient := -r.coefficient))
    else ReadUnsigned(s)
  }

  /** The coefficient and the number of decimals a finite numeric must print with. */
  function Exact(v: Numeric): Reading
    requires v.IsFinite()
  {
    if v.exp >= 0 then Reading(v.mantissa.value * Pow10(v.exp), 0)
    else Reading(v.mantissa.value, -v.exp)
  }

  /** Equality of Int × 10^Exp as rational numbers, over the smaller exponent. */
  predicate SameValue(a: Numeric, b: Numeric)
    requires a.IsFinite() && b.IsFinite()
  {
    var least := if a.exp < b.exp then a.exp else b.exp;
    a.mantissa.value * Pow10(a.exp - least) == b.mantissa.value * Pow10(b.exp - least)
  }

  // ---------------------------------------------------------------- facts about numerals

  lemma {:induction false} PowAdd(a: nat, b: nat)
    ensures Pow10(a + b) == Pow10(a) * Pow10(b)
  {
    if a > 0 {
      PowAdd(a - 1, b);
      calc {
        Pow10(a + b);
        10 * Pow10(a - 1 + b);
        10 * (Pow10(a - 1) * Pow10(b));
        Pow10(a) * Pow10(b);
      }
    }
  }

  lemma HornerStep(a: int, p: int, b: int, d: int)
    ensures 10 * (a * p + b) + d == a * (10 * p) + (10 * b + d)
  {
    assert a * (10 * p) == 10 * (a * p);
  }

  lemma {:induction false} ReadAppend(s: string, t: string)
    requires AllDigits(s) && AllDigits(t)
    ensures AllDigits(s + t)
    ensures Read(s + t) == Read(s) * Pow10(|t|) + Read(t)
  {
    if t == "" {
      assert s + t == s;
    } else {
      var init, last := t[..|t| - 1], t[|t| - 1];
      ReadAppend(s, init);
      assert (s + t)[..|s + t| - 1] == s + init;
      HornerStep(Read(s), Pow10(|init|), Read(init), DigitValue(last));
    }
  }

  lemma {:induction false} ReadZeros(k: nat)
    ensures Read(Zeros(k)) == 0
  {
    if k > 0 {
      ReadZeros(k - 1);
      assert Zeros(k)[..k - 1] == Zeros(k - 1);
    }
  }

  /** Printing a natural number and reading it back gives the number: so distinct
      numbers have distinct numerals. */
  lemma {:induction false} ReadDigits(n: nat)
    ensures Read(Digits(n)) == n
  {
    if n >= 10 {
      ReadDigits(n / 10);
      var s := Digits(n);
      assert s[..|s| - 1] == Digits(n / 10);
    } else {
      assert Digits(n)[..0] == "";
    }
  }

  /** Reading a digit string and printing it again restores it once the leading
      zeros it had are put back. */
  lemma {:induction false} PadDigitsOfRead(s: string)
    requires AllDigits(s) && s != ""
    ensures |Digits(Read(s))| <= |s|
    ensures PadLeft(Digits(Read(s)), |s|) == s
  {
    var init, last := s[..|s| - 1], s[|s| - 1];
    assert s == init + [last];
    assert DigitChar(DigitValue(last)) == last;
    if init == "" {
      assert Read(s) == DigitValue(last);
    } else {
      PadDigitsOfRead(init);
      assert Read(s) == 10 * Read(init) + DigitValue(last);
      if Read(init) == 0 {
        assert Digits(0) == "0";
        PadOfZero(init);
        assert s == Zeros(|s| - 1) + [last];
      } else {
        PadAppend(Digits(Read(init)), init, last);
        assert Digits(Read(s)) == Digits(Read(init)) + [last];
      }
    }
  }

  lemma PadOfZero(s: string)
    requires s != "" && PadLeft("0", |s|) == s
    ensures s == Zeros(|s|)
  {
    if |s| > 1 {
      assert s == Zeros(|s| - 1) + "0";
    }
  }

  lemma PadAppend(digits: string, s: string, last: char)
    requires |digits| <= |s| && PadLeft(digits, |s|) == s
    ensures PadLeft(digits + [last], |s| + 1) == s + [last]
  {
    if |digits| < |s| {
      assert Zeros(|s| - |digits|) + (digits + [last]) == Zeros(|s| - |digits|) + digits + [last];
    }
  }

  lemma TimesTen(n: int, p: int)
    ensures n * (10 * p) == 10 * (n * p)
  {
  }

  lemma DigitsTimesTen(m: nat)
    requires m > 0
    ensures Digits(10 * m) == Digits(m) + "0"
  {
    assert 10 * m >= 10 && (10 * m) / 10 == m && (10 * m) % 10 == 0;
  }

  lemma {:induction false} DigitsTimesPow(n: nat, k: nat)
    requires n > 0
    ensures n * Pow10(k) > 0
    ensures Digits(n * Pow10(k)) == Digits(n) + Zeros(k)
  {
    MulPositive(n, Pow10(k));
    if k == 0 {
      assert Digits(n) + Zeros(0) == Digits(n);
    } else {
      DigitsTimesPow(n, k - 1);
      TimesTen(n, Pow10(k - 1));
      DigitsTimesTen(n * Pow10(k - 1));
      assert Zeros(k - 1) + "0" == Zeros(k);
      assert Digits(n) + Zeros(k - 1) + "0" == Digits(n) + (Zeros(k - 1) + "0");
    }
  }

  lemma MulPositive(a: nat, b: nat)
    requires a >= 1 && b >= 1
    ensures a * b >= 1
  {
    assert a * b >= 1 * b by { MulMonotone(1, a, b); }
  }

  lemma {:induction false} MulMonotone(a: nat, b: nat, c: nat)
    requires a <= b
    ensures a * c <= b * c
  {
    assert (b - a) * c >= 0;
    assert b * c == a * c + (b - a) * c;
  }

  lemma MulCancel(a: int, b: int, c: nat)
    requires c >= 1 && a * c == b * c
    ensures a == b
  {
    assert (a - b) * c == 0;
    if a > b { MulPositive(a - b, c); }
    if b > a {
      assert (b - a) * c == 0;
      MulPositive(b - a, c);
    }
  }

  // ---------------------------------------------------------------- the canonical layout

  /** `digits` with a point before its last `decimals` characters. */
  function InsertPoint(digits: string, decimals: nat): string
    requires decimals > 0 ==> |digits| > decimals
  {
    if decimals == 0 then digits
    else digits[..|digits| - decimals] + "." + digits[|digits| - decimals..]
  }

  /** The one text with a given coefficient and number of decimals, laid out without
      superfluous zeros. */
  function Layout(r: Reading): string {
    var sign := if r.coefficient < 0 then "-" else "";
    sign + InsertPoint(PadLeft(Digits(Abs(r.coefficient)), r.decimals + 1), r.decimals)
  }

  lemma PrintsWhole(v: Numeric)
    requires v.IsFinite() && v.exp >= 0 && (v.exp == 0 || v.mantissa.value != 0)
    ensures NumericString(v) == Printed(Layout(Exact(v)))
  {
    var n := Abs(v.mantissa.value);
    var sign := if v.mantissa.value < 0 then "-" else "";
    if v.exp == 0 {
      assert Digits(n) + Zeros(0) == Digits(n);
      assert v.mantissa.value * Pow10(0) == v.mantissa.value;
    } else {
      DigitsTimesPow(n, v.exp);
      SignOfProduct(v.mantissa.value, Pow10(v.exp));
    }
    hide Digits, Pow10, Zeros;
    assert sign + Digits(n) + Zeros(v.exp) == sign + (Digits(n) + Zeros(v.exp));
  }

  /** The two layouts below zero: the point after a lone zero, or among the digits. */
  lemma PointedLayout(sign: string, digits: string, scale: nat)
    requires scale > 0 && digits != ""
    ensures sign + InsertPoint(PadLeft(digits, scale + 1), scale) ==
      if |digits| <= scale then sign + "0." + Zeros(scale - |digits|) + digits
      else sign + digits[..|digits| - scale] + "." + digits[|digits| - scale..]
  {
    if |digits| <= scale {
      var tail := Zeros(scale - |digits|) + digits;
      PadToPoint(digits, scale);
      InsertPointBetween("0", tail);
      assert sign + "0." + Zeros(scale - |digits|) + digits == sign + ("0" + "." + tail);
    } else {
      var whole, fraction := digits[..|digits| - scale], digits[|digits| - scale..];
      assert digits == whole + fraction;
      InsertPointBetween(whole, fraction);
      assert sign + whole + "." + fraction == sign + (whole + "." + fraction);
    }
  }

  lemma PadToPoint(digits: string, scale: nat)
    requires |digits| <= scale
    ensures PadLeft(digits, scale + 1) == "0" + (Zeros(scale - |digits|) + digits)
  {
    assert Zeros(scale + 1 - |digits|) == "0" + Zeros(scale - |digits|);
    assert "0" + Zeros(scale - |digits|) + digits == "0" + (Zeros(scale - |digits|) + digits);
  }

  lemma PrintsLayout(v: Numeric)
    requires v.IsFinite() && v.exp != MIN_INT32
    requires v.exp <= 0 || v.mantissa.value != 0
    ensures NumericString(v) == Printed(Layout(Exact(v)))
  {
    if v.exp >= 0 {
      PrintsWhole(v);
    } else {
      hide Digits, Zeros, InsertPoint, PadLeft;
      PointedLayout(if v.mantissa.value < 0 then "-" else "", Digits(Abs(v.mantissa.value)), 0 - v.exp);
    }
  }

  lemma SignOfProduct(m: int, p: nat)
    requires p >= 1 && m != 0
    ensures m * p < 0 <==> m < 0
    ensures Abs(m * p) == Abs(m) * p
  {
    if m < 0 {
      MulPositive(-m, p);
      assert (-m) * p == -(m * p);
    } else {
      MulPositive(m, p);
    }
  }

  lemma NoPointInDigits(whole: string, rest: string, i: nat)
    requires AllDigits(whole) && i < |whole|
    ensures (whole + "." + rest)[i] != '.' && whole[i] != '.'
  {
    assert (whole + "." + rest)[i] == whole[i];
    assert IsDigit(whole[i]);
  }

  lemma PointAfterDigits(whole: string, rest: string)
    requires AllDigits(whole)
    ensures IndexOfPoint(whole) == |whole|
    ensures IndexOfPoint(whole + "." + rest) == |whole|
  {
    var s := whole + "." + rest;
    var i := IndexOfPoint(s);
    assert s[|whole|] == '.';
    forall j | 0 <= j < |whole| ensures s[j] != '.' && whole[j] != '.' {
      NoPointInDigits(whole, rest, j);
    }
    assert i >= |whole|;
  }

  lemma ReadWhole(whole: string)
    requires AllDigits(whole) && whole != ""
    ensures ReadUnsigned(whole) == Some(Reading(Read(whole), 0))
  {
    PointAfterDigits(whole, "");
    assert whole[..|whole|] == whole;
  }

  lemma ReadPointed(whole: string, fraction: string)
    requires AllDigits(whole) && whole != "" && AllDigits(fraction) && fraction != ""
    ensures ReadUnsigned(whole + "." + fraction)
         == Some(WithFraction(whole, fraction))
  {
    PointAfterDigits(whole, fraction);
    var s := whole + "." + fraction;
    var i := IndexOfPoint(s);
    assert i == |whole| < |s|;
    assert s[..i] == whole;
    assert s[i + 1..] == fraction;
  }

  lemma InsertPointBetween(whole: string, fraction: string)
    requires whole != ""
    ensures InsertPoint(whole + fraction, |fraction|) == if fraction == "" then whole else whole + "." + fraction
  {
    var s := whole + fraction;
    if fraction == "" {
      assert s == whole;
    } else {
      assert s[..|s| - |fraction|] == whole;
      assert s[|s| - |fraction|..] == fraction;
    }
  }

  lemma ReadBetween(whole: string, fraction: string)
    requires AllDigits(whole) && whole != "" && AllDigits(fraction)
    ensures AllDigits(whole + fraction)
    ensures ReadUnsigned(if fraction == "" then whole else whole + "." + fraction)
         == Some(Reading(Read(whole + fraction), |fraction|))
  {
    hide Read, ReadUnsigned, Pow10;
    ReadAppend(whole, fraction);
    if fraction == "" {
      assert whole + fraction == whole;
      ReadWhole(whole);
    } else {
      ReadPointed(whole, fraction);
    }
  }

  lemma ReadInsertedPoint(digits: string, decimals: nat)
    requires AllDigits(digits) && |digits| > decimals
    ensures ReadUnsigned(InsertPoint(digits, decimals)) == Some(Reading(Read(digits), decimals))
  {
    var whole, fraction := digits[..|digits| - decimals], digits[|digits| - decimals..];
    assert digits == whole + fraction;
    InsertPointBetween(whole, fraction);
    ReadBetween(whole, fraction);
  }

  lemma ReadSigned(negative: bool, s: string, r: Reading)
    requires s != "" && s[0] != '-' && ReadUnsigned(s) == Some(r)
    ensures ReadDecimal((if negative then "-" else "") + s)
         == Some(r.(coefficient := if negative then -r.coefficient else r.coefficient))
  {
    if negative {
      assert ("-" + s)[1..] == s;
    } else {
      assert "" + s == s;
    }
  }

  lemma ReadPadded(n: nat, width: nat)
    ensures AllDigits(PadLeft(Digits(n), width))
    ensures Read(PadLeft(Digits(n), width)) == n
    ensures |PadLeft(Digits(n), width)| >= width
  {
    ReadDigits(n);
    if |Digits(n)| < width {
      ReadZeros(width - |Digits(n)|);
      ReadAppend(Zeros(width - |Digits(n)|), Digits(n));
    }
  }

  lemma StartsWithDigit(digits: string, decimals: nat)
    requires AllDigits(digits) && |digits| > decimals
    ensures var s := InsertPoint(digits, decimals); s != "" && IsDigit(s[0])
  {
    assert InsertPoint(digits, decimals)[0] == digits[0];
  }

  lemma ReadLayout(r: Reading)
    ensures ReadDecimal(Layout(r)) == Some(r)
  {
    var n := Abs(r.coefficient);
    var digits := PadLeft(Digits(n), r.decimals + 1);
    ReadPadded(n, r.decimals + 1);
    ReadInsertedPoint(digits, r.decimals);
    StartsWithDigit(digits, r.decimals);
    ReadSigned(r.coefficient < 0, InsertPoint(digits, r.decimals), Reading(n, r.decimals));
  }

  // ---------------------------------------------------------------- main results

  /** Exact printing. A finite numeric panics the printer exactly when its exponent is
      the least int32; any other one prints, and what it prints reads back as
      Int × 10^Exp with the expected number of decimals. */
  lemma PrintedTextIsExact(v: Numeric)
    requires v.WellTyped()
    ensures NumericString(v).Printed? <==> v.IsFinite() && v.exp != MIN_INT32
    ensures NumericString(v).Panics? <==> v.IsFinite() && v.exp == MIN_INT32
    ensures NumericString(v).Printed? ==> ReadDecimal(NumericString(v).text) == Some(Exact(v))
  {
    if v.IsFinite() && v.exp != MIN_INT32 {
      PrintsAndReads(v);
    }
  }

  lemma PrintsAndReads(v: Numeric)
    requires v.IsFinite() && v.exp != MIN_INT32
    ensures NumericString(v).Printed? && ReadDecimal(NumericString(v).text) == Some(Exact(v))
  {
    if v.exp > 0 && v.mantissa.value == 0 {
      PrintedZeroReadsAsZero(v);
    } else {
      PrintsLayout(v);
      ReadLayout(Exact(v));
    }
  }

  lemma PrintedZeroReadsAsZero(v: Numeric)
    requires v.IsFinite() && v.exp > 0 && v.mantissa.value == 0
    ensures NumericString(v) == Printed(Zeros(v.exp + 1))
    ensures ReadDecimal(Zeros(v.exp + 1)) == Some(Exact(v))
  {
    var s := Zeros(v.exp + 1);
    assert Digits(0) == "0";
    assert "" + "0" + Zeros(v.exp) == s;
    PointAfterDigits(s, "");
    assert s[..|s|] == s;
    ReadZeros(v.exp + 1);
  }

  /** Two non-zero numerics print alike if and only if they have the same value and
      the same number of printed decimals. */
  lemma TextsEqualIffSameValueAndDecimals(a: Numeric, b: Numeric)
    requires a.IsFinite() && b.IsFinite() && a.exp != MIN_INT32 && b.exp != MIN_INT32
    requires a.mantissa.value != 0 && b.mantissa.value != 0
    ensures NumericString(a) == NumericString(b)
       <==> SameValue(a, b) && Exact(a).decimals == Exact(b).decimals
  {
    PrintsLayout(a);
    PrintsLayout(b);
    ReadLayout(Exact(a));
    ReadLayout(Exact(b));
    if Exact(a).decimals == Exact(b).decimals {
      SameValueIffSameCoefficient(a, b);
    }
  }

  lemma SameValueIffSameCoefficient(a: Numeric, b: Numeric)
    requires a.IsFinite() && b.IsFinite() && Exact(a).decimals == Exact(b).decimals
    ensures SameValue(a, b) <==> Exact(a).coefficient == Exact(b).coefficient
  {
    if a.exp >= 0 {
      var least := if a.exp < b.exp then a.exp else b.exp;
      ScaleUp(a.mantissa.value, a.exp, least);
      ScaleUp(b.mantissa.value, b.exp, least);
      if Exact(a).coefficient == Exact(b).coefficient {
        MulCancel(a.mantissa.value * Pow10(a.exp - least), b.mantissa.value * Pow10(b.exp - least), Pow10(least));
      }
    } else {
      assert a.exp == b.exp && Pow10(0) == 1;
    }
  }

  lemma ScaleUp(m: int, exp: nat, least: nat)
    requires least <= exp
    ensures m * Pow10(exp) == m * Pow10(exp - least) * Pow10(least)
  {
    PowAdd(exp - least, least);
    assert m * (Pow10(exp - least) * Pow10(least)) == m * Pow10(exp - least) * Pow10(least);
  }

  lemma ZeroIffZeroCoefficient(v: Numeric)
    requires v.IsFinite()
    ensures Exact(v).coefficient == 0 <==> v.mantissa.value == 0
  {
    if v.exp >= 0 && v.mantissa.value != 0 {
      SignOfProduct(v.mantissa.value, Pow10(v.exp));
      MulPositive(Abs(v.mantissa.value), Pow10(v.exp));
    }
  }

  /** A zero prints one digit for the number and one for each power of ten. */
  lemma ZeroTextLength(v: Numeric)
    requires v.IsFinite() && v.mantissa.value == 0 && v.exp >= 0
    ensures NumericString(v).Printed? && |NumericString(v).text| == v.exp + 1
  {
    assert Digits(0) == "0";
  }

  /** When two numerics print alike, zero included: they are equal as rationals, have
      equally many printed decimals and, if zero, the same exponent. */
  lemma TextsEqualIff(a: Numeric, b: Numeric)
    requires a.IsFinite() && b.IsFinite() && a.exp != MIN_INT32 && b.exp != MIN_INT32
    ensures NumericString(a) == NumericString(b)
       <==> && SameValue(a, b) && Exact(a).decimals == Exact(b).decimals
            && (a.mantissa.value == 0 ==> a.exp == b.exp)
  {
    PrintsAndReads(a);
    PrintsAndReads(b);
    ZeroIffZeroCoefficient(a);
    ZeroIffZeroCoefficient(b);
    hide ReadDecimal, SameValue;
    if Exact(a).decimals == Exact(b).decimals {
      SameValueIffSameCoefficient(a, b);
      if a.mantissa.value != 0 && b.mantissa.value != 0 {
        TextsEqualIffSameValueAndDecimals(a, b);
      } else if a.mantissa.value == 0 == b.mantissa.value {
        if a.exp >= 0 {
          ZeroTextLength(a);
          ZeroTextLength(b);
        }
      }
    }
  }

  // ---------------------------------------------------------------- splitting at the point

  /** The tests' helper: drop the point and count the characters after it. */
  function FromDecimal(s: string): Option<Numeric> {
    if s != "" && s[0] == '-' then FromUnsigned(true, s[1..]) else FromUnsigned(false, s)
  }

  function FromUnsigned(negative: bool, body: string): Option<Numeric> {
    var i := IndexOfPoint(body);
    var joined := if i == |body| then body else body[..i] + body[i + 1..];
    if joined == "" || !AllDigits(joined) then None
    else Some(Whole(Signed(negative, Read(joined)), if i == |body| then 0 else |body| - i - 1))
  }

  function Whole(mantissa: int, decimals: nat): Numeric {
    Numeric(Some(mantissa), 0 - decimals, false, Finite, true)
  }

  /** A numeral written the usual way: a whole part without leading zeros, at most one
      point with digits after it, and no minus sign on zero. */
  predicate Canonical(negative: bool, whole: string, fraction: Option<string>) {
    && whole != "" && AllDigits(whole)
    && (|whole| > 1 ==> whole[0] != '0')
    && (fraction.Some? ==> fraction.value != "" && AllDigits(fraction.value) && |fraction.value| < MAX_INT32)
    && (negative ==> Read(whole + fraction.GetOr("")) != 0)
  }

  function Written(negative: bool, whole: string, fraction: Option<string>): string {
    (if negative then "-" else "") + Unsigned(whole, fraction)
  }

  function Unsigned(whole: string, fraction: Option<string>): string {
    if fraction.Some? then whole + "." + fraction.value else whole
  }

  lemma PadWholeAndFraction(whole: string, fraction: string)
    requires whole != "" && AllDigits(whole) && AllDigits(fraction)
    requires |whole| > 1 ==> whole[0] != '0'
    ensures AllDigits(whole + fraction)
    ensures PadLeft(Digits(Read(whole + fraction)), |fraction| + 1) == whole + fraction
  {
    var joined := whole + fraction;
    assert AllDigits(joined);
    PadDigitsOfRead(joined);
    var digits := Digits(Read(joined));
    if |digits| < |joined| {
      assert joined[0] == Zeros(|joined| - |digits|)[0] == '0';
      assert whole[0] == joined[0];
    }
  }

  lemma SplitUnsigned(negative: bool, whole: string, fraction: Option<string>)
    requires AllDigits(whole) && whole != "" && AllDigits(fraction.GetOr(""))
    ensures AllDigits(whole + fraction.GetOr(""))
    ensures FromUnsigned(negative, Unsigned(whole, fraction))
         == Some(Whole(Signed(negative, Read(whole + fraction.GetOr(""))), |fraction.GetOr("")|))
  {
    var tail := fraction.GetOr("");
    PointAfterDigits(whole, tail);
    if fraction.Some? {
      var body := whole + "." + tail;
      assert body[..|whole|] == whole && body[|whole| + 1..] == tail;
    } else {
      assert whole + tail == whole;
    }
  }

  lemma SplitWritten(negative: bool, whole: string, fraction: Option<string>)
    requires AllDigits(whole) && whole != ""
    ensures FromDecimal(Written(negative, whole, fraction)) == FromUnsigned(negative, Unsigned(whole, fraction))
  {
    var body := Unsigned(whole, fraction);
    assert body[0] == whole[0] && IsDigit(whole[0]);
    if negative {
      assert ("-" + body)[1..] == body;
    } else {
      assert "" + body == body;
    }
  }

  lemma UnsignedIsPointed(whole: string, fraction: Option<string>)
    requires fraction.Some? ==> fraction.value != ""
    ensures Unsigned(whole, fraction)
         == if fraction.GetOr("") == "" then whole else whole + "." + fraction.GetOr("")
  {
  }

  lemma LayoutOfWritten(negative: bool, whole: string, fraction: Option<string>)
    requires Canonical(negative, whole, fraction)
    ensures AllDigits(whole + fraction.GetOr(""))
    ensures Layout(Reading(Signed(negative, Read(whole + fraction.GetOr(""))), |fraction.GetOr("")|))
         == Written(negative, whole, fraction)
  {
    PadWholeAndFraction(whole, fraction.GetOr(""));
    InsertPointBetween(whole, fraction.GetOr(""));
    UnsignedIsPointed(whole, fraction);
    var n := Read(whole + fraction.GetOr(""));
    assert Abs(Signed(negative, n)) == n;
    assert Signed(negative, n) < 0 <==> negative;
  }

  /** Splitting a canonical decimal text at the point and printing the numeric gives
      the text back. */
  lemma SplitThenPrint(negative: bool, whole: string, fraction: Option<string>)
    requires Canonical(negative, whole, fraction)
    ensures var v := FromDecimal(Written(negative, whole, fraction));
      v.Some? && NumericString(v.value) == Printed(Written(negative, whole, fraction))
  {
    SplitWritten(negative, whole, fraction);
    SplitUnsigned(negative, whole, fraction);
    var n := Read(whole + fraction.GetOr(""));
    var v := Whole(Signed(negative, n), |fraction.GetOr("")|);
    PrintsLayout(v);
    assert Pow10(0) == 1;
    assert Exact(v) == Reading(Signed(negative, n), |fraction.GetOr("")|);
    LayoutOfWritten(negative, whole, fraction);
  }
}
