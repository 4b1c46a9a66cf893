// Decimal price texts: reading one as an integer scaled by 10^18, and printing it back.
module PriceText {
  import opened Wrappers

  const E18: nat := 1000000000000000000
  const WHOLE_DIGITS := 36
  const FRACTION_DIGITS := 18

  predicate IsDigit(c: char) {
    '0' <= c <= '9'
  }

  predicate AllDigits(s: string) {
    forall i :: 0 <= i < |s| ==> IsDigit(s[i])
  }

  function Value(c: char): nat
    requires IsDigit(c)
  {
    c as int - '0' as int
  }

  function DigitOf(d: nat): (c: char)
    requires d < 10
    ensures IsDigit(c) && Value(c) == d
  {
    ('0' as int + d) as char
  }

  function Pow10(k: nat): (r: nat)
    ensures r > 0
  {
    if k == 0 then 1 else 10 * Pow10(k - 1)
  }

  // BigInt of a decimal text; the empty text is zero.
  function Parse(s: string): nat
    requires AllDigits(s)
  {
    if s == "" then 0 else 10 * Parse(s[..|s| - 1]) + Value(s[|s| - 1])
  }

  // The shortest decimal text of n.
  function Decimal(n: nat): (s: string)
    ensures AllDigits(s) && s != ""
  {
    if n < 10 then [DigitOf(n)] else Decimal(n / 10) + [DigitOf(n % 10)]
  }

  function Zeros(k: nat): (s: string)
    ensures |s| == k && forall i :: 0 <= i < k ==> s[i] == '0'
  {
    seq(k, _ => '0')
  }

  function PadStart(s: string, k: nat): string {
    if |s| >= k then s else Zeros(k - |s|) + s
  }

  function PadEnd(s: string, k: nat): string {
    if |s| >= k then s else s + Zeros(k - |s|)
  }

  // ---- digits ------------------------------------------------------------------------------

  lemma {:induction false} ParseDecimal(n: nat)
    ensures Parse(Decimal(n)) == n
    ensures n > 0 ==> Decimal(n)[0] != '0'
  {
    if n >= 10 {
      ParseDecimal(n / 10);
      var s := Decimal(n / 10) + [DigitOf(n % 10)];
      assert s[..|s| - 1] == Decimal(n / 10);
    } else {
      assert Parse([]) == 0 && [DigitOf(n)][..0] == [];
    }
  }

  lemma ParseLast(s: string, c: char)
    requires AllDigits(s) && IsDigit(c)
    ensures AllDigits(s + [c]) && Parse(s + [c]) == 10 * Parse(s) + Value(c)
  {
    assert (s + [c])[..|s + [c]| - 1] == s;
  }

  lemma Shift(p: nat, q: nat, k: nat, d: nat)
    ensures 10 * (p * k + q) + d == p * (10 * k) + (10 * q + d)
  {
  }

  lemma {:induction false} ParseConcat(a: string, b: string)
    requires AllDigits(a) && AllDigits(b)
    ensures AllDigits(a + b) && Parse(a + b) == Parse(a) * Pow10(|b|) + Parse(b)
    decreases |b|
  {
    if b == "" {
      assert a + b == a;
    } else {
      var c, last := b[..|b| - 1], b[|b| - 1];
      ParseConcat(a, c);
      ParseLast(a + c, last);
      ParseLast(c, last);
      hide Parse, AllDigits, Value;
      Shift(Parse(a), Parse(c), Pow10(|c|), Value(last));
      assert b == c + [last] && a + b == (a + c) + [last];
    }
  }

  lemma {:induction false} ParseZeros(k: nat)
    ensures Parse(Zeros(k)) == 0
  {
    if k > 0 {
      assert Zeros(k)[..k - 1] == Zeros(k - 1);
      ParseZeros(k - 1);
    }
  }

  lemma {:induction false} ParseBounded(s: string)
    requires AllDigits(s)
    ensures Parse(s) < Pow10(|s|)
  {
    if s != "" {
      ParseBounded(s[..|s| - 1]);
    }
  }

  lemma {:induction false} LeadingDigitCounts(s: string)
    requires AllDigits(s) && s != "" && s[0] != '0'
    ensures Parse(s) >= Pow10(|s| - 1)
  {
    if |s| > 1 {
      LeadingDigitCounts(s[..|s| - 1]);
    } else {
      assert s[..0] == "";
    }
  }

  lemma {:induction false} Pow10Grows(a: nat, b: nat)
    requires a <= b
    ensures Pow10(a) <= Pow10(b)
  {
    if a < b {
      Pow10Grows(a, b - 1);
    }
  }

  // A positive number below 10^k is exactly one with at most k digits.
  lemma DecimalLength(n: nat, k: nat)
    requires k > 0
    ensures |Decimal(n)| <= k <==> n < Pow10(k)
  {
    ParseDecimal(n);
    ParseBounded(Decimal(n));
    if |Decimal(n)| <= k {
      Pow10Grows(|Decimal(n)|, k);
    } else {
      if n < 10 {
      } else {
        LeadingDigitCounts(Decimal(n));
        Pow10Grows(k, |Decimal(n)| - 1);
      }
    }
  }

  // ---- reading -----------------------------------------------------------------------------

  function DotIndex(s: string): (i: nat)
    ensures i <= |s| && (forall k :: 0 <= k < i ==> s[k] != '.') && (i < |s| ==> s[i] == '.')
  {
    if s == "" || s[0] == '.' then 0 else 1 + DotIndex(s[1..])
  }

  // 0, or up to 36 digits that do not start with a zero.
  predicate ValidWhole(s: string) {
    s == "0" || (0 < |s| <= WHOLE_DIGITS && AllDigits(s) && s[0] != '0')
  }

  predicate ValidFraction(s: string) {
    0 < |s| <= FRACTION_DIGITS && AllDigits(s)
  }

  predicate ValidPrice(s: string) {
    var i := DotIndex(s);
    ValidWhole(s[..i]) && (i < |s| ==> ValidFraction(s[i + 1..]))
  }

  function Scaled(s: string): nat
    requires ValidPrice(s)
  {
    var i := DotIndex(s);
    var fraction := if i < |s| then s[i + 1..] else "";
    Parse(s[..i]) * E18 + Parse(PadEnd(fraction, FRACTION_DIGITS))
  }

  function PriceE18(s: string): Result<nat> {
    if !ValidPrice(s) then Failure("price requires a positive decimal with at most 18 fractional digits")
    else if Scaled(s) == 0 then Failure("price must be positive")
    else Success(Scaled(s))
  }

  // ---- printing ----------------------------------------------------------------------------

  function DisplayPrice(n: nat): string {
    Decimal(n / E18) + "." + PadStart(Decimal(n % E18), FRACTION_DIGITS)
  }

  lemma E18IsPow10()
    ensures Pow10(18) == E18 && Pow10(54) == E18 * Pow10(36)
  {
    assert Pow10(6) == 1000000;
    Pow10Sum(6, 6);
    Pow10Sum(6, 12);
    Pow10Sum(18, 36);
  }

  lemma {:induction false} Pow10Sum(a: nat, b: nat)
    ensures Pow10(a + b) == Pow10(a) * Pow10(b)
  {
    if a > 0 {
      Pow10Sum(a - 1, b);
    }
  }

  lemma DotIndexOf(whole: string, fraction: string)
    requires AllDigits(whole)
    ensures DotIndex(whole + "." + fraction) == |whole|
  {
    var s := whole + "." + fraction;
    assert s[|whole|] == '.';
    assert forall k :: 0 <= k < |whole| ==> s[k] == whole[k] && IsDigit(s[k]);
  }

  lemma PaddedFraction(f: nat)
    requires f < E18
    ensures var s := PadStart(Decimal(f), FRACTION_DIGITS); |s| == FRACTION_DIGITS && AllDigits(s) && Parse(s) == f
  {
    hide Parse, Decimal, Pow10, Zeros, Value;
    E18IsPow10();
    DecimalLength(f, FRACTION_DIGITS);
    ParseDecimal(f);
    var d := Decimal(f);
    ParseZeros(FRACTION_DIGITS - |d|);
    ParseConcat(Zeros(FRACTION_DIGITS - |d|), d);
  }

  lemma DisplayedWhole(w: nat)
    ensures ValidWhole(Decimal(w)) <==> w < Pow10(WHOLE_DIGITS)
  {
    DecimalLength(w, WHOLE_DIGITS);
    ParseDecimal(w);
    if w == 0 {
      assert Decimal(0) == "0";
      assert Pow10(WHOLE_DIGITS) > 0;
    } else if Decimal(w) == "0" {
      assert false;
    }
  }

  lemma WholeBound(n: nat, p: nat)
    ensures n / E18 < p <==> n < E18 * p
  {
  }

  lemma ReadsAs(whole: string, fraction: string)
    requires AllDigits(whole) && ValidFraction(fraction) && |fraction| == FRACTION_DIGITS
    ensures var s := whole + "." + fraction;
            && (ValidPrice(s) <==> ValidWhole(whole))
            && (ValidPrice(s) ==> Scaled(s) == Parse(whole) * E18 + Parse(fraction))
  {
    DotIndexOf(whole, fraction);
    var s := whole + "." + fraction;
    assert s[..|whole|] == whole && s[|whole| + 1..] == fraction;
    hide DotIndex, Parse, ValidWhole;
  }

  lemma PartsThenRead(w: nat, f: nat)
    requires f < E18
    ensures var r := PriceE18(Decimal(w) + "." + PadStart(Decimal(f), FRACTION_DIGITS));
            if w < Pow10(WHOLE_DIGITS) && w * E18 + f > 0 then r == Success(w * E18 + f) else r.Failure?
  {
    hide Pow10, Parse, Decimal, PadStart, ValidPrice, ValidWhole, Scaled;
    PaddedFraction(f);
    ReadsAs(Decimal(w), PadStart(Decimal(f), FRACTION_DIGITS));
    DisplayedWhole(w);
    ParseDecimal(w);
  }

  // Printing then reading gives the number back exactly when it is positive and has at most 36
  // whole digits; every other number is refused.
  lemma DisplayThenRead(n: nat)
    ensures if 0 < n < Pow10(54) then PriceE18(DisplayPrice(n)) == Success(n) else PriceE18(DisplayPrice(n)).Failure?
  {
    hide Pow10, PriceE18, Decimal, PadStart;
    PartsThenRead(n / E18, n % E18);
    E18IsPow10();
    WholeBound(n, Pow10(36));
  }

  lemma WholeAndFraction(w: nat, f: nat, p: nat)
    requires w < p && f < E18
    ensures w * E18 + f < E18 * p
  {
  }

  // Every price read is positive and below 10^54, so it can be printed and read again.
  lemma PricesAreBounded(s: string)
    ensures PriceE18(s).Success? ==> 0 < PriceE18(s).value < Pow10(54)
  {
    hide Pow10, Parse, DotIndex;
    if ValidPrice(s) {
      var i := DotIndex(s);
      var fraction := PadEnd(if i < |s| then s[i + 1..] else "", FRACTION_DIGITS);
      E18IsPow10();
      ParseBounded(s[..i]);
      Pow10Grows(|s[..i]|, WHOLE_DIGITS);
      ParseBounded(fraction);
      WholeAndFraction(Parse(s[..i]), Parse(fraction), Pow10(36));
    }
  }
}
