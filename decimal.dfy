/**
 * Decimal text of integers and of scale-2 amounts, as the JVM writes them:
 * Kotlin string templates over `Int`, `String.format("%03d", n)` and
 * `BigDecimal.toString()` for a value whose scale is 2.
 */
module Decimal {

  predicate IsDigit(c: char) { '0' <= c <= '9' }

  predicate AllDigits(s: string) { forall i :: 0 <= i < |s| ==> IsDigit(s[i]) }

  function DigitChar(d: int): (c: char)
    requires 0 <= d < 10
    ensures IsDigit(c) && c as int - '0' as int == d
  {
    ('0' as int + d) as char
  }

  function DigitValue(c: char): (d: nat)
    requires IsDigit(c)
    ensures d < 10 && DigitChar(d) == c
  {
    c as int - '0' as int
  }

  /** The shortest decimal digits of a natural number (no leading zero). */
  function NatDigits(n: nat): (s: string)
    ensures 1 <= |s| && AllDigits(s)
    ensures |s| > 1 ==> s[0] != '0'
    ensures n < 10 <==> |s| == 1
    decreases n
  {
    if n < 10 then [DigitChar(n)] else NatDigits(n / 10) + [DigitChar(n % 10)]
  }

  /** The value of a string of decimal digits, read left to right. */
  function ParseDigits(s: string): nat
    requires AllDigits(s)
    decreases |s|
  {
    if s == [] then 0 else ParseDigits(s[..|s| - 1]) * 10 + DigitValue(s[|s| - 1])
  }

  lemma {:induction false} ParseNatDigits(n: nat)
    ensures ParseDigits(NatDigits(n)) == n
    decreases n
  {
    if n >= 10 {
      var s := NatDigits(n);
      assert s[..|s| - 1] == NatDigits(n / 10);
      ParseNatDigits(n / 10);
    }
  }

  /** Leading zeros do not change the value of a digit string. */
  lemma {:induction false} ParseLeadingZero(s: string)
    requires AllDigits(s)
    ensures ParseDigits(['0'] + s) == ParseDigits(s)
    decreases |s|
  {
    if s != [] {
      var t := ['0'] + s;
      assert t[..|t| - 1] == ['0'] + s[..|s| - 1];
      ParseLeadingZero(s[..|s| - 1]);
    }
  }

  /** How Kotlin and Java write an `Int` or `Long` in decimal. */
  function IntToString(n: int): (s: string)
    ensures 1 <= |s|
    ensures n >= 0 <==> IsDigit(s[0])
    ensures n < 0 <==> s[0] == '-'
  {
    if n < 0 then "-" + NatDigits(-n) else NatDigits(n)
  }

  /** Reads back the text `IntToString` writes. */
  function ParseInt(s: string): int
  {
    if |s| > 0 && s[0] == '-' && AllDigits(s[1..]) then 0 - ParseDigits(s[1..])
    else if AllDigits(s) then ParseDigits(s)
    else 0
  }

  lemma IntToStringRoundTrip(n: int)
    ensures ParseInt(IntToString(n)) == n
  {
    if n < 0 {
      var d := NatDigits(-n);
      assert IntToString(n) == "-" + d;
      assert ("-" + d)[1..] == d;
      ParseNatDigits(-n);
    } else {
      ParseNatDigits(n);
      assert IntToString(n) == NatDigits(n);
    }
  }

  lemma IntToStringInjective(a: int, b: int)
    requires IntToString(a) == IntToString(b)
    ensures a == b
  {
    IntToStringRoundTrip(a);
    IntToStringRoundTrip(b);
  }

  /** Left-pads digits with '0' up to `width` characters. */
  function PadZeros(s: string, width: nat): (r: string)
    requires AllDigits(s)
    ensures AllDigits(r)
    ensures |r| == if |s| >= width then |s| else width
    ensures ParseDigits(r) == ParseDigits(s)
    decreases width - |s|
  {
    if |s| >= width then s
    else
      ParseLeadingZero(s);
      PadZeros(['0'] + s, width)
  }

  /**
   * Java's `String.format("%0<width>d", n)`: the minus sign, if any, counts
   * towards the width, and the zeros go between the sign and the digits.
   */
  function FormatZeroPadded(n: int, width: nat): (s: string)
  {
    if n < 0 then "-" + PadZeros(NatDigits(-n), if width > 0 then width - 1 else 0)
    else PadZeros(NatDigits(n), width)
  }

  lemma FormatZeroPaddedValue(n: int, width: nat)
    ensures ParseInt(FormatZeroPadded(n, width)) == n
    ensures |FormatZeroPadded(n, width)| >= width
  {
    if n < 0 {
      var d := PadZeros(NatDigits(-n), if width > 0 then width - 1 else 0);
      assert FormatZeroPadded(n, width) == "-" + d;
      assert ("-" + d)[1..] == d;
      ParseNatDigits(-n);
    } else {
      ParseNatDigits(n);
    }
  }

  lemma FormatZeroPaddedInjective(a: int, b: int, width: nat)
    requires FormatZeroPadded(a, width) == FormatZeroPadded(b, width)
    ensures a == b
  {
    FormatZeroPaddedValue(a, width);
    FormatZeroPaddedValue(b, width);
  }

  /**
   * `BigDecimal.toString()` of a value of scale 2 whose unscaled value is
   * `hundredths`: plain notation, two fraction digits, e.g. "-0.50".
   */
  function FormatAmount(hundredths: int): (s: string)
  {
    var m: nat := if hundredths < 0 then -hundredths else hundredths;
    (if hundredths < 0 then "-" else "") + UnsignedAmount(m)
  }

  /** Reads back the text `FormatAmount` writes. */
  function ParseAmount(s: string): int
  {
    if |s| > 0 && s[0] == '-' then 0 - ParseUnsignedAmount(s[1..]) else ParseUnsignedAmount(s)
  }

  /** Reads back the text `UnsignedAmount` writes. */
  function ParseUnsignedAmount(body: string): int
  {
    if |body| >= 4 && body[|body| - 3] == '.'
       && AllDigits(body[..|body| - 3]) && AllDigits(body[|body| - 2..])
    then ParseDigits(body[..|body| - 3]) * 100 + ParseDigits(body[|body| - 2..])
    else 0
  }

  lemma ParseTwoDigits(m: nat)
    ensures ParseDigits([DigitChar(m % 100 / 10), DigitChar(m % 10)]) == m % 100
  {
    var t := [DigitChar(m % 100 / 10), DigitChar(m % 10)];
    assert t[..|t| - 1] == [DigitChar(m % 100 / 10)];
    assert [DigitChar(m % 100 / 10)][..0] == [];
    assert ParseDigits([DigitChar(m % 100 / 10)]) == m % 100 / 10;
  }

  /** The unsigned part of `FormatAmount`. */
  function UnsignedAmount(m: nat): (s: string)
  {
    NatDigits(m / 100) + "." + [DigitChar(m % 100 / 10), DigitChar(m % 10)]
  }

  lemma UnsignedAmountParts(m: nat)
    ensures var s := UnsignedAmount(m);
      |s| >= 4 && s[|s| - 3] == '.'
      && s[..|s| - 3] == NatDigits(m / 100)
      && s[|s| - 2..] == [DigitChar(m % 100 / 10), DigitChar(m % 10)]
  {
  }

  lemma UnsignedAmountRoundTrip(m: nat)
    ensures ParseUnsignedAmount(UnsignedAmount(m)) == m
    ensures UnsignedAmount(m)[0] != '-'
  {
    var body := UnsignedAmount(m);
    UnsignedAmountParts(m);
    ParseNatDigits(m / 100);
    ParseTwoDigits(m);
    assert body[0] == NatDigits(m / 100)[0];
  }

  lemma FormatAmountRoundTrip(hundredths: int)
    ensures ParseAmount(FormatAmount(hundredths)) == hundredths
  {
    var m: nat := if hundredths < 0 then -hundredths else hundredths;
    var body := UnsignedAmount(m);
    UnsignedAmountRoundTrip(m);
    if hundredths < 0 {
      assert FormatAmount(hundredths) == "-" + body;
      assert ("-" + body)[1..] == body;
    } else {
      assert FormatAmount(hundredths) == body;
    }
  }

  /** Distinct amounts are written differently. */
  lemma FormatAmountInjective(a: int, b: int)
    requires FormatAmount(a) == FormatAmount(b)
    ensures a == b
  {
    FormatAmountRoundTrip(a);
    FormatAmountRoundTrip(b);
  }
}
