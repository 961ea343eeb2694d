/**
 * `CodeGenerator`: a product code is "P" and a raw-material code "RM",
 * followed by the next value of a database sequence written with at least
 * three digits. The sequence value is an input of the model.
 */
module CodeGenerator {
  import opened Decimal

  /** `"P" + String.format("%03d", nextValue)`. */
  function ProductCode(nextValue: int): (code: string)
    ensures |code| >= 4 && code[0] == 'P'
  {
    FormatZeroPaddedValue(nextValue, 3);
    "P" + FormatZeroPadded(nextValue, 3)
  }

  /** `"RM" + String.format("%03d", nextValue)`. */
  function RawMaterialCode(nextValue: int): (code: string)
    ensures |code| >= 5 && code[..2] == "RM"
  {
    FormatZeroPaddedValue(nextValue, 3);
    "RM" + FormatZeroPadded(nextValue, 3)
  }

  /** A sequence value below 1000 is written as exactly three digits. */
  lemma ThreeDigits(v: int)
    requires 0 <= v <= 999
    ensures FormatZeroPadded(v, 3) == [DigitChar(v / 100), DigitChar(v / 10 % 10), DigitChar(v % 10)]
  {
    var d := DigitChar(v % 10);
    assert DigitChar(0) == '0';
    if v < 10 {
      assert NatDigits(v) == [d];
      assert ['0'] + [d] == ['0', d] && ['0'] + ['0', d] == ['0', '0', d];
      assert PadZeros([d], 3) == PadZeros(['0', d], 3) == PadZeros(['0', '0', d], 3);
    } else if v < 100 {
      var e := DigitChar(v / 10);
      assert NatDigits(v / 10) == [e];
      assert NatDigits(v) == [e, d];
      assert ['0'] + [e, d] == ['0', e, d];
      assert PadZeros([e, d], 3) == PadZeros(['0', e, d], 3);
    } else {
      assert NatDigits(v / 100) == [DigitChar(v / 100)];
      assert NatDigits(v / 10) == [DigitChar(v / 100), DigitChar(v / 10 % 10)];
      assert NatDigits(v) == [DigitChar(v / 100), DigitChar(v / 10 % 10), d];
    }
  }

  /** Values 0 to 999 give "P000" to "P999": the prefix and the value's three digits. */
  lemma ProductCodeShape(v: int)
    requires 0 <= v <= 999
    ensures ProductCode(v) == ['P', DigitChar(v / 100), DigitChar(v / 10 % 10), DigitChar(v % 10)]
  {
    ThreeDigits(v);
  }

  lemma RawMaterialCodeShape(v: int)
    requires 0 <= v <= 999
    ensures RawMaterialCode(v) == ['R', 'M', DigitChar(v / 100), DigitChar(v / 10 % 10), DigitChar(v % 10)]
  {
    ThreeDigits(v);
  }

  /** The digits after the prefix read back as the sequence value, for every value. */
  lemma CodesEncodeValue(v: int)
    ensures ParseInt(ProductCode(v)[1..]) == v
    ensures ParseInt(RawMaterialCode(v)[2..]) == v
  {
    FormatZeroPaddedValue(v, 3);
    assert ProductCode(v)[1..] == FormatZeroPadded(v, 3);
    assert RawMaterialCode(v)[2..] == FormatZeroPadded(v, 3);
  }

  /** Distinct sequence values give distinct codes. */
  lemma CodesInjective(a: int, b: int)
    ensures ProductCode(a) == ProductCode(b) ==> a == b
    ensures RawMaterialCode(a) == RawMaterialCode(b) ==> a == b
  {
    CodesEncodeValue(a);
    CodesEncodeValue(b);
  }

  /** A product code never equals a raw-material code. */
  lemma ProductAndRawMaterialCodesDiffer(a: int, b: int)
    ensures ProductCode(a) != RawMaterialCode(b)
  {
    assert ProductCode(a)[0] == 'P' && RawMaterialCode(b)[0] == 'R';
  }
}
