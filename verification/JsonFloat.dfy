// Printing a floating-point video size the way the native client prints it: the text must denote the
// number it was printed from.
module JsonFloat {
  import opened Outcomes
  import opened Revisions
  import opened Sequences

  /** What toExponential gives for a number: its significant digits, as few as identify it, and the power
      of ten of the first of them. */
  datatype Float =
    | Zero(negative: bool)
    | Finite(negative: bool, digits: string, exponent: int)

  predicate IsFloat(f: Float) {
    f.Finite? ==> |f.digits| > 0 && f.digits[0] != '0' && forall i :: 0 <= i < |f.digits| ==> IsDigit(f.digits[i])
  }

  function ZerosText(n: nat): string {
    seq(n, i => '0')
  }

  function PrintInt(n: int): string {
    if n < 0 then "-" + Print(-n) else Print(n)
  }

  /** The branches of formatRustJsonFloat, without the sign. */
  function FormatDigits(digits: string, exponent: int): string
    requires |digits| > 0
  {
    var decimalPosition := exponent + 1;
    var trailingZeroes := decimalPosition - |digits|;
    if trailingZeroes >= 0 && decimalPosition <= 16 then digits + ZerosText(trailingZeroes) + ".0"
    else if 0 < decimalPosition <= 16 then digits[..decimalPosition] + "." + digits[decimalPosition..]
    else if -5 < decimalPosition <= 0 then "0." + ZerosText(-decimalPosition) + digits
    else if |digits| == 1 then digits + "e" + PrintInt(exponent)
    else [digits[0]] + "." + digits[1..] + "e" + PrintInt(exponent)
  }

  /** formatRustJsonFloat. */
  function Format(f: Float): string
    requires IsFloat(f)
  {
    var body := if f.Zero? then "0.0" else FormatDigits(f.digits, f.exponent);
    if f.negative then "-" + body else body
  }

  // ---------------------------------------------------------------- what a number text denotes

  function ReadInt(text: string): int {
    if |text| > 0 && text[0] == '-' then -Value(text[1..]) else Value(text)
  }

  /** A number as `digits` times ten to the power `scale`. */
  datatype Decimal = Decimal(negative: bool, digits: int, scale: int)

  function ReadUnsigned(text: string, negative: bool): Decimal {
    var e := IndexOf(text, 'e');
    var mantissa := text[..e];
    var power := if e < |text| then ReadInt(text[e + 1..]) else 0;
    var point := IndexOf(mantissa, '.');
    var fraction := if point < |mantissa| then mantissa[point + 1..] else [];
    Decimal(negative, Value(mantissa[..point] + fraction), power - |fraction|)
  }

  /** The number a JSON text denotes: section 6 of RFC 8259. */
  function Read(text: string): Decimal {
    if |text| > 0 && text[0] == '-' then ReadUnsigned(text[1..], true) else ReadUnsigned(text, false)
  }

  predicate SameNumber(a: Decimal, b: Decimal) {
    && a.negative == b.negative
    && (if a.scale <= b.scale then a.digits == b.digits * Power10(b.scale - a.scale)
        else b.digits == a.digits * Power10(a.scale - b.scale))
  }

  function Denoted(f: Float): Decimal {
    match f
    case Zero(negative) => Decimal(negative, 0, 0)
    case Finite(negative, digits, exponent) => Decimal(negative, Value(digits), exponent - |digits| + 1)
  }

  // ---------------------------------------------------------------- proofs

  lemma {:induction false} ValueOfAppendedZeros(digits: string, n: nat)
    ensures Value(digits + ZerosText(n)) == Value(digits) * Power10(n)
  {
    var text := digits + ZerosText(n);
    if n == 0 {
      assert text == digits;
    } else {
      assert text[..|text| - 1] == digits + ZerosText(n - 1) && text[|text| - 1] == '0';
      ValueOfAppendedZeros(digits, n - 1);
    }
  }

  lemma {:induction false} ValueOfLeadingZeros(n: nat, digits: string)
    ensures Value(ZerosText(n) + digits) == Value(digits)
    decreases n + |digits|
  {
    var text := ZerosText(n) + digits;
    if |digits| > 0 {
      assert text[..|text| - 1] == ZerosText(n) + digits[..|digits| - 1];
      ValueOfLeadingZeros(n, digits[..|digits| - 1]);
    } else if n > 0 {
      assert text[..|text| - 1] == ZerosText(n - 1) + digits;
      ValueOfLeadingZeros(n - 1, digits);
    } else {
      assert text == digits;
    }
  }

  lemma IndexIs(text: string, c: char, i: nat)
    requires i <= |text| && (i < |text| ==> text[i] == c) && forall j :: 0 <= j < i ==> text[j] != c
    ensures IndexOf(text, c) == i
  {
  }

  predicate Digits(text: string) {
    forall i :: 0 <= i < |text| ==> IsDigit(text[i])
  }

  /** A point and no exponent. */
  lemma ReadPlain(whole: string, fraction: string, negative: bool)
    requires Digits(whole) && Digits(fraction)
    ensures ReadUnsigned(whole + "." + fraction, negative) == Decimal(negative, Value(whole + fraction), -|fraction|)
  {
    var text := whole + "." + fraction;
    IndexIs(text, 'e', |text|);
    assert text[..|text|] == text;
    IndexIs(text, '.', |whole|);
    assert text[..|whole|] == whole && text[|whole| + 1..] == fraction;
  }

  lemma ReadIntOfPrint(n: int)
    ensures ReadInt(PrintInt(n)) == n
  {
    ValueOfPrint(if n < 0 then -n else n);
    if n < 0 {
      assert PrintInt(n)[1..] == Print(-n);
    } else {
      assert IsCanonical(Print(n)) && IsDigit(Print(n)[0]);
    }
  }

  /** An exponent behind a point. */
  lemma ReadPower(whole: string, fraction: string, power: int, negative: bool)
    requires Digits(whole) && Digits(fraction)
    ensures ReadUnsigned(whole + "." + fraction + "e" + PrintInt(power), negative)
         == Decimal(negative, Value(whole + fraction), power - |fraction|)
  {
    hide Value, PrintInt, IndexOf, ReadInt;
    ReadIntOfPrint(power);
    var mantissa := whole + "." + fraction;
    var text := mantissa + "e" + PrintInt(power);
    IndexIs(text, 'e', |mantissa|);
    assert text[..|mantissa|] == mantissa && text[|mantissa| + 1..] == PrintInt(power);
    IndexIs(mantissa, '.', |whole|);
    assert mantissa[..|whole|] == whole && mantissa[|whole| + 1..] == fraction;
  }

  /** An exponent behind a whole number. */
  lemma ReadWholePower(whole: string, power: int, negative: bool)
    requires Digits(whole)
    ensures ReadUnsigned(whole + "e" + PrintInt(power), negative) == Decimal(negative, Value(whole), power)
  {
    hide Value, PrintInt, IndexOf, ReadInt;
    ReadIntOfPrint(power);
    var text := whole + "e" + PrintInt(power);
    IndexIs(text, 'e', |whole|);
    assert text[..|whole|] == whole && text[|whole| + 1..] == PrintInt(power);
    IndexIs(whole, '.', |whole|);
    assert whole[..|whole|] + [] == whole;
  }

  /** Branch 1: the digits end before the point. */
  lemma WholeDenotes(digits: string, zeroes: nat, negative: bool)
    requires Digits(digits)
    ensures ReadUnsigned(digits + ZerosText(zeroes) + ".0", negative)
         == Decimal(negative, Value(digits) * Power10(zeroes + 1), -1)
  {
    hide ReadUnsigned, Value, Power10;
    ReadPlain(digits + ZerosText(zeroes), "0", negative);
    assert digits + ZerosText(zeroes) + ".0" == digits + ZerosText(zeroes) + "." + "0";
    assert digits + ZerosText(zeroes) + "0" == digits + ZerosText(zeroes + 1);
    ValueOfAppendedZeros(digits, zeroes + 1);
  }

  /** Branch 2: the point falls among the digits. */
  lemma SplitDenotes(digits: string, position: nat, negative: bool)
    requires Digits(digits) && position <= |digits|
    ensures ReadUnsigned(digits[..position] + "." + digits[position..], negative)
         == Decimal(negative, Value(digits), position - |digits|)
  {
    hide ReadUnsigned, Value;
    ReadPlain(digits[..position], digits[position..], negative);
    assert digits[..position] + digits[position..] == digits;
  }

  /** Branch 3: the digits begin behind the point. */
  lemma FractionDenotes(digits: string, zeroes: int, negative: bool)
    requires Digits(digits) && zeroes >= 0
    ensures ReadUnsigned("0." + ZerosText(zeroes) + digits, negative)
        == Decimal(negative, Value(digits), -zeroes - |digits|)
  {
    hide ReadUnsigned, Value;
    ReadPlain("0", ZerosText(zeroes) + digits, negative);
    assert "0." + ZerosText(zeroes) + digits == "0" + "." + (ZerosText(zeroes) + digits);
    assert "0" + (ZerosText(zeroes) + digits) == ZerosText(zeroes + 1) + digits;
    ValueOfLeadingZeros(zeroes + 1, digits);
  }

  /** Branches 4 and 5: scientific notation. */
  lemma ScientificDenotes(digits: string, exponent: int, negative: bool)
    requires Digits(digits) && |digits| > 0
    ensures ReadUnsigned([digits[0]] + "." + digits[1..] + "e" + PrintInt(exponent), negative)
         == Decimal(negative, Value(digits), exponent - |digits| + 1)
    ensures ReadUnsigned(digits + "e" + PrintInt(exponent), negative) == Decimal(negative, Value(digits), exponent)
  {
    hide ReadUnsigned, Value, PrintInt;
    ReadPower([digits[0]], digits[1..], exponent, negative);
    ReadWholePower(digits, exponent, negative);
    assert [digits[0]] + digits[1..] == digits;
  }

  predicate BodyDenotes(digits: string, exponent: int, negative: bool)
    requires |digits| > 0
  {
    SameNumber(ReadUnsigned(FormatDigits(digits, exponent), negative),
               Decimal(negative, Value(digits), exponent - |digits| + 1))
  }

  lemma WholeBody(digits: string, exponent: int, negative: bool)
    requires |digits| > 0 && Digits(digits) && exponent + 1 >= |digits| && exponent + 1 <= 16
    ensures BodyDenotes(digits, exponent, negative)
  {
    hide ReadUnsigned, Value, ZerosText, Power10, SameNumber, Digits;
    WholeDenotes(digits, exponent + 1 - |digits|, negative);
    Rescaled(negative, Value(digits), exponent + 1 - |digits|);
  }

  lemma SplitBody(digits: string, exponent: int, negative: bool)
    requires |digits| > 0 && Digits(digits) && 0 < exponent + 1 < |digits| && exponent + 1 <= 16
    ensures BodyDenotes(digits, exponent, negative)
  {
    hide ReadUnsigned, Value, SameNumber, Digits;
    SplitDenotes(digits, exponent + 1, negative);
    SameScale(negative, Value(digits), exponent + 1 - |digits|);
  }

  lemma FractionBody(digits: string, exponent: int, negative: bool)
    requires |digits| > 0 && Digits(digits) && -5 < exponent + 1 <= 0
    ensures BodyDenotes(digits, exponent, negative)
  {
    hide ReadUnsigned, Value, ZerosText, SameNumber, Digits;
    FractionDenotes(digits, -(exponent + 1), negative);
    SameScale(negative, Value(digits), exponent + 1 - |digits|);
  }

  lemma ScientificBody(digits: string, exponent: int, negative: bool)
    requires |digits| > 0 && Digits(digits) && (exponent + 1 <= -5 || exponent + 1 > 16)
    ensures BodyDenotes(digits, exponent, negative)
  {
    hide ReadUnsigned, Value, PrintInt, SameNumber, Digits;
    ScientificDenotes(digits, exponent, negative);
    SameScale(negative, Value(digits), exponent + 1 - |digits|);
  }

  lemma FormattedDigitsDenote(digits: string, exponent: int, negative: bool)
    requires |digits| > 0 && Digits(digits)
    ensures BodyDenotes(digits, exponent, negative)
  {
    hide BodyDenotes, Digits;
    var position := exponent + 1;
    if position >= |digits| && position <= 16 {
      WholeBody(digits, exponent, negative);
    } else if 0 < position <= 16 {
      SplitBody(digits, exponent, negative);
    } else if -5 < position <= 0 {
      FractionBody(digits, exponent, negative);
    } else {
      ScientificBody(digits, exponent, negative);
    }
  }

  lemma SameScale(negative: bool, digits: int, scale: int)
    ensures SameNumber(Decimal(negative, digits, scale), Decimal(negative, digits, scale))
  {
    assert Power10(0) == 1;
  }

  lemma Rescaled(negative: bool, digits: int, scale: nat)
    ensures SameNumber(Decimal(negative, digits * Power10(scale + 1), -1), Decimal(negative, digits, scale))
  {
    hide Power10;
  }

  lemma NoSignInDigits(digits: string, exponent: int)
    requires |digits| > 0 && Digits(digits)
    ensures |FormatDigits(digits, exponent)| > 0 && FormatDigits(digits, exponent)[0] != '-'
  {
    hide PrintInt;
  }

  /** Whatever branch prints it, the text denotes the number it was printed from. */
  lemma FormatDenotesItsNumber(f: Float)
    requires IsFloat(f)
    ensures SameNumber(Read(Format(f)), Denoted(f))
  {
    hide ReadUnsigned, FormatDigits, Value, Power10;
    if f.Zero? {
      ZeroDenotes(f.negative);
      SignReads("0.0", f.negative);
    } else {
      FormattedDigitsDenote(f.digits, f.exponent, f.negative);
      NoSignInDigits(f.digits, f.exponent);
      SignReads(FormatDigits(f.digits, f.exponent), f.negative);
    }
  }

  lemma SignReads(body: string, negative: bool)
    requires |body| > 0 && body[0] != '-'
    ensures Read(if negative then "-" + body else body) == ReadUnsigned(body, negative)
  {
    hide ReadUnsigned;
    assert ("-" + body)[1..] == body;
  }

  lemma ZeroDenotes(negative: bool)
    ensures SameNumber(ReadUnsigned("0.0", negative), Decimal(negative, 0, 0))
  {
    hide ReadUnsigned, Power10;
    ReadPlain("0", "0", negative);
    assert "0" + "." + "0" == "0.0" && "0" + "0" == ZerosText(2) + "";
    ValueOfLeadingZeros(2, "");
  }

  // ---------------------------------------------------------------- which form is printed

  /** Digits on both sides of the point, and no zero too many on either. */
  predicate PlainParts(whole: string, fraction: string, digits: string)
    requires |digits| > 0
  {
    && Digits(whole) && Digits(fraction) && |whole| > 0 && |fraction| > 0
    && (whole == "0" || whole[0] != '0')
    && (fraction == "0" || fraction[|fraction| - 1] == digits[|digits| - 1])
  }

  ghost predicate IsPlain(text: string, digits: string)
    requires |digits| > 0
  {
    exists whole: string, fraction: string :: PlainParts(whole, fraction, digits) && text == whole + "." + fraction
  }

  /** One digit before the point, and an exponent. */
  predicate IsScientific(text: string, digits: string, exponent: int)
    requires |digits| > 0
  {
    text == (if |digits| == 1 then digits else [digits[0]] + "." + digits[1..]) + "e" + PrintInt(exponent)
  }

  lemma PlainIs(text: string, whole: string, fraction: string, digits: string)
    requires |digits| > 0 && PlainParts(whole, fraction, digits) && text == whole + "." + fraction
    ensures IsPlain(text, digits) && 'e' !in text
  {
    forall i | 0 <= i < |text| ensures text[i] != 'e' {
      if i > |whole| {
        assert text[i] == fraction[i - |whole| - 1];
      }
    }
  }

  lemma LargeIsPlain(digits: string, zeroes: nat)
    requires |digits| > 0 && Digits(digits) && digits[0] != '0'
    ensures PlainParts(digits + ZerosText(zeroes), "0", digits)
  {
    var whole := digits + ZerosText(zeroes);
    assert forall i :: 0 <= i < |whole| ==> whole[i] == if i < |digits| then digits[i] else '0';
  }

  lemma SplitIsPlain(digits: string, position: nat)
    requires 0 < position < |digits| && Digits(digits) && digits[0] != '0'
    ensures PlainParts(digits[..position], digits[position..], digits)
  {
  }

  lemma SmallIsPlain(digits: string, zeroes: nat)
    requires |digits| > 0 && Digits(digits)
    ensures PlainParts("0", ZerosText(zeroes) + digits, digits)
  {
    var fraction := ZerosText(zeroes) + digits;
    assert forall i :: 0 <= i < |fraction| ==> fraction[i] == if i < zeroes then '0' else digits[i - zeroes];
  }

  /** Powers of ten from -5 to 15 are printed plainly, all others with an exponent. */
  lemma FormIsByMagnitude(f: Float)
    requires IsFloat(f) && f.Finite?
    ensures
      var text := FormatDigits(f.digits, f.exponent);
      && Format(f) == (if f.negative then "-" + text else text)
      && if -5 <= f.exponent < 16 then IsPlain(text, f.digits) && 'e' !in text
         else IsScientific(text, f.digits, f.exponent) && 'e' in text
  {
    hide PrintInt, IsPlain, PlainParts;
    var digits, text, position := f.digits, FormatDigits(f.digits, f.exponent), f.exponent + 1;
    if position <= -5 || position > 16 {
      ScientificHasExponent(text, digits, f.exponent);
    } else if position >= |digits| {
      LargeIsPlain(digits, position - |digits|);
      assert text == (digits + ZerosText(position - |digits|)) + "." + "0";
      PlainIs(text, digits + ZerosText(position - |digits|), "0", digits);
    } else if position > 0 {
      SplitIsPlain(digits, position);
      PlainIs(text, digits[..position], digits[position..], digits);
    } else {
      SmallIsPlain(digits, -position);
      assert text == "0" + "." + (ZerosText(-position) + digits);
      PlainIs(text, "0", ZerosText(-position) + digits, digits);
    }
  }

  lemma ScientificHasExponent(text: string, digits: string, exponent: int)
    requires |digits| > 0 && IsScientific(text, digits, exponent)
    ensures 'e' in text
  {
    hide PrintInt;
    var mantissa := if |digits| == 1 then digits else [digits[0]] + "." + digits[1..];
    assert text[|mantissa|] == 'e';
  }

  // ---------------------------------------------------------------- whole numbers

  const MAX_UNSIGNED_64: int := 18_446_744_073_709_551_615
  const MAX_SIGNED_64_MAGNITUDE: int := 9_223_372_036_854_775_808

  ghost predicate IsJsonInteger(value: string) {
    IsCanonical(if |value| > 0 && value[0] == '-' then value[1..] else value)
  }

  ghost predicate IsWholeSize(value: string) {
    IsJsonInteger(value) && value != "-0" && -MAX_SIGNED_64_MAGNITUDE <= ReadInt(value) <= MAX_UNSIGNED_64
  }

  /** The raw text of parseVideoSize: `number` is what Number makes of the value, if the value is a JSON number
      and the result is finite. */
  ghost function ParseVideoSize(value: string, number: Option<Float>): Option<string>
    requires number.Some? ==> IsFloat(number.value)
  {
    if number.None? then None
    else if IsWholeSize(value) then Some(PrintInt(ReadInt(value)))
    else Some(Format(number.value))
  }

  /** A size that fits 64 bits is kept digit for digit, also where a float would round it; any other size is
      printed as the float it was read as. */
  lemma WholeSizesAreKept(value: string, number: Float)
    requires IsFloat(number)
    ensures
      var raw := ParseVideoSize(value, Some(number));
      && raw.Some?
      && if IsWholeSize(value) then raw.value == value else SameNumber(Read(raw.value), Denoted(number))
  {
    hide Value, Format, SameNumber, Read, Print;
    FormatDenotesItsNumber(number);
    if IsWholeSize(value) {
      if value[0] == '-' {
        PrintOfValue(value[1..]);
        ValueIsNat(value[1..]);
        assert value == "-" + value[1..];
        NegativeIsNotZero(value[1..]);
      } else {
        PrintOfValue(value);
        ValueIsNat(value);
      }
    }
  }

  lemma NegativeIsNotZero(digits: string)
    requires IsCanonical(digits) && digits != "0"
    ensures Value(digits) != 0
  {
    PrintOfValue(digits);
  }
}
