// encodeURIComponent and decodeURIComponent over UTF-16 text (section 2.1 of RFC 3986, and the UTF-8
// rules of RFC 3629 that both functions enforce).
module UriComponent {
  import opened Outcomes

  /** One UTF-16 code unit. */
  type Unit = u: int | 0 <= u < 0x1_0000

  type Text = seq<Unit>

  type Byte = b: int | 0 <= b < 256

  const PERCENT: Unit := 0x25

  predicate IsDigit(u: Unit) {
    0x30 <= u <= 0x39
  }

  predicate IsLetter(u: Unit) {
    0x41 <= u <= 0x5a || 0x61 <= u <= 0x7a
  }

  /** What encodeURIComponent leaves alone: letters, digits and - _ . ! ~ * ' ( ). */
  predicate IsUnreserved(u: Unit) {
    IsLetter(u) || IsDigit(u) || u in {0x2d, 0x5f, 0x2e, 0x21, 0x7e, 0x2a, 0x27, 0x28, 0x29}
  }

  predicate IsHigh(u: Unit) {
    0xd800 <= u <= 0xdbff
  }

  predicate IsLow(u: Unit) {
    0xdc00 <= u <= 0xdfff
  }

  // ---------------------------------------------------------------- code points

  predicate IsScalar(cp: int) {
    0 <= cp < 0x11_0000 && !(0xd800 <= cp < 0xe000)
  }

  type Scalar = cp: int | 0 <= cp < 0x11_0000 && !(0xd800 <= cp < 0xe000)

  function Join(high: Unit, low: Unit): (cp: Scalar)
    requires IsHigh(high) && IsLow(low)
    ensures cp >= 0x1_0000
  {
    0x1_0000 + (high - 0xd800) * 0x400 + (low - 0xdc00)
  }

  /** A code point as UTF-16. */
  function Units(cp: Scalar): Text {
    if cp < 0x1_0000 then var unit: Unit := cp; [unit]
    else
      var high: Unit, low: Unit := 0xd800 + (cp - 0x1_0000) / 0x400, 0xdc00 + (cp - 0x1_0000) % 0x400;
      [high, low]
  }

  /** A code point as UTF-8. */
  function Utf8(cp: Scalar): (bytes: seq<Byte>)
    ensures 1 <= |bytes| <= 4
  {
    if cp < 0x80 then var only: Byte := cp; [only]
    else if cp < 0x800 then [Lead(0xc0, cp / 0x40), Tail(cp)]
    else if cp < 0x1_0000 then [Lead(0xe0, cp / 0x1000), Tail(cp / 0x40), Tail(cp)]
    else [Lead(0xf0, cp / 0x4_0000), Tail(cp / 0x1000), Tail(cp / 0x40), Tail(cp)]
  }

  /** A leading byte: a mark and the highest bits. */
  function Lead(mark: nat, bits: int): Byte
    requires 0 <= bits && mark + bits < 256
  {
    mark + bits
  }

  /** A continuation byte: the lowest six bits. */
  function Tail(n: nat): Byte {
    0x80 + n % 0x40
  }

  function Bits(b: Byte, count: nat): nat
    requires count > 0
  {
    var n: int := b;
    n % count
  }

  predicate IsContinuation(b: Byte) {
    b / 0x40 == 2
  }

  /** How many bytes a leading byte announces; none for a continuation byte or an impossible one. */
  function Announced(b: Byte): nat {
    if b < 0x80 then 1 else if b < 0xc0 then 0 else if b < 0xe0 then 2
    else if b < 0xf0 then 3 else if b < 0xf8 then 4 else 0
  }

  /** The number that a UTF-8 sequence denotes, before any check. */
  function Payload(bytes: seq<Byte>): int
    requires |bytes| > 0 && |bytes| == Announced(bytes[0])
  {
    if |bytes| == 1 then bytes[0]
    else if |bytes| == 2 then Bits(bytes[0], 0x20) * 0x40 + Bits(bytes[1], 0x40)
    else if |bytes| == 3 then
      Bits(bytes[0], 0x10) * 0x1000 + Bits(bytes[1], 0x40) * 0x40 + Bits(bytes[2], 0x40)
    else
      Bits(bytes[0], 0x8) * 0x4_0000 + Bits(bytes[1], 0x40) * 0x1000 + Bits(bytes[2], 0x40) * 0x40
        + Bits(bytes[3], 0x40)
  }

  /** Overlong forms, surrogates and numbers beyond the last code point are malformed. */
  function FromUtf8(bytes: seq<Byte>): Result<Scalar, ()>
    requires |bytes| > 0 && |bytes| == Announced(bytes[0])
  {
    var cp := Payload(bytes);
    if (forall i :: 1 <= i < |bytes| ==> IsContinuation(bytes[i])) && IsScalar(cp) && |Utf8(cp)| == |bytes| then Ok(cp)
    else Err(())
  }

  // ---------------------------------------------------------------- escapes

  function HexDigit(d: nat): Unit
    requires d < 16
  {
    if d < 10 then 0x30 + d else 0x41 + d - 10
  }

  function HexValue(u: Unit): Option<nat> {
    if IsDigit(u) then Some(u - 0x30)
    else if 0x41 <= u <= 0x46 then Some(u - 0x41 + 10)
    else if 0x61 <= u <= 0x66 then Some(u - 0x61 + 10)
    else None
  }

  function Escape(b: Byte): Text {
    [PERCENT, HexDigit(b / 16), HexDigit(b % 16)]
  }

  function EscapeAll(bytes: seq<Byte>): (text: Text)
    ensures |text| == 3 * |bytes|
  {
    if |bytes| == 0 then [] else Escape(bytes[0]) + EscapeAll(bytes[1..])
  }

  /** The byte of the escape at the start of the text. */
  function ReadEscape(text: Text): Result<Byte, ()> {
    if |text| < 3 || text[0] != PERCENT || HexValue(text[1]).None? || HexValue(text[2]).None? then Err(())
    else Ok(16 * HexValue(text[1]).value + HexValue(text[2]).value)
  }

  function ReadEscapes(text: Text, n: nat): (bytes: Result<seq<Byte>, ()>)
    ensures bytes.Ok? ==> |bytes.value| == n && |text| >= 3 * n
  {
    if n == 0 then Ok([])
    else
      var head := ReadEscape(text);
      if head.Err? then Err(())
      else
        var rest := ReadEscapes(text[3..], n - 1);
        if rest.Err? then Err(()) else Ok([head.value] + rest.value)
  }

  // ---------------------------------------------------------------- the two functions

  /** encodeURIComponent: lone surrogates are refused. */
  function Encode(text: Text): Result<Text, ()> {
    if |text| == 0 then Ok([])
    else if IsLow(text[0]) || (IsHigh(text[0]) && (|text| < 2 || !IsLow(text[1]))) then Err(())
    else
      var n := if IsHigh(text[0]) then 2 else 1;
      var cp := if n == 2 then Join(text[0], text[1]) else text[0];
      var rest := Encode(text[n..]);
      if rest.Err? then Err(())
      else Ok((if IsUnreserved(text[0]) then [text[0]] else EscapeAll(Utf8(cp))) + rest.value)
  }

  /** decodeURIComponent: escapes must spell well-formed UTF-8. */
  function Decode(text: Text): Result<Text, ()> {
    if |text| == 0 then Ok([])
    else if text[0] != PERCENT then
      var rest := Decode(text[1..]);
      if rest.Err? then Err(()) else Ok([text[0]] + rest.value)
    else
      var first := ReadEscape(text);
      if first.Err? || Announced(first.value) == 0 then Err(())
      else
        var n := Announced(first.value);
        var bytes := ReadEscapes(text, n);
        if bytes.Err? || bytes.value[0] != first.value then Err(())
        else
          var cp := FromUtf8(bytes.value);
          var rest := Decode(text[3 * n..]);
          if cp.Err? || rest.Err? then Err(()) else Ok(Units(cp.value) + rest.value)
  }

  /** Buffer.byteLength: a lone surrogate counts as the three bytes of its replacement. */
  function ByteLength(text: Text): nat {
    if |text| == 0 then 0
    else if IsHigh(text[0]) && |text| >= 2 && IsLow(text[1]) then 4 + ByteLength(text[2..])
    else (if text[0] < 0x80 then 1 else if text[0] < 0x800 then 2 else 3) + ByteLength(text[1..])
  }

  // ---------------------------------------------------------------- round trip

  lemma EscapeReads(b: Byte, rest: Text)
    ensures ReadEscape(Escape(b) + rest) == Ok(b)
  {
    HexReads(b / 16);
    HexReads(b % 16);
    var text := Escape(b) + rest;
    assert text[0] == PERCENT && text[1] == HexDigit(b / 16) && text[2] == HexDigit(b % 16);
  }

  lemma HexReads(d: nat)
    requires d < 16
    ensures HexValue(HexDigit(d)) == Some(d)
  {
  }

  lemma {:induction false} EscapesRead(bytes: seq<Byte>, rest: Text)
    ensures ReadEscapes(EscapeAll(bytes) + rest, |bytes|) == Ok(bytes)
  {
    if |bytes| > 0 {
      var text := EscapeAll(bytes) + rest;
      assert text == Escape(bytes[0]) + (EscapeAll(bytes[1..]) + rest);
      EscapeReads(bytes[0], EscapeAll(bytes[1..]) + rest);
      assert text[3..] == EscapeAll(bytes[1..]) + rest;
      EscapesRead(bytes[1..], rest);
      assert bytes == [bytes[0]] + bytes[1..];
    } else {
      assert bytes == [];
    }
  }

  /** UTF-8 is read back as it was written. */
  lemma Utf8Reads(cp: Scalar)
    ensures |Utf8(cp)| == Announced(Utf8(cp)[0]) && FromUtf8(Utf8(cp)) == Ok(cp)
  {
    if cp < 0x80 {
    } else if cp < 0x800 {
      TwoBytes(cp);
    } else if cp < 0x1_0000 {
      ThreeBytes(cp);
    } else {
      FourBytes(cp);
    }
  }

  lemma TailBits(n: nat)
    ensures IsContinuation(Tail(n)) && Bits(Tail(n), 0x40) == n % 0x40
  {
  }

  lemma TwoBytes(cp: Scalar)
    requires 0x80 <= cp < 0x800
    ensures Announced(Utf8(cp)[0]) == 2 && FromUtf8(Utf8(cp)) == Ok(cp)
  {
    hide Tail, Bits, IsContinuation;
    TailBits(cp);
    LeadTwo(cp / 0x40);
  }

  lemma LeadTwo(bits: nat)
    requires 2 <= bits < 0x20
    ensures Announced(Lead(0xc0, bits)) == 2 && Bits(Lead(0xc0, bits), 0x20) == bits
  {
  }

  lemma ThreeBytes(cp: Scalar)
    requires 0x800 <= cp < 0x1_0000
    ensures Announced(Utf8(cp)[0]) == 3 && FromUtf8(Utf8(cp)) == Ok(cp)
  {
    hide Tail, Bits, IsContinuation;
    TailBits(cp);
    TailBits(cp / 0x40);
    LeadThree(cp / 0x1000);
    ThreeDigits(cp);
  }

  lemma LeadThree(bits: nat)
    requires bits < 0x10
    ensures Announced(Lead(0xe0, bits)) == 3 && Bits(Lead(0xe0, bits), 0x10) == bits
  {
  }

  lemma ThreeDigits(n: nat)
    ensures n / 0x1000 * 0x1000 + n / 0x40 % 0x40 * 0x40 + n % 0x40 == n
  {
    assert n / 0x40 / 0x40 == n / 0x1000;
  }

  lemma FourBytes(cp: Scalar)
    requires 0x1_0000 <= cp
    ensures Announced(Utf8(cp)[0]) == 4 && FromUtf8(Utf8(cp)) == Ok(cp)
  {
    hide Tail, Bits, IsContinuation;
    TailBits(cp);
    TailBits(cp / 0x40);
    TailBits(cp / 0x1000);
    LeadFour(cp / 0x4_0000);
    FourDigits(cp);
  }

  lemma LeadFour(bits: nat)
    requires bits < 0x8
    ensures Announced(Lead(0xf0, bits)) == 4 && Bits(Lead(0xf0, bits), 0x8) == bits
  {
  }

  lemma FourDigits(n: nat)
    ensures n / 0x4_0000 * 0x4_0000 + n / 0x1000 % 0x40 * 0x1000 + n / 0x40 % 0x40 * 0x40 + n % 0x40 == n
  {
    ThreeDigits(n);
    assert n / 0x1000 / 0x40 == n / 0x4_0000;
  }

  lemma UnitsOfJoin(high: Unit, low: Unit)
    requires IsHigh(high) && IsLow(low)
    ensures Units(Join(high, low)) == [high, low]
  {
  }

  /** Decoding an encoded text gives the text back, whatever it is. */
  lemma {:induction false} DecodeOfEncode(text: Text)
    requires Encode(text).Ok?
    ensures Decode(Encode(text).value) == Ok(text)
  {
    hide Units, FromUtf8, Utf8, ReadEscapes, ReadEscape, Announced, IsUnreserved;
    if |text| > 0 {
      var n := if IsHigh(text[0]) then 2 else 1;
      var cp := if n == 2 then Join(text[0], text[1]) else text[0];
      DecodeOfEncode(text[n..]);
      var rest := Encode(text[n..]).value;
      assert text == text[..n] + text[n..];
      UnitsOfHead(text, n, cp);
      if IsUnreserved(text[0]) {
        UnreservedIsPlain(text[0]);
        var encoded := [text[0]] + rest;
        assert encoded[0] == text[0] && encoded[1..] == rest && n == 1;
        assert Decode(encoded) == Ok([text[0]] + text[1..]);
        assert text == [text[0]] + text[1..];
      } else {
        DecodeOfEscape(cp, rest);
      }
    } else {
      assert text == [];
    }
  }

  lemma UnreservedIsPlain(u: Unit)
    requires IsUnreserved(u)
    ensures u != PERCENT && u < 0x80 && !IsHigh(u) && !IsLow(u) && 0x20 < u < 0x7f
    ensures u !in {0x2f, 0x26, 0x3d, 0x3f}
  {
  }

  lemma UnitsOfHead(text: Text, n: nat, cp: Scalar)
    requires |text| >= n > 0 && !IsLow(text[0])
    requires n == if IsHigh(text[0]) then 2 else 1
    requires n == 2 ==> IsLow(text[1]) && cp == Join(text[0], text[1])
    requires n == 1 ==> cp == text[0]
    ensures Units(cp) == text[..n]
  {
    if n == 2 {
      UnitsOfJoin(text[0], text[1]);
    }
  }

  lemma DecodeOfEscape(cp: Scalar, rest: Text)
    requires Decode(rest).Ok?
    ensures Decode(EscapeAll(Utf8(cp)) + rest) == Ok(Units(cp) + Decode(rest).value)
  {
    hide Units, FromUtf8, Utf8, ReadEscapes, Announced;
    var bytes := Utf8(cp);
    var text := EscapeAll(bytes) + rest;
    Utf8Reads(cp);
    EscapesRead(bytes, rest);
    assert text == Escape(bytes[0]) + (EscapeAll(bytes[1..]) + rest);
    EscapeReads(bytes[0], EscapeAll(bytes[1..]) + rest);
    assert text[3 * |bytes|..] == rest;
  }

  // ---------------------------------------------------------------- size and alphabet

  /** What an encoded component may contain: nothing that separates components or parameters. */
  predicate IsSafe(u: Unit) {
    0x20 < u < 0x7f && u !in {0x2f, 0x26, 0x3d, 0x3f}
  }

  lemma {:induction false} EscapesAreSafe(bytes: seq<Byte>)
    ensures forall u :: u in EscapeAll(bytes) ==> IsSafe(u)
  {
    if |bytes| > 0 {
      EscapesAreSafe(bytes[1..]);
    }
  }

  /** Percent-encoding at most triples the bytes, never empties a text, and uses safe characters only. */
  lemma {:induction false} EncodeAtMostTriples(text: Text)
    requires Encode(text).Ok?
    ensures |Encode(text).value| <= 3 * ByteLength(text)
    ensures |text| > 0 ==> |Encode(text).value| > 0
    ensures forall u :: u in Encode(text).value ==> IsSafe(u)
  {
    if |text| > 0 {
      var n := if IsHigh(text[0]) then 2 else 1;
      var cp := if n == 2 then Join(text[0], text[1]) else text[0];
      EncodeAtMostTriples(text[n..]);
      EscapesAreSafe(Utf8(cp));
    }
  }

  /** Safe text has one byte per character. */
  lemma {:induction false} SafeByteLength(text: Text)
    requires forall u :: u in text ==> u < 0x80
    ensures ByteLength(text) == |text|
  {
    if |text| > 0 {
      assert text[0] in text && forall u :: u in text[1..] ==> u in text;
      SafeByteLength(text[1..]);
    }
  }
}
