// What decodeURIComponent accepts, and what encodeURIComponent refuses, by definitions of their own: escapes spell
// the UTF-8 of code points, and a surrogate is alone without its other half.
module UriDecoding {
  import opened Outcomes
  import opened UriComponent

  // ---------------------------------------------------------------- what a text denotes

  /** The text is one escape per byte, in either case of the hexadecimal digits. */
  predicate SpellsBytes(text: Text, bytes: seq<Byte>) {
    && |text| == 3 * |bytes|
    && forall i :: 0 <= i < |bytes| ==>
         && text[3 * i] == PERCENT && HexValue(text[3 * i + 1]) == Some(bytes[i] / 16)
         && HexValue(text[3 * i + 2]) == Some(bytes[i] % 16)
  }

  predicate BeginsWith(text: Text, cp: Scalar) {
    3 * |Utf8(cp)| <= |text| && SpellsBytes(text[..3 * |Utf8(cp)|], Utf8(cp))
  }

  /** The text stands for the meaning: units other than "%" for themselves, and spelled UTF-8 for code points. */
  ghost predicate Denotes(text: Text, meaning: Text)
    decreases |text|
  {
    if |text| == 0 then |meaning| == 0
    else
      || (text[0] != PERCENT && |meaning| > 0 && meaning[0] == text[0] && Denotes(text[1..], meaning[1..]))
      || exists cp: Scalar ::
           && BeginsWith(text, cp) && Units(cp) <= meaning
           && Denotes(text[3 * |Utf8(cp)|..], meaning[|Units(cp)|..])
  }

  // ---------------------------------------------------------------- bytes and code points

  /** A sequence of bytes that is read as a code point is the UTF-8 of that code point. */
  lemma ReadIsUtf8(bytes: seq<Byte>)
    requires |bytes| > 0 && |bytes| == Announced(bytes[0]) && FromUtf8(bytes).Ok?
    ensures Utf8(FromUtf8(bytes).value) == bytes
  {
    var cp := FromUtf8(bytes).value;
    if |bytes| == 1 {
    } else if |bytes| == 2 {
      WrittenTwo(bytes, cp);
    } else if |bytes| == 3 {
      WrittenThree(bytes, cp);
    } else {
      WrittenFour(bytes, cp);
    }
  }

  lemma ContinuationIsTail(b: Byte, n: nat)
    requires IsContinuation(b) && n % 0x40 == Bits(b, 0x40)
    ensures Tail(n) == b
  {
  }

  lemma Shifted(high: nat, low: nat)
    requires low < 0x40
    ensures (high * 0x40 + low) / 0x40 == high && (high * 0x40 + low) % 0x40 == low
  {
  }

  lemma WrittenTwo(bytes: seq<Byte>, cp: Scalar)
    requires |bytes| == 2 == |Utf8(cp)| && Announced(bytes[0]) == 2 && Payload(bytes) == cp && IsContinuation(bytes[1])
    ensures Utf8(cp) == bytes
  {
    Shifted(Bits(bytes[0], 0x20), Bits(bytes[1], 0x40));
    ContinuationIsTail(bytes[1], cp);
  }

  lemma WrittenThree(bytes: seq<Byte>, cp: Scalar)
    requires |bytes| == 3 == |Utf8(cp)| && Announced(bytes[0]) == 3 && Payload(bytes) == cp
    requires IsContinuation(bytes[1]) && IsContinuation(bytes[2])
    ensures Utf8(cp) == bytes
  {
    var high := Bits(bytes[0], 0x10) * 0x40 + Bits(bytes[1], 0x40);
    assert cp == high * 0x40 + Bits(bytes[2], 0x40);
    Shifted(high, Bits(bytes[2], 0x40));
    Shifted(Bits(bytes[0], 0x10), Bits(bytes[1], 0x40));
    assert cp / 0x1000 == high / 0x40;
    ContinuationIsTail(bytes[1], cp / 0x40);
    ContinuationIsTail(bytes[2], cp);
  }

  lemma WrittenFour(bytes: seq<Byte>, cp: Scalar)
    requires |bytes| == 4 == |Utf8(cp)| && Announced(bytes[0]) == 4 && Payload(bytes) == cp
    requires IsContinuation(bytes[1]) && IsContinuation(bytes[2]) && IsContinuation(bytes[3])
    ensures Utf8(cp) == bytes
  {
    var higher := Bits(bytes[0], 0x8) * 0x40 + Bits(bytes[1], 0x40);
    var high := higher * 0x40 + Bits(bytes[2], 0x40);
    assert cp == high * 0x40 + Bits(bytes[3], 0x40);
    Shifted(high, Bits(bytes[3], 0x40));
    Shifted(higher, Bits(bytes[2], 0x40));
    Shifted(Bits(bytes[0], 0x8), Bits(bytes[1], 0x40));
    assert cp / 0x1000 == higher && cp / 0x4_0000 == higher / 0x40;
    ContinuationIsTail(bytes[1], cp / 0x1000);
    ContinuationIsTail(bytes[2], cp / 0x40);
    ContinuationIsTail(bytes[3], cp);
  }

  // ---------------------------------------------------------------- escapes

  lemma {:induction false} ReadEscapesSpell(text: Text, n: nat)
    requires ReadEscapes(text, n).Ok?
    ensures SpellsBytes(text[..3 * n], ReadEscapes(text, n).value)
  {
    if n > 0 {
      ReadEscapesSpell(text[3..], n - 1);
      var bytes, rest := ReadEscapes(text, n).value, ReadEscapes(text[3..], n - 1).value;
      forall i | 0 <= i < n
        ensures
          && text[3 * i] == PERCENT && HexValue(text[3 * i + 1]) == Some(bytes[i] / 16)
          && HexValue(text[3 * i + 2]) == Some(bytes[i] % 16)
      {
        if i > 0 {
          assert bytes[i] == rest[i - 1] && text[3 * i] == text[3..][..3 * (n - 1)][3 * (i - 1)];
        } else {
          HexIsSmall(text[2]);
        }
      }
    }
  }

  lemma HexIsSmall(u: Unit)
    ensures HexValue(u).Some? ==> HexValue(u).value < 16
  {
  }

  lemma {:induction false} SpelledAreRead(text: Text, bytes: seq<Byte>)
    requires 3 * |bytes| <= |text| && SpellsBytes(text[..3 * |bytes|], bytes)
    ensures ReadEscapes(text, |bytes|) == Ok(bytes)
    ensures |bytes| > 0 ==> ReadEscape(text) == Ok(bytes[0])
  {
    if |bytes| > 0 {
      var head := text[..3 * |bytes|];
      assert head[3 * 0] == PERCENT && HexValue(head[1]) == Some(bytes[0] / 16);
      var rest := text[3..];
      forall i | 0 <= i < |bytes| - 1
        ensures
          && rest[3 * i] == PERCENT && HexValue(rest[3 * i + 1]) == Some(bytes[1..][i] / 16)
          && HexValue(rest[3 * i + 2]) == Some(bytes[1..][i] % 16)
      {
        assert rest[3 * i] == head[3 * (i + 1)];
      }
      SpelledAreRead(rest, bytes[1..]);
      assert bytes == [bytes[0]] + bytes[1..];
    } else {
      assert bytes == [];
    }
  }

  // ---------------------------------------------------------------- decoding

  /** decodeURIComponent accepts exactly the texts that denote something, and gives what they denote. */
  lemma {:induction false} DecodeIsExact(text: Text, meaning: Text)
    ensures Decode(text) == Ok(meaning) <==> Denotes(text, meaning)
    decreases |text|
  {
    hide Units, Utf8, FromUtf8, ReadEscapes, ReadEscape, Announced, BeginsWith;
    if |text| > 0 {
      if Decode(text) == Ok(meaning) {
        DecodedIsDenoted(text, meaning);
      }
      if Denotes(text, meaning) {
        DenotedIsDecoded(text, meaning);
      }
    } else {
      assert Decode(text) == Ok(meaning) <==> meaning == [];
    }
  }

  lemma {:induction false} DecodedIsDenoted(text: Text, meaning: Text)
    requires |text| > 0 && Decode(text) == Ok(meaning)
    ensures Denotes(text, meaning)
    decreases |text|, 0
  {
    hide Units, Utf8, FromUtf8, ReadEscapes, ReadEscape, Announced;
    if text[0] != PERCENT {
      DecodeIsExact(text[1..], meaning[1..]);
      assert meaning == [text[0]] + meaning[1..];
    } else {
      var n := Announced(ReadEscape(text).value);
      var bytes := ReadEscapes(text, n).value;
      var cp := FromUtf8(bytes).value;
      var rest := Decode(text[3 * n..]).value;
      ReadIsUtf8(bytes);
      ReadEscapesSpell(text, n);
      assert meaning == Units(cp) + rest && meaning[|Units(cp)|..] == rest;
      DecodeIsExact(text[3 * n..], rest);
      assert BeginsWith(text, cp);
    }
  }

  lemma {:induction false} DenotedIsDecoded(text: Text, meaning: Text)
    requires |text| > 0 && Denotes(text, meaning)
    ensures Decode(text) == Ok(meaning)
    decreases |text|, 0
  {
    hide Units, Utf8, FromUtf8, ReadEscapes, ReadEscape, Announced;
    if text[0] != PERCENT {
      forall cp: Scalar ensures !BeginsWith(text, cp) {
        EscapesBeginWithPercent(text, cp);
      }
      DecodeIsExact(text[1..], meaning[1..]);
      assert meaning == [text[0]] + meaning[1..];
    } else {
      var cp: Scalar :| && BeginsWith(text, cp) && Units(cp) <= meaning
                        && Denotes(text[3 * |Utf8(cp)|..], meaning[|Units(cp)|..]);
      SpelledAreRead(text, Utf8(cp));
      Utf8Reads(cp);
      DecodeIsExact(text[3 * |Utf8(cp)|..], meaning[|Units(cp)|..]);
      assert meaning == Units(cp) + meaning[|Units(cp)|..];
    }
  }

  lemma EscapesBeginWithPercent(text: Text, cp: Scalar)
    ensures BeginsWith(text, cp) ==> text[0] == PERCENT
  {
    if BeginsWith(text, cp) {
      assert text[..3 * |Utf8(cp)|][3 * 0] == PERCENT;
    }
  }

  // ---------------------------------------------------------------- encoding

  /** A surrogate without its other half. */
  predicate IsLone(text: Text, i: nat)
    requires i < |text|
  {
    || (IsLow(text[i]) && (i == 0 || !IsHigh(text[i - 1])))
    || (IsHigh(text[i]) && (i + 1 == |text| || !IsLow(text[i + 1])))
  }

  predicate HasLone(text: Text) {
    exists i: nat :: i < |text| && IsLone(text, i)
  }

  /** encodeURIComponent refuses exactly the texts with a lone surrogate. */
  lemma {:induction false} EncodeIsRefusedExactly(text: Text)
    ensures Encode(text).Err? <==> HasLone(text)
  {
    if |text| > 0 {
      if IsLow(text[0]) || (IsHigh(text[0]) && (|text| < 2 || !IsLow(text[1]))) {
        assert IsLone(text, 0);
      } else {
        var n := if IsHigh(text[0]) then 2 else 1;
        EncodeIsRefusedExactly(text[n..]);
        forall i: nat | n <= i < |text| ensures IsLone(text, i) <==> IsLone(text[n..], i - n) {
          assert text[n..][i - n] == text[i];
        }
        if HasLone(text) {
          var i: nat :| i < |text| && IsLone(text, i);
          assert i >= n && IsLone(text[n..], i - n);
        }
        if HasLone(text[n..]) {
          var i: nat :| i < |text[n..]| && IsLone(text[n..], i);
          assert IsLone(text, i + n);
        }
      }
    }
  }
}
