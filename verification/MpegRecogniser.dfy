// Recognition of a VobSub program stream: packs and PES packets one after another, with at least one
// subtitle packet. Section 2.5.3.3 of ISO/IEC 13818-1 lays out the pack header.
module MpegRecogniser {
  import opened Outcomes

  type Byte = b: int | 0 <= b < 256

  // ---------------------------------------------------------------- the language

  predicate StartsWith(u: seq<Byte>, id: Byte) {
    |u| >= 4 && u[0] == 0 && u[1] == 0 && u[2] == 1 && u[3] == id
  }

  /** A pack header: MPEG-2 (marker bits 01, stuffing of up to 7 bytes) or MPEG-1 (marker bits 0010). */
  predicate IsPack(u: seq<Byte>) {
    && |u| >= 12 && StartsWith(u, 0xba)
    && ((u[4] / 64 == 1 && |u| >= 14 && |u| == 14 + u[13] % 8) || (u[4] / 16 == 2 && |u| == 12))
  }

  function ReadUInt16(p: seq<Byte>, at: nat): nat
    requires at + 2 <= |p|
  {
    var high: int, low: int := p[at], p[at + 1];
    256 * high + low
  }

  /** A PES packet of known, non-zero length. */
  predicate IsPes(u: seq<Byte>) {
    && |u| > 6 && 0xbb <= u[3] && StartsWith(u, u[3])
    && |u| == 6 + ReadUInt16(u, 4)
  }

  /** A private stream 1 packet whose first payload byte names a subtitle stream. */
  predicate IsSubtitlePacket(u: seq<Byte>) {
    && IsPes(u) && u[3] == 0xbd && |u| >= 9 && u[6] / 64 == 2
    && 9 + u[8] < |u| && 0x20 <= u[9 + u[8]] <= 0x3f
  }

  predicate IsUnit(u: seq<Byte>) {
    IsPack(u) || IsPes(u)
  }

  function Flatten(units: seq<seq<Byte>>): seq<Byte> {
    if |units| == 0 then [] else units[0] + Flatten(units[1..])
  }

  const END_CODE: seq<Byte> := [0, 0, 1, 0xb9]

  /** Units, and the end code or nothing behind them. */
  predicate IsStreamOf(p: seq<Byte>, units: seq<seq<Byte>>) {
    && (forall i :: 0 <= i < |units| ==> IsUnit(units[i]))
    && (p == Flatten(units) || p == Flatten(units) + END_CODE)
  }

  predicate HasSubtitle(units: seq<seq<Byte>>) {
    exists i :: 0 <= i < |units| && IsSubtitlePacket(units[i])
  }

  /** What is to be recognised: at least 24 bytes, a pack first, a subtitle packet somewhere. */
  ghost predicate IsVobSubStream(p: seq<Byte>) {
    && |p| >= 24
    && exists units :: |units| > 0 && IsStreamOf(p, units) && IsPack(units[0]) && HasSubtitle(units)
  }

  // ---------------------------------------------------------------- the recogniser

  /** readPackEnd. */
  function ReadPackEnd(p: seq<Byte>, offset: int): (end: Option<int>)
    ensures end.Some? ==> 0 <= offset < end.value <= |p|
  {
    if offset < 0 || offset + 12 > |p| || !StartsWith(p[offset..], 0xba) then None
    else if p[offset + 4] / 64 == 1 then
      if offset + 14 > |p| then None
      else
        var end := offset + 14 + p[offset + 13] % 8;
        if end <= |p| then Some(end) else None
    else if p[offset + 4] / 16 == 2 then Some(offset + 12)
    else None
  }

  /** isVobSubPrivatePacket. */
  predicate IsVobSubPrivatePacket(p: seq<Byte>, offset: nat, packetEnd: nat) {
    && packetEnd <= |p| && offset + 9 <= packetEnd
    && StartsWith(p[offset..], 0xbd) && p[offset + 6] / 64 == 2
    && offset + 9 + p[offset + 8] < packetEnd
    && 0x20 <= p[offset + 9 + p[offset + 8]] <= 0x3f
  }

  /** The loop below as a recursion over the rest of the payload. */
  predicate Scan(p: seq<Byte>, found: bool)
    decreases |p|
  {
    if |p| == 0 then found
    else if |p| < 4 || !StartsWith(p, p[3]) then false
    else if p[3] == 0xba then
      var end := ReadPackEnd(p, 0);
      end.Some? && Scan(p[end.value..], found)
    else if p[3] == 0xb9 then found && |p| == 4
    else if p[3] < 0xbb || |p| < 6 then false
    else
      var length := ReadUInt16(p, 4);
      && length != 0 && 6 + length <= |p|
      && Scan(p[6 + length..], found || (p[3] == 0xbd && IsVobSubPrivatePacket(p, 0, 6 + length)))
  }

  method HasVobSubPackEvidence(p: seq<Byte>) returns (evidence: bool)
    ensures evidence <==> IsVobSubStream(p)
  {
    hide IsVobSubStream, ReadPackEnd, IsVobSubPrivatePacket, Scan;
    ScanRecognises(p);
    if |p| < 24 {
      return false;
    }
    var end := ReadPackEnd(p, 0);
    if end.None? {
      return false;
    }
    var cursor := end.value;
    var foundSubtitlePacket := false;
    while cursor < |p|
      invariant 0 <= cursor <= |p|
      invariant Scan(p[cursor..], foundSubtitlePacket) == Scan(p[end.value..], false)
    {
      ScanAt(p, cursor, foundSubtitlePacket);
      if cursor + 4 > |p| || p[cursor] != 0 || p[cursor + 1] != 0 || p[cursor + 2] != 1 {
        return false;
      }
      var streamId := p[cursor + 3];
      if streamId == 0xba {
        var next := ReadPackEnd(p, cursor);
        if next.None? {
          return false;
        }
        cursor := next.value;
        continue;
      }
      if streamId == 0xb9 {
        return foundSubtitlePacket && cursor + 4 == |p|;
      }
      if streamId < 0xbb || cursor + 6 > |p| {
        return false;
      }
      var packetLength := ReadUInt16(p, cursor + 4);
      if packetLength == 0 {
        return false;
      }
      var packetEnd := cursor + 6 + packetLength;
      if packetEnd > |p| {
        return false;
      }
      if streamId == 0xbd && IsVobSubPrivatePacket(p, cursor, packetEnd) {
        foundSubtitlePacket := true;
      }
      cursor := packetEnd;
    }
    ScanEnds(foundSubtitlePacket);
    assert p[cursor..] == [];
    return foundSubtitlePacket;
  }

  // ---------------------------------------------------------------- proofs

  lemma PackEndMoves(p: seq<Byte>, offset: nat)
    requires offset <= |p|
    ensures ReadPackEnd(p, offset).Some? <==> ReadPackEnd(p[offset..], 0).Some?
    ensures ReadPackEnd(p, offset).Some? ==> ReadPackEnd(p, offset).value == offset + ReadPackEnd(p[offset..], 0).value
  {
    assert p[offset..][0..] == p[offset..];
  }

  lemma PrivatePacketMoves(p: seq<Byte>, offset: nat, end: nat)
    requires offset <= end <= |p|
    ensures IsVobSubPrivatePacket(p, offset, end) <==> IsVobSubPrivatePacket(p[offset..], 0, end - offset)
  {
    assert p[offset..][0..] == p[offset..];
  }

  lemma ScanEnds(found: bool)
    ensures Scan([], found) == found
  {
  }

  /** One round of the scan, seen from the whole payload. */
  lemma ScanAt(p: seq<Byte>, cursor: nat, found: bool)
    requires cursor < |p|
    ensures
      Scan(p[cursor..], found) ==
        if cursor + 4 > |p| || !(p[cursor] == 0 && p[cursor + 1] == 0 && p[cursor + 2] == 1) then false
        else if p[cursor + 3] == 0xba then
          ReadPackEnd(p, cursor).Some? && Scan(p[ReadPackEnd(p, cursor).value..], found)
        else if p[cursor + 3] == 0xb9 then found && cursor + 4 == |p|
        else if p[cursor + 3] < 0xbb || cursor + 6 > |p| then false
        else
          var end := cursor + 6 + ReadUInt16(p, cursor + 4);
          && ReadUInt16(p, cursor + 4) != 0 && end <= |p|
          && Scan(p[end..], found || (p[cursor + 3] == 0xbd && IsVobSubPrivatePacket(p, cursor, end)))
  {
    hide ReadPackEnd, IsVobSubPrivatePacket;
    var rest := p[cursor..];
    PackEndMoves(p, cursor);
    if ReadPackEnd(p, cursor).Some? {
      assert p[ReadPackEnd(p, cursor).value..] == rest[ReadPackEnd(p, cursor).value - cursor..];
    }
    if cursor + 6 <= |p| {
      var end := cursor + 6 + ReadUInt16(p, cursor + 4);
      if end <= |p| {
        PrivatePacketMoves(p, cursor, end);
        assert p[end..] == rest[end - cursor..];
      }
    }
  }

  /** The end that is read is the end of the one pack the payload starts with. */
  lemma PackEndIsExact(p: seq<Byte>, n: nat)
    requires n <= |p|
    ensures ReadPackEnd(p, 0) == Some(n) <==> IsPack(p[..n])
  {
    assert p[0..] == p;
  }

  lemma {:induction false} ScanSound(p: seq<Byte>, found: bool) returns (units: seq<seq<Byte>>)
    requires Scan(p, found)
    ensures IsStreamOf(p, units) && (found || HasSubtitle(units))
    decreases |p|
  {
    if |p| == 0 {
      units := [];
    } else if p[3] == 0xb9 {
      units := [];
      assert p == [] + END_CODE;
    } else {
      var end: nat := if p[3] == 0xba then ReadPackEnd(p, 0).value else 6 + ReadUInt16(p, 4);
      var head := p[..end];
      if p[3] == 0xba {
        PackEndIsExact(p, end);
      } else {
        PrivatePacketMoves(p, 0, end);
        HeadPacket(p, end);
      }
      var more := ScanSound(p[end..], found || (p[3] == 0xbd && IsVobSubPrivatePacket(p, 0, end)));
      units := [head] + more;
      Prepended(p, head, more);
      assert HasSubtitle(more) ==> HasSubtitle(units) by {
        if HasSubtitle(more) {
          var i :| 0 <= i < |more| && IsSubtitlePacket(more[i]);
          assert units[i + 1] == more[i];
        }
      }
      assert IsSubtitlePacket(units[0]) ==> HasSubtitle(units);
    }
  }

  lemma Prepended(p: seq<Byte>, head: seq<Byte>, more: seq<seq<Byte>>)
    requires |head| <= |p| && head == p[..|head|] && IsUnit(head) && IsStreamOf(p[|head|..], more)
    ensures IsStreamOf(p, [head] + more)
  {
    var units := [head] + more;
    assert units[1..] == more;
    assert p == head + p[|head|..];
    assert head + (Flatten(more) + END_CODE) == Flatten(units) + END_CODE;
  }

  /** A packet seen from the payload or by itself is a subtitle packet alike. */
  lemma HeadPacket(p: seq<Byte>, n: nat)
    requires 6 < n <= |p| && StartsWith(p, p[3]) && p[3] >= 0xbb && n == 6 + ReadUInt16(p, 4)
    ensures IsPes(p[..n])
    ensures p[3] == 0xbd && IsVobSubPrivatePacket(p, 0, n) <==> IsSubtitlePacket(p[..n])
  {
    assert p[0..] == p;
  }

  /** The decomposition is unique: the first unit of the stream is the one the scan takes. */
  lemma {:induction false} ScanComplete(p: seq<Byte>, found: bool, units: seq<seq<Byte>>)
    requires IsStreamOf(p, units) && (found || HasSubtitle(units))
    ensures Scan(p, found)
    decreases |units|
  {
    hide IsPack, IsPes, IsVobSubPrivatePacket, ReadPackEnd, IsSubtitlePacket, Flatten;
    if |units| > 0 {
      var u := units[0];
      Peel(p, units);
      ScanTakesUnit(p, found, |u|);
      ScanComplete(p[|u|..], found || IsSubtitlePacket(u), units[1..]);
    } else {
      assert Flatten(units) == [] && [] + END_CODE == END_CODE by {
        NoUnits(units);
      }
    }
  }

  lemma NoUnits(units: seq<seq<Byte>>)
    requires |units| == 0
    ensures Flatten(units) == []
  {
  }

  /** A stream is its first unit and the stream of the other units. */
  lemma Peel(p: seq<Byte>, units: seq<seq<Byte>>)
    requires IsStreamOf(p, units) && |units| > 0
    ensures |units[0]| <= |p| && p[..|units[0]|] == units[0] && IsUnit(units[0])
    ensures IsStreamOf(p[|units[0]|..], units[1..])
    ensures HasSubtitle(units) ==> IsSubtitlePacket(units[0]) || HasSubtitle(units[1..])
  {
    hide IsUnit, IsSubtitlePacket;
    var u, more := units[0], units[1..];
    if p == Flatten(units) {
      assert p[|u|..] == Flatten(more);
    } else {
      assert p == u + (Flatten(more) + END_CODE);
      assert p[|u|..] == Flatten(more) + END_CODE;
    }
    if HasSubtitle(units) {
      var i :| 0 <= i < |units| && IsSubtitlePacket(units[i]);
      assert i > 0 ==> more[i - 1] == units[i];
    }
  }

  /** The scan takes a whole unit and looks for a subtitle packet in it. */
  lemma ScanTakesUnit(p: seq<Byte>, found: bool, n: nat)
    requires n <= |p| && IsUnit(p[..n])
    ensures Scan(p, found) == Scan(p[n..], found || IsSubtitlePacket(p[..n]))
  {
    hide IsVobSubPrivatePacket, ReadPackEnd;
    if IsPack(p[..n]) {
      PackEndIsExact(p, n);
    } else {
      HeadPacket(p, n);
    }
  }

  /** The scan behind the first pack accepts exactly the streams of the language. */
  lemma ScanRecognises(p: seq<Byte>)
    ensures
      IsVobSubStream(p) <==> |p| >= 24 && ReadPackEnd(p, 0).Some? && Scan(p[ReadPackEnd(p, 0).value..], false)
  {
    hide IsPack, IsPes, IsUnit, ReadPackEnd, IsSubtitlePacket, Flatten, Scan;
    var end := ReadPackEnd(p, 0);
    if |p| >= 24 && end.Some? && Scan(p[end.value..], false) {
      PackEndIsExact(p, end.value);
      PackIsUnit(p[..end.value]);
      var more := ScanSound(p[end.value..], false);
      var units := [p[..end.value]] + more;
      Prepended(p, p[..end.value], more);
      var i :| 0 <= i < |more| && IsSubtitlePacket(more[i]);
      assert units[i + 1] == more[i];
      assert |units| > 0 && IsStreamOf(p, units) && IsPack(units[0]) && HasSubtitle(units);
    }
    if IsVobSubStream(p) {
      var units :| |units| > 0 && IsStreamOf(p, units) && IsPack(units[0]) && HasSubtitle(units);
      Peel(p, units);
      PackEndIsExact(p, |units[0]|);
      PackIsNoSubtitle(units[0]);
      ScanComplete(p[|units[0]|..], false, units[1..]);
    }
  }

  lemma PackIsUnit(u: seq<Byte>)
    requires IsPack(u)
    ensures IsUnit(u)
  {
  }

  lemma PackIsNoSubtitle(u: seq<Byte>)
    requires IsPack(u)
    ensures !IsSubtitlePacket(u)
  {
  }
}
