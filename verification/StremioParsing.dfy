// Which paths are resource requests: the grammar of a request's path, and that parsing accepts exactly its words.
module StremioParsing {
  import opened Outcomes
  import opened Sequences
  import opened UriComponent
  import opened UriDecoding
  import opened StremioPath

  // ---------------------------------------------------------------- the grammar

  /** A component within its limits, escaped and plain. */
  ghost predicate SpellsComponent(text: Text, meaning: Text, maximumBytes: nat, allowEmpty: bool) {
    && IsRawString(text, maximumBytes * 3, allowEmpty) && IsRawString(meaning, maximumBytes, allowEmpty)
    && Denotes(text, meaning)
  }

  /** A name, the first "=", and a value. */
  ghost predicate SpellsPair(text: Text, p: Pair) {
    && !IsForbidden(p.name)
    && exists name: Text, value: Text ::
         && SpellsComponent(name, p.name, MAX_EXTRA_NAME_BYTES, false)
         && SpellsComponent(value, p.value, MAX_EXTRA_VALUE_BYTES, true)
         && EQUALS !in name && text == name + [EQUALS] + value
  }

  ghost predicate SpellsTail(text: Text, extra: seq<Pair>, head: Text, rest: Text)
    requires |extra| > 1
    decreases |extra|, 0
  {
    && AMPERSAND !in head && text == head + [AMPERSAND] + rest
    && SpellsPair(head, extra[0]) && SpellsExtra(rest, extra[1..])
  }

  /** Pairs, with "&" between them. */
  ghost predicate SpellsExtra(text: Text, extra: seq<Pair>)
    decreases |extra|, 1
  {
    if |extra| == 0 then false
    else if |extra| == 1 then AMPERSAND !in text && SpellsPair(text, extra[0])
    else exists head: Text, rest: Text :: SpellsTail(text, extra, head, rest)
  }

  ghost predicate BeginsSegment(path: Text, segment: Text) {
    |segment| > 0 && SLASH !in segment && segment <= path && (segment < path ==> path[|segment|] == SLASH)
  }

  /** Segments, with slashes between them, any number of them, and before and behind. */
  ghost predicate HasSegments(path: Text, segments: seq<Text>)
    decreases |path|
  {
    if |path| == 0 then |segments| == 0
    else if path[0] == SLASH then HasSegments(path[1..], segments)
    else
      && |segments| > 0 && BeginsSegment(path, segments[0])
      && HasSegments(path[|segments[0]|..], segments[1..])
  }

  /** The path of a request for the expected resource, behind a mount of one or two segments. */
  ghost predicate SpellsRequest(segments: seq<Text>, expected: Text, hasExtra: bool, fixtures: bool, r: Request) {
    var at := if |segments| > 0 && segments[0] == Ascii("_c") then 2 else 1;
    && |segments| == at + (if hasExtra then 4 else 3) && segments[at] == expected
    && !IsForbidden(r.resource) && !IsForbidden(r.kind)
    && SpellsComponent(expected, r.resource, MAX_RESOURCE_COMPONENT_BYTES, false)
    && SpellsComponent(segments[at + 1], r.kind, MAX_RESOURCE_COMPONENT_BYTES, false)
    && var last := segments[|segments| - 1];
    && EndsInJson(last)
    && if hasExtra then
         var raw := UnescapeFixture(WithoutJson(last), expected == Ascii("subtitles"), fixtures);
         && SpellsComponent(segments[at + 2], r.id, MAX_RESOURCE_ID_BYTES, false)
         && IsRawString(raw, MAX_RAW_EXTRA_BYTES, false) && |r.extra| <= MAX_EXTRA_PAIRS && SpellsExtra(raw, r.extra)
       else SpellsComponent(WithoutJson(last), r.id, MAX_RESOURCE_ID_BYTES, false) && r.extra == []
  }

  // ---------------------------------------------------------------- components and pairs

  lemma ComponentIsExact(text: Text, meaning: Text, maximumBytes: nat, allowEmpty: bool)
    ensures DecodeOnce(text, maximumBytes, allowEmpty) == Ok(meaning)
            <==> SpellsComponent(text, meaning, maximumBytes, allowEmpty)
  {
    hide Decode, Denotes, IsRawString;
    DecodeIsExact(text, meaning);
  }

  lemma PairIsExact(text: Text, p: Pair)
    ensures DecodePair(text) == Ok(p) <==> SpellsPair(text, p)
  {
    hide DecodeOnce, SpellsComponent, IsForbidden;
    var at := IndexOf(text, EQUALS);
    if DecodePair(text) == Ok(p) {
      var name, value := text[..at], text[at + 1..];
      assert text == name + [EQUALS] + value;
      ComponentIsExact(name, p.name, MAX_EXTRA_NAME_BYTES, false);
      ComponentIsExact(value, p.value, MAX_EXTRA_VALUE_BYTES, true);
    }
    if SpellsPair(text, p) {
      var name: Text, value: Text :|
        && SpellsComponent(name, p.name, MAX_EXTRA_NAME_BYTES, false)
        && SpellsComponent(value, p.value, MAX_EXTRA_VALUE_BYTES, true)
        && EQUALS !in name && text == name + [EQUALS] + value;
      IndexOfPrefix(name, EQUALS, value);
      ComponentIsExact(name, p.name, MAX_EXTRA_NAME_BYTES, false);
      ComponentIsExact(value, p.value, MAX_EXTRA_VALUE_BYTES, true);
      NamesAreNotEmpty(name, p.name);
      assert text[..at] == name && text[at + 1..] == value;
    }
  }

  lemma NamesAreNotEmpty(text: Text, name: Text)
    requires SpellsComponent(text, name, MAX_EXTRA_NAME_BYTES, false)
    ensures |text| > 0
  {
  }

  /** The text ends, or goes on with a separator. */
  lemma {:induction false} SplitAtSeparator(text: Text, separator: Unit)
    ensures
      var at := IndexOf(text, separator);
      Split(text, separator)
      == if at == |text| then [text] else [text[..at]] + Split(text[at + 1..], separator)
  {
    var at := IndexOf(text, separator);
    if at == |text| {
      SplitOfOne(text, separator);
    } else {
      assert text == text[..at] + [separator] + text[at + 1..];
      SplitOfJoined(text[..at], separator, text[at + 1..]);
    }
  }

  lemma TailOfExtra(text: Text, extra: seq<Pair>) returns (head: Text, rest: Text)
    requires |extra| > 1 && SpellsExtra(text, extra)
    ensures SpellsTail(text, extra, head, rest)
  {
    head, rest :| SpellsTail(text, extra, head, rest);
  }

  lemma TailHasAmpersand(text: Text, extra: seq<Pair>, head: Text, rest: Text)
    requires |extra| > 1 && SpellsTail(text, extra, head, rest)
    ensures AMPERSAND in text
  {
    assert text[|head|] == AMPERSAND;
  }

  lemma {:induction false} ExtraIsExact(text: Text, extra: seq<Pair>)
    ensures DecodePairs(Split(text, AMPERSAND)) == Ok(extra) <==> SpellsExtra(text, extra)
    ensures SpellsExtra(text, extra) ==> |Split(text, AMPERSAND)| == |extra|
    decreases |text|
  {
    hide DecodePair, SpellsPair, Split;
    var at := IndexOf(text, AMPERSAND);
    var parts := Split(text, AMPERSAND);
    SplitAtSeparator(text, AMPERSAND);
    if at == |text| {
      OnePairIsExact(text, extra);
    } else {
      var head, rest := text[..at], text[at + 1..];
      assert text == head + [AMPERSAND] + rest && parts[0] == head && parts[1..] == Split(rest, AMPERSAND);
      assert |parts| > 1;
      if |extra| > 1 {
        ExtraIsExact(rest, extra[1..]);
        PairIsExact(head, extra[0]);
        if SpellsExtra(text, extra) {
          var h, t := TailOfExtra(text, extra);
          IndexOfPrefix(h, AMPERSAND, t);
          assert text[..at] == h && text[at + 1..] == t;
        }
        if DecodePairs(parts) == Ok(extra) {
          assert extra == [extra[0]] + extra[1..];
          assert SpellsTail(text, extra, head, rest);
        }
        if SpellsTail(text, extra, head, rest) {
          assert extra == [extra[0]] + extra[1..];
        }
      } else {
        assert text[at] in text;
        PairsAreAsMany(parts);
      }
    }
  }

  lemma {:induction false} PairsAreAsMany(parts: seq<Text>)
    ensures DecodePairs(parts).Ok? ==> |DecodePairs(parts).value| == |parts|
  {
    hide DecodePair;
    if |parts| > 0 {
      PairsAreAsMany(parts[1..]);
    }
  }

  lemma OnePairIsExact(text: Text, extra: seq<Pair>)
    requires AMPERSAND !in text
    ensures DecodePairs([text]) == Ok(extra) <==> SpellsExtra(text, extra)
    ensures SpellsExtra(text, extra) ==> |extra| == 1
  {
    hide DecodePair, SpellsPair;
    var none: seq<Text> := [];
    var noPairs: seq<Pair> := [];
    assert [text][1..] == none && DecodePairs(none) == Ok(noPairs);
    PairsAreAsMany([text]);
    if |extra| == 1 {
      PairIsExact(text, extra[0]);
      assert extra == [extra[0]] + noPairs;
    } else if |extra| > 1 {
      forall h: Text, t: Text ensures !SpellsTail(text, extra, h, t) {
        if SpellsTail(text, extra, h, t) {
          TailHasAmpersand(text, extra, h, t);
        }
      }
    }
  }

  // ---------------------------------------------------------------- segments

  lemma {:induction false} SegmentsAreExact(path: Text, segments: seq<Text>)
    ensures NonEmpty(Split(path, SLASH)) == segments <==> HasSegments(path, segments)
    decreases |path|
  {
    hide Split;
    if |path| == 0 {
      EmptyPath();
    } else {
      var at := IndexOf(path, SLASH);
      var parts := Split(path, SLASH);
      SplitAtSeparator(path, SLASH);
      if at == 0 {
        SegmentsAreExact(path[1..], segments);
        assert parts[1..] == Split(path[1..], SLASH);
      } else {
        var head, tail := path[..at], path[at..];
        assert path[0] != SLASH && BeginsSegment(path, head);
        SegmentsAreExact(tail, if |segments| > 0 then segments[1..] else []);
        RestOfPath(path);
        if HasSegments(path, segments) {
          SegmentIsUnique(path, segments[0], head);
          assert segments == [head] + segments[1..];
        }
        if NonEmpty(parts) == segments {
          assert segments == [head] + NonEmpty(Split(tail, SLASH));
          assert segments[1..] == NonEmpty(Split(tail, SLASH));
        }
      }
    }
  }

  lemma EmptyPath()
    ensures NonEmpty(Split([], SLASH)) == []
  {
    var empty: Text := [];
    assert Split(empty, SLASH) == [empty];
    assert [empty][1..] == [] && NonEmpty([empty]) == [];
  }

  lemma NonEmptyOf(head: Text, rest: seq<Text>)
    ensures NonEmpty([head] + rest) == (if |head| == 0 then [] else [head]) + NonEmpty(rest)
  {
    assert ([head] + rest)[1..] == rest;
  }

  lemma RestOfPath(path: Text)
    requires 0 < IndexOf(path, SLASH) <= |path|
    ensures
      var at := IndexOf(path, SLASH);
      NonEmpty(Split(path, SLASH)) == [path[..at]] + NonEmpty(Split(path[at..], SLASH))
  {
    hide Split, NonEmpty, IndexOf;
    var at := IndexOf(path, SLASH);
    SplitAtSeparator(path, SLASH);
    if at == |path| {
      OnlySegment(path);
      assert path[at..] == [] && path[..at] == path;
    } else {
      NonEmptyOf(path[..at], Split(path[at + 1..], SLASH));
      assert path[at..] == [SLASH] + path[at + 1..];
      LeadingSlash(path[at + 1..]);
    }
  }

  lemma OnlySegment(segment: Text)
    requires |segment| > 0
    ensures NonEmpty([segment]) == [segment] + NonEmpty(Split([], SLASH))
  {
    EmptyPath();
    var none: seq<Text> := [];
    assert [segment][1..] == none && NonEmpty(none) == none && [segment] + none == [segment];
  }

  lemma LeadingSlash(rest: Text)
    ensures NonEmpty(Split([SLASH] + rest, SLASH)) == NonEmpty(Split(rest, SLASH))
  {
    hide NonEmpty;
    assert ([SLASH] + rest)[1..] == rest;
    NonEmptyOf([], Split(rest, SLASH));
  }

  lemma SegmentIsUnique(path: Text, a: Text, b: Text)
    requires BeginsSegment(path, a) && BeginsSegment(path, b)
    ensures a == b
  {
    if |a| < |b| {
      SlashBehind(path, a, b);
    } else if |b| < |a| {
      SlashBehind(path, b, a);
    }
  }

  lemma SlashBehind(path: Text, shorter: Text, longer: Text)
    requires |shorter| < |longer| && longer <= path && path[|shorter|] == SLASH
    ensures SLASH in longer
  {
    assert longer[|shorter|] == SLASH;
  }

  // ---------------------------------------------------------------- requests

  lemma RequestIsExact(resource: Text, kind: Text, id: Text, rawExtra: Option<Text>, r: Request)
    ensures
      DecodeResourceRequest(resource, kind, id, rawExtra) == Ok(r) <==>
        && SpellsComponent(resource, r.resource, MAX_RESOURCE_COMPONENT_BYTES, false)
        && SpellsComponent(kind, r.kind, MAX_RESOURCE_COMPONENT_BYTES, false)
        && SpellsComponent(id, r.id, MAX_RESOURCE_ID_BYTES, false)
        && !IsForbidden(r.resource) && !IsForbidden(r.kind)
        && match rawExtra
           case None => r.extra == []
           case Some(raw) =>
             && IsRawString(raw, MAX_RAW_EXTRA_BYTES, false) && |r.extra| <= MAX_EXTRA_PAIRS
             && SpellsExtra(raw, r.extra)
  {
    hide DecodeOnce, SpellsComponent, IsForbidden, SpellsExtra, Split, DecodePairs, IsRawString;
    ComponentIsExact(resource, r.resource, MAX_RESOURCE_COMPONENT_BYTES, false);
    ComponentIsExact(kind, r.kind, MAX_RESOURCE_COMPONENT_BYTES, false);
    ComponentIsExact(id, r.id, MAX_RESOURCE_ID_BYTES, false);
    if rawExtra.Some? {
      ExtraIsExact(rawExtra.value, r.extra);
      PairsAreAsMany(Split(rawExtra.value, AMPERSAND));
    }
  }

  /** A URL is parsed as a request exactly if the path before its query spells that request. */
  lemma ParseIsExact(path: Text, query: Text, segments: seq<Text>, expected: Text, hasExtra: bool, fixtures: bool,
                     r: Request)
    requires QUESTION !in path && IsQuery(query) && HasSegments(path, segments)
    ensures ParseUrl(path + query, expected, hasExtra, fixtures) == Ok(r)
            <==> SpellsRequest(segments, expected, hasExtra, fixtures, r)
  {
    hide Split, NonEmpty, DecodeResourceRequest, SpellsComponent, SpellsExtra, IsForbidden, EndsInJson, WithoutJson,
      UnescapeFixture, IsRawString, HasSegments, Ascii;
    PathNameOfUrl(path, query);
    SegmentsAreExact(path, segments);
    var at := if |segments| > 0 && segments[0] == Ascii("_c") then 2 else 1;
    if |segments| == at + (if hasExtra then 4 else 3) && EndsInJson(segments[|segments| - 1]) {
      var last := WithoutJson(segments[|segments| - 1]);
      var raw := UnescapeFixture(last, expected == Ascii("subtitles"), fixtures);
      if hasExtra {
        RequestIsExact(expected, segments[at + 1], segments[at + 2], Some(raw), r);
      } else {
        RequestIsExact(expected, segments[at + 1], last, None, r);
      }
    }
  }

  /** Every path has segments, so that the theorem above covers every URL. */
  lemma EveryPathHasSegments(url: Text) returns (query: Text, segments: seq<Text>)
    ensures url == PathName(url) + query && QUESTION !in PathName(url) && IsQuery(query)
    ensures HasSegments(PathName(url), segments)
  {
    query := url[|PathName(url)|..];
    segments := NonEmpty(Split(PathName(url), SLASH));
    SegmentsAreExact(PathName(url), segments);
  }

  lemma {:induction false} SpelledPairsAreValid(text: Text, extra: seq<Pair>)
    requires SpellsExtra(text, extra)
    ensures |extra| > 0 && AllPairs(extra)
    decreases |extra|
  {
    hide SpellsComponent, IsForbidden, IsRawString;
    if |extra| == 1 {
      SpelledPairIsValid(text, extra[0]);
    } else {
      var head, rest := TailOfExtra(text, extra);
      SpelledPairIsValid(head, extra[0]);
      SpelledPairsAreValid(rest, extra[1..]);
      assert forall i :: 1 <= i < |extra| ==> extra[i] == extra[1..][i - 1];
    }
  }

  lemma SpelledPairIsValid(text: Text, p: Pair)
    requires SpellsPair(text, p)
    ensures IsExtraPair(p)
  {
    hide Denotes, IsRawString, IsForbidden;
  }

  /** What is parsed is always a valid request. */
  lemma ParsedRequestsAreValid(url: Text, expected: Text, hasExtra: bool, fixtures: bool, r: Request)
    requires ParseUrl(url, expected, hasExtra, fixtures) == Ok(r)
    ensures IsRequest(r) && (hasExtra <==> |r.extra| > 0)
  {
    hide ParseUrl, Split, NonEmpty, IsForbidden, EndsInJson, WithoutJson, UnescapeFixture, IsRawString, HasSegments,
      Ascii, SpellsExtra, Denotes;
    var query, segments := EveryPathHasSegments(url);
    ParseIsExact(PathName(url), query, segments, expected, hasExtra, fixtures, r);
    if hasExtra {
      var raw := UnescapeFixture(WithoutJson(segments[|segments| - 1]), expected == Ascii("subtitles"), fixtures);
      SpelledPairsAreValid(raw, r.extra);
    }
  }

  // ---------------------------------------------------------------- printing

  predicate PairHasLone(p: Pair) {
    HasLone(p.name) || HasLone(p.value)
  }

  /** A request is printed exactly if it is valid and no part of it has a lone surrogate. */
  lemma PrintIsRefusedExactly(r: Request)
    ensures
      PrintPath(r).Ok? <==>
        && IsRequest(r) && !HasLone(r.resource) && !HasLone(r.kind) && !HasLone(r.id)
        && forall p :: p in r.extra ==> !PairHasLone(p)
  {
    hide HasLone, IsRequest, PrintExtra, Encode;
    EncodeIsRefusedExactly(r.resource);
    EncodeIsRefusedExactly(r.kind);
    EncodeIsRefusedExactly(r.id);
    if |r.extra| > 0 {
      PrintExtraIsRefusedExactly(r.extra);
    }
  }

  lemma PrintPairIsRefusedExactly(p: Pair)
    ensures PrintPair(p).Ok? <==> !PairHasLone(p)
  {
    hide HasLone, Encode;
    EncodeIsRefusedExactly(p.name);
    EncodeIsRefusedExactly(p.value);
  }

  lemma {:induction false} PrintExtraIsRefusedExactly(extra: seq<Pair>)
    requires |extra| > 0
    ensures PrintExtra(extra).Ok? <==> forall p :: p in extra ==> !PairHasLone(p)
  {
    hide PrintPair, PairHasLone;
    PrintPairIsRefusedExactly(extra[0]);
    if |extra| == 1 {
      assert forall p :: p in extra <==> p == extra[0];
    } else {
      PrintExtraIsRefusedExactly(extra[1..]);
      assert forall p :: p in extra <==> p == extra[0] || p in extra[1..];
      assert PrintExtra(extra).Ok? <==> PrintPair(extra[0]).Ok? && PrintExtra(extra[1..]).Ok?;
    }
  }
}
