// Printing the path of a resource request, and parsing the path a client asks the gateway for.
module StremioPath {
  import opened Outcomes
  import opened Sequences
  import opened UriComponent

  const SLASH: Unit := 0x2f
  const AMPERSAND: Unit := 0x26
  const EQUALS: Unit := 0x3d
  const QUESTION: Unit := 0x3f

  const MAX_RESOURCE_COMPONENT_BYTES: nat := 256
  const MAX_RESOURCE_ID_BYTES: nat := 8192
  const MAX_RAW_EXTRA_BYTES: nat := 16384
  const MAX_EXTRA_NAME_BYTES: nat := 256
  const MAX_EXTRA_VALUE_BYTES: nat := 8192
  const MAX_EXTRA_PAIRS: nat := 128

  datatype Pair = Pair(name: Text, value: Text)

  datatype Request = Request(resource: Text, kind: Text, id: Text, extra: seq<Pair>)

  datatype PathError = InvalidResourceRequest | InvalidResourcePath

  function Ascii(s: string): Text {
    seq(|s|, i requires 0 <= i < |s| => if s[i] as int < 0x80 then s[i] as int else 0)
  }

  const JSON: Text := Ascii(".json")

  // ---------------------------------------------------------------- checks

  predicate HasControl(text: Text) {
    exists u :: u in text && (u < 0x20 || u == 0x7f)
  }

  /** assertRawString. */
  predicate IsRawString(text: Text, maximumBytes: nat, allowEmpty: bool) {
    (allowEmpty || |text| > 0) && ByteLength(text) <= maximumBytes && !HasControl(text)
  }

  predicate IsForbidden(key: Text) {
    key == Ascii("__proto__") || key == Ascii("constructor") || key == Ascii("prototype")
  }

  /** normalizeExtraPair accepts the pair. */
  predicate IsExtraPair(p: Pair) {
    && IsRawString(p.name, MAX_EXTRA_NAME_BYTES, false) && IsRawString(p.value, MAX_EXTRA_VALUE_BYTES, true)
    && !IsForbidden(p.name)
  }

  /** normalizeResourceRequest accepts the request. */
  predicate IsRequest(r: Request) {
    && IsRawString(r.resource, MAX_RESOURCE_COMPONENT_BYTES, false)
    && IsRawString(r.kind, MAX_RESOURCE_COMPONENT_BYTES, false)
    && IsRawString(r.id, MAX_RESOURCE_ID_BYTES, false)
    && !IsForbidden(r.resource) && !IsForbidden(r.kind)
    && |r.extra| <= MAX_EXTRA_PAIRS && forall i :: 0 <= i < |r.extra| ==> IsExtraPair(r.extra[i])
  }

  // ---------------------------------------------------------------- printing

  function PrintPair(p: Pair): Result<Text, PathError> {
    var name, value := Encode(p.name), Encode(p.value);
    if name.Err? || value.Err? then Err(InvalidResourceRequest) else Ok(name.value + [EQUALS] + value.value)
  }

  /** The extra path segment: the encoded pairs joined by "&". */
  function PrintExtra(extra: seq<Pair>): Result<Text, PathError>
    requires |extra| > 0
  {
    var head := PrintPair(extra[0]);
    if head.Err? || |extra| == 1 then head
    else
      var rest := PrintExtra(extra[1..]);
      if rest.Err? then rest else Ok(head.value + [AMPERSAND] + rest.value)
  }

  /** The path of buildStandardResourceUrl behind the transport's own path. */
  function PrintPath(r: Request): Result<Text, PathError> {
    if !IsRequest(r) then Err(InvalidResourceRequest)
    else
      var resource, kind, id := Encode(r.resource), Encode(r.kind), Encode(r.id);
      if resource.Err? || kind.Err? || id.Err? then Err(InvalidResourceRequest)
      else
        var head := [SLASH] + resource.value + [SLASH] + kind.value + [SLASH] + id.value;
        if |r.extra| == 0 then Ok(head + JSON)
        else
          var extra := PrintExtra(r.extra);
          if extra.Err? then extra else Ok(head + [SLASH] + extra.value + JSON)
  }

  // ---------------------------------------------------------------- parsing

  /** String.prototype.split. */
  function Split(text: Text, separator: Unit): (parts: seq<Text>)
    ensures |parts| > 0
  {
    if |text| == 0 then [[]]
    else
      var rest := Split(text[1..], separator);
      if text[0] == separator then [[]] + rest else [[text[0]] + rest[0]] + rest[1..]
  }

  function NonEmpty(parts: seq<Text>): seq<Text> {
    if |parts| == 0 then [] else (if |parts[0]| == 0 then [] else [parts[0]]) + NonEmpty(parts[1..])
  }

  /** decodeOnce. */
  function DecodeOnce(text: Text, maximumBytes: nat, allowEmpty: bool): Result<Text, PathError> {
    if !IsRawString(text, maximumBytes * 3, allowEmpty) then Err(InvalidResourceRequest)
    else
      var decoded := Decode(text);
      if decoded.Err? || !IsRawString(decoded.value, maximumBytes, allowEmpty) then Err(InvalidResourceRequest)
      else Ok(decoded.value)
  }

  function DecodePair(text: Text): Result<Pair, PathError> {
    var separator := IndexOf(text, EQUALS);
    if separator == |text| || separator == 0 then Err(InvalidResourceRequest)
    else
      var name := DecodeOnce(text[..separator], MAX_EXTRA_NAME_BYTES, false);
      var value := DecodeOnce(text[separator + 1..], MAX_EXTRA_VALUE_BYTES, true);
      if name.Err? || value.Err? || IsForbidden(name.value) then Err(InvalidResourceRequest)
      else Ok(Pair(name.value, value.value))
  }

  function DecodePairs(parts: seq<Text>): Result<seq<Pair>, PathError> {
    if |parts| == 0 then Ok([])
    else
      var head := DecodePair(parts[0]);
      if head.Err? then Err(head.error)
      else
        var rest := DecodePairs(parts[1..]);
        if rest.Err? then rest else Ok([head.value] + rest.value)
  }

  /** decodeExtraSegment. */
  function DecodeExtraSegment(rawExtra: Text): Result<seq<Pair>, PathError> {
    if !IsRawString(rawExtra, MAX_RAW_EXTRA_BYTES, false) then Err(InvalidResourceRequest)
    else
      var parts := Split(rawExtra, AMPERSAND);
      if |parts| > MAX_EXTRA_PAIRS then Err(InvalidResourceRequest) else DecodePairs(parts)
  }

  /** decodeResourceRequest. */
  function DecodeResourceRequest(resource: Text, kind: Text, id: Text, rawExtra: Option<Text>)
    : Result<Request, PathError>
  {
    var r := DecodeOnce(resource, MAX_RESOURCE_COMPONENT_BYTES, false);
    var k := DecodeOnce(kind, MAX_RESOURCE_COMPONENT_BYTES, false);
    var i := DecodeOnce(id, MAX_RESOURCE_ID_BYTES, false);
    if r.Err? || k.Err? || i.Err? || IsForbidden(r.value) || IsForbidden(k.value) then Err(InvalidResourceRequest)
    else
      match rawExtra
      case None => Ok(Request(r.value, k.value, i.value, []))
      case Some(raw) =>
        var extra := DecodeExtraSegment(raw);
        if extra.Err? then Err(extra.error) else Ok(Request(r.value, k.value, i.value, extra.value))
  }

  function ToLower(text: Text): Text {
    seq(|text|, i requires 0 <= i < |text| => if 0x41 <= text[i] <= 0x5a then text[i] + 0x20 else text[i])
  }

  /** The path of a URL: what stands before its query. */
  function PathName(url: Text): Text {
    url[..IndexOf(url, QUESTION)]
  }

  predicate EndsInJson(text: Text) {
    |text| >= |JSON| && text[|text| - |JSON|..] == JSON
  }

  function WithoutJson(text: Text): Text
    requires EndsInJson(text)
  {
    text[..|text| - |JSON|]
  }

  /** A fixture request may come with its "=" escaped, when fixtures are enabled. */
  function UnescapeFixture(rawExtra: Text, subtitles: bool, fixtures: bool): Text {
    if fixtures && subtitles && ToLower(rawExtra) == Ascii("filename%3djumpgate-uat-vobsub-v1.mp4")
    then Ascii("filename=jumpgate-uat-vobsub-v1.mp4") else rawExtra
  }

  /** rawGatewayRequestFromUrl: `hasExtra` says which route matched. */
  function ParseUrl(url: Text, expected: Text, hasExtra: bool, fixtures: bool): Result<Request, PathError> {
    var segments := NonEmpty(Split(PathName(url), SLASH));
    var at := if |segments| > 0 && segments[0] == Ascii("_c") then 2 else 1;
    if |segments| != at + (if hasExtra then 4 else 3) || segments[at] != expected then Err(InvalidResourcePath)
    else if !EndsInJson(segments[|segments| - 1]) then Err(InvalidResourcePath)
    else
      var last := WithoutJson(segments[|segments| - 1]);
      if !hasExtra then DecodeResourceRequest(expected, segments[at + 1], last, None)
      else
        DecodeResourceRequest(expected, segments[at + 1], segments[at + 2],
                              Some(UnescapeFixture(last, expected == Ascii("subtitles"), fixtures)))
  }

  // ---------------------------------------------------------------- components

  predicate AllSafe(text: Text) {
    forall u :: u in text ==> IsSafe(u)
  }

  lemma SafeTextIsClean(text: Text)
    requires AllSafe(text)
    ensures !HasControl(text) && ByteLength(text) == |text|
    ensures SLASH !in text && AMPERSAND !in text && EQUALS !in text && QUESTION !in text
  {
    SafeByteLength(text);
  }

  /** The limits of the decoder never refuse what was encoded within the limits of the printer. */
  lemma DecodeOnceOfEncode(text: Text, maximumBytes: nat, allowEmpty: bool)
    requires IsRawString(text, maximumBytes, allowEmpty) && Encode(text).Ok?
    ensures DecodeOnce(Encode(text).value, maximumBytes, allowEmpty) == Ok(text)
    ensures AllSafe(Encode(text).value) && (|text| > 0 ==> |Encode(text).value| > 0)
  {
    EncodeAtMostTriples(text);
    DecodeOfEncode(text);
    SafeTextIsClean(Encode(text).value);
  }

  lemma {:induction false} IndexOfPrefix(prefix: Text, u: Unit, rest: Text)
    requires u !in prefix
    ensures IndexOf(prefix + [u] + rest, u) == |prefix|
  {
    var text := prefix + [u] + rest;
    assert forall j :: 0 <= j < |prefix| ==> text[j] == prefix[j] && text[j] in prefix;
    assert text[|prefix|] == u;
  }

  lemma DecodePairOfPrint(p: Pair)
    requires IsExtraPair(p) && PrintPair(p).Ok?
    ensures DecodePair(PrintPair(p).value) == Ok(p)
    ensures |PrintPair(p).value| > 0 && EQUALS in PrintPair(p).value
    ensures AMPERSAND !in PrintPair(p).value && SLASH !in PrintPair(p).value && QUESTION !in PrintPair(p).value
    ensures !HasControl(PrintPair(p).value) && forall u :: u in PrintPair(p).value ==> u < 0x80
  {
    hide IsRawString, Encode, DecodeOnce, HasControl, IsForbidden;
    var name, value := Encode(p.name).value, Encode(p.value).value;
    var text := PrintPair(p).value;
    PairIsRaw(p);
    DecodeOnceOfEncode(p.name, MAX_EXTRA_NAME_BYTES, false);
    DecodeOnceOfEncode(p.value, MAX_EXTRA_VALUE_BYTES, true);
    SafeTextIsClean(name);
    SafeTextIsClean(value);
    IndexOfPrefix(name, EQUALS, value);
    assert text[..|name|] == name && text[|name| + 1..] == value && text[|name|] == EQUALS;
    NoControlInPair(name, value);
  }

  lemma PairIsRaw(p: Pair)
    requires IsExtraPair(p)
    ensures IsRawString(p.name, MAX_EXTRA_NAME_BYTES, false) && |p.name| > 0
    ensures IsRawString(p.value, MAX_EXTRA_VALUE_BYTES, true) && !IsForbidden(p.name)
  {
  }

  lemma NoControlInPair(name: Text, value: Text)
    requires AllSafe(name) && AllSafe(value)
    ensures !HasControl(name + [EQUALS] + value)
  {
  }

  // ---------------------------------------------------------------- the extra segment

  lemma {:induction false} SplitOfJoined(head: Text, separator: Unit, rest: Text)
    requires separator !in head
    ensures Split(head + [separator] + rest, separator) == [head] + Split(rest, separator)
  {
    var text := head + [separator] + rest;
    if |head| == 0 {
      assert text == [separator] + rest && text[1..] == rest;
    } else {
      assert text[1..] == head[1..] + [separator] + rest;
      SplitOfJoined(head[1..], separator, rest);
      assert head == [head[0]] + head[1..];
    }
  }

  lemma {:induction false} SplitOfOne(text: Text, separator: Unit)
    requires separator !in text
    ensures Split(text, separator) == [text]
  {
    if |text| > 0 {
      SplitOfOne(text[1..], separator);
      assert text == [text[0]] + text[1..];
    }
  }

  predicate AllPairs(extra: seq<Pair>) {
    forall i :: 0 <= i < |extra| ==> IsExtraPair(extra[i])
  }

  /** Splitting the printed segment at "&" and decoding each part gives the pairs back. */
  lemma {:induction false} DecodePairsOfPrint(extra: seq<Pair>)
    requires |extra| > 0 && AllPairs(extra) && PrintExtra(extra).Ok?
    ensures
      var text := PrintExtra(extra).value;
      && |Split(text, AMPERSAND)| == |extra| && DecodePairs(Split(text, AMPERSAND)) == Ok(extra)
      && |text| > 0 && EQUALS in text && SLASH !in text && QUESTION !in text
      && !HasControl(text) && forall u :: u in text ==> u < 0x80
    decreases |extra|
  {
    hide DecodePair, PrintPair, IsExtraPair, Split;
    var head := PrintPair(extra[0]).value;
    var text := PrintExtra(extra).value;
    DecodePairOfPrint(extra[0]);
    if |extra| == 1 {
      SplitOfOne(head, AMPERSAND);
      var none: seq<Text> := [];
      var noPairs: seq<Pair> := [];
      assert [head][1..] == none && DecodePairs(none) == Ok(noPairs) && [extra[0]] + noPairs == [extra[0]];
      assert DecodePairs([head]) == Ok([extra[0]]);
      assert extra == [extra[0]];
    } else {
      var rest := PrintExtra(extra[1..]).value;
      DecodePairsOfPrint(extra[1..]);
      SplitOfJoined(head, AMPERSAND, rest);
      var parts := [head] + Split(rest, AMPERSAND);
      assert parts[0] == head && parts[1..] == Split(rest, AMPERSAND);
      assert extra == [extra[0]] + extra[1..];
    }
  }

  /** Decoding the printed extra succeeds exactly within its byte limit. */
  lemma DecodeExtraOfPrint(extra: seq<Pair>)
    requires 0 < |extra| <= MAX_EXTRA_PAIRS && AllPairs(extra) && PrintExtra(extra).Ok?
    ensures
      var text := PrintExtra(extra).value;
      DecodeExtraSegment(text) == if |text| <= MAX_RAW_EXTRA_BYTES then Ok(extra) else Err(InvalidResourceRequest)
  {
    hide Split, DecodePairs, HasControl, IsExtraPair;
    DecodePairsOfPrint(extra);
    SafeByteLength(PrintExtra(extra).value);
  }

  // ---------------------------------------------------------------- the path

  /** Segments printed one behind the other, each with its slash. */
  function PrintSegments(segments: seq<Text>): Text {
    if |segments| == 0 then [] else [SLASH] + segments[0] + PrintSegments(segments[1..])
  }

  predicate IsSegment(text: Text) {
    |text| > 0 && SLASH !in text && QUESTION !in text
  }

  lemma {:induction false} SplitOfSegments(segments: seq<Text>)
    requires forall i :: 0 <= i < |segments| ==> IsSegment(segments[i])
    ensures NonEmpty(Split(PrintSegments(segments), SLASH)) == segments
    ensures |segments| > 0 ==> Split(PrintSegments(segments), SLASH) == [[]] + segments
  {
    hide IsSegment;
    if |segments| > 0 {
      var text, rest := PrintSegments(segments), PrintSegments(segments[1..]);
      SplitOfSegments(segments[1..]);
      assert text == [] + [SLASH] + (segments[0] + rest);
      SplitOfJoined([], SLASH, segments[0] + rest);
      SegmentHasNoSlash(segments[0]);
      if |segments| == 1 {
        assert segments[0] + rest == segments[0];
        SplitOfOne(segments[0], SLASH);
        assert segments == [segments[0]];
      } else {
        var after := segments[1] + PrintSegments(segments[2..]);
        assert rest == [SLASH] + after && segments[1..][1..] == segments[2..];
        assert segments[0] + rest == segments[0] + [SLASH] + after;
        SplitOfJoined(segments[0], SLASH, after);
        assert rest == [] + [SLASH] + after;
        SplitOfJoined([], SLASH, after);
        assert Split(after, SLASH) == segments[1..] by {
          assert ([[]] + Split(after, SLASH))[1..] == ([[]] + segments[1..])[1..];
        }
        assert segments == [segments[0]] + segments[1..];
      }
      NonEmptyOfSegments(segments);
      assert ([[]] + segments)[1..] == segments;
    } else {
      assert segments == [];
    }
  }

  lemma SegmentHasNoSlash(text: Text)
    requires IsSegment(text)
    ensures SLASH !in text && |text| > 0
  {
  }

  lemma {:induction false} NonEmptyOfSegments(segments: seq<Text>)
    requires forall i :: 0 <= i < |segments| ==> IsSegment(segments[i])
    ensures NonEmpty(segments) == segments
  {
    if |segments| > 0 {
      NonEmptyOfSegments(segments[1..]);
      assert segments == [segments[0]] + segments[1..];
    }
  }

  lemma {:induction false} NoQuestionInSegments(segments: seq<Text>)
    requires forall i :: 0 <= i < |segments| ==> IsSegment(segments[i])
    ensures QUESTION !in PrintSegments(segments)
  {
    if |segments| > 0 {
      NoQuestionInSegments(segments[1..]);
    }
  }

  /** A query: nothing, or a question mark and anything. */
  predicate IsQuery(query: Text) {
    |query| == 0 || query[0] == QUESTION
  }

  lemma PathNameOfUrl(path: Text, query: Text)
    requires QUESTION !in path && IsQuery(query)
    ensures PathName(path + query) == path
  {
    if |query| == 0 {
      assert path + query == path;
    } else {
      assert path + query == path + [QUESTION] + query[1..];
      IndexOfPrefix(path, QUESTION, query[1..]);
    }
  }

  /** Where the gateway is mounted: one segment, or two of which the first is "_c". */
  predicate IsMount(mount: seq<Text>) {
    && (forall i :: 0 <= i < |mount| ==> IsSegment(mount[i]))
    && ((|mount| == 1 && mount[0] != Ascii("_c")) || (|mount| == 2 && mount[0] == Ascii("_c")))
  }

  lemma JsonSegment(text: Text)
    requires |text| > 0 && SLASH !in text && QUESTION !in text
    ensures IsSegment(text + JSON) && EndsInJson(text + JSON) && WithoutJson(text + JSON) == text
  {
    assert (text + JSON)[|text|..] == JSON;
  }

  /** The segments a printed request consists of, the last one without its ".json". */
  function Segments(r: Request): seq<Text>
    requires PrintPath(r).Ok?
  {
    [Encode(r.resource).value, Encode(r.kind).value, Encode(r.id).value]
    + if |r.extra| == 0 then [] else [PrintExtra(r.extra).value]
  }

  function WithJson(segments: seq<Text>): seq<Text>
    requires |segments| > 0
  {
    segments[|segments| - 1 := segments[|segments| - 1] + JSON]
  }

  lemma PrintedSegments(r: Request)
    requires PrintPath(r).Ok?
    ensures
      var segments := Segments(r);
      && PrintPath(r).value == PrintSegments(WithJson(segments))
      && forall i :: 0 <= i < |segments| ==> IsSegment(segments[i])
  {
    hide IsRawString, Encode, PrintExtra, HasControl, IsForbidden, IsExtraPair, DecodeOnce;
    var segments := Segments(r);
    RequestParts(r);
    DecodeOnceOfEncode(r.resource, MAX_RESOURCE_COMPONENT_BYTES, false);
    DecodeOnceOfEncode(r.kind, MAX_RESOURCE_COMPONENT_BYTES, false);
    DecodeOnceOfEncode(r.id, MAX_RESOURCE_ID_BYTES, false);
    SafeTextIsClean(segments[0]);
    SafeTextIsClean(segments[1]);
    SafeTextIsClean(segments[2]);
    if |r.extra| == 0 {
      PrintThree(segments[0], segments[1], segments[2] + JSON);
      assert WithJson(segments) == [segments[0], segments[1], segments[2] + JSON];
    } else {
      DecodePairsOfPrint(r.extra);
      PrintFour(segments[0], segments[1], segments[2], segments[3] + JSON);
      assert WithJson(segments) == [segments[0], segments[1], segments[2], segments[3] + JSON];
      var head := [SLASH] + segments[0] + [SLASH] + segments[1] + [SLASH] + segments[2];
      assert head + [SLASH] + segments[3] + JSON == head + [SLASH] + (segments[3] + JSON);
    }
  }

  lemma RequestParts(r: Request)
    requires PrintPath(r).Ok?
    ensures IsRawString(r.resource, MAX_RESOURCE_COMPONENT_BYTES, false) && |r.resource| > 0
    ensures IsRawString(r.kind, MAX_RESOURCE_COMPONENT_BYTES, false) && |r.kind| > 0
    ensures IsRawString(r.id, MAX_RESOURCE_ID_BYTES, false) && |r.id| > 0
    ensures !IsForbidden(r.resource) && !IsForbidden(r.kind) && |r.extra| <= MAX_EXTRA_PAIRS && AllPairs(r.extra)
    ensures Encode(r.resource).Ok? && Encode(r.kind).Ok? && Encode(r.id).Ok?
    ensures |r.extra| > 0 ==> PrintExtra(r.extra).Ok?
  {
  }

  lemma PrintThree(a: Text, b: Text, c: Text)
    ensures PrintSegments([a, b, c]) == [SLASH] + a + [SLASH] + b + [SLASH] + c
  {
    assert [a, b, c][1..] == [b, c] && [b, c][1..] == [c] && [c][1..] == [];
    assert PrintSegments([c]) == [SLASH] + c + PrintSegments([]);
    assert PrintSegments([b, c]) == [SLASH] + b + PrintSegments([c]);
  }

  lemma PrintFour(a: Text, b: Text, c: Text, d: Text)
    ensures PrintSegments([a, b, c, d]) == [SLASH] + a + [SLASH] + b + [SLASH] + c + [SLASH] + d
  {
    assert [a, b, c, d][1..] == [b, c, d];
    PrintThree(b, c, d);
  }

  lemma {:induction false} PrintSegmentsAppend(a: seq<Text>, b: seq<Text>)
    ensures PrintSegments(a + b) == PrintSegments(a) + PrintSegments(b)
  {
    if |a| == 0 {
      assert a + b == b;
    } else {
      assert (a + b)[1..] == a[1..] + b;
      PrintSegmentsAppend(a[1..], b);
    }
  }

  /** A fixture spelling has no "=", a printed extra has. */
  lemma PrintedExtraIsNoFixture(extra: Text, subtitles: bool, fixtures: bool)
    requires EQUALS in extra
    ensures UnescapeFixture(extra, subtitles, fixtures) == extra
  {
    var i :| 0 <= i < |extra| && extra[i] == EQUALS;
    assert ToLower(extra)[i] == EQUALS;
    var fixture := "filename%3djumpgate-uat-vobsub-v1.mp4";
    assert forall k :: 0 <= k < |fixture| ==> fixture[k] != '=';
    assert forall k :: 0 <= k < |Ascii(fixture)| ==> Ascii(fixture)[k] != EQUALS;
  }

  // ---------------------------------------------------------------- the theorem

  /** What the segments of a URL built from a printed path parse to. */
  lemma ParseOfSegments(mount: seq<Text>, r: Request, query: Text, fixtures: bool)
    requires IsMount(mount) && PrintPath(r).Ok? && IsQuery(query)
    ensures
      var segments := NonEmpty(Split(PathName(PrintSegments(mount) + PrintPath(r).value + query), SLASH));
      segments == mount + WithJson(Segments(r))
  {
    hide PrintPath, Segments, IsSegment, Split, NonEmpty;
    var segments := Segments(r);
    PrintedSegments(r);
    SegmentCount(r);
    LastSegment(segments);
    var all := mount + WithJson(segments);
    assert forall i :: 0 <= i < |all| ==> IsSegment(all[i]);
    PrintSegmentsAppend(mount, WithJson(segments));
    NoQuestionInSegments(all);
    PathNameOfUrl(PrintSegments(all), query);
    SplitOfSegments(all);
    assert PrintSegments(mount) + PrintPath(r).value == PrintSegments(all);
  }

  lemma SegmentCount(r: Request)
    requires PrintPath(r).Ok?
    ensures |Segments(r)| == if |r.extra| == 0 then 3 else 4
  {
  }

  lemma LastSegment(segments: seq<Text>)
    requires |segments| > 0 && forall i :: 0 <= i < |segments| ==> IsSegment(segments[i])
    ensures
      var last := WithJson(segments)[|segments| - 1];
      && |WithJson(segments)| == |segments|
      && (forall i :: 0 <= i < |segments| ==> IsSegment(WithJson(segments)[i]))
      && EndsInJson(last) && WithoutJson(last) == segments[|segments| - 1]
  {
    JsonSegment(segments[|segments| - 1]);
  }

  /** Parsing the path printed for a valid request gives exactly that request, wherever the gateway is
      mounted and whatever query follows, if and only if the encoded extra fits its byte limit. Ids that
      end in ".json" and names or values that contain "&", "=" or "/" are no exception. */
  lemma PathRoundTrip(mount: seq<Text>, r: Request, query: Text, fixtures: bool)
    requires IsMount(mount) && PrintPath(r).Ok? && IsQuery(query)
    ensures
      var url := PrintSegments(mount) + PrintPath(r).value + query;
      var parsed := ParseUrl(url, Encode(r.resource).value, |r.extra| > 0, fixtures);
      parsed == if |r.extra| > 0 && |PrintExtra(r.extra).value| > MAX_RAW_EXTRA_BYTES then Err(InvalidResourceRequest)
                else Ok(r)
  {
    hide PrintPath, IsSegment, Split, NonEmpty, IsRawString, Encode, PrintExtra, HasControl, IsForbidden, IsExtraPair,
      DecodeOnce, DecodeExtraSegment, UnescapeFixture, PathName, PrintSegments, EndsInJson;
    var segments := Segments(r);
    ParseOfSegments(mount, r, query, fixtures);
    PrintedSegments(r);
    LastSegment(segments);
    RequestParts(r);
    DecodeOnceOfEncode(r.resource, MAX_RESOURCE_COMPONENT_BYTES, false);
    DecodeOnceOfEncode(r.kind, MAX_RESOURCE_COMPONENT_BYTES, false);
    DecodeOnceOfEncode(r.id, MAX_RESOURCE_ID_BYTES, false);
    var all := mount + WithJson(segments);
    var at := |mount|;
    assert all[at] == segments[0] && all[at + 1] == segments[1];
    if |r.extra| == 0 {
      assert r == Request(r.resource, r.kind, r.id, []);
    } else {
      assert all[at + 2] == segments[2];
      DecodePairsOfPrint(r.extra);
      DecodeExtraOfPrint(r.extra);
      PrintedExtraIsNoFixture(segments[3], segments[0] == Ascii("subtitles"), fixtures);
    }
  }

  function Ampersands(n: nat): Text {
    if n == 0 then [] else [AMPERSAND] + Ampersands(n - 1)
  }

  lemma {:induction false} AmpersandsTriple(n: nat)
    ensures Encode(Ampersands(n)).Ok? && |Encode(Ampersands(n)).value| == 3 * n
    ensures ByteLength(Ampersands(n)) == n && forall u :: u in Ampersands(n) ==> u == AMPERSAND
  {
    if n > 0 {
      AmpersandsTriple(n - 1);
      assert Ampersands(n)[1..] == Ampersands(n - 1);
      assert EscapeAll([AMPERSAND]) == Escape(AMPERSAND) + EscapeAll([]);
    }
  }

  /** An accepted request whose value, at its own limit, needs an escape for every character. */
  function Oversized(): Request {
    Request([0x61], [0x61], [0x61], [Pair([0x61], Ampersands(MAX_EXTRA_VALUE_BYTES))])
  }

  /** Such a request is printed, and refused when its path is parsed. */
  lemma OversizedExtraIsRefused(mount: seq<Text>, query: Text, fixtures: bool)
    requires IsMount(mount) && IsQuery(query)
    ensures IsRequest(Oversized()) && PrintPath(Oversized()).Ok?
    ensures
      var url := PrintSegments(mount) + PrintPath(Oversized()).value + query;
      ParseUrl(url, Encode(Oversized().resource).value, true, fixtures) == Err(InvalidResourceRequest)
  {
    hide Ampersands, ParseUrl, PrintSegments;
    var letter: Text := [0x61];
    AmpersandsTriple(MAX_EXTRA_VALUE_BYTES);
    PlainResourceIsItself(letter);
    assert ByteLength(letter) == 1 + ByteLength([]);
    PathRoundTrip(mount, Oversized(), query, fixtures);
  }

  /** A request whose resource needs no escapes, as "stream" and "subtitles" do not, is found under its
      own name. */
  lemma {:induction false} PlainResourceIsItself(resource: Text)
    requires forall u :: u in resource ==> IsUnreserved(u)
    ensures Encode(resource) == Ok(resource)
  {
    if |resource| > 0 {
      assert resource[0] in resource && forall u :: u in resource[1..] ==> u in resource;
      UnreservedIsPlain(resource[0]);
      PlainResourceIsItself(resource[1..]);
      assert resource == [resource[0]] + resource[1..];
    } else {
      assert resource == [];
    }
  }
}
