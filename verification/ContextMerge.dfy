// Merging an equivalent playback context into the one already stored.
module ContextMerge {
  import opened Outcomes
  import opened Sequences

  const MAX_CONTEXT_ARRAY_LENGTH: nat := 64

  /** One provenance field pair, `provider`/`providers` for instance; `rest` is every other field. */
  datatype Provenance = Provenance(singular: Option<nat>, plural: Option<seq<nat>>, rest: nat)

  /** Equal values are represented by equal numbers: identifiers, serialised subtitles, opaque objects. */
  datatype StoredContext = StoredContext(
    contextId: nat,
    profile: nat,
    contentKey: Option<nat>,
    canonicalIdentity: Option<nat>,
    traktEligible: bool,
    request: Provenance,
    display: nat,
    source: Provenance,
    fingerprints: seq<nat>,
    inlineSubtitles: seq<nat>,
    createdAt: nat,
    expiresAt: nat)

  datatype MergeError = TooManyEntries | NotEquivalent

  // ---------------------------------------------------------------- operations

  /** The values of `more` that are neither in `seen` nor repeated, in order. */
  function Unseen(seen: seq<nat>, more: seq<nat>): seq<nat>
    decreases |more|
  {
    if |more| == 0 then []
    else if more[0] in seen then Unseen(seen, more[1..])
    else [more[0]] + Unseen(seen + [more[0]], more[1..])
  }

  /** First occurrences, in order. */
  function Unique(values: seq<nat>): seq<nat> {
    Unseen([], values)
  }

  function Listed<T>(value: Option<T>): seq<T> {
    if value.Some? then [value.value] else []
  }

  function Entries(plural: Option<seq<nat>>): seq<nat> {
    if plural.Some? then plural.value else []
  }

  /** readProvenanceFields: the singular value first, then the list. */
  function ReadProvenance(p: Provenance): seq<nat> {
    Unique(Listed(p.singular) + Entries(p.plural))
  }

  /** mergeProvenanceFields. */
  function MergeProvenance(previous: Provenance, current: Provenance): Result<Provenance, MergeError> {
    var values := Unique(ReadProvenance(previous) + ReadProvenance(current));
    if |values| > MAX_CONTEXT_ARRAY_LENGTH then Err(TooManyEntries)
    else if |values| == 0 then Ok(current)
    else
      var singular := if current.singular.None? then Some(values[0]) else current.singular;
      Ok(current.(singular := singular, plural := Some(values)))
  }

  /** mergeUniqueContextArray. */
  function MergeUniqueArray(previous: seq<nat>, current: seq<nat>): Result<seq<nat>, MergeError> {
    var values := Unique(previous + current);
    if |values| > MAX_CONTEXT_ARRAY_LENGTH then Err(TooManyEntries) else Ok(values)
  }

  predicate SameFingerprintSet(left: seq<nat>, right: seq<nat>) {
    |left| == |right| && forall f :: f in right ==> f in left
  }

  /** mergeStoredContext. */
  function MergeStoredContext(previous: StoredContext, candidate: StoredContext): Result<StoredContext, MergeError> {
    if previous.profile != candidate.profile || previous.contentKey != candidate.contentKey
       || !SameFingerprintSet(previous.fingerprints, candidate.fingerprints)
    then Err(NotEquivalent)
    else
      var request := MergeProvenance(previous.request, candidate.request);
      var source := MergeProvenance(previous.source, candidate.source);
      var subtitles := MergeUniqueArray(previous.inlineSubtitles, candidate.inlineSubtitles);
      if request.Err? then Err(request.error)
      else if source.Err? then Err(source.error)
      else if subtitles.Err? then Err(subtitles.error)
      else Ok(candidate.(
                contextId := previous.contextId,
                canonicalIdentity := previous.canonicalIdentity,
                traktEligible := previous.traktEligible,
                request := request.value,
                source := source.value,
                inlineSubtitles := subtitles.value,
                createdAt := previous.createdAt))
  }

  // ---------------------------------------------------------------- unique lists

  lemma {:induction false} UnseenAddsWhatIsNew(seen: seq<nat>, more: seq<nat>)
    ensures forall v :: v in Unseen(seen, more) <==> v in more && v !in seen
    ensures NoRepeats(Unseen(seen, more))
    decreases |more|
  {
    if |more| > 0 {
      if more[0] in seen {
        UnseenAddsWhatIsNew(seen, more[1..]);
      } else {
        UnseenAddsWhatIsNew(seen + [more[0]], more[1..]);
        assert more[0] !in Unseen(seen + [more[0]], more[1..]);
      }
      assert more == [more[0]] + more[1..];
    }
  }

  lemma {:induction false} UnseenOfConcatenation(seen: seq<nat>, a: seq<nat>, b: seq<nat>)
    ensures Unseen(seen, a + b) == Unseen(seen, a) + Unseen(seen + a, b)
    decreases |a|
  {
    if |a| == 0 {
      assert a + b == b && seen + a == seen;
    } else {
      assert (a + b)[1..] == a[1..] + b;
      if a[0] in seen {
        UnseenOfConcatenation(seen, a[1..], b);
        UnseenLooksAtMembers(seen + a[1..], seen + a, b);
      } else {
        UnseenOfConcatenation(seen + [a[0]], a[1..], b);
        assert seen + [a[0]] + a[1..] == seen + a;
      }
    }
  }

  lemma {:induction false} UnseenLooksAtMembers(seen: seq<nat>, seen': seq<nat>, more: seq<nat>)
    requires forall v :: v in seen <==> v in seen'
    ensures Unseen(seen, more) == Unseen(seen', more)
    decreases |more|
  {
    if |more| > 0 {
      if more[0] in seen {
        UnseenLooksAtMembers(seen, seen', more[1..]);
      } else {
        UnseenLooksAtMembers(seen + [more[0]], seen' + [more[0]], more[1..]);
      }
    }
  }

  /** Duplicate-free lists of new values are kept as they are. */
  lemma {:induction false} UnseenKeepsNewLists(seen: seq<nat>, more: seq<nat>)
    requires NoRepeats(more) && forall v :: v in more ==> v !in seen
    ensures Unseen(seen, more) == more
    decreases |more|
  {
    if |more| > 0 {
      assert more[0] in more;
      forall v | v in more[1..] ensures v !in seen + [more[0]] {
        assert v in more;
      }
      UnseenKeepsNewLists(seen + [more[0]], more[1..]);
    }
  }

  lemma {:induction false} UnseenSkipsKnownLists(seen: seq<nat>, more: seq<nat>)
    requires forall v :: v in more ==> v in seen
    ensures Unseen(seen, more) == []
    decreases |more|
  {
    if |more| > 0 {
      assert more[0] in more && forall v :: v in more[1..] ==> v in more;
      UnseenSkipsKnownLists(seen, more[1..]);
    }
  }

  lemma UniqueIsIdempotent(values: seq<nat>)
    ensures Unique(Unique(values)) == Unique(values)
  {
    UnseenAddsWhatIsNew([], values);
    UnseenKeepsNewLists([], Unique(values));
  }

  /** Everything of `a` in its order, then what `b` adds in its order. */
  lemma UniqueOfUnion(a: seq<nat>, b: seq<nat>)
    ensures Unique(a + b) == Unique(a) + Unseen(a, b)
  {
    UnseenOfConcatenation([], a, b);
    assert [] + a == a;
  }

  // ---------------------------------------------------------------- subtitles

  /** Merging the merged list again changes nothing. */
  lemma ArrayMergeIsIdempotent(previous: seq<nat>, current: seq<nat>)
    requires MergeUniqueArray(previous, current).Ok?
    ensures MergeUniqueArray(previous, MergeUniqueArray(previous, current).value) == MergeUniqueArray(previous, current)
  {
    UnionAbsorbs(previous, current);
  }

  lemma UnionAbsorbs(a: seq<nat>, b: seq<nat>)
    ensures Unique(a + Unique(a + b)) == Unique(a + b)
  {
    hide Unseen;
    var u, extra := Unique(a + b), Unseen(a, b);
    UniqueOfUnion(a, b);
    UniqueOfUnion(a, u);
    UnseenAddsWhatIsNew([], a);
    UnseenAddsWhatIsNew(a, b);
    UnseenOfConcatenation(a, Unique(a), extra);
    UnseenSkipsKnownLists(a, Unique(a));
    UnseenLooksAtMembers(a + Unique(a), a, extra);
    UnseenKeepsNewLists(a, extra);
  }

  // ---------------------------------------------------------------- provenance

  /** The merged list is the union without repetition: all the predecessor's entries in the order it
      reads them, then the newcomers in the order the newer context reads them. */
  lemma MergedProvenanceIsTheUnion(previous: Provenance, current: Provenance)
    requires MergeProvenance(previous, current).Ok?
    ensures
      var merged := Entries(MergeProvenance(previous, current).value.plural);
      var before, after := ReadProvenance(previous), ReadProvenance(current);
      && (|before| + |after| > 0 ==> merged == before + Unseen(before, after))
      && NoRepeats(before + Unseen(before, after))
      && forall v :: v in before + Unseen(before, after) <==> v in before || v in after
  {
    var before, after := ReadProvenance(previous), ReadProvenance(current);
    hide Unseen;
    UniqueIsIdempotent(Listed(previous.singular) + Entries(previous.plural));
    UniqueOfUnion(before, after);
    UnseenAddsWhatIsNew([], before + after);
    UnseenAddsWhatIsNew(before, after);
    assert forall v :: v in before ==> v in before + after;
    assert |before + after| > 0 ==> (before + after)[0] in before + after;
  }

  /** The list the predecessor stored heads the merged one exactly when it repeats no value and its singular
      value heads it: a repetition is dropped, and the singular value moves to the front. */
  lemma StoredOrderIsKept(previous: Provenance, current: Provenance)
    requires MergeProvenance(previous, current).Ok?
    ensures
      var stored := Entries(previous.plural);
      stored <= Entries(MergeProvenance(previous, current).value.plural) <==>
        |stored| == 0 || (NoRepeats(stored) && (previous.singular.None? || previous.singular.value == stored[0]))
  {
    hide Unseen;
    MergedProvenanceIsTheUnion(previous, current);
    var stored := Entries(previous.plural);
    if |stored| > 0 {
      var before, merged := ReadProvenance(previous), Entries(MergeProvenance(previous, current).value.plural);
      UnseenAddsWhatIsNew([], Listed(previous.singular) + stored);
      assert stored[0] in Listed(previous.singular) + stored;
      if NoRepeats(stored) {
        ReadingOfAListWithoutRepetition(previous);
      } else {
        assert stored <= merged ==> NoRepeats(stored);
      }
    }
  }

  lemma ReadingOfAListWithoutRepetition(previous: Provenance)
    requires |Entries(previous.plural)| > 0 && NoRepeats(Entries(previous.plural))
    ensures |ReadProvenance(previous)| > 0
    ensures
      var stored := Entries(previous.plural);
      if previous.singular.None? || previous.singular.value == stored[0] then ReadProvenance(previous) == stored
      else ReadProvenance(previous)[0] != stored[0]
  {
    hide Unseen;
    var stored := Entries(previous.plural);
    UnseenKeepsNewLists([], stored);
    if previous.singular.None? {
      assert [] + stored == stored;
    } else {
      var head := previous.singular.value;
      UniqueOfUnion([head], stored);
      UnseenKeepsNewLists([], [head]);
      assert ReadProvenance(previous) == [head] + Unseen([head], stored);
      if head == stored[0] {
        assert [head] + [] == [head] && stored == [head] + stored[1..];
        UnseenOfConcatenation([head], [head], stored[1..]);
        UnseenSkipsKnownLists([head], [head]);
        UnseenLooksAtMembers([head] + [head], [head], stored[1..]);
        forall v | v in stored[1..] ensures v !in [head] {
          var i :| 0 <= i < |stored[1..]| && stored[1..][i] == v;
          assert stored[0] != stored[i + 1];
        }
        UnseenKeepsNewLists([head], stored[1..]);
      }
    }
  }

  /** A repetition is dropped: [a, a] comes out as [a]. */
  lemma RepetitionIsDropped(a: nat, rest: nat)
    ensures MergeProvenance(Provenance(None, Some([a, a]), 0), Provenance(None, None, rest))
            == Ok(Provenance(Some(a), Some([a]), rest))
  {
    var previous, current := Provenance(None, Some([a, a]), 0), Provenance(None, None, rest);
    assert [] + [a, a] == [a, a] && [a, a][1..] == [a];
    assert Unseen([] + [a], [a]) == [];
    assert ReadProvenance(previous) == [a];
    assert ReadProvenance(current) == [];
    assert [a] + [] == [a];
  }

  /** It does move: b, listed as [a, b], comes out as [b, a, c]. */
  lemma StoredOrderMayChange(a: nat, b: nat, c: nat)
    requires a != b && b != c && a != c
    ensures
      var previous := Provenance(Some(b), Some([a, b]), 0);
      MergeProvenance(previous, Provenance(Some(c), None, 0)) == Ok(Provenance(Some(c), Some([b, a, c]), 0))
  {
    hide Unseen;
    var previous, current := Provenance(Some(b), Some([a, b]), 0), Provenance(Some(c), None, 0);
    UniqueOfUnion([b], [a, b]);
    UnseenKeepsNewLists([], [b]);
    assert [a, b] == [a] + [b];
    UnseenOfConcatenation([b], [a], [b]);
    UnseenKeepsNewLists([b], [a]);
    UnseenSkipsKnownLists([b] + [a], [b]);
    assert ReadProvenance(previous) == [b] + [a];
    assert [c] + [] == [c];
    UnseenKeepsNewLists([], [c]);
    UniqueOfUnion([b] + [a], [c]);
    UnseenKeepsNewLists([], [b] + [a]);
    UnseenKeepsNewLists([b] + [a], [c]);
    assert [b] + [a] + [c] == [b, a, c];
  }

  /** Merging the merged fields with the predecessor again changes nothing. */
  lemma ProvenanceMergeIsIdempotent(previous: Provenance, current: Provenance)
    requires MergeProvenance(previous, current).Ok?
    ensures MergeProvenance(previous, MergeProvenance(previous, current).value) == MergeProvenance(previous, current)
  {
    hide Unseen;
    var before, after := ReadProvenance(previous), ReadProvenance(current);
    var values := Unique(before + after);
    if |values| > 0 {
      var merged := MergeProvenance(previous, current).value;
      var singular := merged.singular.value;
      UnionAbsorbs(before, after);
      assert Unique(before + ReadProvenance(merged)) == values by {
        if current.singular.Some? {
          SingularComesFirst(current);
          ReadingSingularFirst(before, after, singular, values);
        } else {
          UnseenAddsWhatIsNew([], before + after);
          HeadIsRead(singular, values);
        }
      }
    }
  }

  lemma SingularComesFirst(p: Provenance)
    requires p.singular.Some?
    ensures |ReadProvenance(p)| > 0 && ReadProvenance(p)[0] == p.singular.value
  {
    FirstNewcomer([], Listed(p.singular) + Entries(p.plural));
  }

  /** Reading a list whose head is also the singular value gives the list. */
  lemma HeadIsRead(head: nat, values: seq<nat>)
    requires |values| > 0 && values[0] == head && NoRepeats(values)
    ensures Unique([head] + values) == values
  {
    assert [head] + values == [head, head] + values[1..];
    UniqueOfUnion([head], values);
    UnseenKeepsNewLists([], values);
    assert Unique(values) == [head] + Unseen([] + [head], values[1..]);
    assert [] + [head] == [head];
  }

  /** Reading the merged fields puts the newer singular value first, which is the first newcomer or no
      newcomer at all: the union with the predecessor is the same list. */
  lemma ReadingSingularFirst(before: seq<nat>, after: seq<nat>, singular: nat, values: seq<nat>)
    requires values == Unique(before + after) && |after| > 0 && after[0] == singular
    ensures Unique(before + Unique([singular] + values)) == values
  {
    hide Unseen;
    var read, extra := Unique([singular] + values), Unseen(before, after);
    if singular !in before {
      FirstNewcomer(before, after);
    }
    UniqueOfUnion(before, after);
    UniqueOfUnion(before, read);
    UnseenOfUnique(before, [singular] + values);
    UnseenOfConcatenation(before, [singular], values);
    UnseenOfConcatenation(before + [singular], Unique(before), extra);
    UnseenAddsWhatIsNew([], before);
    UnseenAddsWhatIsNew(before, after);
    UnseenSkipsKnownLists(before + [singular], Unique(before));
    UnseenLooksAtMembers(before + [singular] + Unique(before), before + [singular], extra);
    HeadFirst(before, singular, extra);
  }

  lemma FirstNewcomer(seen: seq<nat>, more: seq<nat>)
    requires |more| > 0 && more[0] !in seen
    ensures |Unseen(seen, more)| > 0 && Unseen(seen, more)[0] == more[0]
  {
  }

  lemma HeadFirst(seen: seq<nat>, head: nat, extra: seq<nat>)
    requires NoRepeats(extra) && forall v :: v in extra ==> v !in seen
    requires head in seen || (|extra| > 0 && extra[0] == head)
    ensures Unseen(seen, [head]) + Unseen(seen + [head], extra) == extra
  {
    assert [head][1..] == [];
    if head in seen {
      UnseenKeepsNewLists(seen + [head], extra);
    } else {
      assert head in seen + [head] && extra == [head] + extra[1..];
      forall v | v in extra[1..] ensures v !in seen + [head] {
        assert v in extra;
      }
      UnseenKeepsNewLists(seen + [head], extra[1..]);
    }
  }

  lemma {:induction false} UnseenOfUnseen(seen: seq<nat>, known: seq<nat>, more: seq<nat>)
    requires forall v :: v in known ==> v in seen
    ensures Unseen(seen, Unseen(known, more)) == Unseen(seen, more)
    decreases |more|
  {
    if |more| > 0 {
      if more[0] in known {
        UnseenOfUnseen(seen, known, more[1..]);
      } else if more[0] in seen {
        UnseenOfUnseen(seen, known + [more[0]], more[1..]);
      } else {
        UnseenOfUnseen(seen + [more[0]], known + [more[0]], more[1..]);
      }
    }
  }

  lemma UnseenOfUnique(seen: seq<nat>, more: seq<nat>)
    ensures Unseen(seen, Unique(more)) == Unseen(seen, more)
  {
    UnseenOfUnseen(seen, [], more);
  }

  // ---------------------------------------------------------------- contexts

  /** Re-merging an already merged context with its predecessor changes nothing. */
  lemma ContextMergeIsIdempotent(previous: StoredContext, candidate: StoredContext)
    requires MergeStoredContext(previous, candidate).Ok?
    ensures MergeStoredContext(previous, MergeStoredContext(previous, candidate).value)
            == MergeStoredContext(previous, candidate)
  {
    ProvenanceMergeIsIdempotent(previous.request, candidate.request);
    ProvenanceMergeIsIdempotent(previous.source, candidate.source);
    ArrayMergeIsIdempotent(previous.inlineSubtitles, candidate.inlineSubtitles);
  }

  /** What was first seen stays; what describes the latest sighting follows the newer context. */
  lemma MergeKeepsFirstSighting(previous: StoredContext, candidate: StoredContext)
    requires MergeStoredContext(previous, candidate).Ok?
    ensures
      var merged := MergeStoredContext(previous, candidate).value;
      && merged.contextId == previous.contextId && merged.createdAt == previous.createdAt
      && merged.canonicalIdentity == previous.canonicalIdentity && merged.traktEligible == previous.traktEligible
      && merged.profile == previous.profile && merged.contentKey == previous.contentKey
      && merged.display == candidate.display && merged.expiresAt == candidate.expiresAt
      && merged.fingerprints == candidate.fingerprints
      && (forall s :: s in merged.inlineSubtitles <==> s in previous.inlineSubtitles || s in candidate.inlineSubtitles)
  {
    UnseenAddsWhatIsNew([], previous.inlineSubtitles + candidate.inlineSubtitles);
  }

  // ---------------------------------------------------------------- when a merge is refused

  function Members(values: seq<nat>): set<nat> {
    set v | v in values
  }

  lemma {:induction false} SizeWithoutRepetition(values: seq<nat>)
    requires NoRepeats(values)
    ensures |Members(values)| == |values|
  {
    if |values| > 0 {
      SizeWithoutRepetition(values[1..]);
      HeadIsNew(values);
    }
  }

  lemma HeadIsNew(values: seq<nat>)
    requires NoRepeats(values) && |values| > 0
    ensures values[0] !in Members(values[1..]) && Members(values) == Members(values[1..]) + {values[0]}
  {
    assert forall i :: 0 <= i < |values[1..]| ==> values[1..][i] == values[i + 1];
    assert values == [values[0]] + values[1..];
  }

  lemma UniqueCounts(values: seq<nat>)
    ensures |Unique(values)| == |Members(values)|
  {
    UnseenAddsWhatIsNew([], values);
    SizeWithoutRepetition(Unique(values));
    assert Members(Unique(values)) == Members(values);
  }

  /** A merge of lists is refused exactly for more than 64 different values, however often each occurs. */
  lemma MergesAreRefusedExactly(a: seq<nat>, b: seq<nat>, previous: Provenance, current: Provenance)
    ensures MergeUniqueArray(a, b).Err? <==> |Members(a + b)| > MAX_CONTEXT_ARRAY_LENGTH
    ensures
      var before, after := ReadProvenance(previous), ReadProvenance(current);
      && (MergeProvenance(previous, current).Err? <==> |Members(before + after)| > MAX_CONTEXT_ARRAY_LENGTH)
      && (forall v :: v in before <==> previous.singular == Some(v) || v in Entries(previous.plural))
      && (forall v :: v in after <==> current.singular == Some(v) || v in Entries(current.plural))
  {
    hide Unseen;
    UniqueCounts(a + b);
    var before, after := ReadProvenance(previous), ReadProvenance(current);
    UniqueCounts(before + after);
    UnseenAddsWhatIsNew([], Listed(previous.singular) + Entries(previous.plural));
    UnseenAddsWhatIsNew([], Listed(current.singular) + Entries(current.plural));
  }
}
