// What survives when equivalent contexts are recorded again and again.
module ContextRecords {
  import opened Outcomes
  import opened OrderedTables
  import opened Revisions
  import opened SnapshotAuthority
  import opened ContextMerge
  import opened ContextStore
  import opened ContextCoherence
  import opened ContextClaims

  /** record merges twice, once field by field and once as a whole: the second merge changes nothing
      and never fails where the first did not. */
  lemma RecordMergesOnce(profile: Profile, input: RecordInput, previous: StoredContext, now: nat, ttl: nat)
    requires previous.profile == profile && Equivalent(previous, input.contentKey, input.fingerprints)
    ensures
      var request := MergeProvenance(previous.request, input.request);
      var source := MergeProvenance(previous.source, input.source);
      var subtitles := MergeUniqueArray(previous.inlineSubtitles, input.inlineSubtitles);
      var assembled := Assemble(profile, input, Some(previous), now, ttl);
      && (assembled.Ok? <==> request.Ok? && source.Ok? && subtitles.Ok?)
      && (assembled.Ok? ==>
            && assembled.value.request == request.value && assembled.value.source == source.value
            && assembled.value.inlineSubtitles == subtitles.value)
  {
    hide MergeProvenance, MergeUniqueArray;
    SameMembersSameSet(previous.fingerprints, input.fingerprints);
    if MergeProvenance(previous.request, input.request).Ok? {
      ProvenanceMergeIsIdempotent(previous.request, input.request);
    }
    if MergeProvenance(previous.source, input.source).Ok? {
      ProvenanceMergeIsIdempotent(previous.source, input.source);
    }
    if MergeUniqueArray(previous.inlineSubtitles, input.inlineSubtitles).Ok? {
      ArrayMergeIsIdempotent(previous.inlineSubtitles, input.inlineSubtitles);
    }
  }

  lemma SameMembersSameSet(a: seq<nat>, b: seq<nat>)
    requires multiset(a) == multiset(b)
    ensures SameFingerprintSet(a, b)
  {
    assert |a| == |multiset(a)| == |multiset(b)| == |b|;
    forall f | f in b ensures f in a {
      assert f in multiset(b);
    }
  }

  /** What the first sighting of a context fixed. */
  predicate SameSighting(a: Stored, b: Stored) {
    && a.context.contextId == b.context.contextId && a.context.profile == b.context.profile
    && a.context.contentKey == b.context.contentKey && a.context.createdAt == b.context.createdAt
    && a.context.canonicalIdentity == b.context.canonicalIdentity && a.context.traktEligible == b.context.traktEligible
  }

  function ContextAt(s: Store, profile: Profile, id: nat): Option<Stored> {
    Lookup(s.contexts, profile, id)
  }

  /** Whether an operation records the context again. */
  predicate Refreshes(s: Store, op: Op, profile: Profile, id: nat) {
    && op.DoRecord? && op.profile == profile
    && var result := Record(s, profile, op.input, op.clock).1;
       result.Ok? && result.value.contextId == id
  }

  ghost predicate Evolves(s: Store, s': Store, profile: Profile, id: nat, refreshed: bool) {
    && ContextAt(s, profile, id).Some? && ContextAt(s', profile, id).Some?
    && var before, after := ContextAt(s, profile, id).value, ContextAt(s', profile, id).value;
       && SameSighting(before, after)
       && Value(after.revision) == Value(before.revision) + (if refreshed then 1 else 0)
       && (!refreshed ==> after == before)
       && Value(before.providerRevision) <= Value(after.providerRevision)
  }

  lemma StoredRefresh(s: Store, profile: Profile, input: RecordInput, generation: Generation, context: StoredContext,
      id: nat)
    requires Coherent(s) && AdmitRecord(s, profile, input, generation).Ok? && ContextAt(s, profile, id).Some?
    requires
      var previous := AdmitRecord(s, profile, input, generation).value;
      && Assemble(profile, input,
           if previous.Some? then Some(previous.value.context) else None, s.lastNow, s.config.ttl)
         == Ok(context)
      && NextRevision(previous).Ok?
    ensures
      var stored := Stored(generation, NextRevision(AdmitRecord(s, profile, input, generation).value).value,
                           input.providerRevision, context);
      Evolves(s, s.(contexts := Put(s.contexts, profile, context.contextId, stored)), profile, id,
          context.contextId == id)
  {
    hide Coherent, FindEquivalent, Put, MergeProvenance, MergeUniqueArray, Overlaps, IdInUse, Value, Increment, Lookup;
    var previous := AdmitRecord(s, profile, input, generation).value;
    var stored := Stored(generation, NextRevision(previous).value, input.providerRevision, context);
    TablesAreDistinct(s);
    LookupAfterPut(s.contexts, profile, context.contextId, stored, profile, id);
    if context.contextId == id {
      ExistingIsEquivalent(s, profile, input, generation, id);
      IncrementAddsOne(previous.value.revision);
    }
  }

  /** A record under an id in use is a record of its equivalent. */
  lemma ExistingIsEquivalent(s: Store, profile: Profile, input: RecordInput, generation: Generation, id: nat)
    requires Coherent(s) && AdmitRecord(s, profile, input, generation).Ok? && ContextAt(s, profile, id).Some?
    requires
      var previous := AdmitRecord(s, profile, input, generation).value;
      id == if previous.Some? then previous.value.context.contextId else input.newId
    ensures
      var previous := AdmitRecord(s, profile, input, generation).value;
      && previous.Some? && ContextAt(s, profile, id) == previous
      && previous.value.context.profile == profile
      && Equivalent(previous.value.context, input.contentKey, input.fingerprints)
      && Value(previous.value.providerRevision) <= Value(input.providerRevision)
  {
    hide Bounded, ClaimsOk, Current, Apart, FindEquivalent, Overlaps, Value;
    AdmittedRow(s, profile, input, generation, s.lastNow + s.config.ttl);
    var previous := AdmitRecord(s, profile, input, generation).value;
    if previous.Some? {
      LookupFinds(s.contexts, profile, id, previous.value);
      RowIsOk(s.contexts, Row(profile, id, previous.value), s.lastNow + s.config.ttl);
    }
  }

  lemma RecordEvolves(s: Store, p: Profile, input: RecordInput, clock: nat, profile: Profile, id: nat)
    requires Coherent(s) && ConfigOk(s.config) && ContextAt(s, profile, id).Some?
    requires ContextAt(s, profile, id).value.context.expiresAt > Record(s, p, input, clock).0.lastNow
    ensures Evolves(s, Record(s, p, input, clock).0, profile, id, Refreshes(s, DoRecord(p, input, clock), profile, id))
  {
    hide Coherent, ConfigOk, Purge, AdmitRecord, Assemble, Evolves, Value, Lookup, Put, Increment;
    var now := ReadNow(s, clock);
    var s', s1 := Record(s, p, input, clock).0, Purge(s, now);
    PurgedConfig(s, now);
    UnchangedEvolves(s, s, profile, id);
    var generation := if input.generation.Some? then input.generation.value else GenerationOf(s, p);
    if !generation.Pending? && RecordAccepted(input) {
      PurgeLeavesLive(s, now, profile, id);
      PurgeKeeps(s, now);
      UnchangedEvolves(s, s1, profile, id);
      var result := Record(s, p, input, clock).1;
      if result.Ok? {
        if p == profile {
          StoredRefresh(s1, p, input, generation, result.value, id);
        } else {
          var stored := Stored(generation, NextRevision(AdmitRecord(s1, p, input, generation).value).value,
                               input.providerRevision, result.value);
          TablesAreDistinct(s1);
          LookupAfterPut(s1.contexts, p, result.value.contextId, stored, profile, id);
          UnchangedEvolves(s1, s', profile, id);
        }
        EvolvesFrom(s, s1, s', profile, id, p == profile && result.value.contextId == id);
      }
    }
  }

  lemma UnchangedEvolves(s: Store, s': Store, profile: Profile, id: nat)
    requires ContextAt(s, profile, id).Some? && ContextAt(s', profile, id) == ContextAt(s, profile, id)
    ensures Evolves(s, s', profile, id, false)
  {
  }

  lemma EvolvesFrom(a: Store, b: Store, c: Store, profile: Profile, id: nat, refreshed: bool)
    requires Evolves(a, b, profile, id, false) && Evolves(b, c, profile, id, refreshed)
    ensures Evolves(a, c, profile, id, refreshed)
  {
  }

  lemma PurgeLeavesLive(s: Store, now: nat, profile: Profile, id: nat)
    requires Coherent(s) && ContextAt(s, profile, id).Some? && ContextAt(s, profile, id).value.context.expiresAt > now
    ensures ContextAt(Purge(s, now), profile, id) == ContextAt(s, profile, id)
  {
    hide Bury, Current, ClaimsOk, Bounded;
    LookupAfterKeep(s.contexts, (row: Row<nat, Stored>) => ContextLives(row, now), profile, id);
  }

  lemma ApplyEvolves(s: Store, op: Op, profile: Profile, id: nat)
    requires Coherent(s) && ConfigOk(s.config) && ContextAt(s, profile, id).Some?
    requires ContextAt(s, profile, id).value.context.expiresAt > Apply(s, op).lastNow
    requires ContextAt(Apply(s, op), profile, id).Some?
    ensures Evolves(s, Apply(s, op), profile, id, Refreshes(s, op, profile, id))
  {
    hide Coherent, ConfigOk, Evolves, Record, Purge;
    var s' := Apply(s, op);
    if op.DoRecord? {
      RecordEvolves(s, op.profile, op.input, op.clock, profile, id);
    } else if op.DoInvalidateProfile? || op.DoBegin? || op.DoMutation? {
      ProfileCallLeavesContext(s, op, profile, id);
      UnchangedEvolves(s, s', profile, id);
    } else {
      OthersOnlyPurge(s, op);
      if s'.contexts != s.contexts {
        PurgeLeavesLive(s, s'.lastNow, profile, id);
      }
      UnchangedEvolves(s, s', profile, id);
    }
  }

  /** Every call but record leaves the contexts alone, apart from purging them at the time it read. */
  lemma OthersOnlyPurge(s: Store, op: Op)
    requires !op.DoRecord? && !op.DoInvalidateProfile? && !op.DoBegin? && !op.DoMutation?
    ensures Apply(s, op).contexts == s.contexts || Apply(s, op).contexts == Purge(s, Apply(s, op).lastNow).contexts
  {
    hide Keep, Bury, Answer, Lookup, Replaced, AttemptFits, HasActiveSession, Put;
  }

  lemma ProfileCallLeavesContext(s: Store, op: Op, profile: Profile, id: nat)
    requires Coherent(s) && (op.DoInvalidateProfile? || op.DoBegin? || op.DoMutation?)
    requires ContextAt(s, profile, id).Some? && ContextAt(Apply(s, op), profile, id).Some?
    ensures ContextAt(Apply(s, op), profile, id) == ContextAt(s, profile, id)
  {
    hide Invalidate, Begin, Mutate, Current, ClaimsOk, Bounded;
    LookupAfterKeep(s.contexts, (row: Row<nat, Stored>) => row.profile != op.profile, profile, id);
  }

  /** The context is there, unexpired whenever the clock is read, from start to end. */
  ghost predicate PresentDuring(s: Store, ops: seq<Op>, profile: Profile, id: nat)
    decreases |ops|
  {
    && ContextAt(Run(s, ops), profile, id).Some?
    && (|ops| > 0 ==>
          && PresentDuring(s, ops[..|ops| - 1], profile, id)
          && ContextAt(Run(s, ops[..|ops| - 1]), profile, id).value.context.expiresAt > Run(s, ops).lastNow)
  }

  /** How many operations of the run recorded the context again. */
  function TimesRefreshed(s: Store, ops: seq<Op>, profile: Profile, id: nat): nat
    decreases |ops|
  {
    if |ops| == 0 then 0
    else
      var front := ops[..|ops| - 1];
      TimesRefreshed(s, front, profile, id) + if Refreshes(Run(s, front), ops[|ops| - 1], profile, id) then 1 else 0
  }

  /** First-seen identity, eligibility, context id and creation time survive any number of records,
      while the revision grows by one with each of them. */
  lemma {:induction false} FirstSightingSurvives(s: Store, ops: seq<Op>, profile: Profile, id: nat)
    requires Coherent(s) && ConfigOk(s.config) && PresentDuring(s, ops, profile, id)
    ensures ContextAt(s, profile, id).Some?
    ensures
      var before, after := ContextAt(s, profile, id).value, ContextAt(Run(s, ops), profile, id).value;
      && SameSighting(before, after)
      && Value(after.revision) == Value(before.revision) + TimesRefreshed(s, ops, profile, id)
      && Value(before.providerRevision) <= Value(after.providerRevision)
    ensures Coherent(Run(s, ops)) && Run(s, ops).config == s.config
    decreases |ops|
  {
    hide Coherent, ConfigOk, Apply, Value, Refreshes;
    if |ops| > 0 {
      var front, last := ops[..|ops| - 1], ops[|ops| - 1];
      FirstSightingSurvives(s, front, profile, id);
      ApplyKeeps(Run(s, front), last);
      ApplyEvolves(Run(s, front), last, profile, id);
    }
  }
}
