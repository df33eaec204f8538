// What is recorded can be claimed, what is claimed gives access, and what each call refuses.
module ContextRoundTrips {
  import opened Outcomes
  import opened Sequences
  import opened OrderedTables
  import opened Revisions
  import opened SnapshotAuthority
  import opened ContextMerge
  import opened ContextStore
  import opened ContextCoherence
  import opened ContextClaims
  import opened ContextAccess

  // ---------------------------------------------------------------- claim

  /** A call that is no replay is answered exactly when nothing forbids it: the profile is not being changed,
      generation, launch time and device generation fit, and there is room for the attempt and the claim. Only
      a claim that would be "claimed" under a session in use is refused for that. */
  lemma ClaimIsAnsweredExactly(s: Store, profile: Profile, device: Device, input: ClaimInput, clock: nat)
    requires ClaimAccepted(input)
    requires PriorAttempt(Purge(s, ReadNow(s, clock)), profile, device, input.attempt).None?
    ensures
      var now := ReadNow(s, clock);
      var s1 := Purge(s, now);
      var slot, known := Slot(s1, profile, device), Lookup(s1.devices, profile, device);
      var older := slot.Some? && input.launchedAt < slot.value.binding.launchedAt;
      ClaimCall(s, profile, device, input, clock).1.Ok? <==>
        && GenerationOf(s, profile).Stable?
        && (input.generation.Some? ==> input.generation.value == GenerationOf(s, profile))
        && input.launchedAt <= now + s.config.maxFutureSkew && now <= input.launchedAt + s.config.maxLaunchAge
        && (known.Some? ==> known.value.generation == input.deviceGeneration)
        && |s1.attempts| < s.config.maxAttempts
        && CountFor(s1.attempts, profile) < s.config.maxAttemptsPerProfile
        && (older
            || ((slot.Some? || (|s1.claims| < s.config.maxClaims
                                && CountFor(s1.claims, profile) < s.config.maxClaimsPerProfile))
                && (Answer(s1, profile, input, now).0.Claimed? ==> !HasActiveSession(s1.claims, input.session))))
  {
    hide Purge, SetDevice, Answer, HasActiveSession, Lookup;
    var now := ReadNow(s, clock);
    PurgedConfig(s, now);
    PurgeKeepsAuthorities(s, now);
    SetDeviceFrame(Purge(s, now), profile, device, input.deviceGeneration, now);
    AnswerIgnoresDevices(Purge(s, now), SetDevice(Purge(s, now), profile, device, input.deviceGeneration, now), profile,
                         input, now);
  }

  lemma PurgeKeepsAuthorities(s: Store, now: nat)
    ensures Purge(s, now).authorities == s.authorities
  {
    hide Keep, Bury;
  }

  /** A launch older than the device's claim is answered "not found" and leaves that claim as it is. */
  lemma OlderLaunchIsNotFound(s: Store, profile: Profile, device: Device, input: ClaimInput, clock: nat)
    requires ClaimCall(s, profile, device, input, clock).1.Ok?
    requires PriorAttempt(Purge(s, ReadNow(s, clock)), profile, device, input.attempt).None?
    requires
      var slot := Slot(Purge(s, ReadNow(s, clock)), profile, device);
      slot.Some? && input.launchedAt < slot.value.binding.launchedAt
    ensures ClaimCall(s, profile, device, input, clock).1 == Ok(NotFound(input.session))
    ensures ClaimCall(s, profile, device, input, clock).0.claims == Purge(s, ReadNow(s, clock)).claims
  {
    hide Purge, SetDevice, Answer, HasActiveSession, Lookup;
    var now := ReadNow(s, clock);
    SetDeviceFrame(Purge(s, now), profile, device, input.deviceGeneration, now);
  }

  /** A call answered afresh leaves the device with exactly this claim, and knows the device. */
  lemma FreshClaimIsStored(s: Store, profile: Profile, device: Device, input: ClaimInput, clock: nat)
    requires Coherent(s) && ConfigOk(s.config) && AnsweredAfresh(s, profile, device, input, clock)
    ensures
      var now := ReadNow(s, clock);
      var s1 := Purge(s, now);
      var (s', result) := ClaimCall(s, profile, device, input, clock);
      var (response, expiresAt) := Answer(s1, profile, input, now);
      && result == Ok(response)
      && Slot(s', profile, device)
         == Some(MakeClaim(BindingOf(s1, profile, input), Slot(s1, profile, device), response, expiresAt, now))
      && PriorAttempt(s', profile, device, input.attempt)
         == Some(Attempt(BindingOf(s1, profile, input), expiresAt, response))
      && s'.contexts == s1.contexts && s'.authorities == s.authorities && s'.lastNow == now && s'.config == s.config
      && Lookup(s'.devices, profile, device)
         == Some(DeviceState(input.deviceGeneration, now + s.config.deviceTtl))
  {
    hide Purge, SetDevice, Answer, HasActiveSession, Coherent, ConfigOk, Put, MakeClaim;
    var now := ReadNow(s, clock);
    var s1 := Purge(s, now);
    PurgeKeeps(s, now);
    PurgedConfig(s, now);
    PurgeKeepsAuthorities(s, now);
    FreshAnswer(s, profile, device, input, clock);
    SetDeviceFrame(s1, profile, device, input.deviceGeneration, now);
    SetDeviceKnows(s1, profile, device, input.deviceGeneration, now);
    TablesAreDistinct(s1);
    var s2 := SetDevice(s1, profile, device, input.deviceGeneration, now);
    AnswerIgnoresDevices(s1, s2, profile, input, now);
    var (response, expiresAt) := Answer(s1, profile, input, now);
    var binding := BindingOf(s1, profile, input);
    LookupAfterPut(s1.claims, profile, device,
                   MakeClaim(binding, Slot(s1, profile, device), response, expiresAt, now), profile, device);
    LookupAfterPut(s1.attempts, profile, (device, input.attempt), Attempt(binding, expiresAt, response), profile,
                   (device, input.attempt));
  }

  /** A claim answered "claimed" is open, dated now, and names the session it takes over from: the one the device
      had open, if that is another. Any other answer opens nothing. */
  lemma FreshClaimSupersedes(s: Store, profile: Profile, device: Device, input: ClaimInput, clock: nat)
    requires Coherent(s) && ConfigOk(s.config) && AnsweredAfresh(s, profile, device, input, clock)
    ensures
      var (s', result) := ClaimCall(s, profile, device, input, clock);
      var before, slot := Slot(Purge(s, ReadNow(s, clock)), profile, device), Slot(s', profile, device);
      && slot.Some? && slot.value.response == result.value && (IsOpen(slot) <==> result.value.Claimed?)
      && (result.value.Claimed? ==>
            && slot.value.contextId == Some(result.value.context.contextId)
            && slot.value.claimedAt == Some(ReadNow(s, clock)) && slot.value.expiresAt == result.value.expiresAt
            && slot.value.superseded
               == if IsOpen(before) && before.value.response.session != input.session
                  then Some(before.value.response.session) else None)
  {
    hide Purge, ClaimCall, Coherent, ConfigOk, AnsweredAfresh, Matching;
    FreshClaimIsStored(s, profile, device, input, clock);
  }

  lemma SetDeviceKnows(s: Store, profile: Profile, device: Device, generation: nat, now: nat)
    requires Coherent(s)
    ensures Lookup(SetDevice(s, profile, device, generation, now).devices, profile, device)
            == Some(DeviceState(generation, now + s.config.deviceTtl))
  {
    hide Current, ContextsOk, ClaimsOk, Put, DropOldest;
    var room := if Lookup(s.devices, profile, device).None?
                   && CountFor(s.devices, profile) >= s.config.maxDevicesPerProfile
                then DropOldest(s.devices, profile) else s.devices;
    DropOldestStaysDistinct(s.devices, profile);
    LookupAfterPut(room, profile, device, DeviceState(generation, now + s.config.deviceTtl), profile, device);
  }

  /** What was claimed gives access at once and until it expires: to the session, and to the very context that
      the claim was answered with. */
  lemma ClaimedGivesAccess(
    s: Store, profile: Profile, device: Device, input: ClaimInput, clock: nat, later: nat)
    requires Coherent(s) && ConfigOk(s.config) && AnsweredAfresh(s, profile, device, input, clock)
    requires ClaimCall(s, profile, device, input, clock).1.value.Claimed?
    requires
      var (s', result) := ClaimCall(s, profile, device, input, clock);
      && ReadNow(s', later) < result.value.expiresAt
      && ReadNow(s', later) < ReadNow(s, clock) + s.config.deviceTtl
    ensures
      var (s', result) := ClaimCall(s, profile, device, input, clock);
      var active := GetActive(s', profile, device, input.session, later).1;
      && active.Some? && active.value.session == input.session && active.value.context == result.value.context
      && active.value.expiresAt == result.value.expiresAt && active.value.claimedAt == Some(ReadNow(s, clock))
      && active.value.generation == GenerationOf(s, profile)
      && forall other: Session :: other != input.session ==> GetActive(s', profile, device, other, later).1 == None
  {
    hide Purge, ClaimCall, GetActive, Coherent, ConfigOk, AnsweredAfresh, Matching;
    var (s', result) := ClaimCall(s, profile, device, input, clock);
    FreshClaimIsStored(s, profile, device, input, clock);
    ClaimKeeps(s, profile, device, input, clock);
    var now := ReadNow(s', later);
    PurgedSlot(s', now, profile, device);
    PurgedDevice(s', now, profile, device);
    ActiveClaimIsExact(s', profile, device, input.session, later);
    forall other: Session | other != input.session
      ensures GetActive(s', profile, device, other, later).1 == None {
      ActiveClaimIsExact(s', profile, device, other, later);
    }
    ClaimedContextIsStored(s, profile, input, clock);
    ActiveReturnsTheClaim(s', profile, device, input.session, later);
    StoredUnderItsId(s', now, profile, result.value.context.contextId, result.value.context);
  }

  lemma PurgedDevice(s: Store, now: nat, profile: Profile, device: Device)
    requires Coherent(s)
    ensures Lookup(Purge(s, now).devices, profile, device)
            == if Lookup(s.devices, profile, device).Some? && Lookup(s.devices, profile, device).value.expiresAt > now
               then Lookup(s.devices, profile, device) else None
  {
    hide Bury, Current, ContextsOk, ClaimsOk;
    LookupAfterKeep(s.devices, (row: Row<Device, DeviceState>) => row.value.expiresAt > now, profile, device);
  }

  lemma ClaimedContextIsStored(s: Store, profile: Profile, input: ClaimInput, clock: nat)
    requires Coherent(s) && ConfigOk(s.config)
    requires Answer(Purge(s, ReadNow(s, clock)), profile, input, ReadNow(s, clock)).0.Claimed?
    ensures
      var s1 := Purge(s, ReadNow(s, clock));
      var context := Answer(s1, profile, input, ReadNow(s, clock)).0.context;
      exists row :: row in s1.contexts && row.profile == profile && row.key == context.contextId
                    && row.value.context == context
  {
    hide Purge, Bounded, ClaimsOk, Current, Apart, ConfigOk;
    var s1 := Purge(s, ReadNow(s, clock));
    PurgeKeeps(s, ReadNow(s, clock));
    PurgedConfig(s, ReadNow(s, clock));
    MatchingIsCandidates(s, profile, input, clock);
    var row := Matching(s1, profile, input.fingerprints, input.launchedAt)[0];
    assert row in Matching(s1, profile, input.fingerprints, input.launchedAt);
    assert Candidate(s, row, profile, input, clock) && ContextOk(row, ReadNow(s, clock) + s1.config.ttl);
  }

  lemma ActiveReturnsTheClaim(s: Store, profile: Profile, device: Device, session: Session, clock: nat)
    requires GetActive(s, profile, device, session, clock).1.Some?
    ensures
      var s1, active := Purge(s, ReadNow(s, clock)), GetActive(s, profile, device, session, clock).1.value;
      var slot := Slot(s1, profile, device);
      && slot.Some? && active.session == session && active.expiresAt == slot.value.expiresAt
      && active.claimedAt == slot.value.claimedAt && active.superseded == slot.value.superseded
      && slot.value.contextId.Some?
      && Lookup(s1.contexts, profile, slot.value.contextId.value).Some?
      && active.context == Lookup(s1.contexts, profile, slot.value.contextId.value).value.context
      && active.contextRevision == Lookup(s1.contexts, profile, slot.value.contextId.value).value.revision
  {
    hide Purge, Lookup;
  }

  lemma StoredUnderItsId(s: Store, now: nat, profile: Profile, id: nat, context: StoredContext)
    requires Coherent(s) && context.expiresAt > now
    requires exists row :: row in s.contexts && row.profile == profile && row.key == id && row.value.context == context
    ensures
      var found := Lookup(Purge(s, now).contexts, profile, id);
      found.Some? && found.value.context == context
  {
    hide Bury, Current, ClaimsOk, Bounded, Apart;
    var row :| row in s.contexts && row.profile == profile && row.key == id && row.value.context == context;
    LookupFinds(s.contexts, profile, id, row.value);
    LookupAfterKeep(s.contexts, (row: Row<nat, Stored>) => ContextLives(row, now), profile, id);
  }

  // ---------------------------------------------------------------- record

  /** A context of the profile, still alive, that the record is another sighting of. */
  ghost predicate IsEquivalent(s: Store, row: Row<nat, Stored>, profile: Profile, input: RecordInput) {
    && row in s.contexts && row.profile == profile
    && Equivalent(row.value.context, input.contentKey, input.fingerprints)
  }

  /** Recording what is no other sighting is accepted exactly when no context of the profile shares a
      fingerprint, both limits leave room and the id is free. It adds one context, which lives for the whole
      time to live, as it was given. */
  lemma NewContextIsStored(s: Store, profile: Profile, input: RecordInput, clock: nat)
    requires GenerationOf(s, profile).Stable? && RecordAccepted(input)
    requires input.generation.Some? ==> input.generation.value == GenerationOf(s, profile)
    requires forall row :: !IsEquivalent(Purge(s, ReadNow(s, clock)), row, profile, input)
    ensures
      var now := ReadNow(s, clock);
      var s1 := Purge(s, now);
      var (s', result) := Record(s, profile, input, clock);
      && (result.Ok? <==>
            && (forall row :: row in s1.contexts && row.profile == profile ==>
                  !Shares(input.fingerprints, row.value.context.fingerprints))
            && |s1.contexts| < s.config.maxContexts
            && CountFor(s1.contexts, profile) < s.config.maxContextsPerProfile
            && (forall row :: row in s1.contexts ==> row.key != input.newId))
      && (result.Ok? ==>
            && result.value == StoredContext(
                 input.newId, profile, input.contentKey, input.canonicalIdentity, input.traktEligible, input.request,
                 input.display, input.source, input.fingerprints, input.inlineSubtitles, now, now + s.config.ttl)
            && s' == s1.(contexts := s'.contexts)
            && forall row :: row in s'.contexts <==>
                 row in s1.contexts
                 || row == Row(profile, input.newId,
                               Stored(GenerationOf(s, profile), "1", input.providerRevision, result.value)))
      && (result.Err? ==> s' == s1)
  {
    hide Purge, Put;
    var now := ReadNow(s, clock);
    var s1 := Purge(s, now);
    PurgedConfig(s, now);
    PurgeKeepsAuthorities(s, now);
    forall row | row in s1.contexts && row.profile == profile
      ensures !Equivalent(row.value.context, input.contentKey, input.fingerprints) {
      assert !IsEquivalent(s1, row, profile, input);
    }
    if Record(s, profile, input, clock).1.Ok? {
      var stored := Stored(GenerationOf(s, profile), "1", input.providerRevision,
                           Record(s, profile, input, clock).1.value);
      PutUnderAFreeKey(s1.contexts, profile, input.newId, stored);
    }
  }

  lemma PutUnderAFreeKey(t: Table<nat, Stored>, profile: Profile, id: nat, stored: Stored)
    requires forall row :: row in t ==> row.key != id
    ensures forall row :: row in Put(t, profile, id, stored) <==> row in t || row == Row(profile, id, stored)
  {
    KeepSelects(t, (row: Row<nat, Stored>) => !Is(row, profile, id));
  }

  /** Recording another sighting is accepted exactly when the providers have not moved back, the merged lists
      fit, and the revision can grow; the refreshed context lives for the whole time to live from now. */
  lemma EquivalentContextIsRefreshed(s: Store, profile: Profile, input: RecordInput, clock: nat, row: Row<nat, Stored>)
    requires Coherent(s) && ConfigOk(s.config) && GenerationOf(s, profile).Stable? && RecordAccepted(input)
    requires input.generation.Some? ==> input.generation.value == GenerationOf(s, profile)
    requires IsEquivalent(Purge(s, ReadNow(s, clock)), row, profile, input)
    ensures
      var now := ReadNow(s, clock);
      var s1 := Purge(s, now);
      var (s', result) := Record(s, profile, input, clock);
      && (result.Ok? <==>
            && Value(row.value.providerRevision) <= Value(input.providerRevision)
            && Assemble(profile, input, Some(row.value.context), now, s.config.ttl).Ok?
            && Value(row.value.revision) + 1 < Power10(MAX_DIGITS))
      && (result.Ok? ==>
            && result.value.contextId == row.key && result.value.createdAt == row.value.context.createdAt
            && result.value.expiresAt == now + s.config.ttl && result.value.fingerprints == input.fingerprints
            && s' == s1.(contexts := s'.contexts)
            && Lookup(s'.contexts, profile, row.key).Some?
            && Lookup(s'.contexts, profile, row.key).value.context == result.value
            && Value(Lookup(s'.contexts, profile, row.key).value.revision) == Value(row.value.revision) + 1
            && Lookup(s'.contexts, profile, row.key).value.providerRevision == input.providerRevision)
      && (result.Err? ==> s' == s1)
  {
    hide Purge, Put, Coherent, ConfigOk, Value, Increment, Power10, MergeProvenance, MergeUniqueArray, Overlaps,
      IdInUse, Lookup;
    var now := ReadNow(s, clock);
    var s1 := Purge(s, now);
    PurgeKeeps(s, now);
    PurgedConfig(s, now);
    PurgeKeepsAuthorities(s, now);
    TheEquivalentIsFound(s1, profile, input, row);
    IncrementIsRefusedOnlyWhenFull(row.value.revision);
    TablesAreDistinct(s1);
    if Record(s, profile, input, clock).1.Ok? {
      IncrementAddsOne(row.value.revision);
      var context := Record(s, profile, input, clock).1.value;
      var revision := Increment(row.value.revision).value;
      var stored := Stored(GenerationOf(s, profile), revision, input.providerRevision, context);
      LookupAfterPut(s1.contexts, profile, row.key, stored, profile, row.key);
    }
  }

  /** At most one context is equivalent: they would share their fingerprints. */
  lemma TheEquivalentIsFound(s: Store, profile: Profile, input: RecordInput, row: Row<nat, Stored>)
    requires Coherent(s) && IsEquivalent(s, row, profile, input) && |input.fingerprints| > 0
    ensures FindEquivalent(s.contexts, profile, input.contentKey, input.fingerprints) == Some(row.value)
    ensures row.key == row.value.context.contextId && row.value.context.profile == profile
  {
    hide Current, ClaimsOk, Bounded;
    assert ContextOk(row, s.lastNow + s.config.ttl);
    var found := FindEquivalent(s.contexts, profile, input.contentKey, input.fingerprints);
    assert found.Some?;
    var other :| other in s.contexts && other.profile == profile && other.value == found.value;
    SameMembers(other.value.context.fingerprints, input.fingerprints);
    SameMembers(row.value.context.fingerprints, input.fingerprints);
    OneOwner(s.contexts, s.lastNow + s.config.ttl, other, row, input.fingerprints[0]);
  }

  lemma SameMembers(a: seq<nat>, b: seq<nat>)
    requires multiset(a) == multiset(b)
    ensures forall f :: f in b ==> f in a
  {
    forall f | f in b ensures f in a {
      assert f in multiset(b);
    }
  }

  /** What is recorded can be claimed: a claim answered afresh for fingerprints of a context just recorded, made
      in its launch window while it lives, is "claimed" with that context. */
  lemma RecordedContextIsClaimed(
    s: Store, profile: Profile, input: RecordInput, clock: nat, device: Device, request: ClaimInput, later: nat)
    requires Coherent(s) && ConfigOk(s.config) && Record(s, profile, input, clock).1.Ok?
    requires AnsweredAfresh(Record(s, profile, input, clock).0, profile, device, request, later)
    requires
      var (s', recorded) := Record(s, profile, input, clock);
      && (forall f :: f in request.fingerprints ==> f in recorded.value.fingerprints)
      && ReadNow(s', later) < recorded.value.expiresAt
      && recorded.value.createdAt <= request.launchedAt + s.config.maxContextAfterLaunch
      && request.launchedAt <= recorded.value.createdAt + s.config.maxLaunchAge
    ensures
      var (s', recorded) := Record(s, profile, input, clock);
      ClaimCall(s', profile, device, request, later).1
      == Ok(Claimed(request.session, recorded.value, ReadNow(s', later), recorded.value.expiresAt))
  {
    hide Purge, ClaimCall, Coherent, ConfigOk, Record, Answer, Matching;
    var (s', recorded) := Record(s, profile, input, clock);
    RecordKeeps(s, profile, input, clock);
    RecordKeepsConfig(s, profile, input, clock);
    var now := ReadNow(s', later);
    RecordedRow(s, profile, input, clock);
    var row :| row in s'.contexts && row.profile == profile && row.value.context == recorded.value
               && row.value.generation == GenerationOf(s', profile);
    PurgeIsExact(s', now);
    AcceptedHasFingerprints(s', profile, device, request, later);
    assert request.fingerprints[0] in request.fingerprints;
    assert Shares(request.fingerprints, row.value.context.fingerprints);
    assert GenerationOf(Purge(s', now), profile) == GenerationOf(s', profile);
    assert Candidate(s', row, profile, request, later);
    OneSourceIsNeverAmbiguous(s', profile, device, request, later, row);
    FreshAnswer(s', profile, device, request, later);
    ClaimedUntil(Purge(s', now), profile, request, now);
  }

  lemma ClaimedUntil(s: Store, profile: Profile, input: ClaimInput, now: nat)
    requires Answer(s, profile, input, now).0.Claimed?
    ensures
      var response := Answer(s, profile, input, now).0;
      response == Claimed(input.session, response.context, now, response.context.expiresAt)
  {
    hide Matching;
  }

  lemma AcceptedHasFingerprints(s: Store, profile: Profile, device: Device, input: ClaimInput, clock: nat)
    requires ClaimCall(s, profile, device, input, clock).1.Ok?
    ensures |input.fingerprints| > 0
  {
    hide Purge, SetDevice, ClaimFresh;
  }

  lemma RecordKeepsConfig(s: Store, profile: Profile, input: RecordInput, clock: nat)
    ensures Record(s, profile, input, clock).0.config == s.config
  {
    hide Keep, Bury, AdmitRecord, Assemble, Put;
  }

  lemma RecordedRow(s: Store, profile: Profile, input: RecordInput, clock: nat)
    requires Coherent(s) && ConfigOk(s.config) && Record(s, profile, input, clock).1.Ok?
    ensures
      var (s', recorded) := Record(s, profile, input, clock);
      exists row :: row in s'.contexts && row.profile == profile && row.value.context == recorded.value
                    && row.value.generation == GenerationOf(s', profile)
  {
    hide Purge, Assemble, Coherent, FindEquivalent, Overlaps, IdInUse, Value, NextRevision;
    var now := ReadNow(s, clock);
    PurgeKeepsAuthorities(s, now);
    PurgedConfig(s, now);
    var (s', recorded) := Record(s, profile, input, clock);
    var last := s'.contexts[|s'.contexts| - 1];
    assert last in s'.contexts;
  }

  // ---------------------------------------------------------------- devices

  /** Invalidating a device at a generation no lower than the one known drops its claim and attempts, so that
      it has no access, and lets it claim under that generation only. */
  lemma InvalidatedDeviceStartsOver(
    s: Store, profile: Profile, device: Device, generation: nat, clock: nat, session: Session, later: nat,
    input: ClaimInput)
    requires Coherent(s) && ConfigOk(s.config)
    ensures
      var now := ReadNow(s, clock);
      var s1 := Purge(s, now);
      var known := Lookup(s1.devices, profile, device);
      var (s', result) := InvalidateDevice(s, profile, device, generation, clock);
      && (result.Ok? <==> generation >= 1 && (known.Some? ==> known.value.generation <= generation))
      && (result.Ok? ==>
            && (result.value <==> Slot(s1, profile, device).Some?)
            && Slot(s', profile, device) == None
            && GetActive(s', profile, device, session, later).1 == None
            && Lookup(s'.devices, profile, device) == Some(DeviceState(generation, now + s.config.deviceTtl))
            && (forall row :: row in s'.attempts <==> row in s1.attempts && !OfDevice(row, profile, device))
            && (ClaimCall(s', profile, device, input, later).1.Err?
                || ReadNow(s', later) >= now + s.config.deviceTtl || input.deviceGeneration == generation))
  {
    hide Purge, SetDevice, Coherent, ConfigOk, GetActive, ClaimCall;
    var now := ReadNow(s, clock);
    var s1 := Purge(s, now);
    PurgeKeeps(s, now);
    PurgedConfig(s, now);
    SetDeviceFrame(s1, profile, device, generation, now);
    SetDeviceKnows(s1, profile, device, generation, now);
    TablesAreDistinct(s1);
    var (s', result) := InvalidateDevice(s, profile, device, generation, clock);
    if result.Ok? {
      LookupAfterKeep(s1.claims, (row: Row<Device, Claim>) => !Is(row, profile, device), profile, device);
      KeepSelects(s1.attempts, (row: Row<(Device, AttemptId), Attempt>) => !OfDevice(row, profile, device));
      InvalidateDeviceKeeps(s, profile, device, generation, clock);
      PurgedSlot(s', ReadNow(s', later), profile, device);
      PurgedDevice(s', ReadNow(s', later), profile, device);
      ActiveClaimIsExact(s', profile, device, session, later);
      if ClaimCall(s', profile, device, input, later).1.Ok? {
        OtherGenerationsAreRefused(s', profile, device, input, later);
      }
    }
  }

  lemma OtherGenerationsAreRefused(s: Store, profile: Profile, device: Device, input: ClaimInput, clock: nat)
    requires ClaimCall(s, profile, device, input, clock).1.Ok?
    ensures
      var known := Lookup(Purge(s, ReadNow(s, clock)).devices, profile, device);
      known.Some? ==> known.value.generation == input.deviceGeneration
  {
    hide Purge, SetDevice, ClaimFresh;
  }

  // ---------------------------------------------------------------- how long an answer is kept

  lemma {:induction false} LatestExpiryIsTheLatest(rows: Table<nat, Stored>)
    ensures forall row :: row in rows ==> row.value.context.expiresAt <= LatestExpiry(rows)
    ensures |rows| > 0 ==> exists row :: row in rows && row.value.context.expiresAt == LatestExpiry(rows)
  {
    if |rows| > 0 {
      LatestExpiryIsTheLatest(rows[1..]);
      assert rows == [rows[0]] + rows[1..];
      assert rows[0] in rows;
      if |rows| > 1 {
        var row :| row in rows[1..] && row.value.context.expiresAt == LatestExpiry(rows[1..]);
        assert row in rows;
      }
    }
  }

  lemma {:induction false} TombstoneExpiryIsTheLatest(
    t: Table<Fingerprint, Tombstone>, profile: Profile, fingerprints: seq<Fingerprint>)
    ensures
      var expiry := TombstoneExpiry(t, profile, fingerprints);
      && (forall f :: f in fingerprints && Lookup(t, profile, f).Some? ==>
            expiry.Some? && Lookup(t, profile, f).value.until <= expiry.value)
      && (expiry.Some? ==> exists f :: f in fingerprints && UntilOf(t, profile, f) == expiry)
  {
    if |fingerprints| > 0 {
      TombstoneExpiryIsTheLatest(t, profile, fingerprints[1..]);
      assert fingerprints == [fingerprints[0]] + fingerprints[1..];
      var rest := TombstoneExpiry(t, profile, fingerprints[1..]);
      if rest.Some? {
        var f :| f in fingerprints[1..] && UntilOf(t, profile, f) == rest;
        assert f in fingerprints;
      }
      assert fingerprints[0] in fingerprints;
    }
  }

  /** The attempt is kept as long as its answer can matter: while the claimed context lives, until the last of
      several matching contexts or of the tombstones is gone, or for a whole time to live. */
  lemma AnswersAreKeptLongEnough(s: Store, profile: Profile, device: Device, input: ClaimInput, clock: nat)
    requires Coherent(s) && ConfigOk(s.config) && AnsweredAfresh(s, profile, device, input, clock)
    ensures
      var now := ReadNow(s, clock);
      var s1, (s', result) := Purge(s, now), ClaimCall(s, profile, device, input, clock);
      var kept := PriorAttempt(s', profile, device, input.attempt);
      && kept.Some? && kept.value.response == result.value && kept.value.binding == BindingOf(s1, profile, input)
      && Slot(s', profile, device).Some? && Slot(s', profile, device).value.expiresAt == kept.value.expiresAt
      && match result.value
         case Claimed(_, context, _, _) => kept.value.expiresAt == context.expiresAt
         case Ambiguous(_) =>
           && (forall row :: Candidate(s, row, profile, input, clock) ==>
                 row.value.context.expiresAt <= kept.value.expiresAt)
           && exists row :: Candidate(s, row, profile, input, clock)
                            && row.value.context.expiresAt == kept.value.expiresAt
         case Expired(_) =>
           && (forall f :: f in input.fingerprints && Lookup(s1.tombstones, profile, f).Some? ==>
                 Lookup(s1.tombstones, profile, f).value.until <= kept.value.expiresAt)
           && exists f :: f in input.fingerprints
                          && UntilOf(s1.tombstones, profile, f) == Some(kept.value.expiresAt)
         case NotFound(_) => kept.value.expiresAt == now + s.config.ttl
  {
    hide Purge, ClaimCall, Coherent, ConfigOk, AnsweredAfresh, Matching, Candidate, MakeClaim, Lookup, TombstoneExpiry,
      LatestExpiry;
    var now := ReadNow(s, clock);
    var s1 := Purge(s, now);
    PurgedConfig(s, now);
    FreshClaimIsStored(s, profile, device, input, clock);
    FreshClaimSupersedes(s, profile, device, input, clock);
    ClaimExpires(BindingOf(s1, profile, input), Slot(s1, profile, device), Answer(s1, profile, input, now).0,
                 Answer(s1, profile, input, now).1, now);
    MatchingIsCandidates(s, profile, input, clock);
    LatestExpiryIsTheLatest(Matching(s1, profile, input.fingerprints, input.launchedAt));
    TombstoneExpiryIsTheLatest(s1.tombstones, profile, input.fingerprints);
  }

  lemma ClaimExpires(binding: Binding, previous: Option<Claim>, response: Response, expiresAt: nat, now: nat)
    ensures MakeClaim(binding, previous, response, expiresAt, now).expiresAt == expiresAt
  {
  }

  // ---------------------------------------------------------------- what counts as the same sighting

  lemma {:induction false} MultisetWithoutRepetition(values: seq<nat>, v: nat)
    requires NoRepeats(values)
    ensures multiset(values)[v] == if v in values then 1 else 0
  {
    if |values| > 0 {
      MultisetWithoutRepetition(values[1..], v);
      HeadIsNew(values);
      assert values == [values[0]] + values[1..];
    }
  }

  /** Two sightings are equivalent exactly if they have the same content key and the same fingerprints, in whatever
      order. */
  lemma SightingsAreEquivalentExactly(context: StoredContext, contentKey: Option<nat>, fingerprints: seq<Fingerprint>)
    requires NoRepeats(context.fingerprints) && NoRepeats(fingerprints)
    ensures Equivalent(context, contentKey, fingerprints) <==>
              && contentKey.Some? && context.contentKey == contentKey
              && forall f :: f in context.fingerprints <==> f in fingerprints
  {
    if forall f :: f in context.fingerprints <==> f in fingerprints {
      forall f ensures multiset(context.fingerprints)[f] == multiset(fingerprints)[f] {
        MultisetWithoutRepetition(context.fingerprints, f);
        MultisetWithoutRepetition(fingerprints, f);
      }
      assert multiset(context.fingerprints) == multiset(fingerprints);
    }
    if multiset(context.fingerprints) == multiset(fingerprints) {
      SameMembers(context.fingerprints, fingerprints);
      SameMembers(fingerprints, context.fingerprints);
    }
  }
}
