// SourceContextStore as the program keeps it: tables updated in place by its methods, each tied to
// its transition on values, so that coherence and the laws of claims hold of the object.
module SourceContextStoreClass {
  import opened Outcomes
  import opened OrderedTables
  import opened Revisions
  import opened SnapshotAuthority
  import opened ContextMerge
  import opened ContextStore
  import opened ContextCoherence

  // ---------------------------------------------------------------- walks over one table

  method CountForProfile<K(!new), V(!new)>(t: Table<K, V>, profile: Profile) returns (count: nat)
    ensures count == CountFor(t, profile)
  {
    count := 0;
    var i := 0;
    while i < |t|
      invariant i <= |t|
      invariant CountFor(t, profile) == count + CountFor(t[i..], profile)
    {
      if t[i].profile == profile {
        count := count + 1;
      }
      i := i + 1;
    }
  }

  method DeleteOldestForProfile<K(!new), V(!new)>(t: Table<K, V>, profile: Profile) returns (rest: Table<K, V>)
    ensures rest == DropOldest(t, profile)
  {
    var i := 0;
    while i < |t| && t[i].profile != profile
      invariant i <= |t|
      invariant DropOldest(t, profile) == t[..i] + DropOldest(t[i..], profile)
    {
      i := i + 1;
    }
    rest := if i < |t| then t[..i] + t[i + 1..] else t;
  }

  /** The deletion loops: keeps the rows that satisfy the condition. */
  method Retain<K(!new), V(!new)>(t: Table<K, V>, keep: Row<K, V> -> bool) returns (kept: Table<K, V>)
    ensures kept == Keep(t, keep)
  {
    kept := [];
    var i := 0;
    while i < |t|
      invariant i <= |t|
      invariant Keep(t, keep) == kept + Keep(t[i..], keep)
    {
      if keep(t[i]) {
        kept := kept + [t[i]];
      }
      i := i + 1;
    }
  }

  method FindEquivalentContext(
    contexts: Table<nat, Stored>, profile: Profile, contentKey: Option<nat>, fingerprints: seq<Fingerprint>)
    returns (found: Option<Stored>)
    ensures found == FindEquivalent(contexts, profile, contentKey, fingerprints)
  {
    if contentKey.None? {
      NoKeyNoEquivalent(contexts, profile, fingerprints);
      return None;
    }
    var i := 0;
    while i < |contexts|
      invariant i <= |contexts|
      invariant FindEquivalent(contexts, profile, contentKey, fingerprints)
             == FindEquivalent(contexts[i..], profile, contentKey, fingerprints)
    {
      if contexts[i].profile == profile && Equivalent(contexts[i].value.context, contentKey, fingerprints) {
        return Some(contexts[i].value);
      }
      i := i + 1;
    }
    found := None;
  }

  /** Contexts without a content key are never equivalent. */
  lemma {:induction false} NoKeyNoEquivalent(contexts: Table<nat, Stored>, profile: Profile,
      fingerprints: seq<Fingerprint>)
    ensures FindEquivalent(contexts, profile, None, fingerprints) == None
  {
    if |contexts| > 0 {
      NoKeyNoEquivalent(contexts[1..], profile, fingerprints);
    }
  }

  method FindOverlappingContext(contexts: Table<nat, Stored>, profile: Profile, fingerprints: seq<Fingerprint>)
    returns (found: bool)
    ensures found <==> Overlaps(contexts, profile, fingerprints)
  {
    var i := 0;
    while i < |contexts|
      invariant i <= |contexts|
      invariant forall j :: 0 <= j < i && contexts[j].profile == profile ==>
        !Shares(fingerprints, contexts[j].value.context.fingerprints)
    {
      if contexts[i].profile == profile {
        var shared := HasCommon(fingerprints, contexts[i].value.context.fingerprints);
        if shared {
          assert contexts[i] in contexts;
          return true;
        }
      }
      i := i + 1;
    }
    return false;
  }

  method HasCommon(fingerprints: seq<Fingerprint>, other: seq<Fingerprint>) returns (common: bool)
    ensures common <==> Shares(fingerprints, other)
  {
    var i := 0;
    while i < |fingerprints|
      invariant i <= |fingerprints|
      invariant forall j :: 0 <= j < i ==> fingerprints[j] !in other
    {
      if fingerprints[i] in other {
        return true;
      }
      i := i + 1;
    }
    return false;
  }

  method HasActiveSessionId(claims: Table<Device, Claim>, session: Session) returns (active: bool)
    ensures active <==> HasActiveSession(claims, session)
  {
    var i := 0;
    while i < |claims|
      invariant i <= |claims|
      invariant forall j :: 0 <= j < i ==>
        !(claims[j].value.response.Claimed? && claims[j].value.response.session == session)
    {
      if claims[i].value.response.Claimed? && claims[i].value.response.session == session {
        assert claims[i] in claims;
        return true;
      }
      i := i + 1;
    }
    return false;
  }

  method FindTombstoneExpiry(t: Table<Fingerprint, Tombstone>, profile: Profile, requested: seq<Fingerprint>)
    returns (expiry: Option<nat>)
    ensures expiry == TombstoneExpiry(t, profile, requested)
  {
    expiry := None;
    var i := 0;
    while i < |requested|
      invariant i <= |requested|
      invariant TombstoneExpiry(t, profile, requested) == Later(expiry, TombstoneExpiry(t, profile, requested[i..]))
    {
      var tombstone := Lookup(t, profile, requested[i]);
      if tombstone.Some? && (expiry.None? || tombstone.value.until > expiry.value) {
        expiry := Some(tombstone.value.until);
      }
      i := i + 1;
    }
  }

  function LiveRows(contexts: Table<nat, Stored>, now: nat): Table<nat, Stored> {
    Keep(contexts, (row: Row<nat, Stored>) => ContextLives(row, now))
  }

  lemma NoneToBury(config: Config, t: Table<Fingerprint, Tombstone>, now: nat)
    ensures Bury(config, t, [], now) == t && LiveRows([], now) == []
  {
  }

  /** The first context of the rest is kept, or leaves its tombstones. */
  lemma BuryOne(config: Config, t: Table<Fingerprint, Tombstone>, contexts: Table<nat, Stored>, i: nat, now: nat)
    requires i < |contexts|
    ensures
      var row := contexts[i];
      var until := row.value.context.expiresAt + config.tombstoneTtl;
      && Bury(config, t, contexts[i..], now)
         == (if ContextLives(row, now) || until <= now then Bury(config, t, contexts[i + 1..], now)
             else Bury(config, AddTombstones(config, t, row.profile, row.value.context.fingerprints, until),
                     contexts[i + 1..], now))
      && LiveRows(contexts[i..], now)
          == (if ContextLives(row, now) then [row] else []) + LiveRows(contexts[i + 1..], now)
  {
    hide AddTombstones;
    assert contexts[i..][0] == contexts[i] && contexts[i..][1..] == contexts[i + 1..];
  }

  // ---------------------------------------------------------------- the store

  class SourceContextStore {
    const config: Config
    var authorities: map<Profile, Authority>
    var contexts: Table<nat, Stored>
    var claims: Table<Device, Claim>
    var attempts: Table<(Device, AttemptId), Attempt>
    var tombstones: Table<Fingerprint, Tombstone>
    var devices: Table<Device, DeviceState>
    var lastNow: nat

    ghost function State(): Store
      reads this
    {
      Store(config, authorities, contexts, claims, attempts, tombstones, devices, lastNow)
    }

    constructor (config: Config)
      ensures State() == Initial(config)
    {
      this.config := config;
      authorities, contexts, claims, attempts, tombstones, devices, lastNow := map[], [], [], [], [], [], 0;
    }

    method Now(clock: nat) returns (now: nat)
      modifies this`lastNow
      ensures now == ReadNow(old(State()), clock) && lastNow == now
    {
      if clock < lastNow {
        return lastNow;
      }
      lastNow := clock;
      return clock;
    }

    function GetAuthority(profile: Profile): Authority
      reads this
    {
      if profile in authorities then authorities[profile] else InitialAuthority
    }

    method AddTombstone(profile: Profile, fingerprint: Fingerprint, until: nat)
      modifies this`tombstones
      ensures tombstones == ContextStore.AddTombstone(config, old(tombstones), profile, fingerprint, until)
    {
      var existing := Lookup(tombstones, profile, fingerprint);
      if existing.Some? && existing.value.until >= until {
        return;
      }
      var count := CountForProfile(tombstones, profile);
      if existing.None? && |tombstones| >= config.maxTombstones && count < config.maxTombstonesPerProfile {
        return;
      }
      tombstones := Put(tombstones, profile, fingerprint, Tombstone(until));
      ghost var full := tombstones;
      count := CountForProfile(tombstones, profile);
      while count > config.maxTombstonesPerProfile
        invariant count == CountFor(tombstones, profile)
        invariant TrimTombstones(config, tombstones, profile) == TrimTombstones(config, full, profile)
        decreases count
      {
        DropOldestSize(tombstones, profile, profile);
        tombstones := DeleteOldestForProfile(tombstones, profile);
        count := CountForProfile(tombstones, profile);
      }
    }

    method AddTombstones(profile: Profile, fingerprints: seq<Fingerprint>, until: nat)
      modifies this`tombstones
      ensures tombstones == ContextStore.AddTombstones(config, old(tombstones), profile, fingerprints, until)
    {
      var i := 0;
      while i < |fingerprints|
        invariant i <= |fingerprints|
        invariant ContextStore.AddTombstones(config, tombstones, profile, fingerprints[i..], until)
               == ContextStore.AddTombstones(config, old(tombstones), profile, fingerprints, until)
      {
        AddTombstone(profile, fingerprints[i], until);
        i := i + 1;
      }
    }

    /** Deletes the expired contexts, leaving tombstones for their fingerprints. */
    method PurgeContexts(now: nat)
      modifies this`contexts, this`tombstones
      ensures contexts == Keep(old(contexts), (row: Row<nat, Stored>) => ContextLives(row, now))
      ensures tombstones == Bury(config, old(tombstones), old(contexts), now)
    {
      hide Bury;
      var kept: Table<nat, Stored> := [];
      var i := 0;
      assert contexts[0..] == contexts;
      while i < |contexts|
        invariant i <= |contexts| && contexts == old(contexts)
        invariant LiveRows(contexts, now) == kept + LiveRows(contexts[i..], now)
        invariant Bury(config, old(tombstones), contexts, now) == Bury(config, tombstones, contexts[i..], now)
      {
        hide LiveRows;
        BuryOne(config, tombstones, contexts, i, now);
        var row := contexts[i];
        if ContextLives(row, now) {
          kept := kept + [row];
        } else {
          var until := row.value.context.expiresAt + config.tombstoneTtl;
          if until > now {
            AddTombstones(row.profile, row.value.context.fingerprints, until);
          }
        }
        i := i + 1;
      }
      assert contexts[i..] == [];
      NoneToBury(config, tombstones, now);
      contexts := kept;
    }

    method Purge(now: nat)
      modifies this`contexts, this`claims, this`attempts, this`tombstones, this`devices
      ensures State() == ContextStore.Purge(old(State()), now).(lastNow := lastNow)
    {
      PurgeContexts(now);
      tombstones := Retain(tombstones, (row: Row<Fingerprint, Tombstone>) => row.value.until > now);
      claims := Retain(claims, (row: Row<Device, Claim>) => row.value.expiresAt > now);
      attempts := Retain(attempts, (row: Row<(Device, AttemptId), Attempt>) => row.value.expiresAt > now);
      devices := Retain(devices, (row: Row<Device, DeviceState>) => row.value.expiresAt > now);
    }

    method PurgeNow(clock: nat) returns (now: nat)
      modifies this`contexts, this`claims, this`attempts, this`tombstones, this`devices, this`lastNow
      ensures now == ReadNow(old(State()), clock) && State() == ContextStore.Purge(old(State()), now)
    {
      now := Now(clock);
      Purge(now);
    }

    method ClearProfileState(profile: Profile)
      modifies this`contexts, this`claims, this`attempts, this`tombstones, this`devices
      ensures State() == ClearProfile(old(State()), profile)
    {
      contexts := Retain(contexts, (row: Row<nat, Stored>) => row.profile != profile);
      claims := Retain(claims, (row: Row<Device, Claim>) => row.profile != profile);
      attempts := Retain(attempts, (row: Row<(Device, AttemptId), Attempt>) => row.profile != profile);
      tombstones := Retain(tombstones, (row: Row<Fingerprint, Tombstone>) => row.profile != profile);
      devices := Retain(devices, (row: Row<Device, DeviceState>) => row.profile != profile);
    }

    method SetDeviceGeneration(profile: Profile, device: Device, generation: nat, now: nat)
      modifies this`devices
      ensures State() == SetDevice(old(State()), profile, device, generation, now)
    {
      var existing := Lookup(devices, profile, device);
      var count := CountForProfile(devices, profile);
      if existing.None? && count >= config.maxDevicesPerProfile {
        devices := DeleteOldestForProfile(devices, profile);
      }
      devices := Put(devices, profile, device, DeviceState(generation, now + config.deviceTtl));
    }

    // -------------------------------------------------------------- record

    method Record(profile: Profile, input: RecordInput, clock: nat) returns (result: Result<StoredContext, StoreError>)
      requires Coherent(State()) && ConfigOk(config)
      modifies this
      ensures (State(), result) == ContextStore.Record(old(State()), profile, input, clock)
      ensures Coherent(State())
    {
      hide Coherent, ConfigOk, ContextStore.Purge, Assemble, FindEquivalent, Overlaps, Put;
      RecordKeeps(State(), profile, input, clock);
      var generation := if input.generation.Some? then input.generation.value else GetAuthority(profile).generation;
      if generation.Pending? {
        return Err(StoreError.SnapshotBusy);
      }
      if !RecordAccepted(input) {
        return Err(Malformed);
      }
      var now := PurgeNow(clock);
      PurgedConfig(old(State()), now);
      var admitted := AdmitContext(profile, input, generation);
      if admitted.Err? {
        return Err(admitted.error);
      }
      var previous := admitted.value;
      var context := Assemble(profile, input,
          if previous.Some? then Some(previous.value.context) else None, now, config.ttl);
      if context.Err? {
        return Err(MergeRefused);
      }
      var revision := NextRevision(previous);
      if revision.Err? {
        return Err(StoreError.RevisionExhausted);
      }
      contexts := Put(contexts, profile, context.value.contextId,
                      Stored(generation, revision.value, input.providerRevision, context.value));
      return Ok(context.value);
    }

    /** The checks of record that read the tables. */
    method AdmitContext(profile: Profile, input: RecordInput, generation: Generation)
      returns (admitted: Result<Option<Stored>, StoreError>)
      ensures admitted == AdmitRecord(State(), profile, input, generation)
    {
      if GetAuthority(profile).generation.Pending? {
        return Err(StoreError.SnapshotBusy);
      }
      var equivalent := FindEquivalentContext(contexts, profile, input.contentKey, input.fingerprints);
      if generation != GetAuthority(profile).generation {
        return Err(GenerationChanged);
      }
      if equivalent.Some? {
        if Value(input.providerRevision) < Value(equivalent.value.providerRevision) {
          return Err(ProviderRevisionChanged);
        }
        return Ok(equivalent);
      }
      var overlapping := FindOverlappingContext(contexts, profile, input.fingerprints);
      if overlapping {
        return Err(ContextOverlap);
      }
      var count := CountForProfile(contexts, profile);
      if |contexts| >= config.maxContexts || count >= config.maxContextsPerProfile {
        return Err(ContextCapacity);
      }
      if IdInUse(contexts, input.newId) {
        return Err(DuplicateContextId);
      }
      return Ok(None);
    }

    // -------------------------------------------------------------- claim

    method AssertClaimAttemptCapacity(profile: Profile, key: (Device, AttemptId)) returns (fits: bool)
      ensures fits <==> AttemptFits(State(), profile, key)
    {
      var known := Lookup(attempts, profile, key);
      var count := CountForProfile(attempts, profile);
      return known.Some? || (|attempts| < config.maxAttempts && count < config.maxAttemptsPerProfile);
    }

    method StoreClaimAttempt(profile: Profile, device: Device, attempt: Attempt) returns (stored: bool)
      modifies this`attempts
      ensures stored <==> StoreAttempt(old(State()), profile, device, attempt).Ok?
      ensures State() == if stored then StoreAttempt(old(State()), profile, device, attempt).value else old(State())
    {
      stored := AssertClaimAttemptCapacity(profile, (device, attempt.binding.attempt));
      if stored {
        attempts := Put(attempts, profile, (device, attempt.binding.attempt), attempt);
      }
    }

    /** The contexts a claim may match, collected in order. */
    method CollectMatches(profile: Profile, requested: seq<Fingerprint>, launchedAt: nat)
      returns (matches: Table<nat, Stored>)
      ensures matches == Matching(State(), profile, requested, launchedAt)
    {
      matches := [];
      var i := 0;
      ghost var s := State();
      while i < |contexts|
        invariant i <= |contexts|
        invariant Matching(s, profile, requested, launchedAt)
               == matches + Keep(contexts[i..],
                      (row: Row<nat, Stored>) => Matches(s, row, profile, requested, launchedAt))
      {
        var row := contexts[i];
        if row.profile == profile && row.value.generation == GetAuthority(profile).generation
           && row.value.context.createdAt <= launchedAt + config.maxContextAfterLaunch
           && launchedAt <= row.value.context.createdAt + config.maxLaunchAge
        {
          var matched := HasCommon(requested, row.value.context.fingerprints);
          if matched {
            matches := matches + [row];
          }
        }
        i := i + 1;
      }
    }

    method AnswerClaim(profile: Profile, input: ClaimInput, now: nat) returns (response: Response, expiresAt: nat)
      ensures (response, expiresAt) == Answer(State(), profile, input, now)
    {
      var matches := CollectMatches(profile, input.fingerprints, input.launchedAt);
      if |matches| == 1 {
        var context := matches[0].value.context;
        return Claimed(input.session, context, now, context.expiresAt), context.expiresAt;
      }
      if |matches| > 1 {
        return Ambiguous(input.session), LatestExpiry(matches);
      }
      var buried := FindTombstoneExpiry(tombstones, profile, input.fingerprints);
      if buried.Some? {
        return Expired(input.session), buried.value;
      }
      return NotFound(input.session), now + config.ttl;
    }

    /** The end of claim, once the attempt is known to be new and the device generation is set. */
    method AnswerFresh(profile: Profile, device: Device, input: ClaimInput, binding: Binding, now: nat)
      returns (result: Result<Response, StoreError>)
      modifies this`claims, this`attempts
      ensures (State(), result) == ClaimFresh(old(State()), profile, device, input, binding, now)
    {
      hide Answer, HasActiveSession, AttemptFits, Put, Lookup;
      var fits := AssertClaimAttemptCapacity(profile, (device, input.attempt));
      if !fits {
        return Err(AttemptCapacity(false));
      }
      var previous := Lookup(claims, profile, device);
      if previous.Some? && input.launchedAt < previous.value.binding.launchedAt {
        var kept := StoreClaimAttempt(profile, device, Attempt(binding, now + config.ttl, NotFound(input.session)));
        return if kept then Ok(NotFound(input.session)) else Err(AttemptCapacity(true));
      }
      var count := CountForProfile(claims, profile);
      if previous.None? && (|claims| >= config.maxClaims || count >= config.maxClaimsPerProfile) {
        return Err(ClaimCapacity);
      }
      var response, expiresAt := AnswerClaim(profile, input, now);
      var used := HasActiveSessionId(claims, input.session);
      if response.Claimed? && used {
        return Err(SessionInUse);
      }
      claims := Put(claims, profile, device, MakeClaim(binding, previous, response, expiresAt, now));
      var stored := StoreClaimAttempt(profile, device, Attempt(binding, expiresAt, response));
      return if stored then Ok(response) else Err(AttemptCapacity(true));
    }

    method ClaimSource(profile: Profile, device: Device, input: ClaimInput, clock: nat)
      returns (result: Result<Response, StoreError>)
      requires Coherent(State()) && ConfigOk(config)
      modifies this
      ensures (State(), result) == ClaimCall(old(State()), profile, device, input, clock)
      ensures Coherent(State())
    {
      hide Coherent, ConfigOk, ContextStore.Purge, SetDevice, ClaimFresh, Lookup;
      ClaimKeeps(State(), profile, device, input, clock);
      if !ClaimAccepted(input) {
        return Err(Malformed);
      }
      var now := PurgeNow(clock);
      PurgedConfig(old(State()), now);
      var current := GetAuthority(profile).generation;
      var bound := if input.generation.Some? then input.generation.value else current;
      var binding := Binding(input.attempt, input.fingerprints, input.intentUrlHash, input.launchedAt,
                             input.requestDigest, input.session, bound, input.deviceGeneration);
      var prior := Lookup(attempts, profile, (device, input.attempt));
      if prior.Some? && prior.value.binding != binding {
        return Err(RequestConflict);
      }
      if current.Pending? {
        return Err(StoreError.SnapshotBusy);
      }
      if input.generation.Some? && input.generation.value != current {
        return Err(GenerationChanged);
      }
      if input.launchedAt > now + config.maxFutureSkew {
        return Err(LaunchedTooLate);
      }
      if now > input.launchedAt + config.maxLaunchAge {
        return Err(LaunchedTooEarly);
      }
      var known := Lookup(devices, profile, device);
      if known.Some? && known.value.generation != input.deviceGeneration {
        return Err(DeviceGenerationChanged);
      }
      SetDeviceGeneration(profile, device, input.deviceGeneration, now);
      if prior.Some? {
        if !prior.value.response.Claimed? {
          return Ok(prior.value.response);
        }
        var held := Lookup(claims, profile, device);
        if held.None? || held.value.binding != binding || held.value.releasedAt.Some?
           || !held.value.response.Claimed? || held.value.response.session != input.session
        {
          return Ok(NotFound(input.session));
        }
        return Ok(prior.value.response);
      }
      result := AnswerFresh(profile, device, input, binding, now);
    }

    // -------------------------------------------------------------- the other calls

    method GetActiveClaim(profile: Profile, device: Device, session: Session, clock: nat)
      returns (active: Option<ActiveClaim>)
      requires Coherent(State()) && ConfigOk(config)
      modifies this
      ensures (State(), active) == GetActive(old(State()), profile, device, session, clock)
      ensures Coherent(State())
    {
      hide Coherent, ConfigOk, ContextStore.Purge, Lookup;
      var now := PurgeNow(clock);
      PurgeKeeps(old(State()), now);
      var found := Lookup(claims, profile, device);
      if found.None? || found.value.releasedAt.Some? || found.value.expiresAt <= now
         || !found.value.response.Claimed? || found.value.response.session != session
      {
        return None;
      }
      var claim := found.value;
      var current := GetAuthority(profile).generation;
      var known := Lookup(devices, profile, device);
      if claim.contextId.None? {
        return None;
      }
      var stored := Lookup(contexts, profile, claim.contextId.value);
      if claim.binding.generation != current
         || known.None? || known.value.generation != claim.binding.deviceGeneration
         || stored.None? || stored.value.generation != current
         || stored.value.context.expiresAt <= now || stored.value.context.contextId != claim.contextId.value
         || stored.value.context.profile != profile
      {
        return None;
      }
      return Some(ActiveClaim(session, stored.value.context, claim.claimedAt, claim.expiresAt, stored.value.generation,
                              stored.value.revision, stored.value.providerRevision, claim.superseded));
    }

    method Release(profile: Profile, device: Device, session: Session, clock: nat) returns (released: bool)
      requires Coherent(State()) && ConfigOk(config)
      modifies this
      ensures (State(), released) == ReleaseClaim(old(State()), profile, device, session, clock)
      ensures Coherent(State())
    {
      hide Coherent, ConfigOk, ContextStore.Purge, Lookup, Replaced;
      ReleaseKeeps(State(), profile, device, session, clock);
      var now := PurgeNow(clock);
      var found := Lookup(claims, profile, device);
      if found.None? || found.value.releasedAt.Some? || !found.value.response.Claimed?
         || found.value.response.session != session
      {
        return false;
      }
      claims := Replaced(claims, profile, device, found.value.(releasedAt := Some(now)));
      return true;
    }

    method InvalidateDevice(profile: Profile, device: Device, generation: nat, clock: nat)
      returns (removed: Result<bool, StoreError>)
      requires Coherent(State()) && ConfigOk(config)
      modifies this
      ensures (State(), removed) == ContextStore.InvalidateDevice(old(State()), profile, device, generation, clock)
      ensures Coherent(State())
    {
      hide Coherent, ConfigOk, ContextStore.Purge, Lookup, SetDevice;
      InvalidateDeviceKeeps(State(), profile, device, generation, clock);
      if generation < 1 {
        return Err(Malformed);
      }
      var now := PurgeNow(clock);
      var known := Lookup(devices, profile, device);
      if known.Some? && generation < known.value.generation {
        return Err(DeviceGenerationChanged);
      }
      SetDeviceGeneration(profile, device, generation, now);
      var held := Lookup(claims, profile, device);
      claims := Remove(claims, profile, device);
      attempts := Retain(attempts, (row: Row<(Device, AttemptId), Attempt>) => !OfDevice(row, profile, device));
      return Ok(held.Some?);
    }

    method InvalidateProfile(profile: Profile, clock: nat, minted: nat, next: nat) returns (invalidated: bool)
      requires Coherent(State()) && ConfigOk(config)
      modifies this
      ensures (State(), invalidated) == ContextStore.InvalidateProfile(old(State()), profile, clock, minted, next)
      ensures Coherent(State())
    {
      hide Coherent, ConfigOk, ClearProfile, Invalidate;
      ApplyKeeps(State(), DoInvalidateProfile(profile, clock, minted, next));
      var a := GetAuthority(profile);
      var now: nat := Max(clock, lastNow);
      if StateReadsClock(a) {
        now := Now(clock);
      }
      var (authority, outcome) := Invalidate(a, now, minted, next);
      authorities := authorities[profile := authority];
      if outcome.Err? {
        return false;
      }
      ClearProfileState(profile);
      return true;
    }

    method BeginProviderSnapshotMutation(profile: Profile, clock: nat, seed: nat, minted: nat) returns (begun: bool)
      requires Coherent(State()) && ConfigOk(config)
      modifies this
      ensures (State(), begun) == BeginMutation(old(State()), profile, clock, seed, minted)
      ensures Coherent(State())
    {
      hide Coherent, ConfigOk, ClearProfile, Begin;
      ApplyKeeps(State(), DoBegin(profile, clock, seed, minted));
      var a := GetAuthority(profile);
      var now: nat := Max(clock, lastNow);
      var (authority, outcome) := Begin(a, now, config.leaseMs, seed, minted);
      if StateReadsClock(a) || outcome.Ok? {
        now := Now(clock);
      }
      authorities := authorities[profile := authority];
      if outcome.Err? {
        return false;
      }
      ClearProfileState(profile);
      return true;
    }

    /** Every other mutation call changes the authority of its profile alone. */
    method CallMutation(profile: Profile, call: MutationCall, clock: nat, minted: nat)
      requires Coherent(State()) && ConfigOk(config)
      modifies this`authorities, this`lastNow
      ensures State() == MutationStep(old(State()), profile, call, clock, minted)
      ensures Coherent(State())
    {
      hide Coherent, ConfigOk, Mutate;
      ApplyKeeps(State(), DoMutation(profile, call, clock, minted));
      var a := GetAuthority(profile);
      var now: nat := Max(clock, lastNow);
      if CallReadsClock(a, call) {
        now := Now(clock);
      }
      authorities := authorities[profile := Mutate(a, call, now, config.leaseMs, minted)];
    }
  }
}
