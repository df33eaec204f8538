// Profiles share the store's clock and its overall limits, and nothing else: no call for one profile adds, changes
// or removes a row of another, other than by time.
module ContextIsolation {
  import opened Outcomes
  import opened OrderedTables
  import opened SnapshotAuthority
  import opened ContextStore
  import opened ContextCoherence

  /** The rows of a profile are the same. */
  ghost predicate SameRows<K(!new), V(!new)>(t: Table<K, V>, t': Table<K, V>, profile: Profile) {
    forall row: Row<K, V> :: row.profile == profile ==> (row in t' <==> row in t)
  }

  ghost predicate SameProfile(s: Store, s': Store, profile: Profile) {
    && SameRows(s.contexts, s'.contexts, profile) && SameRows(s.claims, s'.claims, profile)
    && SameRows(s.attempts, s'.attempts, profile) && SameRows(s.devices, s'.devices, profile)
    && AuthorityOf(s', profile) == AuthorityOf(s, profile)
  }

  predicate Concerns(op: Op, profile: Profile) {
    !op.DoPrune? && op.profile == profile
  }

  lemma PutElsewhere<K(!new), V(!new)>(t: Table<K, V>, p: Profile, key: K, value: V, profile: Profile)
    requires p != profile
    ensures SameRows(t, Put(t, p, key, value), profile)
  {
    KeepSelects(t, (row: Row<K, V>) => !Is(row, p, key));
  }

  lemma KeepElsewhere<K(!new), V(!new)>(t: Table<K, V>, keep: Row<K, V> -> bool, profile: Profile)
    requires forall row :: row in t && row.profile == profile ==> keep(row)
    ensures SameRows(t, Keep(t, keep), profile)
  {
    KeepSelects(t, keep);
  }

  lemma SetDeviceElsewhere(s: Store, p: Profile, device: Device, generation: nat, now: nat, profile: Profile)
    requires p != profile
    ensures SameProfile(s, SetDevice(s, p, device, generation, now), profile)
  {
    hide Put, DropOldest;
    var room := if Lookup(s.devices, p, device).None? && CountFor(s.devices, p) >= s.config.maxDevicesPerProfile
                then DropOldest(s.devices, p) else s.devices;
    DropOldestSelects(s.devices, p);
    PutElsewhere(room, p, device, DeviceState(generation, now + s.config.deviceTtl), profile);
  }

  lemma FreshClaimElsewhere(
    s: Store, p: Profile, device: Device, input: ClaimInput, binding: Binding, now: nat, profile: Profile)
    requires p != profile
    ensures SameProfile(s, ClaimFresh(s, p, device, input, binding, now).0, profile)
  {
    hide Put, Answer, HasActiveSession, AttemptFits;
    var (response, expiresAt) := Answer(s, p, input, now);
    var claim := MakeClaim(binding, Lookup(s.claims, p, device), response, expiresAt, now);
    PutElsewhere(s.claims, p, device, claim, profile);
    PutElsewhere(s.attempts, p, (device, binding.attempt), Attempt(binding, expiresAt, response), profile);
    PutElsewhere(s.attempts, p, (device, binding.attempt),
                 Attempt(binding, now + s.config.ttl, NotFound(input.session)), profile);
  }

  lemma {:induction false} ReplacedElsewhere(
    t: Table<Device, Claim>, p: Profile, device: Device, value: Claim, profile: Profile)
    requires p != profile
    ensures SameRows(t, Replaced(t, p, device, value), profile)
  {
    if |t| > 0 {
      assert t == [t[0]] + t[1..];
      if !Is(t[0], p, device) {
        ReplacedElsewhere(t[1..], p, device, value, profile);
      }
    }
  }

  lemma SameTwice(a: Store, b: Store, c: Store, profile: Profile)
    requires SameProfile(a, b, profile) && SameProfile(b, c, profile)
    ensures SameProfile(a, c, profile)
  {
  }

  lemma ClaimElsewhere(s: Store, p: Profile, device: Device, input: ClaimInput, clock: nat, profile: Profile)
    requires p != profile
    ensures
      var s' := ClaimCall(s, p, device, input, clock).0;
      s' == s || SameProfile(Purge(s, ReadNow(s, clock)), s', profile)
  {
    hide Purge, SetDevice, ClaimFresh, Replay, SameProfile;
    var now := ReadNow(s, clock);
    var s1 := Purge(s, now);
    SameAsItself(s1, profile);
    SetDeviceElsewhere(s1, p, device, input.deviceGeneration, now, profile);
    var s2 := SetDevice(s1, p, device, input.deviceGeneration, now);
    FreshClaimElsewhere(s2, p, device, input, BindingOf(s1, p, input), now, profile);
    SameTwice(s1, s2, ClaimFresh(s2, p, device, input, BindingOf(s1, p, input), now).0, profile);
  }

  lemma SameAsItself(s: Store, profile: Profile)
    ensures SameProfile(s, s, profile)
  {
  }

  lemma RecordElsewhere(s: Store, p: Profile, input: RecordInput, clock: nat, profile: Profile)
    requires p != profile
    ensures
      var s' := Record(s, p, input, clock).0;
      s' == s || SameProfile(Purge(s, ReadNow(s, clock)), s', profile)
  {
    hide Purge, AdmitRecord, Assemble, Put;
    var s1, s' := Purge(s, ReadNow(s, clock)), Record(s, p, input, clock).0;
    if Record(s, p, input, clock).1.Ok? {
      var context := Record(s, p, input, clock).1.value;
      var generation := if input.generation.Some? then input.generation.value else GenerationOf(s, p);
      var stored := Stored(generation, NextRevision(AdmitRecord(s1, p, input, generation).value).value,
                           input.providerRevision, context);
      PutElsewhere(s1.contexts, p, context.contextId, stored, profile);
    }
  }

  lemma DeviceCallElsewhere(s: Store, p: Profile, device: Device, generation: nat, clock: nat, profile: Profile)
    requires p != profile
    ensures
      var s' := InvalidateDevice(s, p, device, generation, clock).0;
      s' == s || SameProfile(Purge(s, ReadNow(s, clock)), s', profile)
  {
    hide Purge, SetDevice, Keep;
    var now := ReadNow(s, clock);
    var s1 := Purge(s, now);
    SetDeviceElsewhere(s1, p, device, generation, now, profile);
    var s2 := SetDevice(s1, p, device, generation, now);
    KeepElsewhere(s2.claims, (row: Row<Device, Claim>) => !Is(row, p, device), profile);
    KeepElsewhere(s2.attempts, (row: Row<(Device, AttemptId), Attempt>) => !OfDevice(row, p, device), profile);
  }

  lemma ProfileCallElsewhere(s: Store, op: Op, profile: Profile)
    requires (op.DoInvalidateProfile? || op.DoBegin? || op.DoMutation?) && op.profile != profile
    ensures SameProfile(s, Apply(s, op), profile)
  {
    hide Keep, Invalidate, Begin, Mutate;
    KeepElsewhere(s.contexts, (row: Row<nat, Stored>) => row.profile != op.profile, profile);
    KeepElsewhere(s.claims, (row: Row<Device, Claim>) => row.profile != op.profile, profile);
    KeepElsewhere(s.attempts, (row: Row<(Device, AttemptId), Attempt>) => row.profile != op.profile, profile);
    KeepElsewhere(s.devices, (row: Row<Device, DeviceState>) => row.profile != op.profile, profile);
  }

  /** A call for another profile, or a prune, leaves a profile as it was, or as time alone leaves it. */
  lemma ProfilesAreIsolated(s: Store, op: Op, profile: Profile)
    requires !Concerns(op, profile)
    ensures SameProfile(s, Apply(s, op), profile)
            || exists now :: now >= s.lastNow && SameProfile(Purge(s, now), Apply(s, op), profile)
  {
    hide Purge, SameProfile, Record, ClaimCall, InvalidateDevice;
    SameAsItself(s, profile);
    match op
    case DoRecord(p, input, clock) => RecordElsewhere(s, p, input, clock, profile);
    case DoClaim(p, device, request, clock) => ClaimElsewhere(s, p, device, request, clock, profile);
    case DoGetActive(p, device, session, clock) =>
      GetActiveOnlyPurges(s, p, device, session, clock);
      SameAsItself(Purge(s, ReadNow(s, clock)), profile);
    case DoRelease(p, device, session, clock) => ReleaseElsewhere(s, p, device, session, clock, profile);
    case DoInvalidateDevice(p, device, generation, clock) =>
      DeviceCallElsewhere(s, p, device, generation, clock, profile);
    case DoPrune(clock) => SameAsItself(Purge(s, ReadNow(s, clock)), profile);
    case _ => ProfileCallElsewhere(s, op, profile);
  }

  lemma ReleaseElsewhere(s: Store, p: Profile, device: Device, session: Session, clock: nat, profile: Profile)
    requires p != profile
    ensures SameProfile(Purge(s, ReadNow(s, clock)), ReleaseClaim(s, p, device, session, clock).0, profile)
  {
    hide Purge, Replaced;
    var now := ReadNow(s, clock);
    var s1 := Purge(s, now);
    var found := Lookup(s1.claims, p, device);
    if found.Some? {
      ReplacedElsewhere(s1.claims, p, device, found.value.(releasedAt := Some(now)), profile);
    }
  }

  // ---------------------------------------------------------------- clearing a profile

  ghost predicate NoRows<K(!new), V(!new)>(t: Table<K, V>, profile: Profile) {
    forall row: Row<K, V> :: row in t ==> row.profile != profile
  }

  ghost predicate IsEmpty(s: Store, profile: Profile) {
    && NoRows(s.contexts, profile) && NoRows(s.claims, profile) && NoRows(s.attempts, profile)
    && NoRows(s.tombstones, profile) && NoRows(s.devices, profile)
  }

  lemma ClearLeavesNothing(s: Store, profile: Profile)
    ensures IsEmpty(ClearProfile(s, profile), profile)
  {
    hide Keep;
    KeepSelects(s.contexts, (row: Row<nat, Stored>) => row.profile != profile);
    KeepSelects(s.claims, (row: Row<Device, Claim>) => row.profile != profile);
    KeepSelects(s.attempts, (row: Row<(Device, AttemptId), Attempt>) => row.profile != profile);
    KeepSelects(s.tombstones, (row: Row<Fingerprint, Tombstone>) => row.profile != profile);
    KeepSelects(s.devices, (row: Row<Device, DeviceState>) => row.profile != profile);
  }

  /** An invalidated profile, and one whose providers begin to change, forgets everything, and gets a new
      generation: the one given, or the token of the mutation. */
  lemma AMovedProfileForgetsEverything(s: Store, profile: Profile, clock: nat, seed: nat, minted: nat, next: nat)
    ensures
      var (s', invalidated) := InvalidateProfile(s, profile, clock, minted, next);
      invalidated ==> IsEmpty(s', profile) && GenerationOf(s', profile) == Stable(next)
    ensures
      var (s', begun) := BeginMutation(s, profile, clock, seed, minted);
      begun ==> IsEmpty(s', profile) && GenerationOf(s', profile).Pending?
  {
    hide IsEmpty, ClearProfile, GetState;
    var now, a := ReadNow(s, clock), AuthorityOf(s, profile);
    var invalid := s.(authorities := s.authorities[profile := Invalidate(a, now, minted, next).0],
                      lastNow := if StateReadsClock(a) then now else s.lastNow);
    ClearLeavesNothing(invalid, profile);
    ClearFrame(invalid, profile);
    var (authority, result) := Begin(a, now, s.config.leaseMs, seed, minted);
    var pending := s.(authorities := s.authorities[profile := authority],
                      lastNow := if StateReadsClock(a) || result.Ok? then now else s.lastNow);
    ClearLeavesNothing(pending, profile);
    ClearFrame(pending, profile);
  }
}
