// What a claim is answered, what a replayed claim is answered, and what a claim still gives access to.
module ContextClaims {
  import opened Outcomes
  import opened OrderedTables
  import opened Revisions
  import opened SnapshotAuthority
  import opened ContextMerge
  import opened ContextStore
  import opened ContextCoherence

  // ---------------------------------------------------------------- exactness

  /** A claim that is answered afresh: accepted, not a replay, and not older than the device's claim. */
  predicate AnsweredAfresh(s: Store, profile: Profile, device: Device, input: ClaimInput, clock: nat) {
    var s1 := Purge(s, ReadNow(s, clock));
    var previous := Lookup(s1.claims, profile, device);
    && ClaimCall(s, profile, device, input, clock).1.Ok?
    && Lookup(s1.attempts, profile, (device, input.attempt)).None?
    && (previous.None? || input.launchedAt >= previous.value.binding.launchedAt)
  }

  /** Live contexts of the profile in the launch window that share a fingerprint with the claim. */
  predicate Candidate(s: Store, row: Row<nat, Stored>, profile: Profile, input: ClaimInput, clock: nat) {
    var s1 := Purge(s, ReadNow(s, clock));
    row in s1.contexts && Matches(s1, row, profile, input.fingerprints, input.launchedAt)
  }

  lemma FreshAnswer(s: Store, profile: Profile, device: Device, input: ClaimInput, clock: nat)
    requires AnsweredAfresh(s, profile, device, input, clock)
    ensures
      var s1 := Purge(s, ReadNow(s, clock));
      ClaimCall(s, profile, device, input, clock).1 == Ok(Answer(s1, profile, input, ReadNow(s, clock)).0)
  {
    hide Purge, SetDevice, Answer, AttemptFits, HasActiveSession, Matching;
    var now := ReadNow(s, clock);
    var s1 := Purge(s, now);
    PurgedConfig(s, now);
    SetDeviceFrame(s1, profile, device, input.deviceGeneration, now);
    AnswerIgnoresDevices(s1, SetDevice(s1, profile, device, input.deviceGeneration, now), profile, input, now);
  }

  lemma AnswerIgnoresDevices(s: Store, s': Store, profile: Profile, input: ClaimInput, now: nat)
    requires s' == s.(devices := s'.devices)
    ensures Answer(s', profile, input, now) == Answer(s, profile, input, now)
  {
    MatchingIgnoresDevices(s.contexts, s, s', profile, input);
  }

  lemma {:induction false} MatchingIgnoresDevices(t: Table<nat, Stored>, s: Store, s': Store, profile: Profile,
      input: ClaimInput)
    requires s' == s.(devices := s'.devices)
    ensures Keep(t, (row: Row<nat, Stored>) => Matches(s', row, profile, input.fingerprints, input.launchedAt))
         == Keep(t, (row: Row<nat, Stored>) => Matches(s, row, profile, input.fingerprints, input.launchedAt))
  {
    if |t| > 0 {
      MatchingIgnoresDevices(t[1..], s, s', profile, input);
    }
  }

  lemma MatchingIsCandidates(s: Store, profile: Profile, input: ClaimInput, clock: nat)
    requires Coherent(s) && ConfigOk(s.config)
    ensures
      var matches := Matching(Purge(s, ReadNow(s, clock)), profile, input.fingerprints, input.launchedAt);
      && (forall row :: row in matches <==> Candidate(s, row, profile, input, clock))
      && Distinct(matches)
  {
    hide Purge, Matches;
    var now := ReadNow(s, clock);
    var s1 := Purge(s, now);
    PurgeKeeps(s, now);
    var keep := (row: Row<nat, Stored>) => Matches(s1, row, profile, input.fingerprints, input.launchedAt);
    KeepSelects(s1.contexts, keep);
    KeepStaysDistinct(s1.contexts, keep);
  }

  /** A fresh claim is "claimed" exactly when one live context in the launch window shares a
      fingerprint, and then it is that context. */
  lemma ClaimIsExact(s: Store, profile: Profile, device: Device, input: ClaimInput, clock: nat, row: Row<nat, Stored>)
    requires Coherent(s) && ConfigOk(s.config) && AnsweredAfresh(s, profile, device, input, clock)
    requires Candidate(s, row, profile, input, clock)
    ensures
      var answer := ClaimCall(s, profile, device, input, clock).1.value;
      && (answer.Claimed? <==> forall other :: Candidate(s, other, profile, input, clock) ==> other == row)
      && (answer.Claimed? ==> answer.context == row.value.context && answer.session == input.session)
      && (answer.Ambiguous? <==> exists other :: Candidate(s, other, profile, input, clock) && other != row)
  {
    hide Purge, ClaimCall, Candidate, Coherent, AnsweredAfresh;
    FreshAnswer(s, profile, device, input, clock);
    MatchingIsCandidates(s, profile, input, clock);
    var matches := Matching(Purge(s, ReadNow(s, clock)), profile, input.fingerprints, input.launchedAt);
    assert row in matches;
    if |matches| > 1 {
      assert matches[0] in matches && matches[1] in matches && matches[0] != matches[1];
      var other := if matches[0] == row then matches[1] else matches[0];
      assert Candidate(s, other, profile, input, clock) && other != row;
    } else {
      assert forall other :: Candidate(s, other, profile, input, clock) ==> other in matches;
    }
  }

  /** Without such a context the claim is "expired" if a fingerprint left a tombstone, "not found" otherwise. */
  lemma NoCandidateNoClaim(s: Store, profile: Profile, device: Device, input: ClaimInput, clock: nat)
    requires Coherent(s) && ConfigOk(s.config) && AnsweredAfresh(s, profile, device, input, clock)
    requires forall row :: !Candidate(s, row, profile, input, clock)
    ensures
      var answer := ClaimCall(s, profile, device, input, clock).1.value;
      if exists f :: f in input.fingerprints && Lookup(Purge(s, ReadNow(s, clock)).tombstones, profile, f).Some?
      then answer == Expired(input.session) else answer == NotFound(input.session)
  {
    hide Purge, ClaimCall, Candidate, Coherent, AnsweredAfresh;
    FreshAnswer(s, profile, device, input, clock);
    MatchingIsCandidates(s, profile, input, clock);
    var s1 := Purge(s, ReadNow(s, clock));
    var matches := Matching(s1, profile, input.fingerprints, input.launchedAt);
    NothingListed(matches);
    TombstoneIsFound(s1.tombstones, profile, input.fingerprints);
  }

  lemma NothingListed(t: Table<nat, Stored>)
    ensures |t| > 0 ==> exists row :: row in t
  {
    if |t| > 0 {
      assert t[0] in t;
    }
  }

  lemma {:induction false} TombstoneIsFound(t: Table<Fingerprint, Tombstone>, profile: Profile,
      fingerprints: seq<Fingerprint>)
    ensures TombstoneExpiry(t, profile, fingerprints).Some? <==>
              exists f :: f in fingerprints && Lookup(t, profile, f).Some?
  {
    if |fingerprints| > 0 {
      TombstoneIsFound(t, profile, fingerprints[1..]);
      assert fingerprints == [fingerprints[0]] + fingerprints[1..];
      if Lookup(t, profile, fingerprints[0]).Some? {
        assert fingerprints[0] in fingerprints;
      }
    }
  }

  /** A fingerprint belongs to at most one context of a profile. */
  lemma OneOwner(contexts: Table<nat, Stored>, horizon: nat, a: Row<nat, Stored>, b: Row<nat, Stored>, f: Fingerprint)
    requires ContextsOk(contexts, horizon) && a in contexts && b in contexts && a.profile == b.profile
    requires f in a.value.context.fingerprints && f in b.value.context.fingerprints
    ensures a == b
  {
    assert a != b ==> Apart(a, b);
    assert Shares(a.value.context.fingerprints, b.value.context.fingerprints);
  }

  /** A claim whose fingerprints all come from one context is never ambiguous: contexts of a profile
      have no fingerprint in common. */
  lemma OneSourceIsNeverAmbiguous(
    s: Store, profile: Profile, device: Device, input: ClaimInput, clock: nat, row: Row<nat, Stored>)
    requires Coherent(s) && ConfigOk(s.config) && AnsweredAfresh(s, profile, device, input, clock)
    requires row in Purge(s, ReadNow(s, clock)).contexts && row.profile == profile
    requires forall f :: f in input.fingerprints ==> f in row.value.context.fingerprints
    ensures
      var answer := ClaimCall(s, profile, device, input, clock).1.value;
      && !answer.Ambiguous?
      && (answer.Claimed? ==> answer.context == row.value.context)
      && (Candidate(s, row, profile, input, clock) ==> answer.Claimed?)
  {
    hide Purge, ClaimCall, AnsweredAfresh, Bounded, ClaimsOk, Current;
    var now := ReadNow(s, clock);
    PurgeKeeps(s, now);
    PurgedConfig(s, now);
    forall other | Candidate(s, other, profile, input, clock) ensures other == row {
      var f :| f in input.fingerprints && f in other.value.context.fingerprints;
      OneOwner(Purge(s, now).contexts, now + s.config.ttl, other, row, f);
    }
    if Candidate(s, row, profile, input, clock) {
      ClaimIsExact(s, profile, device, input, clock, row);
    } else {
      NoCandidateNoClaim(s, profile, device, input, clock);
    }
  }

  // ---------------------------------------------------------------- replay

  function PriorAttempt(s: Store, profile: Profile, device: Device, attempt: AttemptId): Option<Attempt> {
    Lookup(s.attempts, profile, (device, attempt))
  }

  /** While an attempt is retained, a different binding always conflicts, whatever else is wrong with
      the call, and changes nothing. */
  lemma OtherBindingsConflict(s: Store, profile: Profile, device: Device, input: ClaimInput, clock: nat)
    requires ClaimAccepted(input)
    ensures
      var s1 := Purge(s, ReadNow(s, clock));
      var prior := PriorAttempt(s1, profile, device, input.attempt);
      var (s', result) := ClaimCall(s, profile, device, input, clock);
      && (result == Err(RequestConflict) <==> prior.Some? && prior.value.binding != BindingOf(s1, profile, input))
      && (result == Err(RequestConflict) ==> s' == s1)
  {
    hide Purge, SetDevice, Answer, AttemptFits, HasActiveSession;
  }

  /** With the same binding the first response is repeated, except that a claim no longer held is
      "not found"; only the launch window and the device generation may still refuse the call. */
  lemma SameBindingRepeats(s: Store, profile: Profile, device: Device, input: ClaimInput, clock: nat)
    requires Coherent(s) && ConfigOk(s.config) && ClaimAccepted(input)
    requires
      var s1 := Purge(s, ReadNow(s, clock));
      var prior := PriorAttempt(s1, profile, device, input.attempt);
      prior.Some? && prior.value.binding == BindingOf(s1, profile, input)
    ensures
      var s1 := Purge(s, ReadNow(s, clock));
      var prior := PriorAttempt(s1, profile, device, input.attempt).value;
      var result := ClaimCall(s, profile, device, input, clock).1;
      match result
      case Err(e) => e == LaunchedTooLate || e == LaunchedTooEarly || e == DeviceGenerationChanged
      case Ok(response) =>
        response == if prior.response.Claimed? && !StillHeld(s1, profile, device, prior.binding)
                    then NotFound(input.session) else prior.response
  {
    hide Purge, SetDevice, ClaimFresh, ContextsOk, ClaimsOk, Bounded, ConfigOk;
    var now := ReadNow(s, clock);
    var s1 := Purge(s, now);
    PurgeKeeps(s, now);
    PurgedConfig(s, now);
    SetDeviceFrame(s1, profile, device, input.deviceGeneration, now);
    assert Row(profile, (device, input.attempt), PriorAttempt(s1, profile, device, input.attempt).value) in s1.attempts;
  }

  /** The second capacity check cannot fail: a claim is never stored without its attempt. */
  lemma SecondCapacityCheckHolds(s: Store, profile: Profile, device: Device, input: ClaimInput, clock: nat)
    ensures ClaimCall(s, profile, device, input, clock).1 != Err(AttemptCapacity(true))
  {
    hide Purge, SetDevice, Answer, HasActiveSession, Lookup;
  }

  // ---------------------------------------------------------------- attempts over time

  lemma LookupAfterKeep<K(!new), V(!new)>(t: Table<K, V>, keep: Row<K, V> -> bool, profile: Profile, key: K)
    requires Distinct(t)
    ensures Lookup(Keep(t, keep), profile, key)
         == if Lookup(t, profile, key).Some? && keep(Row(profile, key, Lookup(t, profile, key).value))
            then Lookup(t, profile, key) else None
  {
    KeepSelects(t, keep);
    KeepStaysDistinct(t, keep);
    var kept := Lookup(Keep(t, keep), profile, key);
    if kept.Some? {
      LookupFinds(t, profile, key, kept.value);
    } else if Lookup(t, profile, key).Some? {
      assert Row(profile, key, Lookup(t, profile, key).value) in t;
    }
  }

  lemma LookupAfterPut<K(!new), V(!new)>(t: Table<K, V>, p: Profile, k: K, v: V, profile: Profile, key: K)
    requires Distinct(t)
    ensures Lookup(Put(t, p, k, v), profile, key)
         == if p == profile && k == key then Some(v) else Lookup(t, profile, key)
  {
    PutStaysDistinct(t, p, k, v);
    var t' := Put(t, p, k, v);
    if p == profile && k == key {
      LookupFinds(t', profile, key, v);
    } else {
      var was, has := Lookup(t, profile, key), Lookup(t', profile, key);
      assert has.Some? ==> Row(profile, key, has.value) in t;
      if was.Some? {
        assert Row(profile, key, was.value) in t;
        LookupFinds(t', profile, key, was.value);
      }
    }
  }

  /** Where an attempt and the claim it made stand after an operation: the attempt is as it was or
      gone, and a claim that was no longer held is not held again. */
  ghost predicate Settles(s: Store, s': Store, profile: Profile, device: Device, attempt: Attempt) {
    var after := PriorAttempt(s', profile, device, attempt.binding.attempt);
    && (after.None? || after == Some(attempt))
    && (!StillHeld(s, profile, device, attempt.binding) ==> !StillHeld(s', profile, device, attempt.binding))
  }

  ghost predicate Retained(s: Store, profile: Profile, device: Device, attempt: Attempt) {
    && PriorAttempt(s, profile, device, attempt.binding.attempt) == Some(attempt)
    && attempt.expiresAt > s.lastNow
  }

  lemma SettlesTransitive(a: Store, b: Store, c: Store, profile: Profile, device: Device, attempt: Attempt)
    requires Settles(a, b, profile, device, attempt)
    requires PriorAttempt(b, profile, device, attempt.binding.attempt).Some? ==> Settles(b, c, profile, device, attempt)
    requires PriorAttempt(b, profile, device, attempt.binding.attempt).Some?
    ensures Settles(a, c, profile, device, attempt)
  {
  }

  lemma PurgeSettles(s: Store, now: nat, profile: Profile, device: Device, attempt: Attempt)
    requires Coherent(s) && PriorAttempt(s, profile, device, attempt.binding.attempt) == Some(attempt)
    requires attempt.expiresAt > now
    ensures Settles(s, Purge(s, now), profile, device, attempt)
    ensures PriorAttempt(Purge(s, now), profile, device, attempt.binding.attempt) == Some(attempt)
  {
    hide Bury, Current, ContextsOk;
    LookupAfterKeep(s.attempts, (row: Row<(Device, AttemptId), Attempt>) => row.value.expiresAt > now,
                    profile, (device, attempt.binding.attempt));
    LookupAfterKeep(s.claims, (row: Row<Device, Claim>) => row.value.expiresAt > now, profile, device);
  }

  /** A fresh claim of another attempt replaces the claim; it cannot be one of this attempt, which is
      answered as a replay. */
  lemma ClaimFreshSettles(
    s: Store, p: Profile, d: Device, input: ClaimInput, binding: Binding, now: nat,
    profile: Profile, device: Device, attempt: Attempt)
    requires Coherent(s) && PriorAttempt(s, profile, device, attempt.binding.attempt) == Some(attempt)
    requires binding.attempt == input.attempt
    requires PriorAttempt(s, p, d, input.attempt).None?
    ensures Settles(s, ClaimFresh(s, p, d, input, binding, now).0, profile, device, attempt)
  {
    hide Coherent, Answer, AttemptFits, HasActiveSession, StillHeld, Put;
    var previous := Lookup(s.claims, p, d);
    var (response, expiresAt) := Answer(s, p, input, now);
    var claim := MakeClaim(binding, previous, response, expiresAt, now);
    var s1 := s.(claims := Put(s.claims, p, d, claim));
    NewClaimIsAnothers(s, p, d, claim, profile, device, attempt);
    TablesAreDistinct(s);
    AttemptPutSettles(s, p, d, Attempt(binding, now + s.config.ttl, NotFound(input.session)), profile, device, attempt);
    AttemptPutSettles(s1, p, d, Attempt(binding, expiresAt, response), profile, device, attempt);
  }

  lemma TablesAreDistinct(s: Store)
    requires Coherent(s)
    ensures Distinct(s.attempts) && Distinct(s.claims) && Distinct(s.contexts)
  {
  }

  lemma NewClaimIsAnothers(
    s: Store, p: Profile, d: Device, claim: Claim, profile: Profile, device: Device, attempt: Attempt)
    requires Coherent(s) && PriorAttempt(s, profile, device, attempt.binding.attempt) == Some(attempt)
    requires PriorAttempt(s, p, d, claim.binding.attempt).None?
    ensures Settles(s, s.(claims := Put(s.claims, p, d, claim)), profile, device, attempt)
  {
    hide Current, ContextsOk, Put;
    LookupAfterPut(s.claims, p, d, claim, profile, device);
  }

  lemma AttemptPutSettles(
    s: Store, p: Profile, d: Device, added: Attempt, profile: Profile, device: Device, attempt: Attempt)
    requires Distinct(s.attempts) && PriorAttempt(s, profile, device, attempt.binding.attempt) == Some(attempt)
    requires PriorAttempt(s, p, d, added.binding.attempt).None?
    ensures Settles(s, s.(attempts := Put(s.attempts, p, (d, added.binding.attempt), added)), profile, device, attempt)
  {
    hide Put;
    LookupAfterPut(s.attempts, p, (d, added.binding.attempt), added, profile, (device, attempt.binding.attempt));
  }

  lemma ClaimSettles(
    s: Store, p: Profile, d: Device, input: ClaimInput, clock: nat, profile: Profile, device: Device, attempt: Attempt)
    requires Coherent(s) && ConfigOk(s.config) && Retained(s, profile, device, attempt)
    requires attempt.expiresAt > ClaimCall(s, p, d, input, clock).0.lastNow
    ensures Settles(s, ClaimCall(s, p, d, input, clock).0, profile, device, attempt)
  {
    hide Coherent, ConfigOk, Purge, SetDevice, ClaimFresh, StillHeld, Replay;
    if ClaimAccepted(input) {
      var now := ReadNow(s, clock);
      var s1 := Purge(s, now);
      ClaimReadsClock(s, p, d, input, clock);
      PurgeSettles(s, now, profile, device, attempt);
      PurgeKeeps(s, now);
      PurgedConfig(s, now);
      SetDeviceCoherent(s1, p, d, input.deviceGeneration, now);
      SetDeviceFrame(s1, p, d, input.deviceGeneration, now);
      var s2 := SetDevice(s1, p, d, input.deviceGeneration, now);
      SameHolding(s1, s2, profile, device, attempt.binding);
      if PriorAttempt(s2, p, d, input.attempt).None? {
        ClaimFreshSettles(s2, p, d, input, BindingOf(s1, p, input), now, profile, device, attempt);
      }
    }
  }

  lemma SameHolding(s: Store, s': Store, profile: Profile, device: Device, binding: Binding)
    requires s'.claims == s.claims
    ensures StillHeld(s', profile, device, binding) <==> StillHeld(s, profile, device, binding)
  {
  }

  lemma ClaimReadsClock(s: Store, p: Profile, d: Device, input: ClaimInput, clock: nat)
    requires ClaimAccepted(input)
    ensures ClaimCall(s, p, d, input, clock).0.lastNow == ReadNow(s, clock)
  {
    hide Answer, Lookup, Bury, Keep, AttemptFits, HasActiveSession;
  }

  lemma ReleaseSettles(
    s: Store, p: Profile, d: Device, session: Session, clock: nat, profile: Profile, device: Device, attempt: Attempt)
    requires Coherent(s) && ConfigOk(s.config) && Retained(s, profile, device, attempt)
    requires attempt.expiresAt > ReadNow(s, clock)
    ensures Settles(s, ReleaseClaim(s, p, d, session, clock).0, profile, device, attempt)
  {
    hide Coherent, ConfigOk, Purge, Replaced;
    var now := ReadNow(s, clock);
    var s1 := Purge(s, now);
    PurgeSettles(s, now, profile, device, attempt);
    PurgeKeeps(s, now);
    var found := Lookup(s1.claims, p, d);
    if found.Some? && found.value.releasedAt.None? {
      ReplacedLookup(s1, p, d, found.value.(releasedAt := Some(now)), profile, device);
    }
  }

  lemma ReplacedLookup(s: Store, p: Profile, d: Device, released: Claim, profile: Profile, device: Device)
    requires Coherent(s) && Lookup(s.claims, p, d).Some?
    ensures Lookup(Replaced(s.claims, p, d, released), profile, device)
         == if p == profile && d == device then Some(released) else Lookup(s.claims, profile, device)
  {
    hide Current, ContextsOk, Bounded;
    ReplacedRows(s.claims, p, d, released);
    var t' := Replaced(s.claims, p, d, released);
    if p == profile && d == device {
      LookupFinds(t', profile, device, released);
    } else {
      var was, has := Lookup(s.claims, profile, device), Lookup(t', profile, device);
      assert has.Some? ==> Row(profile, device, has.value) in s.claims;
      if was.Some? {
        LookupFinds(t', profile, device, was.value);
      }
    }
  }

  lemma DropSettles(
    s: Store, s': Store, keepClaim: Row<Device, Claim> -> bool, keepAttempt: Row<(Device, AttemptId), Attempt> -> bool,
    profile: Profile, device: Device, attempt: Attempt)
    requires Coherent(s) && PriorAttempt(s, profile, device, attempt.binding.attempt) == Some(attempt)
    requires s'.claims == Keep(s.claims, keepClaim) && s'.attempts == Keep(s.attempts, keepAttempt)
    ensures Settles(s, s', profile, device, attempt)
  {
    hide Current, ContextsOk;
    LookupAfterKeep(s.attempts, keepAttempt, profile, (device, attempt.binding.attempt));
    LookupAfterKeep(s.claims, keepClaim, profile, device);
  }

  lemma ApplySettles(s: Store, op: Op, profile: Profile, device: Device, attempt: Attempt)
    requires Coherent(s) && ConfigOk(s.config) && Retained(s, profile, device, attempt)
    requires attempt.expiresAt > Apply(s, op).lastNow
    ensures Settles(s, Apply(s, op), profile, device, attempt)
  {
    hide Coherent, ConfigOk, Settles, Record, ClaimCall, ReleaseClaim, GetActive, Purge, SetDevice, Bury;
    if op.DoClaim? {
      ClaimSettles(s, op.profile, op.device, op.request, op.clock, profile, device, attempt);
    } else if op.DoRelease? {
      ReleaseReadsClock(s, op.profile, op.device, op.session, op.clock);
      ReleaseSettles(s, op.profile, op.device, op.session, op.clock, profile, device, attempt);
    } else if op.DoPrune? {
      PurgedConfig(s, ReadNow(s, op.clock));
      PurgeSettles(s, ReadNow(s, op.clock), profile, device, attempt);
    } else if op.DoGetActive? {
      GetActiveOnlyPurges(s, op.profile, op.device, op.session, op.clock);
      PurgedConfig(s, ReadNow(s, op.clock));
      PurgeSettles(s, ReadNow(s, op.clock), profile, device, attempt);
    } else if op.DoRecord? {
      RecordSettles(s, op.profile, op.input, op.clock, profile, device, attempt);
    } else if op.DoInvalidateDevice? {
      InvalidateDeviceSettles(s, op.profile, op.device, op.generation, op.clock, profile, device, attempt);
    } else {
      ProfileCallSettles(s, op, profile, device, attempt);
    }
  }

  lemma ReleaseReadsClock(s: Store, p: Profile, d: Device, session: Session, clock: nat)
    ensures ReleaseClaim(s, p, d, session, clock).0.lastNow == ReadNow(s, clock)
  {
    hide Lookup, Bury, Keep, Replaced;
  }

  lemma SameTablesSettle(s: Store, s': Store, profile: Profile, device: Device, attempt: Attempt)
    requires s'.claims == s.claims && s'.attempts == s.attempts
    requires PriorAttempt(s, profile, device, attempt.binding.attempt) == Some(attempt)
    ensures Settles(s, s', profile, device, attempt)
  {
  }

  lemma RecordSettles(
    s: Store, p: Profile, input: RecordInput, clock: nat, profile: Profile, device: Device, attempt: Attempt)
    requires Coherent(s) && Retained(s, profile, device, attempt)
    requires attempt.expiresAt > Record(s, p, input, clock).0.lastNow
    ensures Settles(s, Record(s, p, input, clock).0, profile, device, attempt)
  {
    hide Coherent, Purge, AdmitRecord, Assemble, Settles;
    var now := ReadNow(s, clock);
    var s', s1 := Record(s, p, input, clock).0, Purge(s, now);
    PurgedConfig(s, now);
    if s' == s {
      SameTablesSettle(s, s', profile, device, attempt);
    } else {
      assert s' == s1.(contexts := s'.contexts);
      PurgeSettles(s, now, profile, device, attempt);
      SameTablesSettle(s1, s', profile, device, attempt);
      SettlesTransitive(s, s1, s', profile, device, attempt);
    }
  }

  lemma InvalidateDeviceSettles(
    s: Store, p: Profile, d: Device, generation: nat, clock: nat, profile: Profile, device: Device, attempt: Attempt)
    requires Coherent(s) && ConfigOk(s.config) && Retained(s, profile, device, attempt)
    requires attempt.expiresAt > InvalidateDevice(s, p, d, generation, clock).0.lastNow
    ensures Settles(s, InvalidateDevice(s, p, d, generation, clock).0, profile, device, attempt)
  {
    hide Coherent, ConfigOk, Purge, SetDevice, OfDevice, Settles;
    var now := ReadNow(s, clock);
    var s', s1 := InvalidateDevice(s, p, d, generation, clock).0, Purge(s, now);
    PurgedConfig(s, now);
    SetDeviceFrame(s1, p, d, generation, now);
    if s' == s {
      SameTablesSettle(s, s', profile, device, attempt);
    } else {
      PurgeSettles(s, now, profile, device, attempt);
      PurgeKeeps(s, now);
      if s' == s1 {
        SameTablesSettle(s1, s', profile, device, attempt);
      } else {
        DropSettles(s1, s', (row: Row<Device, Claim>) => !Is(row, p, d),
                    (row: Row<(Device, AttemptId), Attempt>) => !OfDevice(row, p, d), profile, device, attempt);
      }
      SettlesTransitive(s, s1, s', profile, device, attempt);
    }
  }

  lemma ProfileCallSettles(s: Store, op: Op, profile: Profile, device: Device, attempt: Attempt)
    requires Coherent(s) && Retained(s, profile, device, attempt)
    requires op.DoInvalidateProfile? || op.DoBegin? || op.DoMutation?
    ensures Settles(s, Apply(s, op), profile, device, attempt)
  {
    hide Coherent, Settles, Invalidate, Begin, Mutate;
    var s' := Apply(s, op);
    if s'.claims == s.claims && s'.attempts == s.attempts {
      SameTablesSettle(s, s', profile, device, attempt);
    } else {
      DropSettles(s, s', (row: Row<Device, Claim>) => row.profile != op.profile,
                  (row: Row<(Device, AttemptId), Attempt>) => row.profile != op.profile, profile, device, attempt);
    }
  }

  /** The attempt is there, unexpired, at the start and after every operation. */
  ghost predicate RetainedDuring(s: Store, ops: seq<Op>, profile: Profile, device: Device, attempt: Attempt)
    decreases |ops|
  {
    && Retained(Run(s, ops), profile, device, attempt)
    && (|ops| > 0 ==> RetainedDuring(s, ops[..|ops| - 1], profile, device, attempt))
  }

  /** A claim that was superseded, released or lost is not held again while its attempt is retained. */
  lemma {:induction false} DroppedClaimsStayDropped(s: Store, ops: seq<Op>, profile: Profile, device: Device,
      attempt: Attempt)
    requires Coherent(s) && ConfigOk(s.config) && RetainedDuring(s, ops, profile, device, attempt)
    requires !StillHeld(s, profile, device, attempt.binding)
    ensures !StillHeld(Run(s, ops), profile, device, attempt.binding)
    ensures Coherent(Run(s, ops)) && Run(s, ops).config == s.config
    decreases |ops|
  {
    hide Apply, Coherent, ConfigOk, StillHeld;
    if |ops| > 0 {
      var front, last := ops[..|ops| - 1], ops[|ops| - 1];
      DroppedClaimsStayDropped(s, front, profile, device, attempt);
      ApplyKeeps(Run(s, front), last);
      ApplySettles(Run(s, front), last, profile, device, attempt);
    }
  }

  /** So replaying it is never answered "claimed" again. */
  lemma DroppedAttemptsAreNotClaimed(
    s: Store, ops: seq<Op>, profile: Profile, device: Device, attempt: Attempt, input: ClaimInput, clock: nat)
    requires Coherent(s) && ConfigOk(s.config) && RetainedDuring(s, ops, profile, device, attempt)
    requires !StillHeld(s, profile, device, attempt.binding)
    requires attempt.expiresAt > ReadNow(Run(s, ops), clock) && input.attempt == attempt.binding.attempt
    ensures
      var result := ClaimCall(Run(s, ops), profile, device, input, clock).1;
      result.Err? || !result.value.Claimed?
  {
    hide Apply, ConfigOk, StillHeld, Purge, ClaimCall, Coherent;
    DroppedClaimsStayDropped(s, ops, profile, device, attempt);
    var w := Run(s, ops);
    var s1 := Purge(w, ReadNow(w, clock));
    PurgeSettles(w, ReadNow(w, clock), profile, device, attempt);
    if ClaimAccepted(input) {
      OtherBindingsConflict(w, profile, device, input, clock);
      if attempt.binding == BindingOf(s1, profile, input) {
        SameBindingRepeats(w, profile, device, input, clock);
      }
    } else {
      RefusedInput(w, profile, device, input, clock);
    }
  }

  lemma RefusedInput(s: Store, profile: Profile, device: Device, input: ClaimInput, clock: nat)
    requires !ClaimAccepted(input)
    ensures ClaimCall(s, profile, device, input, clock) == (s, Err(Malformed))
  {
  }

  // ---------------------------------------------------------------- active claims

  /** A claim gives access exactly while the device's claim is a claimed one for this session, not
      released, and the device generation is still the one it was made under; all the other checks of
      the source are implied by coherence. What it gives is the context as stored now. */
  lemma ActiveClaimIsExact(s: Store, profile: Profile, device: Device, session: Session, clock: nat)
    requires Coherent(s) && ConfigOk(s.config)
    ensures
      var s1 := Purge(s, ReadNow(s, clock));
      var claim, known := Lookup(s1.claims, profile, device), Lookup(s1.devices, profile, device);
      var active := GetActive(s, profile, device, session, clock).1;
      && (active.Some? <==>
            && claim.Some? && claim.value.releasedAt.None? && claim.value.response.Claimed?
            && claim.value.binding.session == session
            && known.Some? && known.value.generation == claim.value.binding.deviceGeneration)
      && (active.Some? ==>
            exists row :: row in s1.contexts && row.profile == profile && claim.value.contextId == Some(row.key)
                          && active.value.context == row.value.context
                              && active.value.expiresAt <= row.value.context.expiresAt
                          && active.value.generation == GenerationOf(s, profile))
  {
    hide Bounded, ConfigOk, Purge;
    var now := ReadNow(s, clock);
    var s1 := Purge(s, now);
    PurgeKeeps(s, now);
    PurgedConfig(s, now);
    var found := Lookup(s1.claims, profile, device);
    if found.Some? && found.value.response.Claimed? {
      var row := Row(profile, device, found.value);
      assert row in s1.claims && Backed(s1.contexts, row);
      PurgedClaimsLive(s, now, row);
      var stored := Lookup(s1.contexts, profile, found.value.contextId.value);
      assert Row(profile, found.value.contextId.value, stored.value) in s1.contexts;
    }
  }

  lemma PurgedClaimsLive(s: Store, now: nat, row: Row<Device, Claim>)
    requires row in Purge(s, now).claims
    ensures row.value.expiresAt > now
  {
    KeepSelects(s.claims, (row: Row<Device, Claim>) => row.value.expiresAt > now);
  }
}
