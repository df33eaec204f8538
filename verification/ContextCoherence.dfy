// The tables of the store stay mutually consistent, and within their bounds, in every reachable state.
module ContextCoherence {
  import opened Outcomes
  import opened OrderedTables
  import opened Revisions
  import opened SnapshotAuthority
  import opened ContextMerge
  import opened ContextStore

  // ---------------------------------------------------------------- invariant

  /** Everything kept for a profile belongs to its current generation, which is stable: while a
      mutation is pending there is nothing. */
  ghost predicate InGeneration(s: Store, profile: Profile, generation: Generation) {
    generation.Stable? && generation == GenerationOf(s, profile)
  }

  ghost predicate Current(s: Store) {
    && (forall row :: row in s.contexts ==> InGeneration(s, row.profile, row.value.generation))
    && (forall row :: row in s.claims ==> InGeneration(s, row.profile, row.value.binding.generation))
    && (forall row :: row in s.attempts ==> InGeneration(s, row.profile, row.value.binding.generation))
  }

  ghost predicate ContextOk(row: Row<nat, Stored>, horizon: nat) {
    && row.value.context.contextId == row.key && row.value.context.profile == row.profile
    && |row.value.context.fingerprints| > 0 && row.value.context.expiresAt <= horizon
  }

  ghost predicate Apart(a: Row<nat, Stored>, b: Row<nat, Stored>) {
    a.key != b.key && (a.profile == b.profile ==> !Shares(a.value.context.fingerprints, b.value.context.fingerprints))
  }

  /** Contexts of one profile have disjoint fingerprints, and no two contexts share an id. */
  ghost predicate ContextsOk(contexts: Table<nat, Stored>, horizon: nat) {
    && Distinct(contexts)
    && (forall row :: row in contexts ==> ContextOk(row, horizon))
    && (forall a, b :: a in contexts && b in contexts && a != b ==> Apart(a, b))
  }

  /** A claimed claim refers to a stored context that expires no earlier. */
  ghost predicate Backed(contexts: Table<nat, Stored>, row: Row<Device, Claim>) {
    row.value.response.Claimed? ==>
      && row.value.response.session == row.value.binding.session
      && row.value.contextId.Some?
      && var stored := Lookup(contexts, row.profile, row.value.contextId.value);
         stored.Some? && stored.value.context.expiresAt >= row.value.expiresAt
  }

  predicate SessionsApart(a: Row<Device, Claim>, b: Row<Device, Claim>) {
    a.value.response.Claimed? && b.value.response.Claimed? ==> a.value.response.session != b.value.response.session
  }

  ghost predicate ClaimsOk(contexts: Table<nat, Stored>, claims: Table<Device, Claim>) {
    && Distinct(claims)
    && (forall row :: row in claims ==> Backed(contexts, row))
    && (forall a, b :: a in claims && b in claims && a != b ==> SessionsApart(a, b))
  }

  /** At most `total` rows, and at most `each` of one profile. */
  ghost predicate Within<K(!new), V(!new)>(t: Table<K, V>, total: nat, each: nat) {
    |t| <= total && EachWithin(t, each)
  }

  ghost predicate EachWithin<K(!new), V(!new)>(t: Table<K, V>, each: nat) {
    forall p: Profile :: CountFor(t, p) <= each
  }

  ghost predicate Bounded(s: Store) {
    && Within(s.contexts, s.config.maxContexts, s.config.maxContextsPerProfile)
    && Within(s.claims, s.config.maxClaims, s.config.maxClaimsPerProfile)
    && Within(s.attempts, s.config.maxAttempts, s.config.maxAttemptsPerProfile)
    && Distinct(s.attempts)
    && TombstonesOk(s.config, s.tombstones)
    && DevicesOk(s.config, s.devices)
  }

  ghost predicate TombstonesOk(config: Config, t: Table<Fingerprint, Tombstone>) {
    Distinct(t) && Within(t, config.maxTombstones, config.maxTombstonesPerProfile)
  }

  ghost predicate DevicesOk(config: Config, t: Table<Device, DeviceState>) {
    Distinct(t) && EachWithin(t, config.maxDevicesPerProfile)
  }

  ghost predicate Coherent(s: Store) {
    Current(s) && ContextsOk(s.contexts, s.lastNow + s.config.ttl) && ClaimsOk(s.contexts, s.claims) && Bounded(s)
  }

  /** Limits are positive integers. */
  predicate ConfigOk(config: Config) {
    && config.maxTombstones >= 1 && config.maxTombstonesPerProfile >= 1 && config.maxDevicesPerProfile >= 1
  }

  // ---------------------------------------------------------------- tombstones and devices

  lemma {:induction false} TrimKeeps(config: Config, t: Table<Fingerprint, Tombstone>, profile: Profile)
    requires Distinct(t) && forall p: Profile :: p != profile ==> CountFor(t, p) <= config.maxTombstonesPerProfile
    ensures Distinct(TrimTombstones(config, t, profile))
    ensures EachWithin(TrimTombstones(config, t, profile), config.maxTombstonesPerProfile)
    ensures |TrimTombstones(config, t, profile)| <= |t|
    ensures CountFor(t, profile) > config.maxTombstonesPerProfile ==> |TrimTombstones(config, t, profile)| < |t|
    decreases CountFor(t, profile)
  {
    if CountFor(t, profile) > config.maxTombstonesPerProfile {
      DropOldestStaysDistinct(t, profile);
      forall p: Profile ensures CountFor(DropOldest(t, profile), p) == CountFor(t, p) - if p == profile then 1 else 0 {
        DropOldestSize(t, profile, p);
      }
      DropOldestSize(t, profile, profile);
      TrimKeeps(config, DropOldest(t, profile), profile);
    }
  }

  /** The two-level bound: a full table takes a new tombstone only from a profile that gives one up. */
  lemma AddTombstoneKeeps(config: Config, t: Table<Fingerprint, Tombstone>, profile: Profile, f: Fingerprint,
      until: nat)
    requires ConfigOk(config) && TombstonesOk(config, t)
    ensures TombstonesOk(config, AddTombstone(config, t, profile, f, until))
  {
    PutStaysDistinct(t, profile, f, Tombstone(until));
    PutSize(t, profile, f, Tombstone(until));
    TrimKeeps(config, Put(t, profile, f, Tombstone(until)), profile);
  }

  lemma {:induction false} AddTombstonesKeeps(
    config: Config, t: Table<Fingerprint, Tombstone>, profile: Profile, fingerprints: seq<Fingerprint>, until: nat)
    requires ConfigOk(config) && TombstonesOk(config, t)
    ensures TombstonesOk(config, AddTombstones(config, t, profile, fingerprints, until))
    decreases |fingerprints|
  {
    hide TombstonesOk;
    if |fingerprints| > 0 {
      AddTombstoneKeeps(config, t, profile, fingerprints[0], until);
      AddTombstonesKeeps(config, AddTombstone(config, t, profile, fingerprints[0], until), profile, fingerprints[1..],
          until);
    }
  }

  lemma {:induction false} BuryKeeps(
    config: Config, t: Table<Fingerprint, Tombstone>, contexts: Table<nat, Stored>, now: nat)
    requires ConfigOk(config) && TombstonesOk(config, t)
    ensures TombstonesOk(config, Bury(config, t, contexts, now))
    decreases |contexts|
  {
    hide TombstonesOk;
    if |contexts| > 0 {
      var context := contexts[0].value.context;
      var until := context.expiresAt + config.tombstoneTtl;
      if context.expiresAt > now || until <= now {
        BuryKeeps(config, t, contexts[1..], now);
      } else {
        AddTombstonesKeeps(config, t, contexts[0].profile, context.fingerprints, until);
        BuryKeeps(config, AddTombstones(config, t, contexts[0].profile, context.fingerprints, until), contexts[1..],
            now);
      }
    }
  }

  lemma SetDeviceKeeps(s: Store, profile: Profile, device: Device, generation: nat, now: nat)
    requires ConfigOk(s.config) && DevicesOk(s.config, s.devices)
    ensures DevicesOk(s.config, SetDevice(s, profile, device, generation, now).devices)
  {
    var value := DeviceState(generation, now + s.config.deviceTtl);
    var full := Lookup(s.devices, profile, device).None?
        && CountFor(s.devices, profile) >= s.config.maxDevicesPerProfile;
    var room := if full then DropOldest(s.devices, profile) else s.devices;
    DropOldestStaysDistinct(s.devices, profile);
    forall p: Profile ensures CountFor(room, p) == CountFor(s.devices, p) - if full && p == profile then 1 else 0 {
      DropOldestSize(s.devices, profile, p);
    }
    PutStaysDistinct(room, profile, device, value);
    PutSize(room, profile, device, value);
  }

  // ---------------------------------------------------------------- selecting rows

  lemma KeepStaysWithin<K(!new), V(!new)>(t: Table<K, V>, keep: Row<K, V> -> bool, total: nat, each: nat)
    requires Within(t, total, each)
    ensures Within(Keep(t, keep), total, each)
  {
    KeepSelects(t, keep);
  }

  lemma ContextsSubset(contexts: Table<nat, Stored>, keep: Row<nat, Stored> -> bool, horizon: nat, horizon': nat)
    requires ContextsOk(contexts, horizon) && horizon <= horizon'
    ensures ContextsOk(Keep(contexts, keep), horizon')
  {
    KeepSelects(contexts, keep);
    KeepStaysDistinct(contexts, keep);
  }

  /** A claim whose context is kept stays backed. */
  lemma BackedByKept(contexts: Table<nat, Stored>, keep: Row<nat, Stored> -> bool, row: Row<Device, Claim>)
    requires Distinct(contexts) && Backed(contexts, row)
    requires forall c ::
      c in contexts && c.profile == row.profile && c.value.context.expiresAt >= row.value.expiresAt ==> keep(c)
    ensures Backed(Keep(contexts, keep), row)
  {
    if row.value.response.Claimed? {
      var id := row.value.contextId.value;
      var stored := Lookup(contexts, row.profile, id).value;
      KeepSelects(contexts, keep);
      KeepStaysDistinct(contexts, keep);
      assert Row(row.profile, id, stored) in contexts;
      LookupFinds(Keep(contexts, keep), row.profile, id, stored);
    }
  }

  lemma ClaimsSubset(
    contexts: Table<nat, Stored>, contexts': Table<nat, Stored>, claims: Table<Device, Claim>,
    keep: Row<Device, Claim> -> bool)
    requires ClaimsOk(contexts, claims)
    requires forall row :: row in claims && keep(row) ==> Backed(contexts', row)
    ensures ClaimsOk(contexts', Keep(claims, keep))
  {
    hide Backed, SessionsApart;
    KeepSelects(claims, keep);
    KeepStaysDistinct(claims, keep);
  }

  // ---------------------------------------------------------------- purge

  lemma PurgeKeepsContextsAndClaims(s: Store, now: nat)
    requires ContextsOk(s.contexts, s.lastNow + s.config.ttl) && ClaimsOk(s.contexts, s.claims) && s.lastNow <= now
    ensures ContextsOk(Purge(s, now).contexts, now + s.config.ttl)
    ensures ClaimsOk(Purge(s, now).contexts, Purge(s, now).claims)
  {
    hide Backed, SessionsApart, Apart, ContextOk;
    var keepContext := (row: Row<nat, Stored>) => ContextLives(row, now);
    var keepClaim := (row: Row<Device, Claim>) => row.value.expiresAt > now;
    ContextsSubset(s.contexts, keepContext, s.lastNow + s.config.ttl, now + s.config.ttl);
    forall row | row in s.claims && keepClaim(row) ensures Backed(Keep(s.contexts, keepContext), row) {
      BackedByKept(s.contexts, keepContext, row);
    }
    ClaimsSubset(s.contexts, Keep(s.contexts, keepContext), s.claims, keepClaim);
  }

  lemma PurgeKeepsCurrent(s: Store, now: nat)
    requires Current(s)
    ensures Current(Purge(s, now))
  {
    hide Bury;
    KeepSelects(s.contexts, (row: Row<nat, Stored>) => ContextLives(row, now));
    KeepSelects(s.claims, (row: Row<Device, Claim>) => row.value.expiresAt > now);
    KeepSelects(s.attempts, (row: Row<(Device, AttemptId), Attempt>) => row.value.expiresAt > now);
  }

  lemma PurgeKeepsBounds(s: Store, now: nat)
    requires Bounded(s) && ConfigOk(s.config)
    ensures Bounded(Purge(s, now))
  {
    hide Within, Distinct;
    var c := s.config;
    KeepStaysWithin(s.contexts, (row: Row<nat, Stored>) => ContextLives(row, now), c.maxContexts,
        c.maxContextsPerProfile);
    KeepStaysWithin(s.claims, (row: Row<Device, Claim>) => row.value.expiresAt > now, c.maxClaims,
        c.maxClaimsPerProfile);
    var keep := (row: Row<(Device, AttemptId), Attempt>) => row.value.expiresAt > now;
    KeepStaysWithin(s.attempts, keep, c.maxAttempts, c.maxAttemptsPerProfile);
    KeepStaysDistinct(s.attempts, keep);
    PurgeKeepsTombstones(s, now);
    PurgeKeepsDevices(s, now);
  }

  lemma PurgeKeepsTombstones(s: Store, now: nat)
    requires TombstonesOk(s.config, s.tombstones) && ConfigOk(s.config)
    ensures TombstonesOk(s.config, Purge(s, now).tombstones)
  {
    hide Within, Distinct;
    var buried := Bury(s.config, s.tombstones, s.contexts, now);
    BuryKeeps(s.config, s.tombstones, s.contexts, now);
    var keep := (row: Row<Fingerprint, Tombstone>) => row.value.until > now;
    KeepStaysWithin(buried, keep, s.config.maxTombstones, s.config.maxTombstonesPerProfile);
    KeepStaysDistinct(buried, keep);
  }

  lemma PurgeKeepsDevices(s: Store, now: nat)
    requires DevicesOk(s.config, s.devices)
    ensures DevicesOk(s.config, Purge(s, now).devices)
  {
    var keep := (row: Row<Device, DeviceState>) => row.value.expiresAt > now;
    KeepSelects(s.devices, keep);
    KeepStaysDistinct(s.devices, keep);
  }

  lemma PurgeKeeps(s: Store, now: nat)
    requires Coherent(s) && ConfigOk(s.config) && s.lastNow <= now
    ensures Coherent(Purge(s, now))
  {
    hide Current, ContextsOk, ClaimsOk, Bounded;
    PurgeKeepsContextsAndClaims(s, now);
    PurgeKeepsCurrent(s, now);
    PurgeKeepsBounds(s, now);
  }

  // ---------------------------------------------------------------- record

  /** Storing a context under its id: a new one apart from the others, or a refreshed one. */
  lemma PutContextKeeps(contexts: Table<nat, Stored>, row: Row<nat, Stored>, horizon: nat)
    requires ContextsOk(contexts, horizon) && ContextOk(row, horizon)
    requires forall c :: c in contexts && c.profile == row.profile && c.key != row.key ==>
      !Shares(row.value.context.fingerprints, c.value.context.fingerprints)
    requires forall c :: c in contexts && c.key == row.key ==> c.profile == row.profile
    ensures ContextsOk(Put(contexts, row.profile, row.key, row.value), horizon)
  {
    PutStaysDistinct(contexts, row.profile, row.key, row.value);
    var contexts' := Put(contexts, row.profile, row.key, row.value);
    forall a, b | a in contexts' && b in contexts' && a != b ensures Apart(a, b) {
      if a in contexts && b in contexts && a != row && b != row {
        assert Apart(a, b);
      } else {
        var other := if a == row then b else a;
        assert other in contexts && !Is(other, row.profile, row.key);
        assert Shares(other.value.context.fingerprints, row.value.context.fingerprints)
            <==> Shares(row.value.context.fingerprints, other.value.context.fingerprints);
      }
    }
  }

  /** Claims stay backed when contexts are added or refreshed to a later expiry. */
  lemma PutContextBacks(contexts: Table<nat, Stored>, row: Row<nat, Stored>, claim: Row<Device, Claim>)
    requires Distinct(contexts) && Backed(contexts, claim)
    requires forall c :: c in contexts && Is(c, row.profile, row.key) ==>
      c.value.context.expiresAt <= row.value.context.expiresAt
    ensures Backed(Put(contexts, row.profile, row.key, row.value), claim)
  {
    if claim.value.response.Claimed? {
      var id := claim.value.contextId.value;
      var stored := Lookup(contexts, claim.profile, id).value;
      var contexts' := Put(contexts, row.profile, row.key, row.value);
      PutStaysDistinct(contexts, row.profile, row.key, row.value);
      assert Row(claim.profile, id, stored) in contexts;
      if Is(row, claim.profile, id) {
        LookupFinds(contexts', claim.profile, id, row.value);
      } else {
        LookupFinds(contexts', claim.profile, id, stored);
      }
    }
  }

  lemma ClaimsStayBacked(contexts: Table<nat, Stored>, contexts': Table<nat, Stored>, claims: Table<Device, Claim>)
    requires ClaimsOk(contexts, claims) && forall row :: row in claims ==> Backed(contexts', row)
    ensures ClaimsOk(contexts', claims)
  {
  }

  /** An admitted record refreshes the row of its equivalent, or takes an id and fingerprints nobody has. */
  lemma AdmittedRow(s: Store, profile: Profile, input: RecordInput, generation: Generation, horizon: nat)
    requires ContextsOk(s.contexts, horizon) && AdmitRecord(s, profile, input, generation).Ok?
    ensures
      var previous := AdmitRecord(s, profile, input, generation).value;
      var id := if previous.Some? then previous.value.context.contextId else input.newId;
      && (previous.Some? ==> Row(profile, id, previous.value) in s.contexts)
      && (previous.None? <==> Lookup(s.contexts, profile, id).None?)
      && (forall c :: c in s.contexts && c.key == id ==> c.profile == profile)
      && (forall c :: c in s.contexts && c.profile == profile && c.key != id ==>
            !Shares(input.fingerprints, c.value.context.fingerprints))
  {
    var previous := FindEquivalent(s.contexts, profile, input.contentKey, input.fingerprints);
    if previous.Some? {
      var row :| row in s.contexts && row.profile == profile && row.value == previous.value;
      assert ContextOk(row, horizon);
      LookupFinds(s.contexts, profile, row.key, row.value);
      forall c | c in s.contexts && c.key != row.key && c.profile == profile
        ensures !Shares(input.fingerprints, c.value.context.fingerprints)
      {
        assert Apart(row, c);
        assert multiset(row.value.context.fingerprints) == multiset(input.fingerprints);
        assert forall f :: f in input.fingerprints ==> f in multiset(input.fingerprints);
        assert forall f :: f in multiset(row.value.context.fingerprints) ==> f in row.value.context.fingerprints;
      }
      forall c | c in s.contexts && c.key == row.key ensures c.profile == profile {
        assert c != row ==> Apart(row, c);
      }
    }
  }

  /** Assembling keeps the scope of the record and its own fingerprints. */
  lemma AssembledContext(profile: Profile, input: RecordInput, previous: Option<StoredContext>, now: nat, ttl: nat)
    requires Assemble(profile, input, previous, now, ttl).Ok?
    requires previous.Some? ==> previous.value.profile == profile
    ensures
      var context := Assemble(profile, input, previous, now, ttl).value;
      && context.profile == profile && context.fingerprints == input.fingerprints && context.expiresAt == now + ttl
      && context.contextId == (if previous.Some? then previous.value.contextId else input.newId)
      && context.contentKey == input.contentKey
  {
  }

  lemma StoreRecordKeeps(s: Store, profile: Profile, input: RecordInput, generation: Generation, stored: Stored)
    requires Coherent(s) && RecordAccepted(input) && AdmitRecord(s, profile, input, generation).Ok?
    requires stored.generation == generation && generation.Stable?
    requires
      var previous := AdmitRecord(s, profile, input, generation).value;
      Assemble(profile, input, if previous.Some? then Some(previous.value.context) else None, s.lastNow, s.config.ttl)
      == Ok(stored.context)
    ensures Coherent(s.(contexts := Put(s.contexts, profile, stored.context.contextId, stored)))
  {
    hide ContextsOk, ClaimsOk, Bounded, Assemble, AdmitRecord;
    var previous := AdmitRecord(s, profile, input, generation).value;
    var id := stored.context.contextId;
    var row, horizon := Row(profile, id, stored), s.lastNow + s.config.ttl;
    AdmittedRow(s, profile, input, generation, horizon);
    if previous.Some? {
      RowIsOk(s.contexts, Row(profile, previous.value.context.contextId, previous.value), horizon);
    }
    AssembledContext(profile, input, if previous.Some? then Some(previous.value.context) else None, s.lastNow,
        s.config.ttl);
    PutContextKeeps(s.contexts, row, horizon);
    ContextsAreDistinct(s.contexts, horizon);
    RecordBacks(s, row);
    RecordStaysBounded(s, row, input, generation);
    RecordStaysCurrent(s, row, input, generation);
  }

  lemma RowIsOk(contexts: Table<nat, Stored>, row: Row<nat, Stored>, horizon: nat)
    requires ContextsOk(contexts, horizon) && row in contexts
    ensures ContextOk(row, horizon)
  {
  }

  lemma ContextsAreDistinct(contexts: Table<nat, Stored>, horizon: nat)
    requires ContextsOk(contexts, horizon)
    ensures Distinct(contexts)
  {
  }

  lemma RecordBacks(s: Store, row: Row<nat, Stored>)
    requires ContextsOk(s.contexts, s.lastNow + s.config.ttl) && ClaimsOk(s.contexts, s.claims)
    requires row.value.context.expiresAt == s.lastNow + s.config.ttl
    ensures ClaimsOk(Put(s.contexts, row.profile, row.key, row.value), s.claims)
  {
    hide Backed, SessionsApart, Apart;
    forall claim | claim in s.claims ensures Backed(Put(s.contexts, row.profile, row.key, row.value), claim) {
      PutContextBacks(s.contexts, row, claim);
    }
    ClaimsStayBacked(s.contexts, Put(s.contexts, row.profile, row.key, row.value), s.claims);
  }

  lemma RecordStaysBounded(s: Store, row: Row<nat, Stored>, input: RecordInput, generation: Generation)
    requires Bounded(s) && Distinct(s.contexts) && AdmitRecord(s, row.profile, input, generation).Ok?
    requires Lookup(s.contexts, row.profile, row.key).None? ==>
      AdmitRecord(s, row.profile, input, generation).value.None?
    ensures Bounded(s.(contexts := Put(s.contexts, row.profile, row.key, row.value)))
  {
    hide Distinct, TombstonesOk, DevicesOk, FindEquivalent, Overlaps, IdInUse;
    PutSize(s.contexts, row.profile, row.key, row.value);
  }

  lemma RecordStaysCurrent(s: Store, row: Row<nat, Stored>, input: RecordInput, generation: Generation)
    requires Current(s) && Distinct(s.contexts) && AdmitRecord(s, row.profile, input, generation).Ok?
    requires row.value.generation == generation && generation.Stable?
    ensures Current(s.(contexts := Put(s.contexts, row.profile, row.key, row.value)))
  {
    hide Distinct, FindEquivalent, Overlaps, IdInUse;
    PutStaysDistinct(s.contexts, row.profile, row.key, row.value);
    assert generation == GenerationOf(s, row.profile);
  }

  lemma RecordKeeps(s: Store, profile: Profile, input: RecordInput, clock: nat)
    requires Coherent(s) && ConfigOk(s.config)
    ensures Coherent(Record(s, profile, input, clock).0)
  {
    hide Coherent, Purge, AdmitRecord, Assemble, ConfigOk;
    var generation := if input.generation.Some? then input.generation.value else GenerationOf(s, profile);
    if !generation.Pending? && RecordAccepted(input) {
      var now := ReadNow(s, clock);
      var s1 := Purge(s, now);
      PurgeKeeps(s, now);
      PurgedConfig(s, now);
      var admitted := AdmitRecord(s1, profile, input, generation);
      if admitted.Ok? {
        var previous := admitted.value;
        var context := Assemble(profile, input,
            if previous.Some? then Some(previous.value.context) else None, now, s.config.ttl);
        var revision := NextRevision(previous);
        if context.Ok? && revision.Ok? {
          StoreRecordKeeps(s1, profile, input, generation,
                           Stored(generation, revision.value, input.providerRevision, context.value));
        }
      }
    }
  }

  lemma PurgedConfig(s: Store, now: nat)
    ensures Purge(s, now).config == s.config && Purge(s, now).lastNow == now
        && Purge(s, now).authorities == s.authorities
  {
  }

  // ---------------------------------------------------------------- claim

  lemma SetDeviceCoherent(s: Store, profile: Profile, device: Device, generation: nat, now: nat)
    requires Coherent(s) && ConfigOk(s.config)
    ensures Coherent(SetDevice(s, profile, device, generation, now))
  {
    hide ContextsOk, ClaimsOk, Within, Distinct, TombstonesOk, DevicesOk;
    SetDeviceKeeps(s, profile, device, generation, now);
  }

  lemma StoreAttemptCoherent(s: Store, profile: Profile, device: Device, attempt: Attempt)
    requires Coherent(s) && InGeneration(s, profile, attempt.binding.generation)
    requires StoreAttempt(s, profile, device, attempt).Ok?
    ensures Coherent(StoreAttempt(s, profile, device, attempt).value)
  {
    hide ContextsOk, ClaimsOk, Distinct, TombstonesOk, DevicesOk;
    var key := (device, attempt.binding.attempt);
    PutStaysDistinct(s.attempts, profile, key, attempt);
    PutSize(s.attempts, profile, key, attempt);
  }

  /** The answer to a fresh claim is backed by the one context it matched. */
  lemma AnswerIsBacked(s: Store, profile: Profile, input: ClaimInput, now: nat, horizon: nat)
    requires ContextsOk(s.contexts, horizon) && Answer(s, profile, input, now).0.Claimed?
    ensures
      var (response, expiresAt) := Answer(s, profile, input, now);
      var stored := Lookup(s.contexts, profile, response.context.contextId);
      && stored.Some? && stored.value.context == response.context && expiresAt == response.context.expiresAt
      && response.session == input.session
  {
    var matches := Matching(s, profile, input.fingerprints, input.launchedAt);
    KeepSelects(s.contexts, (row: Row<nat, Stored>) => Matches(s, row, profile, input.fingerprints, input.launchedAt));
    assert matches[0] in matches;
    var row := matches[0];
    assert ContextOk(row, horizon);
    LookupFinds(s.contexts, profile, row.key, row.value);
  }

  lemma PutClaimKeeps(contexts: Table<nat, Stored>, claims: Table<Device, Claim>, row: Row<Device, Claim>)
    requires ClaimsOk(contexts, claims) && Backed(contexts, row)
    requires row.value.response.Claimed? ==> !HasActiveSession(claims, row.value.response.session)
    ensures ClaimsOk(contexts, Put(claims, row.profile, row.key, row.value))
  {
    hide Backed;
    PutStaysDistinct(claims, row.profile, row.key, row.value);
  }

  lemma PutClaimCoherent(s: Store, profile: Profile, device: Device, claim: Claim)
    requires Coherent(s) && InGeneration(s, profile, claim.binding.generation)
    requires Backed(s.contexts, Row(profile, device, claim))
    requires claim.response.Claimed? ==> !HasActiveSession(s.claims, claim.response.session)
    requires
      || Lookup(s.claims, profile, device).Some?
      || (|s.claims| < s.config.maxClaims && CountFor(s.claims, profile) < s.config.maxClaimsPerProfile)
    ensures Coherent(s.(claims := Put(s.claims, profile, device, claim)))
  {
    hide ContextsOk, Backed, SessionsApart, Distinct, TombstonesOk, DevicesOk;
    PutClaimKeeps(s.contexts, s.claims, Row(profile, device, claim));
    PutStaysDistinct(s.claims, profile, device, claim);
    PutSize(s.claims, profile, device, claim);
  }

  lemma ClaimFreshKeeps(s: Store, profile: Profile, device: Device, input: ClaimInput, binding: Binding, now: nat)
    requires Coherent(s) && InGeneration(s, profile, binding.generation) && binding.session == input.session
    requires binding.attempt == input.attempt
    ensures Coherent(ClaimFresh(s, profile, device, input, binding, now).0)
  {
    hide Coherent, Answer, AttemptFits, StoreAttempt, HasActiveSession, InGeneration, Backed;
    var previous := Lookup(s.claims, profile, device);
    var late := Attempt(binding, now + s.config.ttl, NotFound(input.session));
    if StoreAttempt(s, profile, device, late).Ok? {
      StoreAttemptCoherent(s, profile, device, late);
    }
    var (response, expiresAt) := Answer(s, profile, input, now);
    var claim := MakeClaim(binding, previous, response, expiresAt, now);
    var s1 := s.(claims := Put(s.claims, profile, device, claim));
    var room := previous.Some?
        || (|s.claims| < s.config.maxClaims && CountFor(s.claims, profile) < s.config.maxClaimsPerProfile);
    if room && !(response.Claimed? && HasActiveSession(s.claims, input.session)) {
      NewClaimIsBacked(s, profile, device, input, binding, now);
      PutClaimCoherent(s, profile, device, claim);
      SameGeneration(s, s1, profile, binding.generation);
      var attempt := Attempt(binding, expiresAt, response);
      if StoreAttempt(s1, profile, device, attempt).Ok? {
        StoreAttemptCoherent(s1, profile, device, attempt);
      }
    }
  }

  lemma SameGeneration(s: Store, s': Store, profile: Profile, generation: Generation)
    requires s'.authorities == s.authorities && InGeneration(s, profile, generation)
    ensures InGeneration(s', profile, generation)
  {
  }

  lemma NewClaimIsBacked(s: Store, profile: Profile, device: Device, input: ClaimInput, binding: Binding, now: nat)
    requires Coherent(s) && binding.session == input.session
    ensures
      var (response, expiresAt) := Answer(s, profile, input, now);
      var claim := MakeClaim(binding, Lookup(s.claims, profile, device), response, expiresAt, now);
      && Backed(s.contexts, Row(profile, device, claim))
      && (claim.response.Claimed? ==> claim.response.session == input.session)
  {
    hide Answer, Current, ClaimsOk, Bounded, ContextsOk;
    if Answer(s, profile, input, now).0.Claimed? {
      AnswerIsBacked(s, profile, input, now, s.lastNow + s.config.ttl);
    }
  }

  lemma ClaimKeeps(s: Store, profile: Profile, device: Device, input: ClaimInput, clock: nat)
    requires Coherent(s) && ConfigOk(s.config)
    ensures Coherent(ClaimCall(s, profile, device, input, clock).0)
  {
    hide Coherent, ConfigOk, Purge, SetDevice, ClaimFresh, Replay;
    if ClaimAccepted(input) {
      var now := ReadNow(s, clock);
      var s1 := Purge(s, now);
      PurgeKeeps(s, now);
      PurgedConfig(s, now);
      SetDeviceCoherent(s1, profile, device, input.deviceGeneration, now);
      SetDeviceFrame(s1, profile, device, input.deviceGeneration, now);
      var s2 := SetDevice(s1, profile, device, input.deviceGeneration, now);
      var binding := BindingOf(s1, profile, input);
      if GenerationOf(s1, profile).Stable? && binding.generation == GenerationOf(s1, profile) {
        ClaimFreshKeeps(s2, profile, device, input, binding, now);
      }
    }
  }

  lemma SetDeviceFrame(s: Store, profile: Profile, device: Device, generation: nat, now: nat)
    ensures SetDevice(s, profile, device, generation, now)
        == s.(devices := SetDevice(s, profile, device, generation, now).devices)
  {
  }

  // ---------------------------------------------------------------- release, invalidate, begin

  lemma {:induction false} ReplacedRows(t: Table<Device, Claim>, profile: Profile, device: Device, value: Claim)
    requires Distinct(t) && Lookup(t, profile, device).Some?
    ensures Distinct(Replaced(t, profile, device, value)) && |Replaced(t, profile, device, value)| == |t|
    ensures forall p: Profile :: CountFor(Replaced(t, profile, device, value), p) == CountFor(t, p)
    ensures forall row :: row in Replaced(t, profile, device, value)
              <==> row == Row(profile, device, value) || (row in t && !Is(row, profile, device))
  {
    assert t == [t[0]] + t[1..];
    HeadIsAlone(t);
    if Is(t[0], profile, device) {
      HeadStaysAlone(Row(profile, device, value), t[1..]);
    } else {
      ReplacedRows(t[1..], profile, device, value);
      HeadStaysAlone(t[0], Replaced(t[1..], profile, device, value));
    }
  }

  lemma ReleaseKeeps(s: Store, profile: Profile, device: Device, session: Session, clock: nat)
    requires Coherent(s) && ConfigOk(s.config)
    ensures Coherent(ReleaseClaim(s, profile, device, session, clock).0)
  {
    hide Coherent, ConfigOk, Purge, Replaced;
    var now := ReadNow(s, clock);
    var s1 := Purge(s, now);
    PurgeKeeps(s, now);
    var found := Lookup(s1.claims, profile, device);
    if found.Some? && found.value.releasedAt.None? {
      ReleasedCoherent(s1, profile, device, found.value.(releasedAt := Some(now)));
    }
  }

  lemma ReleasedCoherent(s: Store, profile: Profile, device: Device, released: Claim)
    requires Coherent(s) && Lookup(s.claims, profile, device).Some?
    requires released == Lookup(s.claims, profile, device).value.(releasedAt := released.releasedAt)
    ensures Coherent(s.(claims := Replaced(s.claims, profile, device, released)))
  {
    hide ContextsOk, Distinct, TombstonesOk, DevicesOk, Replaced;
    var claim := Lookup(s.claims, profile, device).value;
    assert Row(profile, device, claim) in s.claims;
    ReplacedRows(s.claims, profile, device, released);
  }

  lemma InvalidateDeviceKeeps(s: Store, profile: Profile, device: Device, generation: nat, clock: nat)
    requires Coherent(s) && ConfigOk(s.config)
    ensures Coherent(InvalidateDevice(s, profile, device, generation, clock).0)
  {
    hide Coherent, ConfigOk, Purge, SetDevice, OfDevice;
    if generation >= 1 {
      var now := ReadNow(s, clock);
      var s1 := Purge(s, now);
      PurgeKeeps(s, now);
      PurgedConfig(s, now);
      SetDeviceCoherent(s1, profile, device, generation, now);
      var s2 := SetDevice(s1, profile, device, generation, now);
      DropsCoherent(s2, (row: Row<Device, Claim>) => !Is(row, profile, device),
                    (row: Row<(Device, AttemptId), Attempt>) => !OfDevice(row, profile, device));
    }
  }

  lemma DropsCoherent(s: Store, keepClaim: Row<Device, Claim> -> bool,
      keepAttempt: Row<(Device, AttemptId), Attempt> -> bool)
    requires Coherent(s)
    ensures Coherent(s.(claims := Keep(s.claims, keepClaim), attempts := Keep(s.attempts, keepAttempt)))
  {
    hide ContextsOk, Backed, SessionsApart, Distinct, TombstonesOk, DevicesOk;
    ClaimsSubset(s.contexts, s.contexts, s.claims, keepClaim);
    KeepStaysDistinct(s.attempts, keepAttempt);
    KeepSelects(s.claims, keepClaim);
    KeepSelects(s.attempts, keepAttempt);
  }

  /** Forgetting a profile leaves the other profiles as coherent as they were, whatever its generation becomes. */
  lemma ClearKeeps(s: Store, profile: Profile, authority: Authority, now: nat)
    requires Coherent(s) && s.lastNow <= now
    ensures Coherent(ClearProfile(s.(authorities := s.authorities[profile := authority], lastNow := now), profile))
  {
    hide Current, ContextsOk, ClaimsOk, Bounded, ClearProfile;
    var s1 := s.(authorities := s.authorities[profile := authority], lastNow := now);
    ClearKeepsClaims(s1, profile, s.lastNow, now);
    BoundsIgnoreAuthorities(s, s1);
    ClearKeepsBounds(s1, profile);
    ClearKeepsCurrent(s, s1, profile);
    ClearFrame(s1, profile);
  }

  lemma ClearFrame(s: Store, profile: Profile)
    ensures
      var s' := ClearProfile(s, profile);
      s'.config == s.config && s'.lastNow == s.lastNow && s'.authorities == s.authorities
  {
  }

  lemma BoundsIgnoreAuthorities(s: Store, s': Store)
    requires Bounded(s)
    requires s' == s.(authorities := s'.authorities, lastNow := s'.lastNow)
    ensures Bounded(s')
  {
  }

  lemma ClearKeepsCurrent(s: Store, s1: Store, profile: Profile)
    requires Current(s) && s1 == s.(authorities := s1.authorities, lastNow := s1.lastNow)
    requires forall p: Profile :: p != profile ==> GenerationOf(s1, p) == GenerationOf(s, p)
    ensures Current(ClearProfile(s1, profile))
  {
    KeepSelects(s.contexts, (row: Row<nat, Stored>) => row.profile != profile);
    KeepSelects(s.claims, (row: Row<Device, Claim>) => row.profile != profile);
    KeepSelects(s.attempts, (row: Row<(Device, AttemptId), Attempt>) => row.profile != profile);
  }

  lemma ClearKeepsClaims(s: Store, profile: Profile, before: nat, now: nat)
    requires ContextsOk(s.contexts, before + s.config.ttl) && ClaimsOk(s.contexts, s.claims) && before <= now
    ensures ContextsOk(ClearProfile(s, profile).contexts, now + s.config.ttl)
    ensures ClaimsOk(ClearProfile(s, profile).contexts, ClearProfile(s, profile).claims)
  {
    hide Backed, SessionsApart, Apart, ContextOk;
    var keepContext := (row: Row<nat, Stored>) => row.profile != profile;
    var keepClaim := (row: Row<Device, Claim>) => row.profile != profile;
    ContextsSubset(s.contexts, keepContext, before + s.config.ttl, now + s.config.ttl);
    forall row | row in s.claims && keepClaim(row) ensures Backed(Keep(s.contexts, keepContext), row) {
      BackedByKept(s.contexts, keepContext, row);
    }
    ClaimsSubset(s.contexts, Keep(s.contexts, keepContext), s.claims, keepClaim);
  }

  lemma ClearKeepsBounds(s: Store, profile: Profile)
    requires Bounded(s)
    ensures Bounded(ClearProfile(s, profile))
  {
    hide Within, Distinct;
    var c := s.config;
    KeepStaysWithin(s.contexts, (row: Row<nat, Stored>) => row.profile != profile, c.maxContexts,
        c.maxContextsPerProfile);
    KeepStaysWithin(s.claims, (row: Row<Device, Claim>) => row.profile != profile, c.maxClaims, c.maxClaimsPerProfile);
    var keep := (row: Row<(Device, AttemptId), Attempt>) => row.profile != profile;
    KeepStaysWithin(s.attempts, keep, c.maxAttempts, c.maxAttemptsPerProfile);
    KeepStaysDistinct(s.attempts, keep);
    var keepTombstone := (row: Row<Fingerprint, Tombstone>) => row.profile != profile;
    KeepStaysWithin(s.tombstones, keepTombstone, c.maxTombstones, c.maxTombstonesPerProfile);
    KeepStaysDistinct(s.tombstones, keepTombstone);
    var keepDevice := (row: Row<Device, DeviceState>) => row.profile != profile;
    KeepSelects(s.devices, keepDevice);
    KeepStaysDistinct(s.devices, keepDevice);
  }

  /** A call that keeps a stable generation, or works on a pending one, disturbs nothing: a profile
      with a pending generation has nothing to disturb. */
  lemma AuthorityMovesKeep(s: Store, profile: Profile, authority: Authority, now: nat)
    requires Coherent(s) && s.lastNow <= now
    requires GenerationOf(s, profile).Stable? ==> authority.generation == GenerationOf(s, profile)
    ensures Coherent(s.(authorities := s.authorities[profile := authority], lastNow := now))
  {
    hide ClaimsOk, Within, Distinct, TombstonesOk, DevicesOk, Apart;
  }

  lemma StableGenerationsStay(a: Authority, call: MutationCall, now: nat, leaseMs: nat, minted: nat)
    requires a.generation.Stable?
    ensures Mutate(a, call, now, leaseMs, minted).generation == a.generation
  {
  }

  lemma ApplyKeeps(s: Store, op: Op)
    requires Coherent(s) && ConfigOk(s.config)
    ensures Coherent(Apply(s, op)) && Apply(s, op).config == s.config
  {
    hide Coherent, ConfigOk, Record, ClaimCall, GetActive, ReleaseClaim, InvalidateDevice, Purge, ClearProfile, Mutate;
    ApplyKeepsConfig(s, op);
    match op
    case DoRecord(profile, input, clock) => RecordKeeps(s, profile, input, clock);
    case DoClaim(profile, device, request, clock) => ClaimKeeps(s, profile, device, request, clock);
    case DoGetActive(profile, device, session, clock) => GetActiveOnlyPurges(s, profile, device, session, clock);
      PurgeKeeps(s, ReadNow(s, clock));
    case DoRelease(profile, device, session, clock) => ReleaseKeeps(s, profile, device, session, clock);
    case DoInvalidateDevice(profile, device, generation, clock) =>
      InvalidateDeviceKeeps(s, profile, device, generation, clock);
    case DoInvalidateProfile(profile, clock, minted, next) =>
      var now, a := ReadNow(s, clock), AuthorityOf(s, profile);
      var (authority, result) := Invalidate(a, now, minted, next);
      var read := if StateReadsClock(a) then now else s.lastNow;
      if result.Err? {
        AuthorityMovesKeep(s, profile, authority, read);
      } else {
        ClearKeeps(s, profile, authority, read);
      }
    case DoBegin(profile, clock, seed, minted) =>
      var now, a := ReadNow(s, clock), AuthorityOf(s, profile);
      var (authority, result) := Begin(a, now, s.config.leaseMs, seed, minted);
      var read := if StateReadsClock(a) || result.Ok? then now else s.lastNow;
      if result.Err? {
        AuthorityMovesKeep(s, profile, authority, read);
      } else {
        ClearKeeps(s, profile, authority, read);
      }
    case DoMutation(profile, call, clock, minted) =>
      var now, a := ReadNow(s, clock), AuthorityOf(s, profile);
      if a.generation.Stable? {
        StableGenerationsStay(a, call, now, s.config.leaseMs, minted);
      }
      AuthorityMovesKeep(s, profile, Mutate(a, call, now, s.config.leaseMs, minted),
                         if CallReadsClock(a, call) then now else s.lastNow);
    case DoPrune(clock) => PurgeKeeps(s, ReadNow(s, clock));
  }

  lemma GetActiveOnlyPurges(s: Store, profile: Profile, device: Device, session: Session, clock: nat)
    ensures GetActive(s, profile, device, session, clock).0 == Purge(s, ReadNow(s, clock))
  {
    hide Purge, Lookup;
  }

  lemma ApplyKeepsConfig(s: Store, op: Op)
    ensures Apply(s, op).config == s.config
  {
    hide Keep, Bury, Answer, Matching, FindEquivalent, Assemble, Lookup, Remove, Replaced;
  }

  /** Every reachable state is coherent. */
  lemma {:induction false} RunIsCoherent(config: Config, ops: seq<Op>)
    requires ConfigOk(config)
    ensures Coherent(Run(Initial(config), ops)) && Run(Initial(config), ops).config == config
    decreases |ops|
  {
    hide Apply;
    if |ops| > 0 {
      RunIsCoherent(config, ops[..|ops| - 1]);
      ApplyKeeps(Run(Initial(config), ops[..|ops| - 1]), ops[|ops| - 1]);
    }
  }
}
