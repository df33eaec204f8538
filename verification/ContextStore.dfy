// The store of playback contexts, claims, claim attempts, tombstones and device generations: every
// method of SourceContextStore as a transition on values. Each call reads the clock once; times are
// milliseconds. A call that throws still keeps what it had changed by then.
module ContextStore {
  import opened Outcomes
  import opened Sequences
  import opened OrderedTables
  import opened Revisions
  import opened SnapshotAuthority
  import opened ContextMerge

  type Device = nat
  type Session = nat
  type Fingerprint = nat
  type AttemptId = nat

  datatype Config = Config(
    ttl: nat,
    tombstoneTtl: nat,
    maxContexts: nat,
    maxContextsPerProfile: nat,
    maxClaims: nat,
    maxClaimsPerProfile: nat,
    maxAttempts: nat,
    maxAttemptsPerProfile: nat,
    maxTombstones: nat,
    maxTombstonesPerProfile: nat,
    maxLaunchAge: nat,
    maxFutureSkew: nat,
    maxContextAfterLaunch: nat,
    leaseMs: nat,
    deviceTtl: nat,
    maxDevicesPerProfile: nat)

  datatype Stored = Stored(generation: Generation, revision: Revision, providerRevision: Revision,
      context: StoredContext)

  /** What a claim attempt is bound to: a replay must repeat all of it. */
  datatype Binding = Binding(
    attempt: AttemptId,
    fingerprints: seq<Fingerprint>,
    intentUrlHash: nat,
    launchedAt: nat,
    requestDigest: nat,
    session: Session,
    generation: Generation,
    deviceGeneration: nat)

  datatype Response =
    | Claimed(session: Session, context: StoredContext, claimedAt: nat, expiresAt: nat)
    | Ambiguous(session: Session)
    | Expired(session: Session)
    | NotFound(session: Session)

  datatype Claim = Claim(
    binding: Binding,
    contextId: Option<nat>,
    claimedAt: Option<nat>,
    releasedAt: Option<nat>,
    expiresAt: nat,
    superseded: Option<Session>,
    response: Response)

  datatype Attempt = Attempt(binding: Binding, expiresAt: nat, response: Response)

  datatype Tombstone = Tombstone(until: nat)

  datatype DeviceState = DeviceState(generation: nat, expiresAt: nat)

  datatype Store = Store(
    config: Config,
    authorities: map<Profile, Authority>,
    contexts: Table<nat, Stored>,
    claims: Table<Device, Claim>,
    attempts: Table<(Device, AttemptId), Attempt>,
    tombstones: Table<Fingerprint, Tombstone>,
    devices: Table<Device, DeviceState>,
    lastNow: nat)

  datatype StoreError =
    | Malformed
    | SnapshotBusy
    | GenerationChanged
    | ContextOverlap
    | ContextCapacity
    | ProviderRevisionChanged
    | DuplicateContextId
    | MergeRefused
    | RevisionExhausted
    | RequestConflict
    | LaunchedTooLate
    | LaunchedTooEarly
    | DeviceGenerationChanged
    | AttemptCapacity(afterStoring: bool)
    | ClaimCapacity
    | SessionInUse

  function Initial(config: Config): Store {
    Store(config, map[], [], [], [], [], [], 0)
  }

  // ---------------------------------------------------------------- clock and authority

  /** _readNow: the clock never goes back. */
  function ReadNow(s: Store, clock: nat): nat {
    Max(clock, s.lastNow)
  }

  function AuthorityOf(s: Store, profile: Profile): Authority {
    if profile in s.authorities then s.authorities[profile] else InitialAuthority
  }

  function GenerationOf(s: Store, profile: Profile): Generation {
    AuthorityOf(s, profile).generation
  }

  // ---------------------------------------------------------------- tombstones

  function TrimTombstones(config: Config, t: Table<Fingerprint, Tombstone>, profile: Profile)
    : Table<Fingerprint, Tombstone>
    decreases CountFor(t, profile)
  {
    if CountFor(t, profile) <= config.maxTombstonesPerProfile then t
    else
      DropOldestSize(t, profile, profile);
      TrimTombstones(config, DropOldest(t, profile), profile)
  }

  /** _addTombstone. */
  function AddTombstone(config: Config, t: Table<Fingerprint, Tombstone>, profile: Profile, fingerprint: Fingerprint,
      until: nat):
      Table<Fingerprint, Tombstone> {
    var existing := Lookup(t, profile, fingerprint);
    if existing.Some? && existing.value.until >= until then t
    else if existing.None? && |t| >= config.maxTombstones && CountFor(t, profile) < config.maxTombstonesPerProfile
    then t
    else TrimTombstones(config, Put(t, profile, fingerprint, Tombstone(until)), profile)
  }

  function AddTombstones(
    config: Config, t: Table<Fingerprint, Tombstone>, profile: Profile, fingerprints: seq<Fingerprint>, until: nat):
      Table<Fingerprint, Tombstone>
    decreases |fingerprints|
  {
    if |fingerprints| == 0 then t
    else
      AddTombstones(config, AddTombstone(config, t, profile, fingerprints[0], until), profile, fingerprints[1..], until)
  }

  /** The tombstones left by the contexts that have expired, in the order of the contexts. */
  function Bury(config: Config, t: Table<Fingerprint, Tombstone>, contexts: Table<nat, Stored>,
      now: nat): Table<Fingerprint, Tombstone>
    decreases |contexts|
  {
    if |contexts| == 0 then t
    else
      var context := contexts[0].value.context;
      var until := context.expiresAt + config.tombstoneTtl;
      var t' := if context.expiresAt > now || until <= now then t
                else AddTombstones(config, t, contexts[0].profile, context.fingerprints, until);
      Bury(config, t', contexts[1..], now)
  }

  // ---------------------------------------------------------------- purge

  predicate ContextLives(row: Row<nat, Stored>, now: nat) {
    row.value.context.expiresAt > now
  }

  function Purge(s: Store, now: nat): Store {
    s.(contexts := Keep(s.contexts, (row: Row<nat, Stored>) => ContextLives(row, now)),
       tombstones := Keep(Bury(s.config, s.tombstones, s.contexts, now),
         (row: Row<Fingerprint, Tombstone>) => row.value.until > now),
       claims := Keep(s.claims, (row: Row<Device, Claim>) => row.value.expiresAt > now),
       attempts := Keep(s.attempts, (row: Row<(Device, AttemptId), Attempt>) => row.value.expiresAt > now),
       devices := Keep(s.devices, (row: Row<Device, DeviceState>) => row.value.expiresAt > now),
       lastNow := now)
  }

  /** _clearProfileState. */
  function ClearProfile(s: Store, profile: Profile): Store {
    s.(contexts := DropProfile(s.contexts, profile),
       claims := DropProfile(s.claims, profile),
       attempts := DropProfile(s.attempts, profile),
       tombstones := DropProfile(s.tombstones, profile),
       devices := DropProfile(s.devices, profile))
  }

  /** _setDeviceGeneration. */
  function SetDevice(s: Store, profile: Profile, device: Device, generation: nat, now: nat): Store {
    var room := if Lookup(s.devices, profile, device).None?
                   && CountFor(s.devices, profile) >= s.config.maxDevicesPerProfile
                then DropOldest(s.devices, profile) else s.devices;
    s.(devices := Put(room, profile, device, DeviceState(generation, now + s.config.deviceTtl)))
  }

  // ---------------------------------------------------------------- record

  datatype RecordInput = RecordInput(
    generation: Option<Generation>,
    providerRevision: Revision,
    contentKey: Option<nat>,
    canonicalIdentity: Option<nat>,
    traktEligible: bool,
    request: Provenance,
    display: nat,
    source: Provenance,
    fingerprints: seq<Fingerprint>,
    inlineSubtitles: seq<nat>,
    newId: nat)

  predicate RecordAccepted(input: RecordInput) {
    && |input.fingerprints| > 0 && NoRepeats(input.fingerprints)
    && (input.traktEligible ==> input.canonicalIdentity.Some?)
  }

  predicate Shares(fingerprints: seq<Fingerprint>, other: seq<Fingerprint>) {
    exists f :: f in fingerprints && f in other
  }

  /** The equivalence identity hashes the content key and the sorted fingerprints. */
  predicate Equivalent(context: StoredContext, contentKey: Option<nat>, fingerprints: seq<Fingerprint>) {
    contentKey.Some? && context.contentKey == contentKey && multiset(context.fingerprints) == multiset(fingerprints)
  }

  /** _findEquivalentContext. */
  function FindEquivalent(contexts: Table<nat, Stored>, profile: Profile, contentKey: Option<nat>,
      fingerprints: seq<Fingerprint>):
      (found: Option<Stored>)
    ensures found.Some? ==> exists row :: row in contexts && row.profile == profile && row.value == found.value
    ensures found.Some? ==> Equivalent(found.value.context, contentKey, fingerprints)
    ensures found.None? ==> forall row :: row in contexts && row.profile == profile ==>
              !Equivalent(row.value.context, contentKey, fingerprints)
  {
    if |contexts| == 0 then None
    else if contexts[0].profile == profile && Equivalent(contexts[0].value.context, contentKey, fingerprints) then
      assert contexts[0] in contexts;
      Some(contexts[0].value)
    else FindEquivalent(contexts[1..], profile, contentKey, fingerprints)
  }

  /** _findOverlappingContext. */
  predicate Overlaps(contexts: Table<nat, Stored>, profile: Profile, fingerprints: seq<Fingerprint>) {
    exists row :: row in contexts && row.profile == profile && Shares(fingerprints, row.value.context.fingerprints)
  }

  predicate IdInUse(contexts: Table<nat, Stored>, id: nat) {
    exists row :: row in contexts && row.key == id
  }

  /** The context a record would store: the input as it is, or merged into its predecessor. */
  function Assemble(profile: Profile, input: RecordInput, previous: Option<StoredContext>, now: nat, ttl: nat):
      Result<StoredContext, MergeError> {
    var sighted := StoredContext(
      input.newId, profile, input.contentKey, input.canonicalIdentity, input.traktEligible, input.request,
      input.display, input.source, input.fingerprints, input.inlineSubtitles, now, now + ttl);
    match previous
    case None => Ok(sighted)
    case Some(p) =>
      var request := MergeProvenance(p.request, input.request);
      var source := MergeProvenance(p.source, input.source);
      var subtitles := MergeUniqueArray(p.inlineSubtitles, input.inlineSubtitles);
      if request.Err? || source.Err? || subtitles.Err? then Err(TooManyEntries)
      else
        MergeStoredContext(p, sighted.(
          contextId := p.contextId, canonicalIdentity := p.canonicalIdentity, traktEligible := p.traktEligible,
          request := request.value, source := source.value, inlineSubtitles := subtitles.value,
          createdAt := p.createdAt))
  }

  /** The checks of record that read the store, in order; the equivalent context if there is one. */
  function AdmitRecord(s: Store, profile: Profile, input: RecordInput, generation: Generation):
      Result<Option<Stored>, StoreError> {
    var equivalent := FindEquivalent(s.contexts, profile, input.contentKey, input.fingerprints);
    if GenerationOf(s, profile).Pending? then Err(StoreError.SnapshotBusy)
    else if generation != GenerationOf(s, profile) then Err(GenerationChanged)
    else if equivalent.None? then
      if Overlaps(s.contexts, profile, input.fingerprints) then Err(ContextOverlap)
      else if |s.contexts| >= s.config.maxContexts
        || CountFor(s.contexts, profile) >= s.config.maxContextsPerProfile then
        Err(ContextCapacity)
      else if IdInUse(s.contexts, input.newId) then Err(DuplicateContextId)
      else Ok(None)
    else if Value(input.providerRevision) < Value(equivalent.value.providerRevision) then Err(ProviderRevisionChanged)
    else Ok(equivalent)
  }

  function NextRevision(previous: Option<Stored>): Result<Revision, ()> {
    if previous.Some? then Increment(previous.value.revision) else Ok("1")
  }

  /** record(profile, context, options). */
  function Record(s: Store, profile: Profile, input: RecordInput, clock: nat)
    : (Store, Result<StoredContext, StoreError>)
  {
    var generation := if input.generation.Some? then input.generation.value else GenerationOf(s, profile);
    if generation.Pending? then (s, Err(StoreError.SnapshotBusy))
    else if !RecordAccepted(input) then (s, Err(Malformed))
    else
      var now := ReadNow(s, clock);
      var s1 := Purge(s, now);
      var admitted := AdmitRecord(s1, profile, input, generation);
      if admitted.Err? then (s1, Err(admitted.error))
      else
        var previous := admitted.value;
        var context := Assemble(profile, input,
            if previous.Some? then Some(previous.value.context) else None, now, s.config.ttl);
        var revision := NextRevision(previous);
        if context.Err? then (s1, Err(MergeRefused))
        else if revision.Err? then (s1, Err(StoreError.RevisionExhausted))
        else
          var stored := Stored(generation, revision.value, input.providerRevision, context.value);
          (s1.(contexts := Put(s1.contexts, profile, context.value.contextId, stored)), Ok(context.value))
  }

  // ---------------------------------------------------------------- claim

  datatype ClaimInput = ClaimInput(
    attempt: AttemptId,
    fingerprints: seq<Fingerprint>,
    intentUrlHash: nat,
    launchedAt: nat,
    requestDigest: nat,
    session: Session,
    generation: Option<Generation>,
    deviceGeneration: nat)

  predicate ClaimAccepted(input: ClaimInput) {
    |input.fingerprints| > 0 && NoRepeats(input.fingerprints) && input.deviceGeneration >= 1
  }

  function BindingOf(s: Store, profile: Profile, input: ClaimInput): Binding {
    Binding(input.attempt, input.fingerprints, input.intentUrlHash, input.launchedAt, input.requestDigest,
            input.session, if input.generation.Some? then input.generation.value else GenerationOf(s, profile),
            input.deviceGeneration)
  }

  /** A context that a claim may match: current, created in the launch window, sharing a fingerprint. */
  predicate Matches(s: Store, row: Row<nat, Stored>, profile: Profile, fingerprints: seq<Fingerprint>,
      launchedAt: nat)
  {
    && row.profile == profile && row.value.generation == GenerationOf(s, profile)
    && row.value.context.createdAt <= launchedAt + s.config.maxContextAfterLaunch
    && launchedAt <= row.value.context.createdAt + s.config.maxLaunchAge
    && Shares(fingerprints, row.value.context.fingerprints)
  }

  function Matching(s: Store, profile: Profile, fingerprints: seq<Fingerprint>, launchedAt: nat): Table<nat, Stored> {
    Keep(s.contexts, (row: Row<nat, Stored>) => Matches(s, row, profile, fingerprints, launchedAt))
  }

  function LatestExpiry(rows: Table<nat, Stored>): nat {
    if |rows| == 0 then 0 else Max(rows[0].value.context.expiresAt, LatestExpiry(rows[1..]))
  }

  function UntilOf(t: Table<Fingerprint, Tombstone>, profile: Profile, fingerprint: Fingerprint): Option<nat> {
    var found := Lookup(t, profile, fingerprint);
    if found.Some? then Some(found.value.until) else None
  }

  function Later(a: Option<nat>, b: Option<nat>): Option<nat> {
    if a.None? then b else if b.None? || a.value > b.value then a else b
  }

  /** _findTombstoneExpiry. */
  function TombstoneExpiry(t: Table<Fingerprint, Tombstone>, profile: Profile,
      fingerprints: seq<Fingerprint>): Option<nat>
  {
    if |fingerprints| == 0 then None
    else
      Later(UntilOf(t, profile, fingerprints[0]), TombstoneExpiry(t, profile, fingerprints[1..]))
  }

  predicate HasActiveSession(claims: Table<Device, Claim>, session: Session) {
    exists row :: row in claims && row.value.response.Claimed? && row.value.response.session == session
  }

  predicate AttemptFits(s: Store, profile: Profile, key: (Device, AttemptId)) {
    || Lookup(s.attempts, profile, key).Some?
    || (|s.attempts| < s.config.maxAttempts && CountFor(s.attempts, profile) < s.config.maxAttemptsPerProfile)
  }

  /** _storeClaimAttempt, with its own capacity check. */
  function StoreAttempt(s: Store, profile: Profile, device: Device, attempt: Attempt): Result<Store, StoreError> {
    if !AttemptFits(s, profile, (device, attempt.binding.attempt)) then Err(AttemptCapacity(true))
    else Ok(s.(attempts := Put(s.attempts, profile, (device, attempt.binding.attempt), attempt)))
  }

  /** A replayed attempt: its first response, unless that was a claim no longer held. */
  function Replay(s: Store, profile: Profile, device: Device, prior: Attempt, session: Session): Response {
    if !prior.response.Claimed? then prior.response
    else if StillHeld(s, profile, device, prior.binding) then prior.response
    else NotFound(session)
  }

  /** The device's claim is the one made by this attempt, and has not been released. */
  predicate StillHeld(s: Store, profile: Profile, device: Device, binding: Binding) {
    var current := Lookup(s.claims, profile, device);
    && current.Some? && current.value.binding == binding && current.value.releasedAt.None?
    && current.value.response.Claimed? && current.value.response.session == binding.session
  }

  /** What a fresh claim is answered, and until when the answer is kept. */
  function Answer(s: Store, profile: Profile, input: ClaimInput, now: nat): (Response, nat) {
    var matches := Matching(s, profile, input.fingerprints, input.launchedAt);
    var buried := TombstoneExpiry(s.tombstones, profile, input.fingerprints);
    if |matches| == 1 then
      var context := matches[0].value.context;
      (Claimed(input.session, context, now, context.expiresAt), context.expiresAt)
    else if |matches| > 1 then (Ambiguous(input.session), LatestExpiry(matches))
    else if buried.Some? then (Expired(input.session), buried.value)
    else (NotFound(input.session), now + s.config.ttl)
  }

  /** The part of claim that answers a fresh attempt; `s` is purged and the device is known. */
  function ClaimFresh(s: Store, profile: Profile, device: Device, input: ClaimInput, binding: Binding, now: nat):
      (Store, Result<Response, StoreError>) {
    var previous := Lookup(s.claims, profile, device);
    if !AttemptFits(s, profile, (device, input.attempt)) then (s, Err(AttemptCapacity(false)))
    else if previous.Some? && input.launchedAt < previous.value.binding.launchedAt then
      match StoreAttempt(s, profile, device, Attempt(binding, now + s.config.ttl, NotFound(input.session)))
      case Err(e) => (s, Err(e))
      case Ok(s') => (s', Ok(NotFound(input.session)))
    else if previous.None?
            && (|s.claims| >= s.config.maxClaims || CountFor(s.claims, profile) >= s.config.maxClaimsPerProfile) then
      (s, Err(ClaimCapacity))
    else
      var (response, expiresAt) := Answer(s, profile, input, now);
      if response.Claimed? && HasActiveSession(s.claims, input.session) then (s, Err(SessionInUse))
      else
        var s1 := s.(claims := Put(s.claims, profile, device, MakeClaim(binding, previous, response, expiresAt, now)));
        match StoreAttempt(s1, profile, device, Attempt(binding, expiresAt, response))
        case Err(e) => (s1, Err(e))
        case Ok(s2) => (s2, Ok(response))
  }

  function MakeClaim(binding: Binding, previous: Option<Claim>, response: Response, expiresAt: nat, now: nat): Claim {
    var superseded :=
      if response.Claimed? && previous.Some? && previous.value.releasedAt.None? && previous.value.response.Claimed?
         && previous.value.response.session != response.session
      then Some(previous.value.response.session) else None;
    Claim(binding,
          if response.Claimed? then Some(response.context.contextId) else None,
          if response.Claimed? then Some(now) else None,
          None, expiresAt, superseded, response)
  }

  /** claim(profile, device, request, options). */
  function ClaimCall(s: Store, profile: Profile, device: Device, input: ClaimInput, clock: nat):
      (Store, Result<Response, StoreError>) {
    if !ClaimAccepted(input) then (s, Err(Malformed))
    else
      var now := ReadNow(s, clock);
      var s1 := Purge(s, now);
      var binding := BindingOf(s1, profile, input);
      var prior := Lookup(s1.attempts, profile, (device, input.attempt));
      var known := Lookup(s1.devices, profile, device);
      if prior.Some? && prior.value.binding != binding then (s1, Err(RequestConflict))
      else if GenerationOf(s1, profile).Pending? then (s1, Err(StoreError.SnapshotBusy))
      else if input.generation.Some? && input.generation.value != GenerationOf(s1, profile) then
        (s1, Err(GenerationChanged))
      else if input.launchedAt > now + s.config.maxFutureSkew then (s1, Err(LaunchedTooLate))
      else if now > input.launchedAt + s.config.maxLaunchAge then (s1, Err(LaunchedTooEarly))
      else if known.Some? && known.value.generation != input.deviceGeneration then (s1, Err(DeviceGenerationChanged))
      else
        var s2 := SetDevice(s1, profile, device, input.deviceGeneration, now);
        if prior.Some? then (s2, Ok(Replay(s2, profile, device, prior.value, input.session)))
        else ClaimFresh(s2, profile, device, input, binding, now)
  }

  // ---------------------------------------------------------------- the other calls

  datatype ActiveClaim = ActiveClaim(
    session: Session,
    context: StoredContext,
    claimedAt: Option<nat>,
    expiresAt: nat,
    generation: Generation,
    contextRevision: Revision,
    providerRevision: Revision,
    superseded: Option<Session>)

  /** getActiveClaim(profile, device, session). */
  function GetActive(s: Store, profile: Profile, device: Device, session: Session, clock: nat)
    : (Store, Option<ActiveClaim>)
  {
    var now := ReadNow(s, clock);
    var s1 := Purge(s, now);
    var found := Lookup(s1.claims, profile, device);
    if found.None? || found.value.releasedAt.Some? || found.value.expiresAt <= now
       || !found.value.response.Claimed? || found.value.response.session != session then (s1, None)
    else
      var claim, known := found.value, Lookup(s1.devices, profile, device);
      var stored := if claim.contextId.Some? then Lookup(s1.contexts, profile, claim.contextId.value) else None;
      if claim.binding.generation != GenerationOf(s1, profile)
         || known.None? || known.value.generation != claim.binding.deviceGeneration
         || stored.None? || stored.value.generation != GenerationOf(s1, profile)
         || stored.value.context.expiresAt <= now || Some(stored.value.context.contextId) != claim.contextId
         || stored.value.context.profile != profile
      then (s1, None)
      else
        (s1, Some(ActiveClaim(session, stored.value.context, claim.claimedAt, claim.expiresAt, stored.value.generation,
                              stored.value.revision, stored.value.providerRevision, claim.superseded)))
  }

  /** release(profile, device, session). */
  function ReleaseClaim(s: Store, profile: Profile, device: Device, session: Session, clock: nat): (Store, bool) {
    var now := ReadNow(s, clock);
    var s1 := Purge(s, now);
    var found := Lookup(s1.claims, profile, device);
    if found.None? || found.value.releasedAt.Some? || !found.value.response.Claimed?
       || found.value.response.session != session then (s1, false)
    else (s1.(claims := Replaced(s1.claims, profile, device, found.value.(releasedAt := Some(now)))), true)
  }

  /** Updates a row where it stands. */
  function Replaced(t: Table<Device, Claim>, profile: Profile, device: Device, value: Claim): Table<Device, Claim> {
    if |t| == 0 then []
    else if Is(t[0], profile, device) then [Row(profile, device, value)] + t[1..]
    else [t[0]] + Replaced(t[1..], profile, device, value)
  }

  /** invalidateDevice(profile, device, generation): whether a claim was dropped. */
  function InvalidateDevice(s: Store, profile: Profile, device: Device, generation: nat, clock: nat):
      (Store, Result<bool, StoreError>) {
    if generation < 1 then (s, Err(Malformed))
    else
      var now := ReadNow(s, clock);
      var s1 := Purge(s, now);
      var known := Lookup(s1.devices, profile, device);
      if known.Some? && generation < known.value.generation then (s1, Err(DeviceGenerationChanged))
      else
        var s2 := SetDevice(s1, profile, device, generation, now);
        (s2.(claims := Remove(s2.claims, profile, device),
             attempts := Keep(s2.attempts,
               (row: Row<(Device, AttemptId), Attempt>) => !OfDevice(row, profile, device))),
         Ok(Lookup(s2.claims, profile, device).Some?))
  }

  predicate OfDevice(row: Row<(Device, AttemptId), Attempt>, profile: Profile, device: Device) {
    row.profile == profile && row.key.0 == device
  }

  /** getProviderSnapshotState looks at the clock only for a pending generation that is still leased. */
  predicate StateReadsClock(a: Authority) {
    a.generation.Pending? && !(Owns(a, a.generation) && a.mutation.value.phase != Leased)
  }

  /** invalidateProfile and clearProfile: forgets everything of a profile, unless a mutation is pending. */
  function InvalidateProfile(s: Store, profile: Profile, clock: nat, minted: nat, next: nat): (Store, bool) {
    var now, a := ReadNow(s, clock), AuthorityOf(s, profile);
    var (authority, result) := Invalidate(a, now, minted, next);
    var s1 := s.(authorities := s.authorities[profile := authority],
      lastNow := if StateReadsClock(a) then now else s.lastNow);
    if result.Err? then (s1, false) else (ClearProfile(s1, profile), true)
  }

  /** beginProviderSnapshotMutation: a new mutation forgets everything of the profile. */
  function BeginMutation(s: Store, profile: Profile, clock: nat, seed: nat, minted: nat): (Store, bool) {
    var now, a := ReadNow(s, clock), AuthorityOf(s, profile);
    var (authority, result) := Begin(a, now, s.config.leaseMs, seed, minted);
    var s1 := s.(authorities := s.authorities[profile := authority],
                 lastNow := if StateReadsClock(a) || result.Ok? then now else s.lastNow);
    if result.Err? then (s1, false) else (ClearProfile(s1, profile), true)
  }

  /** The mutation calls that keep contexts and claims. */
  datatype MutationCall =
    | CallGetState
    | CallRenew(token: Generation)
    | CallFence(token: Generation, fence: Revision)
    | CallProbe
    | CallBeginRecovery(candidate: Revision, expected: Option<Revision>)
    | CallCompleteRecovery(token: Generation, fence: Revision)
    | CallRelease(token: Generation)
    | CallComplete(token: Generation)

  function Mutate(a: Authority, call: MutationCall, now: nat, leaseMs: nat, minted: nat): Authority {
    match call
    case CallGetState => GetState(a, now, minted).0
    case CallRenew(token) => Renew(a, token, now, leaseMs, minted).0
    case CallFence(token, fence) => Fence(a, token, fence, now, minted).0
    case CallProbe => a
    case CallBeginRecovery(candidate, expected) => BeginRecovery(a, candidate, expected, now).0
    case CallCompleteRecovery(token, fence) => CompleteRecovery(a, token, fence, minted).0
    case CallRelease(token) => Release(a, token, now, minted).0
    case CallComplete(token) => Complete(a, token, minted).0
  }

  predicate CallReadsClock(a: Authority, call: MutationCall) {
    match call
    case CallGetState => StateReadsClock(a)
    case CallRenew(token) => token.Pending?
    case CallFence(token, _) => token.Pending? && Owns(a, token) && a.mutation.value.phase == Leased
    case CallProbe => ProbeReadsClock(a)
    case CallBeginRecovery(_, _) => ProbeReadsClock(a)
    case CallCompleteRecovery(_, _) => false
    case CallRelease(token) => token.Pending? && Owns(a, token) && a.mutation.value.phase == Leased
    case CallComplete(_) => false
  }

  predicate ProbeReadsClock(a: Authority) {
    a.generation.Pending? && Owns(a, a.generation) && a.mutation.value.phase == Fenced
  }

  function MutationStep(s: Store, profile: Profile, call: MutationCall, clock: nat, minted: nat): Store {
    var now, a := ReadNow(s, clock), AuthorityOf(s, profile);
    s.(authorities := s.authorities[profile := Mutate(a, call, now, s.config.leaseMs, minted)],
       lastNow := if CallReadsClock(a, call) then now else s.lastNow)
  }

  // ---------------------------------------------------------------- runs

  datatype Op =
    | DoRecord(profile: Profile, input: RecordInput, clock: nat)
    | DoClaim(profile: Profile, device: Device, request: ClaimInput, clock: nat)
    | DoGetActive(profile: Profile, device: Device, session: Session, clock: nat)
    | DoRelease(profile: Profile, device: Device, session: Session, clock: nat)
    | DoInvalidateDevice(profile: Profile, device: Device, generation: nat, clock: nat)
    | DoInvalidateProfile(profile: Profile, clock: nat, minted: nat, next: nat)
    | DoBegin(profile: Profile, clock: nat, seed: nat, minted: nat)
    | DoMutation(profile: Profile, call: MutationCall, clock: nat, minted: nat)
    | DoPrune(clock: nat)

  function Apply(s: Store, op: Op): Store {
    match op
    case DoRecord(profile, input, clock) => Record(s, profile, input, clock).0
    case DoClaim(profile, device, request, clock) => ClaimCall(s, profile, device, request, clock).0
    case DoGetActive(profile, device, session, clock) => GetActive(s, profile, device, session, clock).0
    case DoRelease(profile, device, session, clock) => ReleaseClaim(s, profile, device, session, clock).0
    case DoInvalidateDevice(profile, device, generation, clock) =>
      InvalidateDevice(s, profile, device, generation, clock).0
    case DoInvalidateProfile(profile, clock, minted, next) => InvalidateProfile(s, profile, clock, minted, next).0
    case DoBegin(profile, clock, seed, minted) => BeginMutation(s, profile, clock, seed, minted).0
    case DoMutation(profile, call, clock, minted) => MutationStep(s, profile, call, clock, minted)
    case DoPrune(clock) => Purge(s, ReadNow(s, clock))
  }

  function Run(s: Store, ops: seq<Op>): Store
    decreases |ops|
  {
    if |ops| == 0 then s else Apply(Run(s, ops[..|ops| - 1]), ops[|ops| - 1])
  }
}
