// Who has access to a context, from when, and until when: what a claim opens, what a release, another claim,
// an invalidated device or time ends.
module ContextAccess {
  import opened Outcomes
  import opened Sequences
  import opened OrderedTables
  import opened Revisions
  import opened SnapshotAuthority
  import opened ContextMerge
  import opened ContextStore
  import opened ContextCoherence
  import opened ContextClaims

  function Slot(s: Store, profile: Profile, device: Device): Option<Claim> {
    Lookup(s.claims, profile, device)
  }

  predicate IsOpen(slot: Option<Claim>) {
    slot.Some? && slot.value.releasedAt.None? && slot.value.response.Claimed?
  }

  // ---------------------------------------------------------------- purge

  /** Purging drops exactly what has expired. */
  lemma PurgeIsExact(s: Store, now: nat)
    ensures
      var s1 := Purge(s, now);
      && (forall row :: row in s1.contexts <==> row in s.contexts && row.value.context.expiresAt > now)
      && (forall row :: row in s1.claims <==> row in s.claims && row.value.expiresAt > now)
      && (forall row :: row in s1.attempts <==> row in s.attempts && row.value.expiresAt > now)
      && (forall row :: row in s1.devices <==> row in s.devices && row.value.expiresAt > now)
      && s1.authorities == s.authorities && s1.config == s.config && s1.lastNow == now
  {
    hide Bury;
    KeepSelects(s.contexts, (row: Row<nat, Stored>) => ContextLives(row, now));
    KeepSelects(s.claims, (row: Row<Device, Claim>) => row.value.expiresAt > now);
    KeepSelects(s.attempts, (row: Row<(Device, AttemptId), Attempt>) => row.value.expiresAt > now);
    KeepSelects(s.devices, (row: Row<Device, DeviceState>) => row.value.expiresAt > now);
  }

  /** Time ends a claim at its expiry and not before. */
  lemma PurgedSlot(s: Store, now: nat, profile: Profile, device: Device)
    requires Coherent(s)
    ensures Slot(Purge(s, now), profile, device)
            == if Slot(s, profile, device).Some? && Slot(s, profile, device).value.expiresAt > now
               then Slot(s, profile, device) else None
  {
    hide Bury, Current, ContextsOk, Bounded;
    LookupAfterKeep(s.claims, (row: Row<Device, Claim>) => row.value.expiresAt > now, profile, device);
  }

  // ---------------------------------------------------------------- release

  /** A release answers true exactly for an unexpired, unreleased claimed claim of the device and session. It
      marks that claim, and touches nothing else. */
  lemma ReleaseIsExact(s: Store, profile: Profile, device: Device, session: Session, clock: nat)
    requires Coherent(s) && ConfigOk(s.config)
    ensures
      var now, slot := ReadNow(s, clock), Slot(s, profile, device);
      var s1 := Purge(s, now);
      var (s', released) := ReleaseClaim(s, profile, device, session, clock);
      && (released <==> IsOpen(slot) && slot.value.expiresAt > now && slot.value.response.session == session)
      && s' == s1.(claims := s'.claims) && (!released ==> s' == s1)
      && (released ==> Slot(s', profile, device) == Some(slot.value.(releasedAt := Some(now))))
      && forall p: Profile, d: Device :: !(p == profile && d == device) ==> Slot(s', p, d) == Slot(s1, p, d)
  {
    hide Purge, Coherent, ConfigOk, Replaced;
    var now := ReadNow(s, clock);
    var s1 := Purge(s, now);
    PurgeKeeps(s, now);
    PurgedSlot(s, now, profile, device);
    var slot := Slot(s1, profile, device);
    if slot.Some? {
      forall p: Profile, d: Device
        ensures Lookup(Replaced(s1.claims, profile, device, slot.value.(releasedAt := Some(now))), p, d)
             == if profile == p && device == d then Some(slot.value.(releasedAt := Some(now)))
                else Lookup(s1.claims, p, d)
      {
        ReplacedLookup(s1, profile, device, slot.value.(releasedAt := Some(now)), p, d);
      }
    }
  }

  /** The call answers "claimed" to the device. */
  predicate Opens(s: Store, op: Op, profile: Profile, device: Device) {
    && op.DoClaim? && op.profile == profile && op.device == device
    && var result := ClaimCall(s, profile, device, op.request, op.clock).1; result.Ok? && result.value.Claimed?
  }

  /** How one call may change a device's claim. */
  ghost predicate Shifts(s: Store, s': Store, profile: Profile, device: Device) {
    IsOpen(Slot(s', profile, device)) ==> Slot(s', profile, device) == Slot(s, profile, device)
  }

  lemma FreshClaimShifts(
    s: Store, p: Profile, d: Device, input: ClaimInput, binding: Binding, now: nat, profile: Profile, device: Device)
    requires Distinct(s.claims) && binding.attempt == input.attempt
    ensures
      var (s', result) := ClaimFresh(s, p, d, input, binding, now);
      || Shifts(s, s', profile, device)
      || (p == profile && d == device && result.Ok? && result.value.Claimed?)
  {
    hide Answer, HasActiveSession, Put;
    var previous := Lookup(s.claims, p, d);
    var (response, expiresAt) := Answer(s, p, input, now);
    LookupAfterPut(s.claims, p, d, MakeClaim(binding, previous, response, expiresAt, now), profile, device);
  }

  lemma ClaimShifts(s: Store, p: Profile, d: Device, input: ClaimInput, clock: nat, profile: Profile, device: Device)
    requires Coherent(s) && ConfigOk(s.config)
    ensures
      var (s', result) := ClaimCall(s, p, d, input, clock);
      || Shifts(s, s', profile, device)
      || (p == profile && d == device && result.Ok? && result.value.Claimed?)
  {
    hide Coherent, ConfigOk, Purge, SetDevice, ClaimFresh, Replay;
    if ClaimAccepted(input) {
      var now := ReadNow(s, clock);
      var s1 := Purge(s, now);
      PurgeKeeps(s, now);
      PurgedConfig(s, now);
      PurgedSlot(s, now, profile, device);
      SetDeviceFrame(s1, p, d, input.deviceGeneration, now);
      TablesAreDistinct(s1);
      FreshClaimShifts(SetDevice(s1, p, d, input.deviceGeneration, now), p, d, input, BindingOf(s1, p, input), now,
                       profile, device);
    }
  }

  lemma DropShifts(s: Store, s': Store, keep: Row<Device, Claim> -> bool, profile: Profile, device: Device)
    requires Coherent(s) && s'.claims == Keep(s.claims, keep)
    ensures Shifts(s, s', profile, device)
  {
    hide Current, ContextsOk, Bounded;
    LookupAfterKeep(s.claims, keep, profile, device);
  }

  lemma SameClaimsShift(s: Store, s': Store, profile: Profile, device: Device)
    requires s'.claims == s.claims
    ensures Shifts(s, s', profile, device)
  {
  }

  lemma RecordLeavesClaims(s: Store, profile: Profile, input: RecordInput, clock: nat)
    ensures
      var s' := Record(s, profile, input, clock).0;
      s'.claims == s.claims || s'.claims == Purge(s, ReadNow(s, clock)).claims
  {
    hide Purge, AdmitRecord, Assemble, Put;
  }

  lemma DeviceCallShifts(s: Store, p: Profile, d: Device, generation: nat, clock: nat, profile: Profile, device: Device)
    requires Coherent(s) && ConfigOk(s.config)
    ensures Shifts(s, InvalidateDevice(s, p, d, generation, clock).0, profile, device)
  {
    hide Coherent, ConfigOk, Purge, SetDevice, Keep;
    var now := ReadNow(s, clock);
    var s1 := Purge(s, now);
    PurgeKeeps(s, now);
    PurgedConfig(s, now);
    PurgedSlot(s, now, profile, device);
    SetDeviceFrame(s1, p, d, generation, now);
    var dropped := s1.(claims := Remove(s1.claims, p, d));
    DropShifts(s1, dropped, (row: Row<Device, Claim>) => !Is(row, p, d), profile, device);
  }

  lemma ProfileCallShifts(s: Store, op: Op, profile: Profile, device: Device)
    requires Coherent(s) && (op.DoInvalidateProfile? || op.DoBegin? || op.DoMutation?)
    ensures Shifts(s, Apply(s, op), profile, device)
  {
    hide Coherent, Invalidate, Begin, Mutate;
    var s' := Apply(s, op);
    if s'.claims == s.claims {
      SameClaimsShift(s, s', profile, device);
    } else {
      DropShifts(s, s', (row: Row<Device, Claim>) => row.profile != op.profile, profile, device);
    }
  }

  /** Only a call answered "claimed" opens anything: no other call, of any kind, makes a claim held that was
      released, superseded, dropped or never made. */
  lemma OnlyClaimedOpens(s: Store, op: Op, profile: Profile, device: Device)
    requires Coherent(s) && ConfigOk(s.config) && !Opens(s, op, profile, device)
    ensures Shifts(s, Apply(s, op), profile, device)
  {
    hide Coherent, ConfigOk, Purge, Shifts, ClaimCall, ReleaseClaim, Record, InvalidateDevice;
    match op
    case DoRecord(p, input, clock) =>
      RecordLeavesClaims(s, p, input, clock);
      PurgeShifts(s, Apply(s, op), ReadNow(s, clock), profile, device);
    case DoClaim(p, d, request, clock) => ClaimShifts(s, p, d, request, clock, profile, device);
    case DoGetActive(p, d, session, clock) =>
      GetActiveOnlyPurges(s, p, d, session, clock);
      PurgeShifts(s, Apply(s, op), ReadNow(s, clock), profile, device);
    case DoRelease(p, d, session, clock) => ReleaseShifts(s, p, d, session, clock, profile, device);
    case DoInvalidateDevice(p, d, generation, clock) =>
      DeviceCallShifts(s, p, d, generation, clock, profile, device);
    case DoPrune(clock) => PurgeShifts(s, Apply(s, op), ReadNow(s, clock), profile, device);
    case _ => ProfileCallShifts(s, op, profile, device);
  }

  lemma PurgeShifts(s: Store, s': Store, now: nat, profile: Profile, device: Device)
    requires Coherent(s) && (s'.claims == s.claims || s'.claims == Purge(s, now).claims)
    ensures Shifts(s, s', profile, device)
  {
    hide Coherent, Purge;
    PurgedSlot(s, now, profile, device);
  }

  lemma ReleaseShifts(
    s: Store, p: Profile, d: Device, session: Session, clock: nat, profile: Profile, device: Device)
    requires Coherent(s) && ConfigOk(s.config)
    ensures Shifts(s, ReleaseClaim(s, p, d, session, clock).0, profile, device)
  {
    hide Coherent, ConfigOk, Purge, ReleaseClaim;
    ReleaseIsExact(s, p, d, session, clock);
    PurgedSlot(s, ReadNow(s, clock), profile, device);
  }

  /** No call of the run is answered "claimed" to the device. */
  ghost predicate NotClaimedAgain(s: Store, ops: seq<Op>, profile: Profile, device: Device) {
    forall i :: 0 <= i < |ops| ==> !Opens(Run(s, ops[..i]), ops[i], profile, device)
  }

  lemma {:induction false} ClosedStaysClosed(s: Store, ops: seq<Op>, profile: Profile, device: Device)
    requires Coherent(s) && ConfigOk(s.config) && NotClaimedAgain(s, ops, profile, device)
    requires !IsOpen(Slot(s, profile, device))
    ensures Coherent(Run(s, ops)) && ConfigOk(Run(s, ops).config) && !IsOpen(Slot(Run(s, ops), profile, device))
    decreases |ops|
  {
    hide Apply, Opens, Coherent, Slot, ConfigOk;
    if |ops| > 0 {
      var front := ops[..|ops| - 1];
      assert forall i :: 0 <= i < |front| ==> front[..i] == ops[..i];
      ClosedStaysClosed(s, front, profile, device);
      ApplyKeeps(Run(s, front), ops[|ops| - 1]);
      OnlyClaimedOpens(Run(s, front), ops[|ops| - 1], profile, device);
    }
  }

  lemma ReplayNeedsAnOpenClaim(s: Store, profile: Profile, device: Device, input: ClaimInput, clock: nat)
    requires Coherent(s) && ConfigOk(s.config) && !IsOpen(Slot(s, profile, device))
    requires PriorAttempt(Purge(s, ReadNow(s, clock)), profile, device, input.attempt).Some?
    ensures
      var result := ClaimCall(s, profile, device, input, clock).1;
      result.Ok? ==> !result.value.Claimed?
  {
    hide Purge, SetDevice, ClaimFresh, Coherent, ConfigOk;
    var now := ReadNow(s, clock);
    PurgedSlot(s, now, profile, device);
    PurgedConfig(s, now);
    SetDeviceFrame(Purge(s, now), profile, device, input.deviceGeneration, now);
  }

  /** A release ends it: over every run from then on, until the device is answered "claimed" again, it has no
      access under any session at any time, cannot release a second time, and repeating any attempt it made is
      not answered "claimed". */
  lemma ReleaseEndsAccess(
    s: Store, profile: Profile, device: Device, session: Session, clock: nat, ops: seq<Op>,
    other: Session, later: nat, input: ClaimInput)
    requires Coherent(s) && ConfigOk(s.config) && ReleaseClaim(s, profile, device, session, clock).1
    requires NotClaimedAgain(ReleaseClaim(s, profile, device, session, clock).0, ops, profile, device)
    ensures
      var w := Run(ReleaseClaim(s, profile, device, session, clock).0, ops);
      && GetActive(w, profile, device, other, later).1 == None
      && !ReleaseClaim(w, profile, device, other, later).1
      && (PriorAttempt(Purge(w, ReadNow(w, later)), profile, device, input.attempt).Some? ==>
            var again := ClaimCall(w, profile, device, input, later).1; again.Ok? ==> !again.value.Claimed?)
  {
    hide Coherent, ConfigOk, Purge, ReleaseClaim, GetActive, ClaimCall, NotClaimedAgain;
    var s' := ReleaseClaim(s, profile, device, session, clock).0;
    ReleaseIsExact(s, profile, device, session, clock);
    ReleaseKeeps(s, profile, device, session, clock);
    ReleaseKeepsConfig(s, profile, device, session, clock);
    ClosedStaysClosed(s', ops, profile, device);
    var w := Run(s', ops);
    ReleaseIsExact(w, profile, device, other, later);
    ActiveClaimIsExact(w, profile, device, other, later);
    PurgedSlot(w, ReadNow(w, later), profile, device);
    if PriorAttempt(Purge(w, ReadNow(w, later)), profile, device, input.attempt).Some? {
      ReplayNeedsAnOpenClaim(w, profile, device, input, later);
    }
  }

  lemma ReleaseKeepsConfig(s: Store, profile: Profile, device: Device, session: Session, clock: nat)
    ensures ReleaseClaim(s, profile, device, session, clock).0.config == s.config
  {
    hide Keep, Bury, Lookup, Replaced;
  }
}
