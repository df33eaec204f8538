// The lease of a provider-snapshot mutation, over whole runs of the store: who is kept out, for how long,
// and what lets the next one in.
module SnapshotLease {
  import opened Outcomes
  import opened OrderedTables
  import opened Revisions
  import opened SnapshotAuthority
  import opened ContextStore

  // ---------------------------------------------------------------- one call

  /** A mutation keeps others out while its lease lasts, and once it is fenced until it is completed. */
  predicate Blocks(a: Authority, now: nat) {
    a.mutation.Some? && (a.mutation.value.phase != Leased || a.mutation.value.expiresAt > now)
  }

  /** The state that is read is pending exactly while the mutation blocks. A mutation that does not is over,
      and leaves a new stable generation behind. */
  lemma StateIsExact(a: Authority, now: nat, minted: nat)
    requires WellFormed(a)
    ensures
      var (after, pending) := GetState(a, now, minted);
      && WellFormed(after) && (pending <==> Blocks(a, now)) && (pending ==> after == a)
      && (!pending ==> after == Authority(if a.generation.Stable? then a.generation else Stable(minted), None))
  {
  }

  /** A mutation begins exactly when none blocks, and then holds a whole lease. */
  lemma BeginIsExact(a: Authority, now: nat, leaseMs: nat, seed: nat, minted: nat)
    requires WellFormed(a)
    ensures
      var (after, result) := Begin(a, now, leaseMs, seed, minted);
      if Blocks(a, now) then after == a && result == Err(AuthorityError.SnapshotBusy)
      else
        && WellFormed(after) && result == Ok(after.generation) && after.generation.Pending?
        && after.mutation.value.phase == Leased && after.mutation.value.expiresAt == now + leaseMs
  {
    StateIsExact(a, now, minted);
  }

  /** A profile is invalidated exactly when no mutation blocks, and gets the new generation. */
  lemma InvalidateIsExact(a: Authority, now: nat, minted: nat, next: nat)
    requires WellFormed(a)
    ensures
      Invalidate(a, now, minted, next)
      == if Blocks(a, now) then (a, Err(AuthorityError.SnapshotBusy))
         else (Authority(Stable(next), None), Ok(Stable(next)))
  {
    StateIsExact(a, now, minted);
  }

  // ---------------------------------------------------------------- reachable authorities

  ghost predicate AuthorityOk(s: Store, profile: Profile) {
    var a := AuthorityOf(s, profile);
    && WellFormed(a)
    && (a.mutation.Some? && a.mutation.value.phase == Leased ==>
          a.mutation.value.expiresAt <= s.lastNow + s.config.leaseMs)
  }

  function ClockOf(op: Op): nat {
    match op
    case DoRecord(_, _, clock) => clock
    case DoClaim(_, _, _, clock) => clock
    case DoGetActive(_, _, _, clock) => clock
    case DoRelease(_, _, _, clock) => clock
    case DoInvalidateDevice(_, _, _, clock) => clock
    case DoInvalidateProfile(_, clock, _, _) => clock
    case DoBegin(_, clock, _, _) => clock
    case DoMutation(_, _, clock, _) => clock
    case DoPrune(clock) => clock
  }

  /** What an operation does to the authority of a profile. */
  function Moved(s: Store, op: Op, profile: Profile): Authority {
    var now, a := ReadNow(s, ClockOf(op)), AuthorityOf(s, profile);
    match op
    case DoInvalidateProfile(p, _, minted, next) => if p == profile then Invalidate(a, now, minted, next).0 else a
    case DoBegin(p, _, seed, minted) => if p == profile then Begin(a, now, s.config.leaseMs, seed, minted).0 else a
    case DoMutation(p, call, _, minted) =>
      if p == profile then Mutate(a, call, now, s.config.leaseMs, minted) else a
    case _ => a
  }

  lemma ApplyMovesAuthority(s: Store, op: Op, profile: Profile)
    ensures AuthorityOf(Apply(s, op), profile) == Moved(s, op, profile)
    ensures s.lastNow <= Apply(s, op).lastNow && Apply(s, op).config == s.config
  {
    hide Keep, Bury, Answer, Matching, FindEquivalent, Assemble, Lookup, Remove, Replaced, Put, Begin, Invalidate,
      Mutate, SetDevice, AdmitRecord;
    match op
    case DoClaim(p, device, request, clock) => ClaimKeepsAuthorities(s, p, device, request, clock);
    case DoInvalidateDevice(p, device, generation, clock) => DeviceKeepsAuthorities(s, p, device, generation, clock);
    case _ =>
  }

  lemma ClaimKeepsAuthorities(s: Store, p: Profile, device: Device, request: ClaimInput, clock: nat)
    ensures
      var s' := ClaimCall(s, p, device, request, clock).0;
      s'.authorities == s.authorities && s'.lastNow >= s.lastNow && s'.config == s.config
  {
    hide Keep, Bury, Answer, Lookup, Put, Remove;
  }

  lemma DeviceKeepsAuthorities(s: Store, p: Profile, device: Device, generation: nat, clock: nat)
    ensures
      var s' := InvalidateDevice(s, p, device, generation, clock).0;
      s'.authorities == s.authorities && s'.lastNow >= s.lastNow && s'.config == s.config
  {
    hide Keep, Bury, Lookup, Put, Remove;
  }

  lemma MoveStaysWellFormed(s: Store, op: Op, profile: Profile)
    requires AuthorityOk(s, profile)
    ensures AuthorityOk(Apply(s, op), profile)
  {
    hide Apply;
    ApplyMovesAuthority(s, op, profile);
    ClockAdvances(s, op, profile);
  }

  /** A call that starts or renews a lease has read the clock. */
  lemma ClockAdvances(s: Store, op: Op, profile: Profile)
    ensures Moved(s, op, profile) == AuthorityOf(s, profile)
            || Moved(s, op, profile).mutation.None? || Moved(s, op, profile).mutation.value.phase != Leased
            || Apply(s, op).lastNow == ReadNow(s, ClockOf(op))
  {
    hide Keep, Bury, Answer, Matching, FindEquivalent, Assemble, Lookup, Remove, Replaced, Put;
  }

  lemma {:induction false} RunAuthorityOk(config: Config, ops: seq<Op>, profile: Profile)
    ensures AuthorityOk(Run(Initial(config), ops), profile)
    decreases |ops|
  {
    hide Apply;
    if |ops| > 0 {
      RunAuthorityOk(config, ops[..|ops| - 1], profile);
      MoveStaysWellFormed(Run(Initial(config), ops[..|ops| - 1]), ops[|ops| - 1], profile);
    }
  }

  // ---------------------------------------------------------------- a live lease

  predicate Leases(s: Store, profile: Profile, token: Generation) {
    var a := AuthorityOf(s, profile);
    && token.Pending? && a.generation == token
    && a.mutation.Some? && a.mutation.value.token == token && a.mutation.value.phase == Leased
  }

  /** The holder's lease, renewed or not, has not ended when the clock is read. */
  predicate Unexpired(s: Store, profile: Profile, clock: nat) {
    var a := AuthorityOf(s, profile);
    a.mutation.Some? ==> ReadNow(s, clock) < a.mutation.value.expiresAt
  }

  /** A call with which the holder of the token moves on or gives up; renewals are not among them. */
  predicate HolderMoves(op: Op, profile: Profile, token: Generation) {
    && op.DoMutation? && op.profile == profile
    && match op.call
       case CallFence(t, _) => t == token
       case CallCompleteRecovery(t, _) => t == token
       case CallRelease(t) => t == token
       case CallComplete(t) => t == token
       case _ => false
  }

  ghost predicate LeaseLasts(s: Store, ops: seq<Op>, profile: Profile, token: Generation) {
    forall i :: 0 <= i < |ops| ==>
      !HolderMoves(ops[i], profile, token) && Unexpired(Run(s, ops[..i]), profile, ClockOf(ops[i]))
  }

  /** What a begun mutation holds. */
  lemma BegunLeases(s: Store, profile: Profile, clock: nat, seed: nat, minted: nat)
    requires AuthorityOk(s, profile) && BeginMutation(s, profile, clock, seed, minted).1
    ensures
      var s' := BeginMutation(s, profile, clock, seed, minted).0;
      && Leases(s', profile, GenerationOf(s', profile))
      && AuthorityOf(s', profile).mutation.value.expiresAt == ReadNow(s, clock) + s.config.leaseMs
  {
    BeginIsExact(AuthorityOf(s, profile), ReadNow(s, clock), s.config.leaseMs, seed, minted);
  }

  lemma LeaseOutlivesACall(s: Store, op: Op, profile: Profile, token: Generation)
    requires Leases(s, profile, token) && Unexpired(s, profile, ClockOf(op)) && !HolderMoves(op, profile, token)
    ensures Leases(Apply(s, op), profile, token)
  {
    hide Apply;
    ApplyMovesAuthority(s, op, profile);
  }

  /** While its lease lasts nothing that others do, in any number and order, ends a mutation or moves its
      generation. */
  lemma {:induction false} LeaseIsRespected(s: Store, ops: seq<Op>, profile: Profile, token: Generation)
    requires Leases(s, profile, token) && LeaseLasts(s, ops, profile, token)
    ensures Leases(Run(s, ops), profile, token)
    decreases |ops|
  {
    hide Apply, Leases, Unexpired;
    if |ops| > 0 {
      var front := ops[..|ops| - 1];
      assert forall i :: 0 <= i < |front| ==> front[..i] == ops[..i];
      LeaseIsRespected(s, front, profile, token);
      LeaseOutlivesACall(Run(s, front), ops[|ops| - 1], profile, token);
    }
  }

  lemma SameAuthority(s: Store, profile: Profile)
    requires GenerationOf(s, profile).Pending?
    ensures s.authorities[profile := AuthorityOf(s, profile)] == s.authorities
  {
  }

  /** So after any such calls every other mutation and every invalidation is refused and changes nothing, while
      the holder may renew, be fenced, or give up. */
  lemma LiveLeaseExcludes(
    s: Store, ops: seq<Op>, profile: Profile, token: Generation, clock: nat, minted: nat, next: nat, seed: nat,
    fence: Revision)
    requires Leases(s, profile, token) && LeaseLasts(s, ops, profile, token)
    requires Unexpired(Run(s, ops), profile, clock)
    ensures
      var w := Run(s, ops);
      var now, a, lease := ReadNow(w, clock), AuthorityOf(w, profile), w.config.leaseMs;
      var waiting := w.(lastNow := now);
      && a.mutation.Some?
      && BeginMutation(w, profile, clock, seed, minted) == (waiting, false)
      && InvalidateProfile(w, profile, clock, minted, next) == (waiting, false)
      && MutationStep(w, profile, CallGetState, clock, minted) == waiting
      && GetState(a, now, minted).1 && GenerationOf(w, profile) == token
      && Fence(a, token, fence, now, minted)
         == (Authority(token, Some(a.mutation.value.(phase := Fenced, fence := fence))), Ok(Begun(token, fence)))
      && Renew(a, token, now, lease, minted)
         == (Authority(token, Some(a.mutation.value.(expiresAt := now + lease))), Ok(Some(now + lease)))
      && Release(a, token, now, minted) == (Authority(Stable(minted), None), true)
      && Complete(a, token, minted).1 == Err(SnapshotUnfenced)
      && Probe(a, now) == None
  {
    hide Run, ClearProfile;
    LeaseIsRespected(s, ops, profile, token);
    SameAuthority(Run(s, ops), profile);
  }

  /** An unfenced lease that has ended keeps nobody out, and its holder is refused. */
  lemma EndedLeaseYields(
    s: Store, profile: Profile, token: Generation, clock: nat, minted: nat, next: nat, seed: nat, fence: Revision)
    requires Leases(s, profile, token) && !Unexpired(s, profile, clock)
    ensures
      var now, a := ReadNow(s, clock), AuthorityOf(s, profile);
      && BeginMutation(s, profile, clock, seed, minted).1
      && InvalidateProfile(s, profile, clock, minted, next).1
      && GetState(a, now, minted) == (Authority(Stable(minted), None), false)
      && Fence(a, token, fence, now, minted) == (Authority(Stable(minted), None), Err(SnapshotChanged))
      && Renew(a, token, now, s.config.leaseMs, minted) == (Authority(Stable(minted), None), Ok(None))
      && !Release(a, token, now, minted).1
  {
    hide ClearProfile;
  }

  // ---------------------------------------------------------------- a fenced mutation

  predicate Fences(s: Store, profile: Profile, token: Generation) {
    var a := AuthorityOf(s, profile);
    && token.Pending? && a.generation == token
    && a.mutation.Some? && a.mutation.value.token == token && a.mutation.value.phase != Leased
  }

  predicate Completes(op: Op, profile: Profile, token: Generation) {
    && op.DoMutation? && op.profile == profile
    && (op.call == CallComplete(token) || (op.call.CallCompleteRecovery? && op.call.token == token))
  }

  lemma FenceOutlivesACall(s: Store, op: Op, profile: Profile, token: Generation)
    requires Fences(s, profile, token) && !Completes(op, profile, token)
    ensures Fences(Apply(s, op), profile, token)
    ensures Unexpired(s, profile, ClockOf(op)) && AuthorityOf(s, profile).mutation.value.phase == Fenced ==>
              AuthorityOf(Apply(s, op), profile) == AuthorityOf(s, profile)
  {
    hide Apply;
    ApplyMovesAuthority(s, op, profile);
  }

  /** Once fenced, a mutation keeps others out however late it is, until it or a recovery completes. */
  lemma {:induction false} FencedMutationExcludes(
    s: Store, ops: seq<Op>, profile: Profile, token: Generation, clock: nat, minted: nat, next: nat, seed: nat)
    requires Fences(s, profile, token)
    requires forall i :: 0 <= i < |ops| ==> !Completes(ops[i], profile, token)
    ensures
      var w := Run(s, ops);
      && Fences(w, profile, token)
      && BeginMutation(w, profile, clock, seed, minted) == (w, false)
      && InvalidateProfile(w, profile, clock, minted, next) == (w, false)
    decreases |ops|
  {
    hide Apply, ClearProfile;
    if |ops| > 0 {
      FencedMutationExcludes(s, ops[..|ops| - 1], profile, token, clock, minted, next, seed);
      FenceOutlivesACall(Run(s, ops[..|ops| - 1]), ops[|ops| - 1], profile, token);
    }
    SameAuthority(Run(s, ops), profile);
  }

  /** Before its lease ends no recovery supersedes it: the holder completes. */
  lemma {:induction false} FencedHolderCompletes(
    s: Store, ops: seq<Op>, profile: Profile, token: Generation, minted: nat)
    requires Fences(s, profile, token) && AuthorityOf(s, profile).mutation.value.phase == Fenced
    requires forall i :: 0 <= i < |ops| ==>
      !Completes(ops[i], profile, token) && Unexpired(Run(s, ops[..i]), profile, ClockOf(ops[i]))
    ensures AuthorityOf(Run(s, ops), profile) == AuthorityOf(s, profile)
    ensures Complete(AuthorityOf(Run(s, ops), profile), token, minted)
            == (Authority(Stable(minted), None), Ok(Stable(minted)))
    decreases |ops|
  {
    hide Apply, Unexpired;
    if |ops| > 0 {
      var front := ops[..|ops| - 1];
      assert forall i :: 0 <= i < |front| ==> front[..i] == ops[..i];
      FencedHolderCompletes(s, front, profile, token, minted);
      FenceOutlivesACall(Run(s, front), ops[|ops| - 1], profile, token);
    }
  }

  /** A mutation is fenced once: repeating its fence is answered alike, another fence is refused, and so is any
      after a recovery took over. None changes anything. */
  lemma AFenceIsFinal(s: Store, profile: Profile, token: Generation, fence: Revision, now: nat, minted: nat)
    requires Fences(s, profile, token)
    ensures
      var a := AuthorityOf(s, profile);
      Fence(a, token, fence, now, minted)
      == (a, if a.mutation.value.phase == Fenced && a.mutation.value.fence == fence then Ok(Begun(token, fence))
             else Err(SnapshotChanged))
    ensures Renew(AuthorityOf(s, profile), token, now, s.config.leaseMs, minted) == (AuthorityOf(s, profile), Ok(None))
    ensures Release(AuthorityOf(s, profile), token, now, minted) == (AuthorityOf(s, profile), false)
  {
  }

  /** Calls with another token than the one that is pending are refused and change nothing. */
  lemma OtherTokensAreRefused(a: Authority, token: Generation, fence: Revision, now: nat, leaseMs: nat, minted: nat)
    requires WellFormed(a) && a.generation != token && token.Pending?
    ensures Fence(a, token, fence, now, minted) == (a, Err(SnapshotChanged))
    ensures Renew(a, token, now, leaseMs, minted) == (a, Ok(None))
    ensures Release(a, token, now, minted) == (a, false)
    ensures Complete(a, token, minted) == (a, Err(SnapshotChanged))
    ensures CompleteRecovery(a, token, fence, minted) == (a, Err(SnapshotChanged))
  {
  }

  /** A recovery takes over exactly from a fenced mutation past its lease, or from another recovery that it names,
      as long as there is a larger fence; any other is told the fence that is current, or that there is nothing to
      recover. */
  lemma ARecoveryTakesOverExactly(a: Authority, candidate: Revision, expected: Option<Revision>, now: nat)
    requires WellFormed(a)
    ensures
      var recoverable := && a.mutation.Some? && a.mutation.value.phase != Leased
                         && (a.mutation.value.phase == Fenced ==> a.mutation.value.expiresAt <= now);
      var named := && (recoverable && a.mutation.value.phase == Phase.Recovering ==> expected.Some?)
                   && (recoverable && expected.Some? ==> expected.value == a.mutation.value.fence);
      var (after, result) := BeginRecovery(a, candidate, expected, now);
      && (Probe(a, now).Some? <==> recoverable)
      && (!recoverable ==> after == a && result == Ok(None))
      && (recoverable && !named ==> after == a && result == Ok(Some(Begun(a.generation, a.mutation.value.fence))))
      && (recoverable && named ==>
            if Value(a.mutation.value.fence) + 1 < Power10(MAX_DIGITS) then
              && after.generation == a.generation
              && after.mutation.Some? && after.mutation.value.phase == Phase.Recovering
              && result == Ok(Some(Begun(a.generation, after.mutation.value.fence)))
            else after == a && result == Err(AuthorityError.RevisionExhausted))
  {
    hide Value, Power10, Increment, Maximum;
    if a.mutation.Some? {
      IncrementIsRefusedOnlyWhenFull(a.mutation.value.fence);
    }
  }

  /** After it ended, a recovery that names its fence supersedes the holder, completes, and lets others in; a
      superseded holder, and an older recovery, are refused. */
  lemma RecoveryLetsOthersIn(a: Authority, candidate: Revision, now: nat, minted: nat, earlier: Revision)
    requires WellFormed(a) && a.mutation.Some? && a.mutation.value.phase == Fenced && a.mutation.value.expiresAt <= now
    requires Value(a.mutation.value.fence) + 1 < Power10(MAX_DIGITS)
    ensures
      var (b, begun) := BeginRecovery(a, candidate, Some(a.mutation.value.fence), now);
      && Probe(a, now) == Some(Available(a.generation, a.mutation.value.fence, Fenced))
      && begun.Ok? && begun.value.Some? && begun.value.value.token == a.generation
      && CompleteRecovery(b, a.generation, begun.value.value.fence, minted)
         == (Authority(Stable(minted), None), Ok(Stable(minted)))
      && Complete(b, a.generation, minted) == (b, Err(SnapshotChanged))
      && (earlier != begun.value.value.fence ==>
            CompleteRecovery(b, a.generation, earlier, minted) == (b, Err(SnapshotChanged)))
  {
    IncrementIsRefusedOnlyWhenFull(a.mutation.value.fence);
  }
}
