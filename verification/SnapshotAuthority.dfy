// The provider-snapshot authority of one profile: its generation and its mutation record,
// with one function per call. A call returns the new authority and what the caller sees.
module SnapshotAuthority {
  import opened Outcomes
  import opened Revisions

  /** A stable generation, or the token of a mutation begun from stable generation `base`.
      The token's digest covers the generation and a random seed, and is injective. */
  datatype Generation =
    | Stable(id: nat)
    | Pending(deadline: nat, base: nat, seed: nat)

  datatype Phase = Leased | Fenced | Recovering

  datatype Mutation = Mutation(token: Generation, phase: Phase, expiresAt: nat, fence: Revision)

  datatype Authority = Authority(generation: Generation, mutation: Option<Mutation>)

  datatype AuthorityError =
    | SnapshotBusy
    | SnapshotChanged
    | SnapshotUnfenced
    | RevisionExhausted
    | InvalidToken

  datatype Available = Available(token: Generation, fence: Revision, phase: Phase)

  datatype Begun = Begun(token: Generation, fence: Revision)

  const InitialAuthority := Authority(Stable(0), None)

  /** A pending generation always has its mutation record, a stable one never has. */
  predicate WellFormed(a: Authority) {
    match a.generation
    case Stable(_) => a.mutation.None?
    case Pending(_, _, _) => a.mutation.Some? && a.mutation.value.token == a.generation
  }

  predicate Owns(a: Authority, token: Generation) {
    a.generation == token && a.mutation.Some? && a.mutation.value.token == token
  }

  function Stabilize(a: Authority, minted: nat): Authority {
    Authority(Stable(minted), None)
  }

  /** getProviderSnapshotState: an expired lease, never fenced, becomes a new stable generation;
      an expired fenced mutation stays pending until it is recovered. */
  function GetState(a: Authority, now: nat, minted: nat): (Authority, bool) {
    match a.generation
    case Stable(_) => (a.(mutation := None), false)
    case Pending(deadline, _, _) =>
      if Owns(a, a.generation) then
        if a.mutation.value.phase != Leased || a.mutation.value.expiresAt > now then (a, true)
        else (Stabilize(a, minted), false)
      else if deadline > now then (a, true)
      else (Stabilize(a, minted), false)
  }

  /** beginProviderSnapshotMutation. */
  function Begin(a: Authority, now: nat, leaseMs: nat, seed: nat, minted: nat):
      (Authority, Result<Generation, AuthorityError>) {
    var (current, pending) := GetState(a, now, minted);
    if pending || current.generation.Pending? then (current, Err(SnapshotBusy))
    else
      var token := Pending(now + leaseMs, current.generation.id, seed);
      (Authority(token, Some(Mutation(token, Leased, now + leaseMs, "0"))), Ok(token))
  }

  /** renewProviderSnapshotMutation: extends a lease that is neither fenced nor expired. */
  function Renew(a: Authority, token: Generation, now: nat, leaseMs: nat, minted: nat):
      (Authority, Result<Option<nat>, AuthorityError>) {
    if !token.Pending? then (a, Err(InvalidToken))
    else if !Owns(a, token) || a.mutation.value.phase != Leased then (a, Ok(None))
    else if a.mutation.value.expiresAt <= now then (Stabilize(a, minted), Ok(None))
    else
      (a.(mutation := Some(a.mutation.value.(expiresAt := now + leaseMs))), Ok(Some(now + leaseMs)))
  }

  /** fenceProviderSnapshotMutation: binds the durable fence to a live lease, once. */
  function Fence(a: Authority, token: Generation, fence: Revision, now: nat, minted: nat):
      (Authority, Result<Begun, AuthorityError>) {
    if !token.Pending? then (a, Err(InvalidToken))
    else if !Owns(a, token) then (a, Err(SnapshotChanged))
    else
      var m := a.mutation.value;
      match m.phase
      case Fenced => (a, if m.fence == fence then Ok(Begun(token, fence)) else Err(SnapshotChanged))
      case Recovering => (a, Err(SnapshotChanged))
      case Leased =>
        if m.expiresAt <= now then (Stabilize(a, minted), Err(SnapshotChanged))
        else (a.(mutation := Some(m.(fence := fence, phase := Fenced))), Ok(Begun(token, fence)))
  }

  /** probeProviderSnapshotRecovery: a recovery under way, or a fenced mutation past its lease. */
  function Probe(a: Authority, now: nat): Option<Available> {
    if !a.generation.Pending? || !Owns(a, a.generation) then None
    else
      var m := a.mutation.value;
      if m.phase == Recovering then Some(Available(a.generation, m.fence, Recovering))
      else if m.phase != Fenced || m.expiresAt > now then None
      else Some(Available(a.generation, m.fence, Fenced))
  }

  /** beginProviderSnapshotRecovery: supersedes exactly the expected fence with a larger one. */
  function BeginRecovery(a: Authority, candidate: Revision, expected: Option<Revision>, now: nat):
      (Authority, Result<Option<Begun>, AuthorityError>) {
    match Probe(a, now)
    case None => (a, Ok(None))
    case Some(available) =>
      var m := a.mutation.value;
      if (m.phase == Recovering && expected.None?) || (expected.Some? && m.fence != expected.value) then
        (a, Ok(Some(Begun(available.token, m.fence))))
      else
        match Increment(m.fence)
        case Err(_) => (a, Err(RevisionExhausted))
        case Ok(next) =>
          var fence := Maximum(next, candidate);
          (a.(mutation := Some(m.(phase := Recovering, fence := fence))),
           Ok(Some(Begun(available.token, fence))))
  }

  /** completeProviderSnapshotRecovery: only the current recovery fence may finish. */
  function CompleteRecovery(a: Authority, token: Generation, fence: Revision, minted: nat):
      (Authority, Result<Generation, AuthorityError>) {
    if token.Pending? && Owns(a, token)
       && a.mutation.value.phase == Recovering && a.mutation.value.fence == fence then
      (Stabilize(a, minted), Ok(Stable(minted)))
    else (a, Err(SnapshotChanged))
  }

  /** releaseProviderSnapshotMutation: gives up a lease that was never fenced. */
  function Release(a: Authority, token: Generation, now: nat, minted: nat): (Authority, bool) {
    if !token.Pending? || !Owns(a, token) || a.mutation.value.phase != Leased then (a, false)
    else (Stabilize(a, minted), a.mutation.value.expiresAt > now)
  }

  /** completeProviderSnapshotMutation: only a fenced mutation that nobody superseded. */
  function Complete(a: Authority, token: Generation, minted: nat):
      (Authority, Result<Generation, AuthorityError>) {
    if !token.Pending? then (a, Err(InvalidToken))
    else if !Owns(a, token) || a.mutation.value.phase == Recovering then (a, Err(SnapshotChanged))
    else if a.mutation.value.phase != Fenced then (a, Err(SnapshotUnfenced))
    else (Stabilize(a, minted), Ok(Stable(minted)))
  }

  /** invalidateProfile: a stable generation is replaced by another stable one. */
  function Invalidate(a: Authority, now: nat, minted: nat, next: nat):
      (Authority, Result<Generation, AuthorityError>) {
    var (current, pending) := GetState(a, now, minted);
    if pending then (current, Err(SnapshotBusy))
    else (Stabilize(current, next), Ok(Stable(next)))
  }

  /** Every recovery fence exceeds the fence it supersedes and is no less than the candidate. */
  lemma RecoveryFenceExceeds(a: Authority, candidate: Revision, expected: Option<Revision>, now: nat)
    requires WellFormed(a)
    requires BeginRecovery(a, candidate, expected, now).0 != a
    ensures
      var (after, result) := BeginRecovery(a, candidate, expected, now);
      && WellFormed(after) && after.generation == a.generation
      && a.mutation.Some? && after.mutation.Some? && a.mutation.value.phase != Leased
      && after.mutation.value.phase == Recovering
      && result == Ok(Some(Begun(a.generation, after.mutation.value.fence)))
      && Value(after.mutation.value.fence) == Max(Value(a.mutation.value.fence) + 1, Value(candidate))
  {
    var superseded := a.mutation.value.fence;
    IncrementAddsOne(superseded);
    assert Increment(superseded).Ok?;
    MaximumIsNumeric(Increment(superseded).value, candidate);
  }

  /** Recovery is refused for want of digits exactly when the superseded fence is 10^128 - 1
      and this caller was the one to supersede it. */
  lemma RecoveryExhaustion(a: Authority, candidate: Revision, expected: Option<Revision>, now: nat)
    ensures BeginRecovery(a, candidate, expected, now).1 == Err(RevisionExhausted) <==>
            && Probe(a, now).Some?
            && (a.mutation.value.phase == Recovering ==> expected.Some?)
            && (expected.Some? ==> a.mutation.value.fence == expected.value)
            && Value(a.mutation.value.fence) + 1 >= Power10(MAX_DIGITS)
  {
    if a.mutation.Some? {
      IncrementIsRefusedOnlyWhenFull(a.mutation.value.fence);
    }
  }
}
