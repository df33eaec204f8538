// What an undisturbed driver of the snapshot protocol gets done: a reader returns the stored collection, a mutator
// replaces it, and a recovery makes an abandoned mutation's generation stable again.
module SnapshotProgress {
  import opened Outcomes
  import opened Revisions
  import opened SnapshotAuthority
  import opened SnapshotProtocol

  /** Consecutive steps of one process, with nobody in between. */
  function Steps(s: Shared, pid: nat, p: Process, choices: seq<Choice>): (Shared, Process)
    decreases |choices|
  {
    if |choices| == 0 then (s, p)
    else
      var (s', p') := ProcessStep(s, pid, p, choices[0]);
      Steps(s', pid, p', choices[1..])
  }

  lemma OneStep(s: Shared, pid: nat, p: Process, a: Choice)
    ensures Steps(s, pid, p, [a]) == ProcessStep(s, pid, p, a)
  {
    hide ProcessStep;
    var (s1, p1) := ProcessStep(s, pid, p, a);
    assert [a][1..] == [];
    assert Steps(s1, pid, p1, []) == (s1, p1);
  }

  lemma TwoMore(s: Shared, pid: nat, p: Process, a: Choice, b: Choice)
    ensures
      var (s1, p1) := ProcessStep(s, pid, p, a);
      Steps(s, pid, p, [a, b]) == ProcessStep(s1, pid, p1, b)
  {
    hide ProcessStep;
    var (s1, p1) := ProcessStep(s, pid, p, a);
    assert [a, b][1..] == [b];
    OneStep(s1, pid, p1, b);
  }

  lemma ThreeMore(s: Shared, pid: nat, p: Process, a: Choice, b: Choice, c: Choice)
    ensures
      var (s1, p1) := ProcessStep(s, pid, p, a);
      var (s2, p2) := ProcessStep(s1, pid, p1, b);
      Steps(s, pid, p, [a, b, c]) == ProcessStep(s2, pid, p2, c)
  {
    hide ProcessStep;
    var (s1, p1) := ProcessStep(s, pid, p, a);
    assert [a, b, c][1..] == [b, c];
    TwoMore(s1, pid, p1, b, c);
  }

  predicate AtRest(s: Shared) {
    s.auth.generation.Stable? && s.auth.mutation.None?
  }

  /** While no mutation is pending a reader returns the generation with the collection as it is listed. */
  lemma AnUndisturbedReaderReturns(s: Shared, pid: nat, a: Choice, b: Choice, c: Choice)
    requires AtRest(s) && !a.fails && !b.fails && !c.fails
    ensures
      Steps(s, pid, Reading(Before(0), false), [a, b, c])
      == (s.(snapshots := s.snapshots + {Snapshot(s.auth.generation.id, s.repo.active, List(s.repo))}), Done)
  {
    var p := Reading(Before(0), false);
    ThreeMore(s, pid, p, a, b, c);
    var g := s.auth.generation.id;
    assert ProcessStep(s, pid, p, a) == (s, Listing(0, g));
    assert ProcessStep(s, pid, Listing(0, g), b) == (s, Reading(After(0, g, List(s.repo), s.repo.active), false));
  }

  /** Three steps get a mutator from the start to its operation: a lease, a fence, a fenced token. */
  lemma AnUndisturbedMutatorIsFenced(s: Shared, pid: nat, begin: Choice, allocate: Choice, fence: Choice)
    requires AtRest(s) && s.repo.active && s.leaseMs > 0
    requires !begin.fails && !allocate.fails && !fence.fails
    ensures
      var token := Pending(s.now + s.leaseMs, s.auth.generation.id, begin.seed);
      Steps(s, pid, MutBegin(0), [begin, allocate, fence])
      == (s.(auth := Authority(token, Some(Mutation(token, Fenced, s.now + s.leaseMs, allocate.fence)))),
          MutOperate(token, allocate.fence))
  {
    ThreeMore(s, pid, MutBegin(0), begin, allocate, fence);
    var token := Pending(s.now + s.leaseMs, s.auth.generation.id, begin.seed);
    var s1 := s.(auth := Authority(token, Some(Mutation(token, Leased, s.now + s.leaseMs, "0"))));
    assert ProcessStep(s, pid, MutBegin(0), begin) == (s1, MutAllocate(token));
    assert ProcessStep(s1, pid, MutAllocate(token), allocate) == (s1, MutFence(token, allocate.fence));
  }

  /** A fenced mutator's write lands if it is sent at the stored revision under a fence no lower than the floor. */
  lemma ACurrentWriteLands(s: Shared, pid: nat, token: Generation, fence: Revision, c: Choice)
    requires c.writes && c.id !in s.writes && s.repo.active && c.expected == s.repo.stored.revision
    requires Value(s.repo.floor) <= Value(fence)
    ensures
      var (sent, p) := ProcessStep(s, pid, MutOperate(token, fence), c);
      && c.id in sent.writes && p == MutWrite(token, fence, c.id)
      && ReplaceAll(sent.repo, sent.writes[c.id])
         == Repository(true, fence, Collection(s.repo.stored.revision + 1, c.providers))
      && Reply(map[pid := p], sent.writes[c.id], c.id) == map[pid := MutOperate(token, fence)]
  {
    PrecedesIsNumeric(fence, s.repo.floor);
  }

  /** After its operation a fenced mutator that nobody superseded makes the generation stable again. */
  lemma AFencedMutatorCompletes(s: Shared, pid: nat, token: Generation, fence: Revision, last: Choice, c: Choice)
    requires token.Pending? && Owns(s.auth, token) && s.auth.mutation.value.phase == Fenced
    requires !last.writes && !c.fails
    ensures Steps(s, pid, MutOperate(token, fence), [last, c])
            == (s.(auth := Authority(Stable(c.minted), None)), Done)
  {
    TwoMore(s, pid, MutOperate(token, fence), last, c);
    assert ProcessStep(s, pid, MutOperate(token, fence), last) == (s, MutComplete(token, fence));
  }

  /** A mutation that was fenced and abandoned past its lease. */
  predicate IsAbandoned(s: Shared) {
    && s.auth.generation.Pending? && Owns(s.auth, s.auth.generation)
    && s.auth.mutation.value.phase == Fenced && s.auth.mutation.value.expiresAt <= s.now
  }

  function RecoverySteps(s: Shared, r: Recovery, choices: seq<Choice>): (Shared, Recovery)
    decreases |choices|
  {
    if |choices| == 0 then (s, r)
    else
      var (s', r') := RecoveryStep(s, r, choices[0]);
      RecoverySteps(s', r', choices[1..])
  }

  lemma TwoRecoverySteps(s: Shared, r: Recovery, a: Choice, b: Choice)
    ensures
      var (s1, r1) := RecoveryStep(s, r, a);
      RecoverySteps(s, r, [a, b]) == RecoveryStep(s1, r1, b)
  {
    hide RecoveryStep;
    var (s1, r1) := RecoveryStep(s, r, a);
    var (s2, r2) := RecoveryStep(s1, r1, b);
    assert [a, b][1..] == [b] && [b][1..] == [];
    assert RecoverySteps(s2, r2, []) == (s2, r2);
    assert RecoverySteps(s1, r1, [b]) == (s2, r2);
  }

  lemma ThreeRecoverySteps(s: Shared, r: Recovery, a: Choice, b: Choice, c: Choice)
    ensures
      var (s1, r1) := RecoveryStep(s, r, a);
      var (s2, r2) := RecoveryStep(s1, r1, b);
      RecoverySteps(s, r, [a, b, c]) == RecoveryStep(s2, r2, c)
  {
    hide RecoveryStep;
    var (s1, r1) := RecoveryStep(s, r, a);
    assert [a, b, c][1..] == [b, c];
    TwoRecoverySteps(s1, r1, b, c);
  }

  /** What the second half of a recovery starts from: the fence that superseded the mutator's. */
  predicate Supersedes(s: Shared, v: Shared, r: Recovery, candidate: Revision) {
    && s.auth.mutation.Some? && r.Advancing? && r.token == s.auth.generation
    && v == s.(auth := Authority(r.token, Some(s.auth.mutation.value.(phase := Phase.Recovering, fence := r.fence))))
    && Value(r.fence) == Max(Value(s.auth.mutation.value.fence) + 1, Value(candidate))
  }

  lemma ARecoverySupersedes(s: Shared, probe: Choice, allocate: Choice, begin: Choice)
    requires IsAbandoned(s) && s.repo.active
    requires Value(s.auth.mutation.value.fence) + 1 < Power10(MAX_DIGITS)
    ensures
      var (v, r) := RecoverySteps(s, Probing, [probe, allocate, begin]);
      Supersedes(s, v, r, allocate.fence)
  {
    hide Value, Power10, Maximum, Increment;
    var fence := s.auth.mutation.value.fence;
    IncrementIsRefusedOnlyWhenFull(fence);
    BegunRecoveryMoves(s.auth, allocate.fence, s.now);
    RecoveryFenceExceeds(s.auth, allocate.fence, Some(fence), s.now);
    ThreeRecoverySteps(s, Probing, probe, allocate, begin);
    assert RecoveryStep(s, Probing, probe) == (s, Allocating(0, fence));
    assert RecoveryStep(s, Allocating(0, fence), allocate) == (s, Beginning(0, allocate.fence, fence, false));
  }

  lemma BegunRecoveryMoves(a: Authority, candidate: Revision, now: nat)
    requires a.generation.Pending? && Owns(a, a.generation) && a.mutation.value.phase == Fenced
    requires a.mutation.value.expiresAt <= now && Increment(a.mutation.value.fence).Ok?
    ensures WellFormed(a) && BeginRecovery(a, candidate, Some(a.mutation.value.fence), now).0 != a
  {
  }

  /** A recovery that nobody disturbs, with a fence no lower than the floor, supersedes the mutator, raises the
      floor to its fence, and only then makes the generation stable again. */
  lemma AnUndisturbedRecoverySucceeds(
    s: Shared, probe: Choice, allocate: Choice, begin: Choice, advance: Choice, complete: Choice)
    requires IsAbandoned(s) && s.repo.active && Value(s.repo.floor) <= Value(allocate.fence)
    requires Value(s.auth.mutation.value.fence) + 1 < Power10(MAX_DIGITS)
    ensures
      var (v, r) := RecoverySteps(s, Probing, [probe, allocate, begin]);
      var (done, last) := RecoverySteps(v, r, [advance, complete]);
      && last == Finished(true) && done.auth == Authority(Stable(complete.minted), None)
      && r.Advancing? && done.repo == s.repo.(floor := r.fence)
      && Value(r.fence) == Max(Value(s.auth.mutation.value.fence) + 1, Value(allocate.fence))
  {
    hide Value, Power10, Precedes;
    ARecoverySupersedes(s, probe, allocate, begin);
    var (v, r) := RecoverySteps(s, Probing, [probe, allocate, begin]);
    PrecedesIsNumeric(r.fence, s.repo.floor);
    TwoRecoverySteps(v, r, advance, complete);
    var v1 := v.(repo := v.repo.(floor := r.fence));
    assert RecoveryStep(v, r, advance) == (v1, Completing(r.n, r.token, r.fence, false));
  }

  // ---------------------------------------------------------------- contention

  /** A reader that finds the state pending after all, or moved while it listed, starts over until its attempts are
      used up. */
  lemma AReaderStartsOver(s: Shared, pid: nat, n: nat, generation: nat, listed: Collection, live: bool, c: Choice)
    requires !c.fails && s.auth.generation.Pending?
    requires GetState(s.auth, s.now, c.minted) == (s.auth, true)
    ensures
      var again := if n + 1 < MAX_ATTEMPTS then Reading(Before(n + 1), false) else Done;
      && ProcessStep(s, pid, Reading(Before(n), true), c) == (s, again)
      && ProcessStep(s, pid, Reading(After(n, generation, listed, live), true), c) == (s, again)
  {
  }

  lemma AReaderThatWasOvertakenStartsOver(
    s: Shared, pid: nat, n: nat, generation: nat, listed: Collection, live: bool, c: Choice)
    requires !c.fails && AtRest(s) && s.auth.generation != Stable(generation)
    ensures ProcessStep(s, pid, Reading(After(n, generation, listed, live), false), c)
            == (s, if n + 1 < MAX_ATTEMPTS then Reading(Before(n + 1), false) else Done)
  {
  }

  /** A mutator that finds another one helps it to recover, and then tries again until its attempts are used up. */
  lemma ABusyMutatorTriesAgain(s: Shared, pid: nat, n: nat, c: Choice)
    requires !c.fails && s.auth.generation.Pending? && GetState(s.auth, s.now, c.minted) == (s.auth, true)
    ensures ProcessStep(s, pid, MutBegin(n), c) == (s, MutHelp(n, Probing))
    ensures Probe(s.auth, s.now).None? ==>
      ProcessStep(s, pid, MutHelp(n, Probing), c) == (s, if n + 1 < MAX_ATTEMPTS then MutBegin(n + 1) else Done)
  {
  }

  /** A mutator that gets no fence gives its lease up, and the generation is stable at once. */
  lemma AMutatorWithoutAFenceGivesUp(s: Shared, pid: nat, token: Generation, allocate: Choice, release: Choice)
    requires token.Pending? && Owns(s.auth, token) && s.auth.mutation.value.phase == Leased
    requires (allocate.fails || !s.repo.active) && !release.fails
    ensures Steps(s, pid, MutAllocate(token), [allocate, release])
            == (s.(auth := Authority(Stable(release.minted), None)), Done)
  {
    TwoMore(s, pid, MutAllocate(token), allocate, release);
    assert ProcessStep(s, pid, MutAllocate(token), allocate) == (s, MutRelease(token));
  }
}
