// Safety of the provider-snapshot protocol over every run.
module SnapshotIsolation {
  import opened Outcomes
  import opened Revisions
  import opened SnapshotAuthority
  import opened SnapshotProtocol

  // ---------------------------------------------------------------- invariant

  /** A write under this fence can never take effect any more. */
  ghost predicate Dead(repo: Repository, fence: Revision) {
    !repo.active || Value(fence) < Value(repo.floor)
  }

  /** The mutation that owns this fence is still current, or a recovery is superseding it. */
  ghost predicate Covered(auth: Authority, token: Generation, fence: Revision) {
    && auth.generation == token && auth.mutation.Some?
    && var m := auth.mutation.value;
       match m.phase
       case Leased => false
       case Fenced => m.fence == fence
       case Recovering => Value(fence) < Value(m.fence)
  }

  ghost predicate Guarded(s: Shared, token: Generation, fence: Revision) {
    Dead(s.repo, fence) || Covered(s.auth, token, fence)
  }

  /** A token names a mutation begun from a stable generation that has been left for good. */
  ghost predicate Issued(s: Shared, token: Generation) {
    token.Pending? && token.base in s.used && s.auth.generation != Stable(token.base)
  }

  ghost predicate SharedOk(s: Shared) {
    && WellFormed(s.auth)
    && (s.auth.generation.Stable? ==>
          && s.auth.generation.id in s.settled
          && s.settled[s.auth.generation.id] == s.repo.stored)
    && (s.auth.generation.Pending? ==> s.auth.generation.base in s.used)
    && s.settled.Keys <= s.used
    && (forall id :: id in s.writes ==>
          Issued(s, s.writes[id].token) && Guarded(s, s.writes[id].token, s.writes[id].fence))
    && (forall t :: t in s.snapshots ==>
          t.generation in s.settled && t.collection == Visible(s.settled[t.generation], t.live))
  }

  ghost predicate RecoveryOk(s: Shared, r: Recovery) {
    match r
    case Beginning(_, _, _, inactive) => inactive ==> !s.repo.active
    case Completing(_, _, fence, inactive) =>
      !s.repo.active || (!inactive && Value(fence) <= Value(s.repo.floor))
    case _ => true
  }

  ghost predicate GoalOk(s: Shared, goal: Goal) {
    match goal
    case After(_, g, listed, live) =>
      g in s.used
      && (s.auth.generation == Stable(g) ==> g in s.settled && listed == Visible(s.settled[g], live))
    case _ => true
  }

  ghost predicate Holds(p: Process, token: Generation) {
    match p
    case MutAllocate(t) => t == token
    case MutFence(t, _) => t == token
    case MutOperate(t, _) => t == token
    case MutWrite(t, _, _) => t == token
    case MutComplete(t, _) => t == token
    case MutRelease(t) => t == token
    case _ => false
  }

  ghost predicate ProcessOk(s: Shared, p: Process) {
    && (forall token :: Holds(p, token) ==> Issued(s, token))
    && match p
       case Reading(goal, _) => GoalOk(s, goal)
       case Helping(goal, recovery) => GoalOk(s, goal) && RecoveryOk(s, recovery)
       case Listing(_, g) => g in s.used
       case MutHelp(_, recovery) => RecoveryOk(s, recovery)
       case MutOperate(token, fence) => Guarded(s, token, fence)
       case MutWrite(token, fence, _) => Guarded(s, token, fence)
       case _ => true
  }

  /** While its sender lives, it waits for its write; no two processes hold one token. */
  ghost predicate Exclusive(w: World) {
    && (forall pid, id :: pid in w.processes && id in w.shared.writes ==>
          WaitsIfOwner(w.processes[pid], pid, w.shared.writes[id], id))
    && (forall p, q :: p in w.processes && q in w.processes && p != q ==>
          Disjoint(w.processes[p], w.processes[q]))
  }

  ghost predicate WaitsIfOwner(p: Process, pid: nat, write: Write, id: nat) {
    Holds(p, write.token) ==> p == MutWrite(write.token, write.fence, id) && write.sender == pid
  }

  ghost predicate Disjoint(p: Process, q: Process) {
    forall token :: Holds(p, token) ==> !Holds(q, token)
  }

  ghost predicate Inv(w: World) {
    && SharedOk(w.shared)
    && (forall pid :: pid in w.processes ==> ProcessOk(w.shared, w.processes[pid]))
    && Exclusive(w)
  }

  // ---------------------------------------------------------------- interference

  /** How the shared state may change under the feet of the other processes. `gone` is a token
      whose owner has just completed. */
  ghost predicate Evolves(s: Shared, t: Shared, gone: Option<Generation>) {
    && s.used <= t.used
    && (forall g :: g in s.settled ==> g in t.settled && t.settled[g] == s.settled[g])
    && (t.repo.active ==> s.repo.active)
    && Value(s.repo.floor) <= Value(t.repo.floor)
    && (t.auth.generation.Stable? && t.auth.generation != s.auth.generation ==>
          t.auth.generation.id !in s.used)
    && (forall token, fence :: Guarded(s, token, fence) && gone != Some(token) ==> Guarded(t, token, fence))
  }

  lemma OthersUnaffected(s: Shared, t: Shared, gone: Option<Generation>, p: Process)
    requires SharedOk(s) && ProcessOk(s, p) && Evolves(s, t, gone)
    requires gone.Some? ==> !Holds(p, gone.value)
    ensures ProcessOk(t, p)
  {
    forall token | Holds(p, token) ensures Issued(t, token) {
      assert Issued(s, token);
    }
    if p.MutOperate? || p.MutWrite? {
      assert Holds(p, p.token);
    }
  }

  /** A call that only changes the authority, in one of the ways the authority allows. */
  ghost predicate AuthorityMoves(s: Shared, a: Authority, minted: set<nat>) {
    && WellFormed(a)
    && (a.generation.Stable? ==> a.generation == s.auth.generation || a.generation.id in minted)
    && (a.generation.Pending? ==>
          a.generation == s.auth.generation || a.generation.base in s.used + minted)
    && (forall token, fence :: Guarded(s, token, fence) ==> Guarded(s.(auth := a), token, fence))
  }

  lemma GetStateMoves(s: Shared, minted: nat)
    requires SharedOk(s)
    ensures AuthorityMoves(s, GetState(s.auth, s.now, minted).0, {minted})
    ensures var (a, pending) := GetState(s.auth, s.now, minted); pending <==> a.generation.Pending?
  {
  }

  lemma BeginMoves(s: Shared, seed: nat, minted: nat)
    requires SharedOk(s)
    ensures AuthorityMoves(s, Begin(s.auth, s.now, s.leaseMs, seed, minted).0, {minted})
  {
  }

  lemma RenewMoves(s: Shared, token: Generation, minted: nat)
    requires SharedOk(s)
    ensures AuthorityMoves(s, Renew(s.auth, token, s.now, s.leaseMs, minted).0, {minted})
  {
  }

  lemma FenceMoves(s: Shared, token: Generation, fence: Revision, minted: nat)
    requires SharedOk(s)
    ensures
      var (a, result) := Fence(s.auth, token, fence, s.now, minted);
      AuthorityMoves(s, a, {minted}) && (result.Ok? ==> Guarded(s.(auth := a), token, fence))
  {
  }

  lemma BeginRecoveryMoves(s: Shared, candidate: Revision, expected: Option<Revision>)
    requires SharedOk(s)
    ensures AuthorityMoves(s, BeginRecovery(s.auth, candidate, expected, s.now).0, {})
  {
    if BeginRecovery(s.auth, candidate, expected, s.now).0 != s.auth {
      RecoveryFenceExceeds(s.auth, candidate, expected, s.now);
    }
  }

  /** The heart of recovery: it may finish only once its fence, which exceeds the fence of the
      superseded mutator, has reached the durable floor. */
  lemma CompleteRecoveryMoves(s: Shared, token: Generation, fence: Revision, minted: nat)
    requires SharedOk(s)
    requires !s.repo.active || Value(fence) <= Value(s.repo.floor)
    ensures AuthorityMoves(s, CompleteRecovery(s.auth, token, fence, minted).0, {minted})
  {
  }

  lemma ReleaseMoves(s: Shared, token: Generation, minted: nat)
    requires SharedOk(s)
    ensures AuthorityMoves(s, Release(s.auth, token, s.now, minted).0, {minted})
  {
  }

  lemma InvalidateMoves(s: Shared, minted: nat, next: nat)
    requires SharedOk(s)
    ensures AuthorityMoves(s, Invalidate(s.auth, s.now, minted, next).0, {minted, next})
  {
  }

  /** After such a call, with its generations marked as used, the invariant is back. */
  lemma MovesKeep(s: Shared, a: Authority, minted: set<nat>)
    requires SharedOk(s) && AuthorityMoves(s, a, minted) && minted !! s.used
    ensures SharedOk(Settle(s.(auth := a), minted))
    ensures Evolves(s, Settle(s.(auth := a), minted), None)
  {
    var t := Settle(s.(auth := a), minted);
    forall token, fence | Guarded(s, token, fence) ensures Guarded(t, token, fence) {
      assert Guarded(s.(auth := a), token, fence);
    }
    forall id | id in t.writes
      ensures Issued(t, t.writes[id].token) && Guarded(t, t.writes[id].token, t.writes[id].fence)
    {
      assert Issued(s, s.writes[id].token);
    }
  }

  // ---------------------------------------------------------------- one process step

  lemma AuthorityCallKeeps(s: Shared, a: Authority, minted: set<nat>, c: Choice)
    requires SharedOk(s) && FreshChoice(s, c) && minted <= {c.minted, c.next}
    requires AuthorityMoves(s, a, minted)
    ensures SharedOk(Settle(s.(auth := a), {c.minted, c.next}))
    ensures Evolves(s, Settle(s.(auth := a), {c.minted, c.next}), None)
  {
    MovesKeep(s, a, {c.minted, c.next});
  }

  lemma FloorRises(s: Shared, fence: Revision, c: Choice)
    requires SharedOk(s) && FreshChoice(s, c) && !Precedes(fence, s.repo.floor)
    ensures
      var t := Settle(s.(repo := s.repo.(floor := fence)), {c.minted, c.next});
      SharedOk(t) && Evolves(s, t, None)
  {
    PrecedesIsNumeric(fence, s.repo.floor);
    var t := Settle(s.(repo := s.repo.(floor := fence)), {c.minted, c.next});
    forall token, f | Guarded(s, token, f) ensures Guarded(t, token, f) {
    }
    forall id | id in t.writes
      ensures Issued(t, t.writes[id].token) && Guarded(t, t.writes[id].token, t.writes[id].fence)
    {
      assert Issued(s, s.writes[id].token);
    }
  }

  lemma RecoveryKeeps(s: Shared, r: Recovery, c: Choice)
    requires SharedOk(s) && RecoveryOk(s, r) && FreshChoice(s, c)
    ensures
      var (s', r') := RecoveryStep(s, r, c);
      var t := Settle(s', {c.minted, c.next});
      SharedOk(t) && Evolves(s, t, None) && RecoveryOk(t, r')
  {
    var minted := {c.minted, c.next};
    AuthorityCallKeeps(s, s.auth, {}, c);
    assert s.(auth := s.auth) == s;
    match r
    case Beginning(_, candidate, fence, _) =>
      BeginRecoveryMoves(s, candidate, Some(fence));
      AuthorityCallKeeps(s, BeginRecovery(s.auth, candidate, Some(fence), s.now).0, {}, c);
    case Superseding(_, candidate, fence) =>
      BeginRecoveryMoves(s, candidate, Some(fence));
      AuthorityCallKeeps(s, BeginRecovery(s.auth, candidate, Some(fence), s.now).0, {}, c);
    case Advancing(_, _, fence) =>
      if s.repo.active && !Precedes(fence, s.repo.floor) {
        FloorRises(s, fence, c);
      }
    case Completing(_, token, fence, _) =>
      CompleteRecoveryMoves(s, token, fence, c.minted);
      AuthorityCallKeeps(s, CompleteRecovery(s.auth, token, fence, c.minted).0, {c.minted}, c);
    case Checking(_) =>
      GetStateMoves(s, c.minted);
      AuthorityCallKeeps(s, GetState(s.auth, s.now, c.minted).0, {c.minted}, c);
    case _ =>
  }

  lemma GoalSurvives(s: Shared, t: Shared, goal: Goal)
    requires SharedOk(s) && GoalOk(s, goal) && Evolves(s, t, None)
    ensures GoalOk(t, goal)
  {
  }

  ghost predicate StepKeeps(s: Shared, s': Shared, p: Process, p': Process, c: Choice) {
    var t := Settle(s', {c.minted, c.next});
    && SharedOk(t) && Evolves(s, t, Departing(p)) && ProcessOk(t, p')
    && (forall token :: Holds(p', token) ==> Holds(p, token) || !Issued(s, token))
  }

  function Departing(p: Process): Option<Generation> {
    if p.MutComplete? then Some(p.token) else None
  }

  lemma IdleCallKeeps(s: Shared, c: Choice)
    requires SharedOk(s) && FreshChoice(s, c)
    ensures SharedOk(Settle(s, {c.minted, c.next})) && Evolves(s, Settle(s, {c.minted, c.next}), None)
  {
    AuthorityCallKeeps(s, s.auth, {}, c);
    assert s.(auth := s.auth) == s;
  }

  lemma ReadingKeeps(s: Shared, p: Process, c: Choice)
    requires p.Reading? && SharedOk(s) && ProcessOk(s, p) && FreshChoice(s, c)
    ensures var (s', p') := ReaderStep(s, p, c); StepKeeps(s, s', p, p', c)
  {
    IdleCallKeeps(s, c);
    GetStateMoves(s, c.minted);
    var (auth, pending) := GetState(s.auth, s.now, c.minted);
    AuthorityCallKeeps(s, auth, {c.minted}, c);
    GoalSurvives(s, Settle(s.(auth := auth), {c.minted, c.next}), p.goal);
    if !c.fails && !(pending && !p.again) {
      StateReadKeeps(s, auth, p.goal, pending, c);
    }
  }

  lemma StateReadKeeps(s: Shared, auth: Authority, goal: Goal, pending: bool, c: Choice)
    requires SharedOk(s) && FreshChoice(s, c) && pending == auth.generation.Pending?
    requires SharedOk(Settle(s.(auth := auth), {c.minted, c.next}))
    requires GoalOk(Settle(s.(auth := auth), {c.minted, c.next}), goal)
    requires Evolves(s, Settle(s.(auth := auth), {c.minted, c.next}), None)
    requires goal.After? && auth.generation == Stable(goal.generation) ==> goal.generation in s.settled
    ensures
      var (s', p') := StateRead(s.(auth := auth), goal, pending);
      var t := Settle(s', {c.minted, c.next});
      SharedOk(t) && Evolves(s, t, None) && ProcessOk(t, p') && (forall token :: !Holds(p', token))
  {
    var base := Settle(s.(auth := auth), {c.minted, c.next});
    var t := Settle(StateRead(s.(auth := auth), goal, pending).0, {c.minted, c.next});
    assert t == base.(snapshots := t.snapshots);
    forall token, fence | Guarded(base, token, fence) ensures Guarded(t, token, fence) {
    }
    forall id | id in t.writes
      ensures Issued(t, t.writes[id].token) && Guarded(t, t.writes[id].token, t.writes[id].fence)
    {
      assert Issued(base, base.writes[id].token);
    }
  }

  lemma HelpingKeeps(s: Shared, p: Process, c: Choice)
    requires p.Helping? && SharedOk(s) && ProcessOk(s, p) && FreshChoice(s, c)
    ensures var (s', p') := ReaderStep(s, p, c); StepKeeps(s, s', p, p', c)
  {
    hide Evolves, Guarded, Issued;
    IdleCallKeeps(s, c);
    RecoveryKeeps(s, p.recovery, c);
    GoalSurvives(s, Settle(RecoveryStep(s, p.recovery, c).0, {c.minted, c.next}), p.goal);
  }

  lemma ReaderKeeps(s: Shared, p: Process, c: Choice)
    requires p.Reading? || p.Helping? || p.Listing? || p.Invalidating?
    requires SharedOk(s) && ProcessOk(s, p) && FreshChoice(s, c)
    ensures var (s', p') := ReaderStep(s, p, c); StepKeeps(s, s', p, p', c)
  {
    if p.Reading? {
      ReadingKeeps(s, p, c);
    } else if p.Helping? {
      HelpingKeeps(s, p, c);
    } else {
      IdleCallKeeps(s, c);
      InvalidateMoves(s, c.minted, c.next);
      AuthorityCallKeeps(s, Invalidate(s.auth, s.now, c.minted, c.next).0, {c.minted, c.next}, c);
    }
  }

  /** A mutator that completes leaves no write of its own behind. */
  lemma CompleteKeeps(s: Shared, token: Generation, c: Choice)
    requires SharedOk(s) && FreshChoice(s, c)
    requires forall id :: id in s.writes ==> s.writes[id].token != token
    ensures
      var t := Settle(s.(auth := Complete(s.auth, token, c.minted).0), {c.minted, c.next});
      SharedOk(t) && Evolves(s, t, Some(token))
  {
    var t := Settle(s.(auth := Complete(s.auth, token, c.minted).0), {c.minted, c.next});
    forall f, other | Guarded(s, other, f) && Some(token) != Some(other) ensures Guarded(t, other, f) {
    }
    forall id | id in t.writes
      ensures Issued(t, t.writes[id].token) && Guarded(t, t.writes[id].token, t.writes[id].fence)
    {
      assert Issued(s, s.writes[id].token);
      assert Guarded(s, s.writes[id].token, s.writes[id].fence);
    }
  }

  lemma SendingKeeps(s: Shared, write: Write, c: Choice)
    requires SharedOk(s) && FreshChoice(s, c) && c.id !in s.writes
    requires Issued(s, write.token) && Guarded(s, write.token, write.fence)
    ensures
      var t := Settle(s.(writes := s.writes[c.id := write]), {c.minted, c.next});
      SharedOk(t) && Evolves(s, t, None)
  {
    var t := Settle(s.(writes := s.writes[c.id := write]), {c.minted, c.next});
    forall token, fence | Guarded(s, token, fence) ensures Guarded(t, token, fence) {
    }
    forall id | id in t.writes
      ensures Issued(t, t.writes[id].token) && Guarded(t, t.writes[id].token, t.writes[id].fence)
    {
      if id != c.id {
        assert Issued(s, s.writes[id].token) && Guarded(s, s.writes[id].token, s.writes[id].fence);
      }
    }
  }

  /** A new mutation leaves its stable generation for good, so its token is nobody else's. */
  lemma BeginKeeps(s: Shared, pid: nat, p: Process, c: Choice)
    requires p.MutBegin? && SharedOk(s) && ProcessOk(s, p) && FreshChoice(s, c) && !c.fails
    ensures var (s', p') := MutatorStep(s, pid, p, c); StepKeeps(s, s', p, p', c)
  {
    BeginMoves(s, c.seed, c.minted);
    AuthorityCallKeeps(s, Begin(s.auth, s.now, s.leaseMs, c.seed, c.minted).0, {c.minted}, c);
  }

  lemma FenceKeeps(s: Shared, pid: nat, p: Process, c: Choice)
    requires p.MutFence? && SharedOk(s) && ProcessOk(s, p) && FreshChoice(s, c) && !c.fails
    ensures var (s', p') := MutatorStep(s, pid, p, c); StepKeeps(s, s', p, p', c)
  {
    assert Holds(p, p.token);
    FenceMoves(s, p.token, p.fence, c.minted);
    var (auth, result) := Fence(s.auth, p.token, p.fence, s.now, c.minted);
    AuthorityCallKeeps(s, auth, {c.minted}, c);
    if result.Ok? {
      assert Guarded(s.(auth := auth), p.token, p.fence);
    }
  }

  lemma ReleaseKeeps(s: Shared, pid: nat, p: Process, c: Choice)
    requires p.MutRelease? && SharedOk(s) && ProcessOk(s, p) && FreshChoice(s, c) && !c.fails
    ensures var (s', p') := MutatorStep(s, pid, p, c); StepKeeps(s, s', p, p', c)
  {
    ReleaseMoves(s, p.token, c.minted);
    AuthorityCallKeeps(s, Release(s.auth, p.token, s.now, c.minted).0, {c.minted}, c);
  }

  lemma MutatorKeeps(s: Shared, pid: nat, p: Process, c: Choice)
    requires !(p.Reading? || p.Helping? || p.Listing? || p.Invalidating?)
    requires SharedOk(s) && ProcessOk(s, p) && FreshChoice(s, c)
    requires p.MutComplete? ==> forall id :: id in s.writes ==> s.writes[id].token != p.token
    ensures var (s', p') := MutatorStep(s, pid, p, c); StepKeeps(s, s', p, p', c)
  {
    IdleCallKeeps(s, c);
    match p
    case MutOperate(token, fence) =>
      assert Holds(p, token);
      if c.writes && c.id !in s.writes {
        SendingKeeps(s, Write(pid, token, fence, c.expected, c.providers), c);
      }
    case MutComplete(token, _) =>
      if !c.fails {
        CompleteKeeps(s, token, c);
      }
    case MutAllocate(token) =>
      assert Holds(p, token);
    case MutWrite(token, _, _) =>
      assert Holds(p, token);
    case Done =>
    case MutBegin(_) =>
      if !c.fails {
        BeginKeeps(s, pid, p, c);
      }
    case MutHelp(_, recovery) =>
      RecoveryKeeps(s, recovery, c);
    case MutFence(token, _) =>
      assert Holds(p, token);
      if !c.fails {
        FenceKeeps(s, pid, p, c);
      }
    case MutRelease(_) =>
      if !c.fails {
        ReleaseKeeps(s, pid, p, c);
      }
  }

  // ---------------------------------------------------------------- every step of the system

  lemma ActKeeps(w: World, pid: nat, c: Choice)
    requires Inv(w) && pid in w.processes && FreshChoice(w.shared, c)
    ensures Inv(Apply(w, Act(pid, c)))
  {
    var s, p := w.shared, w.processes[pid];
    var w' := Apply(w, Act(pid, c));
    var (s', p') := ProcessStep(s, pid, p, c);
    if p.MutComplete? {
      forall id | id in s.writes ensures s.writes[id].token != p.token {
        assert WaitsIfOwner(p, pid, s.writes[id], id);
      }
    }
    if p.Reading? || p.Helping? || p.Listing? || p.Invalidating? {
      ReaderKeeps(s, p, c);
    } else {
      MutatorKeeps(s, pid, p, c);
    }
    assert StepKeeps(s, s', p, p', c);
    forall q | q in w'.processes ensures ProcessOk(w'.shared, w'.processes[q]) {
      if q != pid {
        assert Disjoint(p, w.processes[q]);
        assert Departing(p).Some? ==> Holds(p, Departing(p).value);
        OthersUnaffected(s, w'.shared, Departing(p), w.processes[q]);
      }
    }
    ActStaysDisjoint(w, pid, c);
    forall q, id | q in w'.processes && id in w'.shared.writes
      ensures WaitsIfOwner(w'.processes[q], q, w'.shared.writes[id], id)
    {
      ActStaysWaiting(w, pid, c, q, id);
    }
  }

  lemma TokensStayDisjoint(s: Shared, t: Shared, p: Process, p': Process, q: Process, c: Choice)
    requires StepKeeps(s, t, p, p', c) && ProcessOk(s, q) && Disjoint(p, q)
    ensures Disjoint(p', q) && Disjoint(q, p')
  {
    forall token | Holds(p', token) ensures !Holds(q, token) {
      assert Holds(q, token) ==> Issued(s, token);
    }
  }

  lemma ActStaysDisjoint(w: World, pid: nat, c: Choice)
    requires Inv(w) && pid in w.processes && FreshChoice(w.shared, c)
    requires
      var (s', p') := ProcessStep(w.shared, pid, w.processes[pid], c);
      StepKeeps(w.shared, s', w.processes[pid], p', c)
    ensures
      var after := Apply(w, Act(pid, c)).processes;
      forall q, r :: q in after && r in after && q != r ==> Disjoint(after[q], after[r])
  {
    var s, p := w.shared, w.processes[pid];
    var (s', p') := ProcessStep(s, pid, p, c);
    var after := Apply(w, Act(pid, c)).processes;
    forall q, r | q in after && r in after && q != r ensures Disjoint(after[q], after[r]) {
      assert Disjoint(w.processes[q], w.processes[r]);
      if q == pid || r == pid {
        var other := if q == pid then r else q;
        assert Disjoint(p, w.processes[other]);
        TokensStayDisjoint(s, s', p, p', w.processes[other], c);
      }
    }
  }

  lemma OwnWriteStillAwaited(s: Shared, t: Shared, p: Process, p': Process, c: Choice, pid: nat, write: Write, id: nat)
    requires StepKeeps(s, t, p, p', c) && Issued(s, write.token)
    requires WaitsIfOwner(p, pid, write, id) && (p.MutWrite? ==> p' == p)
    ensures WaitsIfOwner(p', pid, write, id)
  {
  }

  lemma NewWriteIsAwaited(s: Shared, pid: nat, p: Process, c: Choice, id: nat)
    requires var (s', p') := ProcessStep(s, pid, p, c); id in s'.writes && id !in s.writes
    ensures
      var (s', p') := ProcessStep(s, pid, p, c);
      && Holds(p, s'.writes[id].token) && WaitsIfOwner(p', pid, s'.writes[id], id)
  {
  }

  lemma ActStaysWaiting(w: World, pid: nat, c: Choice, q: nat, id: nat)
    requires Inv(w) && pid in w.processes && FreshChoice(w.shared, c)
    requires
      var (s', p') := ProcessStep(w.shared, pid, w.processes[pid], c);
      StepKeeps(w.shared, s', w.processes[pid], p', c)
    requires var w' := Apply(w, Act(pid, c)); q in w'.processes && id in w'.shared.writes
    ensures
      var w' := Apply(w, Act(pid, c));
      WaitsIfOwner(w'.processes[q], q, w'.shared.writes[id], id)
  {
    hide ProcessStep;
    assert forall q: nat :: q in w.processes ==> ProcessOk(w.shared, w.processes[q]);
    var s, p := w.shared, w.processes[pid];
    var (s', p') := ProcessStep(s, pid, p, c);
    assert Apply(w, Act(pid, c)).shared.writes == s'.writes;
    if id in s.writes {
      WritesOnlyGrow(s, pid, p, c);
      assert WaitsIfOwner(w.processes[q], q, s.writes[id], id);
      if q == pid {
        if p.MutWrite? {
          WriterWaits(s, pid, p, c);
        }
        OwnWriteStillAwaited(s, s', p, p', c, pid, s.writes[id], id);
      }
    } else {
      NewWriteIsAwaited(s, pid, p, c, id);
      if q != pid {
        assert Disjoint(p, w.processes[q]);
      }
    }
  }

  lemma WriterWaits(s: Shared, pid: nat, p: Process, c: Choice)
    requires p.MutWrite?
    ensures ProcessStep(s, pid, p, c).1 == p
  {
  }

  lemma WritesOnlyGrow(s: Shared, pid: nat, p: Process, c: Choice)
    ensures
      var (s', p') := ProcessStep(s, pid, p, c);
      forall id :: id in s.writes ==> id in s'.writes && s'.writes[id] == s.writes[id]
  {
  }

  /** The repository refuses a write of an inactive profile, and one whose fence lies below its floor. */
  lemma DeadWritesAreRefused(repo: Repository, write: Write)
    requires Dead(repo, write.fence)
    ensures ReplaceAll(repo, write) == repo
  {
    PrecedesIsNumeric(write.fence, repo.floor);
  }

  lemma ResolveKeeps(w: World, id: nat, repo: Repository)
    requires Inv(w) && id in w.shared.writes
    requires repo == w.shared.repo || repo == ReplaceAll(w.shared.repo, w.shared.writes[id])
    ensures
      var s := w.shared;
      Inv(World(s.(repo := repo, writes := s.writes - {id}), Reply(w.processes, s.writes[id], id)))
  {
    var s, write := w.shared, w.shared.writes[id];
    var t := s.(repo := repo, writes := s.writes - {id});
    var after := Reply(w.processes, write, id);
    PrecedesIsNumeric(write.fence, s.repo.floor);
    assert Guarded(s, write.token, write.fence);
    if s.auth.generation.Stable? {
      DeadWritesAreRefused(s.repo, write);
    }
    forall token, fence | Guarded(s, token, fence) ensures Guarded(t, token, fence) {
    }
    forall other | other in t.writes
      ensures Issued(t, t.writes[other].token) && Guarded(t, t.writes[other].token, t.writes[other].fence)
    {
      assert Issued(s, s.writes[other].token) && Guarded(s, s.writes[other].token, s.writes[other].fence);
    }
    forall pid | pid in after ensures ProcessOk(t, after[pid]) {
      OthersUnaffected(s, t, None, w.processes[pid]);
      assert forall token :: Holds(after[pid], token) ==> Holds(w.processes[pid], token);
    }
    forall q, r | q in after && r in after && q != r ensures Disjoint(after[q], after[r]) {
      assert Disjoint(w.processes[q], w.processes[r]);
    }
    forall q, other | q in after && other in t.writes
      ensures WaitsIfOwner(after[q], q, t.writes[other], other)
    {
      assert WaitsIfOwner(w.processes[q], q, s.writes[other], other);
    }
  }

  lemma QuietStepKeeps(w: World, step: Step)
    requires Inv(w) && (step.Tick? || step.Deactivate? || step.RenewLease?)
    ensures Inv(Apply(w, step))
  {
    var s, w' := w.shared, Apply(w, step);
    if step.RenewLease? {
      if step.minted !in s.used {
        RenewMoves(s, step.token, step.minted);
        MovesKeep(s, Renew(s.auth, step.token, s.now, s.leaseMs, step.minted).0, {step.minted});
      }
    } else {
      forall token, fence | Guarded(s, token, fence) ensures Guarded(w'.shared, token, fence) {
      }
      forall id | id in s.writes
        ensures Issued(w'.shared, s.writes[id].token) && Guarded(w'.shared, s.writes[id].token, s.writes[id].fence)
      {
        assert Issued(s, s.writes[id].token) && Guarded(s, s.writes[id].token, s.writes[id].fence);
      }
    }
    if w' != w {
      forall pid | pid in w.processes ensures ProcessOk(w'.shared, w.processes[pid]) {
        OthersUnaffected(s, w'.shared, None, w.processes[pid]);
      }
    }
  }

  lemma PopulationStepKeeps(w: World, step: Step)
    requires Inv(w) && (step.Start? || step.StartRefresh? || step.Crash?)
    ensures Inv(Apply(w, step))
  {
    var w' := Apply(w, step);
    forall q, r | q in w'.processes && r in w'.processes && q != r
      ensures Disjoint(w'.processes[q], w'.processes[r])
    {
      assert q in w.processes && r in w.processes ==> Disjoint(w.processes[q], w.processes[r]);
    }
    forall q, id | q in w'.processes && id in w'.shared.writes
      ensures WaitsIfOwner(w'.processes[q], q, w'.shared.writes[id], id)
    {
      assert q in w.processes ==> WaitsIfOwner(w.processes[q], q, w.shared.writes[id], id);
    }
  }

  lemma StepKeepsInv(w: World, step: Step)
    requires Inv(w)
    ensures Inv(Apply(w, step))
  {
    match step
    case Act(pid, c) =>
      if pid in w.processes && FreshChoice(w.shared, c) {
        ActKeeps(w, pid, c);
      }
    case Land(id) =>
      if id in w.shared.writes {
        ResolveKeeps(w, id, ReplaceAll(w.shared.repo, w.shared.writes[id]));
      }
    case Reject(id) =>
      if id in w.shared.writes {
        ResolveKeeps(w, id, w.shared.repo);
        assert w.shared.(repo := w.shared.repo) == w.shared;
      }
    case Tick(_) => QuietStepKeeps(w, step);
    case Deactivate => QuietStepKeeps(w, step);
    case RenewLease(_, _) => QuietStepKeeps(w, step);
    case _ => PopulationStepKeeps(w, step);
  }

  lemma {:induction false} RunKeepsInv(w: World, steps: seq<Step>)
    requires Inv(w)
    ensures Inv(Run(w, steps))
    decreases |steps|
  {
    if |steps| > 0 {
      RunKeepsInv(w, steps[..|steps| - 1]);
      StepKeepsInv(Run(w, steps[..|steps| - 1]), steps[|steps| - 1]);
    }
  }
}
