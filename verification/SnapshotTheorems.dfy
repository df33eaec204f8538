// What callers of the provider-snapshot protocol may rely on, for every run.
module SnapshotTheorems {
  import opened Outcomes
  import opened Revisions
  import opened SnapshotAuthority
  import opened SnapshotProtocol
  import opened SnapshotIsolation

  lemma Reachable(stored: Collection, floor: Revision, leaseMs: nat, steps: seq<Step>)
    ensures Inv(Run(Initial(stored, floor, leaseMs), steps))
  {
    RunKeepsInv(Initial(stored, floor, leaseMs), steps);
  }

  /** Snapshot isolation: two snapshots of one generation carry the same collection exactly when
      they were listed on the same side of the profile's deactivation, or there was nothing to see. */
  lemma SnapshotsOfOneGenerationAgree(
    stored: Collection, floor: Revision, leaseMs: nat, steps: seq<Step>, a: Snapshot, b: Snapshot)
    requires a in Run(Initial(stored, floor, leaseMs), steps).shared.snapshots
    requires b in Run(Initial(stored, floor, leaseMs), steps).shared.snapshots
    requires a.generation == b.generation
    ensures a.collection == b.collection <==>
            a.live == b.live || (if a.live then a else b).collection == EMPTY_COLLECTION
  {
    Reachable(stored, floor, leaseMs, steps);
  }

  /** A step that lists providers, or not, sees the profile as it is. */
  ghost predicate LiveWhileActive(w: World) {
    w.shared.repo.active ==>
      && (forall t :: t in w.shared.snapshots ==> t.live)
      && (forall pid :: pid in w.processes ==> ListedLive(w.processes[pid]))
  }

  predicate ListedLive(p: Process) {
    match p
    case Reading(After(_, _, _, live), _) => live
    case Helping(After(_, _, _, live), _) => live
    case _ => true
  }

  lemma ProcessStaysLive(s: Shared, pid: nat, p: Process, c: Choice)
    requires ListedLive(p) && s.repo.active && forall t :: t in s.snapshots ==> t.live
    ensures
      var (s', p') := ProcessStep(s, pid, p, c);
      s'.repo.active && ListedLive(p') && forall t :: t in s'.snapshots ==> t.live
  {
    if p.Helping? || p.MutHelp? {
      var (s', _) := RecoveryStep(s, p.recovery, c);
      assert s'.snapshots == s.snapshots;
    }
  }

  lemma {:induction false} ActiveRunsAreLive(w: World, steps: seq<Step>)
    requires w.shared.repo.active && LiveWhileActive(w)
    requires forall i :: 0 <= i < |steps| ==> !steps[i].Deactivate?
    ensures Run(w, steps).shared.repo.active && LiveWhileActive(Run(w, steps))
    decreases |steps|
  {
    if |steps| > 0 {
      var front, last := steps[..|steps| - 1], steps[|steps| - 1];
      assert forall i :: 0 <= i < |front| ==> front[i] == steps[i];
      ActiveRunsAreLive(w, front);
      var v := Run(w, front);
      if last.Act? && last.pid in v.processes {
        ProcessStaysLive(v.shared, last.pid, v.processes[last.pid], last.choice);
      }
    }
  }

  /** While the profile is not deactivated, isolation holds outright. */
  lemma ActiveProfilesAreIsolated(
    stored: Collection, floor: Revision, leaseMs: nat, steps: seq<Step>, a: Snapshot, b: Snapshot)
    requires forall i :: 0 <= i < |steps| ==> !steps[i].Deactivate?
    requires a in Run(Initial(stored, floor, leaseMs), steps).shared.snapshots
    requires b in Run(Initial(stored, floor, leaseMs), steps).shared.snapshots
    requires a.generation == b.generation
    ensures a.collection == b.collection
  {
    ActiveRunsAreLive(Initial(stored, floor, leaseMs), steps);
    SnapshotsOfOneGenerationAgree(stored, floor, leaseMs, steps, a, b);
  }

  function Plain(minted: nat, next: nat): Choice {
    Choice(false, "1", 0, minted, next, false, 0, 0, 0)
  }

  function OneRead(pid: nat, minted: nat): seq<Step> {
    [Start(pid, false),
     Act(pid, Plain(minted, minted + 1)),
     Act(pid, Plain(minted + 2, minted + 3)),
     Act(pid, Plain(minted + 4, minted + 5))]
  }

  /** Deactivation between two reads is visible: the generation stays, the collection does not. */
  lemma DeactivationIsVisible(stored: Collection, floor: Revision, leaseMs: nat)
    requires stored != EMPTY_COLLECTION
    ensures
      var steps := OneRead(1, 1) + [Deactivate] + OneRead(2, 7);
      var seen := Run(Initial(stored, floor, leaseMs), steps).shared.snapshots;
      && Snapshot(0, true, stored) in seen && Snapshot(0, false, EMPTY_COLLECTION) in seen
  {
    hide Run, OneRead;
    var w0 := Initial(stored, floor, leaseMs);
    var first := OneRead(1, 1) + [Deactivate];
    ReadOnce(w0, 1, 1);
    RunLast(w0, OneRead(1, 1), Deactivate);
    ReadOnce(Run(w0, first), 2, 7);
    RunAppend(w0, first, OneRead(2, 7));
  }

  lemma {:induction false} RunAppend(w: World, first: seq<Step>, second: seq<Step>)
    ensures Run(w, first + second) == Run(Run(w, first), second)
    decreases |second|
  {
    if |second| == 0 {
      assert first + second == first;
    } else {
      var front := second[..|second| - 1];
      RunAppend(w, first, front);
      assert (first + second)[..|first + second| - 1] == first + front;
    }
  }

  lemma RunLast(w: World, steps: seq<Step>, step: Step)
    ensures Run(w, steps + [step]) == Apply(Run(w, steps), step)
  {
    assert (steps + [step])[..|steps|] == steps;
  }

  lemma RunFour(w: World, s: seq<Step>)
    requires |s| == 4
    ensures Run(w, s) == Apply(Apply(Apply(Apply(w, s[0]), s[1]), s[2]), s[3])
  {
    assert s[..3][..2] == s[..2] && s[..2][..1] == s[..1] && s[..1][..0] == [];
    assert Run(w, s[..1]) == Apply(w, s[0]);
    assert Run(w, s[..2]) == Apply(Run(w, s[..1]), s[1]);
    assert Run(w, s[..3]) == Apply(Run(w, s[..2]), s[2]);
  }

  ghost predicate AtRest(w: World, minted: nat) {
    && w.shared.auth.generation.Stable? && w.shared.auth.mutation.None?
    && w.shared.auth.generation.id in w.shared.settled
    && forall k :: k in w.shared.used ==> k < minted
  }

  function Marked(s: Shared, c: Choice): Shared {
    s.(used := s.used + {c.minted, c.next})
  }

  lemma QuietStateRead(w: World, pid: nat, goal: Goal, c: Choice)
    requires AtRest(w, c.minted) && c.next == c.minted + 1 && !c.fails
    requires pid in w.processes && w.processes[pid] == Reading(goal, false)
    ensures
      var (s', p') := StateRead(w.shared, goal, false);
      Apply(w, Act(pid, c)) == World(Marked(s', c), w.processes[pid := p'])
  {
    assert w.shared.(auth := w.shared.auth) == w.shared;
  }

  lemma QuietList(w: World, pid: nat, n: nat, g: nat, c: Choice)
    requires AtRest(w, c.minted) && c.next == c.minted + 1 && !c.fails
    requires pid in w.processes && w.processes[pid] == Listing(n, g)
    ensures
      var p' := Reading(After(n, g, List(w.shared.repo), w.shared.repo.active), false);
      Apply(w, Act(pid, c)) == World(Marked(w.shared, c), w.processes[pid := p'])
  {
  }

  /** A read that nothing disturbs returns the current generation with the listed collection. */
  lemma ReadOnce(w: World, pid: nat, minted: nat)
    requires pid !in w.processes && AtRest(w, minted)
    ensures
      var w' := Run(w, OneRead(pid, minted));
      && AtRest(w', minted + 6) && w'.processes.Keys == w.processes.Keys + {pid}
      && w'.shared.auth == w.shared.auth && w'.shared.repo == w.shared.repo
      && w'.shared.snapshots == w.shared.snapshots
           + {Snapshot(w.shared.auth.generation.id, w.shared.repo.active, List(w.shared.repo))}
  {
    hide Run;
    var read := OneRead(pid, minted);
    RunFour(w, read);
    var g := w.shared.auth.generation.id;
    var w1 := Apply(w, read[0]);
    QuietStateRead(w1, pid, Before(0), Plain(minted, minted + 1));
    var w2 := Apply(w1, read[1]);
    QuietList(w2, pid, 0, g, Plain(minted + 2, minted + 3));
    var w3 := Apply(w2, read[2]);
    QuietStateRead(w3, pid, After(0, g, List(w.shared.repo), w.shared.repo.active), Plain(minted + 4, minted + 5));
  }

  /** At rest, every write still in flight is refused, whenever it arrives. */
  lemma WritesInFlightAreRefusedAtRest(
    stored: Collection, floor: Revision, leaseMs: nat, steps: seq<Step>, id: nat)
    requires
      var s := Run(Initial(stored, floor, leaseMs), steps).shared;
      s.auth.generation.Stable? && id in s.writes
    ensures
      var s := Run(Initial(stored, floor, leaseMs), steps).shared;
      ReplaceAll(s.repo, s.writes[id]) == s.repo
  {
    Reachable(stored, floor, leaseMs, steps);
    var s := Run(Initial(stored, floor, leaseMs), steps).shared;
    assert Guarded(s, s.writes[id].token, s.writes[id].fence);
    DeadWritesAreRefused(s.repo, s.writes[id]);
  }

  /** The stored collection changes only while a mutation is pending. */
  lemma CollectionIsStableAtRest(
    stored: Collection, floor: Revision, leaseMs: nat, steps: seq<Step>, step: Step)
    requires Run(Initial(stored, floor, leaseMs), steps).shared.auth.generation.Stable?
    ensures
      var w := Run(Initial(stored, floor, leaseMs), steps);
      Apply(w, step).shared.repo.stored == w.shared.repo.stored
  {
    hide SharedOk, ProcessOk, Exclusive, Run;
    var w := Run(Initial(stored, floor, leaseMs), steps);
    if step.Land? && step.id in w.shared.writes {
      WritesInFlightAreRefusedAtRest(stored, floor, leaseMs, steps, step.id);
    }
  }

  /** A recovery makes the generation stable again only after its fence has reached the floor. */
  lemma RecoveryReachesTheFloor(
    stored: Collection, floor: Revision, leaseMs: nat, steps: seq<Step>, step: Step)
    requires
      var w := Run(Initial(stored, floor, leaseMs), steps);
      && w.shared.auth.mutation.Some? && w.shared.auth.mutation.value.phase == Phase.Recovering
      && Apply(w, step).shared.auth.generation.Stable?
    ensures
      var w := Run(Initial(stored, floor, leaseMs), steps);
      var after := Apply(w, step).shared.repo;
      !after.active || Value(w.shared.auth.mutation.value.fence) <= Value(after.floor)
  {
    hide Run, Guarded, Exclusive, Issued, Holds, GoalOk, ProcessStep, RecoveryStep, StateRead;
    Reachable(stored, floor, leaseMs, steps);
    var w := Run(Initial(stored, floor, leaseMs), steps);
    OnlyAProcessSettles(w, step);
    var p := w.processes[step.pid];
    assert ProcessOk(w.shared, p);
    OnlyARecoverySettles(w.shared, step.pid, p, step.choice);
    RecoveryEndsBySameFence(w.shared, p.recovery, step.choice);
  }

  ghost predicate BeingRecovered(s: Shared) {
    WellFormed(s.auth) && s.auth.mutation.Some? && s.auth.mutation.value.phase == Phase.Recovering
  }

  lemma OnlyAProcessSettles(w: World, step: Step)
    requires BeingRecovered(w.shared) && Apply(w, step).shared.auth.generation.Stable?
    ensures step.Act? && step.pid in w.processes
    ensures ProcessStep(w.shared, step.pid, w.processes[step.pid], step.choice).0.auth.generation.Stable?
    ensures Apply(w, step).shared.repo == ProcessStep(w.shared, step.pid, w.processes[step.pid], step.choice).0.repo
  {
    hide ProcessStep;
  }

  lemma OnlyARecoverySettles(s: Shared, pid: nat, p: Process, c: Choice)
    requires BeingRecovered(s) && ProcessStep(s, pid, p, c).0.auth.generation.Stable?
    ensures (p.Helping? || p.MutHelp?) && RecoveryStep(s, p.recovery, c).0.auth.generation.Stable?
    ensures ProcessStep(s, pid, p, c).0.repo == RecoveryStep(s, p.recovery, c).0.repo
  {
    hide RecoveryStep;
  }

  lemma RecoveryEndsBySameFence(s: Shared, r: Recovery, c: Choice)
    requires BeingRecovered(s) && RecoveryStep(s, r, c).0.auth.generation.Stable?
    ensures r.Completing? && r.fence == s.auth.mutation.value.fence && RecoveryStep(s, r, c).0.repo == s.repo
  {
  }
}
