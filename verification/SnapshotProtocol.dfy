// The provider-snapshot protocol for one profile: readers, mutators and recoverers run the
// drivers of lib/source-context.js one repository or authority call at a time, in any
// interleaving, and may crash between calls. A write already sent may land at any later time.
module SnapshotProtocol {
  import opened Outcomes
  import opened Revisions
  import opened SnapshotAuthority

  const MAX_ATTEMPTS: nat := 16

  /** What `providers.list` returns: the collection revision and its (abstract) descriptors. */
  datatype Collection = Collection(revision: nat, providers: nat)

  const EMPTY_COLLECTION := Collection(0, 0)

  /** One row of the providers repository. `floor` is its durable mutation fence. */
  datatype Repository = Repository(active: bool, floor: Revision, stored: Collection)

  /** A replaceAll on its way to the repository, sent under `fence` by process `sender`. */
  datatype Write = Write(sender: nat, token: Generation, fence: Revision, expected: nat, providers: nat)

  /** A snapshot handed to a caller; `live` tells whether the profile was active when it was listed. */
  datatype Snapshot = Snapshot(generation: nat, live: bool, collection: Collection)

  /** State every process shares. `used` and `settled` are history: the stable generations handed
      out so far, and the collection stored when each became current. */
  datatype Shared = Shared(
    auth: Authority,
    now: nat,
    leaseMs: nat,
    repo: Repository,
    writes: map<nat, Write>,
    used: set<nat>,
    settled: map<nat, Collection>,
    snapshots: set<Snapshot>)

  /** Program points of recoverProviderSnapshotMutation; `n` counts its loop. */
  datatype Recovery =
    | Probing
    | Allocating(n: nat, fence: Revision)
    | Beginning(n: nat, candidate: Revision, fence: Revision, inactive: bool)
    | Advancing(n: nat, token: Generation, fence: Revision)
    | Reallocating(n: nat, fence: Revision)
    | Superseding(n: nat, candidate: Revision, fence: Revision)
    | Completing(n: nat, token: Generation, fence: Revision, inactive: bool)
    | Checking(n: nat)
    | Reprobing(n: nat)
    | Finished(recovered: bool)
    | Thrown

  /** Why readProviderSnapshotState was called. */
  datatype Goal =
    | Before(n: nat)
    | After(n: nat, generation: nat, listed: Collection, live: bool)
    | Refresh

  /** Program points of readProviderCollectionSnapshot, runProviderSnapshotMutation and
      invalidateProviderSnapshot. */
  datatype Process =
    | Reading(goal: Goal, again: bool)
    | Helping(goal: Goal, recovery: Recovery)
    | Listing(n: nat, generation: nat)
    | Invalidating
    | MutBegin(n: nat)
    | MutHelp(n: nat, recovery: Recovery)
    | MutAllocate(token: Generation)
    | MutFence(token: Generation, fence: Revision)
    | MutOperate(token: Generation, fence: Revision)
    | MutWrite(token: Generation, fence: Revision, id: nat)
    | MutComplete(token: Generation, fence: Revision)
    | MutRelease(token: Generation)
    | Done

  datatype World = World(shared: Shared, processes: map<nat, Process>)

  /** What one step may choose freely: whether the call fails without effect, the fence the
      allocator returns, the generations the factory returns, and what a mutator writes. */
  datatype Choice = Choice(
    fails: bool, fence: Revision, seed: nat, minted: nat, next: nat,
    writes: bool, id: nat, expected: nat, providers: nat)

  datatype Step =
    | Tick(elapsed: nat)
    | Start(pid: nat, mutator: bool)
    | StartRefresh(pid: nat)
    | Act(pid: nat, choice: Choice)
    | Land(id: nat)
    | Reject(id: nat)
    | RenewLease(token: Generation, minted: nat)
    | Crash(pid: nat)
    | Deactivate

  // ---------------------------------------------------------------- repository

  /** providers.list: a profile that is not active has no collection. */
  function List(repo: Repository): Collection {
    Visible(repo.stored, repo.active)
  }

  function Visible(stored: Collection, live: bool): Collection {
    if live then stored else EMPTY_COLLECTION
  }

  /** providers.replaceAll: refused below the floor or at another revision, otherwise raises the floor. */
  function ReplaceAll(repo: Repository, w: Write): Repository {
    if !repo.active || Precedes(w.fence, repo.floor) || repo.stored.revision != w.expected then repo
    else Repository(true, w.fence, Collection(repo.stored.revision + 1, w.providers))
  }

  // ---------------------------------------------------------------- recovery

  function RecoveryLoop(n: nat, available: Available): Recovery {
    if n >= MAX_ATTEMPTS then Thrown
    else if available.phase == Fenced then Allocating(n, available.fence)
    else Advancing(n, available.token, available.fence)
  }

  function RecoveryStep(s: Shared, r: Recovery, c: Choice): (Shared, Recovery) {
    match r
    case Probing =>
      var found := Probe(s.auth, s.now);
      (s, if found.None? then Finished(false) else RecoveryLoop(0, found.value))
    case Allocating(n, fence) =>
      (s, if !s.repo.active then Beginning(n, "0", fence, true) else Beginning(n, c.fence, fence, false))
    case Beginning(n, candidate, fence, inactive) =>
      var (auth, result) := BeginRecovery(s.auth, candidate, Some(fence), s.now);
      (s.(auth := auth),
       if result.Err? then Thrown
       else if result.value.None? then Finished(false)
       else if inactive then Completing(n, result.value.value.token, result.value.value.fence, true)
       else Advancing(n, result.value.value.token, result.value.value.fence))
    case Advancing(n, token, fence) =>
      if !s.repo.active then (s, Completing(n, token, fence, true))
      else if Precedes(fence, s.repo.floor) then (s, Reallocating(n, fence))
      else (s.(repo := s.repo.(floor := fence)), Completing(n, token, fence, false))
    case Reallocating(n, fence) =>
      (s, if !s.repo.active then Thrown else Superseding(n, c.fence, fence))
    case Superseding(n, candidate, fence) =>
      var (auth, result) := BeginRecovery(s.auth, candidate, Some(fence), s.now);
      (s.(auth := auth),
       if result.Err? then Thrown
       else if result.value.None? then Finished(false)
       else if result.value.value.fence == fence then Thrown
       else RecoveryLoop(n + 1, Available(result.value.value.token, result.value.value.fence, Phase.Recovering)))
    case Completing(n, token, fence, inactive) =>
      var (auth, result) := CompleteRecovery(s.auth, token, fence, c.minted);
      (s.(auth := auth), if result.Ok? then Finished(true) else Checking(n))
    case Checking(n) =>
      var (auth, pending) := GetState(s.auth, s.now, c.minted);
      (s.(auth := auth), if pending then Reprobing(n) else Finished(true))
    case Reprobing(n) =>
      var found := Probe(s.auth, s.now);
      (s, if found.None? then Finished(false) else RecoveryLoop(n + 1, found.value))
    case Finished(_) => (s, r)
    case Thrown => (s, r)
  }

  // ---------------------------------------------------------------- drivers

  function RetryRead(n: nat): Process {
    if n + 1 < MAX_ATTEMPTS then Reading(Before(n + 1), false) else Done
  }

  /** What a driver does once readProviderSnapshotState has returned. */
  function StateRead(s: Shared, goal: Goal, pending: bool): (Shared, Process) {
    match goal
    case Before(n) =>
      (s, if pending || s.auth.generation.Pending? then RetryRead(n) else Listing(n, s.auth.generation.id))
    case After(n, generation, listed, live) =>
      if !pending && s.auth.generation == Stable(generation) then
        (s.(snapshots := s.snapshots + {Snapshot(generation, live, listed)}), Done)
      else (s, RetryRead(n))
    case Refresh => (s, Invalidating)
  }

  function ReaderStep(s: Shared, p: Process, c: Choice): (Shared, Process)
    requires p.Reading? || p.Helping? || p.Listing? || p.Invalidating?
  {
    if c.fails then (s, Done) else
    match p
    case Reading(goal, again) =>
      var (auth, pending) := GetState(s.auth, s.now, c.minted);
      var s' := s.(auth := auth);
      if pending && !again then (s', Helping(goal, Probing)) else StateRead(s', goal, pending)
    case Helping(goal, recovery) =>
      var (s', r) := RecoveryStep(s, recovery, c);
      if r.Finished? then (if r.recovered then (s', Reading(goal, true)) else StateRead(s', goal, true))
      else (s', if r.Thrown? then Done else Helping(goal, r))
    case Listing(n, generation) =>
      (s, Reading(After(n, generation, List(s.repo), s.repo.active), false))
    case Invalidating =>
      (s.(auth := Invalidate(s.auth, s.now, c.minted, c.next).0), Done)
  }

  function MutatorStep(s: Shared, pid: nat, p: Process, c: Choice): (Shared, Process)
    requires !(p.Reading? || p.Helping? || p.Listing? || p.Invalidating?)
  {
    match p
    case MutBegin(n) =>
      if c.fails then (s, Done) else
      var (auth, result) := Begin(s.auth, s.now, s.leaseMs, c.seed, c.minted);
      (s.(auth := auth), if result.Ok? then MutAllocate(result.value) else MutHelp(n, Probing))
    case MutHelp(n, recovery) =>
      if c.fails then (s, Done) else
      var (s', r) := RecoveryStep(s, recovery, c);
      (s', if r.Thrown? then Done
           else if !r.Finished? then MutHelp(n, r)
           else if n + 1 < MAX_ATTEMPTS then MutBegin(n + 1) else Done)
    case MutAllocate(token) =>
      (s, if c.fails || !s.repo.active then MutRelease(token) else MutFence(token, c.fence))
    case MutFence(token, fence) =>
      if c.fails then (s, MutRelease(token)) else
      var (auth, result) := Fence(s.auth, token, fence, s.now, c.minted);
      (s.(auth := auth), if result.Ok? then MutOperate(token, fence) else MutRelease(token))
    case MutOperate(token, fence) =>
      if c.writes && c.id !in s.writes then
        (s.(writes := s.writes[c.id := Write(pid, token, fence, c.expected, c.providers)]),
         MutWrite(token, fence, c.id))
      else (s, MutComplete(token, fence))
    case MutWrite(_, _, _) => (s, p)
    case MutComplete(token, _) =>
      (if c.fails then s else s.(auth := Complete(s.auth, token, c.minted).0), Done)
    case MutRelease(token) =>
      (if c.fails then s else s.(auth := Release(s.auth, token, s.now, c.minted).0), Done)
    case Done => (s, Done)
  }

  function ProcessStep(s: Shared, pid: nat, p: Process, c: Choice): (Shared, Process) {
    if p.Reading? || p.Helping? || p.Listing? || p.Invalidating? then ReaderStep(s, p, c)
    else MutatorStep(s, pid, p, c)
  }

  /** Records the collection stored when a stable generation becomes current. */
  function Settle(s: Shared, minted: set<nat>): Shared {
    var s' := s.(used := s.used + minted);
    match s.auth.generation
    case Stable(g) => if g in s.settled then s' else s'.(settled := s.settled[g := s.repo.stored])
    case Pending(_, _, _) => s'
  }

  /** The reply of a resolved write reaches its sender, if that process still waits for it. */
  function Reply(processes: map<nat, Process>, w: Write, id: nat): map<nat, Process> {
    if w.sender in processes && processes[w.sender] == MutWrite(w.token, w.fence, id) then
      processes[w.sender := MutOperate(w.token, w.fence)]
    else processes
  }

  predicate FreshChoice(s: Shared, c: Choice) {
    c.minted !in s.used && c.next !in s.used && c.minted != c.next
  }

  /** One step of the whole system; a step that is not enabled changes nothing. */
  function Apply(w: World, step: Step): World {
    var s := w.shared;
    match step
    case Tick(elapsed) => w.(shared := s.(now := s.now + elapsed))
    case Start(pid, mutator) =>
      if pid in w.processes then w
      else w.(processes := w.processes[pid := if mutator then MutBegin(0) else Reading(Before(0), false)])
    case StartRefresh(pid) =>
      if pid in w.processes then w else w.(processes := w.processes[pid := Reading(Refresh, false)])
    case Act(pid, c) =>
      if pid !in w.processes || !FreshChoice(s, c) then w
      else
        var (s', p') := ProcessStep(s, pid, w.processes[pid], c);
        World(Settle(s', {c.minted, c.next}), w.processes[pid := p'])
    case Land(id) =>
      if id !in s.writes then w
      else World(s.(repo := ReplaceAll(s.repo, s.writes[id]), writes := s.writes - {id}),
                 Reply(w.processes, s.writes[id], id))
    case Reject(id) =>
      if id !in s.writes then w
      else World(s.(writes := s.writes - {id}), Reply(w.processes, s.writes[id], id))
    case RenewLease(token, minted) =>
      if minted in s.used then w
      else w.(shared := Settle(s.(auth := Renew(s.auth, token, s.now, s.leaseMs, minted).0), {minted}))
    case Crash(pid) => w.(processes := w.processes - {pid})
    case Deactivate => w.(shared := s.(repo := s.repo.(active := false)))
  }

  function Run(w: World, steps: seq<Step>): World
    decreases |steps|
  {
    if |steps| == 0 then w else Apply(Run(w, steps[..|steps| - 1]), steps[|steps| - 1])
  }

  function Initial(stored: Collection, floor: Revision, leaseMs: nat): World {
    World(Shared(InitialAuthority, 0, leaseMs, Repository(true, floor, stored), map[],
                 {0}, map[0 := stored], {}),
          map[])
  }
}
