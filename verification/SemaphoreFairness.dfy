// Fairness of the admission queue over whole runs: first come first served within a key, bounded
// overtaking between keys.
module SemaphoreFairness {
  import opened Outcomes
  import opened Sequences
  import opened SemaphoreModel
  import opened SemaphoreSafety
  import opened SemaphoreLedger

  /** One operation, and the waiters whose signal has fired by then. */
  datatype Turn = Turn(op: Op, aborted: set<nat>)

  function Run(limits: Limits, turns: seq<Turn>): Semaphore {
    if |turns| == 0 then Initial(limits)
    else
      var last := turns[|turns| - 1];
      Apply(Run(limits, turns[..|turns| - 1]), last.op, last.aborted)
  }

  lemma ApplyKeepsLimits(s: Semaphore, op: Op, aborted: set<nat>)
    ensures Apply(s, op, aborted).limits == s.limits
  {
    match op
    case DoAcquire(key, alreadyAborted) =>
      var g, s1 := GroupOf(s, key), s.(calls := s.calls + [key]);
      DrainKeepsLimits(EnqueueGroup(Pushed(s1, |s.calls|, key), key), aborted);
    case DoAbort(ticket, key) =>
    case DoRelease(ticket) =>
      if ticket in s.handles && s.active > 0 && GroupOf(s, s.handles[ticket]).active > 0 {
        var key := s.handles[ticket];
        DrainKeepsLimits(DeleteGroupIfIdle(Freed(s, ticket, key), key), aborted);
      }
  }

  lemma {:induction false} DrainKeepsLimits(s: Semaphore, aborted: set<nat>)
    ensures DrainQueue(s, aborted).limits == s.limits
    decreases s.limits.maxConcurrent - s.active
  {
    if s.active < s.limits.maxConcurrent {
      NextKeepsSlots(s, aborted, |s.queue|);
      var (found, entry) := NextQueuedEntry(s, aborted, |s.queue|);
      if entry.Some? {
        DrainKeepsLimits(Grant(found, entry.value.ticket, entry.value.key), aborted);
      }
    }
  }

  /** Counts, caps, rotation, key map and work conservation hold after every operation of every run. */
  lemma {:induction false} RunIsValid(limits: Limits, turns: seq<Turn>)
    requires limits.maxConcurrentPerKey > 0
    ensures Valid(Run(limits, turns)) && Run(limits, turns).limits == limits
  {
    if |turns| == 0 {
      var s := Initial(limits);
      assert Actives(s.groups) == map[] && Waiters(s.groups) == map[];
      assert forall k :: HandlesOf(s, k) == {};
    } else {
      var before, last := Run(limits, turns[..|turns| - 1]), turns[|turns| - 1];
      RunIsValid(limits, turns[..|turns| - 1]);
      ApplyKeepsLimits(before, last.op, last.aborted);
      ApplyValid(before, last.op, last.aborted);
    }
  }

  lemma ApplyValid(s: Semaphore, op: Op, aborted: set<nat>)
    requires Valid(s) && s.limits.maxConcurrentPerKey > 0
    ensures Valid(Apply(s, op, aborted))
  {
    hide Valid, Acquire, Abort, Release;
    match op
    case DoAcquire(key, alreadyAborted) => AcquireValid(s, key, alreadyAborted, aborted);
    case DoAbort(ticket, key) => AbortValid(s, ticket, key);
    case DoRelease(ticket) => ReleaseValid(s, ticket, aborted);
  }

  // ---------------------------------------------------------------- who is ahead

  /** The keys ahead of `k` in the rotation. */
  function Before(queue: seq<Key>, k: Key): seq<Key> {
    if |queue| == 0 || queue[0] == k then [] else [queue[0]] + Before(queue[1..], k)
  }

  lemma {:induction false} BeforeIsInQueue(queue: seq<Key>, k: Key)
    ensures forall j :: j in Before(queue, k) ==> j in queue && j != k
    ensures |Before(queue, k)| <= |queue| && (k in queue ==> |Before(queue, k)| < |queue|)
  {
    if |queue| > 0 && queue[0] != k {
      BeforeIsInQueue(queue[1..], k);
    }
  }

  lemma {:induction false} BeforeIgnoresTheBack(queue: seq<Key>, more: seq<Key>, k: Key)
    requires k in queue
    ensures Before(queue + more, k) == Before(queue, k)
  {
    if queue[0] != k {
      assert (queue + more)[1..] == queue[1..] + more;
      BeforeIgnoresTheBack(queue[1..], more, k);
    }
  }

  lemma {:induction false} BeforeShrinks(queue: seq<Key>, gone: Key, k: Key)
    requires gone != k
    ensures forall j :: j in Before(Without(queue, gone), k) ==> j in Before(queue, k)
  {
    if |queue| > 0 && queue[0] != k && queue[0] != gone {
      BeforeShrinks(queue[1..], gone, k);
    }
  }

  /** `k` has waiters and may take a slot as soon as one is free. */
  ghost predicate WaitsBelowCap(s: Semaphore, k: Key) {
    k in s.queue && GroupOf(s, k).active < s.limits.maxConcurrentPerKey
  }

  // ---------------------------------------------------------------- one search

  /** The key at the head of the rotation is the only one a visit touches. */
  lemma VisitShape(s: Semaphore, aborted: set<nat>)
    requires Sound(s, None, None) && |s.queue| > 0
    ensures
      var (s', entry) := VisitGroup(s, aborted);
      && (s'.queue == s.queue[1..] || s'.queue == s.queue[1..] + [s.queue[0]])
      && s'.limits == s.limits
      && (forall k :: k != s.queue[0] ==> GroupOf(s', k) == GroupOf(s, k))
      && (entry.Some? ==> entry.value.key == s.queue[0])
      && (entry.None? && GroupOf(s, s.queue[0]).active < s.limits.maxConcurrentPerKey ==> s'.queue == s.queue[1..])
  {
    hide Counted, HandlesMatch, EntriesOk, WithinCaps, NoneIdle, Listed, InTransit, TakeEntry, EnqueueGroup,
        DeleteGroupIfIdle;
    var key, popped := s.queue[0], Dequeue(s);
    DequeueSound(s);
    if GroupOf(popped, key).active >= s.limits.maxConcurrentPerKey {
      EnqueueShape(popped, key);
    } else {
      ServeSound(popped, key, aborted);
      var (taken, entry) := TakeEntry(popped, key, aborted);
      TakeShape(popped, key, aborted);
      EnqueueShape(taken, key);
      DeleteShape(EnqueueGroup(taken, key), key);
    }
  }

  lemma EnqueueShape(s: Semaphore, key: Key)
    ensures
      var s' := EnqueueGroup(s, key);
      && (s'.queue == s.queue || s'.queue == s.queue + [key]) && s'.limits == s.limits
      && forall k :: k != key ==> GroupOf(s', k) == GroupOf(s, k)
  {
  }

  lemma TakeShape(s: Semaphore, key: Key, aborted: set<nat>)
    ensures
      var s' := TakeEntry(s, key, aborted).0;
      && s'.queue == s.queue && s'.limits == s.limits
      && forall k :: k != key ==> GroupOf(s', k) == GroupOf(s, k)
  {
  }

  lemma DeleteShape(s: Semaphore, key: Key)
    ensures
      var s' := DeleteGroupIfIdle(s, key);
      && s'.limits == s.limits && forall k :: k != key ==> GroupOf(s', k) == GroupOf(s, k)
  {
  }

  /** The search passes or empties the keys ahead of `k` until it serves one of them, or reaches `k`. */
  ghost predicate Overtaken(s: Semaphore, s': Semaphore, k: Key, winner: Key) {
    && winner in Before(s.queue, k) && k in s'.queue && GroupOf(s', k) == GroupOf(s, k)
    && winner !in Before(s'.queue, k)
    && forall j :: j in Before(s'.queue, k) ==> j in Before(s.queue, k)
  }

  lemma {:induction false} SearchStopsInTime(s: Semaphore, aborted: set<nat>, remaining: nat, k: Key)
    requires Sound(s, None, None) && TailAtCap(s, remaining) && WaitsBelowCap(s, k)
    ensures
      var (s', entry) := NextQueuedEntry(s, aborted, remaining);
      k !in s'.queue || (entry.Some? && (entry.value.key == k || Overtaken(s, s', k, entry.value.key)))
    decreases remaining
  {
    hide Sound, VisitGroup;
    assert remaining > 0;
    var (visited, entry) := VisitGroup(s, aborted);
    var head := s.queue[0];
    VisitShape(s, aborted);
    VisitSound(s, aborted, remaining);
    if head == k {
      if entry.None? {
        HeadIsUnique(s);
        assert k !in visited.queue;
        SearchAddsNoKey(visited, aborted, remaining - 1);
      }
    } else {
      HeadIsUnique(s);
      assert k in s.queue[1..];
      BeforeIgnoresTheBack(s.queue[1..], [head], k);
      BeforeIsInQueue(s.queue[1..], k);
      assert Before(visited.queue, k) == Before(s.queue[1..], k);
      if entry.None? {
        SearchStopsInTime(visited, aborted, remaining - 1, k);
      }
    }
  }

  /** Every waiter of `k` was canceled, and nothing else was logged about it. */
  ghost predicate Emptied(s: Semaphore, s': Semaphore, k: Key) {
    && k !in s'.queue
    && forall i :: 0 <= i < |GroupOf(s, k).entries| ==>
         Settled(s, s', Canceled(GroupOf(s, k).entries[i].ticket, k))
  }

  /** The search serves `k` or a key ahead of it, or has found that every waiter of `k` is canceled. */
  lemma SearchServesInTurn(s: Semaphore, aborted: set<nat>, remaining: nat, k: Key)
    requires Sound(s, None, None) && TailAtCap(s, remaining) && WaitsBelowCap(s, k)
    ensures
      var (s', entry) := NextQueuedEntry(s, aborted, remaining);
      || (entry.Some? && (entry.value.key == k || Overtaken(s, s', k, entry.value.key)))
      || Emptied(s, s', k)
  {
    hide Counted, HandlesMatch, WithinCaps, NoneIdle, NextQueuedEntry, Of, Overtaken, EntriesOk;
    var (s', entry) := NextQueuedEntry(s, aborted, remaining);
    SearchStopsInTime(s, aborted, remaining, k);
    NextSound(s, aborted, remaining);
    if k !in s'.queue && !(entry.Some? && entry.value.key == k) {
      EntriesAreInOrder(s, k);
      forall i | 0 <= i < |s.groups[k].entries|
        ensures Settled(s, s', Canceled(s.groups[k].entries[i].ticket, k))
      {
        SearchMoves(s, aborted, remaining, s.groups[k].entries[i].ticket);
        assert s.groups[k].entries[i] == Entry(s.groups[k].entries[i].ticket, k);
      }
    }
  }

  lemma HeadIsUnique(s: Semaphore)
    requires Sound(s, None, None) && |s.queue| > 0
    ensures s.queue[0] !in s.queue[1..]
  {
  }

  lemma {:induction false} SearchAddsNoKey(s: Semaphore, aborted: set<nat>, remaining: nat)
    requires Sound(s, None, None) && TailAtCap(s, remaining)
    ensures forall k :: k in NextQueuedEntry(s, aborted, remaining).0.queue ==> k in s.queue
    decreases remaining
  {
    hide Sound, VisitGroup;
    if remaining > 0 && |s.queue| > 0 {
      VisitShape(s, aborted);
      VisitSound(s, aborted, remaining);
      if VisitGroup(s, aborted).1.None? {
        SearchAddsNoKey(VisitGroup(s, aborted).0, aborted, remaining - 1);
      }
    }
  }

  // ---------------------------------------------------------------- one operation

  /** The keys that got a slot, in order. */
  function Winners(events: seq<Event>): seq<Key> {
    if |events| == 0 then []
    else (if events[0].Granted? then [events[0].key] else []) + Winners(events[1..])
  }

  lemma {:induction false} WinnersAppend(a: seq<Event>, b: seq<Event>)
    ensures Winners(a + b) == Winners(a) + Winners(b)
  {
    if |a| > 0 {
      assert (a + b)[1..] == a[1..] + b;
      WinnersAppend(a[1..], b);
    } else {
      assert a + b == b;
    }
  }

  lemma {:induction false} CanceledWinNothing(entries: seq<Entry>)
    ensures Winners(CanceledEvents(entries)) == []
  {
    if |entries| > 0 {
      assert CanceledEvents(entries)[1..] == CanceledEvents(entries[1..]);
      CanceledWinNothing(entries[1..]);
    }
  }

  /** The log only grows, and `won` are the keys granted since. */
  ghost predicate Won(s: Semaphore, s': Semaphore, won: seq<Key>) {
    |s.log| <= |s'.log| && s'.log[..|s.log|] == s.log && Winners(s'.log[|s.log|..]) == won
  }

  lemma WonTransitive(a: Semaphore, b: Semaphore, c: Semaphore, x: seq<Key>, y: seq<Key>)
    requires Won(a, b, x) && Won(b, c, y)
    ensures Won(a, c, x + y)
  {
    WinnersAppend(b.log[|a.log|..], c.log[|b.log|..]);
    assert c.log[|a.log|..] == b.log[|a.log|..] + c.log[|b.log|..];
  }

  /** A search settles canceled waiters and grants nothing itself. */
  lemma {:induction false} SearchGrantsNothing(s: Semaphore, aborted: set<nat>, remaining: nat)
    ensures Won(s, NextQueuedEntry(s, aborted, remaining).0, [])
    decreases remaining
  {
    if remaining > 0 && |s.queue| > 0 {
      var (visited, entry) := VisitGroup(s, aborted);
      VisitGrantsNothing(s, aborted);
      if entry.None? {
        SearchGrantsNothing(visited, aborted, remaining - 1);
        WonTransitive(s, visited, NextQueuedEntry(visited, aborted, remaining - 1).0, [], []);
      }
    }
  }

  lemma VisitGrantsNothing(s: Semaphore, aborted: set<nat>)
    requires |s.queue| > 0
    ensures Won(s, VisitGroup(s, aborted).0, [])
  {
    var key, popped := s.queue[0], Dequeue(s);
    if GroupOf(popped, key).active < s.limits.maxConcurrentPerKey {
      var g := GroupOf(popped, key);
      CanceledWinNothing(g.entries[..LeadingCanceled(g.entries, aborted)]);
    }
  }

  /** One slot became free: it goes to `k`, to a key ahead of `k`, or `k` is gone without a slot. */
  lemma DrainServesInTurn(s: Semaphore, aborted: set<nat>, k: Key)
    requires Sound(s, None, None) && WaitsBelowCap(s, k) && s.active == s.limits.maxConcurrent - 1
    ensures Turned(s, DrainQueue(s, aborted), k)
  {
    hide Sound, NextQueuedEntry, GroupOf, Before;
    var (found, entry) := NextQueuedEntry(s, aborted, |s.queue|);
    NextKeepsSlots(s, aborted, |s.queue|);
    SearchStopsInTime(s, aborted, |s.queue|, k);
    SearchGrantsNothing(s, aborted, |s.queue|);
    if entry.Some? {
      var granted := Grant(found, entry.value.ticket, entry.value.key);
      assert DrainQueue(s, aborted) == granted;
      assert granted.log[|found.log|..] == [Granted(entry.value.ticket, entry.value.key)];
      assert Winners(granted.log[|found.log|..]) == [entry.value.key];
      WonTransitive(s, found, granted, [], [entry.value.key]);
      if k in found.queue && entry.value.key != k {
        GrantLeavesOthers(found, entry.value.ticket, entry.value.key, k);
      }
    }
  }

  lemma GrantLeavesOthers(s: Semaphore, ticket: nat, key: Key, k: Key)
    requires k != key
    ensures GroupOf(Grant(s, ticket, key), k) == GroupOf(s, k)
  {
  }

  /** `k` has no waiters left, and got no slot. */
  ghost predicate Gone(s: Semaphore, s': Semaphore, k: Key) {
    && k !in s'.queue && |s.log| <= |s'.log| && s'.log[..|s.log|] == s.log
    && k !in Winners(s'.log[|s.log|..])
  }

  /** Every key ahead of `k` was ahead of it before. */
  ghost predicate NobodyPasses(s: Semaphore, s': Semaphore, k: Key) {
    forall j :: j in Before(s'.queue, k) ==> j in Before(s.queue, k)
  }

  ghost predicate Turned(s: Semaphore, s': Semaphore, k: Key) {
    || Won(s, s', [k])
    || Gone(s, s', k)
    || (WaitsBelowCap(s', k) && Won(s, s', []) && NobodyPasses(s, s', k))
    || Passed(s, s', k)
  }

  ghost predicate Passed(s: Semaphore, s': Semaphore, k: Key) {
    && WaitsBelowCap(s', k)
    && (exists j :: j in Before(s.queue, k) && j !in Before(s'.queue, k) && Won(s, s', [j]))
    && NobodyPasses(s, s', k)
  }

  lemma FullWhileSomebodyWaits(s: Semaphore, k: Key)
    requires Valid(s) && WaitsBelowCap(s, k)
    ensures s.active == s.limits.maxConcurrent
  {
  }

  lemma AcquireOutcome(s: Semaphore, key: Key, alreadyAborted: bool, aborted: set<nat>, k: Key)
    requires Valid(s) && WaitsBelowCap(s, k)
    ensures Turned(s, Acquire(s, key, alreadyAborted, aborted).0, k)
  {
    hide Sound;
    FullWhileSomebodyWaits(s, k);
    BeforeIgnoresTheBack(s.queue, [key], k);
    var s' := Acquire(s, key, alreadyAborted, aborted).0;
    assert s'.log == s.log;
    assert s'.log[|s.log|..] == [];
  }

  lemma AbortOutcome(s: Semaphore, ticket: nat, key: Key, k: Key)
    requires Valid(s) && WaitsBelowCap(s, k)
    ensures Turned(s, Abort(s, ticket, key), k)
  {
    hide Sound;
    var s' := Abort(s, ticket, key);
    if s' != s {
      assert s'.log == s.log + [Canceled(ticket, key)];
      assert s'.log[|s.log|..] == [Canceled(ticket, key)];
      assert Winners([Canceled(ticket, key)]) == Winners([]);
      if key == k {
        LastWaiterLeaves(s, ticket, key);
      } else {
        OthersKeepTheirTurn(s, ticket, key, k);
      }
    } else {
      assert s.log[|s.log|..] == [];
    }
  }

  lemma LastWaiterLeaves(s: Semaphore, ticket: nat, key: Key)
    requires Valid(s)
    ensures
      var s' := Abort(s, ticket, key);
      && s'.limits == s.limits
      && (key !in s'.queue || (s'.queue == s.queue && GroupOf(s', key).active == GroupOf(s, key).active))
  {
    hide Counted, HandlesMatch, EntriesOk, WithinCaps, NoneIdle;
    WithoutRemoves(s.queue, key);
  }

  lemma OthersKeepTheirTurn(s: Semaphore, ticket: nat, key: Key, k: Key)
    requires Valid(s) && k != key && k in s.queue
    ensures
      var s' := Abort(s, ticket, key);
      && k in s'.queue && GroupOf(s', k) == GroupOf(s, k)
      && forall j :: j in Before(s'.queue, k) ==> j in Before(s.queue, k)
  {
    hide Counted, HandlesMatch, EntriesOk, WithinCaps, NoneIdle;
    WithoutRemoves(s.queue, key);
    BeforeShrinks(s.queue, key, k);
  }

  lemma ReleaseOutcome(s: Semaphore, ticket: nat, aborted: set<nat>, k: Key)
    requires Valid(s) && WaitsBelowCap(s, k)
    ensures Turned(s, Release(s, ticket, aborted), k)
  {
    hide Sound, DrainQueue, DeleteGroupIfIdle;
    if ticket in s.handles && s.active > 0 && GroupOf(s, s.handles[ticket]).active > 0 {
      FullWhileSomebodyWaits(s, k);
      var key := s.handles[ticket];
      var ready := DeleteGroupIfIdle(Freed(s, ticket, key), key);
      FreedSound(s, ticket, key);
      DeleteIdleSound(Freed(s, ticket, key), key);
      ReleaseKeepsTheRotation(s, ticket, key, k);
      DrainServesInTurn(ready, aborted, k);
      assert s.log == ready.log && s.queue == ready.queue;
    } else {
      assert s.log[|s.log|..] == [];
    }
  }

  lemma ReleaseKeepsTheRotation(s: Semaphore, ticket: nat, key: Key, k: Key)
    requires Valid(s) && WaitsBelowCap(s, k) && ticket in s.handles && s.handles[ticket] == key
    requires s.active > 0 && GroupOf(s, key).active > 0
    ensures
      var ready := DeleteGroupIfIdle(Freed(s, ticket, key), key);
      && ready.queue == s.queue && ready.log == s.log && ready.limits == s.limits && ready.active == s.active - 1
      && WaitsBelowCap(ready, k)
  {
    hide Counted, HandlesMatch, EntriesOk, WithinCaps, NoneIdle;
  }

  lemma {:induction false} WinnersAreLogged(events: seq<Event>, ticket: nat, k: Key)
    requires Granted(ticket, k) in events
    ensures k in Winners(events)
  {
    if events[0] != Granted(ticket, k) {
      WinnersAreLogged(events[1..], ticket, k);
    }
  }

  /** What one operation may do to a key that waits below its cap: serve it, lose it because every one of
      its waiters is canceled, or let at most one of the keys ahead of it pass, once. */
  ghost predicate Outcome(s: Semaphore, s': Semaphore, k: Key) {
    || Won(s, s', [k])
    || Emptied(s, s', k)
    || (WaitsBelowCap(s', k) && Won(s, s', []) && NobodyPasses(s, s', k))
    || Passed(s, s', k)
  }

  lemma SuffixIs(a: seq<Event>, b: seq<Event>, e: Event)
    requires a + b == a + [e]
    ensures e in b
  {
    assert (a + b)[|a|..] == b && (a + [e])[|a|..] == [e];
  }

  lemma GoneIsCanceled(s: Semaphore, op: Op, aborted: set<nat>, k: Key, t: nat)
    requires Valid(s) && s.limits.maxConcurrentPerKey > 0 && k in s.groups && Entry(t, k) in s.groups[k].entries
    requires Gone(s, Apply(s, op, aborted), k)
    ensures Settled(s, Apply(s, op, aborted), Canceled(t, k))
  {
    hide Counted, HandlesMatch, WithinCaps, NoneIdle, Apply, EntriesOk, Of, Winners;
    var s' := Apply(s, op, aborted);
    EntriesAreInOrder(s, k);
    NoCallIsLost(s, op, aborted, t);
    ApplyValid(s, op, aborted);
    ApplyKeepsCalls(s, op, aborted);
    assert !Waits(s', t);
    OfAppend(s.log, s'.log[|s.log|..], t);
    assert s'.log == s.log + s'.log[|s.log|..];
    if Settled(s, s', Granted(t, k)) {
      SuffixIs(Of(s.log, t), Of(s'.log[|s.log|..], t), Granted(t, k));
      assert Granted(t, k) in Of(s'.log[|s.log|..], t);
      OfIsLogged(s'.log[|s.log|..], t, Granted(t, k));
      WinnersAreLogged(s'.log[|s.log|..], t, k);
      assert false;
    }
  }

  lemma StepOutcome(s: Semaphore, op: Op, aborted: set<nat>, k: Key)
    requires Valid(s) && s.limits.maxConcurrentPerKey > 0 && WaitsBelowCap(s, k)
    ensures Outcome(s, Apply(s, op, aborted), k)
  {
    hide Counted, HandlesMatch, WithinCaps, NoneIdle, Acquire, Abort, Release, Passed, Won, NobodyPasses, Settled;
    match op {
      case DoAcquire(key, alreadyAborted) => AcquireOutcome(s, key, alreadyAborted, aborted, k);
      case DoAbort(ticket, key) => AbortOutcome(s, ticket, key, k);
      case DoRelease(ticket) => ReleaseOutcome(s, ticket, aborted, k);
    }
    if Gone(s, Apply(s, op, aborted), k) {
      EntriesAreInOrder(s, k);
      forall i | 0 <= i < |s.groups[k].entries|
        ensures Settled(s, Apply(s, op, aborted), Canceled(s.groups[k].entries[i].ticket, k))
      {
        assert s.groups[k].entries[i] == Entry(s.groups[k].entries[i].ticket, k);
        GoneIsCanceled(s, op, aborted, k, s.groups[k].entries[i].ticket);
      }
    }
  }

  // ---------------------------------------------------------------- bounded overtaking

  /** The slots handed to other keys while `k` waits: up to the turn that serves `k`, or that takes its
      last live waiter away. */
  function Overtakers(s: Semaphore, turns: seq<Turn>, k: Key): seq<Key>
    decreases |turns|
  {
    if |turns| == 0 then []
    else
      var s' := Apply(s, turns[0].op, turns[0].aborted);
      if k !in s'.queue || |s'.log| < |s.log| then []
      else
        var won := Winners(s'.log[|s.log|..]);
        if k in won then [] else won + Overtakers(s', turns[1..], k)
  }

  /** While a key waits below its cap, each other key receives at most one slot, and only the keys
      that were ahead of it in the rotation do: in particular no key that joins later. */
  lemma {:induction false} BoundedOvertaking(s: Semaphore, turns: seq<Turn>, k: Key)
    requires Valid(s) && s.limits.maxConcurrentPerKey > 0 && WaitsBelowCap(s, k)
    ensures NoRepeats(Overtakers(s, turns, k))
    ensures forall j :: j in Overtakers(s, turns, k) ==> j in Before(s.queue, k)
    ensures |Overtakers(s, turns, k)| <= |Before(s.queue, k)| < |s.queue|
    decreases |turns|
  {
    hide Valid, Apply, Before;
    if |turns| > 0 {
      var s' := Apply(s, turns[0].op, turns[0].aborted);
      StepOutcome(s, turns[0].op, turns[0].aborted, k);
      ApplyValid(s, turns[0].op, turns[0].aborted);
      ApplyKeepsLimits(s, turns[0].op, turns[0].aborted);
      if k in s'.queue && !Won(s, s', [k]) {
        BoundedOvertaking(s', turns[1..], k);
      }
    }
    BeforeIsInQueue(s.queue, k);
    Pigeonhole(Overtakers(s, turns, k), Before(s.queue, k));
  }

  lemma {:induction false} Pigeonhole(a: seq<Key>, b: seq<Key>)
    requires NoRepeats(a) && forall j :: j in a ==> j in b
    ensures |a| <= |b|
  {
    if |a| > 0 {
      assert a[0] in a && forall j :: j in a[1..] ==> j in a;
      var i :| 0 <= i < |b| && b[i] == a[0];
      var rest := b[..i] + b[i + 1..];
      forall j | j in a[1..] ensures j in rest {
        var l :| 0 <= l < |b| && b[l] == j;
        assert l != i;
        assert rest[if l < i then l else l - 1] == j;
      }
      Pigeonhole(a[1..], rest);
    }
  }

  /** A key queued below its cap stays so, unless it is served or every one of its waiters is canceled. */
  lemma KeepsWaitingBelowCap(s: Semaphore, op: Op, aborted: set<nat>, k: Key)
    requires Valid(s) && s.limits.maxConcurrentPerKey > 0 && WaitsBelowCap(s, k)
    ensures
      var s' := Apply(s, op, aborted);
      WaitsBelowCap(s', k) || Won(s, s', [k]) || Emptied(s, s', k)
  {
    StepOutcome(s, op, aborted, k);
  }

  function After(s: Semaphore, turns: seq<Turn>): Semaphore
    decreases |turns|
  {
    if |turns| == 0 then s else After(Apply(s, turns[0].op, turns[0].aborted), turns[1..])
  }

  /** The turn that serves a waiting key, or cancels all its waiters. */
  ghost predicate Ends(s: Semaphore, turn: Turn, k: Key) {
    var s' := Apply(s, turn.op, turn.aborted);
    WaitsBelowCap(s, k) && (Won(s, s', [k]) || Emptied(s, s', k))
  }

  /** Over any run, a key once queued below its cap still is, or some turn found it so and ended its wait. */
  lemma {:induction false} WaitsUntilServed(s: Semaphore, turns: seq<Turn>, k: Key)
    requires Valid(s) && s.limits.maxConcurrentPerKey > 0 && WaitsBelowCap(s, k)
    ensures WaitsBelowCap(After(s, turns), k)
            || exists i :: 0 <= i < |turns| && Ends(After(s, turns[..i]), turns[i], k)
    decreases |turns|
  {
    hide Valid, Apply, WaitsBelowCap, Won, Emptied;
    if |turns| > 0 {
      var op, aborted := turns[0].op, turns[0].aborted;
      var s' := Apply(s, op, aborted);
      KeepsWaitingBelowCap(s, op, aborted, k);
      assert After(s, turns[..0]) == s;
      if !Ends(s, turns[0], k) {
        ApplyValid(s, op, aborted);
        ApplyKeepsLimits(s, op, aborted);
        WaitsUntilServed(s', turns[1..], k);
        if i :| 0 <= i < |turns| - 1 && Ends(After(s', turns[1..][..i]), turns[1..][i], k) {
          assert turns[..i + 1][1..] == turns[1..][..i];
          assert Ends(After(s, turns[..i + 1]), turns[i + 1], k);
        }
      }
    }
  }
}
