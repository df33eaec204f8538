// Accounting and work conservation of the admission queue, after every operation of every run.
module SemaphoreSafety {
  import opened Outcomes
  import opened MapSums
  import opened SemaphoreModel
  import opened Sequences

  // ---------------------------------------------------------------- invariant

  ghost function Actives(groups: map<Key, Group>): map<Key, nat> {
    map k | k in groups :: groups[k].active
  }

  ghost function Waiters(groups: map<Key, Group>): map<Key, nat> {
    map k | k in groups :: |groups[k].entries|
  }

  ghost function HandlesOf(s: Semaphore, key: Key): set<nat> {
    set t | t in s.handles && s.handles[t] == key
  }

  /** Global counts are the sums over the groups. */
  ghost predicate Counted(s: Semaphore) {
    s.active == Sum(Actives(s.groups)) && s.queued == Sum(Waiters(s.groups))
  }

  /** A group's slots are its unused release handles. */
  ghost predicate HandlesMatch(s: Semaphore) {
    forall k :: |HandlesOf(s, k)| == GroupOf(s, k).active
  }

  predicate WithinCaps(s: Semaphore) {
    && s.active <= s.limits.maxConcurrent
    && s.queued <= s.limits.maxQueued
    && forall k :: k in s.groups ==>
         && s.groups[k].active <= s.limits.maxConcurrentPerKey
         && |s.groups[k].entries| <= s.limits.maxQueuedPerKey
  }

  /** The rotation lists exactly the groups with waiters, once each; `out` is a group that has just
      been taken off it. */
  ghost predicate Listed(s: Semaphore, out: Option<Key>) {
    && NoRepeats(s.queue)
    && (forall k :: k in s.queue ==> k in s.groups)
    && (forall k :: k in s.groups ==> (s.groups[k].inQueue <==> k in s.queue))
    && (forall k :: k in s.groups && Some(k) != out ==> (k in s.queue <==> |s.groups[k].entries| > 0))
    && (out.Some? ==> out.value !in s.queue)
  }

  /** Idle groups are forgotten, except one that is being served. */
  ghost predicate NoneIdle(s: Semaphore, but: Option<Key>) {
    forall k :: k in s.groups && Some(k) != but ==> s.groups[k].active > 0 || |s.groups[k].entries| > 0
  }

  /** Waiters of a group are calls with its key, in the order they came, and hold no slot. */
  ghost predicate QueueOk(s: Semaphore, key: Key, entries: seq<Entry>) {
    && (forall i :: 0 <= i < |entries| ==>
          && entries[i].key == key && entries[i].ticket < |s.calls| && s.calls[entries[i].ticket] == key
          && entries[i].ticket !in s.handles)
    && (forall i, j :: 0 <= i < j < |entries| ==> entries[i].ticket < entries[j].ticket)
  }

  ghost predicate EntriesOk(s: Semaphore) {
    && (forall k :: k in s.groups ==> QueueOk(s, k, s.groups[k].entries))
    && (forall t :: t in s.handles ==> t < |s.calls| && s.calls[t] == s.handles[t])
  }

  /** Somebody waits only if the semaphore is full or the key is at its cap. */
  ghost predicate Conserving(s: Semaphore) {
    forall k :: k in s.groups && |s.groups[k].entries| > 0 ==>
      s.active == s.limits.maxConcurrent || s.groups[k].active == s.limits.maxConcurrentPerKey
  }

  ghost predicate Shaped(s: Semaphore, out: Option<Key>, idle: Option<Key>) {
    WithinCaps(s) && Listed(s, out) && NoneIdle(s, idle) && EntriesOk(s)
  }

  ghost predicate Sound(s: Semaphore, out: Option<Key>, idle: Option<Key>) {
    Counted(s) && HandlesMatch(s) && Shaped(s, out, idle)
  }

  ghost predicate Valid(s: Semaphore) {
    Sound(s, None, None) && Conserving(s)
  }

  // ---------------------------------------------------------------- one group changes

  function Held(groups: map<Key, Group>, key: Key): Group {
    if key in groups then groups[key] else NEW_GROUP
  }

  /** Replacing one group moves the sums by exactly the difference. */
  lemma ActivesFollow(groups: map<Key, Group>, key: Key, g: Group)
    ensures Sum(Actives(groups[key := g])) == Sum(Actives(groups)) - Held(groups, key).active + g.active
    ensures Held(groups, key).active <= Sum(Actives(groups))
  {
    SumUpdates(Actives(groups), key, g.active);
    assert Actives(groups[key := g]) == Actives(groups)[key := g.active];
  }

  lemma WaitersFollow(groups: map<Key, Group>, key: Key, g: Group)
    ensures Sum(Waiters(groups[key := g])) == Sum(Waiters(groups)) - |Held(groups, key).entries| + |g.entries|
    ensures |Held(groups, key).entries| <= Sum(Waiters(groups))
  {
    SumUpdates(Waiters(groups), key, |g.entries|);
    assert Waiters(groups[key := g]) == Waiters(groups)[key := |g.entries|];
  }

  /** Counting after one group and the two global counters changed together. */
  lemma CountedFollows(s: Semaphore, s': Semaphore, key: Key, g: Group)
    requires Counted(s) && s'.groups == s.groups[key := g]
    requires s'.active == s.active - GroupOf(s, key).active + g.active
    requires s'.queued == s.queued - |GroupOf(s, key).entries| + |g.entries|
    ensures Counted(s')
  {
    ActivesFollow(s.groups, key, g);
    WaitersFollow(s.groups, key, g);
  }

  lemma IdleGroupHoldsNoSlots(groups: map<Key, Group>, key: Key)
    requires Held(groups, key).active == 0
    ensures Sum(Actives(groups - {key})) == Sum(Actives(groups))
  {
    hide Sum;
    var actives := Actives(groups);
    assert At(actives, key) == 0;
    assert Actives(groups - {key}) == actives - {key};
    SumRemoves(actives, key);
  }

  lemma IdleGroupHoldsNoWaiters(groups: map<Key, Group>, key: Key)
    requires |Held(groups, key).entries| == 0
    ensures Sum(Waiters(groups - {key})) == Sum(Waiters(groups))
  {
    hide Sum;
    var waiters := Waiters(groups);
    assert At(waiters, key) == 0;
    assert Waiters(groups - {key}) == waiters - {key};
    SumRemoves(waiters, key);
  }

  lemma IdleGroupsDoNotCount(s: Semaphore, s': Semaphore, key: Key)
    requires Counted(s) && s' == s.(groups := s.groups - {key})
    requires GroupOf(s, key).active == 0 && |GroupOf(s, key).entries| == 0
    ensures Counted(s')
  {
    IdleGroupHoldsNoSlots(s.groups, key);
    IdleGroupHoldsNoWaiters(s.groups, key);
  }

  lemma HandlesUntouched(s: Semaphore, s': Semaphore)
    requires HandlesMatch(s) && s'.handles == s.handles
    requires forall k :: GroupOf(s', k).active == GroupOf(s, k).active
    ensures HandlesMatch(s')
  {
    assert forall k :: HandlesOf(s', k) == HandlesOf(s, k);
  }

  lemma EntriesUntouched(s: Semaphore, s': Semaphore)
    requires EntriesOk(s) && s'.handles == s.handles && s'.calls == s.calls
    requires forall k :: k in s'.groups ==> k in s.groups && s'.groups[k].entries == s.groups[k].entries
    ensures EntriesOk(s')
  {
    forall k | k in s'.groups ensures QueueOk(s', k, s'.groups[k].entries) {
      assert QueueOk(s, k, s.groups[k].entries);
    }
  }

  lemma {:induction false} WithoutRemoves(queue: seq<Key>, key: Key)
    requires NoRepeats(queue)
    ensures NoRepeats(Without(queue, key)) && key !in Without(queue, key)
    ensures forall k :: k != key ==> (k in Without(queue, key) <==> k in queue)
  {
    if |queue| > 0 && queue[0] != key {
      WithoutRemoves(queue[1..], key);
      var rest := Without(queue[1..], key);
      assert queue[0] !in queue[1..];
      assert queue[0] !in rest;
    }
  }

  lemma EnqueueSound(s: Semaphore, key: Key, idle: Option<Key>)
    requires Sound(s, Some(key), idle) && key in s.groups
    ensures Sound(EnqueueGroup(s, key), None, idle)
  {
    hide Counted, HandlesMatch, EntriesOk;
    var s' := EnqueueGroup(s, key);
    if s' != s {
      CountedFollows(s, s', key, s.groups[key].(inQueue := true));
      HandlesUntouched(s, s');
      EntriesUntouched(s, s');
      assert forall k :: k in s'.queue <==> k == key || k in s.queue;
    }
  }

  /** A group whose last waiter left is taken off the rotation. */
  lemma UnlistSound(s: Semaphore, key: Key)
    requires Counted(s) && HandlesMatch(s) && WithinCaps(s) && EntriesOk(s) && NoneIdle(s, Some(key))
    requires key in s.groups && |s.groups[key].entries| == 0 && s.groups[key].inQueue
    requires NoRepeats(s.queue) && (forall k :: k in s.queue ==> k in s.groups)
    requires forall k :: k in s.groups ==> (s.groups[k].inQueue <==> k in s.queue)
    requires forall k :: k in s.groups && k != key ==> (k in s.queue <==> |s.groups[k].entries| > 0)
    ensures Sound(RemoveGroupFromQueue(s, key), None, Some(key))
  {
    hide Counted, HandlesMatch, EntriesOk;
    var s' := RemoveGroupFromQueue(s, key);
    WithoutRemoves(s.queue, key);
    CountedFollows(s, s', key, s.groups[key].(inQueue := false));
    HandlesUntouched(s, s');
    EntriesUntouched(s, s');
  }

  lemma DeleteIdleSound(s: Semaphore, key: Key)
    requires Sound(s, None, Some(key))
    ensures Sound(DeleteGroupIfIdle(s, key), None, None)
  {
    hide Counted, HandlesMatch, EntriesOk;
    var g := GroupOf(s, key);
    if g.active == 0 && |g.entries| == 0 {
      var s' := DeleteGroupIfIdle(s, key);
      assert s' == s.(groups := s.groups - {key});
      IdleGroupsDoNotCount(s, s', key);
      HandlesUntouched(s, s');
      EntriesUntouched(s, s');
    }
  }

  lemma DequeueSound(s: Semaphore)
    requires Sound(s, None, None) && |s.queue| > 0
    ensures Sound(Dequeue(s), Some(s.queue[0]), None)
  {
    hide Counted, HandlesMatch, EntriesOk;
    var key, s' := s.queue[0], Dequeue(s);
    CountedFollows(s, s', key, s.groups[key].(inQueue := false));
    HandlesUntouched(s, s');
    EntriesUntouched(s, s');
    assert forall k :: k in s.queue <==> k == key || k in s.queue[1..];
  }

  /** A waiter that has left the queue and still has no slot: it came before all others of its key. */
  ghost predicate InTransit(s: Semaphore, e: Entry) {
    && e.ticket < |s.calls| && s.calls[e.ticket] == e.key && e.ticket !in s.handles
    && forall i :: 0 <= i < |GroupOf(s, e.key).entries| ==> e.ticket < GroupOf(s, e.key).entries[i].ticket
  }

  lemma QueuedCoversGroup(s: Semaphore, key: Key)
    requires Counted(s) && key in s.groups
    ensures s.queued >= |s.groups[key].entries|
  {
    WaitersFollow(s.groups, key, s.groups[key]);
  }

  lemma TakeSound(s: Semaphore, key: Key, aborted: set<nat>)
    requires Sound(s, Some(key), None) && key in s.groups
    ensures
      var (s', entry) := TakeEntry(s, key, aborted);
      && Sound(s', Some(key), Some(key))
      && key in s'.groups && s'.groups[key].active == s.groups[key].active
      && (entry.Some? ==> entry.value.key == key && InTransit(s', entry.value))
      && (entry.None? ==> |s'.groups[key].entries| == 0)
  {
    hide EntriesOk, HandlesMatch, Counted, Listed, NoneIdle, WithinCaps, InTransit;
    var g := s.groups[key];
    var n := LeadingCanceled(g.entries, aborted);
    var taken := if n < |g.entries| then n + 1 else n;
    var s' := TakeEntry(s, key, aborted).0;
    assert s.queued >= taken by {
      QueuedCoversGroup(s, key);
    }
    assert Counted(s') by {
      CountedFollows(s, s', key, g.(entries := g.entries[taken..]));
    }
    HandlesUntouched(s, s');
    EntriesFollow(s, s', key, taken);
    TakeStaysListed(s, s', key, taken);
  }

  lemma TakeStaysListed(s: Semaphore, s': Semaphore, key: Key, taken: nat)
    requires WithinCaps(s) && Listed(s, Some(key)) && NoneIdle(s, None)
    requires key in s.groups && taken <= |s.groups[key].entries| && taken <= s.queued
    requires s'.groups == s.groups[key := s.groups[key].(entries := s.groups[key].entries[taken..])]
    requires s'.queue == s.queue && s'.limits == s.limits && s'.active == s.active && s'.queued == s.queued - taken
    ensures WithinCaps(s') && Listed(s', Some(key)) && NoneIdle(s', Some(key))
  {
  }

  lemma EntriesFollow(s: Semaphore, s': Semaphore, key: Key, taken: nat)
    requires EntriesOk(s) && key in s.groups && taken <= |s.groups[key].entries|
    requires s'.groups == s.groups[key := s.groups[key].(entries := s.groups[key].entries[taken..])]
    requires s'.handles == s.handles && s'.calls == s.calls
    ensures EntriesOk(s')
    ensures taken > 0 ==> s.groups[key].entries[taken - 1].key == key && InTransit(s', s.groups[key].entries[taken - 1])
  {
  }

  // ---------------------------------------------------------------- draining

  /** The last `|queue| - remaining` groups of the rotation were looked at and are at their cap. */
  ghost predicate TailAtCap(s: Semaphore, remaining: nat) {
    && remaining <= |s.queue|
    && forall i :: remaining <= i < |s.queue| ==>
         s.queue[i] in s.groups && s.groups[s.queue[i]].active >= s.limits.maxConcurrentPerKey
  }

  /** What _nextQueuedEntry returns: a live waiter of a key below its cap, or nothing because every
      group with waiters is at its cap. */
  ghost predicate FoundOk(s: Semaphore, entry: Option<Entry>) {
    match entry
    case None => Sound(s, None, None) && TailAtCap(s, 0)
    case Some(e) =>
      && Sound(s, None, Some(e.key)) && e.key in s.groups && InTransit(s, e)
      && s.groups[e.key].active < s.limits.maxConcurrentPerKey
  }

  lemma VisitSound(s: Semaphore, aborted: set<nat>, remaining: nat)
    requires Sound(s, None, None) && TailAtCap(s, remaining) && remaining > 0 && |s.queue| > 0
    ensures
      var (visited, entry) := VisitGroup(s, aborted);
      if entry.Some? then FoundOk(visited, entry)
      else Sound(visited, None, None) && TailAtCap(visited, remaining - 1)
  {
    hide EntriesOk, HandlesMatch, Counted, Listed, NoneIdle, InTransit, TakeEntry, EnqueueGroup, DeleteGroupIfIdle;
    var key, popped := s.queue[0], Dequeue(s);
    if GroupOf(popped, key).active >= s.limits.maxConcurrentPerKey {
      PassSound(s, remaining);
    } else {
      DequeueSound(s);
      ServeSound(popped, key, aborted);
    }
  }

  lemma {:induction false} NextSound(s: Semaphore, aborted: set<nat>, remaining: nat)
    requires Sound(s, None, None) && TailAtCap(s, remaining)
    ensures var (s', entry) := NextQueuedEntry(s, aborted, remaining); FoundOk(s', entry)
    decreases remaining
  {
    hide Sound, VisitGroup, InTransit;
    if remaining > 0 && |s.queue| > 0 {
      VisitSound(s, aborted, remaining);
      var (visited, entry) := VisitGroup(s, aborted);
      if entry.None? {
        NextSound(visited, aborted, remaining - 1);
      }
    }
  }

  /** A group at its cap goes to the end of the rotation unserved. */
  lemma PassSound(s: Semaphore, remaining: nat)
    requires Sound(s, None, None) && TailAtCap(s, remaining) && remaining > 0 && |s.queue| > 0
    requires GroupOf(Dequeue(s), s.queue[0]).active >= s.limits.maxConcurrentPerKey
    ensures
      var after := EnqueueGroup(Dequeue(s), s.queue[0]);
      && Sound(after, None, None) && TailAtCap(after, remaining - 1)
      && after.queue == s.queue[1..] + [s.queue[0]]
  {
    hide EntriesOk, HandlesMatch, Counted, NoneIdle, WithinCaps, Listed, EnqueueGroup, TailAtCap;
    DequeueSound(s);
    EnqueueSound(Dequeue(s), s.queue[0], None);
    PassedTail(s, remaining);
  }

  lemma PassedTail(s: Semaphore, remaining: nat)
    requires Listed(s, None) && TailAtCap(s, remaining) && remaining > 0 && |s.queue| > 0
    requires GroupOf(Dequeue(s), s.queue[0]).active >= s.limits.maxConcurrentPerKey
    ensures
      var after := EnqueueGroup(Dequeue(s), s.queue[0]);
      TailAtCap(after, remaining - 1) && after.queue == s.queue[1..] + [s.queue[0]]
  {
    assert s.queue[0] in s.queue;
  }

  /** One group below its cap: its first live waiter is taken, or it had none and may be forgotten. */
  lemma ServeSound(s: Semaphore, key: Key, aborted: set<nat>)
    requires Sound(s, Some(key), None) && key in s.groups
    requires s.groups[key].active < s.limits.maxConcurrentPerKey
    ensures
      var (taken, entry) := TakeEntry(s, key, aborted);
      var requeued := EnqueueGroup(taken, key);
      match entry
      case Some(e) =>
        && e.key == key && key in requeued.groups && Sound(requeued, None, Some(key)) && InTransit(requeued, e)
        && requeued.groups[key].active < requeued.limits.maxConcurrentPerKey
      case None =>
        var after := DeleteGroupIfIdle(requeued, key);
        && Sound(after, None, None) && after.queue == s.queue && after.limits == s.limits
        && forall k :: k in s.queue ==> k in after.groups && after.groups[k] == s.groups[k]
  {
    hide EntriesOk, HandlesMatch, Counted, NoneIdle, WithinCaps, LeadingCanceled;
    TakeSound(s, key, aborted);
    var (taken, entry) := TakeEntry(s, key, aborted);
    EnqueueSound(taken, key, Some(key));
    var requeued := EnqueueGroup(taken, key);
    if entry.None? {
      DeleteIdleSound(requeued, key);
    } else {
      assert forall k :: k in requeued.groups ==>
        k in taken.groups && requeued.groups[k].entries == taken.groups[k].entries;
    }
  }

  lemma GrantSound(s: Semaphore, ticket: nat, key: Key)
    requires Sound(s, None, Some(key)) && InTransit(s, Entry(ticket, key))
    requires s.active < s.limits.maxConcurrent && GroupOf(s, key).active < s.limits.maxConcurrentPerKey
    ensures Sound(Grant(s, ticket, key), None, None)
  {
    hide Counted, HandlesMatch, Shaped;
    var g, s' := GroupOf(s, key), Grant(s, ticket, key);
    CountedFollows(s, s', key, g.(active := g.active + 1));
    GrantMatches(s, ticket, key);
    GrantStaysShaped(s, ticket, key);
  }

  lemma GrantStaysShaped(s: Semaphore, ticket: nat, key: Key)
    requires Shaped(s, None, Some(key)) && InTransit(s, Entry(ticket, key))
    requires s.active < s.limits.maxConcurrent && GroupOf(s, key).active < s.limits.maxConcurrentPerKey
    ensures Shaped(Grant(s, ticket, key), None, None)
  {
    hide EntriesOk;
    GrantEntriesOk(s, ticket, key);
  }

  lemma GrantEntriesOk(s: Semaphore, ticket: nat, key: Key)
    requires EntriesOk(s) && InTransit(s, Entry(ticket, key))
    ensures EntriesOk(Grant(s, ticket, key))
  {
    var s' := Grant(s, ticket, key);
    forall k | k in s'.groups ensures QueueOk(s', k, s'.groups[k].entries) {
      assert k in s.groups ==> QueueOk(s, k, s.groups[k].entries);
      assert s'.groups[k].entries == GroupOf(s, k).entries;
    }
  }

  lemma GrantMatches(s: Semaphore, ticket: nat, key: Key)
    requires HandlesMatch(s) && ticket !in s.handles
    ensures HandlesMatch(Grant(s, ticket, key))
  {
    var s' := Grant(s, ticket, key);
    forall k ensures |HandlesOf(s', k)| == GroupOf(s', k).active {
      if k == key {
        assert HandlesOf(s', k) == HandlesOf(s, k) + {ticket};
      } else {
        assert HandlesOf(s', k) == HandlesOf(s, k);
      }
    }
  }

  /** Draining restores work conservation, whatever it started from. */
  lemma {:induction false} DrainValid(s: Semaphore, aborted: set<nat>)
    requires Sound(s, None, None)
    ensures Valid(DrainQueue(s, aborted))
    decreases s.limits.maxConcurrent - s.active
  {
    if s.active < s.limits.maxConcurrent {
      NextSound(s, aborted, |s.queue|);
      NextKeepsSlots(s, aborted, |s.queue|);
      var (found, entry) := NextQueuedEntry(s, aborted, |s.queue|);
      if entry.Some? {
        GrantSound(found, entry.value.ticket, entry.value.key);
        DrainValid(Grant(found, entry.value.ticket, entry.value.key), aborted);
      } else {
        forall k | k in found.groups && |found.groups[k].entries| > 0
          ensures found.groups[k].active == found.limits.maxConcurrentPerKey
        {
          assert k in found.queue;
        }
      }
    }
  }

  // ---------------------------------------------------------------- every operation

  /** A call number is used once; calls made earlier are not affected. */
  lemma CallSound(s: Semaphore, key: Key)
    requires Valid(s)
    ensures
      var s' := s.(calls := s.calls + [key]);
      && Valid(s') && Newest(s', |s.calls|)
      && (|GroupOf(s, key).entries| == 0 ==> InTransit(s', Entry(|s.calls|, key)))
  {
    var s' := s.(calls := s.calls + [key]);
    HandlesUntouched(s, s');
    forall k | k in s'.groups ensures QueueOk(s', k, s'.groups[k].entries) {
      assert QueueOk(s, k, s.groups[k].entries);
    }
  }

  lemma AcquireValid(s: Semaphore, key: Key, alreadyAborted: bool, aborted: set<nat>)
    requires Valid(s) && s.limits.maxConcurrentPerKey > 0
    ensures Valid(Acquire(s, key, alreadyAborted, aborted).0)
  {
    hide Sound, Counted, HandlesMatch, Shaped, DrainQueue;
    var ticket, g := |s.calls|, GroupOf(s, key);
    var s1 := s.(calls := s.calls + [key]);
    CallSound(s, key);
    if !alreadyAborted {
      if s.active < s.limits.maxConcurrent && g.active < s.limits.maxConcurrentPerKey {
        FastPathValid(s1, ticket, key);
      } else if s.queued < s.limits.maxQueued && |g.entries| < s.limits.maxQueuedPerKey {
        PushSound(s1, ticket, key);
        DrainValid(EnqueueGroup(Pushed(s1, ticket, key), key), aborted);
      }
    }
  }

  /** The fast path finds no waiter of the same key, and leaves every other key as it was. */
  lemma FastPathValid(s: Semaphore, ticket: nat, key: Key)
    requires Valid(s) && (|GroupOf(s, key).entries| == 0 ==> InTransit(s, Entry(ticket, key)))
    requires s.active < s.limits.maxConcurrent && GroupOf(s, key).active < s.limits.maxConcurrentPerKey
    ensures Valid(Grant(s, ticket, key)) && |GroupOf(s, key).entries| == 0
  {
    assert |GroupOf(s, key).entries| == 0;
    GrantSound(s, ticket, key);
  }

  function Pushed(s: Semaphore, ticket: nat, key: Key): Semaphore {
    var g := GroupOf(s, key);
    s.(queued := s.queued + 1, groups := s.groups[key := g.(entries := g.entries + [Entry(ticket, key)])])
  }

  lemma PushSound(s: Semaphore, ticket: nat, key: Key)
    requires Sound(s, None, None) && ticket == |s.calls| - 1 && s.calls[ticket] == key && Newest(s, ticket)
    requires s.queued < s.limits.maxQueued && |GroupOf(s, key).entries| < s.limits.maxQueuedPerKey
    ensures Sound(EnqueueGroup(Pushed(s, ticket, key), key), None, None)
  {
    var g, pushed := GroupOf(s, key), Pushed(s, ticket, key);
    CountedFollows(s, pushed, key, pushed.groups[key]);
    HandlesUntouched(s, pushed);
    PushStaysListed(s, ticket, key);
    PushEntriesOk(s, ticket, key);
    if g.inQueue {
      assert EnqueueGroup(pushed, key) == pushed;
    } else {
      EnqueueSound(pushed, key, None);
    }
  }

  /** No slot and no waiter belongs to this call yet. */
  ghost predicate Newest(s: Semaphore, ticket: nat) {
    && ticket !in s.handles
    && forall k, i :: k in s.groups && 0 <= i < |s.groups[k].entries| ==> s.groups[k].entries[i].ticket < ticket
  }

  lemma PushStaysListed(s: Semaphore, ticket: nat, key: Key)
    requires WithinCaps(s) && Listed(s, None) && NoneIdle(s, None)
    requires s.queued < s.limits.maxQueued && |GroupOf(s, key).entries| < s.limits.maxQueuedPerKey
    ensures
      var pushed := Pushed(s, ticket, key);
      WithinCaps(pushed) && Listed(pushed, if GroupOf(s, key).inQueue then None else Some(key))
        && NoneIdle(pushed, None)
  {
  }

  /** Whether a queue is in order depends on the calls and the handles alone. */
  lemma QueueFrame(s: Semaphore, s': Semaphore, key: Key, entries: seq<Entry>)
    requires QueueOk(s, key, entries) && s'.calls == s.calls && s'.handles == s.handles
    ensures QueueOk(s', key, entries)
  {
  }

  lemma QueueGrows(s: Semaphore, key: Key, entries: seq<Entry>, ticket: nat)
    requires QueueOk(s, key, entries) && ticket < |s.calls| && s.calls[ticket] == key && ticket !in s.handles
    requires forall i :: 0 <= i < |entries| ==> entries[i].ticket < ticket
    ensures QueueOk(s, key, entries + [Entry(ticket, key)])
  {
  }

  lemma QueueCut(s: Semaphore, key: Key, entries: seq<Entry>, i: nat)
    requires QueueOk(s, key, entries) && i < |entries|
    ensures QueueOk(s, key, entries[..i] + entries[i + 1..])
  {
    var rest := entries[..i] + entries[i + 1..];
    assert forall l :: 0 <= l < |rest| ==> rest[l] == entries[if l < i then l else l + 1];
  }

  lemma NoWaitersAreInOrder(s: Semaphore, key: Key)
    ensures QueueOk(s, key, [])
  {
  }

  lemma PushEntriesOk(s: Semaphore, ticket: nat, key: Key)
    requires EntriesOk(s) && ticket < |s.calls| && s.calls[ticket] == key && Newest(s, ticket)
    ensures EntriesOk(Pushed(s, ticket, key))
  {
    hide QueueOk;
    var pushed := Pushed(s, ticket, key);
    NoWaitersAreInOrder(s, key);
    forall k | k in pushed.groups ensures QueueOk(pushed, k, pushed.groups[k].entries) {
      if k == key {
        QueueGrows(s, key, GroupOf(s, key).entries, ticket);
      }
      QueueFrame(s, pushed, k, pushed.groups[k].entries);
    }
  }

  function Freed(s: Semaphore, ticket: nat, key: Key): Semaphore
    requires s.active > 0 && GroupOf(s, key).active > 0
  {
    s.(active := s.active - 1,
       groups := s.groups[key := GroupOf(s, key).(active := GroupOf(s, key).active - 1)],
       handles := s.handles - {ticket})
  }

  lemma ReleaseValid(s: Semaphore, ticket: nat, aborted: set<nat>)
    requires Valid(s)
    ensures Valid(Release(s, ticket, aborted))
  {
    hide Counted, HandlesMatch, Shaped, DrainQueue;
    if ticket in s.handles && s.active > 0 && GroupOf(s, s.handles[ticket]).active > 0 {
      var key := s.handles[ticket];
      FreedSound(s, ticket, key);
      DeleteIdleSound(Freed(s, ticket, key), key);
      DrainValid(DeleteGroupIfIdle(Freed(s, ticket, key), key), aborted);
    }
  }

  lemma FreedSound(s: Semaphore, ticket: nat, key: Key)
    requires Sound(s, None, None) && ticket in s.handles && s.handles[ticket] == key
    requires s.active > 0 && GroupOf(s, key).active > 0
    ensures Sound(Freed(s, ticket, key), None, Some(key))
  {
    hide EntriesOk, HandlesMatch, Counted;
    var freed := Freed(s, ticket, key);
    CountedFollows(s, freed, key, freed.groups[key]);
    FreedMatches(s, ticket, key);
    FreedEntriesOk(s, ticket, key);
  }

  lemma FreedMatches(s: Semaphore, ticket: nat, key: Key)
    requires HandlesMatch(s) && ticket in s.handles && s.handles[ticket] == key
    requires s.active > 0 && GroupOf(s, key).active > 0
    ensures HandlesMatch(Freed(s, ticket, key))
  {
    var freed := Freed(s, ticket, key);
    forall k ensures |HandlesOf(freed, k)| == GroupOf(freed, k).active {
      if k == key {
        assert HandlesOf(freed, k) == HandlesOf(s, k) - {ticket};
      } else {
        assert HandlesOf(freed, k) == HandlesOf(s, k);
      }
    }
  }

  lemma FreedEntriesOk(s: Semaphore, ticket: nat, key: Key)
    requires EntriesOk(s) && s.active > 0 && GroupOf(s, key).active > 0
    ensures EntriesOk(Freed(s, ticket, key))
  {
    var freed := Freed(s, ticket, key);
    forall k | k in freed.groups ensures QueueOk(freed, k, freed.groups[k].entries) {
      assert QueueOk(s, k, s.groups[k].entries);
    }
  }

  /** A handle that has not been used yet always finds its slot. */
  lemma HandlesHoldSlots(s: Semaphore, ticket: nat)
    requires Valid(s) && ticket in s.handles
    ensures s.active > 0 && GroupOf(s, s.handles[ticket]).active > 0
  {
    var key := s.handles[ticket];
    assert ticket in HandlesOf(s, key);
    ActivesFollow(s.groups, key, GroupOf(s, key));
  }

  function Cut(s: Semaphore, key: Key, i: nat): Semaphore
    requires i < |GroupOf(s, key).entries| && s.queued > 0
  {
    var g := GroupOf(s, key);
    s.(queued := s.queued - 1, groups := s.groups[key := g.(entries := g.entries[..i] + g.entries[i + 1..])])
  }

  lemma AbortValid(s: Semaphore, ticket: nat, key: Key)
    requires Valid(s)
    ensures Valid(Abort(s, ticket, key))
  {
    hide EntriesOk, HandlesMatch, Counted;
    var g := GroupOf(s, key);
    var i := PositionOf(g.entries, ticket);
    if i < |g.entries| && s.queued > 0 {
      var cut := Cut(s, key, i);
      var unlisted := if |cut.groups[key].entries| == 0 then RemoveGroupFromQueue(cut, key) else cut;
      CutSound(s, key, i);
      DeleteIdleSound(unlisted, key);
      LogIsNoState(DeleteGroupIfIdle(unlisted, key), Abort(s, ticket, key));
    }
  }

  lemma CutSound(s: Semaphore, key: Key, i: nat)
    requires Sound(s, None, None) && i < |GroupOf(s, key).entries| && s.queued > 0
    ensures
      var cut := Cut(s, key, i);
      Sound(if |cut.groups[key].entries| == 0 then RemoveGroupFromQueue(cut, key) else cut, None, Some(key))
  {
    hide EntriesOk, HandlesMatch, Counted;
    var cut := Cut(s, key, i);
    CountedFollows(s, cut, key, cut.groups[key]);
    HandlesUntouched(s, cut);
    CutEntriesOk(s, key, i);
    if |cut.groups[key].entries| == 0 {
      UnlistSound(cut, key);
    }
  }

  lemma CutEntriesOk(s: Semaphore, key: Key, i: nat)
    requires EntriesOk(s) && i < |GroupOf(s, key).entries| && s.queued > 0
    ensures EntriesOk(Cut(s, key, i))
  {
    hide QueueOk;
    var cut := Cut(s, key, i);
    forall k | k in cut.groups ensures QueueOk(cut, k, cut.groups[k].entries) {
      if k == key {
        QueueCut(s, key, s.groups[key].entries, i);
      }
      QueueFrame(s, cut, k, cut.groups[k].entries);
    }
  }

  lemma LogIsNoState(s: Semaphore, s': Semaphore)
    requires Sound(s, None, None) && s' == s.(log := s'.log)
    ensures Sound(s', None, None)
  {
    HandlesUntouched(s, s');
  }
}
