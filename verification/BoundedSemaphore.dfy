// The admission queue as the program keeps it: counters, a rotation and a key map updated in place.
// Every method is tied to its transition on values, so the laws proved there hold of the object.
module BoundedSemaphoreClass {
  import opened Outcomes
  import opened SemaphoreModel
  import opened SemaphoreSafety

  class BoundedSemaphore {
    const limits: Limits
    var active: nat
    var queued: nat
    var queueGroups: seq<Key>
    var groupsByKey: map<Key, Group>
    /** The release handles that have not been called yet. */
    var handles: map<nat, Key>
    /** The key of every call so far: a call's position stands for its promise. */
    var calls: seq<Key>
    /** Promises settled so far. */
    ghost var log: seq<Event>

    ghost function State(): Semaphore
      reads this
    {
      Semaphore(limits, active, queued, queueGroups, groupsByKey, handles, log, calls)
    }

    constructor (limits: Limits)
      ensures State() == Initial(limits)
    {
      this.limits := limits;
      active, queued, queueGroups, groupsByKey := 0, 0, [], map[];
      handles, log, calls := map[], [], [];
    }

    method EnqueueGroup(key: Key)
      requires key in groupsByKey
      modifies this`queueGroups, this`groupsByKey
      ensures State() == SemaphoreModel.EnqueueGroup(old(State()), key)
    {
      var group := groupsByKey[key];
      if group.inQueue || |group.entries| == 0 {
        return;
      }
      groupsByKey := groupsByKey[key := group.(inQueue := true)];
      queueGroups := queueGroups + [key];
    }

    method RemoveGroupFromQueue(key: Key)
      requires key in groupsByKey
      modifies this`queueGroups, this`groupsByKey
      ensures State() == SemaphoreModel.RemoveGroupFromQueue(old(State()), key)
    {
      var group := groupsByKey[key];
      if !group.inQueue {
        return;
      }
      groupsByKey := groupsByKey[key := group.(inQueue := false)];
      hide Without;
      var index := 0;
      while index < |queueGroups| && queueGroups[index] != key
        invariant index <= |queueGroups| && queueGroups == old(queueGroups)
        invariant forall i :: 0 <= i < index ==> queueGroups[i] != key
      {
        index := index + 1;
      }
      WithoutCuts(queueGroups, key, index);
      if index < |queueGroups| {
        queueGroups := queueGroups[..index] + queueGroups[index + 1..];
      }
    }

    method DeleteGroupIfIdle(key: Key)
      requires key in groupsByKey
      modifies this`queueGroups, this`groupsByKey
      ensures State() == SemaphoreModel.DeleteGroupIfIdle(old(State()), key)
    {
      var group := groupsByKey[key];
      if group.active == 0 && |group.entries| == 0 {
        RemoveGroupFromQueue(key);
        groupsByKey := groupsByKey - {key};
      }
    }

    /** Shifts the waiters of a group until one is found whose signal has not fired. */
    method TakeEntry(key: Key, aborted: set<nat>) returns (entry: Option<Entry>)
      requires key in groupsByKey && queued >= |groupsByKey[key].entries|
      modifies this`queued, this`groupsByKey, this`log
      ensures (State(), entry) == SemaphoreModel.TakeEntry(old(State()), key, aborted)
      ensures key in groupsByKey
    {
      entry := None;
      while |groupsByKey[key].entries| > 0 && entry.None?
        invariant key in groupsByKey && queued >= |groupsByKey[key].entries|
        invariant entry.None? ==>
          SemaphoreModel.TakeEntry(State(), key, aborted) == SemaphoreModel.TakeEntry(old(State()), key, aborted)
        invariant entry.Some? ==> (State(), entry) == SemaphoreModel.TakeEntry(old(State()), key, aborted)
        decreases |groupsByKey[key].entries|
      {
        hide SemaphoreModel.TakeEntry;
        TakeEntryShifts(State(), key, aborted);
        var group := groupsByKey[key];
        var candidate := group.entries[0];
        groupsByKey := groupsByKey[key := group.(entries := group.entries[1..])];
        queued := queued - 1;
        if candidate.ticket in aborted {
          log := log + [Canceled(candidate.ticket, candidate.key)];
        } else {
          entry := Some(candidate);
        }
      }
      if entry.None? {
        TakeEntryEnds(State(), key, aborted);
      }
    }

    method NextQueuedEntry(aborted: set<nat>) returns (entry: Option<Entry>)
      requires Sound(State(), None, None)
      modifies this`queued, this`queueGroups, this`groupsByKey, this`log
      ensures (State(), entry) == SemaphoreModel.NextQueuedEntry(old(State()), aborted, |old(queueGroups)|)
    {
      hide Sound, SemaphoreModel.VisitGroup, InTransit;
      var groupsRemaining: nat := |queueGroups|;
      while groupsRemaining > 0
        invariant Sound(State(), None, None) && TailAtCap(State(), groupsRemaining)
        invariant SemaphoreModel.NextQueuedEntry(State(), aborted, groupsRemaining)
               == SemaphoreModel.NextQueuedEntry(old(State()), aborted, |old(queueGroups)|)
      {
        ghost var before := State();
        var taken := VisitGroup(aborted);
        VisitSound(before, aborted, groupsRemaining);
        if taken.Some? {
          return taken;
        }
        groupsRemaining := groupsRemaining - 1;
      }
      return None;
    }

    /** The body of the search loop: the group at the head of the rotation. */
    method VisitGroup(aborted: set<nat>) returns (entry: Option<Entry>)
      requires Sound(State(), None, None) && |queueGroups| > 0
      modifies this`queued, this`queueGroups, this`groupsByKey, this`log
      ensures (State(), entry) == SemaphoreModel.VisitGroup(old(State()), aborted)
    {
      hide Counted, HandlesMatch, EntriesOk, NoneIdle, WithinCaps, SemaphoreModel.TakeEntry;
      DequeueSound(State());
      var key := queueGroups[0];
      queueGroups := queueGroups[1..];
      groupsByKey := groupsByKey[key := groupsByKey[key].(inQueue := false)];
      assert State() == Dequeue(old(State()));
      if groupsByKey[key].active >= limits.maxConcurrentPerKey {
        EnqueueGroup(key);
        return None;
      }
      QueuedCoversGroup(State(), key);
      entry := TakeEntry(key, aborted);
      ghost var taken := State();
      EnqueueGroup(key);
      if entry.None? {
        assert key in SemaphoreModel.EnqueueGroup(taken, key).groups;
        DeleteGroupIfIdle(key);
      }
    }

    method Grant(ticket: nat, key: Key)
      requires key in groupsByKey
      modifies this`active, this`groupsByKey, this`handles, this`log
      ensures State() == SemaphoreModel.Grant(old(State()), ticket, key)
    {
      active := active + 1;
      groupsByKey := groupsByKey[key := groupsByKey[key].(active := groupsByKey[key].active + 1)];
      handles := handles[ticket := key];
      log := log + [Granted(ticket, key)];
    }

    method DrainQueue(aborted: set<nat>)
      requires Sound(State(), None, None)
      modifies this
      ensures State() == SemaphoreModel.DrainQueue(old(State()), aborted)
      ensures Valid(State())
    {
      DrainValid(State(), aborted);
      while active < limits.maxConcurrent
        invariant Sound(State(), None, None)
        invariant SemaphoreModel.DrainQueue(State(), aborted) == SemaphoreModel.DrainQueue(old(State()), aborted)
        decreases limits.maxConcurrent - active
      {
        ghost var before := State();
        NextSound(before, aborted, |before.queue|);
        NextKeepsSlots(before, aborted, |before.queue|);
        var entry := NextQueuedEntry(aborted);
        if entry.None? {
          return;
        }
        GrantSound(State(), entry.value.ticket, entry.value.key);
        Grant(entry.value.ticket, entry.value.key);
      }
    }

    method Acquire(key: Key, alreadyAborted: bool, aborted: set<nat>) returns (admission: Admission)
      requires Valid(State()) && limits.maxConcurrentPerKey > 0
      modifies this
      ensures (State(), admission) == SemaphoreModel.Acquire(old(State()), key, alreadyAborted, aborted)
      ensures Valid(State())
    {
      hide Valid, Sound, InTransit, SemaphoreModel.DrainQueue, SemaphoreModel.EnqueueGroup;
      AcquireValid(State(), key, alreadyAborted, aborted);
      CallSound(State(), key);
      var ticket := |calls|;
      calls := calls + [key];
      if alreadyAborted {
        return AlreadyAborted;
      }
      var group := if key in groupsByKey then groupsByKey[key] else NEW_GROUP;
      if active < limits.maxConcurrent && group.active < limits.maxConcurrentPerKey {
        groupsByKey := groupsByKey[key := group];
        Grant(ticket, key);
        assert groupsByKey == old(groupsByKey)[key := group.(active := group.active + 1)];
        return Admitted;
      }
      if queued >= limits.maxQueued || |group.entries| >= limits.maxQueuedPerKey {
        return QueueFull;
      }
      PushSound(State(), ticket, key);
      ghost var pushed := Pushed(State(), ticket, key);
      groupsByKey := groupsByKey[key := group.(entries := group.entries + [Entry(ticket, key)])];
      queued := queued + 1;
      assert State() == pushed;
      EnqueueGroup(key);
      DrainQueue(aborted);
      return Waiting;
    }

    /** The abort listener of a waiter: does nothing once the waiter has left the queue. */
    method AbortWaiter(ticket: nat, key: Key)
      requires Valid(State())
      modifies this
      ensures State() == Abort(old(State()), ticket, key)
      ensures Valid(State())
    {
      hide Valid, Sound;
      AbortValid(State(), ticket, key);
      if key !in groupsByKey {
        return;
      }
      var entries := groupsByKey[key].entries;
      var index := PositionOf(entries, ticket);
      if index == |entries| {
        return;
      }
      assert queued > 0 by {
        WaiterIsCounted(State(), key);
      }
      groupsByKey := groupsByKey[key := groupsByKey[key].(entries := entries[..index] + entries[index + 1..])];
      queued := queued - 1;
      if |groupsByKey[key].entries| == 0 {
        RemoveGroupFromQueue(key);
      }
      DeleteGroupIfIdle(key);
      log := log + [Canceled(ticket, key)];
    }

    /** A release handle. */
    method Release(ticket: nat, aborted: set<nat>)
      requires Valid(State())
      modifies this
      ensures State() == SemaphoreModel.Release(old(State()), ticket, aborted)
      ensures Valid(State())
    {
      hide Valid, Sound, HandlesOf, SemaphoreModel.DrainQueue, SemaphoreModel.DeleteGroupIfIdle;
      ReleaseValid(State(), ticket, aborted);
      if ticket !in handles {
        return;
      }
      var key := handles[ticket];
      HandlesHoldSlots(State(), ticket);
      FreedIsSound(State(), ticket, key);
      ghost var freed := Freed(State(), ticket, key);
      handles := handles - {ticket};
      active := active - 1;
      groupsByKey := groupsByKey[key := groupsByKey[key].(active := groupsByKey[key].active - 1)];
      assert State() == freed;
      DeleteGroupIfIdle(key);
      DrainQueue(aborted);
    }
  }

  /** One shift: a canceled waiter is settled and the search goes on, a live one is taken. */
  lemma TakeEntryShifts(s: Semaphore, key: Key, aborted: set<nat>)
    requires key in s.groups && |s.groups[key].entries| > 0 && s.queued >= |s.groups[key].entries|
    ensures
      var head, rest := s.groups[key].entries[0], s.groups[key].entries[1..];
      var shifted := s.(queued := s.queued - 1, groups := s.groups[key := s.groups[key].(entries := rest)]);
      TakeEntry(s, key, aborted) ==
        if head.ticket in aborted
        then TakeEntry(shifted.(log := s.log + [Canceled(head.ticket, head.key)]), key, aborted)
        else (shifted, Some(head))
  {
    var entries := s.groups[key].entries;
    var n := LeadingCanceled(entries, aborted);
    var g := s.groups[key].(entries := entries[1..]);
    if n > 0 {
      var event := Canceled(entries[0].ticket, entries[0].key);
      var taken := if n < |entries| then n + 1 else n;
      assert CanceledEvents(entries[..n]) == [event] + CanceledEvents(entries[1..][..n - 1]);
      assert s.log + CanceledEvents(entries[..n]) == (s.log + [event]) + CanceledEvents(entries[1..][..n - 1]);
      assert entries[taken..] == entries[1..][taken - 1..];
      assert s.groups[key := g.(entries := entries[taken..])]
          == s.groups[key := g][key := g.(entries := entries[taken..])];
    } else {
      assert s.log + CanceledEvents(entries[..0]) == s.log;
    }
  }

  /** Removing the first occurrence, found at `index` or nowhere. */
  lemma {:induction false} WithoutCuts(queue: seq<Key>, key: Key, index: nat)
    requires index <= |queue| && (index < |queue| ==> queue[index] == key)
    requires forall i :: 0 <= i < index ==> queue[i] != key
    ensures Without(queue, key) == if index < |queue| then queue[..index] + queue[index + 1..] else queue
  {
    if index > 0 {
      WithoutCuts(queue[1..], key, index - 1);
    }
  }

  lemma TakeEntryEnds(s: Semaphore, key: Key, aborted: set<nat>)
    requires key in s.groups && |s.groups[key].entries| == 0
    ensures TakeEntry(s, key, aborted) == (s, None)
  {
    assert s.groups[key := s.groups[key].(entries := [])] == s.groups;
    assert s.groups[key].entries[0..] == [] && s.log + CanceledEvents([]) == s.log;
  }

  lemma WaiterIsCounted(s: Semaphore, key: Key)
    requires Valid(s) && key in s.groups && |s.groups[key].entries| > 0
    ensures s.queued > 0
  {
    QueuedCoversGroup(s, key);
  }

  lemma FreedIsSound(s: Semaphore, ticket: nat, key: Key)
    requires Valid(s) && ticket in s.handles && s.handles[ticket] == key
    requires s.active > 0 && GroupOf(s, key).active > 0
    ensures Sound(DeleteGroupIfIdle(Freed(s, ticket, key), key), None, None)
  {
    hide Sound;
    FreedSound(s, ticket, key);
    DeleteIdleSound(Freed(s, ticket, key), key);
  }
}
