// The ledger of the admission queue: what an operation does to every single call, waiting or not.
module SemaphoreLedger {
  import opened Outcomes
  import opened SemaphoreModel
  import opened SemaphoreSafety

  /** The call with ticket `t` waits under the key it was made with. */
  predicate Waits(s: Semaphore, t: nat) {
    t < |s.calls| && Entry(t, s.calls[t]) in GroupOf(s, s.calls[t]).entries
  }

  /** The log entries of one call. */
  function Of(log: seq<Event>, t: nat): seq<Event> {
    if |log| == 0 then [] else (if log[0].ticket == t then [log[0]] else []) + Of(log[1..], t)
  }

  lemma {:induction false} OfAppend(a: seq<Event>, b: seq<Event>, t: nat)
    ensures Of(a + b, t) == Of(a, t) + Of(b, t)
  {
    if |a| > 0 {
      assert (a + b)[1..] == a[1..] + b;
      OfAppend(a[1..], b, t);
    } else {
      assert a + b == b;
    }
  }

  lemma {:induction false} OfAbsent(log: seq<Event>, t: nat)
    requires forall i :: 0 <= i < |log| ==> log[i].ticket != t
    ensures Of(log, t) == []
  {
    if |log| > 0 {
      OfAbsent(log[1..], t);
    }
  }

  lemma {:induction false} OfIsLogged(log: seq<Event>, t: nat, e: Event)
    requires e in Of(log, t)
    ensures e in log
  {
    if |log| > 0 && !(log[0].ticket == t && e == log[0]) {
      OfIsLogged(log[1..], t, e);
    }
  }

  /** One event, wherever it stands among those of other calls. */
  lemma OfSingle(log: seq<Event>, i: nat)
    requires i < |log| && forall j :: 0 <= j < |log| && j != i ==> log[j].ticket != log[i].ticket
    ensures Of(log, log[i].ticket) == [log[i]]
  {
    var t := log[i].ticket;
    assert log == log[..i] + ([log[i]] + log[i + 1..]);
    OfAppend(log[..i], [log[i]] + log[i + 1..], t);
    OfAppend([log[i]], log[i + 1..], t);
    OfAbsent(log[..i], t);
    OfAbsent(log[i + 1..], t);
    assert Of([log[i]], t) == [log[i]] + Of([], t);
  }

  // ---------------------------------------------------------------- what may happen to a call

  /** Waiting or not, as before, and nothing logged. */
  ghost predicate Unmoved(s: Semaphore, s': Semaphore, t: nat) {
    (Waits(s', t) <==> Waits(s, t)) && Of(s'.log, t) == Of(s.log, t)
  }

  /** It waited, waits no longer, and exactly `e` was logged about it. */
  ghost predicate Settled(s: Semaphore, s': Semaphore, e: Event) {
    Waits(s, e.ticket) && !Waits(s', e.ticket) && Of(s'.log, e.ticket) == Of(s.log, e.ticket) + [e]
  }

  /** A search may settle a waiter whose signal has fired, and takes the one it returns. */
  ghost predicate Searched(s: Semaphore, s': Semaphore, entry: Option<Entry>, t: nat, aborted: set<nat>)
    requires t < |s.calls|
  {
    if entry.Some? && entry.value.ticket == t then
      entry.value.key == s.calls[t] && Waits(s, t) && !Waits(s', t) && Of(s'.log, t) == Of(s.log, t)
    else
      Unmoved(s, s', t) || (t in aborted && Settled(s, s', Canceled(t, s.calls[t])))
  }

  ghost predicate Drained(s: Semaphore, s': Semaphore, t: nat, aborted: set<nat>)
    requires t < |s.calls|
  {
    || Unmoved(s, s', t)
    || Settled(s, s', Granted(t, s.calls[t]))
    || (t in aborted && Settled(s, s', Canceled(t, s.calls[t])))
  }

  // ---------------------------------------------------------------- search and drain

  lemma SameEntries(s: Semaphore, s': Semaphore, t: nat)
    requires t < |s.calls| && s.calls <= s'.calls && s'.log == s.log
    requires GroupOf(s', s.calls[t]).entries == GroupOf(s, s.calls[t]).entries
    ensures Unmoved(s, s', t)
  {
    assert s'.calls[t] == s.calls[t];
  }

  lemma TakeMoves(s: Semaphore, key: Key, aborted: set<nat>, t: nat)
    requires EntriesOk(s) && key in s.groups && t < |s.calls|
    ensures Searched(s, TakeEntry(s, key, aborted).0, TakeEntry(s, key, aborted).1, t, aborted)
  {
    hide LeadingCanceled, EntriesOk, Of;
    var entries := s.groups[key].entries;
    var n := LeadingCanceled(entries, aborted);
    EntriesAreInOrder(s, key);
    OfAppend(s.log, CanceledEvents(entries[..n]), t);
    if s.calls[t] != key {
      OfAbsent(CanceledEvents(entries[..n]), t);
    } else {
      SplitMoves(s, entries, n, key, t);
    }
  }

  /** The queue of one key, split behind the canceled waiters at its head. */
  lemma SplitMoves(s: Semaphore, entries: seq<Entry>, n: nat, key: Key, t: nat)
    requires QueueOk(s, key, entries) && n <= |entries|
    ensures
      var e, rest := Entry(t, key), if n < |entries| then entries[n + 1..] else [];
      var canceled := Of(CanceledEvents(entries[..n]), t);
      if n < |entries| && entries[n].ticket == t then e in entries && e !in rest && canceled == []
      else
        || ((e in rest <==> e in entries) && canceled == [])
        || (e in entries && e !in rest && e in entries[..n] && canceled == [Canceled(t, key)])
  {
    hide Of, QueueOk;
    TicketsOfQueue(s, key, entries);
    var events := CanceledEvents(entries[..n]);
    if i :| 0 <= i < |entries| && entries[i].ticket == t {
      if i < n {
        assert entries[..n][i] == entries[i];
        assert events[i] == Canceled(t, key);
        OfSingle(events, i);
      } else {
        OfAbsent(events, t);
        assert i > n ==> entries[n + 1..][i - n - 1] == entries[i];
      }
    } else {
      OfAbsent(events, t);
    }
  }

  lemma TicketsOfQueue(s: Semaphore, key: Key, entries: seq<Entry>)
    requires QueueOk(s, key, entries)
    ensures forall i :: 0 <= i < |entries| ==> entries[i].key == key
    ensures forall i, j :: 0 <= i < |entries| && 0 <= j < |entries| && i != j ==> entries[i].ticket != entries[j].ticket
  {
  }

  lemma EntriesAreInOrder(s: Semaphore, key: Key)
    requires EntriesOk(s) && key in s.groups
    ensures QueueOk(s, key, s.groups[key].entries)
  {
  }

  lemma VisitMoves(s: Semaphore, aborted: set<nat>, t: nat)
    requires Sound(s, None, None) && |s.queue| > 0 && t < |s.calls|
    ensures Searched(s, VisitGroup(s, aborted).0, VisitGroup(s, aborted).1, t, aborted)
  {
    hide Counted, HandlesMatch, EntriesOk, WithinCaps, NoneIdle, TakeEntry, Waits, Of;
    var key, popped := s.queue[0], Dequeue(s);
    DequeueSound(s);
    SameEntries(s, popped, t);
    SameEntries(popped, EnqueueGroup(popped, key), t);
    if GroupOf(popped, key).active < s.limits.maxConcurrentPerKey {
      TakeMoves(popped, key, aborted, t);
      var taken := TakeEntry(popped, key, aborted).0;
      TakeKeepsCalls(popped, key, aborted);
      var requeued := EnqueueGroup(taken, key);
      SameEntries(taken, requeued, t);
      SameEntries(requeued, DeleteGroupIfIdle(requeued, key), t);
    }
  }

  lemma TakeKeepsCalls(s: Semaphore, key: Key, aborted: set<nat>)
    ensures TakeEntry(s, key, aborted).0.calls == s.calls
  {
  }

  lemma VisitKeepsCalls(s: Semaphore, aborted: set<nat>)
    requires |s.queue| > 0
    ensures VisitGroup(s, aborted).0.calls == s.calls
  {
  }

  lemma {:induction false} SearchMoves(s: Semaphore, aborted: set<nat>, remaining: nat, t: nat)
    requires Sound(s, None, None) && TailAtCap(s, remaining) && t < |s.calls|
    ensures
      var (s', entry) := NextQueuedEntry(s, aborted, remaining);
      s'.calls == s.calls && Searched(s, s', entry, t, aborted)
    decreases remaining
  {
    hide Sound, VisitGroup, Waits, Of;
    if remaining > 0 && |s.queue| > 0 {
      VisitMoves(s, aborted, t);
      VisitKeepsCalls(s, aborted);
      VisitSound(s, aborted, remaining);
      if VisitGroup(s, aborted).1.None? {
        SearchMoves(VisitGroup(s, aborted).0, aborted, remaining - 1, t);
      }
    }
  }

  lemma GrantMoves(s: Semaphore, ticket: nat, key: Key, t: nat)
    requires t < |s.calls|
    ensures
      var s' := Grant(s, ticket, key);
      && (Waits(s', t) <==> Waits(s, t))
      && Of(s'.log, t) == if t == ticket then Of(s.log, t) + [Granted(t, key)] else Of(s.log, t)
  {
    OfAppend(s.log, [Granted(ticket, key)], t);
    assert Of([Granted(ticket, key)], t) == (if t == ticket then [Granted(ticket, key)] else []) + Of([], t);
  }

  /** Whatever a drain starts from, each call stays as it was, or leaves the queue with exactly one
      event: its slot, or its cancellation if its signal has fired. */
  lemma {:induction false} DrainMoves(s: Semaphore, aborted: set<nat>, t: nat)
    requires Sound(s, None, None) && t < |s.calls|
    ensures Drained(s, DrainQueue(s, aborted), t, aborted)
    decreases s.limits.maxConcurrent - s.active
  {
    hide Counted, HandlesMatch, Shaped, NextQueuedEntry, InTransit, Waits, Of, Grant;
    if s.active < s.limits.maxConcurrent {
      NextSound(s, aborted, |s.queue|);
      NextKeepsSlots(s, aborted, |s.queue|);
      SearchMoves(s, aborted, |s.queue|, t);
      var (found, entry) := NextQueuedEntry(s, aborted, |s.queue|);
      if entry.Some? {
        var granted := Grant(found, entry.value.ticket, entry.value.key);
        GrantKeeps(found, entry.value.ticket, entry.value.key);
        GrantSound(found, entry.value.ticket, entry.value.key);
        GrantMoves(found, entry.value.ticket, entry.value.key, t);
        DrainKeepsCalls(granted, aborted);
        DrainMoves(granted, aborted, t);
      }
    }
  }

  lemma GrantKeeps(s: Semaphore, ticket: nat, key: Key)
    ensures
      var s' := Grant(s, ticket, key);
      s'.calls == s.calls && s'.limits == s.limits && s'.active == s.active + 1
  {
  }

  // ---------------------------------------------------------------- every operation

  /** What an operation does to a call made before it: nothing, or exactly one event that ends its wait.
      Only a fired signal or its own abort listener cancels it. */
  ghost predicate Moved(s: Semaphore, s': Semaphore, t: nat, op: Op, aborted: set<nat>)
    requires t < |s.calls|
  {
    || Unmoved(s, s', t)
    || Settled(s, s', Granted(t, s.calls[t]))
    || ((t in aborted || op == DoAbort(t, s.calls[t])) && Settled(s, s', Canceled(t, s.calls[t])))
  }

  /** What acquire's answer says about the new call. */
  ghost predicate Answered(s: Semaphore, t: nat, answer: Admission)
    requires t < |s.calls|
  {
    match answer
    case Admitted => !Waits(s, t) && Of(s.log, t) == [Granted(t, s.calls[t])]
    case Waiting =>
      if Waits(s, t) then Of(s.log, t) == []
      else Of(s.log, t) == [Granted(t, s.calls[t])] || Of(s.log, t) == [Canceled(t, s.calls[t])]
    case _ => !Waits(s, t) && Of(s.log, t) == []
  }

  lemma NewCallDoesNotWait(s: Semaphore, key: Key)
    requires Valid(s)
    ensures !Waits(s.(calls := s.calls + [key]), |s.calls|)
  {
    var t := |s.calls|;
    if Entry(t, key) in GroupOf(s, key).entries {
      EntriesAreInOrder(s, key);
      assert false;
    }
  }

  lemma PushMoves(s: Semaphore, ticket: nat, key: Key, t: nat)
    requires ticket < |s.calls| && s.calls[ticket] == key && t < |s.calls|
    ensures
      var s' := EnqueueGroup(Pushed(s, ticket, key), key);
      && s'.calls == s.calls && s'.log == s.log
      && (Waits(s', t) <==> Waits(s, t) || t == ticket)
  {
    hide Of;
    var pushed := Pushed(s, ticket, key);
    var entries := GroupOf(s, key).entries;
    assert forall e :: e in entries + [Entry(ticket, key)] <==> e in entries || e == Entry(ticket, key);
    SameEntries(pushed, EnqueueGroup(pushed, key), t);
  }

  lemma AcquireMoves(s: Semaphore, key: Key, alreadyAborted: bool, aborted: set<nat>, t: nat)
    requires Valid(s) && s.limits.maxConcurrentPerKey > 0 && t <= |s.calls|
    requires t == |s.calls| ==> Of(s.log, t) == []
    ensures
      var (s', answer) := Acquire(s, key, alreadyAborted, aborted);
      t < |s'.calls| &&
      if t < |s.calls| then Moved(s, s', t, DoAcquire(key, alreadyAborted), aborted) else Answered(s', t, answer)
  {
    hide Sound, Counted, HandlesMatch, Shaped, DrainQueue, Waits, Of, Grant, EnqueueGroup, Pushed;
    var ticket, g := |s.calls|, GroupOf(s, key);
    var s1 := s.(calls := s.calls + [key]);
    AcquireKeepsCalls(s, key, alreadyAborted, aborted);
    CallSound(s, key);
    NewCallDoesNotWait(s, key);
    if t < ticket {
      SameEntries(s, s1, t);
    }
    if !alreadyAborted {
      if s.active < s.limits.maxConcurrent && g.active < s.limits.maxConcurrentPerKey {
        GrantKeeps(s1, ticket, key);
        GrantMoves(s1, ticket, key, t);
      } else if s.queued < s.limits.maxQueued && |g.entries| < s.limits.maxQueuedPerKey {
        var s2 := EnqueueGroup(Pushed(s1, ticket, key), key);
        PushSound(s1, ticket, key);
        PushMoves(s1, ticket, key, t);
        DrainMoves(s2, aborted, t);
        AcquireIsADrain(s, key, alreadyAborted, aborted);
      }
    }
  }

  lemma AcquireIsADrain(s: Semaphore, key: Key, alreadyAborted: bool, aborted: set<nat>)
    requires !alreadyAborted && s.queued < s.limits.maxQueued
    requires |GroupOf(s, key).entries| < s.limits.maxQueuedPerKey
    requires s.active >= s.limits.maxConcurrent || GroupOf(s, key).active >= s.limits.maxConcurrentPerKey
    ensures
      var s1 := s.(calls := s.calls + [key]);
      Acquire(s, key, alreadyAborted, aborted)
      == (DrainQueue(EnqueueGroup(Pushed(s1, |s.calls|, key), key), aborted), Waiting)
  {
    hide DrainQueue, EnqueueGroup;
  }

  lemma AbortMoves(s: Semaphore, ticket: nat, key: Key, t: nat)
    requires Valid(s) && t < |s.calls|
    ensures Moved(s, Abort(s, ticket, key), t, DoAbort(ticket, key), {})
  {
    hide Counted, HandlesMatch, WithinCaps, NoneIdle, Listed, EntriesOk, RemoveGroupFromQueue;
    var s' := Abort(s, ticket, key);
    var entries := GroupOf(s, key).entries;
    var i := PositionOf(entries, ticket);
    if i < |entries| && s.queued > 0 {
      EntriesAreInOrder(s, key);
      var cut := Cut(s, key, i);
      CutMoves(s, key, i, t);
      var unlisted := if |cut.groups[key].entries| == 0 then RemoveGroupFromQueue(cut, key) else cut;
      UnlistMoves(cut, key, t);
      DeleteMoves(unlisted, key, t);
      var after := DeleteGroupIfIdle(unlisted, key);
      assert s' == after.(log := s.log + [Canceled(ticket, key)]);
      OfAppend(s.log, [Canceled(ticket, key)], t);
      assert Of([Canceled(ticket, key)], t) == (if t == ticket then [Canceled(ticket, key)] else []) + Of([], t);
    }
  }

  lemma CutMoves(s: Semaphore, key: Key, i: nat, t: nat)
    requires s.queued > 0 && key in s.groups && i < |s.groups[key].entries| && t < |s.calls|
    requires QueueOk(s, key, s.groups[key].entries)
    ensures Waits(s, s.groups[key].entries[i].ticket) && s.calls[s.groups[key].entries[i].ticket] == key
    ensures Waits(Cut(s, key, i), t) <==> Waits(s, t) && t != s.groups[key].entries[i].ticket
    ensures Cut(s, key, i).log == s.log && Cut(s, key, i).calls == s.calls
  {
    var entries := s.groups[key].entries;
    var rest := entries[..i] + entries[i + 1..];
    assert forall l :: 0 <= l < |rest| ==> rest[l] == entries[if l < i then l else l + 1];
    assert entries[i] == Entry(entries[i].ticket, key);
    if l :| 0 <= l < |entries| && l != i && entries[l] == Entry(t, s.calls[t]) {
      assert rest[if l < i then l else l - 1] == entries[l];
    }
  }

  lemma UnlistMoves(s: Semaphore, key: Key, t: nat)
    requires t < |s.calls|
    ensures RemoveGroupFromQueue(s, key).calls == s.calls && RemoveGroupFromQueue(s, key).log == s.log
    ensures Waits(RemoveGroupFromQueue(s, key), t) <==> Waits(s, t)
  {
    hide Without;
  }

  lemma DeleteMoves(s: Semaphore, key: Key, t: nat)
    requires t < |s.calls|
    ensures DeleteGroupIfIdle(s, key).calls == s.calls && DeleteGroupIfIdle(s, key).log == s.log
    ensures Waits(DeleteGroupIfIdle(s, key), t) <==> Waits(s, t)
  {
    hide Without;
  }

  lemma ReleaseMoves(s: Semaphore, ticket: nat, aborted: set<nat>, t: nat)
    requires Valid(s) && t < |s.calls|
    ensures Moved(s, Release(s, ticket, aborted), t, DoRelease(ticket), aborted)
  {
    hide Counted, HandlesMatch, Shaped, DrainQueue, Waits, Of, DeleteGroupIfIdle;
    if ticket in s.handles && s.active > 0 && GroupOf(s, s.handles[ticket]).active > 0 {
      var key := s.handles[ticket];
      var freed := Freed(s, ticket, key);
      FreedSound(s, ticket, key);
      DeleteIdleSound(freed, key);
      SameEntries(s, freed, t);
      DeleteMoves(freed, key, t);
      DrainMoves(DeleteGroupIfIdle(freed, key), aborted, t);
    }
  }

  /** No operation loses a waiting call, settles it twice, or settles one that does not wait. */
  lemma NoCallIsLost(s: Semaphore, op: Op, aborted: set<nat>, t: nat)
    requires Valid(s) && s.limits.maxConcurrentPerKey > 0 && t < |s.calls|
    ensures Moved(s, Apply(s, op, aborted), t, op, aborted)
  {
    hide Valid, Acquire, Abort, Release, Waits, Of;
    match op
    case DoAcquire(key, alreadyAborted) => AcquireMoves(s, key, alreadyAborted, aborted, t);
    case DoAbort(ticket, key) => AbortMoves(s, ticket, key, t);
    case DoRelease(ticket) => ReleaseMoves(s, ticket, aborted, t);
  }

  lemma AbortKeepsCalls(s: Semaphore, ticket: nat, key: Key)
    ensures Abort(s, ticket, key).calls == s.calls
  {
  }

  lemma ReleaseKeepsCalls(s: Semaphore, ticket: nat, aborted: set<nat>)
    ensures Release(s, ticket, aborted).calls == s.calls
  {
    hide DrainQueue;
    if ticket in s.handles && s.active > 0 && GroupOf(s, s.handles[ticket]).active > 0 {
      DrainKeepsCalls(DeleteGroupIfIdle(Freed(s, ticket, s.handles[ticket]), s.handles[ticket]), aborted);
    }
  }

  lemma {:induction false} DrainKeepsCalls(s: Semaphore, aborted: set<nat>)
    ensures DrainQueue(s, aborted).calls == s.calls
    decreases s.limits.maxConcurrent - s.active
  {
    if s.active < s.limits.maxConcurrent {
      NextKeepsSlots(s, aborted, |s.queue|);
      var (found, entry) := NextQueuedEntry(s, aborted, |s.queue|);
      if entry.Some? {
        DrainKeepsCalls(Grant(found, entry.value.ticket, entry.value.key), aborted);
      }
    }
  }

  lemma AcquireKeepsCalls(s: Semaphore, key: Key, alreadyAborted: bool, aborted: set<nat>)
    ensures Acquire(s, key, alreadyAborted, aborted).0.calls == s.calls + [key]
  {
    hide DrainQueue;
    var s1 := s.(calls := s.calls + [key]);
    DrainKeepsCalls(EnqueueGroup(Pushed(s1, |s.calls|, key), key), aborted);
  }

  /** Only acquire makes a new call. */
  lemma ApplyKeepsCalls(s: Semaphore, op: Op, aborted: set<nat>)
    ensures Apply(s, op, aborted).calls == s.calls + if op.DoAcquire? then [op.key] else []
  {
    hide Acquire, Abort, Release;
    match op
    case DoAcquire(key, alreadyAborted) => AcquireKeepsCalls(s, key, alreadyAborted, aborted);
    case DoAbort(ticket, key) => AbortKeepsCalls(s, ticket, key);
    case DoRelease(ticket) => ReleaseKeepsCalls(s, ticket, aborted);
  }
}
