// What each call of the admission queue is answered, and what it leaves behind, exactly.
module SemaphoreAnswers {
  import opened Outcomes
  import opened SemaphoreModel
  import opened SemaphoreSafety
  import opened SemaphoreLedger
  import opened SemaphoreFairness

  // ---------------------------------------------------------------- acquire

  /** A search that finds every waiting key at its cap changes nothing but where the rotation starts. */
  lemma {:induction false} SearchPassesCappedKeys(s: Semaphore, aborted: set<nat>, remaining: nat)
    requires Sound(s, None, None) && TailAtCap(s, remaining)
    requires forall k :: k in s.queue ==> GroupOf(s, k).active >= s.limits.maxConcurrentPerKey
    ensures
      var (s', entry) := NextQueuedEntry(s, aborted, remaining);
      && entry.None? && s' == s.(queue := s'.queue)
    decreases remaining
  {
    hide Counted, HandlesMatch, EntriesOk, WithinCaps, NoneIdle, TailAtCap;
    if remaining > 0 && |s.queue| > 0 {
      var key, visited := s.queue[0], VisitGroup(s, aborted).0;
      assert key in s.queue;
      assert s.groups[key := s.groups[key].(inQueue := false)][key := s.groups[key].(inQueue := true)] == s.groups;
      VisitSound(s, aborted, remaining);
      assert forall k :: k in visited.queue ==> k in s.queue;
      SearchPassesCappedKeys(visited, aborted, remaining - 1);
    }
  }

  predicate HasFreeSlot(s: Semaphore, key: Key) {
    s.active < s.limits.maxConcurrent && GroupOf(s, key).active < s.limits.maxConcurrentPerKey
  }

  predicate IsFull(s: Semaphore, key: Key) {
    s.queued >= s.limits.maxQueued || |GroupOf(s, key).entries| >= s.limits.maxQueuedPerKey
  }

  /** A call is let in exactly if its key has a free slot, and then holds a release handle. It is refused for a full
      queue exactly if not, and the queue or the key's own queue is full; a refused call leaves no trace. In any
      other case it really waits, and nobody else is moved by it. */
  lemma AcquireIsExact(s: Semaphore, key: Key, alreadyAborted: bool, aborted: set<nat>)
    requires Valid(s) && s.limits.maxConcurrentPerKey > 0
    ensures
      var (s', answer) := Acquire(s, key, alreadyAborted, aborted);
      var ticket := |s.calls|;
      && (answer == AlreadyAborted <==> alreadyAborted)
      && (answer == Admitted <==> !alreadyAborted && HasFreeSlot(s, key))
      && (answer == QueueFull <==> !alreadyAborted && !HasFreeSlot(s, key) && IsFull(s, key))
      && s'.calls == s.calls + [key]
      && match answer
         case Admitted => s'.handles == s.handles[ticket := key] && ticket !in s.handles && s'.active == s.active + 1
                          && !Waits(s', ticket)
         case Waiting => s'.handles == s.handles && s'.log == s.log && Waits(s', ticket)
                         && s'.queued == s.queued + 1
                         && forall t: nat :: t < ticket ==> (Waits(s', t) <==> Waits(s, t))
         case _ => s' == s.(calls := s'.calls)
  {
    hide Counted, HandlesMatch, EntriesOk, WithinCaps, NoneIdle, DrainQueue, Of, Waits;
    var ticket := |s.calls|;
    var s1 := s.(calls := s.calls + [key]);
    CallSound(s, key);
    NewCallDoesNotWait(s, key);
    NewTicketIsFree(s);
    if !alreadyAborted {
      if HasFreeSlot(s, key) {
        GrantMoves(s1, ticket, key, ticket);
      } else if !IsFull(s, key) {
        AcquireIsADrain(s, key, alreadyAborted, aborted);
        WaitingChangesNothingElse(s, s1, key, aborted);
      }
    }
  }

  lemma NewTicketIsFree(s: Semaphore)
    requires Valid(s)
    ensures |s.calls| !in s.handles
  {
  }

  lemma WaitingChangesNothingElse(s: Semaphore, s1: Semaphore, key: Key, aborted: set<nat>)
    requires Valid(s) && Valid(s1) && s1 == s.(calls := s.calls + [key]) && Newest(s1, |s.calls|)
    requires s.limits.maxConcurrentPerKey > 0 && !HasFreeSlot(s, key) && !IsFull(s, key)
    requires !Waits(s1, |s.calls|)
    ensures
      var s2 := EnqueueGroup(Pushed(s1, |s.calls|, key), key);
      var s' := DrainQueue(s2, aborted);
      && s'.handles == s.handles && s'.log == s.log && s'.calls == s1.calls && s'.queued == s.queued + 1
      && Waits(s', |s.calls|) && forall t: nat :: t < |s.calls| ==> (Waits(s', t) <==> Waits(s, t))
  {
    hide Counted, HandlesMatch, EntriesOk, WithinCaps, NoneIdle, Of, EnqueueGroup, Pushed, NextQueuedEntry;
    var ticket := |s.calls|;
    var pushed := Pushed(s1, ticket, key);
    var s2 := EnqueueGroup(pushed, key);
    PushSound(s1, ticket, key);
    PushedFields(s1, ticket, key);
    if s2.active < s2.limits.maxConcurrent {
      CappedAfterPush(s1, key);
      TailOfWholeQueue(s2);
      SearchPassesCappedKeys(s2, aborted, |s2.queue|);
    }
    var s' := DrainQueue(s2, aborted);
    assert s' == s2.(queue := s'.queue);
    forall t: nat | t <= ticket ensures Waits(s', t) <==> Waits(s1, t) || t == ticket {
      PushMoves(s1, ticket, key, t);
    }
    forall t: nat | t < ticket ensures Waits(s1, t) <==> Waits(s, t) {
      assert s1.calls[t] == s.calls[t];
    }
  }

  lemma TailOfWholeQueue(s: Semaphore)
    ensures TailAtCap(s, |s.queue|)
  {
  }

  lemma PushedFields(s: Semaphore, ticket: nat, key: Key)
    ensures
      var s2 := EnqueueGroup(Pushed(s, ticket, key), key);
      && s2.limits == s.limits && s2.active == s.active && s2.handles == s.handles && s2.log == s.log
      && s2.calls == s.calls && s2.queued == s.queued + 1
  {
  }

  /** While a slot is free every key with waiters is at its cap, and so is a key that has to wait now. */
  lemma CappedAfterPush(s: Semaphore, key: Key)
    requires Valid(s) && s.active < s.limits.maxConcurrent && !HasFreeSlot(s, key) && |s.calls| > 0
    ensures
      var s2 := EnqueueGroup(Pushed(s, |s.calls| - 1, key), key);
      forall k :: k in s2.queue ==> GroupOf(s2, k).active >= s2.limits.maxConcurrentPerKey
  {
    hide Counted, HandlesMatch, EntriesOk, NoneIdle;
  }

  // ---------------------------------------------------------------- abort

  /** The abort of a waiting call cancels exactly that call; any other abort does nothing. */
  lemma AbortIsExact(s: Semaphore, ticket: nat, key: Key)
    requires Valid(s) && ticket < |s.calls| && s.calls[ticket] == key
    ensures
      var s' := Abort(s, ticket, key);
      if Waits(s, ticket) then Settled(s, s', Canceled(ticket, key)) && s'.handles == s.handles else s' == s
  {
    hide Counted, HandlesMatch, WithinCaps, NoneIdle, Listed, Of;
    var s' := Abort(s, ticket, key);
    AbortMoves(s, ticket, key, ticket);
    if Waits(s, ticket) {
      EntriesAreInOrder(s, key);
      WaiterIsFound(s, ticket, key);
      assert s'.log == s.log + [Canceled(ticket, key)];
      OfAppend(s.log, [Canceled(ticket, key)], ticket);
      OfSingle([Canceled(ticket, key)], 0);
      assert !Unmoved(s, s', ticket);
      LongerByTheCanceled(Of(s.log, ticket), Granted(ticket, key), Canceled(ticket, key));
    } else {
      EntriesOfTicket(s, ticket, key);
    }
  }

  lemma LongerByTheCanceled(events: seq<Event>, a: Event, b: Event)
    requires a != b
    ensures events + [a] != events + [b]
  {
    assert (events + [a])[|events|] == a && (events + [b])[|events|] == b;
  }

  lemma WaiterIsFound(s: Semaphore, ticket: nat, key: Key)
    requires Sound(s, None, None) && key in s.groups && Entry(ticket, key) in s.groups[key].entries
    ensures PositionOf(s.groups[key].entries, ticket) < |s.groups[key].entries| && s.queued > 0
  {
    hide HandlesMatch, WithinCaps, NoneIdle, Listed, EntriesOk;
    QueuedCoversGroup(s, key);
  }

  lemma EntriesOfTicket(s: Semaphore, ticket: nat, key: Key)
    requires Sound(s, None, None) && ticket < |s.calls| && s.calls[ticket] == key && !Waits(s, ticket)
    ensures PositionOf(GroupOf(s, key).entries, ticket) == |GroupOf(s, key).entries|
  {
    hide Counted, HandlesMatch, WithinCaps, NoneIdle, Listed, EntriesOk;
    if key in s.groups {
      EntriesAreInOrder(s, key);
      assert forall i :: 0 <= i < |s.groups[key].entries| && s.groups[key].entries[i].ticket == ticket ==>
        s.groups[key].entries[i] == Entry(ticket, key);
    }
  }

  // ---------------------------------------------------------------- release

  ghost predicate HandedOut(s: Semaphore, s': Semaphore, t: nat) {
    t in s'.handles <==> t in s.handles || (t < |s.calls| && Settled(s, s', Granted(t, s.calls[t])))
  }

  lemma GrantHandles(s: Semaphore, ticket: nat, key: Key)
    ensures
      var s' := Grant(s, ticket, key);
      s'.handles == s.handles[ticket := key] && s'.calls == s.calls && s'.limits == s.limits
  {
  }

  /** A drain gives a handle to exactly the waiting calls that it logs as granted, and takes none away. */
  lemma {:induction false} DrainHandsOut(s: Semaphore, aborted: set<nat>, t: nat)
    requires Sound(s, None, None) && t < |s.calls|
    ensures DrainQueue(s, aborted).calls == s.calls
    ensures HandedOut(s, DrainQueue(s, aborted), t)
    decreases s.limits.maxConcurrent - s.active
  {
    hide Counted, HandlesMatch, Shaped, NextQueuedEntry, InTransit, Waits, Of, Grant;
    if s.active < s.limits.maxConcurrent {
      NextSound(s, aborted, |s.queue|);
      NextKeepsSlots(s, aborted, |s.queue|);
      SearchMoves(s, aborted, |s.queue|, t);
      var (found, entry) := NextQueuedEntry(s, aborted, |s.queue|);
      if entry.Some? {
        var ticket, key := entry.value.ticket, entry.value.key;
        var granted := Grant(found, ticket, key);
        GrantKeeps(found, ticket, key);
        GrantHandles(found, ticket, key);
        GrantSound(found, ticket, key);
        GrantMoves(found, ticket, key, t);
        DrainMoves(granted, aborted, t);
        DrainHandsOut(granted, aborted, t);
        DifferentEvents(Of(s.log, t), t, s.calls[t]);
      } else {
        DifferentEvents(Of(s.log, t), t, s.calls[t]);
      }
    } else {
      DifferentEvents(Of(s.log, t), t, s.calls[t]);
    }
  }

  lemma DifferentEvents(events: seq<Event>, t: nat, key: Key)
    ensures events + [Granted(t, key)] != events + [Canceled(t, key)]
    ensures events + [Granted(t, key)] != events
  {
    LongerByTheCanceled(events, Granted(t, key), Canceled(t, key));
    assert |events + [Granted(t, key)]| == |events| + 1;
  }

  /** The first use of a handle gives its slot back, for good: every other handle stays, and the only new ones
      are those of waiting calls that it grants. A handle used before does nothing. */
  lemma ReleaseIsExact(s: Semaphore, ticket: nat, aborted: set<nat>, t: nat)
    requires Valid(s) && t < |s.calls|
    ensures
      var s' := Release(s, ticket, aborted);
      if ticket !in s.handles then s' == s
      else
        && ticket !in s'.handles && s'.calls == s.calls
        && (t != ticket ==>
              (t in s'.handles <==> t in s.handles || Settled(s, s', Granted(t, s.calls[t]))))
  {
    hide Counted, HandlesMatch, Shaped, DrainQueue, Waits, Of, DeleteGroupIfIdle;
    if ticket in s.handles {
      HandlesHoldSlots(s, ticket);
      HandleIsACall(s, ticket);
      var key := s.handles[ticket];
      var freed := Freed(s, ticket, key);
      var ready := DeleteGroupIfIdle(freed, key);
      FreedSound(s, ticket, key);
      DeleteIdleSound(freed, key);
      DeleteKeepsHandles(freed, key);
      DrainHandsOut(ready, aborted, ticket);
      DrainHandsOut(ready, aborted, t);
      SameEntries(s, freed, t);
      DeleteMoves(freed, key, t);
      SameEntries(s, freed, ticket);
      DeleteMoves(freed, key, ticket);
      HolderDoesNotWait(s, ticket);
    }
  }

  lemma DeleteKeepsHandles(s: Semaphore, key: Key)
    ensures DeleteGroupIfIdle(s, key).handles == s.handles && DeleteGroupIfIdle(s, key).calls == s.calls
  {
  }

  lemma HandleIsACall(s: Semaphore, ticket: nat)
    requires Valid(s) && ticket in s.handles
    ensures ticket < |s.calls| && s.calls[ticket] == s.handles[ticket]
  {
  }

  lemma HolderDoesNotWait(s: Semaphore, ticket: nat)
    requires Valid(s) && ticket in s.handles && ticket < |s.calls|
    ensures !Waits(s, ticket)
  {
    var key := s.calls[ticket];
    if key in s.groups {
      EntriesAreInOrder(s, key);
    }
  }
}
