// Arrival order and single settlement of the admission queue, over every run.
module SemaphoreOrder {
  import opened Outcomes
  import opened SemaphoreModel
  import opened SemaphoreSafety
  import opened SemaphoreFairness
  import opened SemaphoreLedger

  // ---------------------------------------------------------------- invariant

  /** A ticket not settled yet, behind every slot its key has been granted. */
  ghost predicate Pending(log: seq<Event>, ticket: nat, key: Key) {
    forall i :: 0 <= i < |log| ==>
      log[i].ticket != ticket && (log[i].Granted? && log[i].key == key ==> log[i].ticket < ticket)
  }

  ghost predicate LogOk(calls: seq<Key>, log: seq<Event>) {
    && (forall i :: 0 <= i < |log| ==> log[i].ticket < |calls| && calls[log[i].ticket] == log[i].key)
    && (forall i, j :: 0 <= i < j < |log| ==> log[i].ticket != log[j].ticket)
    && (forall i, j :: 0 <= i < j < |log| && log[i].Granted? && log[j].Granted? && log[i].key == log[j].key ==>
          log[i].ticket < log[j].ticket)
  }

  ghost predicate AllPending(log: seq<Event>, entries: seq<Entry>) {
    forall i :: 0 <= i < |entries| ==> Pending(log, entries[i].ticket, entries[i].key)
  }

  ghost predicate Ordered(s: Semaphore) {
    LogOk(s.calls, s.log) && forall k :: k in s.groups ==> AllPending(s.log, s.groups[k].entries)
  }

  // ---------------------------------------------------------------- small steps

  /** Groups may be listed, unlisted, resized or forgotten: only waiters and log matter. */
  lemma OrderUntouched(s: Semaphore, s': Semaphore)
    requires Ordered(s) && s'.log == s.log && s.calls <= s'.calls
    requires forall k :: k in s'.groups ==> k in s.groups && s'.groups[k].entries == s.groups[k].entries
    ensures Ordered(s')
  {
  }

  lemma {:induction false} CancelingSettles(calls: seq<Key>, log: seq<Event>, entries: seq<Entry>, key: Key)
    requires LogOk(calls, log) && AllPending(log, entries) && Tickets(calls, entries, key)
    ensures LogOk(calls, log + CanceledEvents(entries))
    ensures forall t: nat, k: Key ::
      Pending(log, t, k) && (forall i :: 0 <= i < |entries| ==> entries[i].ticket != t) ==>
        Pending(log + CanceledEvents(entries), t, k)
  {
    var log' := log + CanceledEvents(entries);
    forall i, j | 0 <= i < j < |log'| ensures log'[i].ticket != log'[j].ticket {
      if i < |log| <= j {
        assert Pending(log, entries[j - |log|].ticket, entries[j - |log|].key);
      }
    }
  }

  ghost predicate Tickets(calls: seq<Key>, entries: seq<Entry>, key: Key) {
    && (forall i :: 0 <= i < |entries| ==>
          entries[i].key == key && entries[i].ticket < |calls| && calls[entries[i].ticket] == key)
    && (forall i, j :: 0 <= i < j < |entries| ==> entries[i].ticket < entries[j].ticket)
  }

  lemma TicketsOf(s: Semaphore, k: Key)
    requires EntriesOk(s) && k in s.groups
    ensures Tickets(s.calls, s.groups[k].entries, k)
  {
    assert QueueOk(s, k, s.groups[k].entries);
  }

  lemma TakeKeepsOrder(s: Semaphore, key: Key, aborted: set<nat>)
    requires Ordered(s) && EntriesOk(s) && key in s.groups
    ensures
      var (s', entry) := TakeEntry(s, key, aborted);
      Ordered(s') && (entry.Some? ==> Pending(s'.log, entry.value.ticket, entry.value.key))
  {
    hide EntriesOk, LogOk, Pending;
    var entries := s.groups[key].entries;
    var n := LeadingCanceled(entries, aborted);
    var s' := TakeEntry(s, key, aborted).0;
    TicketsOf(s, key);
    CancelingSettles(s.calls, s.log, entries[..n], key);
    forall k | k in s'.groups ensures AllPending(s'.log, s'.groups[k].entries) {
      TicketsOf(s, k);
      forall i | 0 <= i < |s'.groups[k].entries|
        ensures Pending(s'.log, s'.groups[k].entries[i].ticket, s'.groups[k].entries[i].key)
      {
        var at := if k != key then i else i + |entries| - |s'.groups[k].entries|;
        assert s'.groups[k].entries[i] == s.groups[k].entries[at];
        assert Pending(s.log, s.groups[k].entries[at].ticket, s.groups[k].entries[at].key);
      }
    }
    if n < |entries| {
      assert Pending(s.log, entries[n].ticket, entries[n].key);
    }
  }

  lemma GrantKeepsOrder(s: Semaphore, ticket: nat, key: Key)
    requires Ordered(s) && EntriesOk(s) && InTransit(s, Entry(ticket, key)) && Pending(s.log, ticket, key)
    ensures Ordered(Grant(s, ticket, key))
  {
    hide EntriesOk;
    var s' := Grant(s, ticket, key);
    forall k | k in s'.groups ensures AllPending(s'.log, s'.groups[k].entries) {
      if k in s.groups {
        TicketsOf(s, k);
        assert AllPending(s.log, s.groups[k].entries);
      }
    }
  }

  // ---------------------------------------------------------------- search and drain

  lemma VisitKeepsOrder(s: Semaphore, aborted: set<nat>)
    requires Sound(s, None, None) && Ordered(s) && |s.queue| > 0
    ensures
      var (s', entry) := VisitGroup(s, aborted);
      Ordered(s') && (entry.Some? ==> Pending(s'.log, entry.value.ticket, entry.value.key))
  {
    hide Counted, HandlesMatch, EntriesOk, WithinCaps, NoneIdle, Ordered, Pending, TakeEntry;
    var key, popped := s.queue[0], Dequeue(s);
    OrderUntouched(s, popped);
    DequeueSound(s);
    OrderUntouched(popped, EnqueueGroup(popped, key));
    if GroupOf(popped, key).active < s.limits.maxConcurrentPerKey {
      TakeKeepsOrder(popped, key, aborted);
      var taken := TakeEntry(popped, key, aborted).0;
      var requeued := EnqueueGroup(taken, key);
      TakeHasGroup(popped, key, aborted);
      OrderUntouched(taken, requeued);
      OrderUntouched(requeued, DeleteGroupIfIdle(requeued, key));
    }
  }

  lemma TakeHasGroup(s: Semaphore, key: Key, aborted: set<nat>)
    ensures key in TakeEntry(s, key, aborted).0.groups
  {
  }

  lemma {:induction false} SearchKeepsOrder(s: Semaphore, aborted: set<nat>, remaining: nat)
    requires Sound(s, None, None) && TailAtCap(s, remaining) && Ordered(s)
    ensures
      var (s', entry) := NextQueuedEntry(s, aborted, remaining);
      Ordered(s') && (entry.Some? ==> Pending(s'.log, entry.value.ticket, entry.value.key))
    decreases remaining
  {
    hide Sound, VisitGroup, Ordered, Pending;
    if remaining > 0 && |s.queue| > 0 {
      VisitKeepsOrder(s, aborted);
      VisitSound(s, aborted, remaining);
      if VisitGroup(s, aborted).1.None? {
        SearchKeepsOrder(VisitGroup(s, aborted).0, aborted, remaining - 1);
      }
    }
  }

  lemma {:induction false} DrainKeepsOrder(s: Semaphore, aborted: set<nat>)
    requires Sound(s, None, None) && Ordered(s)
    ensures Ordered(DrainQueue(s, aborted))
    decreases s.limits.maxConcurrent - s.active
  {
    hide Counted, HandlesMatch, EntriesOk, WithinCaps, NoneIdle, Listed, NextQueuedEntry, Ordered, Pending, InTransit;
    if s.active < s.limits.maxConcurrent {
      NextSound(s, aborted, |s.queue|);
      SearchKeepsOrder(s, aborted, |s.queue|);
      NextKeepsSlots(s, aborted, |s.queue|);
      var (found, entry) := NextQueuedEntry(s, aborted, |s.queue|);
      if entry.Some? {
        GrantSound(found, entry.value.ticket, entry.value.key);
        GrantKeepsOrder(found, entry.value.ticket, entry.value.key);
        DrainKeepsOrder(Grant(found, entry.value.ticket, entry.value.key), aborted);
      }
    }
  }

  // ---------------------------------------------------------------- operations

  lemma NewCallIsPending(s: Semaphore, key: Key)
    requires Ordered(s)
    ensures Pending(s.log, |s.calls|, key)
  {
  }

  lemma PushKeepsOrder(s: Semaphore, ticket: nat, key: Key)
    requires Ordered(s) && Pending(s.log, ticket, key)
    ensures Ordered(EnqueueGroup(Pushed(s, ticket, key), key))
  {
    hide Pending, LogOk;
    var pushed := Pushed(s, ticket, key);
    forall k | k in pushed.groups ensures AllPending(pushed.log, pushed.groups[k].entries) {
      assert k in s.groups ==> AllPending(s.log, s.groups[k].entries);
    }
    OrderUntouched(pushed, EnqueueGroup(pushed, key));
  }

  lemma AcquireKeepsOrder(s: Semaphore, key: Key, alreadyAborted: bool, aborted: set<nat>)
    requires Valid(s) && Ordered(s) && s.limits.maxConcurrentPerKey > 0
    ensures Ordered(Acquire(s, key, alreadyAborted, aborted).0)
  {
    hide Sound, Counted, HandlesMatch, Shaped, DrainQueue, Ordered, Pending, Grant, EntriesOk;
    var ticket, g := |s.calls|, GroupOf(s, key);
    var s1 := s.(calls := s.calls + [key]);
    CallSound(s, key);
    OrderUntouched(s, s1);
    NewCallIsPending(s, key);
    if !alreadyAborted {
      if s.active < s.limits.maxConcurrent && g.active < s.limits.maxConcurrentPerKey {
        FastPathValid(s1, ticket, key);
        EntriesOfSound(s1);
        GrantKeepsOrder(s1, ticket, key);
      } else if s.queued < s.limits.maxQueued && |g.entries| < s.limits.maxQueuedPerKey {
        PushSound(s1, ticket, key);
        PushKeepsOrder(s1, ticket, key);
        DrainKeepsOrder(EnqueueGroup(Pushed(s1, ticket, key), key), aborted);
      }
    }
  }

  lemma EntriesOfSound(s: Semaphore)
    requires Valid(s)
    ensures EntriesOk(s)
  {
  }

  lemma ReleaseKeepsOrder(s: Semaphore, ticket: nat, aborted: set<nat>)
    requires Valid(s) && Ordered(s)
    ensures Ordered(Release(s, ticket, aborted))
  {
    hide Counted, HandlesMatch, Shaped, DrainQueue, Ordered;
    if ticket in s.handles && s.active > 0 && GroupOf(s, s.handles[ticket]).active > 0 {
      var key := s.handles[ticket];
      var freed := Freed(s, ticket, key);
      FreedSound(s, ticket, key);
      DeleteIdleSound(freed, key);
      OrderUntouched(s, freed);
      OrderUntouched(freed, DeleteGroupIfIdle(freed, key));
      DrainKeepsOrder(DeleteGroupIfIdle(freed, key), aborted);
    }
  }

  lemma AbortKeepsOrder(s: Semaphore, ticket: nat, key: Key)
    requires Valid(s) && Ordered(s)
    ensures Ordered(Abort(s, ticket, key))
  {
    hide Counted, HandlesMatch, EntriesOk, WithinCaps, NoneIdle, Listed, Ordered, Without;
    var s' := Abort(s, ticket, key);
    var i := PositionOf(GroupOf(s, key).entries, ticket);
    if i < |GroupOf(s, key).entries| && s.queued > 0 {
      CutKeepsOrder(s, key, i);
      OrderUntouched(Canceling(s, key, i), s');
    }
  }

  function Canceling(s: Semaphore, key: Key, i: nat): Semaphore
    requires i < |GroupOf(s, key).entries| && s.queued > 0
  {
    Cut(s, key, i).(log := s.log + [Canceled(GroupOf(s, key).entries[i].ticket, key)])
  }

  lemma CutKeepsOrder(s: Semaphore, key: Key, i: nat)
    requires EntriesOk(s) && Ordered(s) && i < |GroupOf(s, key).entries| && s.queued > 0
    ensures Ordered(Canceling(s, key, i))
  {
    hide EntriesOk, LogOk, Pending;
    var entries, s' := GroupOf(s, key).entries, Canceling(s, key, i);
    TicketsOf(s, key);
    CancelingSettles(s.calls, s.log, [entries[i]], key);
    assert s'.log == s.log + CanceledEvents([entries[i]]);
    forall k | k in s'.groups ensures AllPending(s'.log, s'.groups[k].entries) {
      TicketsOf(s, k);
      forall l | 0 <= l < |s'.groups[k].entries|
        ensures Pending(s'.log, s'.groups[k].entries[l].ticket, s'.groups[k].entries[l].key)
      {
        var at := if k != key || l < i then l else l + 1;
        assert s'.groups[k].entries[l] == s.groups[k].entries[at];
        assert Pending(s.log, s.groups[k].entries[at].ticket, s.groups[k].entries[at].key);
      }
    }
  }

  lemma ApplyKeepsOrder(s: Semaphore, op: Op, aborted: set<nat>)
    requires Valid(s) && Ordered(s) && s.limits.maxConcurrentPerKey > 0
    ensures Ordered(Apply(s, op, aborted))
  {
    hide Valid, Acquire, Abort, Release, Ordered;
    match op
    case DoAcquire(key, alreadyAborted) => AcquireKeepsOrder(s, key, alreadyAborted, aborted);
    case DoAbort(ticket, key) => AbortKeepsOrder(s, ticket, key);
    case DoRelease(ticket) => ReleaseKeepsOrder(s, ticket, aborted);
  }

  lemma {:induction false} RunIsOrdered(limits: Limits, turns: seq<Turn>)
    requires limits.maxConcurrentPerKey > 0
    ensures Ordered(Run(limits, turns))
  {
    hide Apply, Valid;
    if |turns| > 0 {
      var last := turns[|turns| - 1];
      RunIsOrdered(limits, turns[..|turns| - 1]);
      RunIsValid(limits, turns[..|turns| - 1]);
      ApplyKeepsOrder(Run(limits, turns[..|turns| - 1]), last.op, last.aborted);
    }
  }

  // ---------------------------------------------------------------- theorems

  /** Every acquire is settled at most once: its slot is granted once or its wait is canceled once. */
  lemma SettledOnce(limits: Limits, turns: seq<Turn>, i: nat, j: nat)
    requires limits.maxConcurrentPerKey > 0
    requires i < j < |Run(limits, turns).log|
    ensures Run(limits, turns).log[i].ticket != Run(limits, turns).log[j].ticket
  {
    hide Run;
    RunIsOrdered(limits, turns);
  }

  /** First come, first served within a key, apart from canceled waiters: slots are granted in the
      order of the calls, and nobody still waiting called before somebody who was served. */
  lemma FirstComeFirstServed(limits: Limits, turns: seq<Turn>, s: Semaphore, i: nat, j: nat)
    requires limits.maxConcurrentPerKey > 0 && s == Run(limits, turns)
    requires i < |s.log| && s.log[i].Granted?
    ensures i < j < |s.log| && s.log[j].Granted? && s.log[j].key == s.log[i].key ==> s.log[i].ticket < s.log[j].ticket
    ensures forall l :: 0 <= l < |GroupOf(s, s.log[i].key).entries| ==>
      s.log[i].ticket < GroupOf(s, s.log[i].key).entries[l].ticket
  {
    hide Run;
    RunIsOrdered(limits, turns);
    RunIsValid(limits, turns);
    var k := s.log[i].key;
    if k in s.groups {
      TicketsOf(s, k);
      assert AllPending(s.log, s.groups[k].entries);
      assert forall l :: 0 <= l < |s.groups[k].entries| ==> Pending(s.log, s.groups[k].entries[l].ticket, k);
    }
  }

  /** What each call of acquire was answered, by ticket. */
  function Answers(limits: Limits, turns: seq<Turn>): seq<Admission> {
    if |turns| == 0 then []
    else
      var last, front := turns[|turns| - 1], turns[..|turns| - 1];
      Answers(limits, front)
      + match last.op
        case DoAcquire(key, alreadyAborted) => [Acquire(Run(limits, front), key, alreadyAborted, last.aborted).1]
        case _ => []
  }

  lemma NoEventsBeforeTheCall(s: Semaphore, t: nat)
    requires Ordered(s) && t >= |s.calls|
    ensures Of(s.log, t) == []
  {
    OfAbsent(s.log, t);
  }

  lemma AnswerStands(s: Semaphore, s': Semaphore, t: nat, op: Op, aborted: set<nat>, answer: Admission)
    requires t < |s.calls| && s.calls <= s'.calls && Answered(s, t, answer) && Moved(s, s', t, op, aborted)
    ensures Answered(s', t, answer)
  {
    hide Waits, Of;
  }

  /** Nobody is lost: a call that was let in holds exactly one grant, one that was turned away is never heard
      of again, and one that was told to wait still does, or was granted or canceled exactly once. */
  lemma {:induction false} EveryCallIsAccountedFor(limits: Limits, turns: seq<Turn>, t: nat)
    requires limits.maxConcurrentPerKey > 0
    ensures |Answers(limits, turns)| == |Run(limits, turns).calls|
    ensures t < |Answers(limits, turns)| ==> Answered(Run(limits, turns), t, Answers(limits, turns)[t])
  {
    hide Valid, Ordered, Answered, Moved, Acquire, Abort, Release, Of;
    if |turns| > 0 {
      var last, front := turns[|turns| - 1], turns[..|turns| - 1];
      var before := Run(limits, front);
      EveryCallIsAccountedFor(limits, front, t);
      RunIsValid(limits, front);
      RunIsOrdered(limits, front);
      ApplyKeepsCalls(before, last.op, last.aborted);
      if t < |before.calls| {
        NoCallIsLost(before, last.op, last.aborted, t);
        AnswerStands(before, Run(limits, turns), t, last.op, last.aborted, Answers(limits, front)[t]);
      } else if last.op.DoAcquire? && t == |before.calls| {
        NoEventsBeforeTheCall(before, t);
        AcquireMoves(before, last.op.key, last.op.alreadyAborted, last.aborted, t);
      }
    }
  }
}
