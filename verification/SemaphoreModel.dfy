// The admission queue of BoundedSemaphore as transitions on values: a global slot count, one
// group per admission key, and a rotation of the groups that have waiters.
module SemaphoreModel {
  import opened Outcomes
  import opened Sequences

  /** Admission keys are only compared for equality. */
  type Key = nat

  /** A waiter. Tickets number the calls of acquire in order. */
  datatype Entry = Entry(ticket: nat, key: Key)

  datatype Group = Group(active: nat, entries: seq<Entry>, inQueue: bool)

  datatype Limits = Limits(maxConcurrent: nat, maxQueued: nat, maxConcurrentPerKey: nat, maxQueuedPerKey: nat)

  /** How a call of acquire was settled. */
  datatype Event = Granted(ticket: nat, key: Key) | Canceled(ticket: nat, key: Key)

  /** `handles` are the release handles not used yet, `log` the promises settled so far, and
      `calls` the key of every call of acquire so far: its index is the call's ticket. */
  datatype Semaphore = Semaphore(
    limits: Limits,
    active: nat,
    queued: nat,
    queue: seq<Key>,
    groups: map<Key, Group>,
    handles: map<nat, Key>,
    log: seq<Event>,
    calls: seq<Key>)

  datatype Admission = Admitted | Waiting | QueueFull | AlreadyAborted

  const DEFAULT_MAX_CONCURRENT_PER_KEY: nat := 4
  const DEFAULT_MAX_QUEUED_PER_KEY: nat := 16

  // ---------------------------------------------------------------- limits

  predicate BoundedPositive(value: int, maximum: nat) {
    1 <= value <= maximum
  }

  function CeilHalf(n: nat): nat {
    (n + 1) / 2
  }

  /** readPerKeyLimit: a key may never fill the whole semaphore, unless it has a single slot. */
  function ReadPerKeyLimit(value: Option<int>, globalLimit: nat, defaultLimit: nat, maximum: nat): Result<nat, ()> {
    var fallback := Min(defaultLimit, Max(1, CeilHalf(globalLimit)));
    var limit := if value.Some? then value.value else fallback;
    if !BoundedPositive(limit, maximum) || limit > globalLimit || (globalLimit > 1 && limit == globalLimit)
    then Err(()) else Ok(limit)
  }

  /** Accepted limits leave room for another key, and a limit left out is always accepted. */
  lemma PerKeyLimitReservesCapacity(value: Option<int>, globalLimit: nat, defaultLimit: nat, maximum: nat)
    requires 1 <= globalLimit && 1 <= defaultLimit <= maximum
    ensures ReadPerKeyLimit(value, globalLimit, defaultLimit, maximum).Ok? <==>
              value.None? || (1 <= value.value <= maximum
                              && (value.value < globalLimit || value.value == globalLimit == 1))
    ensures
      var r := ReadPerKeyLimit(value, globalLimit, defaultLimit, maximum);
      r.Ok? ==> 1 <= r.value && (r.value < globalLimit || globalLimit == 1)
  {
  }

  /** The checks of the constructor: all four limits are positive and bounded, and each limit of a key
      stays below its global limit. */
  function ReadLimits(maxConcurrent: int, maxQueued: int, perKeyConcurrent: Option<int>, perKeyQueued: Option<int>):
      Result<Limits, ()> {
    if !BoundedPositive(maxConcurrent, 1024) || !BoundedPositive(maxQueued, 100_000) then Err(())
    else
      var concurrent := ReadPerKeyLimit(perKeyConcurrent, maxConcurrent, DEFAULT_MAX_CONCURRENT_PER_KEY, 1024);
      var queued := ReadPerKeyLimit(perKeyQueued, maxQueued, DEFAULT_MAX_QUEUED_PER_KEY, 100_000);
      if concurrent.Err? || queued.Err? then Err(())
      else Ok(Limits(maxConcurrent, maxQueued, concurrent.value, queued.value))
  }

  /** Accepted limits are what every run below assumes, and no key can take all slots or all places. */
  lemma AcceptedLimitsReserveCapacity(
    maxConcurrent: int, maxQueued: int, perKeyConcurrent: Option<int>, perKeyQueued: Option<int>)
    requires ReadLimits(maxConcurrent, maxQueued, perKeyConcurrent, perKeyQueued).Ok?
    ensures
      var l := ReadLimits(maxConcurrent, maxQueued, perKeyConcurrent, perKeyQueued).value;
      && 0 < l.maxConcurrentPerKey <= l.maxConcurrent && 0 < l.maxQueuedPerKey <= l.maxQueued
      && (l.maxConcurrent > 1 ==> l.maxConcurrentPerKey < l.maxConcurrent)
      && (l.maxQueued > 1 ==> l.maxQueuedPerKey < l.maxQueued)
  {
    PerKeyLimitReservesCapacity(perKeyConcurrent, maxConcurrent, DEFAULT_MAX_CONCURRENT_PER_KEY, 1024);
    PerKeyLimitReservesCapacity(perKeyQueued, maxQueued, DEFAULT_MAX_QUEUED_PER_KEY, 100_000);
  }

  // ---------------------------------------------------------------- groups and rotation

  const NEW_GROUP := Group(0, [], false)

  function GroupOf(s: Semaphore, key: Key): Group {
    if key in s.groups then s.groups[key] else NEW_GROUP
  }

  /** indexOf followed by splice: removes the first occurrence. */
  function Without(queue: seq<Key>, key: Key): seq<Key> {
    if |queue| == 0 then []
    else if queue[0] == key then queue[1..]
    else [queue[0]] + Without(queue[1..], key)
  }

  function EnqueueGroup(s: Semaphore, key: Key): Semaphore {
    var g := GroupOf(s, key);
    if g.inQueue || |g.entries| == 0 then s
    else s.(groups := s.groups[key := g.(inQueue := true)], queue := s.queue + [key])
  }

  function RemoveGroupFromQueue(s: Semaphore, key: Key): Semaphore {
    var g := GroupOf(s, key);
    if !g.inQueue then s
    else s.(groups := s.groups[key := g.(inQueue := false)], queue := Without(s.queue, key))
  }

  function DeleteGroupIfIdle(s: Semaphore, key: Key): Semaphore {
    var g := GroupOf(s, key);
    if g.active == 0 && |g.entries| == 0 then
      var s' := RemoveGroupFromQueue(s, key);
      s'.(groups := s'.groups - {key})
    else s
  }

  /** _grant: takes a slot and creates the release handle. */
  function Grant(s: Semaphore, ticket: nat, key: Key): Semaphore {
    var g := GroupOf(s, key);
    s.(active := s.active + 1,
       groups := s.groups[key := g.(active := g.active + 1)],
       handles := s.handles[ticket := key],
       log := s.log + [Granted(ticket, key)])
  }

  // ---------------------------------------------------------------- draining

  /** How many waiters at the head of a group are canceled already (their signal has fired, its
      listener has not run yet). */
  function LeadingCanceled(entries: seq<Entry>, aborted: set<nat>): (n: nat)
    ensures n <= |entries|
    ensures n < |entries| ==> entries[n].ticket !in aborted
    ensures forall i :: 0 <= i < n ==> entries[i].ticket in aborted
  {
    if |entries| == 0 || entries[0].ticket !in aborted then 0
    else 1 + LeadingCanceled(entries[1..], aborted)
  }

  function CanceledEvents(entries: seq<Entry>): (events: seq<Event>)
    ensures |events| == |entries|
    ensures forall i :: 0 <= i < |entries| ==> events[i] == Canceled(entries[i].ticket, entries[i].key)
  {
    seq(|entries|, i requires 0 <= i < |entries| => Canceled(entries[i].ticket, entries[i].key))
  }

  /** Takes the first live waiter of a group, settling the canceled ones before it. */
  function TakeEntry(s: Semaphore, key: Key, aborted: set<nat>): (Semaphore, Option<Entry>) {
    var g := GroupOf(s, key);
    var n := LeadingCanceled(g.entries, aborted);
    var taken := if n < |g.entries| then n + 1 else n;
    (s.(queued := if s.queued >= taken then s.queued - taken else 0,
        groups := s.groups[key := g.(entries := g.entries[taken..])],
        log := s.log + CanceledEvents(g.entries[..n])),
     if n < |g.entries| then Some(g.entries[n]) else None)
  }

  function Dequeue(s: Semaphore): Semaphore
    requires |s.queue| > 0
  {
    var key := s.queue[0];
    s.(queue := s.queue[1..], groups := s.groups[key := GroupOf(s, key).(inQueue := false)])
  }

  /** One round of _nextQueuedEntry: the group at the head of the rotation is passed over at its
      cap, served, or forgotten if only canceled waiters were left. */
  function VisitGroup(s: Semaphore, aborted: set<nat>): (Semaphore, Option<Entry>)
    requires |s.queue| > 0
  {
    var key := s.queue[0];
    var popped := Dequeue(s);
    if GroupOf(popped, key).active >= s.limits.maxConcurrentPerKey then (EnqueueGroup(popped, key), None)
    else
      var (taken, entry) := TakeEntry(popped, key, aborted);
      var requeued := EnqueueGroup(taken, key);
      (if entry.Some? then requeued else DeleteGroupIfIdle(requeued, key), entry)
  }

  /** _nextQueuedEntry with `remaining` groups still to look at. */
  function NextQueuedEntry(s: Semaphore, aborted: set<nat>, remaining: nat): (Semaphore, Option<Entry>)
    decreases remaining
  {
    if remaining == 0 || |s.queue| == 0 then (s, None)
    else
      var (visited, entry) := VisitGroup(s, aborted);
      if entry.Some? then (visited, entry) else NextQueuedEntry(visited, aborted, remaining - 1)
  }

  function DrainQueue(s: Semaphore, aborted: set<nat>): Semaphore
    decreases s.limits.maxConcurrent - s.active
  {
    if s.active >= s.limits.maxConcurrent then s
    else
      var (found, entry) := NextQueuedEntry(s, aborted, |s.queue|);
      NextKeepsSlots(s, aborted, |s.queue|);
      if entry.None? then found else DrainQueue(Grant(found, entry.value.ticket, entry.value.key), aborted)
  }

  lemma NextKeepsSlots(s: Semaphore, aborted: set<nat>, remaining: nat)
    ensures
      var s' := NextQueuedEntry(s, aborted, remaining).0;
      && s'.limits == s.limits && s'.active == s.active && s'.handles == s.handles && s'.calls == s.calls
    decreases remaining
  {
  }

  // ---------------------------------------------------------------- operations

  /** acquire(signal, key). */
  function Acquire(s: Semaphore, key: Key, alreadyAborted: bool, aborted: set<nat>): (Semaphore, Admission) {
    var ticket, g := |s.calls|, GroupOf(s, key);
    var s1 := s.(calls := s.calls + [key]);
    if alreadyAborted then (s1, AlreadyAborted)
    else if s.active < s.limits.maxConcurrent && g.active < s.limits.maxConcurrentPerKey then
      (Grant(s1, ticket, key), Admitted)
    else if s.queued >= s.limits.maxQueued || |g.entries| >= s.limits.maxQueuedPerKey then (s1, QueueFull)
    else
      var pushed := s1.(queued := s.queued + 1,
                        groups := s.groups[key := g.(entries := g.entries + [Entry(ticket, key)])]);
      (DrainQueue(EnqueueGroup(pushed, key), aborted), Waiting)
  }

  /** indexOf, of the entry with this ticket. */
  function PositionOf(entries: seq<Entry>, ticket: nat): (i: nat)
    ensures i <= |entries|
    ensures i < |entries| ==> entries[i].ticket == ticket
    ensures i == |entries| ==> forall j :: 0 <= j < |entries| ==> entries[j].ticket != ticket
  {
    FirstIndex(entries, (e: Entry) => e.ticket == ticket)
  }

  /** The abort listener: _removeQueuedEntry, then the rejection. */
  function Abort(s: Semaphore, ticket: nat, key: Key): Semaphore {
    var g := GroupOf(s, key);
    var i := PositionOf(g.entries, ticket);
    if i >= |g.entries| || s.queued == 0 then s
    else
      var rest := g.entries[..i] + g.entries[i + 1..];
      var cut := s.(queued := s.queued - 1, groups := s.groups[key := g.(entries := rest)]);
      var unlisted := if |rest| == 0 then RemoveGroupFromQueue(cut, key) else cut;
      var after := DeleteGroupIfIdle(unlisted, key);
      after.(log := after.log + [Canceled(ticket, key)])
  }

  /** A release handle: the first call gives the slot back, later calls do nothing. */
  function Release(s: Semaphore, ticket: nat, aborted: set<nat>): Semaphore {
    if ticket !in s.handles || s.active == 0 || GroupOf(s, s.handles[ticket]).active == 0 then s
    else
      var key := s.handles[ticket];
      var g := GroupOf(s, key);
      var freed := s.(active := s.active - 1,
                      groups := s.groups[key := g.(active := g.active - 1)],
                      handles := s.handles - {ticket});
      DrainQueue(DeleteGroupIfIdle(freed, key), aborted)
  }

  datatype Op =
    | DoAcquire(key: Key, alreadyAborted: bool)
    | DoAbort(ticket: nat, key: Key)
    | DoRelease(ticket: nat)

  function Apply(s: Semaphore, op: Op, aborted: set<nat>): Semaphore {
    match op
    case DoAcquire(key, alreadyAborted) => Acquire(s, key, alreadyAborted, aborted).0
    case DoAbort(ticket, key) => Abort(s, ticket, key)
    case DoRelease(ticket) => Release(s, ticket, aborted)
  }

  function Initial(limits: Limits): Semaphore {
    Semaphore(limits, 0, 0, [], map[], map[], [], [])
  }
}
