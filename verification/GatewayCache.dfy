// The response cache of the gateway: entries in recency order, a byte counter, two limits.
module GatewayCache {
  import opened Outcomes
  import opened Sequences

  type Key = nat
  type Scope = nat

  /** `used` is the number of the operation that wrote the entry or last read it: bookkeeping of this
      model, against which the order of the entries is judged. */
  datatype Entry = Entry(key: Key, bytes: nat, expiresAt: nat, scope: Scope, value: nat, used: nat)

  datatype Limits = Limits(maxEntries: nat, maxBytes: nat, ttl: nat)

  datatype Cache = Cache(entries: seq<Entry>, bytes: nat, tick: nat)

  const Empty := Cache([], 0, 0)

  // ---------------------------------------------------------------- operations

  function PositionOf(entries: seq<Entry>, key: Key): (i: nat)
    ensures i <= |entries|
    ensures i < |entries| ==> entries[i].key == key
    ensures forall j :: 0 <= j < i ==> entries[j].key != key
  {
    FirstIndex(entries, (e: Entry) => e.key == key)
  }

  function Cut(entries: seq<Entry>, i: nat): seq<Entry>
    requires i < |entries|
  {
    entries[..i] + entries[i + 1..]
  }

  /** _deleteCacheEntry: the counter is clamped at zero. */
  function Delete(c: Cache, key: Key): Cache {
    var i := PositionOf(c.entries, key);
    if i == |c.entries| then c
    else c.(entries := Cut(c.entries, i), bytes := Max(0, c.bytes - c.entries[i].bytes))
  }

  predicate Fits(limits: Limits, entries: nat, bytes: nat) {
    entries <= limits.maxEntries && bytes <= limits.maxBytes
  }

  /** The eviction loop of _writeCache. */
  function Evict(limits: Limits, c: Cache): Cache
    decreases |c.entries|
  {
    if Fits(limits, |c.entries|, c.bytes) || |c.entries| == 0 then c
    else Evict(limits, Delete(c, c.entries[0].key))
  }

  function Tock(c: Cache): Cache {
    c.(tick := c.tick + 1)
  }

  /** _readCache: drops an expired entry, moves a live one to the end. */
  function Read(c: Cache, key: Key, now: nat): (Cache, Option<nat>) {
    var i := PositionOf(c.entries, key);
    if i == |c.entries| then (Tock(c), None)
    else if c.entries[i].expiresAt <= now then (Tock(Delete(c, key)), None)
    else
      var entry := c.entries[i].(used := c.tick);
      (Tock(c.(entries := Cut(c.entries, i) + [entry])), Some(entry.value))
  }

  /** What _writeCache holds before it evicts. */
  function Inserted(limits: Limits, c: Cache, key: Key, bytes: nat, scope: Scope, value: nat, now: nat): Cache {
    var cleared := Delete(c, key);
    var entry := Entry(key, bytes, now + limits.ttl, scope, value, c.tick);
    Tock(cleared.(entries := cleared.entries + [entry], bytes := cleared.bytes + bytes))
  }

  /** Values too large are not cached, and an unexpired entry is never overwritten. */
  predicate Refused(limits: Limits, c: Cache, key: Key, bytes: nat, now: nat) {
    var i := PositionOf(c.entries, key);
    bytes > limits.maxBytes || (i < |c.entries| && c.entries[i].expiresAt > now)
  }

  /** _writeCache. */
  function Write(limits: Limits, c: Cache, key: Key, bytes: nat, scope: Scope, value: nat, now: nat): Cache {
    if Refused(limits, c, key, bytes, now) then Tock(c)
    else Evict(limits, Inserted(limits, c, key, bytes, scope, value, now))
  }

  /** The loops of pruneCache and _clearLocalProfileState delete the entries that meet a condition. */
  function DeleteWhere(c: Cache, todo: seq<Entry>, gone: Entry -> bool): Cache
    decreases |todo|
  {
    if |todo| == 0 then c
    else DeleteWhere(if gone(todo[0]) then Delete(c, todo[0].key) else c, todo[1..], gone)
  }

  function Prune(c: Cache, now: nat): Cache {
    Tock(DeleteWhere(c, c.entries, (e: Entry) => e.expiresAt <= now))
  }

  function ClearScope(c: Cache, scope: Scope): Cache {
    Tock(DeleteWhere(c, c.entries, (e: Entry) => e.scope == scope))
  }

  // ---------------------------------------------------------------- invariant

  function SumBytes(entries: seq<Entry>): nat {
    if |entries| == 0 then 0 else entries[0].bytes + SumBytes(entries[1..])
  }

  /** Entries stand in the order of their last use, the keys are distinct, the counter is exact. */
  ghost predicate Sound(c: Cache) {
    DistinctKeys(c.entries) && InOrderOfUse(c.entries, c.tick) && c.bytes == SumBytes(c.entries)
  }

  ghost predicate DistinctKeys(entries: seq<Entry>) {
    forall i, j :: 0 <= i < j < |entries| ==> entries[i].key != entries[j].key
  }

  ghost predicate InOrderOfUse(entries: seq<Entry>, tick: nat) {
    && (forall i, j :: 0 <= i < j < |entries| ==> entries[i].used < entries[j].used)
    && (forall i :: 0 <= i < |entries| ==> entries[i].used < tick)
  }

  ghost predicate Valid(limits: Limits, c: Cache) {
    Sound(c) && Fits(limits, |c.entries|, c.bytes)
  }

  lemma {:induction false} SumAppends(a: seq<Entry>, b: seq<Entry>)
    ensures SumBytes(a + b) == SumBytes(a) + SumBytes(b)
  {
    if |a| == 0 {
      assert a + b == b;
    } else {
      assert (a + b)[1..] == a[1..] + b;
      SumAppends(a[1..], b);
    }
  }

  lemma {:induction false} SumCuts(entries: seq<Entry>, i: nat)
    requires i < |entries|
    ensures SumBytes(entries) == SumBytes(Cut(entries, i)) + entries[i].bytes
  {
    if i == 0 {
      assert Cut(entries, 0) == entries[1..];
    } else {
      var rest := Cut(entries[1..], i - 1);
      SumCuts(entries[1..], i - 1);
      assert Cut(entries, i) == [entries[0]] + rest;
      assert ([entries[0]] + rest)[1..] == rest;
    }
  }

  /** The clamp of the byte counter never fires: what is subtracted is part of the sum. */
  lemma ClampNeverFires(c: Cache, key: Key)
    requires Sound(c) && PositionOf(c.entries, key) < |c.entries|
    ensures c.bytes >= c.entries[PositionOf(c.entries, key)].bytes
  {
    SumCuts(c.entries, PositionOf(c.entries, key));
  }

  /** Cutting one entry out keeps the rest, in order. */
  lemma CutKeeps(entries: seq<Entry>, i: nat, tick: nat)
    requires i < |entries| && DistinctKeys(entries) && InOrderOfUse(entries, tick)
    ensures DistinctKeys(Cut(entries, i)) && InOrderOfUse(Cut(entries, i), tick)
  {
    var cut := Cut(entries, i);
    assert forall j :: 0 <= j < |cut| ==> cut[j] == entries[if j < i then j else j + 1];
  }

  lemma CutSelects(entries: seq<Entry>, i: nat)
    requires i < |entries| && DistinctKeys(entries)
    ensures forall e :: e in Cut(entries, i) <==> e in entries && e.key != entries[i].key
  {
    var cut := Cut(entries, i);
    assert forall j :: 0 <= j < |cut| ==> cut[j] == entries[if j < i then j else j + 1];
    forall e | e in entries && e.key != entries[i].key ensures e in cut {
      var j :| 0 <= j < |entries| && entries[j] == e;
      assert cut[if j < i then j else j - 1] == e;
    }
  }

  lemma DeleteKeeps(c: Cache, key: Key)
    requires Sound(c)
    ensures Sound(Delete(c, key)) && Delete(c, key).tick == c.tick
    ensures |Delete(c, key).entries| <= |c.entries| && Delete(c, key).bytes <= c.bytes
    ensures forall e :: e in Delete(c, key).entries <==> e in c.entries && e.key != key
  {
    hide DistinctKeys, InOrderOfUse, SumBytes;
    var i := PositionOf(c.entries, key);
    if i < |c.entries| {
      SumCuts(c.entries, i);
      CutKeeps(c.entries, i, c.tick);
      CutSelects(c.entries, i);
    }
  }

  /** A newly used entry with a key of its own goes to the end. */
  lemma AppendKeeps(entries: seq<Entry>, entry: Entry, tick: nat)
    requires DistinctKeys(entries) && InOrderOfUse(entries, tick) && entry.used == tick
    requires forall e :: e in entries ==> e.key != entry.key
    ensures DistinctKeys(entries + [entry]) && InOrderOfUse(entries + [entry], tick + 1)
    ensures SumBytes(entries + [entry]) == SumBytes(entries) + entry.bytes
  {
    assert forall i :: 0 <= i < |entries| ==> entries[i] in entries;
    SumAppends(entries, [entry]);
    assert [entry][1..] == [];
  }

  lemma ReadKeeps(limits: Limits, c: Cache, key: Key, now: nat)
    requires Valid(limits, c)
    ensures Valid(limits, Read(c, key, now).0)
  {
    hide DistinctKeys, InOrderOfUse, SumBytes;
    var i := PositionOf(c.entries, key);
    LaterTick(c.entries, c.tick);
    if i < |c.entries| {
      DeleteKeeps(c, key);
      LaterTick(Delete(c, key).entries, c.tick);
      SumCuts(c.entries, i);
      CutKeeps(c.entries, i, c.tick);
      CutSelects(c.entries, i);
      AppendKeeps(Cut(c.entries, i), c.entries[i].(used := c.tick), c.tick);
    }
  }

  lemma LaterTick(entries: seq<Entry>, tick: nat)
    ensures InOrderOfUse(entries, tick) ==> InOrderOfUse(entries, tick + 1)
  {
  }

  /** A read gives the value of exactly a live entry, which it makes the most recent and changes in nothing else;
      it drops an expired one. */
  lemma ReadIsExact(c: Cache, key: Key, now: nat)
    requires Sound(c)
    ensures
      var (c', value) := Read(c, key, now);
      && (value.Some? <==> exists e :: e in c.entries && e.key == key && e.expiresAt > now)
      && (value.Some? ==>
            && |c'.entries| == |c.entries| > 0
            && exists e :: e in c.entries && e.key == key && e.expiresAt > now && value == Some(e.value)
                           && c'.entries[|c'.entries| - 1] == e.(used := c.tick))
      && (forall e :: e in c'.entries && e.key != key <==> e in c.entries && e.key != key)
      && (value.None? ==> forall e :: e in c'.entries ==> e.key != key)
  {
    DeleteKeeps(c, key);
    var i := PositionOf(c.entries, key);
    if i < |c.entries| {
      assert c.entries[i] in c.entries;
      var rest := Cut(c.entries, i);
      assert rest == Delete(c, key).entries;
    }
  }

  // ---------------------------------------------------------------- write

  lemma InsertedKeeps(limits: Limits, c: Cache, key: Key, bytes: nat, scope: Scope, value: nat, now: nat)
    requires Valid(limits, c)
    ensures Sound(Inserted(limits, c, key, bytes, scope, value, now))
  {
    hide DistinctKeys, InOrderOfUse, SumBytes, Delete;
    DeleteKeeps(c, key);
    AppendKeeps(Delete(c, key).entries, Entry(key, bytes, now + limits.ttl, scope, value, c.tick), c.tick);
  }

  /** Eviction drops a prefix, the least recently used entries, and as few of them as will do. */
  lemma {:induction false} EvictDropsLeastRecent(limits: Limits, c: Cache) returns (dropped: nat)
    requires Sound(c)
    ensures dropped <= |c.entries| && Evict(limits, c).entries == c.entries[dropped..]
    ensures forall k :: 0 <= k < dropped ==> !Fits(limits, |c.entries| - k, SumBytes(c.entries[k..]))
    ensures Sound(Evict(limits, c)) && Evict(limits, c).tick == c.tick
    ensures Fits(limits, |Evict(limits, c).entries|, Evict(limits, c).bytes) || dropped == |c.entries|
    decreases |c.entries|
  {
    hide DistinctKeys, InOrderOfUse, SumBytes;
    if Fits(limits, |c.entries|, c.bytes) || |c.entries| == 0 {
      dropped := 0;
      assert c.entries[0..] == c.entries;
    } else {
      var next := Delete(c, c.entries[0].key);
      DeleteKeeps(c, c.entries[0].key);
      assert next.entries == c.entries[1..] by {
        assert c.entries[..0] + c.entries[1..] == c.entries[1..];
      }
      var more := EvictDropsLeastRecent(limits, next);
      dropped := more + 1;
      assert c.entries[0..] == c.entries;
      forall k | 0 <= k < dropped ensures !Fits(limits, |c.entries| - k, SumBytes(c.entries[k..])) {
        if k > 0 {
          assert next.entries[k - 1..] == c.entries[k..];
        }
      }
    }
  }

  /** After a write that is not refused: both limits hold, the new entry is there and is the most
      recent, and what is kept is the longest run of most recently used entries that fits. */
  lemma WriteKeepsTheMostRecent(
    limits: Limits, c: Cache, key: Key, bytes: nat, scope: Scope, value: nat, now: nat) returns (dropped: nat)
    requires Valid(limits, c) && limits.maxEntries >= 1 && !Refused(limits, c, key, bytes, now)
    ensures
      var all := Delete(c, key).entries + [Entry(key, bytes, now + limits.ttl, scope, value, c.tick)];
      var c' := Write(limits, c, key, bytes, scope, value, now);
      && Valid(limits, c')
      && dropped < |all| && c'.entries == all[dropped..]
      && c'.entries[|c'.entries| - 1] == all[|all| - 1]
      && (forall k :: 0 <= k < dropped ==> !Fits(limits, |all| - k, SumBytes(all[k..])))
  {
    hide Fits, Evict, Delete, Sound;
    var inserted := Inserted(limits, c, key, bytes, scope, value, now);
    var all := inserted.entries;
    InsertedKeeps(limits, c, key, bytes, scope, value, now);
    dropped := EvictDropsLeastRecent(limits, inserted);
    NewestFits(limits, all, bytes);
  }

  lemma NewestFits(limits: Limits, all: seq<Entry>, bytes: nat)
    requires |all| > 0 && all[|all| - 1].bytes == bytes <= limits.maxBytes && limits.maxEntries >= 1
    ensures Fits(limits, 1, SumBytes(all[|all| - 1..]))
  {
    assert all[|all| - 1..] == [all[|all| - 1]] && all[|all| - 1..][1..] == [];
  }

  /** A refused write changes no entry. */
  lemma RefusedWriteKeepsAll(limits: Limits, c: Cache, key: Key, bytes: nat, scope: Scope, value: nat, now: nat)
    requires Valid(limits, c)
    ensures Refused(limits, c, key, bytes, now) <==>
              bytes > limits.maxBytes || exists e :: e in c.entries && e.key == key && e.expiresAt > now
    ensures Refused(limits, c, key, bytes, now) ==> Write(limits, c, key, bytes, scope, value, now) == Tock(c)
  {
    var i := PositionOf(c.entries, key);
    if i < |c.entries| {
      assert c.entries[i] in c.entries;
    }
  }

  // ---------------------------------------------------------------- deletion loops

  lemma {:induction false} DeleteWhereKeeps(limits: Limits, c: Cache, todo: seq<Entry>, gone: Entry -> bool)
    requires Valid(limits, c)
    ensures Valid(limits, DeleteWhere(c, todo, gone)) && DeleteWhere(c, todo, gone).tick == c.tick
    ensures forall e :: e in DeleteWhere(c, todo, gone).entries
              <==> e in c.entries && forall t :: t in todo && t.key == e.key ==> !gone(t)
    decreases |todo|
  {
    if |todo| > 0 {
      hide Sound;
      DeleteKeeps(c, todo[0].key);
      DeleteWhereKeeps(limits, if gone(todo[0]) then Delete(c, todo[0].key) else c, todo[1..], gone);
      assert todo == [todo[0]] + todo[1..];
    }
  }

  /** A deletion loop over all entries leaves exactly those that do not meet the condition. */
  lemma DeletionIsExact(limits: Limits, c: Cache, gone: Entry -> bool)
    requires Valid(limits, c)
    ensures Valid(limits, Tock(DeleteWhere(c, c.entries, gone)))
    ensures forall e :: e in DeleteWhere(c, c.entries, gone).entries <==> e in c.entries && !gone(e)
  {
    hide InOrderOfUse, SumBytes;
    DeleteWhereKeeps(limits, c, c.entries, gone);
    LaterTick(DeleteWhere(c, c.entries, gone).entries, c.tick);
    forall e, t | e in c.entries && t in c.entries && t.key == e.key ensures t == e {
      var i :| 0 <= i < |c.entries| && c.entries[i] == e;
      var j :| 0 <= j < |c.entries| && c.entries[j] == t;
    }
  }

  /** Clearing a profile leaves none of its entries and all of the others. */
  lemma ClearScopeIsExact(limits: Limits, c: Cache, scope: Scope)
    requires Valid(limits, c)
    ensures Valid(limits, ClearScope(c, scope))
    ensures forall e :: e in ClearScope(c, scope).entries <==> e in c.entries && e.scope != scope
  {
    DeletionIsExact(limits, c, (e: Entry) => e.scope == scope);
  }

  /** Pruning leaves exactly the unexpired entries. */
  lemma PruneIsExact(limits: Limits, c: Cache, now: nat)
    requires Valid(limits, c)
    ensures Valid(limits, Prune(c, now))
    ensures forall e :: e in Prune(c, now).entries <==> e in c.entries && e.expiresAt > now
  {
    DeletionIsExact(limits, c, (e: Entry) => e.expiresAt <= now);
  }

  // ---------------------------------------------------------------- what a read returns, over whole runs

  /** What was written can be read until it expires. */
  lemma WrittenValueIsRead(
    limits: Limits, c: Cache, key: Key, bytes: nat, scope: Scope, value: nat, now: nat, later: nat)
    requires Valid(limits, c) && limits.maxEntries >= 1 && !Refused(limits, c, key, bytes, now)
    requires later < now + limits.ttl
    ensures Read(Write(limits, c, key, bytes, scope, value, now), key, later).1 == Some(value)
  {
    hide Inserted, Evict, Delete, Refused, Write, Read, DistinctKeys, InOrderOfUse, SumBytes;
    var dropped := WriteKeepsTheMostRecent(limits, c, key, bytes, scope, value, now);
    var c' := Write(limits, c, key, bytes, scope, value, now);
    var last := c'.entries[|c'.entries| - 1];
    assert last in c'.entries && last.key == key && last.value == value && last.expiresAt > later;
    ReadIsExact(c', key, later);
    OneEntryPerKey(c', last, key);
  }

  lemma OneEntryPerKey(c: Cache, entry: Entry, key: Key)
    requires Sound(c) && entry in c.entries && entry.key == key
    ensures forall e :: e in c.entries && e.key == key ==> e == entry
  {
    var i :| 0 <= i < |c.entries| && c.entries[i] == entry;
    forall e | e in c.entries && e.key == key ensures e == entry {
      var j :| 0 <= j < |c.entries| && c.entries[j] == e;
    }
  }

  datatype Op =
    | DoRead(key: Key, now: nat)
    | DoWrite(key: Key, bytes: nat, scope: Scope, value: nat, now: nat)
    | DoPrune(now: nat)
    | DoClear(scope: Scope)

  function Apply(limits: Limits, c: Cache, op: Op): Cache {
    match op
    case DoRead(key, now) => Read(c, key, now).0
    case DoWrite(key, bytes, scope, value, now) => Write(limits, c, key, bytes, scope, value, now)
    case DoPrune(now) => Prune(c, now)
    case DoClear(scope) => ClearScope(c, scope)
  }

  function Run(limits: Limits, ops: seq<Op>): Cache {
    if |ops| == 0 then Empty else Apply(limits, Run(limits, ops[..|ops| - 1]), ops[|ops| - 1])
  }

  /** The last write of a run that was accepted under the key. */
  function LastWritten(limits: Limits, ops: seq<Op>, key: Key): Option<Op> {
    if |ops| == 0 then None
    else
      var front, op := ops[..|ops| - 1], ops[|ops| - 1];
      if op.DoWrite? && op.key == key && !Refused(limits, Run(limits, front), key, op.bytes, op.now) then Some(op)
      else LastWritten(limits, front, key)
  }

  /** The entry is what the write stored. */
  predicate Stores(limits: Limits, write: Option<Op>, e: Entry) {
    && write.Some? && write.value.DoWrite? && write.value.key == e.key && write.value.value == e.value
    && write.value.bytes == e.bytes && write.value.scope == e.scope && write.value.now + limits.ttl == e.expiresAt
  }

  lemma ApplyKeepsEntries(limits: Limits, c: Cache, op: Op)
    requires Valid(limits, c) && limits.maxEntries >= 1
    ensures Valid(limits, Apply(limits, c, op))
    ensures forall e :: e in Apply(limits, c, op).entries ==>
      || (exists was :: was in c.entries && was.(used := e.used) == e)
      || (op.DoWrite? && !Refused(limits, c, op.key, op.bytes, op.now)
          && e == Entry(op.key, op.bytes, op.now + limits.ttl, op.scope, op.value, c.tick))
    ensures op.DoWrite? && !Refused(limits, c, op.key, op.bytes, op.now) ==>
      forall e :: e in Apply(limits, c, op).entries && e.key == op.key ==>
        e == Entry(op.key, op.bytes, op.now + limits.ttl, op.scope, op.value, c.tick)
  {
    hide Inserted, Evict, Refused, DistinctKeys, InOrderOfUse, SumBytes, Read;
    forall e: Entry ensures e.(used := e.used) == e {
    }
    match op
    case DoRead(key, now) =>
      ReadKeeps(limits, c, key, now);
      ReadEntries(c, key, now);
    case DoWrite(key, bytes, scope, value, now) =>
      WriteKeeps(limits, c, key, bytes, scope, value, now);
      if !Refused(limits, c, key, bytes, now) {
        var dropped := WriteKeepsTheMostRecent(limits, c, key, bytes, scope, value, now);
        DeleteKeeps(c, key);
      }
    case DoPrune(now) => PruneIsExact(limits, c, now);
    case DoClear(scope) => ClearScopeIsExact(limits, c, scope);
  }

  lemma ReadEntries(c: Cache, key: Key, now: nat)
    requires Sound(c)
    ensures forall e :: e in Read(c, key, now).0.entries ==> exists was :: was in c.entries && was.(used := e.used) == e
  {
    hide DistinctKeys, InOrderOfUse, SumBytes;
    DeleteKeeps(c, key);
    forall e | e in Read(c, key, now).0.entries ensures exists was :: was in c.entries && was.(used := e.used) == e {
      var i := PositionOf(c.entries, key);
      if i < |c.entries| {
        assert c.entries[i] in c.entries;
        CutSelects(c.entries, i);
      }
      if e in c.entries {
        assert e.(used := e.used) == e;
      }
    }
  }

  /** Over every run an entry is what was last written under its key, whatever was read, evicted, pruned or cleared
      in between: and so is what a read returns. */
  lemma {:induction false} ReadsReturnWhatWasLastWritten(limits: Limits, ops: seq<Op>, key: Key, now: nat)
    requires limits.maxEntries >= 1
    ensures Valid(limits, Run(limits, ops))
    ensures forall e :: e in Run(limits, ops).entries && e.key == key ==>
      Stores(limits, LastWritten(limits, ops, key), e)
    ensures
      var value, write := Read(Run(limits, ops), key, now).1, LastWritten(limits, ops, key);
      value.Some? ==> write.Some? && write.value.DoWrite? && value == Some(write.value.value)
                      && now < write.value.now + limits.ttl
  {
    hide Valid, Apply, Refused, Read;
    if |ops| == 0 {
      EmptyIsValid(limits);
    } else {
      var front, op := ops[..|ops| - 1], ops[|ops| - 1];
      ReadsReturnWhatWasLastWritten(limits, front, key, now);
      ApplyKeepsEntries(limits, Run(limits, front), op);
      forall e | e in Run(limits, ops).entries && e.key == key
        ensures Stores(limits, LastWritten(limits, ops, key), e) {
        if was :| was in Run(limits, front).entries && was.(used := e.used) == e {
          assert Stores(limits, LastWritten(limits, front, key), was);
        }
      }
    }
    ValidIsSound(limits, Run(limits, ops));
    ReadIsExact(Run(limits, ops), key, now);
  }

  lemma EmptyIsValid(limits: Limits)
    ensures Valid(limits, Empty)
  {
  }

  lemma ValidIsSound(limits: Limits, c: Cache)
    requires Valid(limits, c)
    ensures Sound(c)
  {
  }

  // ---------------------------------------------------------------- the cache in place

  class ResponseCache {
    const limits: Limits
    var cache: seq<Entry>
    var cacheBytes: nat
    /** Operations so far. */
    var tick: nat

    ghost function State(): Cache
      reads this
    {
      Cache(cache, cacheBytes, tick)
    }

    constructor (limits: Limits)
      ensures State() == Empty && this.limits == limits
    {
      this.limits := limits;
      cache, cacheBytes, tick := [], 0, 0;
    }

    method DeleteCacheEntry(key: Key)
      modifies this`cache, this`cacheBytes
      ensures State() == Delete(old(State()), key)
    {
      var index := PositionOf(cache, key);
      if index == |cache| {
        return;
      }
      var bytes := cache[index].bytes;
      cache := cache[..index] + cache[index + 1..];
      cacheBytes := if cacheBytes >= bytes then cacheBytes - bytes else 0;
    }

    method ReadCache(key: Key, now: nat) returns (value: Option<nat>)
      requires Valid(limits, State())
      modifies this
      ensures (State(), value) == Read(old(State()), key, now)
      ensures Valid(limits, State())
    {
      ReadKeeps(limits, State(), key, now);
      tick := tick + 1;
      var index := PositionOf(cache, key);
      if index == |cache| {
        return None;
      }
      if cache[index].expiresAt <= now {
        DeleteCacheEntry(key);
        return None;
      }
      var entry := cache[index].(used := tick - 1);
      cache := cache[..index] + cache[index + 1..];
      cache := cache + [entry];
      return Some(entry.value);
    }

    method WriteCache(key: Key, value: nat, bytes: nat, scope: Scope, now: nat)
      requires Valid(limits, State()) && limits.maxEntries >= 1
      modifies this
      ensures State() == Write(limits, old(State()), key, bytes, scope, value, now)
      ensures Valid(limits, State())
    {
      hide Valid;
      WriteKeeps(limits, State(), key, bytes, scope, value, now);
      tick := tick + 1;
      if bytes > limits.maxBytes {
        return;
      }
      var index := PositionOf(cache, key);
      if index < |cache| && cache[index].expiresAt > now {
        return;
      }
      if index < |cache| {
        DeleteCacheEntry(key);
      }
      cache := cache + [Entry(key, bytes, now + limits.ttl, scope, value, tick - 1)];
      cacheBytes := cacheBytes + bytes;
      ghost var inserted := State();
      assert inserted == Inserted(limits, old(State()), key, bytes, scope, value, now);
      while |cache| > limits.maxEntries || cacheBytes > limits.maxBytes
        invariant Evict(limits, State()) == Evict(limits, inserted) && tick == inserted.tick
        decreases |cache|
      {
        if |cache| == 0 {
          break;
        }
        DeleteCacheEntry(cache[0].key);
      }
    }

    /** The loop of _clearLocalProfileState over the cache. */
    method ClearProfileScope(scope: Scope)
      requires Valid(limits, State())
      modifies this
      ensures State() == ClearScope(old(State()), scope)
      ensures Valid(limits, State())
    {
      hide Valid;
      ClearScopeIsExact(limits, State(), scope);
      var todo, i := cache, 0;
      ghost var gone := (e: Entry) => e.scope == scope;
      while i < |todo|
        invariant i <= |todo| && tick == old(tick)
        invariant DeleteWhere(State(), todo[i..], gone) == DeleteWhere(old(State()), todo, gone)
      {
        if todo[i].scope == scope {
          DeleteCacheEntry(todo[i].key);
        }
        i := i + 1;
      }
      tick := tick + 1;
    }

    method PruneCache(now: nat) returns (removed: nat)
      requires Valid(limits, State())
      modifies this
      ensures State() == Prune(old(State()), now)
      ensures Valid(limits, State())
      ensures removed == CountWhere(old(cache), (e: Entry) => e.expiresAt <= now)
    {
      hide Valid, Delete;
      PruneIsExact(limits, State(), now);
      removed := 0;
      var todo, i := cache, 0;
      ghost var gone := (e: Entry) => e.expiresAt <= now;
      assert todo[0..] == todo;
      while i < |todo|
        invariant i <= |todo| && tick == old(tick)
        invariant DeleteWhere(State(), todo[i..], gone) == DeleteWhere(old(State()), todo, gone)
        invariant CountWhere(todo, gone) == removed + CountWhere(todo[i..], gone)
      {
        assert todo[i..][0] == todo[i] && todo[i..][1..] == todo[i + 1..];
        if todo[i].expiresAt <= now {
          DeleteCacheEntry(todo[i].key);
          removed := removed + 1;
        }
        i := i + 1;
      }
      tick := tick + 1;
    }
  }

  function CountWhere(entries: seq<Entry>, what: Entry -> bool): nat {
    if |entries| == 0 then 0 else (if what(entries[0]) then 1 else 0) + CountWhere(entries[1..], what)
  }

  lemma WriteKeeps(limits: Limits, c: Cache, key: Key, bytes: nat, scope: Scope, value: nat, now: nat)
    requires Valid(limits, c) && limits.maxEntries >= 1
    ensures Valid(limits, Write(limits, c, key, bytes, scope, value, now))
  {
    hide DistinctKeys, InOrderOfUse, SumBytes, Inserted, Evict;
    if Refused(limits, c, key, bytes, now) {
      LaterTick(c.entries, c.tick);
    } else {
      var dropped := WriteKeepsTheMostRecent(limits, c, key, bytes, scope, value, now);
    }
  }
}
