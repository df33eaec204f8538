// Profile epochs: a query that began before a profile was cleared may still be running afterwards,
// but can no longer put what it fetched into the cache.
module GatewayEpochs {
  import opened Outcomes
  import opened GatewayCache

  type EpochId = nat
  type FetchId = nat

  /** An epoch object. `born` counts the clears of its profile before it was captured. */
  datatype Epoch = Epoch(scope: Scope, born: nat, active: nat)

  /** An upstream fetch, which several queries of one epoch may share. */
  datatype Fetch = Fetch(key: Key, scope: Scope, epoch: EpochId, born: nat)

  /** Program points of a query between which other code runs. */
  datatype Query =
    | ReadingSnapshot(epoch: EpochId)
    | Fetching(epoch: EpochId, key: Key, fetch: FetchId)
    | Finishing(epoch: EpochId, key: Key, fetched: Option<FetchId>)
    | Ended

  datatype World = World(
    limits: Limits,
    cache: Cache,
    current: map<Scope, EpochId>,
    epochs: map<EpochId, Epoch>,
    fetches: map<FetchId, Fetch>,
    inFlight: map<Key, FetchId>,
    clears: map<Scope, nat>,
    queries: map<nat, Query>)

  datatype Step =
    | Start(query: nat, scope: Scope, newEpoch: EpochId)
    | Proceed(query: nat, key: Key, now: nat, coalesce: bool, room: bool, newFetch: FetchId)
    | FetchSettles(fetch: FetchId)
    | Resolve(query: nat)
    | Finish(query: nat, complete: bool, bytes: nat, now: nat)
    | Fail(query: nat)
    | ClearProfile(scope: Scope)
    | PruneStep(now: nat)

  function ClearsOf(w: World, scope: Scope): nat {
    if scope in w.clears then w.clears[scope] else 0
  }

  function QueryAt(w: World, query: nat): Query {
    if query in w.queries then w.queries[query] else Ended
  }

  predicate IsCurrent(w: World, epoch: EpochId) {
    epoch in w.epochs && w.epochs[epoch].scope in w.current && w.current[w.epochs[epoch].scope] == epoch
  }

  /** _captureProfileEpoch. */
  function Capture(w: World, query: nat, scope: Scope, newEpoch: EpochId): World {
    if query in w.queries then w
    else if scope in w.current && w.current[scope] in w.epochs then
      var e := w.current[scope];
      w.(epochs := w.epochs[e := w.epochs[e].(active := w.epochs[e].active + 1)],
         queries := w.queries[query := ReadingSnapshot(e)])
    else if newEpoch in w.epochs then w
    else
      w.(epochs := w.epochs[newEpoch := Epoch(scope, ClearsOf(w, scope), 1)],
         current := w.current[scope := newEpoch],
         queries := w.queries[query := ReadingSnapshot(newEpoch)])
  }

  /** _releaseProfileEpoch, at the end of a query however it ends. */
  function ReleaseEpoch(w: World, query: nat, epoch: EpochId): World {
    if epoch !in w.epochs then w.(queries := w.queries[query := Ended])
    else
      var e := w.epochs[epoch];
      var left := Max(0, e.active - 1);
      w.(epochs := w.epochs[epoch := e.(active := left)],
         current := if left == 0 && IsCurrent(w, epoch) then w.current - {e.scope} else w.current,
         queries := w.queries[query := Ended])
  }

  /** _fetchSelectedCoalesced: joins a fetch in flight for the same key and the same epoch object. */
  function JoinOrFetch(w: World, query: nat, epoch: EpochId, key: Key, coalesce: bool, room: bool,
      newFetch: FetchId): World
    requires epoch in w.epochs
  {
    var e := w.epochs[epoch];
    if coalesce && key in w.inFlight && w.inFlight[key] in w.fetches && w.fetches[w.inFlight[key]].epoch == epoch then
      w.(queries := w.queries[query := Fetching(epoch, key, w.inFlight[key])])
    else if newFetch in w.fetches then w
    else
      w.(fetches := w.fetches[newFetch := Fetch(key, e.scope, epoch, ClearsOf(w, e.scope))],
         inFlight := if !coalesce then w.inFlight
                     else if room then w.inFlight[key := newFetch] else w.inFlight - {key},
         queries := w.queries[query := Fetching(epoch, key, newFetch)])
  }

  /** After the snapshot was read: gives up when the epoch is over, otherwise reads the cache or fetches. */
  function ProceedStep(w: World, query: nat, key: Key, now: nat, coalesce: bool, room: bool, newFetch: FetchId): World {
    var q := QueryAt(w, query);
    if !q.ReadingSnapshot? then w
    else if !IsCurrent(w, q.epoch) then ReleaseEpoch(w, query, q.epoch)
    else
      var (cache, hit) := Read(w.cache, key, now);
      var w1 := w.(cache := cache);
      if hit.Some? then w1.(queries := w.queries[query := Finishing(q.epoch, key, None)])
      else JoinOrFetch(w1, query, q.epoch, key, coalesce, room, newFetch)
  }

  /** _writeFetchedCache, then the end of the query. */
  function FinishStep(w: World, query: nat, complete: bool, bytes: nat, now: nat): World {
    var q := QueryAt(w, query);
    if !q.Finishing? then w
    else
      var written :=
        if q.fetched.Some? && complete && IsCurrent(w, q.epoch) then
          w.(cache := Write(w.limits, w.cache, q.key, bytes, w.epochs[q.epoch].scope, q.fetched.value, now))
        else w;
      ReleaseEpoch(written, query, q.epoch)
  }

  /** _clearLocalProfileState. */
  function ClearStep(w: World, scope: Scope): World {
    w.(cache := ClearScope(w.cache, scope),
       current := w.current - {scope},
       inFlight := map k | k in w.inFlight && !(w.inFlight[k] in w.fetches && w.fetches[w.inFlight[k]].scope == scope)
                     :: w.inFlight[k],
       clears := w.clears[scope := ClearsOf(w, scope) + 1])
  }

  function Apply(w: World, step: Step): World {
    match step
    case Start(query, scope, newEpoch) => Capture(w, query, scope, newEpoch)
    case Proceed(query, key, now, coalesce, room, newFetch) => ProceedStep(w, query, key, now, coalesce, room, newFetch)
    case FetchSettles(fetch) =>
      w.(inFlight := map k | k in w.inFlight && w.inFlight[k] != fetch :: w.inFlight[k])
    case Resolve(query) =>
      var q := QueryAt(w, query);
      if q.Fetching? then w.(queries := w.queries[query := Finishing(q.epoch, q.key, Some(q.fetch))]) else w
    case Finish(query, complete, bytes, now) => FinishStep(w, query, complete, bytes, now)
    case Fail(query) => if QueryAt(w, query).Ended? then w else ReleaseEpoch(w, query, QueryAt(w, query).epoch)
    case ClearProfile(scope) => ClearStep(w, scope)
    case PruneStep(now) => w.(cache := Prune(w.cache, now))
  }

  function Run(w: World, steps: seq<Step>): World
    decreases |steps|
  {
    if |steps| == 0 then w else Apply(Run(w, steps[..|steps| - 1]), steps[|steps| - 1])
  }

  function Initial(limits: Limits): World {
    World(limits, Empty, map[], map[], map[], map[], map[], map[])
  }

  // ---------------------------------------------------------------- invariant

  /** A cached value was fetched under its key, after the last clear of its profile. */
  ghost predicate EntryOk(w: World, e: Entry) {
    && e.value in w.fetches && w.fetches[e.value].scope == e.scope && w.fetches[e.value].key == e.key
    && w.fetches[e.value].born == ClearsOf(w, e.scope)
  }

  ghost predicate CacheOk(w: World) {
    Valid(w.limits, w.cache) && forall e :: e in w.cache.entries ==> EntryOk(w, e)
  }

  /** The current epoch of a profile was captured after its last clear. */
  ghost predicate EpochsOk(w: World) {
    && (forall p :: p in w.current ==>
          w.current[p] in w.epochs && w.epochs[w.current[p]].scope == p
              && w.epochs[w.current[p]].born == ClearsOf(w, p))
    && (forall f :: f in w.fetches ==>
          && w.fetches[f].epoch in w.epochs && w.fetches[f].scope == w.epochs[w.fetches[f].epoch].scope
          && w.fetches[f].born == w.epochs[w.fetches[f].epoch].born)
    && (forall k :: k in w.inFlight ==> w.inFlight[k] in w.fetches && w.fetches[w.inFlight[k]].key == k)
  }

  ghost predicate QueryOk(w: World, q: Query) {
    match q
    case ReadingSnapshot(epoch) => epoch in w.epochs
    case Fetching(epoch, key, fetch) =>
      && epoch in w.epochs
      && fetch in w.fetches && w.fetches[fetch].epoch == epoch && w.fetches[fetch].key == key
    case Finishing(epoch, key, fetched) =>
      && epoch in w.epochs
      && (fetched.Some? ==>
            && fetched.value in w.fetches
            && w.fetches[fetched.value].epoch == epoch && w.fetches[fetched.value].key == key)
    case Ended => true
  }

  ghost predicate QueriesOk(w: World) {
    forall q :: q in w.queries ==> QueryOk(w, w.queries[q])
  }

  /** The queries that hold an epoch. */
  ghost function Holders(w: World, epoch: EpochId): set<nat> {
    set q | q in w.queries && !w.queries[q].Ended? && w.queries[q].epoch == epoch
  }

  /** An epoch counts exactly the queries that hold it. */
  ghost predicate ActiveOk(w: World) {
    && (forall e :: e in w.epochs ==> w.epochs[e].active == |Holders(w, e)|)
    && (forall p :: p in w.current && w.current[p] in w.epochs ==> w.epochs[w.current[p]].active > 0)
  }

  ghost predicate Inv(w: World) {
    CacheOk(w) && EpochsOk(w) && QueriesOk(w) && ActiveOk(w) && w.limits.maxEntries >= 1
  }

  // ---------------------------------------------------------------- frames

  /** Epochs and fetches are only added, and keep what identifies them. */
  ghost predicate Grows(w: World, v: World) {
    && (forall e :: e in w.epochs ==>
          e in v.epochs && v.epochs[e].scope == w.epochs[e].scope && v.epochs[e].born == w.epochs[e].born)
    && (forall f :: f in w.fetches ==> f in v.fetches && v.fetches[f] == w.fetches[f])
  }

  lemma QueryStaysOk(w: World, v: World, q: Query)
    requires QueryOk(w, q) && Grows(w, v)
    ensures QueryOk(v, q)
  {
  }

  lemma QueriesStayOk(w: World, v: World, query: nat, q: Query)
    requires QueriesOk(w) && Grows(w, v) && v.queries == w.queries[query := q] && QueryOk(v, q)
    ensures QueriesOk(v)
  {
    hide QueryOk, Grows;
    forall r | r in v.queries ensures QueryOk(v, v.queries[r]) {
      if r != query {
        QueryStaysOk(w, v, w.queries[r]);
      }
    }
  }

  lemma CacheStaysOk(w: World, v: World)
    requires CacheOk(w) && Grows(w, v) && v.limits == w.limits && v.clears == w.clears && v.cache == w.cache
    ensures CacheOk(v)
  {
    hide Valid;
  }

  /** One query moves on without taking or leaving an epoch. */
  lemma HoldersMove(w: World, v: World, query: nat, q: Query)
    requires query in w.queries && !w.queries[query].Ended? && !q.Ended? && q.epoch == w.queries[query].epoch
    requires v.queries == w.queries[query := q]
    ensures forall e :: Holders(v, e) == Holders(w, e)
  {
  }

  lemma HolderJoins(w: World, v: World, query: nat, q: Query, epoch: EpochId)
    requires query !in w.queries && !q.Ended? && q.epoch == epoch && v.queries == w.queries[query := q]
    ensures Holders(v, epoch) == Holders(w, epoch) + {query} && query !in Holders(w, epoch)
    ensures forall e :: e != epoch ==> Holders(v, e) == Holders(w, e)
  {
  }

  lemma HolderLeaves(w: World, v: World, query: nat, epoch: EpochId)
    requires query in w.queries && !w.queries[query].Ended? && w.queries[query].epoch == epoch
    requires v.queries == w.queries[query := Ended]
    ensures Holders(v, epoch) == Holders(w, epoch) - {query} && query in Holders(w, epoch)
    ensures forall e :: e != epoch ==> Holders(v, e) == Holders(w, e)
  {
  }

  // ---------------------------------------------------------------- every step keeps it

  lemma CaptureKeeps(w: World, query: nat, scope: Scope, newEpoch: EpochId)
    requires Inv(w)
    ensures Inv(Capture(w, query, scope, newEpoch))
  {
    hide CacheOk, QueriesOk, EpochsOk, ActiveOk, Holders;
    var v := Capture(w, query, scope, newEpoch);
    if v != w {
      var q := v.queries[query];
      QueriesStayOk(w, v, query, q);
      CacheStaysOk(w, v);
      HolderJoins(w, v, query, q, q.epoch);
      CapturedEpochs(w, query, scope, newEpoch);
      if q.epoch !in w.epochs {
        NobodyHoldsUnknown(w, newEpoch);
      }
      CapturedActive(w, query, scope, newEpoch);
    }
  }

  lemma CapturedEpochs(w: World, query: nat, scope: Scope, newEpoch: EpochId)
    requires EpochsOk(w)
    ensures EpochsOk(Capture(w, query, scope, newEpoch))
  {
  }

  lemma CapturedActive(w: World, query: nat, scope: Scope, newEpoch: EpochId)
    requires ActiveOk(w) && EpochsOk(w) && Capture(w, query, scope, newEpoch) != w
    requires
      var v := Capture(w, query, scope, newEpoch);
      var epoch := v.queries[query].epoch;
      && Holders(v, epoch) == Holders(w, epoch) + {query} && query !in Holders(w, epoch)
      && (forall e :: e != epoch ==> Holders(v, e) == Holders(w, e))
      && (epoch !in w.epochs ==> Holders(w, epoch) == {})
    ensures ActiveOk(Capture(w, query, scope, newEpoch))
  {
    hide Holders, EpochsOk;
    var v := Capture(w, query, scope, newEpoch);
    forall e | e in v.epochs ensures v.epochs[e].active == |Holders(v, e)| {
      assert e in w.epochs ==> w.epochs[e].active == |Holders(w, e)|;
    }
    forall p | p in v.current && v.current[p] in v.epochs ensures v.epochs[v.current[p]].active > 0 {
      CurrentIsKnown(w, p);
    }
  }

  lemma CurrentIsKnown(w: World, p: Scope)
    requires EpochsOk(w)
    ensures p in w.current ==> w.current[p] in w.epochs
  {
  }

  lemma NobodyHoldsUnknown(w: World, epoch: EpochId)
    requires QueriesOk(w) && epoch !in w.epochs
    ensures Holders(w, epoch) == {}
  {
    assert forall q :: q in w.queries ==> QueryOk(w, w.queries[q]);
  }

  lemma ReleaseKeeps(w: World, query: nat, epoch: EpochId)
    requires Inv(w) && query in w.queries && !w.queries[query].Ended? && w.queries[query].epoch == epoch
    ensures Inv(ReleaseEpoch(w, query, epoch))
  {
    hide CacheOk, QueriesOk;
    var v := ReleaseEpoch(w, query, epoch);
    HeldEpochIsKnown(w, query);
    QueriesStayOk(w, v, query, Ended);
    CacheStaysOk(w, v);
    HolderLeaves(w, v, query, epoch);
  }

  lemma HeldEpochIsKnown(w: World, query: nat)
    requires QueriesOk(w) && query in w.queries && !w.queries[query].Ended?
    ensures w.queries[query].epoch in w.epochs
  {
    assert QueryOk(w, w.queries[query]);
  }

  /** The clamp in _releaseProfileEpoch never fires. */
  lemma ReleasedEpochWasActive(w: World, query: nat)
    requires Inv(w) && query in w.queries && !w.queries[query].Ended?
    ensures w.queries[query].epoch in w.epochs && w.epochs[w.queries[query].epoch].active > 0
  {
    hide CacheOk, EpochsOk;
    HeldEpochIsKnown(w, query);
    assert query in Holders(w, w.queries[query].epoch);
  }

  lemma ReadCacheKeeps(w: World, key: Key, now: nat)
    requires CacheOk(w)
    ensures CacheOk(w.(cache := Read(w.cache, key, now).0))
  {
    hide EntryOk, Valid, Read;
    ValidIsSound(w.limits, w.cache);
    ReadKeeps(w.limits, w.cache, key, now);
    ReadKeepsValues(w.cache, key, now);
    forall e | e in Read(w.cache, key, now).0.entries ensures EntryOk(w.(cache := Read(w.cache, key, now).0), e) {
      var was :| was in w.cache.entries && was.value == e.value && was.scope == e.scope && was.key == e.key;
      SameEntryOk(w, w.(cache := Read(w.cache, key, now).0), was, e);
    }
  }

  lemma SameEntryOk(w: World, v: World, was: Entry, e: Entry)
    requires EntryOk(w, was) && e.value == was.value && e.scope == was.scope && e.key == was.key
    requires v.fetches == w.fetches && v.clears == w.clears
    ensures EntryOk(v, e)
  {
  }

  lemma ReadKeepsValues(c: Cache, key: Key, now: nat)
    requires Sound(c)
    ensures forall e :: e in Read(c, key, now).0.entries ==>
      exists was :: was in c.entries && was.value == e.value && was.scope == e.scope && was.key == e.key
  {
    DeleteKeeps(c, key);
    var i := PositionOf(c.entries, key);
    if i < |c.entries| {
      assert c.entries[i] in c.entries;
      assert Cut(c.entries, i) == Delete(c, key).entries;
    }
  }

  lemma JoinOrFetchKeeps(w: World, query: nat, epoch: EpochId, key: Key, coalesce: bool, room: bool, newFetch: FetchId)
    requires Inv(w) && query in w.queries && w.queries[query] == ReadingSnapshot(epoch) && IsCurrent(w, epoch)
    ensures Inv(JoinOrFetch(w, query, epoch, key, coalesce, room, newFetch))
  {
    hide CacheOk, QueriesOk, Valid, Holders;
    var v := JoinOrFetch(w, query, epoch, key, coalesce, room, newFetch);
    if v != w {
      QueriesStayOk(w, v, query, v.queries[query]);
      CacheStaysOk(w, v);
      HoldersMove(w, v, query, v.queries[query]);
    }
  }

  lemma SameBooks(w: World, v: World)
    requires EpochsOk(w) && QueriesOk(w) && ActiveOk(w)
    requires v.epochs == w.epochs && v.current == w.current && v.fetches == w.fetches && v.clears == w.clears
    requires v.queries == w.queries && v.inFlight == w.inFlight
    ensures EpochsOk(v) && QueriesOk(v) && ActiveOk(v)
  {
    assert forall e :: Holders(v, e) == Holders(w, e);
    forall q | q in v.queries ensures QueryOk(v, v.queries[q]) {
      assert QueryOk(w, w.queries[q]);
    }
  }

  /** A query that moves on with its epoch, and touches nothing but itself. */
  lemma MoveKeeps(w: World, query: nat, q: Query)
    requires Inv(w) && query in w.queries && !w.queries[query].Ended? && !q.Ended?
    requires q.epoch == w.queries[query].epoch && QueryOk(w, q)
    ensures Inv(w.(queries := w.queries[query := q]))
  {
    hide CacheOk, QueriesOk;
    var v := w.(queries := w.queries[query := q]);
    QueryStaysOk(w, v, q);
    QueriesStayOk(w, v, query, q);
    CacheStaysOk(w, v);
    HoldersMove(w, v, query, q);
  }

  lemma ProceedKeeps(w: World, query: nat, key: Key, now: nat, coalesce: bool, room: bool, newFetch: FetchId)
    requires Inv(w)
    ensures Inv(ProceedStep(w, query, key, now, coalesce, room, newFetch))
  {
    hide CacheOk, EpochsOk, QueriesOk, ActiveOk, JoinOrFetch, ReleaseEpoch, Read;
    var q := QueryAt(w, query);
    if q.ReadingSnapshot? {
      if !IsCurrent(w, q.epoch) {
        ReleaseKeeps(w, query, q.epoch);
      } else {
        var w1 := w.(cache := Read(w.cache, key, now).0);
        ReadCacheKeeps(w, key, now);
        SameBooks(w, w1);
        HeldEpochIsKnown(w, query);
        if Read(w.cache, key, now).1.Some? {
          MoveKeeps(w1, query, Finishing(q.epoch, key, None));
        } else {
          JoinOrFetchKeeps(w1, query, q.epoch, key, coalesce, room, newFetch);
        }
      }
    }
  }

  /** What is written under a current epoch was fetched after the last clear. */
  lemma WriteIsRecent(w: World, q: Query, bytes: nat, now: nat)
    requires CacheOk(w) && EpochsOk(w) && w.limits.maxEntries >= 1
    requires QueryOk(w, q) && q.Finishing? && q.fetched.Some? && IsCurrent(w, q.epoch)
    ensures CacheOk(w.(cache := Write(w.limits, w.cache, q.key, bytes, w.epochs[q.epoch].scope, q.fetched.value, now)))
  {
    hide Write, Valid;
    var scope, value := w.epochs[q.epoch].scope, q.fetched.value;
    var v := w.(cache := Write(w.limits, w.cache, q.key, bytes, scope, value, now));
    WriteKeeps(w.limits, w.cache, q.key, bytes, scope, value, now);
    WriteAddsOne(w.limits, w.cache, q.key, bytes, scope, value, now);
    forall e | e in v.cache.entries ensures EntryOk(v, e) {
      assert e in w.cache.entries ==> EntryOk(w, e);
    }
  }

  lemma WriteAddsOne(limits: Limits, c: Cache, key: Key, bytes: nat, scope: Scope, value: nat, now: nat)
    requires Valid(limits, c) && limits.maxEntries >= 1
    ensures forall e :: e in Write(limits, c, key, bytes, scope, value, now).entries ==>
      e in c.entries || (e.scope == scope && e.value == value && e.key == key)
  {
    hide Inserted, Evict;
    if !Refused(limits, c, key, bytes, now) {
      var dropped := WriteKeepsTheMostRecent(limits, c, key, bytes, scope, value, now);
      DeleteKeeps(c, key);
    }
  }

  lemma FinishKeeps(w: World, query: nat, complete: bool, bytes: nat, now: nat)
    requires Inv(w)
    ensures Inv(FinishStep(w, query, complete, bytes, now))
  {
    hide CacheOk, EpochsOk, QueriesOk, ActiveOk, ReleaseEpoch, Write;
    var q := QueryAt(w, query);
    if q.Finishing? {
      if q.fetched.Some? && complete && IsCurrent(w, q.epoch) {
        var v := w.(cache := Write(w.limits, w.cache, q.key, bytes, w.epochs[q.epoch].scope, q.fetched.value, now));
        KnownQuery(w, query);
        WriteIsRecent(w, q, bytes, now);
        SameBooks(w, v);
        ReleaseKeeps(v, query, q.epoch);
      } else {
        ReleaseKeeps(w, query, q.epoch);
      }
    }
  }

  lemma KnownQuery(w: World, query: nat)
    requires QueriesOk(w) && query in w.queries
    ensures QueryOk(w, w.queries[query])
  {
  }

  lemma ClearKeeps(w: World, scope: Scope)
    requires Inv(w)
    ensures Inv(ClearStep(w, scope))
  {
    hide Valid;
    var v := ClearStep(w, scope);
    ClearScopeIsExact(w.limits, w.cache, scope);
    assert forall e :: Holders(v, e) == Holders(w, e);
    forall e | e in v.cache.entries ensures EntryOk(v, e) {
      assert EntryOk(w, e);
    }
    forall q | q in v.queries ensures QueryOk(v, v.queries[q]) {
      QueryStaysOk(w, v, w.queries[q]);
    }
  }

  lemma InFlightKeeps(w: World, v: World)
    requires Inv(w) && v == w.(inFlight := v.inFlight)
    requires forall k :: k in v.inFlight ==> k in w.inFlight && v.inFlight[k] == w.inFlight[k]
    ensures Inv(v)
  {
    hide CacheOk, QueryOk;
    CacheStaysOk(w, v);
    assert forall e :: Holders(v, e) == Holders(w, e);
    forall q | q in v.queries ensures QueryOk(v, v.queries[q]) {
      QueryStaysOk(w, v, w.queries[q]);
    }
  }

  lemma PruneKeeps(w: World, now: nat)
    requires Inv(w)
    ensures Inv(w.(cache := Prune(w.cache, now)))
  {
    hide Valid, QueryOk, EpochsOk, ActiveOk;
    var v := w.(cache := Prune(w.cache, now));
    PruneIsExact(w.limits, w.cache, now);
    SameBooks(w, v);
    forall e | e in v.cache.entries ensures EntryOk(v, e) {
      assert EntryOk(w, e);
    }
  }

  lemma StepKeeps(w: World, step: Step)
    requires Inv(w)
    ensures Inv(Apply(w, step))
  {
    hide Inv, Capture, ProceedStep, FinishStep, ReleaseEpoch, ClearStep, Prune;
    match step
    case Start(query, scope, newEpoch) => CaptureKeeps(w, query, scope, newEpoch);
    case Proceed(query, key, now, coalesce, room, newFetch) =>
      ProceedKeeps(w, query, key, now, coalesce, room, newFetch);
    case FetchSettles(fetch) => InFlightKeeps(w, Apply(w, step));
    case Resolve(query) =>
      var q := QueryAt(w, query);
      if q.Fetching? {
        ResolvedQuery(w, query);
        MoveKeeps(w, query, Finishing(q.epoch, q.key, Some(q.fetch)));
      }
    case Finish(query, complete, bytes, now) => FinishKeeps(w, query, complete, bytes, now);
    case Fail(query) =>
      if !QueryAt(w, query).Ended? {
        ReleaseKeeps(w, query, QueryAt(w, query).epoch);
      }
    case ClearProfile(scope) => ClearKeeps(w, scope);
    case PruneStep(now) => PruneKeeps(w, now);
  }

  lemma ResolvedQuery(w: World, query: nat)
    requires Inv(w) && query in w.queries && w.queries[query].Fetching?
    ensures QueryOk(w, Finishing(w.queries[query].epoch, w.queries[query].key, Some(w.queries[query].fetch)))
  {
    hide CacheOk, EpochsOk, ActiveOk;
    assert QueryOk(w, w.queries[query]);
  }

  lemma {:induction false} Reachable(limits: Limits, steps: seq<Step>)
    requires limits.maxEntries >= 1
    ensures Inv(Run(Initial(limits), steps))
    decreases |steps|
  {
    hide Apply;
    if |steps| > 0 {
      Reachable(limits, steps[..|steps| - 1]);
      StepKeeps(Run(Initial(limits), steps[..|steps| - 1]), steps[|steps| - 1]);
    } else {
      assert forall e :: Holders(Initial(limits), e) == {};
    }
  }

  // ---------------------------------------------------------------- theorems

  /** Nothing fetched before a profile was last cleared is in the cache, however late its writers are. */
  lemma CachedValuesPostdateTheLastClear(limits: Limits, steps: seq<Step>, e: Entry)
    requires limits.maxEntries >= 1 && e in Run(Initial(limits), steps).cache.entries
    ensures
      var w := Run(Initial(limits), steps);
      && e.value in w.fetches && w.fetches[e.value].scope == e.scope && w.fetches[e.value].key == e.key
      && w.fetches[e.value].born == ClearsOf(w, e.scope)
      && w.fetches[e.value].epoch in w.epochs && w.epochs[w.fetches[e.value].epoch].born == ClearsOf(w, e.scope)
  {
    hide Run;
    Reachable(limits, steps);
    assert EntryOk(Run(Initial(limits), steps), e);
  }

  /** An epoch that a query holds is never forgotten while it is current, and one that nobody holds is
      not current: the counter is exact. */
  lemma CurrentEpochsAreHeld(limits: Limits, steps: seq<Step>, scope: Scope)
    requires limits.maxEntries >= 1 && scope in Run(Initial(limits), steps).current
    ensures
      var w := Run(Initial(limits), steps);
      && w.current[scope] in w.epochs
      && w.epochs[w.current[scope]].active == |Holders(w, w.current[scope])| > 0
  {
    hide Run;
    Reachable(limits, steps);
  }

  /** The cache keeps both of its limits and an exact byte count throughout. */
  lemma CacheStaysWithinLimits(limits: Limits, steps: seq<Step>)
    requires limits.maxEntries >= 1
    ensures
      var w := Run(Initial(limits), steps);
      && |w.cache.entries| <= w.limits.maxEntries && w.cache.bytes <= w.limits.maxBytes
      && w.cache.bytes == SumBytes(w.cache.entries)
  {
    hide Run, EntryOk;
    Reachable(limits, steps);
  }

  // ---------------------------------------------------------------- what is shared and what is cached

  predicate Holds(w: World, query: nat, epoch: EpochId) {
    query in w.queries && !w.queries[query].Ended? && w.queries[query].epoch == epoch
  }

  /** An epoch that a query holds stays current until its profile is cleared, or the query ends. */
  lemma HeldEpochStaysCurrent(limits: Limits, steps: seq<Step>, w: World, step: Step, query: nat, epoch: EpochId)
    requires limits.maxEntries >= 1 && w == Run(Initial(limits), steps)
    requires Holds(w, query, epoch) && IsCurrent(w, epoch)
    requires step != ClearProfile(w.epochs[epoch].scope) && Holds(Apply(w, step), query, epoch)
    ensures IsCurrent(Apply(w, step), epoch)
  {
    hide Run, CacheOk, QueriesOk, ActiveOk, Read, Write, Prune, ClearScope, ReleaseEpoch, JoinOrFetch, IsCurrent,
      Capture;
    Reachable(limits, steps);
    match step
    case Proceed(other, key, now, coalesce, room, newFetch) =>
      var q, w1 := QueryAt(w, other), w.(cache := Read(w.cache, key, now).0);
      if q.ReadingSnapshot? {
        if !IsCurrent(w, q.epoch) {
          ReleaseLeavesHeld(w, w, other, q.epoch, query, epoch);
        } else {
          SameEpochs(w, w1, epoch);
          CurrentIsKept(w, q.epoch);
          JoinOrFetchLeavesEpochs(w1, other, q.epoch, key, coalesce, room, newFetch, epoch);
          SameEpochs(w1, w1.(queries := w.queries[other := Finishing(q.epoch, key, None)]), epoch);
        }
      }
    case Finish(other, complete, bytes, now) =>
      var q := QueryAt(w, other);
      if q.Finishing? {
        if q.fetched.Some? && complete && IsCurrent(w, q.epoch) {
          CurrentIsKept(w, q.epoch);
          var cache := Write(w.limits, w.cache, q.key, bytes, w.epochs[q.epoch].scope, q.fetched.value, now);
          SameEpochs(w, w.(cache := cache), epoch);
          ReleaseLeavesHeld(w, w.(cache := cache), other, q.epoch, query, epoch);
        } else {
          ReleaseLeavesHeld(w, w, other, q.epoch, query, epoch);
        }
      }
    case Fail(other) =>
      if !QueryAt(w, other).Ended? {
        ReleaseLeavesHeld(w, w, other, QueryAt(w, other).epoch, query, epoch);
      }
    case Start(other, scope, newEpoch) => CaptureLeavesCurrent(w, other, scope, newEpoch, epoch);
    case ClearProfile(scope) => ClearLeavesOthers(w, scope, epoch);
    case _ => SameEpochs(w, Apply(w, step), epoch);
  }

  lemma CurrentIsKept(w: World, epoch: EpochId)
    requires IsCurrent(w, epoch)
    ensures epoch in w.epochs
  {
  }

  lemma SameEpochs(w: World, v: World, epoch: EpochId)
    requires v.epochs == w.epochs && v.current == w.current
    ensures IsCurrent(v, epoch) <==> IsCurrent(w, epoch)
  {
  }

  lemma JoinOrFetchLeavesEpochs(
    w: World, query: nat, own: EpochId, key: Key, coalesce: bool, room: bool, newFetch: FetchId, epoch: EpochId)
    requires own in w.epochs
    ensures IsCurrent(JoinOrFetch(w, query, own, key, coalesce, room, newFetch), epoch) <==> IsCurrent(w, epoch)
  {
  }

  lemma CaptureLeavesCurrent(w: World, query: nat, scope: Scope, newEpoch: EpochId, epoch: EpochId)
    requires EpochsOk(w) && IsCurrent(w, epoch)
    ensures IsCurrent(Capture(w, query, scope, newEpoch), epoch)
  {
  }

  lemma ClearLeavesOthers(w: World, scope: Scope, epoch: EpochId)
    requires IsCurrent(w, epoch) && w.epochs[epoch].scope != scope
    ensures IsCurrent(ClearStep(w, scope), epoch)
  {
    hide ClearScope;
  }

  /** Another query that ends takes the epoch along only if nobody else holds it. */
  lemma ReleaseLeavesHeld(w: World, v: World, other: nat, own: EpochId, query: nat, epoch: EpochId)
    requires QueriesOk(w) && ActiveOk(w) && Holds(w, query, epoch) && IsCurrent(w, epoch)
    requires v.epochs == w.epochs && v.current == w.current && v.queries == w.queries
    requires Holds(w, other, own) && Holds(ReleaseEpoch(v, other, own), query, epoch)
    ensures IsCurrent(ReleaseEpoch(v, other, own), epoch)
  {
    hide QueriesOk, ActiveOk;
    if own == epoch {
      TwoHolders(w, query, other, epoch);
    }
  }

  lemma TwoHolders(w: World, query: nat, other: nat, epoch: EpochId)
    requires QueriesOk(w) && ActiveOk(w) && query != other && Holds(w, query, epoch) && Holds(w, other, epoch)
    ensures epoch in w.epochs && w.epochs[epoch].active >= 2
  {
    assert QueryOk(w, w.queries[query]);
    var both := {query, other};
    assert both <= Holders(w, epoch);
    var rest := Holders(w, epoch) - both;
    assert Holders(w, epoch) == both + rest && both !! rest;
    assert |Holders(w, epoch)| == |both| + |rest|;
  }

  /** A query that starts gets the current epoch of its profile, or a new one that becomes current. */
  lemma AQueryHoldsACurrentEpoch(
    limits: Limits, steps: seq<Step>, w: World, query: nat, scope: Scope, newEpoch: EpochId)
    requires limits.maxEntries >= 1 && w == Run(Initial(limits), steps)
    requires query !in w.queries && newEpoch !in w.epochs
    ensures
      var v := Apply(w, Start(query, scope, newEpoch));
      && query in v.queries && v.queries[query].ReadingSnapshot?
      && scope in v.current && v.queries[query].epoch == v.current[scope] && IsCurrent(v, v.current[scope])
      && v.current[scope] == (if scope in w.current then w.current[scope] else newEpoch)
  {
    hide Run, CacheOk, QueriesOk, ActiveOk;
    Reachable(limits, steps);
  }

  /** A query under a current epoch answers from the cache if it can; otherwise it joins the fetch in flight for
      the same key exactly if that belongs to the same epoch, and fetches for itself if not. */
  lemma FetchesAreSharedExactly(
    w: World, query: nat, key: Key, now: nat, coalesce: bool, room: bool, newFetch: FetchId)
    requires query in w.queries && w.queries[query].ReadingSnapshot? && IsCurrent(w, w.queries[query].epoch)
    requires newFetch !in w.fetches
    ensures
      var v, epoch := Apply(w, Proceed(query, key, now, coalesce, room, newFetch)), w.queries[query].epoch;
      var shared := && coalesce && key in w.inFlight && w.inFlight[key] in w.fetches
                    && w.fetches[w.inFlight[key]].epoch == epoch;
      if Read(w.cache, key, now).1.Some? then
        v.queries[query] == Finishing(epoch, key, None) && v.fetches == w.fetches
      else if shared then v.queries[query] == Fetching(epoch, key, w.inFlight[key]) && v.fetches == w.fetches
      else
        && v.queries[query] == Fetching(epoch, key, newFetch)
        && newFetch in v.fetches && v.fetches[newFetch].key == key && v.fetches[newFetch].epoch == epoch
        && (coalesce && room ==> key in v.inFlight && v.inFlight[key] == newFetch)
        && (coalesce && !room ==> key !in v.inFlight)
  {
    hide Read;
  }

  /** A complete result of a query whose epoch is current is in the cache when the query ends, unless it is too
      large or an unexpired one is already there; nothing else is ever added. */
  lemma ResultsAreCachedExactly(
    limits: Limits, steps: seq<Step>, w: World, query: nat, complete: bool, bytes: nat, now: nat)
    requires limits.maxEntries >= 1 && w == Run(Initial(limits), steps)
    requires query in w.queries && w.queries[query].Finishing?
    ensures
      var q, v := w.queries[query], Apply(w, Finish(query, complete, bytes, now));
      var cached := && q.fetched.Some? && complete && IsCurrent(w, q.epoch)
                    && !Refused(w.limits, w.cache, q.key, bytes, now);
      && v.queries[query].Ended?
      && (cached ==> exists e :: e in v.cache.entries && e.key == q.key && e.value == q.fetched.value
                                 && e.bytes == bytes && e.expiresAt == now + w.limits.ttl)
      && (!cached ==> v.cache.entries == w.cache.entries)
  {
    hide Run, EpochsOk, QueriesOk, ActiveOk, Valid, Write, Refused;
    Reachable(limits, steps);
    var q := w.queries[query];
    if q.fetched.Some? && complete && IsCurrent(w, q.epoch) {
      var scope, value := w.epochs[q.epoch].scope, q.fetched.value;
      if Refused(w.limits, w.cache, q.key, bytes, now) {
        RefusedWriteKeepsAll(w.limits, w.cache, q.key, bytes, scope, value, now);
      } else {
        var dropped := WriteKeepsTheMostRecent(w.limits, w.cache, q.key, bytes, scope, value, now);
        var entries := Write(w.limits, w.cache, q.key, bytes, scope, value, now).entries;
        assert entries[|entries| - 1] in entries;
      }
    }
  }

  /** A fetch that has settled is joined by nobody any more, and after a clear no fetch of the profile is; every other
      fetch stays to be joined. */
  lemma FetchesLeaveExactly(w: World, fetch: FetchId, scope: Scope, key: Key)
    ensures
      var v := Apply(w, FetchSettles(fetch));
      if key in w.inFlight && w.inFlight[key] != fetch then key in v.inFlight && v.inFlight[key] == w.inFlight[key]
      else key !in v.inFlight
    ensures
      var v := Apply(w, ClearProfile(scope));
      var gone := key in w.inFlight && w.inFlight[key] in w.fetches && w.fetches[w.inFlight[key]].scope == scope;
      if key in w.inFlight && !gone then key in v.inFlight && v.inFlight[key] == w.inFlight[key]
      else key !in v.inFlight
    ensures scope !in Apply(w, ClearProfile(scope)).current
    ensures forall p :: p != scope ==>
      (p in Apply(w, ClearProfile(scope)).current <==> p in w.current)
      && (p in w.current ==> Apply(w, ClearProfile(scope)).current[p] == w.current[p])
  {
    hide ClearScope;
  }
}
