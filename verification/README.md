# Verified models of the bridge

This project models the parts of the bridge that decide things over many steps, and proves what
they promise: provider-snapshot fencing, the store of playback contexts and claims, the upstream admission
queue, the gateway's scheduler, cache and profile epochs, the Trakt credential record, scrobble
delivery, history writes, and the codecs and recognisers of the transport and subtitle code.
`dafny verify dfyconfig.toml` checks everything.

## How the models are built

* **Protocols** are state machines: a `World`, a `Step` per atomic action of a process or of its
  environment, a total `Apply`, and `Run` over any list of steps. A step that is not enabled changes
  nothing, so a run is any interleaving of processes, crashes, time and failures.
  `SnapshotProtocol` holds the readers, mutators and recoverers of `lib/source-context.js`,
  `TraktProtocol` the credential loops of `index.js`, `ScrobbleDispatch` the delivery of one dispatch,
  `HistoryProtocol` concurrent puts and removals, and `GatewayEpochs` queries that outlive a profile clear.
  Beside safety, each protocol has lemmas for what every kind of step does exactly and for what an undisturbed
  process gets done (`SnapshotProgress`, `TraktProgress`, and the last sections of the others).
* **Objects** are a value and its transitions (`SemaphoreModel`, `ContextStore`, `ProviderScheduler`,
  `GatewayCache`), over which the laws are proved for every run, and a class whose methods update
  fields in place with the loops of the program (`BoundedSemaphore`, `SourceContextStore`,
  `GatewayScheduler`, `ResponseCache`). Every method's postcondition equates the new state, and what it
  returns, with the transition of the old state, so the laws hold of the object.
  What each call answers and leaves behind is stated exactly, apart from the invariants: `SnapshotLease` for
  leases, fences and recoveries, `ContextAccess`, `ContextRoundTrips`, `ContextTombstones` and `ContextIsolation` for
  contexts and claims, `SemaphoreAnswers` and `ProviderSchedulerProgress` for the queues.
* **Algorithms with loops** (`Crc32`, `MpegRecogniser`) are methods proved against an independent
  definition: polynomial long division, and the language of pack and packet sequences.
* **Pure code** (revisions, merging, history events, the path codec, the JSON float printer) is functions.
  What the path codec accepts is compared with a grammar of its own (`UriDecoding`, `StremioParsing`).

Strings that are only compared are numbers. Texts whose characters matter are sequences: UTF-16 code units in
`UriComponent` and `StremioPath`, characters in `Revisions` and `JsonFloat`. Clocks, random ids, upstream
answers, failures and timeouts are parameters, so every value they may take is covered. Hashes are injective,
generations and attempt ids are fresh. A repository call is one atomic step.

## Where the code promises less, or something else

* Two reads of one stable generation may return different collections: a profile that is deactivated between
  them lists none, and deactivation does not touch the generation.
  `SnapshotTheorems.SnapshotsOfOneGenerationAgree` gives the exact condition,
  `SnapshotTheorems.DeactivationIsVisible` a run that shows it.
* "A refresh launched before a disconnect never stores tokens after it" does not hold of the call: it may outlive
  the disconnect, read the record of a new authorization, and refresh that
  (`TraktReconnect.AnEarlierRefreshCallMayStoreLaterTokens`). A call stores exactly when its own claim is still the
  record (`TraktBarrier.ARefreshIsStoredExactlyOverItsClaim`). After a disconnect nothing stores tokens until a callback
  launched at that revision or a later one has (`TraktBarrier.DisconnectedUntilACallbackStores`), and an older refresh
  call then stores only over a claim it made after that callback (`TraktBarrier.ARefreshAfterADisconnectClaimedAnew`).
  The barrier holds without exception of the tokens: whatever is stored descends from an authorization launched at the
  disconnected revision or a later one (`TraktTheorems.TokensDescendFromTheLastDisconnect`).
* Merged provenance keeps the order in which the predecessor is read, singular value first. The list the predecessor
  stored heads the merged one exactly when it repeats no value and its singular value, if there is one, heads it
  (`ContextMerge.StoredOrderIsKept`). `ContextMerge.StoredOrderMayChange` and `ContextMerge.RepetitionIsDropped` are
  the two ways it does not.
* Scheduling a job on a batch that is already closed leaves it queued when all slots are busy
  (`ProviderSchedulerSafety.ScheduleKeepsUnlessClosed`, `ProviderSchedulerSafety.AClosedBatchMayQueue`). The gateway
  schedules all jobs of a batch before it closes it, so its own batches are quiet once stopped, whatever else a run
  does (`ProviderSchedulerSafety.GatewayBatchesAreQuiet`). Slots, promises and queues are sound either way.
* A printed request whose encoded extra is longer than 16384 bytes is refused when it is parsed
  (`StremioPath.PathRoundTrip`); `StremioPath.OversizedExtraIsRefused` is such a request.

## Model

| member | source | states |
|---|---|---|
| Revisions.PrintOfValue | lib/source-context.js:1181-1203 | canonical decimals and natural numbers correspond: printing the value of a canonical string gives the string back |
| Revisions.StringOrderIsNumeric | lib/source-context.js:1205-1212 | comparing canonical decimals by length and then character by character is comparing the numbers |
| Revisions.MaximumIsNumeric | lib/source-context.js:1205-1212 | the string maximum denotes the numeric maximum |
| Revisions.PrecedesIsNumeric | lib/storage/repository-utils.js:52-58 | the repository's fence comparison is numeric order |
| Revisions.IncrementAddsOne | lib/source-context.js:1197-1203 | an accepted increment denotes exactly one more |
| Revisions.IncrementIsRefusedOnlyWhenFull | lib/source-context.js:1197-1203 | an increment is refused exactly when the result needs a 129th digit |
| SnapshotAuthority.RecoveryFenceExceeds | lib/source-context.js:1508-1535 | a recovery that takes over gets a fence that is the maximum of the superseded fence plus one and the candidate, keeping the token |
| SnapshotAuthority.RecoveryExhaustion | lib/source-context.js:1495-1535 | recovery fails for want of digits exactly when the superseded fence is the largest one and this caller would supersede it |
| SnapshotLease.StateIsExact | lib/source-context.js:1378-1409 | the state that is read is pending exactly while a lease lasts or a fenced mutation is not completed, and is then unchanged; otherwise the mutation is over and the generation is stable |
| SnapshotLease.BeginIsExact | lib/source-context.js:1411-1433 | a mutation begins exactly when none keeps others out, and then holds a whole lease; otherwise it is refused as busy and changes nothing |
| SnapshotLease.InvalidateIsExact | lib/source-context.js:1605-1616 | a profile is invalidated exactly when no mutation keeps others out; otherwise it is refused as busy and changes nothing |
| SnapshotLease.RunAuthorityOk | lib/source-context.js:1378-1616 | in every reachable store a pending generation and its mutation come together, and no lease ends later than one whole lease from now |
| SnapshotLease.BegunLeases | lib/source-context.js:1411-1433 | a begun mutation holds a whole lease under a token of its own |
| SnapshotLease.LeaseIsRespected | lib/source-context.js:1378-1616 | over every run of calls of others, while the clock is below the lease's end, renewed or not, the mutation stays leased and the generation stays its token |
| SnapshotLease.LiveLeaseExcludes | lib/source-context.js:1378-1616 | after any such run every other begin and every invalidation is refused as busy and changes nothing, and the holder is fenced, renewed or released |
| SnapshotLease.EndedLeaseYields | lib/source-context.js:1393-1409 | once an unfenced lease has ended, a mutation begins and an invalidation succeeds, and the former holder is refused |
| SnapshotLease.FencedMutationExcludes | lib/source-context.js:1459-1603 | over every run a fenced mutation keeps others out however late it is, until it or a recovery completes |
| SnapshotLease.FencedHolderCompletes | lib/source-context.js:1508-1603 | over every run before its lease ends no recovery supersedes a fenced holder: its completion makes the generation stable |
| SnapshotLease.AFenceIsFinal | lib/source-context.js:1459-1493 | a mutation is fenced once: the same fence is answered alike, any other is refused, and so is a renewal or a release after it |
| SnapshotLease.OtherTokensAreRefused | lib/source-context.js:1435-1603 | calls with a token that is not the pending one are refused and change nothing |
| SnapshotLease.ARecoveryTakesOverExactly | lib/source-context.js:1495-1535 | a recovery takes over exactly from a fenced mutation past its lease, or from a recovery, whose fence it names or does not ask about, unless fences are used up; it changes nothing otherwise |
| SnapshotLease.RecoveryLetsOthersIn | lib/source-context.js:1508-1603 | a recovery that took over completes and lets the next mutation begin; the superseded holder and an older recovery are refused |
| SnapshotIsolation.RunKeepsInv | lib/source-context.js:900-1143 | over every run every write in flight is dead or covered by the pending mutation or its recovery, and a stable generation's collection is the stored one |
| SnapshotIsolation.DeadWritesAreRefused | lib/storage/postgres/provider-repository.js:247-255 | the repository refuses a write whose fence lies below the floor, or whose profile is inactive |
| SnapshotTheorems.SnapshotsOfOneGenerationAgree | lib/source-context.js:1042-1076 | two snapshots returned under one generation carry the same collection if and only if they saw the profile equally active or there was nothing to see |
| SnapshotTheorems.ActiveProfilesAreIsolated | lib/source-context.js:1042-1076 | without a deactivation, one generation means one collection, on every interleaving of readers, mutators, recoverers and crashes |
| SnapshotTheorems.DeactivationIsVisible | lib/storage/postgres/provider-repository.js:309-323 | a run in which two reads of one generation differ because the profile was deactivated in between |
| SnapshotTheorems.WritesInFlightAreRefusedAtRest | lib/source-context.js:900-1027 | while the generation is stable, a write left behind by a crashed or superseded mutator has no effect whenever it arrives |
| SnapshotTheorems.CollectionIsStableAtRest | lib/source-context.js:1078-1143 | no step changes the stored collection while the generation is stable |
| SnapshotTheorems.RecoveryReachesTheFloor | lib/source-context.js:900-1027 | a recovery makes the generation stable only after the durable floor has reached its fence, or the profile is inactive |
| SnapshotProgress.AnUndisturbedReaderReturns | lib/source-context.js:1042-1076 | without a pending mutation a reader returns the generation with the stored collection |
| SnapshotProgress.AnUndisturbedMutatorIsFenced | lib/source-context.js:1092-1127 | an undisturbed mutator gets a lease and a fence, and starts its operation |
| SnapshotProgress.ACurrentWriteLands | lib/storage/postgres/provider-repository.js:247-255 | a fenced write at the stored revision under a fence no lower than the floor replaces the collection and raises the floor |
| SnapshotProgress.AFencedMutatorCompletes | lib/source-context.js:1128-1143 | after its operation a fenced mutator that was not superseded makes the generation stable |
| SnapshotProgress.AnUndisturbedRecoverySucceeds | lib/source-context.js:900-1011 | an undisturbed recovery of an abandoned mutation supersedes it, raises the floor to its fence, and only then makes the generation stable |
| SnapshotProgress.AReaderStartsOver | lib/source-context.js:1061-1073 | a reader that finds a mutation pending starts over until its attempts are used up |
| SnapshotProgress.AReaderThatWasOvertakenStartsOver | lib/source-context.js:1061-1073 | a reader whose generation moved while it listed starts over until its attempts are used up |
| SnapshotProgress.ABusyMutatorTriesAgain | lib/source-context.js:1093-1108 | a mutator that finds another one helps it to recover and tries again until its attempts are used up |
| SnapshotProgress.AMutatorWithoutAFenceGivesUp | lib/source-context.js:1113-1137 | a mutator that gets no fence gives its lease up, and the generation is stable at once |
| ContextMerge.MergedProvenanceIsTheUnion | lib/source-context.js:588-625 | merged provenance is the duplicate-free union: the predecessor's entries in reading order, then the newcomers in reading order |
| ContextMerge.StoredOrderIsKept | lib/source-context.js:588-625 | the predecessor's stored list heads the merged one if and only if it repeats no value and its singular value is absent or heads it |
| ContextMerge.StoredOrderMayChange | lib/source-context.js:588-625 | an input for which the stored order changes |
| ContextMerge.RepetitionIsDropped | lib/source-context.js:588-625 | an input for which a stored repetition is dropped |
| ContextMerge.ProvenanceMergeIsIdempotent | lib/source-context.js:605-625 | merging merged provenance with the predecessor again changes nothing |
| ContextMerge.ArrayMergeIsIdempotent | lib/source-context.js:627-640 | merging merged subtitles with the predecessor again changes nothing |
| ContextMerge.ContextMergeIsIdempotent | lib/source-context.js:1220-1254 | re-merging an already merged context with its predecessor changes nothing |
| ContextMerge.MergeKeepsFirstSighting | lib/source-context.js:1220-1254 | id, creation time, identity and eligibility come from the predecessor, display, expiry and fingerprints from the newer context, subtitles from both |
| ContextMerge.MergesAreRefusedExactly | lib/source-context.js:588-640 | merging two lists is refused exactly if they hold more than 64 different values together |
| ContextCoherence.AddTombstoneKeeps | lib/source-context.js:2369-2386 | the two-level tombstone bound: a full table takes a new tombstone only from a profile that gives one up |
| ContextCoherence.PurgeKeeps | lib/source-context.js:2311-2335 | purging keeps all tables coherent: no claim outlives its context |
| ContextCoherence.RecordKeeps | lib/source-context.js:1651-1828 | recording keeps fingerprints of one profile disjoint, claims backed, generations current and capacities respected, on every outcome |
| ContextCoherence.ClaimKeeps | lib/source-context.js:1830-2092 | claiming keeps all tables coherent, claimed session ids distinct, on every outcome including the errors after a change |
| ContextCoherence.AuthorityMovesKeep | lib/source-context.js:1378-1603 | a profile with a pending mutation has no context, claim or attempt, so mutation calls disturb nothing |
| ContextCoherence.RunIsCoherent | lib/source-context.js:1256-2425 | every reachable state of the store is coherent |
| ContextClaims.ClaimIsExact | lib/source-context.js:1986-2037 | a fresh claim is "claimed" if and only if exactly one live context in the launch window shares a fingerprint, and gets that context; it is "ambiguous" if and only if there is another |
| ContextClaims.NoCandidateNoClaim | lib/source-context.js:2015-2037 | without such a context it is "expired" if a fingerprint left a tombstone and "not found" otherwise |
| ContextClaims.OneSourceIsNeverAmbiguous | lib/source-context.js:1722-1752 | fingerprints that all come from one context never make a claim ambiguous |
| ContextClaims.OtherBindingsConflict | lib/source-context.js:1889-1907 | while an attempt is retained, a call conflicts if and only if its binding differs, before anything else is checked, and changes nothing |
| ContextClaims.SameBindingRepeats | lib/source-context.js:1908-1960 | with the same binding the first response is repeated, or "not found" for a claim no longer held; only launch window and device generation may refuse |
| ContextClaims.SecondCapacityCheckHolds | lib/source-context.js:2040-2092 | the capacity check after the claim was stored cannot fail |
| ContextClaims.ApplySettles | lib/source-context.js:1605-2222 | every call leaves a retained attempt as it is or removes it, and never makes a claim held again |
| ContextClaims.DroppedAttemptsAreNotClaimed | lib/source-context.js:1944-1960 | over any run that retains it, an attempt whose claim was superseded, released or lost is never answered "claimed" again |
| ContextClaims.ActiveClaimIsExact | lib/source-context.js:2094-2189 | access exists exactly for an unreleased claimed claim of the session under an unchanged device generation; all other checks are implied by coherence |
| ContextAccess.PurgeIsExact | lib/source-context.js:2311-2335 | purging keeps exactly the contexts, claims, attempts and tombstones that have not expired |
| ContextAccess.PurgedSlot | lib/source-context.js:2311-2335 | time ends a device's claim at its expiry and not before |
| ContextAccess.ReleaseIsExact | lib/source-context.js:2191-2208 | a release answers true if and only if an unexpired, unreleased claimed claim of that device and session is there; it marks exactly that claim, and leaves every other claim and table alone |
| ContextAccess.OnlyClaimedOpens | lib/source-context.js:1605-2222 | no call but one answered "claimed" to the device makes its claim held that was released, superseded, dropped or never made |
| ContextAccess.ReleaseEndsAccess | lib/source-context.js:2094-2208 | over every run from a release on, until the device is answered "claimed" afresh, it has no access under any session at any time, no second release answers true, and no repeated attempt is answered "claimed" |
| ContextRoundTrips.ClaimIsAnsweredExactly | lib/source-context.js:1830-2092 | a call that is no replay is answered exactly when generation, launch time, device generation and capacities admit it |
| ContextRoundTrips.OlderLaunchIsNotFound | lib/source-context.js:1959-1977 | a launch older than the device's claim is answered "not found" and leaves that claim as it is |
| ContextRoundTrips.FreshClaimIsStored | lib/source-context.js:2040-2092 | a claim answered afresh is the one the device holds afterwards |
| ContextRoundTrips.FreshClaimSupersedes | lib/source-context.js:2040-2092 | a "claimed" answer opens access dated now and names the other session it takes over from; any other answer opens nothing |
| ContextRoundTrips.ClaimedGivesAccess | lib/source-context.js:1830-2189 | what a claim was answered with gives access at once and until it expires: for that session, to that very context |
| ContextRoundTrips.NewContextIsStored | lib/source-context.js:1651-1828 | recording what no context shares a fingerprint with adds exactly that context for a whole time to live; it is refused exactly for an overlap, a full table or an id in use |
| ContextRoundTrips.EquivalentContextIsRefreshed | lib/source-context.js:1753-1800 | recording another sighting replaces the predecessor by the merged context for a whole time to live from now; it is refused exactly if the providers moved back, a merged list is too long or the revision is used up |
| ContextRoundTrips.RecordedContextIsClaimed | lib/source-context.js:1651-2092 | a claim for fingerprints of a context just recorded, in its launch window while it lives, is "claimed" with that context |
| ContextRoundTrips.InvalidatedDeviceStartsOver | lib/source-context.js:1618-1645 | invalidating a device drops its claim and attempts, and lets it claim under the new generation only |
| ContextRoundTrips.AnswersAreKeptLongEnough | lib/source-context.js:1961-2092 | an attempt is retained as long as its answer can matter |
| ContextRoundTrips.SightingsAreEquivalentExactly | lib/source-context.js:2286-2298 | two sightings are equivalent if and only if they have the same content key and the same set of fingerprints |
| ContextTombstones.TombstoneIsLeft | lib/source-context.js:2369-2386 | a tombstone is there after it was added, for the later of both times, unless the table is full and its profile has none to give up |
| ContextTombstones.ExpiredContextIsRemembered | lib/source-context.js:2015-2037 | a claim for a fingerprint of a context that expired, and that no other context answers, is "expired" for the whole time of the tombstone |
| ContextIsolation.ProfilesAreIsolated | lib/source-context.js:1605-2222 | a call for another profile leaves everything of a profile as it was, or as time alone leaves it |
| ContextIsolation.AMovedProfileForgetsEverything | lib/source-context.js:2254-2270 | a profile that is invalidated, or whose providers begin to change, loses all contexts, claims, attempts and tombstones and gets the new generation |
| ContextRecords.RecordMergesOnce | lib/source-context.js:1753-1800 | the second merge of a record changes nothing and fails only where the first did |
| ContextRecords.FirstSightingSurvives | lib/source-context.js:1727-1826 | identity, eligibility, id and creation time survive any number of records, and the revision counts them |
| SourceContextStoreClass.CountForProfile | lib/source-context.js:2399-2406 | the loop counts the rows of the profile |
| SourceContextStoreClass.DeleteOldestForProfile | lib/source-context.js:2408-2415 | the loop drops the oldest row of the profile and no other |
| SourceContextStoreClass.FindEquivalentContext | lib/source-context.js:2286-2298 | the loop finds the context with the same content key and fingerprints, and none without a content key |
| SourceContextStoreClass.FindOverlappingContext | lib/source-context.js:2300-2309 | true exactly if a context of the profile shares a fingerprint |
| SourceContextStoreClass.HasActiveSessionId | lib/source-context.js:2417-2422 | true exactly if a claimed claim uses the session id |
| SourceContextStoreClass.SourceContextStore.constructor | lib/source-context.js:1256-1371 | a new object is the initial state of the model |
| SourceContextStoreClass.SourceContextStore.Now | lib/source-context.js:2272-2280 | the clock never goes back |
| SourceContextStoreClass.SourceContextStore.PurgeContexts | lib/source-context.js:2311-2321 | the loop keeps the live contexts and buries the others in order |
| SourceContextStoreClass.SourceContextStore.ClearProfileState | lib/source-context.js:2254-2270 | new state equals the transition's |
| SourceContextStoreClass.SourceContextStore.AdmitContext | lib/source-context.js:1715-1752 | the checks of record against the tables, in order |
| SourceContextStoreClass.SourceContextStore.CollectMatches | lib/source-context.js:1986-2008 | the loop collects exactly the candidates, in order |
| SourceContextStoreClass.SourceContextStore.AssertClaimAttemptCapacity | lib/source-context.js:2358-2367 | true exactly if the attempt is known or fits both limits |
| SourceContextStoreClass.SourceContextStore.StoreClaimAttempt | lib/source-context.js:2352-2356 | new state equals the transition's, with its own capacity check |
| SourceContextStoreClass.SourceContextStore.AnswerFresh | lib/source-context.js:1961-2092 | result and new state equal the transition's |
| SourceContextStoreClass.SourceContextStore.AddTombstone | lib/source-context.js:2369-2386 | the in-place method equals its transition |
| SourceContextStoreClass.SourceContextStore.Purge | lib/source-context.js:2311-2335 | the in-place method equals its transition |
| SourceContextStoreClass.SourceContextStore.SetDeviceGeneration | lib/source-context.js:2337-2350 | the in-place method equals its transition |
| SourceContextStoreClass.SourceContextStore.Record | lib/source-context.js:1651-1828 | result and new state equal the transition's; coherence is kept |
| SourceContextStoreClass.SourceContextStore.ClaimSource | lib/source-context.js:1830-2092 | result and new state equal the transition's; coherence is kept |
| SourceContextStoreClass.SourceContextStore.AnswerClaim | lib/source-context.js:1986-2037 | the matching loop computes the answer of the transition |
| SourceContextStoreClass.FindTombstoneExpiry | lib/source-context.js:2388-2397 | the loop finds the latest tombstone of the requested fingerprints |
| SourceContextStoreClass.SourceContextStore.GetActiveClaim | lib/source-context.js:2094-2189 | result and new state equal the transition's; coherence is kept |
| SourceContextStoreClass.SourceContextStore.Release | lib/source-context.js:2191-2208 | result and new state equal the transition's, which ContextAccess.ReleaseIsExact pins: the claim is marked released; coherence is kept |
| SourceContextStoreClass.SourceContextStore.InvalidateDevice | lib/source-context.js:1618-1645 | result and new state equal the transition's; coherence is kept |
| SourceContextStoreClass.SourceContextStore.InvalidateProfile | lib/source-context.js:1605-1616 | result and new state equal the transition's, which SnapshotLease.InvalidateIsExact pins: refused while a lease lasts; coherence is kept |
| SourceContextStoreClass.SourceContextStore.BeginProviderSnapshotMutation | lib/source-context.js:1411-1433 | result and new state equal the transition's, which SnapshotLease.BeginIsExact pins: refused while a lease lasts; coherence is kept |
| SourceContextStoreClass.SourceContextStore.CallMutation | lib/source-context.js:1378-1603 | new state equals the transition's, which SnapshotLease pins call by call: a live lease is reported and kept; coherence is kept |
| SemaphoreModel.PerKeyLimitReservesCapacity | lib/upstream-fetch-policy.js:113-120 | a limit is accepted if and only if it leaves room for another key, and the default always does |
| SemaphoreModel.AcceptedLimitsReserveCapacity | lib/upstream-fetch-policy.js:404-425 | limits the constructor accepts are positive, and no key can take all slots or all places unless there is one |
| SemaphoreSafety.DrainValid | lib/upstream-fetch-policy.js:500-543 | draining restores work conservation from any sound state |
| SemaphoreSafety.FastPathValid | lib/upstream-fetch-policy.js:427-438 | the fast path finds no waiter of its key, so it never barges |
| SemaphoreSafety.HandlesHoldSlots | lib/upstream-fetch-policy.js:545-556 | an unused release handle always has a slot to give back |
| SemaphoreSafety.AcquireValid | lib/upstream-fetch-policy.js:427-460 | acquire keeps counts equal to their sums, the four caps, the rotation, the key map and work conservation |
| SemaphoreSafety.AbortValid | lib/upstream-fetch-policy.js:474-498 | so does a cancellation |
| SemaphoreSafety.ReleaseValid | lib/upstream-fetch-policy.js:545-556 | so does a release |
| SemaphoreFairness.RunIsValid | lib/upstream-fetch-policy.js:403-556 | all of it holds after every operation of every run |
| SemaphoreLedger.DrainMoves | lib/upstream-fetch-policy.js:500-543 | a drain leaves each call as it was, or ends its wait with exactly one event: a slot, or a cancellation if its signal has fired |
| SemaphoreLedger.NoCallIsLost | lib/upstream-fetch-policy.js:427-556 | every operation leaves each earlier call as it was, or ends its wait with exactly one event; only a fired signal or its own listener cancels it |
| SemaphoreFairness.SearchServesInTurn | lib/upstream-fetch-policy.js:500-529 | the search serves a waiting key below its cap, or a key ahead of it, or has canceled every waiter of the key |
| SemaphoreFairness.KeepsWaitingBelowCap | lib/upstream-fetch-policy.js:427-543 | a key queued below its cap stays so unless it is served or every one of its waiters is canceled |
| SemaphoreFairness.WaitsUntilServed | lib/upstream-fetch-policy.js:427-556 | over any run a key queued below its cap still is, or one turn found it so and served it or canceled all its waiters |
| SemaphoreFairness.BoundedOvertaking | lib/upstream-fetch-policy.js:427-543 | before it is served, every other key gets at most one slot, only keys ahead of it do, and fewer than the rotation is long |
| SemaphoreOrder.SettledOnce | lib/upstream-fetch-policy.js:427-543 | every acquire is settled at most once |
| SemaphoreOrder.EveryCallIsAccountedFor | lib/upstream-fetch-policy.js:427-556 | over every run a call that was told to wait still waits or has exactly one grant or cancellation, one let in at once has its grant, one turned away nothing |
| SemaphoreOrder.FirstComeFirstServed | lib/upstream-fetch-policy.js:500-543 | within a key, slots follow arrival order, and nobody waiting arrived before somebody served |
| SemaphoreAnswers.AcquireIsExact | lib/upstream-fetch-policy.js:427-460 | a call is let in if and only if its key has a free slot; it is refused for a full queue if and only if not and the queue or the key's own queue is full, and then leaves no trace; in any other case it waits and moves nobody |
| SemaphoreAnswers.AbortIsExact | lib/upstream-fetch-policy.js:474-484 | the abort of a waiting call cancels exactly that call, and any other abort does nothing |
| SemaphoreAnswers.ReleaseIsExact | lib/upstream-fetch-policy.js:545-556 | the first use of a handle gives its slot back for good, handles appear only for the waiting calls it grants, and a handle used before does nothing |
| SemaphoreAnswers.DrainHandsOut | lib/upstream-fetch-policy.js:531-543 | a drain gives a handle to exactly the waiting calls it grants and takes none away |
| BoundedSemaphoreClass.BoundedSemaphore.constructor | lib/upstream-fetch-policy.js:404-425 | a new object is the initial state of the model |
| BoundedSemaphoreClass.BoundedSemaphore.EnqueueGroup | lib/upstream-fetch-policy.js:468-472 | new state equals the transition's |
| BoundedSemaphoreClass.BoundedSemaphore.RemoveGroupFromQueue | lib/upstream-fetch-policy.js:486-491 | the search and the splice remove the key the model removes |
| BoundedSemaphoreClass.BoundedSemaphore.DeleteGroupIfIdle | lib/upstream-fetch-policy.js:493-498 | new state equals the transition's |
| BoundedSemaphoreClass.BoundedSemaphore.TakeEntry | lib/upstream-fetch-policy.js:511-523 | the inner loop settles exactly the canceled waiters before the first live one, and takes that one |
| BoundedSemaphoreClass.BoundedSemaphore.VisitGroup | lib/upstream-fetch-policy.js:502-526 | one round of the search equals the model's |
| BoundedSemaphoreClass.BoundedSemaphore.Grant | lib/upstream-fetch-policy.js:531-535 | new state equals the transition's |
| BoundedSemaphoreClass.BoundedSemaphore.NextQueuedEntry | lib/upstream-fetch-policy.js:500-529 | the nested loops equal the search of the model |
| BoundedSemaphoreClass.BoundedSemaphore.DrainQueue | lib/upstream-fetch-policy.js:537-543 | the drain loop equals the model's and ends valid |
| BoundedSemaphoreClass.BoundedSemaphore.Acquire | lib/upstream-fetch-policy.js:427-460 | result and new state equal the transition's; validity is kept |
| BoundedSemaphoreClass.BoundedSemaphore.AbortWaiter | lib/upstream-fetch-policy.js:474-498 | new state equals the transition's; validity is kept |
| BoundedSemaphoreClass.BoundedSemaphore.Release | lib/upstream-fetch-policy.js:545-556 | new state equals the transition's; validity is kept |
| ProviderSchedulerSafety.CancelKeeps | lib/provider-gateway-service.js:1277-1294 | cancelling leaves no job of the batch queued or unsettled, frees no slot of a running factory, and refills the rest |
| ProviderSchedulerSafety.ScheduleKeepsUnlessClosed | lib/provider-gateway-service.js:1210-1240 | scheduling always keeps slots, queues and promises, and keeps stopped batches quiet if and only if it does not queue a job on a closed one |
| ProviderSchedulerSafety.AClosedBatchMayQueue | lib/provider-gateway-service.js:1210-1240 | a run in which a job is queued on a closed batch |
| ProviderSchedulerSafety.FinalizeKeeps | lib/provider-gateway-service.js:1255-1261 | a finalizer gives back a slot that is really held, and the queue moves up |
| ProviderSchedulerSafety.DropKeeps | lib/provider-gateway-service.js:1296-1303 | a scheduler is dropped exactly when nothing of the profile runs or waits |
| ProviderSchedulerSafety.RunningFactoriesAreBounded | lib/provider-gateway-service.js:1185-1303 | running factories never exceed the limit even when callers cancel, and a non-empty queue means all slots are busy |
| ProviderSchedulerSafety.PromisesSettleOnce | lib/provider-gateway-service.js:1242-1275 | each job's promise settles at most once, and exactly once by its end |
| ProviderSchedulerSafety.StoppedBatchesAreQuiet | lib/provider-gateway-service.js:1201-1208 | after a close or an abort no job of the batch is queued or unsettled, over every run that never queued a job on it once closed |
| ProviderSchedulerSafety.GatewayBatchesNeedNoExcuse | lib/provider-gateway-service.js:969-991 | creating a batch, scheduling its jobs and then closing it never queues a job on it once closed, whatever the run does in between |
| ProviderSchedulerSafety.GatewayBatchesAreQuiet | lib/provider-gateway-service.js:969-991 | so no job of a stopped batch of the gateway is queued or unsettled |
| ProviderSchedulerSafety.DroppedSchedulersWereIdle | lib/provider-gateway-service.js:1296-1303 | a profile without a scheduler has only finished jobs |
| ProviderSchedulerProgress.ScheduleIsExact | lib/provider-gateway-service.js:1210-1240 | a job starts at once, waits, or is refused for a full queue, exactly as slots and queue leave room; a batch whose signal has fired is refused, and a job of a closed batch never starts |
| ProviderSchedulerProgress.JobsLeaveInOrder | lib/provider-gateway-service.js:1210-1303 | jobs of one profile leave its queue in the order they came |
| ProviderSchedulerProgress.CancelIsExact | lib/provider-gateway-service.js:1277-1294 | cancelling ends exactly the batch's queued jobs and tells the callers of its active ones; another batch's job is untouched or gets its turn |
| ProviderSchedulerProgress.CloseIsExact | lib/provider-gateway-service.js:1201-1208 | closing a batch closes that one and settles its jobs |
| ProviderSchedulerProgress.AbortIsExact | lib/provider-gateway-service.js:1193-1197 | a signal that fires marks its batch, and settles its jobs unless the batch is closed |
| ProviderSchedulerProgress.FinalizeIsExact | lib/provider-gateway-service.js:1251-1261 | a factory that returns settles a caller who was not told yet and keeps its slot until its finalizer, which ends the job and gives the slot to the next |
| GatewaySchedulerClass.GatewayScheduler.constructor | lib/provider-gateway-service.js:615-630 | a new object is the initial state of the model |
| GatewaySchedulerClass.GatewayScheduler.SettleProviderJob | lib/provider-gateway-service.js:1271-1275 | new state equals the transition's |
| GatewaySchedulerClass.GatewayScheduler.RejectQueuedProviderJob | lib/provider-gateway-service.js:1264-1269 | new state equals the transition's |
| GatewaySchedulerClass.GatewayScheduler.StartProviderJob | lib/provider-gateway-service.js:1242-1249 | new state equals the transition's |
| GatewaySchedulerClass.GatewayScheduler.SweepQueue | lib/provider-gateway-service.js:1281-1289 | the first loop of a cancellation rejects the batch's queued jobs and keeps the others in order |
| GatewaySchedulerClass.GatewayScheduler.SettleActiveJobs | lib/provider-gateway-service.js:1290-1292 | the second loop tells the callers of the batch's active jobs |
| GatewaySchedulerClass.GatewayScheduler.CreateProviderBatch | lib/provider-gateway-service.js:1185-1199 | new state equals the transition's; the invariant is kept |
| GatewaySchedulerClass.GatewayScheduler.CloseProviderBatch | lib/provider-gateway-service.js:1201-1208 | new state equals the transition's; the invariant is kept |
| GatewaySchedulerClass.GatewayScheduler.AbortSignal | lib/provider-gateway-service.js:1193-1197 | new state equals the transition's; the invariant is kept |
| GatewaySchedulerClass.GatewayScheduler.FactoryReturned | lib/provider-gateway-service.js:1251-1254 | new state equals the transition's; the invariant is kept |
| GatewaySchedulerClass.GatewayScheduler.DrainProviderScheduler | lib/provider-gateway-service.js:1296-1303 | the loop equals the drain of the model |
| GatewaySchedulerClass.GatewayScheduler.CancelProviderJobs | lib/provider-gateway-service.js:1277-1294 | the two loops equal the cancellation of the model |
| GatewaySchedulerClass.GatewayScheduler.ScheduleProvider | lib/provider-gateway-service.js:1210-1240 | result and new state equal the transition's; the invariant is kept |
| GatewaySchedulerClass.GatewayScheduler.FinalizeJob | lib/provider-gateway-service.js:1255-1261 | new state equals the transition's; the invariant is kept |
| GatewayCache.ClampNeverFires | lib/provider-gateway-service.js:1153-1156 | the clamp of the byte counter at zero never fires |
| GatewayCache.ReadIsExact | lib/provider-gateway-service.js:1106-1117 | a read gives exactly the value of the unexpired entry that was there, makes that entry the most recent and changes nothing else of it, drops an expired one and touches no other |
| GatewayCache.EvictDropsLeastRecent | lib/provider-gateway-service.js:1146-1150 | eviction drops a prefix in order of last use, and as little as will do |
| GatewayCache.WriteKeepsTheMostRecent | lib/provider-gateway-service.js:1130-1151 | after a write both limits hold, the new entry is kept as the most recent, and what is kept is the longest run of recently used entries that fits |
| GatewayCache.RefusedWriteKeepsAll | lib/provider-gateway-service.js:1130-1137 | a write is refused exactly for a value too large or over an unexpired entry, and then changes nothing |
| GatewayCache.ClearScopeIsExact | lib/provider-gateway-service.js:838-843 | clearing a profile removes exactly its entries |
| GatewayCache.PruneIsExact | lib/provider-gateway-service.js:827-836 | pruning removes exactly the expired entries |
| GatewayCache.WrittenValueIsRead | lib/provider-gateway-service.js:1106-1151 | a value that was written is read back until it expires |
| GatewayCache.ReadsReturnWhatWasLastWritten | lib/provider-gateway-service.js:827-1156 | over every run of reads, writes, prunes and clears an entry, and so a read, holds the value, size, profile and expiry last written under its key |
| GatewayCache.ResponseCache.constructor | lib/provider-gateway-service.js:622-623 | a new object is the empty cache |
| GatewayCache.ResponseCache.DeleteCacheEntry | lib/provider-gateway-service.js:1153-1156 | new state equals the transition's |
| GatewayCache.ResponseCache.ReadCache | lib/provider-gateway-service.js:1106-1117 | result and new state equal the transition's; validity is kept |
| GatewayCache.ResponseCache.WriteCache | lib/provider-gateway-service.js:1130-1151 | new state equals the transition's; validity is kept |
| GatewayCache.ResponseCache.PruneCache | lib/provider-gateway-service.js:827-836 | new state and count equal the transition's; validity is kept |
| GatewayCache.ResponseCache.ClearProfileScope | lib/provider-gateway-service.js:838-843 | new state equals the transition's; validity is kept |
| GatewayEpochs.WriteIsRecent | lib/provider-gateway-service.js:1119-1128 | what is written under a current epoch was fetched after the last clear, even when the fetch was joined |
| GatewayEpochs.ReleasedEpochWasActive | lib/provider-gateway-service.js:903-909 | the clamp of an epoch's counter never fires |
| GatewayEpochs.CachedValuesPostdateTheLastClear | lib/provider-gateway-service.js:838-945 | over every run what is in the cache was fetched for its own key after its profile was last cleared |
| GatewayEpochs.CurrentEpochsAreHeld | lib/provider-gateway-service.js:889-909 | a current epoch counts exactly the queries that hold it, and at least one does |
| GatewayEpochs.CacheStaysWithinLimits | lib/provider-gateway-service.js:1106-1156 | limits and byte count of the cache hold over every run |
| GatewayEpochs.AQueryHoldsACurrentEpoch | lib/provider-gateway-service.js:889-897 | a query that starts holds the current epoch of its profile, or a new one that becomes current |
| GatewayEpochs.HeldEpochStaysCurrent | lib/provider-gateway-service.js:838-909 | over every step the epoch a query holds stays current unless its profile is cleared or the query ends |
| GatewayEpochs.FetchesAreSharedExactly | lib/provider-gateway-service.js:911-945 | a query answers from the cache if it can, joins the fetch in flight for its key exactly if that belongs to its own epoch, and fetches for itself otherwise |
| GatewayEpochs.ResultsAreCachedExactly | lib/provider-gateway-service.js:1119-1151 | a complete result under a current epoch is in the cache when the query ends unless its write is refused, and nothing else is added |
| GatewayEpochs.FetchesLeaveExactly | lib/provider-gateway-service.js:838-945 | a settled fetch and those of a cleared profile are joined by nobody any more, and every other one stays to be joined |
| TraktSafety.Reachable | index.js:1493-1632 | over every run of refreshers, seeders, upgraders, fail-closed writers, disconnects and callbacks the record and all processes satisfy the credential invariant |
| TraktTheorems.RefreshTokensAreSentAtMostOnce | index.js:1756-1843 | no refresh token is sent upstream twice, on any interleaving with crashes |
| TraktTheorems.SentTokensAreNotStored | index.js:1792-1843 | a token that was sent is never in the record again |
| TraktTheorems.TokensDescendFromTheLastDisconnect | index.js:1573-1632 | stored tokens descend from an authorization launched at the revision of the last disconnect or later |
| TraktTheorems.OnlyACallbackEndsADisconnect | index.js:1573-1632 | a disconnected record becomes anything else only through a callback launched from that very revision |
| TraktTheorems.ARefreshIsStoredOnlyOverItsClaim | index.js:1792-1843 | a refresher stores only over its own claim, so anything written in between makes its write fail |
| TraktTheorems.HowAReadyTokenLeaves | index.js:1493-1843 | a usable token leaves the record only by being claimed, which needs a missing or expired access token, by a disconnect, or by a callback launched from it |
| TraktTheorems.BarrierIsAMarker | index.js:1618-1632 | the revision of the last disconnect holds its marker |
| TraktTheorems.ProcessesCanAlwaysAct | index.js:1493-1843 | the model never holds back a process that the program would let run |
| TraktBarrier.ARefreshIsStoredExactlyOverItsClaim | index.js:1792-1843 | a refresh call stores if and only if its put goes through and its claim is the record, never with a claim from before the last disconnect |
| TraktBarrier.DisconnectedUntilACallbackStores | index.js:1573-1632 | over every run from a disconnect on, the record stays disconnected and without tokens until a callback launched at that revision or later has stored |
| TraktBarrier.ARefreshAfterADisconnectClaimedAnew | index.js:1756-1843 | over every run from a disconnect on, a refresh call however old stores only over a claim above the revision that such a callback stored |
| TraktReconnect.AnEarlierRefreshCallMayStoreLaterTokens | index.js:1756-1843 | a run in which a refresh call started before a disconnect stores tokens after the next authorization |
| TraktProgress.AFreshTokenIsUsed | index.js:1756-1789 | in every reachable world a refresh call at a ready record whose access token is there and fresh writes nothing, sends nothing and ends with the tokens of that record |
| TraktProgress.AClaimIsMadeExactly | index.js:1786-1806 | a refresh call writes a claim if and only if the record is still the one it read, is ready, has no fresh access token and has a refresh token; it then holds that token to send |
| TraktProgress.ASendIsExact | index.js:1808-1816 | the process that claimed a token sends it, once; no other step sends anything |
| TraktProgress.ReturnedTokensAreTheRecords | index.js:1756-1843 | over every run a call that ends with tokens ends with those of a record: the one it read, has just stored, or finds stored after a lost race |
| TraktProgress.ADisconnectStoresExactly | index.js:1618-1632 | a disconnect stores its marker exactly over the record it read |
| TraktProgress.ACallbackStoresExactly | index.js:1573-1616 | a callback stores its tokens exactly over the record its authorization was launched from |
| TraktProgress.AFailClosedStoresExactly | index.js:1493-1521 | credentials are given up exactly if they are still those that were read and in flight under that attempt, or, without one, not ready |
| TraktProgress.ASeedIsStoredExactly | index.js:1556-1571 | tokens of the configuration are stored exactly where there is no record |
| TraktProgress.ASeedIsReadExactly | index.js:1556-1564 | without a record the tokens of the configuration are put, and without those the call ends |
| TraktProgress.AnUpgradeIsStoredExactly | index.js:1523-1554 | a record without a generation gets one and keeps everything else, exactly over what was read |
| TraktProgress.AnUndisturbedRefreshSucceeds | index.js:1756-1843 | an undisturbed refresh that upstream answers sends the spent token once, stores the new ones and returns them |
| TraktProgress.AnUndisturbedDisconnectSucceeds | index.js:1618-1632 | an undisturbed disconnect takes all tokens out of the record |
| TraktProgress.AnUndisturbedCallbackSucceeds | index.js:4282-4300 | an undisturbed callback launched from the record as it is stores what upstream answers |
| TraktProgress.AConfirmIsExact | index.js:1818-1841 | a call whose put lost the race returns the winner's tokens exactly if they are ready, fresh and of its generation, and gives its attempt up otherwise |
| TraktProgress.ALostRaceIsRetried | index.js:1493-1810 | a call whose record was replaced reads again within its attempts |
| TraktProgress.AWaiterIsExact | index.js:1763-1784 | a refresh call waits for an attempt in flight, gives it up at its deadline, gives up an unreadable record, and fails on one that needs the user |
| TraktProgress.AnEnsuredCallGoesOn | index.js:3980-3990 | with a generation in the record a call refreshes, disconnects, or hands out a state bound to that generation and revision |
| TraktProgress.ACallbackIsFenced | index.js:4282-4297 | a callback goes on exactly while the record is the one its authorization was launched from |
| ScrobbleDispatch.Reachable | lib/trakt-scrobble-service.js:542-630 | over every run with crashes, lease expiry and late effects the dispatch, its workers and its requests satisfy the delivery invariant |
| ScrobbleDispatch.AtMostOneRequestTakesEffect | lib/trakt-scrobble-service.js:542-608 | of all requests of a dispatch at most one has taken effect or still may |
| ScrobbleDispatch.OnlyTheFirstTwoClaimsSend | lib/trakt-scrobble-service.js:610-619 | only the first two claims send, and none sends twice |
| ScrobbleDispatch.LaterClaimsNeverSend | lib/trakt-scrobble-service.js:552-559 | from the third claim on the dispatch can only be consumed |
| ScrobbleDispatch.WithoutARetryOnlyTheFirstClaimSends | lib/trakt-scrobble-service.js:610-630 | over every run without a successful durable retry, a second claim too can only consume the dispatch |
| ScrobbleDispatch.SecondClaimSendsAfterASpentFirst | lib/trakt-scrobble-service.js:610-630 | a second claim that sends comes after a first of which nothing can have reached Trakt |
| ScrobbleDispatch.AClaimSendsExactly | lib/trakt-scrobble-service.js:552-619 | over every run a dispatch is claimed exactly when it is due; the claim goes on to send if and only if it is the first, or the second after a successful durable retry |
| ScrobbleDispatch.AnAdmissionSendsExactly | lib/trakt-scrobble-service.js:572-599 | an admission adds exactly one request if and only if the lease is current and unexpired and the profile stands behind it |
| ScrobbleDispatch.AnUndisturbedDeliverySucceeds | lib/trakt-scrobble-service.js:542-608 | an undisturbed claim that sends is delivered with exactly one request |
| ScrobbleDispatch.AProvenFailureIsRequeued | lib/trakt-scrobble-service.js:600-630 | a failure proven to precede any effect puts the dispatch back for the time given |
| ScrobbleDispatch.TheOwnerMovesTheRecord | lib/trakt-scrobble-service.js:542-630 | consuming, finishing and retrying change the record exactly while the worker owns its lease |
| ScrobbleDispatch.OnlyProvenFailuresAreRetried | lib/trakt-scrobble-service.js:561-608 | only a failure proven to precede any effect and a missing credential lead to a retry; every answer and every other failure ends in delivery |
| HistoryMerge.RefusedOnlyForAnotherIdentity | lib/history-service.js:497-524 | an event is refused exactly when the live row is bound to another identity |
| HistoryMerge.WrittenProgressIsBounded | lib/history-service.js:511-589 | what is written is bounded by its duration whatever an older row holds |
| HistoryMerge.RetryLosesNoProgress | lib/history-service.js:529-572 | a put that lost a race keeps the larger position, duration and watched time of event and row unless it starts a rewatch |
| HistoryMerge.FirstAttemptStoresTheEvent | lib/history-service.js:667-685 | a put that meets no race stores the event's own position, duration, watched time and completion; an empty uncompleted event over a completed row keeps the completion and the larger valid progress; a bound identity is kept, and otherwise the event's is written |
| HistoryMerge.RetryStoresTheEvent | lib/history-service.js:529-572 | a later attempt over no live row, an unreadable one, or with a rewatch stores the event as well |
| HistoryProtocol.RunKeeps | lib/history-service.js:667-708 | over every run each write was computed from the very revision it replaces |
| HistoryProtocol.ProgressStaysBounded | lib/history-service.js:511-708 | stored progress stays within its duration on every interleaving |
| HistoryProtocol.TimeNeverGoesBack | lib/history-service.js:417-429 | the last-played time grows with every event below its cap even if the clock goes back, and a removal keeps it |
| HistoryProtocol.TimeStaysWithinItsCap | lib/history-service.js:409-429 | it never exceeds the last date |
| HistoryProtocol.IdentityStaysWhileLive | lib/history-service.js:497-510 | a bound identity never changes while the row is live |
| HistoryProtocol.CompletionIsClearedByProgress | lib/history-service.js:536-589 | every event that turns a completed row into the uncompleted version after it has actual progress |
| HistoryProtocol.APutThatClearsCompletionHasProgress | lib/history-service.js:667-708 | whatever step stores an uncompleted row over a completed one is a put whose own event has actual progress |
| HistoryProtocol.OnlyRacesRefuseAPut | lib/storage/memory-durable-repositories.js:676-681 | the repository's check against earlier times never refuses this service: a write fails exactly when another came first |
| HistoryProtocol.AFirstWriteStoresTheEvent | lib/history-service.js:667-708 | over every run a put whose first write swaps stores a row with its event; one that lost the race reads again until its attempts are used up |
| HistoryProtocol.AnUndisturbedPutIsStored | lib/history-service.js:667-708 | an undisturbed put stores its event unless the row is bound to another identity |
| HistoryProtocol.ARemovalClearsExactly | lib/history-service.js:710-743 | a removal clears exactly the live row it read and keeps its time |
| UriComponent.Utf8Reads | lib/stremio-transport.js:92-101 | UTF-8 of every code point reads back as that code point |
| UriComponent.DecodeOfEncode | lib/stremio-transport.js:92-101 | decoding an encoded component gives the text back |
| UriComponent.EncodeAtMostTriples | lib/stremio-transport.js:92-101 | encoding at most triples the bytes and uses no separator |
| UriDecoding.DecodeIsExact | lib/stremio-transport.js:92-101 | a text decodes to a meaning if and only if it denotes it: units other than "%" stand for themselves, and escapes spell the UTF-8 of code points |
| UriDecoding.EncodeIsRefusedExactly | lib/stremio-transport.js:333-339 | a text is refused if and only if it has a surrogate without its other half |
| StremioPath.DecodeOnceOfEncode | lib/stremio-transport.js:92-101 | the decoder's component limits never refuse what was encoded within the printer's |
| StremioPath.DecodeExtraOfPrint | lib/stremio-transport.js:103-138 | the printed extra decodes to its pairs if and only if it fits its byte limit |
| StremioPath.PathRoundTrip | index.js:4487-4521 | parsing the path printed for a valid request gives that request if and only if its encoded extra fits, under every mount, query and fixture setting |
| StremioPath.OversizedExtraIsRefused | lib/stremio-transport.js:103-138 | a valid request that is printed and then refused, because a value at its own limit needs an escape for every character |
| StremioPath.PlainResourceIsItself | lib/stremio-transport.js:341-364 | "stream" and "subtitles" are printed as themselves |
| StremioParsing.ParseIsExact | index.js:4487-4521 | a URL is parsed as a request if and only if the path before its query spells that request: mount, expected resource, components and pairs within their limits, ".json" at the end |
| StremioParsing.EveryPathHasSegments | index.js:4487-4495 | every URL is a path with segments and a query, so that the row above covers all of them |
| StremioParsing.ExtraIsExact | lib/stremio-transport.js:103-138 | an extra decodes to pairs if and only if it consists of those, with "&" between them and a first "=" behind each name |
| StremioParsing.ParsedRequestsAreValid | lib/stremio-transport.js:92-138 | whatever is parsed is within all limits, without control characters and forbidden names |
| StremioParsing.PrintIsRefusedExactly | lib/stremio-transport.js:341-364 | a request is printed if and only if it is valid and no part of it has a lone surrogate |
| JsonFloat.FormatDenotesItsNumber | lib/stremio-transport.js:447-470 | the printed float denotes the number it was printed from, in every branch |
| JsonFloat.FormIsByMagnitude | lib/stremio-transport.js:447-470 | a number is printed without an exponent if and only if its power of ten lies between -5 and 15 |
| JsonFloat.WholeSizesAreKept | lib/stremio-transport.js:432-446 | a whole size that fits 64 bits is printed digit for digit as it came, any other as the float it was read as |
| MpegRecogniser.HasVobSubPackEvidence | lib/subtitle-payload.js:519-559 | the cursor loop terminates within the payload and accepts exactly the streams of the language |
| MpegRecogniser.PackEndIsExact | lib/subtitle-payload.js:485-501 | the pack end that is read is the end of the one pack header the payload starts with |
| MpegRecogniser.ScanSound | lib/subtitle-payload.js:519-559 | whatever the scan accepts is a sequence of packs and packets with a subtitle packet and at most an end code behind it |
| MpegRecogniser.ScanComplete | lib/subtitle-payload.js:519-559 | every such sequence is accepted |
| Crc32.BuildTable | lib/subtitle-payload.js:41-51 | the table holds the eight-step remainder of every byte |
| Crc32.Compute | lib/subtitle-payload.js:59-63 | the byte loop over the table computes the bit-by-bit checksum |
| Crc32.LookupIsEightSteps | lib/subtitle-payload.js:61-61 | one table lookup does what eight steps of division do |
| Crc32Division.ConstantIsGenerator | lib/subtitle-payload.js:46-46 | the program's constant is the generator polynomial of CRC-32 |
| Crc32Division.ChecksumIsLongDivision | lib/subtitle-payload.js:41-63 | for every payload the checksum is the complemented remainder of polynomial long division (section 8 of RFC 1952) |

## Left out

- SnapshotTheorems.ActiveProfilesAreIsolated: states isolation for runs without deactivation, because with one it is false; the exact condition is the row above it.
- ScrobbleDispatch.AtMostOneRequestTakesEffect: covers one dispatch; the worker's batches, its summary and its inline delivery only choose which dispatch to claim next.
- HistoryProtocol.RunKeeps: covers one row; display and playback snapshots are field-wise overlays and are not modelled, and clearing a profile, which starts a new history generation, is not a step.
- StremioPath.PathRoundTrip: starts at the resource path; parsing and validating the provider's own transport URL is not modelled.
- TraktTheorems.RefreshTokensAreSentAtMostOnce: assumes that upstream never reissues a refresh token; OAuth states may be used more than once in the model, which allows more runs than the program.
- ContextCoherence.RunIsCoherent: timestamps beyond the last representable date, which make a call throw, are not modelled, and a call reads the clock once.
- MpegRecogniser.HasVobSubPackEvidence: bytes are numbers, so a bit mask is a division.
- Release handles of the semaphore and job promises are identified by call and job numbers; a group is a value under its key. That no handle outlives its group is a consequence of the invariant, not of object identity.
- Retry and polling loops of the drivers are steps of state machines, because other processes act between their awaits; delays, backoff and jitter are not modelled.
- The provider repository, the OAuth repository, the dispatch store and the history repository are modelled by the atomic interface their callers use; SQL, Redis and encryption are not.
- Fingerprint computation, field validation, size limits of whole contexts, and the shape of JSON values.
- The legacy provider strategy without fences, and the profile lifecycle that erases a profile and its floor.
- The circuit breaker of the gateway, response normalisation and aggregation limits.
- Pairing, subtitle delivery, archive extraction, HTTP routing, cookies and pages.
