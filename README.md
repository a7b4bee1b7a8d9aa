# Svelte-oRPC client layer, modelled in Dafny

This project models the client-side layer of Svelte-oRPC, which sits on top of an oRPC transport. It covers the following parts.

- **Request-dedupe plugin** (`Dedupe`). A client interceptor either passes a request straight on or parks it in a per-group queue. An equivalent parked request is one whose `{body, headers, method, url}` serialises the same way; a new request joins it. A deferred flush then starts one upstream call per parked entry. Every waiter receives its own replica of the streamed body, or every waiter is rejected with the same error.
- **Generic dedupe wrapper** (`DedupeWrapper`). The calls made before a deferred flush form one batch. The flush calls the wrapped function once, with the first caller's arguments, and settles every caller with that one outcome.
- **TTL query/mutation cache** (`QueryCache`). This covers `CacheManager` and `CacheState`.
  - Entries carry a cache window and a stale window; a window may be `Infinity`.
  - Keys pinned by mounted queries are served even after they expire.
  - Reads schedule a deferred eviction instead of deleting.
  - A periodic sweep evicts expired entries.
- **Older TTL cache** (`GlobalState`). Here reads delete expired entries on the spot, and there is no pinning.
- **`useQuery` hook** (`QueryHooks`). It covers the cache key, `isLoading`, `shouldFetch`, the `isExecuting` guard, the retry rule, `refetch`, the value setter, and the pin that mount adds and unmount removes.
- **`LazyPromise`** (`Lazy`). A factory is called on the first subscription and memoised. `run()` always calls it again.
- **Live states**:
  - `LiveCache`: the keyed slot map `liveCacheState`.
  - `LiveRule`: the "array replaces, single item appends" rule.
  - `LiveKeyed` and `LiveLocal`: `live` and `liveArray` over shared slots and over local state.
  - `SharedLive`: the reference-counted shared iterator `createLiveQuery`.

Time is an explicit `now: nat`, and `Infinity` is the `Forever` lifetime. Each piece of deferred work is a step method the caller invokes:

- `RunDeferred` and `Flush` for `defer`;
- `RunPendingEviction` for the zero-delay eviction timer;
- `Sweep` and `Tick` for the interval timers;
- `RunRetry` for a retry timer.

Awaited steps are split into a start and a settlement, for example `BeginAttempt` and `FinishAttempt`, or `Receive` and `EndIteration`. A JavaScript `Map` is an `OrderedMap`: a key sequence in insertion order plus a map.

Where the code behaves differently from what its names and comments suggest, the model follows the code:

- The dedupe plugin always hands out the body as a replicated iterator. It has no path that passes a single response through untouched.
- The active-query registry is a plain set, not a reference count.
- The cache sweep stops at the first entry it keeps (see Findings).

## Model

| member | source | states |
|---|---|---|
| Ttl.ElapsedIsMonotone | src/lib/client/query/cache.svelte.ts:40-48 | a window that has elapsed stays elapsed as time moves on, and an entry written at `now` is never past its window |
| OrderedMaps.Put | src/lib/client/query/cache.svelte.ts:110-115 | `Map.set`: the value is stored; an existing key keeps its position and a new key goes last; the order stays duplicate-free and lists exactly the keys |
| OrderedMaps.Remove | src/lib/client/query/cache.svelte.ts:132 | `Map.delete`: exactly that key goes and the keys before and after it keep their order; the result stays a valid ordered map; deleting an absent key changes nothing |
| OrderedMaps.WithoutConcat | src/lib/client/query/cache.svelte.ts:132 | leaving a key out of a concatenation leaves it out of each part, so the remaining keys keep their relative order |
| OrderedMaps.WithoutAt | src/lib/client/query/cache.svelte.ts:132 | deleting a key that occurs only at position i leaves exactly the keys before i followed by the keys after i |
| Dedupe.FirstMatch | src/lib/client/dedupe.ts:75 | `groups.find`: the index found is the first group whose condition holds; none exactly when no condition holds |
| Dedupe.FindEquivalent | src/lib/client/dedupe.ts:100-116 | the index found is the first entry whose serialised shape equals the request's, as `find` returns; none exactly when no entry's does |
| Dedupe.Enqueued | src/lib/client/dedupe.ts:94-130 | `#enqueue` creates the group's list when it is absent; no other group's list changes |
| Dedupe.EnqueueJoinsMatch | src/lib/client/dedupe.ts:118-122 | on a match, that entry's signals, resolves and rejects each grow by this caller at the end, its request is kept, and every other entry of the group is unchanged |
| Dedupe.EnqueueAppendsFresh | src/lib/client/dedupe.ts:94-130 | with no match, an entry with singleton lists is appended to the group's list, and a new group goes last in the queue order |
| Dedupe.EnqueuePreservesQueueOk | src/lib/client/dedupe.ts:100-130 | enqueueing keeps every entry's three lists equally long and non-empty, and keeps any two entries of a group non-equivalent |
| Dedupe.AppendKeepsGroupOk | src/lib/client/dedupe.ts:123-129 | appending a request that no pending entry is equivalent to keeps a group's list free of equivalent pairs |
| Dedupe.EquivalentRequestsShareOneEntry | src/lib/client/dedupe.ts:100-130 | requests that all serialise alike, enqueued into an empty group, end as one entry holding every caller's signal and waiter in arrival order |
| Dedupe.DifferentShapesStaySeparate | src/lib/client/dedupe.ts:100-116 | with a serialisation that tells shapes apart, two requests of different shape give two entries; the signal alone never distinguishes them |
| Dedupe.SpineFacts | src/lib/client/dedupe.ts:228-233 | the stream reached after `k` tees of the second branch sits `k` levels deep and yields the source sequence |
| Dedupe.TeeBranches | src/lib/client/dedupe.ts:224-233 | the tee loop keeps exactly `count` branches: the first branch of each successive tee, then the last second branch |
| Dedupe.BranchesAreReplicas | src/lib/client/dedupe.ts:224-233 | those branches are pairwise distinct and each yields the whole source sequence |
| Dedupe.ReplicateIteratorAsBody | src/lib/client/dedupe.ts:201-245 | no handles for `count <= 0`, else exactly `count` pairwise distinct handles, each yielding the whole source sequence (so the mismatch throw at lines 173-175 cannot fire) |
| Dedupe.Execute | src/lib/client/dedupe.ts:148-186 | on success waiter `i`, in arrival order, is resolved with its own replica `i` of the body, with no two replicas shared; on failure every reject is called, in order, with the same error |
| Dedupe.DedupeRequestsPlugin.constructor | src/lib/client/dedupe.ts:56-59 | the filter is the caller's filter, or "method is GET" when none is given; the queue starts empty |
| Dedupe.DedupeRequestsPlugin.RouteOf | src/lib/client/dedupe.ts:64-79 | bypass exactly when the body is a Blob, FormData, URLSearchParams or async iterator, the filter rejects, or no group condition holds; otherwise the first group whose condition holds |
| Dedupe.DedupeRequestsPlugin.Intercept | src/lib/client/dedupe.ts:64-85 | a bypassed request goes to `next()` and nothing is queued; a coalesced one is enqueued in its group and schedules one deferred dequeue; the queue invariant is kept |
| Dedupe.DedupeRequestsPlugin.Enqueue | src/lib/client/dedupe.ts:88-131 | the queue after the call is `Enqueued` of the queue before it, and the queue invariant is kept |
| Dedupe.DedupeRequestsPlugin.Start | src/lib/client/dedupe.ts:155-166 | the upstream call carries the entry's request with the batch signal of all its callers and the group's context, and settles the entry's waiters |
| Dedupe.DedupeRequestsPlugin.StartGroup | src/lib/client/dedupe.ts:137-141 | one call per entry of the group, in list order |
| Dedupe.DedupeRequestsPlugin.StartEntries | src/lib/client/dedupe.ts:137-141 | the inner loop of `#dequeue` starts `StartGroup` of the group's entries |
| Dedupe.DedupeRequestsPlugin.StartAll | src/lib/client/dedupe.ts:136-142 | exactly one call per pending entry across all groups, in queue order |
| Dedupe.DedupeRequestsPlugin.Dequeue | src/lib/client/dedupe.ts:133-146 | `#dequeue` starts `StartAll` of the queue, one `#execute` per pending entry, and leaves the queue empty |
| Dedupe.DedupeRequestsPlugin.RunDeferred | src/lib/client/dedupe.ts:83 | a deferred callback dequeues; since the queue is then empty, a later callback starts nothing |
| DedupeWrapper.SettleBatch | src/lib/client/dedupe-wrapper.ts:39-55 | one callback per caller in queue order: every caller is resolved with the one value, or every caller is rejected with the one error (whether it was thrown or a rejection) |
| DedupeWrapper.Deduper.constructor | src/lib/client/dedupe-wrapper.ts:22-23 | empty queue, no flush scheduled |
| DedupeWrapper.Deduper.Call | src/lib/client/dedupe-wrapper.ts:25-31 | each call appends exactly one item; only the call that finds no flush pending schedules one; a flush is pending exactly when the queue is non-empty |
| DedupeWrapper.Deduper.Flush | src/lib/client/dedupe-wrapper.ts:31-56 | the flush takes the whole queue and resets the queue and the flag; it calls `fn` exactly once with the first caller's arguments and settles every caller of the batch with that one outcome |
| DedupeWrapper.BatchSharesOneOutcome | src/lib/client/dedupe-wrapper.ts:39-55 | any two callers of one batch get the same kind of settlement with the identical value or error |
| QueryCache.ExpiryAndStaleness | src/lib/client/query/cache.svelte.ts:40-48 | expired iff the cache window is finite and `now - lastUpdated` exceeds it; stale likewise with the stale window; nothing is expired or stale at its write time |
| QueryCache.Read | src/lib/client/query/cache.svelte.ts:77-95 | `get` returns nothing exactly for a missing key, or for an expired key that is not pinned; otherwise it returns the stored value, even when that value is expired but pinned |
| QueryCache.StaleRead | src/lib/client/query/cache.svelte.ts:98-106 | `isStale` is true exactly for a missing, expired or stale entry |
| QueryCache.LastUpdatedRead | src/lib/client/query/cache.svelte.ts:118-128 | `getLastUpdated` returns a time exactly when `get` returns a value, and that time is the write time |
| QueryCache.StopIndex | src/lib/client/query/cache.svelte.ts:57-61 | the sweep as written visits only evictable entries before the index found; the entry at that index is kept |
| QueryCache.DropFirst | src/lib/client/query/cache.svelte.ts:57-64 | deleting the first `n` keys in order leaves a valid map with exactly the other keys, in their order |
| QueryCache.SweepKeepsProtected | src/lib/client/query/cache.svelte.ts:58-61 | the sweep as written never deletes a pinned key, an `Infinity` entry or an unexpired entry |
| QueryCache.SweepStopsAtFirstKept | src/lib/client/query/cache.svelte.ts:59-61 | the sweep as written keeps every entry from the first one it keeps onwards |
| QueryCache.EarlyReturnKeepsExpiredEntry | src/lib/client/query/cache.svelte.ts:59-61 | with a pinned entry first and an expired, unpinned entry second, the sweep as written keeps the expired entry |
| QueryCache.SweptIntended | src/lib/client/query/cache.svelte.ts:56-65 | the corrected sweep keeps a key exactly when it is pinned, `Infinity` or unexpired, and keeps those entries unchanged |
| QueryCache.CacheManager.constructor | src/lib/client/query/cache.svelte.ts:30-34 | both caches empty, nothing pinned, sweep timer started |
| QueryCache.CacheManager.AddActiveQuery | src/lib/client/query/cache.svelte.ts:69-71 | the key joins the pinned set |
| QueryCache.CacheManager.RemoveActiveQuery | src/lib/client/query/cache.svelte.ts:73-75 | one removal unpins the key, however many additions came before |
| QueryCache.CacheManager.Get | src/lib/client/query/cache.svelte.ts:77-95 | returns `Read` of the chosen cache; deletes nothing; schedules one eviction exactly when it hides an expired, unpinned entry |
| QueryCache.CacheManager.RunPendingEviction | src/lib/client/query/cache.svelte.ts:85-90 | the oldest eviction deletes the key only if an entry is still there and still expired when it runs; the other cache is unchanged |
| QueryCache.CacheManager.IsStale | src/lib/client/query/cache.svelte.ts:98-106 | true exactly for a missing, expired or stale entry of the chosen cache |
| QueryCache.CacheManager.Set | src/lib/client/query/cache.svelte.ts:108-116 | upsert with `lastUpdated = now` and a stale window of 0 by default; the other cache is unchanged |
| QueryCache.CacheManager.GetLastUpdated | src/lib/client/query/cache.svelte.ts:118-128 | the write time, hidden exactly when `get` hides the value |
| QueryCache.CacheManager.Invalidate | src/lib/client/query/cache.svelte.ts:130-133 | the key is removed, pinned or not; the other cache is unchanged |
| QueryCache.CacheManager.SweepCacheAsWritten | src/lib/client/query/cache.svelte.ts:57-64 | the loop as written deletes the entries before the first kept one and no others |
| QueryCache.CacheManager.SweepCache | src/lib/client/query/cache.svelte.ts:57-64 | the corrected loop leaves exactly the entries `SweptIntended` keeps |
| QueryCache.CacheManager.SweepAsWritten | src/lib/client/query/cache.svelte.ts:53-66 | the timer callback as written sweeps each of the two caches up to its first kept entry |
| QueryCache.CacheManager.Sweep | src/lib/client/query/cache.svelte.ts:53-66 | the corrected timer callback: both caches keep exactly their pinned, `Infinity` and unexpired entries |
| QueryCache.CacheManager.Destroy | src/lib/client/query/cache.svelte.ts:135-140 | the sweep timer is stopped |
| QueryCache.ReadAfterWrite | src/lib/client/query/cache.svelte.ts:108-116 | a value just written reads back at once and is not stale |
| QueryCache.PinnedKeyIsServed | src/lib/client/query/cache.svelte.ts:84 | a pinned key is always served and never scheduled for eviction by a read |
| QueryCache.StalenessTimeline | src/lib/client/query/cache.svelte.ts:40-48 | an entry with windows of 100 ms and 1000 ms is fresh when written, stale but served after 150 ms, and missing after 1001 ms unless pinned |
| QueryCache.CacheState.constructor | src/lib/client/query/cache.svelte.ts:184-213 | defaults of 5 minutes and 1 second; `initialValue` is written only when given and `get` reports nothing, and otherwise the cache is unchanged |
| QueryCache.CacheState.Value | src/lib/client/query/cache.svelte.ts:216-218 | the getter is `get` on this state's key |
| QueryCache.CacheState.SetValue | src/lib/client/query/cache.svelte.ts:220-222 | the setter writes with this state's windows, and the value reads back at once |
| QueryCache.CacheState.LastUpdated | src/lib/client/query/cache.svelte.ts:224-226 | `getLastUpdated` on this state's key |
| QueryCache.CacheState.IsStale | src/lib/client/query/cache.svelte.ts:228-230 | `isStale` on this state's key |
| QueryCache.CacheState.Invalidate | src/lib/client/query/cache.svelte.ts:232-234 | removes the key from its cache, pinned or not; the other cache is unchanged |
| GlobalState.EntryRead | src/lib/client/query/globalState.svelte.ts:38-49 | a value is returned exactly for a present, unexpired entry, and it is that entry's value |
| GlobalState.LastUpdatedRead | src/lib/client/query/globalState.svelte.ts:59-70 | a time is returned exactly when `getCacheEntry` would return a value, and it is the write time |
| GlobalState.AfterRead | src/lib/client/query/globalState.svelte.ts:43-46 | a read leaves the map alone for a missing or unexpired key, and otherwise deletes just that key |
| GlobalState.TimedCacheMap.constructor | src/lib/client/query/globalState.svelte.ts:77-78 | a new map is empty |
| GlobalState.TimedCacheMap.GetCacheEntry | src/lib/client/query/globalState.svelte.ts:38-49 | returns `EntryRead` and leaves `AfterRead`: a missing key changes nothing, an expired key is deleted and reads as missing, an unexpired key is returned unchanged |
| GlobalState.TimedCacheMap.SetCacheEntry | src/lib/client/query/globalState.svelte.ts:51-57 | upsert with `lastUpdated = now`; the value is readable at once |
| GlobalState.TimedCacheMap.GetCacheLastUpdated | src/lib/client/query/globalState.svelte.ts:59-70 | the same deletion as `getCacheEntry`, otherwise the write time |
| GlobalState.TimedCacheMap.Sweep | src/lib/client/query/globalState.svelte.ts:29-33 | exactly the expired finite entries are removed, and every other entry stays unchanged |
| GlobalState.ReadAfterWrite | src/lib/client/query/globalState.svelte.ts:51-70 | a value just written is read back with its write time, and the read deletes nothing |
| GlobalState.ForeverEntryIsKept | src/lib/client/query/globalState.svelte.ts:43 | an `Infinity` entry is served and kept by every read |
| GlobalState.GlobalStateModule.constructor | src/lib/client/query/globalState.svelte.ts:15-18 | before the first call there are no caches and no timer |
| GlobalState.GlobalStateModule.GetQueryGlobalState | src/lib/client/query/globalState.svelte.ts:72-89 | outside the browser no caches are returned; the first browser call creates two fresh empty maps and starts the timer; later calls return the same two maps |
| GlobalState.GlobalStateModule.Tick | src/lib/client/query/globalState.svelte.ts:24-35 | each timer tick removes exactly the expired finite entries of both caches |
| Lazy.Replay | src/lib/client/query/lazyPromise.ts:27-38 | after any sequence of operations there is a memoised promise exactly when the factory has been called, and it is the latest call's |
| Lazy.FactoryCallCount | src/lib/client/query/lazyPromise.ts:27-38 | factory calls = number of `run()` calls, plus one when a subscription came before every `run()` |
| Lazy.SubscriptionsSeeLatestRun | src/lib/client/query/lazyPromise.ts:35-56 | after a `run()` the memo is that run's promise, and any number of later subscriptions neither call the factory nor change the memo |
| Lazy.LazyPromise.constructor | src/lib/client/query/lazyPromise.ts:7-25 | `key` is the argument; no factory call and no memo |
| Lazy.LazyPromise.Promise | src/lib/client/query/lazyPromise.ts:27-32 | the getter calls the factory only when nothing is memoised, and otherwise returns the memo |
| Lazy.LazyPromise.Run | src/lib/client/query/lazyPromise.ts:35-38 | always one new factory call, which becomes the memo |
| Lazy.LazyPromise.Subscribe | src/lib/client/query/lazyPromise.ts:41-56 | `then`, `catch` and `finally` attach to the memoised promise, creating it with one factory call only on first use |
| QueryHooks.KeyOf | src/lib/client/query/hooks.svelte.ts:38 | the cache key is `overrideKey` when given, else `query.key` |
| QueryHooks.RetryAfter | src/lib/client/query/hooks.svelte.ts:58-65 | a failure schedules attempt `retryCount + 1` exactly when `retryCount < retry`; otherwise the error is kept |
| QueryHooks.FailingRunShape | src/lib/client/query/hooks.svelte.ts:58-65 | a query that always fails runs attempts `retryCount, retryCount + 1, …` up to `retry`, and only the last attempt keeps its error |
| QueryHooks.FailingQueryAttempts | src/lib/client/query/hooks.svelte.ts:49-65 | from the first attempt, a failing query is attempted `retry + 1` times (once when `retry <= 0`), and the error is kept on the attempt with `retryCount == retry` |
| QueryHooks.QueryHook.constructor | src/lib/client/query/hooks.svelte.ts:38-45 | key choice, `retry` defaulting to 0 and `retryDelay` to 1000, no error, not executing; the query cache gets `initialValue` only when given and `get` reports nothing, that `get` schedules its eviction as any read does, and the mutation cache is unchanged |
| QueryHooks.QueryHook.IsLoading | src/lib/client/query/hooks.svelte.ts:47 | loading exactly when the cached value is missing and there is no error |
| QueryHooks.QueryHook.ShouldFetch | src/lib/client/query/hooks.svelte.ts:71-80 | true exactly when the cached value is missing or the cache reports stale |
| QueryHooks.QueryHook.BeginAttempt | src/lib/client/query/hooks.svelte.ts:49-52 | sets `isExecuting` and calls `query.run()` once |
| QueryHooks.QueryHook.FinishAttempt | src/lib/client/query/hooks.svelte.ts:52-68 | success caches the result and clears the error; failure schedules the next attempt while `retryCount < retry` and otherwise keeps the error; `isExecuting` is false either way |
| QueryHooks.QueryHook.RunRetry | src/lib/client/query/hooks.svelte.ts:59-61 | the oldest retry timer starts the attempt it was scheduled for |
| QueryHooks.QueryHook.TryQuery | src/lib/client/query/hooks.svelte.ts:82-86 | an attempt starts exactly when a fetch is needed and none is executing, with one factory call; otherwise the guard, the attempts and the factory calls are unchanged; the read inside `shouldFetch` schedules an eviction exactly when it hides an expired, unpinned entry |
| QueryHooks.QueryHook.Refetch | src/lib/client/query/hooks.svelte.ts:88-91 | clears the error and starts an attempt unconditionally |
| QueryHooks.QueryHook.SetValue | src/lib/client/query/hooks.svelte.ts:111-114 | writes through to the cache and clears the error |
| QueryHooks.QueryHook.Mount | src/lib/client/query/hooks.svelte.ts:93-98 | pins the key, then behaves as `tryQuery`: once pinned, an attempt starts exactly when nothing is cached or the entry is stale and none is executing, and no eviction is scheduled |
| QueryHooks.QueryHook.Unmount | src/lib/client/query/hooks.svelte.ts:99-101 | unpins the key |
| LiveCache.SlotKey | src/lib/client/cache.ts:30 | a non-empty key gives the slot `prefix_key`; no key or an empty key gives the next fresh symbol |
| LiveCache.EqualKeysShareASlot | src/lib/client/cache.ts:30 | equal prefixes and equal non-empty keys name one slot |
| LiveCache.LiveAndLiveArrayNeverCollide | src/lib/client/live/live.svelte.ts:5-38 | a `live` slot and a `liveArray` slot are never the same |
| LiveCache.LiveCacheStore.constructor | src/lib/client/cache.ts:3 | the page-wide map starts empty |
| LiveCache.LiveCacheStore.NewState | src/lib/client/cache.ts:30-34 | derives the slot key, mints a symbol only when needed, and seeds `initialValue` only into an absent slot; a fresh symbol is always absent |
| LiveCache.LiveCacheStore.Current | src/lib/client/cache.ts:37-39 | the getter returns the slot's value, or nothing when the slot is absent |
| LiveCache.LiveCacheStore.SetCurrent | src/lib/client/cache.ts:40-46 | `undefined` deletes the slot and a later read yields nothing; a value overwrites it and reads back; no other slot changes |
| LiveRule.ApplyItem | src/lib/client/live/live.svelte.ts:43-47 | an array item replaces the array; a single item is appended, keeping the old array as a prefix and growing the length by one |
| LiveRule.FoldIsLastArrayThenAppends | src/lib/client/live/live.svelte.ts:42-49 | after a run of items the array is the last array item (or the starting array when there is none) followed by every later single item |
| LiveRule.AppendsPreservePrefix | src/lib/client/live.svelte.ts:35-36 | with only single items, the starting array stays a prefix and the length grows by the number of items |
| LiveKeyed.ArrayRun | src/lib/client/live/live.svelte.ts:40-53 | the slot ends absent only if it started absent, and the loop can stop early only when there is an item to consume |
| LiveKeyed.ArrayRunFolds | src/lib/client/live/live.svelte.ts:42-47 | from an array slot the loop never stops early and ends with the fold of the items |
| LiveKeyed.Live.constructor | src/lib/client/live/live.svelte.ts:5 | a `live` state uses the `LIVE` slot for its key and seeds nothing |
| LiveKeyed.Live.Current | src/lib/client/live/live.svelte.ts:27-29 | the getter reads this state's slot |
| LiveKeyed.Live.Mount | src/lib/client/live/live.svelte.ts:22-25 | mounting starts the iteration |
| LiveKeyed.Live.Receive | src/lib/client/live/live.svelte.ts:9-11 | one item consumed becomes the slot's value, and an `undefined` item deletes the slot |
| LiveKeyed.Live.Consume | src/lib/client/live/live.svelte.ts:7-15 | after items x1…xn the slot holds xn, or is deleted when xn is `undefined`; no other slot changes |
| LiveKeyed.Live.EndIteration | src/lib/client/live/live.svelte.ts:12-14 | the end of the iterator, or an error it throws, ends the loop and changes no slot |
| LiveKeyed.Live.Unmount | src/lib/client/live/live.svelte.ts:17-19 | unmount calls the iterator's `return()` once when it has one, and not at all otherwise |
| LiveKeyed.Live.SetCurrent | src/lib/client/live/live.svelte.ts:30-32 | the setter writes the slot, and `undefined` deletes it |
| LiveKeyed.LiveArray.constructor | src/lib/client/live/live.svelte.ts:38 | a `liveArray` state uses the `LIVE-ARRAY` slot, seeded with `[]` only when absent |
| LiveKeyed.LiveArray.Current | src/lib/client/live/live.svelte.ts:66-68 | the getter reads this state's slot |
| LiveKeyed.LiveArray.Mount | src/lib/client/live/live.svelte.ts:60-63 | mounting starts the iteration |
| LiveKeyed.LiveArray.Receive | src/lib/client/live/live.svelte.ts:43-47 | an array item replaces the slot; a single item is appended; a spread over a non-array ends the loop |
| LiveKeyed.LiveArray.Consume | src/lib/client/live/live.svelte.ts:40-53 | the slot and whether the loop is still running follow `ArrayRun` of the items, so from an array slot the slot ends as their fold |
| LiveKeyed.LiveArray.EndIteration | src/lib/client/live/live.svelte.ts:50-52 | an error ends the loop and changes no slot |
| LiveKeyed.LiveArray.Unmount | src/lib/client/live/live.svelte.ts:55-57 | unmount calls the iterator's `return()` once when it has one, and not at all otherwise |
| LiveKeyed.LiveArray.SetCurrent | src/lib/client/live/live.svelte.ts:69-71 | the setter overwrites the slot's array |
| LiveLocal.LocalLive.constructor | src/lib/client/live.svelte.ts:2-5 | no value; the background loop runs |
| LiveLocal.LocalLive.Receive | src/lib/client/live.svelte.ts:7-8 | the item consumed becomes the value; an `undefined` item resets it |
| LiveLocal.LocalLive.Consume | src/lib/client/live.svelte.ts:5-14 | after items x1…xn the value is xn, `undefined` included |
| LiveLocal.LocalLive.EndIteration | src/lib/client/live.svelte.ts:11-13 | an error stops the loop without changing the value |
| LiveLocal.LocalLive.SetCurrent | src/lib/client/live.svelte.ts:20-22 | the setter overwrites the value |
| LiveLocal.LocalLiveArray.constructor | src/lib/client/live.svelte.ts:27 | the array starts as `[]` |
| LiveLocal.LocalLiveArray.Receive | src/lib/client/live.svelte.ts:33-37 | one item applied with the replace-or-append rule |
| LiveLocal.LocalLiveArray.Consume | src/lib/client/live.svelte.ts:30-43 | the value after the loop is the fold of the items over the value before it |
| LiveLocal.LocalLiveArray.EndIteration | src/lib/client/live.svelte.ts:40-42 | an error stops the loop without changing the value |
| LiveLocal.LocalLiveArray.SetCurrent | src/lib/client/live.svelte.ts:49-51 | the setter overwrites the value |
| SharedLive.StartsAndStopsAlternate | src/lib/client/test.svelte.ts:66-80 | while mounts and unmounts balance, `start` and `stop` calls alternate, beginning with `start`, and the last call was `start` exactly when someone is mounted |
| SharedLive.SharedLiveQuery.constructor | src/lib/client/test.svelte.ts:22-25 | no value, a count of zero, no iterator, not iterating |
| SharedLive.SharedLiveQuery.Start | src/lib/client/test.svelte.ts:27-31 | does nothing while iterating; otherwise sets `isIterating` |
| SharedLive.SharedLiveQuery.IteratorReady | src/lib/client/test.svelte.ts:33 | the iterator is held, and it is held only while iterating |
| SharedLive.SharedLiveQuery.Yield | src/lib/client/test.svelte.ts:34-36 | the value tracks the latest item |
| SharedLive.SharedLiveQuery.Finish | src/lib/client/test.svelte.ts:45-49 | however the loop ended, `isIterating` is false and no iterator is held |
| SharedLive.SharedLiveQuery.Stop | src/lib/client/test.svelte.ts:52-56 | calls `return()` only when an iterator is held and it has a `return` method |
| SharedLive.SharedLiveQuery.Mount | src/lib/client/test.svelte.ts:66-72 | the count is mounts minus unmounts; `start` is called exactly on the 0 to 1 transition |
| SharedLive.SharedLiveQuery.Unmount | src/lib/client/test.svelte.ts:73-79 | the count is mounts minus unmounts; `stop` is called exactly on the 1 to 0 transition |
| SharedLive.SharedLiveQuery.SetCurrent | src/lib/client/test.svelte.ts:88-90 | the setter overwrites the value |

## Left out

- Serialisation, the batch abort signal and stream tee are abstract: `stringifyJSON` is a function parameter of the plugin, `toBatchAbortSignal` is the symbolic `Batch(signals)`, and a tee branch is a datatype node that yields its parent's sequence.
- `iteratorToStream` pulls eagerly in the model; its laziness and back-pressure are not modelled.
- Promise resolution order, microtasks and the timing of `setTimeout`/`setInterval` are not modelled. Deferred work happens when its step method is called, and `retryDelay` is recorded but does not order anything.
- Upstream responses, the factory's results and iterator items are inputs to the step methods. Network I/O and `Date.now()` are not modelled.
- Errors are not normalised: the `instanceof Error` / `new Error(String(err))` wrapping in `executeQuery` is not modelled.
- The SSR branches (`browser == false`) of `getCacheManager` and `CacheState` are not modelled; the model is the browser path. Only `getQueryGlobalState` takes `browser` as a parameter.
- `console.log`/`console.error` output, and the `AbortError` filter on logging in `createLiveQuery`, are not modelled.
- Svelte reactivity (`SvelteMap`, `SvelteSet`, `$state`, `$derived`, `onMount`) becomes plain fields and explicit mount/unmount methods.
- A stored `undefined` value is not distinguished from a missing entry in the query and mutation caches.
- `Dedupe.DedupeRequestsPlugin.RouteOf`: group conditions and the filter see only the request, not the whole interceptor options (`context`, `path`, `input`), so a group chosen by context is not expressible; the upstream call likewise carries the first caller's request with the group's context, not the caller's other options.
- `src/service-worker.ts`, the server routes, the oRPC wiring and the `Proxy` wrappers (`pathtracker.ts`, `queryWrapper.ts`, `test.ts`) are not part of this model.
- `LiveKeyed.Live.Current`: returns the raw slot content; the unchecked `as T` cast is not modelled.
- `LiveKeyed.LiveArray.Receive`: a single item meeting a missing or non-array slot is treated as a throw that ends the loop. This cannot happen through `liveArray` itself, which seeds `[]` and only writes arrays.
- `LiveCache.LiveAndLiveArrayNeverCollide`: when both keys are empty, the claim is stated for two distinct symbol counters, because two symbols are never equal.
- `GlobalState.TimedCacheMap.Sweep`: states which keys remain and their values, but not the order of the remaining keys.
- `QueryCache.CacheManager.Sweep`: states the keys and values left by the corrected sweep, but not their order.
- `DedupeWrapper.Deduper.Flush`: `fn` is not called; its outcome is a parameter, and a synchronous throw and a rejection are settled the same way.

## Findings

| source | as written | input that shows it | evidently intended | confidence | as-written member | corrected member |
|---|---|---|---|---|---|---|
| src/lib/client/query/cache.svelte.ts:59-61 | `return` inside the `forEach` callback ends the scan of that cache at the first entry that is pinned, `Infinity` or unexpired | a query cache whose first key is pinned and whose second key is unpinned and expired: the sweep deletes nothing, and the expired entry stays until a read of it schedules its eviction | skip the entry and go on (`continue`), so that every expired, unpinned, finite entry is evicted, as the comment at line 58 says | not executed | QueryCache.EarlyReturnKeepsExpiredEntry | QueryCache.SweptIntended |
