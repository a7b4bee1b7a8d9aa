/**
 * `useQuery`: a query bound to one key of the query cache, with an error
 * state, an `isExecuting` guard and a retry counter. The awaited factory call
 * is split into two steps: an attempt starts (`BeginAttempt`) and later
 * settles (`FinishAttempt`); a retry timer that fires is `RunRetry`.
 */
module QueryHooks {
  import opened Options
  import opened StateKeys
  import opened OrderedMaps
  import opened Ttl
  import opened QueryCache
  import opened Lazy

  /** The cache key: `overrideKey` when given, else the lazy promise's own key. */
  function KeyOf(overrideKey: Option<StateKey>, queryKey: string): (k: StateKey)
    ensures overrideKey.Some? ==> k == overrideKey.value
    ensures overrideKey.None? ==> k == Name(queryKey)
  {
    if overrideKey.Some? then overrideKey.value else Name(queryKey)
  }

  /** `isLoading`: nothing cached and no error. */
  predicate Loading<V, E>(value: Option<V>, error: Option<E>)
  {
    value.None? && error.None?
  }

  /** `shouldFetch`: nothing cached, or what is cached is stale. */
  function FetchNeeded<V>(value: Option<V>, stale: bool): (b: bool)
    ensures b <==> value.None? || stale
    ensures value.Some? && !stale ==> !b
  {
    if value.None? then true
    else if stale then true
    else false
  }

  /** After attempt `retryCount` fails: the next attempt's count, or none when the error is to be kept. */
  function RetryAfter(retry: int, retryCount: nat): (next: Option<nat>)
    ensures next.Some? <==> retryCount < retry
    ensures next.Some? ==> next.value == retryCount + 1
  {
    if retryCount < retry then Some(retryCount + 1) else None
  }

  /** The retry counts of the attempts a query makes from `retryCount` on when every attempt fails. */
  function FailingRun(retry: int, retryCount: nat): (counts: seq<nat>)
    ensures |counts| >= 1 && counts[0] == retryCount
    decreases retry - retryCount
  {
    match RetryAfter(retry, retryCount)
    case None => [retryCount]
    case Some(next) => [retryCount] + FailingRun(retry, next)
  }

  /**
   * A query that fails every time is attempted `retry + 1` times (once when
   * `retry <= 0`), with counts 0, 1, 2, ... in order, and only the last attempt
   * keeps its error.
   */
  lemma {:induction false} FailingRunShape(retry: int, retryCount: nat)
    ensures var counts := FailingRun(retry, retryCount);
      && |counts| == (if retryCount < retry then retry - retryCount + 1 else 1)
      && (forall i | 0 <= i < |counts| :: counts[i] == retryCount + i)
      && (forall i | 0 <= i < |counts| :: RetryAfter(retry, counts[i]).None? <==> i == |counts| - 1)
    decreases retry - retryCount
  {
    if retryCount < retry {
      FailingRunShape(retry, retryCount + 1);
      var counts := FailingRun(retry, retryCount);
      assert counts == [retryCount] + FailingRun(retry, retryCount + 1);
    }
  }

  lemma FailingQueryAttempts(retry: int)
    ensures |FailingRun(retry, 0)| == (if retry > 0 then retry + 1 else 1)
    ensures retry >= 0 ==> FailingRun(retry, 0)[|FailingRun(retry, 0)| - 1] == retry
  {
    FailingRunShape(retry, 0);
  }

  datatype QueryOptions<V> = QueryOptions(cache: CacheOptions<V>, overrideKey: Option<StateKey>, retry: Option<int>, retryDelay: Option<nat>)

  /** How one attempt settles. */
  datatype Outcome<V, E> = Succeeded(value: V) | Failed(error: E)

  class QueryHook<V, E> {
    const query: LazyPromise
    const manager: CacheManager<V>
    const cache: CacheState<V>
    const key: StateKey
    const retry: int
    const retryDelay: nat
    var error: Option<E>
    var isExecuting: bool
    /** The retry counts of the attempts whose factory promise has not settled. */
    var inFlight: seq<nat>
    /** The retry counts of the retry timers that have not fired. */
    var pendingRetries: seq<nat>

    ghost predicate Valid()
      reads this, manager, query
    {
      && manager.Valid() && query.Valid()
      && cache.manager == manager && cache.kind == Query && cache.key == key
    }

    /** `useQuery(query, options)`: key and defaults, then the cache state for that key. */
    constructor(query: LazyPromise, manager: CacheManager<V>, options: QueryOptions<V>, now: nat)
      requires manager.Valid() && query.Valid()
      modifies manager`queryCache, manager`mutationCache, manager`pendingEvictions
      ensures Valid()
      ensures this.query == query && this.manager == manager
      ensures key == KeyOf(options.overrideKey, query.key)
      ensures retry == (if options.retry.Some? then options.retry.value else 0)
      ensures retryDelay == (if options.retryDelay.Some? then options.retryDelay.value else 1000)
      ensures error == None && !isExecuting && inFlight == [] && pendingRetries == []
      ensures cache.cacheTime == (if options.cache.cacheTime.Some? then options.cache.cacheTime.value else DefaultCacheTime)
      ensures cache.staleTime == (if options.cache.staleTime.Some? then options.cache.staleTime.value else DefaultStaleTime)
      ensures var seed := options.cache.initialValue.Some? && Read(old(manager.queryCache), manager.activeQueries, key, now).None?;
        && manager.queryCache == (if seed then Put(old(manager.queryCache), key, CacheEntry(options.cache.initialValue.value, now, cache.cacheTime, cache.staleTime))
                                  else old(manager.queryCache))
        && manager.pendingEvictions == old(manager.pendingEvictions) +
             if options.cache.initialValue.Some? && SchedulesEviction(old(manager.queryCache), manager.activeQueries, key, now) then [(Query, key)] else []
      ensures manager.mutationCache == old(manager.mutationCache)
    {
      this.query := query;
      this.manager := manager;
      var key := KeyOf(options.overrideKey, query.key);
      this.key := key;
      this.retry := if options.retry.Some? then options.retry.value else 0;
      this.retryDelay := if options.retryDelay.Some? then options.retryDelay.value else 1000;
      this.cache := new CacheState(manager, Query, key, options.cache, now);
      error := None;
      isExecuting := false;
      inFlight := [];
      pendingRetries := [];
    }

    /** `isLoading`: reading the cached value may schedule an eviction, as any `get` does. */
    method IsLoading(now: nat) returns (b: bool)
      requires Valid()
      modifies manager`pendingEvictions
      ensures Valid()
      ensures b <==> Read(manager.queryCache, manager.activeQueries, key, now).None? && error.None?
      ensures manager.pendingEvictions == old(manager.pendingEvictions) +
        if SchedulesEviction(manager.queryCache, manager.activeQueries, key, now) then [(Query, key)] else []
    {
      var value := cache.Value(now);
      b := Loading(value, error);
    }

    /** `shouldFetch()` */
    method ShouldFetch(now: nat) returns (b: bool)
      requires Valid()
      modifies manager`pendingEvictions
      ensures Valid()
      ensures b <==> Read(manager.queryCache, manager.activeQueries, key, now).None? || StaleRead(manager.queryCache, key, now)
      ensures manager.pendingEvictions == old(manager.pendingEvictions) +
        if SchedulesEviction(manager.queryCache, manager.activeQueries, key, now) then [(Query, key)] else []
    {
      var value := cache.Value(now);
      b := FetchNeeded(value, cache.IsStale(now));
    }

    /** The synchronous start of `executeQuery(retryCount)`: set the guard and call `query.run()`. */
    method BeginAttempt(retryCount: nat)
      requires Valid()
      modifies this`isExecuting, this`inFlight, query
      ensures Valid()
      ensures isExecuting && inFlight == old(inFlight) + [retryCount]
      ensures query.factoryCalls == old(query.factoryCalls) + 1
    {
      isExecuting := true;
      var _ := query.Run();
      inFlight := inFlight + [retryCount];
    }

    /**
     * Attempt `i` of those in flight settles: a result is cached and clears
     * the error; a failure schedules the next attempt while `retryCount < retry`
     * and is kept as the error otherwise; the guard is cleared either way.
     */
    method FinishAttempt(i: nat, outcome: Outcome<V, E>, now: nat)
      requires Valid() && i < |inFlight|
      modifies this`error, this`isExecuting, this`inFlight, this`pendingRetries, manager`queryCache, manager`mutationCache
      ensures Valid()
      ensures !isExecuting
      ensures inFlight == old(inFlight[..i] + inFlight[i + 1..])
      ensures outcome.Succeeded? ==>
        && manager.queryCache == Put(old(manager.queryCache), key, CacheEntry(outcome.value, now, cache.cacheTime, cache.staleTime))
        && error == None && pendingRetries == old(pendingRetries)
      ensures outcome.Failed? ==>
        && manager.queryCache == old(manager.queryCache)
        && var next := RetryAfter(retry, old(inFlight[i]));
           && pendingRetries == old(pendingRetries) + (if next.Some? then [next.value] else [])
           && error == (if next.Some? then old(error) else Some(outcome.error))
      ensures manager.mutationCache == old(manager.mutationCache)
    {
      var retryCount := inFlight[i];
      inFlight := inFlight[..i] + inFlight[i + 1..];
      match outcome {
        case Succeeded(value) =>
          cache.SetValue(value, now);
          error := None;
        case Failed(e) =>
          if retryCount < retry {
            pendingRetries := pendingRetries + [retryCount + 1];
          } else {
            error := Some(e);
          }
      }
      isExecuting := false;
    }

    /** The oldest retry timer fires and starts the next attempt. */
    method RunRetry()
      requires Valid() && pendingRetries != []
      modifies this`isExecuting, this`inFlight, this`pendingRetries, query
      ensures Valid()
      ensures pendingRetries == old(pendingRetries[1..])
      ensures isExecuting && inFlight == old(inFlight) + [old(pendingRetries[0])]
      ensures query.factoryCalls == old(query.factoryCalls) + 1
    {
      var retryCount := pendingRetries[0];
      pendingRetries := pendingRetries[1..];
      BeginAttempt(retryCount);
    }

    /** `tryQuery()`: start an attempt only when a fetch is needed and none is executing. */
    method TryQuery(now: nat) returns (started: bool)
      requires Valid()
      modifies this`isExecuting, this`inFlight, query, manager`pendingEvictions
      ensures Valid()
      ensures started <==> (Read(manager.queryCache, manager.activeQueries, key, now).None? || StaleRead(manager.queryCache, key, now)) && !old(isExecuting)
      ensures started ==> isExecuting && inFlight == old(inFlight) + [0] && query.factoryCalls == old(query.factoryCalls) + 1
      ensures !started ==> isExecuting == old(isExecuting) && inFlight == old(inFlight) && query.factoryCalls == old(query.factoryCalls)
      ensures manager.pendingEvictions == old(manager.pendingEvictions) +
        if SchedulesEviction(manager.queryCache, manager.activeQueries, key, now) then [(Query, key)] else []
    {
      var fetch := ShouldFetch(now);
      started := fetch && !isExecuting;
      if started {
        BeginAttempt(0);
      }
    }

    /** `refetch()`: clear the error and start an attempt, executing or not. */
    method Refetch()
      requires Valid()
      modifies this`error, this`isExecuting, this`inFlight, query
      ensures Valid()
      ensures error == None && isExecuting && inFlight == old(inFlight) + [0]
      ensures query.factoryCalls == old(query.factoryCalls) + 1
    {
      error := None;
      BeginAttempt(0);
    }

    /** `set value(v)`: write through to the cache and clear the error. */
    method SetValue(v: V, now: nat)
      requires Valid()
      modifies this`error, manager`queryCache, manager`mutationCache
      ensures Valid()
      ensures manager.queryCache == Put(old(manager.queryCache), key, CacheEntry(v, now, cache.cacheTime, cache.staleTime))
      ensures manager.mutationCache == old(manager.mutationCache)
      ensures error == None
    {
      cache.SetValue(v, now);
      error := None;
    }

    /**
     * `onMount`: pin the key, then `tryQuery()`. Once pinned, the key is never
     * hidden by expiry, so a mounted query fetches exactly when nothing is
     * cached or what is cached is stale, and its read schedules no eviction.
     */
    method Mount(now: nat) returns (started: bool)
      requires Valid()
      modifies this`isExecuting, this`inFlight, query, manager`activeQueries, manager`pendingEvictions
      ensures Valid()
      ensures manager.activeQueries == old(manager.activeQueries) + {key}
      ensures started <==> (Read(manager.queryCache, manager.activeQueries, key, now).None? || StaleRead(manager.queryCache, key, now)) && !old(isExecuting)
      ensures started <==> StaleRead(manager.queryCache, key, now) && !old(isExecuting)
      ensures started ==> isExecuting && inFlight == old(inFlight) + [0] && query.factoryCalls == old(query.factoryCalls) + 1
      ensures !started ==> isExecuting == old(isExecuting) && inFlight == old(inFlight) && query.factoryCalls == old(query.factoryCalls)
      ensures manager.pendingEvictions == old(manager.pendingEvictions)
    {
      manager.AddActiveQuery(key);
      started := TryQuery(now);
      if key in manager.queryCache.items {
        PinnedKeyIsServed(manager.queryCache, manager.activeQueries, key, now);
      }
    }

    /** The cleanup returned by `onMount`: unpin the key. */
    method Unmount()
      modifies manager`activeQueries
      ensures manager.activeQueries == old(manager.activeQueries) - {key}
    {
      manager.RemoveActiveQuery(key);
    }
  }
}
