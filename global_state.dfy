/**
 * The older TTL cache (`getQueryGlobalState`): two maps created once per page,
 * reads that delete an expired entry on the spot, no pinning, and a periodic
 * sweep that removes every expired entry.
 */
module GlobalState {
  import opened Options
  import opened OrderedMaps
  import opened StateKeys
  import opened Ttl

  /** `CacheEntry<T>`: no stale window in this variant. */
  datatype TimedEntry<V> = TimedEntry(value: V, lastUpdated: nat, cacheTime: Lifetime)

  type TimedCache<V> = OrderedMap<StateKey, TimedEntry<V>>

  /** `entry.cacheTimeMs !== Infinity && now - entry.lastUpdated > entry.cacheTimeMs` */
  predicate Expired<V>(e: TimedEntry<V>, now: nat)
  {
    Elapsed(e.lastUpdated, e.cacheTime, now)
  }

  /** What `getCacheEntry` returns: the value of a present, unexpired entry. */
  function EntryRead<V>(c: TimedCache<V>, key: StateKey, now: nat): (r: Option<V>)
    ensures r.Some? <==> key in c.items && !Expired(c.items[key], now)
    ensures r.Some? ==> r.value == c.items[key].value
  {
    if key !in c.items || Expired(c.items[key], now) then None
    else Some(c.items[key].value)
  }

  /** What `getCacheLastUpdated` returns: the write time of a present, unexpired entry. */
  function LastUpdatedRead<V>(c: TimedCache<V>, key: StateKey, now: nat): (r: Option<nat>)
    ensures r.Some? <==> EntryRead(c, key, now).Some?
    ensures r.Some? ==> r.value == c.items[key].lastUpdated
  {
    if key !in c.items || Expired(c.items[key], now) then None
    else Some(c.items[key].lastUpdated)
  }

  /** The map after either read: an expired entry for `key` is gone, nothing else changes. */
  function AfterRead<V>(c: TimedCache<V>, key: StateKey, now: nat): (r: TimedCache<V>)
    requires c.Valid()
    ensures r.Valid()
    ensures key !in c.items ==> r == c
    ensures key in c.items && Expired(c.items[key], now) ==> r.items == c.items - {key}
    ensures key in c.items && !Expired(c.items[key], now) ==> r == c
  {
    if key in c.items && Expired(c.items[key], now) then Remove(c, key) else c
  }

  /** A `SvelteMap<string | symbol, CacheEntry>` of this variant. */
  class TimedCacheMap<V> {
    var entries: TimedCache<V>

    ghost predicate Valid()
      reads this
    {
      entries.Valid()
    }

    constructor()
      ensures Valid() && entries == Empty()
    {
      entries := Empty();
    }

    /** `getCacheEntry(cache, key)` */
    method GetCacheEntry(key: StateKey, now: nat) returns (r: Option<V>)
      requires Valid()
      modifies this
      ensures Valid()
      ensures r == EntryRead(old(entries), key, now)
      ensures entries == AfterRead(old(entries), key, now)
    {
      if key !in entries.items {
        return None;
      }
      var entry := entries.items[key];
      if entry.cacheTime.Finite? && now - entry.lastUpdated > entry.cacheTime.ms {
        entries := Remove(entries, key);
        return None;
      }
      r := Some(entry.value);
    }

    /** `setCacheEntry(cache, key, value, cacheTimeMs)` */
    method SetCacheEntry(key: StateKey, value: V, cacheTime: Lifetime, now: nat)
      requires Valid()
      modifies this
      ensures Valid()
      ensures entries == Put(old(entries), key, TimedEntry(value, now, cacheTime))
      ensures EntryRead(entries, key, now) == Some(value)
    {
      entries := Put(entries, key, TimedEntry(value, now, cacheTime));
    }

    /** `getCacheLastUpdated(cache, key)` */
    method GetCacheLastUpdated(key: StateKey, now: nat) returns (r: Option<nat>)
      requires Valid()
      modifies this
      ensures Valid()
      ensures r == LastUpdatedRead(old(entries), key, now)
      ensures entries == AfterRead(old(entries), key, now)
    {
      if key !in entries.items {
        return None;
      }
      var entry := entries.items[key];
      if entry.cacheTime.Finite? && now - entry.lastUpdated > entry.cacheTime.ms {
        entries := Remove(entries, key);
        return None;
      }
      r := Some(entry.lastUpdated);
    }

    /**
     * One cache's part of the sweep: walk the entries in order and delete each
     * expired one, so that exactly the unexpired entries remain, unchanged.
     */
    method Sweep(now: nat)
      requires Valid()
      modifies this
      ensures Valid()
      ensures forall k | k in old(entries.items) :: k in entries.items <==> !Expired(old(entries.items)[k], now)
      ensures forall k | k in entries.items :: k in old(entries.items) && entries.items[k] == old(entries.items)[k]
    {
      ghost var before := entries;
      var keys := entries.order;
      var i := 0;
      while i < |keys|
        invariant SweptPrefix(before, entries, i, now)
      {
        SweepStep(before, entries, i, now);
        var key := keys[i];
        var entry := entries.items[key];
        if entry.cacheTime.Finite? && now - entry.lastUpdated > entry.cacheTime.ms {
          entries := Remove(entries, key);
        }
        i := i + 1;
      }
      SweepDone(before, entries, now);
    }
  }

  /**
   * The sweep has visited the first `i` keys of `before`: the visited keys
   * that remain are the unexpired ones, every unvisited key remains, and the
   * remaining entries are unchanged.
   */
  ghost predicate SweptPrefix<V>(before: TimedCache<V>, c: TimedCache<V>, i: nat, now: nat)
  {
    && before.Valid() && c.Valid() && i <= |before.order|
    && (forall k | k in c.items :: k in before.items && c.items[k] == before.items[k])
    && (forall j | 0 <= j < |before.order| ::
          before.order[j] in c.items <==> (j >= i || !Expired(before.items[before.order[j]], now)))
  }

  lemma SweepStep<V>(before: TimedCache<V>, c: TimedCache<V>, i: nat, now: nat)
    requires SweptPrefix(before, c, i, now) && i < |before.order|
    ensures before.order[i] in c.items
    ensures SweptPrefix(before, if Expired(c.items[before.order[i]], now) then Remove(c, before.order[i]) else c, i + 1, now)
  {
  }

  lemma SweepDone<V>(before: TimedCache<V>, c: TimedCache<V>, now: nat)
    requires SweptPrefix(before, c, |before.order|, now)
    ensures c.Valid()
    ensures forall k | k in before.items :: k in c.items <==> !Expired(before.items[k], now)
    ensures forall k | k in c.items :: k in before.items && c.items[k] == before.items[k]
  {
    forall k | k in before.items
      ensures k in c.items <==> !Expired(before.items[k], now)
    {
      var j :| 0 <= j < |before.order| && before.order[j] == k;
    }
  }

  /** A value just written is read back at the same moment, and the read deletes nothing. */
  lemma ReadAfterWrite<V>(c: TimedCache<V>, key: StateKey, value: V, cacheTime: Lifetime, now: nat)
    requires c.Valid()
    ensures EntryRead(Put(c, key, TimedEntry(value, now, cacheTime)), key, now) == Some(value)
    ensures LastUpdatedRead(Put(c, key, TimedEntry(value, now, cacheTime)), key, now) == Some(now)
    ensures AfterRead(Put(c, key, TimedEntry(value, now, cacheTime)), key, now) == Put(c, key, TimedEntry(value, now, cacheTime))
  {
  }

  /** An `Infinity` entry is served and kept by every read, at any time. */
  lemma ForeverEntryIsKept<V>(c: TimedCache<V>, key: StateKey, now: nat)
    requires c.Valid() && key in c.items && c.items[key].cacheTime == Forever
    ensures EntryRead(c, key, now) == Some(c.items[key].value)
    ensures AfterRead(c, key, now) == c
  {
  }

  /** Module-level `globalState` and `cleanupInterval`. */
  class GlobalStateModule<V> {
    var queryCache: TimedCacheMap?<V>
    var mutationCache: TimedCacheMap?<V>
    /** `cleanupInterval`: the two-minute sweep timer is running. */
    var cleanupTimer: bool

    /** Both caches exist or neither does, the timer runs once they exist, and they are two maps. */
    ghost predicate Valid()
      reads this, queryCache, mutationCache
    {
      && (queryCache == null <==> mutationCache == null)
      && (cleanupTimer <==> queryCache != null)
      && (queryCache != null ==> queryCache != mutationCache && queryCache.Valid() && mutationCache.Valid())
    }

    /** The state before the first call: nothing created, no timer. */
    constructor()
      ensures Valid()
      ensures queryCache == null && mutationCache == null && !cleanupTimer
    {
      queryCache := null;
      mutationCache := null;
      cleanupTimer := false;
    }

    /**
     * `getQueryGlobalState()`: outside the browser the result holds no caches;
     * in the browser the first call creates both maps and starts the timer,
     * and every later call hands back the same two maps.
     */
    method GetQueryGlobalState(browser: bool) returns (q: TimedCacheMap?<V>, m: TimedCacheMap?<V>)
      requires Valid()
      modifies this
      ensures Valid()
      ensures !browser ==> q == null && m == null && queryCache == old(queryCache) && mutationCache == old(mutationCache) && cleanupTimer == old(cleanupTimer)
      ensures browser ==> q != null && q == queryCache && m == mutationCache && cleanupTimer
      ensures browser && old(queryCache) != null ==> q == old(queryCache) && m == old(mutationCache)
      ensures browser && old(queryCache) == null ==> fresh(q) && fresh(m) && q.entries == Empty() && m.entries == Empty()
    {
      if !browser {
        return null, null;
      }
      if queryCache == null {
        queryCache := new TimedCacheMap();
        mutationCache := new TimedCacheMap();
        cleanupTimer := true;
      }
      q, m := queryCache, mutationCache;
    }

    /**
     * The interval timer fires. It only runs once the state exists, so the
     * `!globalState` guard never stops it; both caches are swept.
     */
    method Tick(now: nat)
      requires Valid() && cleanupTimer
      modifies queryCache, mutationCache
      ensures Valid()
      ensures forall k | k in old(queryCache.entries.items) ::
        k in queryCache.entries.items <==> !Expired(old(queryCache.entries.items)[k], now)
      ensures forall k | k in queryCache.entries.items ::
        k in old(queryCache.entries.items) && queryCache.entries.items[k] == old(queryCache.entries.items)[k]
      ensures forall k | k in old(mutationCache.entries.items) ::
        k in mutationCache.entries.items <==> !Expired(old(mutationCache.entries.items)[k], now)
      ensures forall k | k in mutationCache.entries.items ::
        k in old(mutationCache.entries.items) && mutationCache.entries.items[k] == old(mutationCache.entries.items)[k]
    {
      queryCache.Sweep(now);
      mutationCache.Sweep(now);
    }
  }
}
