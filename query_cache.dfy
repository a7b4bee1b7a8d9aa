/**
 * The TTL cache behind queries and mutations (`CacheManager`, `CacheState`).
 *
 * Entries carry the time they were last written and two windows: past the
 * stale window a value is still served but should be refetched; past the cache
 * window it is expired. Reads never delete: an expired key that no mounted
 * query pins reads as missing and a zero-delay timer evicts it later; a
 * periodic sweep evicts expired, unpinned entries.
 */
module QueryCache {
  import opened Options
  import opened OrderedMaps
  import opened StateKeys
  import opened Ttl

  datatype CacheType = Query | Mutation

  datatype CacheEntry<V> = CacheEntry(value: V, lastUpdated: nat, cacheTime: Lifetime, staleTime: Lifetime)

  /** A `SvelteMap<StateKey, CacheEntry>`, in insertion order. */
  type Cache<V> = OrderedMap<StateKey, CacheEntry<V>>

  /** `isEntryExpired` */
  predicate IsEntryExpired<V>(e: CacheEntry<V>, now: nat)
  {
    Elapsed(e.lastUpdated, e.cacheTime, now)
  }

  /** `isEntryStale` */
  predicate IsEntryStale<V>(e: CacheEntry<V>, now: nat)
  {
    Elapsed(e.lastUpdated, e.staleTime, now)
  }

  /** Expiry and staleness as the source states them, and `Infinity` windows never elapse. */
  lemma ExpiryAndStaleness<V>(e: CacheEntry<V>, now: nat)
    ensures IsEntryExpired(e, now) <==> e.cacheTime != Forever && now - e.lastUpdated > e.cacheTime.ms
    ensures IsEntryStale(e, now) <==> e.staleTime != Forever && now - e.lastUpdated > e.staleTime.ms
    ensures now <= e.lastUpdated ==> !IsEntryExpired(e, now) && !IsEntryStale(e, now)
  {
  }

  /** What `get` returns: nothing for a missing key or an expired key nobody pins, the stored value otherwise. */
  function Read<V>(c: Cache<V>, active: set<StateKey>, key: StateKey, now: nat): (r: Option<V>)
    ensures r.None? <==> key !in c.items || (IsEntryExpired(c.items[key], now) && key !in active)
    ensures r.Some? ==> r.value == c.items[key].value
  {
    if key !in c.items then None
    else if IsEntryExpired(c.items[key], now) && key !in active then None
    else Some(c.items[key].value)
  }

  /** `get` schedules a deferred eviction exactly when it hides an expired, unpinned entry. */
  predicate SchedulesEviction<V>(c: Cache<V>, active: set<StateKey>, key: StateKey, now: nat)
  {
    key in c.items && IsEntryExpired(c.items[key], now) && key !in active
  }

  /** What `isStale` returns: true when the key is missing, expired or past its stale window. */
  function StaleRead<V>(c: Cache<V>, key: StateKey, now: nat): (b: bool)
    ensures b <==> key !in c.items || IsEntryExpired(c.items[key], now) || IsEntryStale(c.items[key], now)
  {
    if key !in c.items then true
    else if IsEntryExpired(c.items[key], now) then true
    else IsEntryStale(c.items[key], now)
  }

  /** What `getLastUpdated` returns: the write time, hidden like the value itself. */
  function LastUpdatedRead<V>(c: Cache<V>, active: set<StateKey>, key: StateKey, now: nat): (r: Option<nat>)
    ensures r.Some? <==> Read(c, active, key, now).Some?
    ensures r.Some? ==> r.value == c.items[key].lastUpdated
  {
    if key !in c.items then None
    else if IsEntryExpired(c.items[key], now) && key !in active then None
    else Some(c.items[key].lastUpdated)
  }

  /** A key the sweep deletes when it reaches it: not pinned, with a finite window that has elapsed. */
  predicate Evictable<V>(c: Cache<V>, active: set<StateKey>, key: StateKey, now: nat)
  {
    key in c.items && key !in active && IsEntryExpired(c.items[key], now)
  }

  /**
   * Where the sweep of one cache stops: the index of the first entry from `i`
   * on that it keeps, or the end. The `return` inside the `forEach` callback
   * ends the scan of that cache at the first entry kept.
   */
  function StopIndex<V>(c: Cache<V>, active: set<StateKey>, now: nat, i: nat): (n: nat)
    requires i <= |c.order|
    ensures i <= n <= |c.order|
    ensures forall k :: i <= k < n ==> Evictable(c, active, c.order[k], now)
    ensures n < |c.order| ==> !Evictable(c, active, c.order[n], now)
    decreases |c.order| - i
  {
    if i == |c.order| || !Evictable(c, active, c.order[i], now) then i
    else StopIndex(c, active, now, i + 1)
  }

  /** The keys of a sequence, as a set. */
  function KeySet(s: seq<StateKey>): set<StateKey>
  {
    set k | k in s
  }

  /** The cache without its first `n` entries. */
  function DropFirst<V>(c: Cache<V>, n: nat): (r: Cache<V>)
    requires c.Valid() && n <= |c.order|
    ensures r.Valid()
    ensures r.order == c.order[n..]
    ensures r.items == c.items - KeySet(c.order[..n])
  {
    var r := OrderedMap(c.order[n..], c.items - KeySet(c.order[..n]));
    assert r.Valid() by {
      forall k | k in r.items
        ensures k in r.order
      {
        var j :| 0 <= j < |c.order| && c.order[j] == k;
        assert j >= n;
        assert r.order[j - n] == k;
      }
      forall j | 0 <= j < |r.order|
        ensures r.order[j] in r.items
      {
        LaterNotInPrefix(c.order, n, n + j);
      }
    }
    r
  }

  /** In a duplicate-free order, a key at or after position `n` is not among the first `n`. */
  lemma LaterNotInPrefix<K>(s: seq<K>, n: nat, j: nat)
    requires Distinct(s) && n <= j < |s|
    ensures s[j] !in s[..n]
  {
    forall m | 0 <= m < n
      ensures s[..n][m] != s[j]
    {
      assert s[..n][m] == s[m];
    }
  }

  /** Deleting the entry at position `i` of the cache without its first `i` entries. */
  lemma DropOneMore<V>(c: Cache<V>, i: nat)
    requires c.Valid() && i < |c.order|
    ensures Remove(DropFirst(c, i), c.order[i]) == DropFirst(c, i + 1)
  {
    var d, e := DropFirst(c, i), DropFirst(c, i + 1);
    DropOrder(c, i);
    KeySetPrefix(c.order, i);
    MapMinusTwice(c.items, KeySet(c.order[..i]), {c.order[i]});
    assert Remove(d, c.order[i]).items == e.items;
  }

  lemma MapMinusTwice<K, V>(m: map<K, V>, a: set<K>, b: set<K>)
    ensures (m - a) - b == m - (a + b)
  {
  }

  lemma DropOrder<V>(c: Cache<V>, i: nat)
    requires c.Valid() && i < |c.order|
    ensures c.order[i] in DropFirst(c, i).items
    ensures Remove(DropFirst(c, i), c.order[i]).order == c.order[i + 1..]
  {
    var d := DropFirst(c, i);
    assert d.order[0] == c.order[i];
    WithoutFirst(d.order);
  }

  lemma KeySetPrefix(s: seq<StateKey>, i: nat)
    requires i < |s|
    ensures KeySet(s[..i + 1]) == KeySet(s[..i]) + {s[i]}
  {
    assert s[..i + 1] == s[..i] + [s[i]];
  }

  /**
   * The sweep, as written, never deletes a pinned key, an `Infinity` entry or
   * an unexpired one, and it keeps every entry from the first one it keeps on.
   */
  lemma SweepKeepsProtected<V>(c: Cache<V>, active: set<StateKey>, now: nat, key: StateKey)
    requires c.Valid() && key in c.items
    requires key in active || c.items[key].cacheTime.Forever? || !IsEntryExpired(c.items[key], now)
    ensures key in DropFirst(c, StopIndex(c, active, now, 0)).items
  {
    var n := StopIndex(c, active, now, 0);
    forall m | 0 <= m < n
      ensures c.order[..n][m] != key
    {
      assert c.order[..n][m] == c.order[m];
      assert Evictable(c, active, c.order[m], now);
    }
  }

  lemma SweepStopsAtFirstKept<V>(c: Cache<V>, active: set<StateKey>, now: nat, j: nat)
    requires c.Valid() && StopIndex(c, active, now, 0) <= j < |c.order|
    ensures c.order[j] in DropFirst(c, StopIndex(c, active, now, 0)).items
  {
    LaterNotInPrefix(c.order, StopIndex(c, active, now, 0), j);
  }

  /**
   * The early `return`: behind a pinned entry, an expired unpinned entry that
   * the sweep should evict is kept.
   */
  lemma EarlyReturnKeepsExpiredEntry<V>(v: V)
    ensures var pinned, late := Name("pinned"), Name("late");
      var c := OrderedMap([pinned, late], map[pinned := CacheEntry(v, 0, Finite(10), Finite(0)), late := CacheEntry(v, 0, Finite(10), Finite(0))]);
      && c.Valid()
      && Evictable(c, {pinned}, late, 100)
      && late in DropFirst(c, StopIndex(c, {pinned}, 100, 0)).items
  {
    var pinned, late := Name("pinned"), Name("late");
    var c := OrderedMap([pinned, late], map[pinned := CacheEntry(v, 0, Finite(10), Finite(0)), late := CacheEntry(v, 0, Finite(10), Finite(0))]);
    assert pinned != late by {
      assert pinned.text[0] != late.text[0];
    }
    assert StopIndex(c, {pinned}, 100, 0) == 0;
  }

  /** The keys of `s` the sweep would delete if it skipped the entries it keeps. */
  function KeptKeys<V>(c: Cache<V>, active: set<StateKey>, now: nat, s: seq<StateKey>): (r: seq<StateKey>)
    ensures forall k | k in r :: k in s && !Evictable(c, active, k, now)
    ensures forall i | 0 <= i < |s| && !Evictable(c, active, s[i], now) :: s[i] in r
  {
    if s == [] then []
    else if Evictable(c, active, s[0], now) then KeptKeys(c, active, now, s[1..])
    else [s[0]] + KeptKeys(c, active, now, s[1..])
  }

  lemma {:induction false} KeptKeysDistinct<V>(c: Cache<V>, active: set<StateKey>, now: nat, s: seq<StateKey>)
    requires Distinct(s)
    ensures Distinct(KeptKeys(c, active, now, s))
  {
    if s != [] {
      KeptKeysDistinct(c, active, now, s[1..]);
    }
  }

  /**
   * The sweep the comment in the source describes: skip pinned, `Infinity`
   * and unexpired entries and go on, so that every expired unpinned entry goes.
   */
  function SweptIntended<V>(c: Cache<V>, active: set<StateKey>, now: nat): (r: Cache<V>)
    requires c.Valid()
    ensures r.Valid()
    ensures forall k | k in c.items :: k in r.items <==> !Evictable(c, active, k, now)
    ensures forall k | k in r.items :: k in c.items && r.items[k] == c.items[k]
  {
    KeptKeysDistinct(c, active, now, c.order);
    var r := OrderedMap(KeptKeys(c, active, now, c.order), map k | k in c.items && !Evictable(c, active, k, now) :: c.items[k]);
    assert r.Valid() by {
      forall k | k in r.items
        ensures k in r.order
      {
        var j :| 0 <= j < |c.order| && c.order[j] == k;
      }
      forall i | 0 <= i < |r.order|
        ensures r.order[i] in r.items
      {
        assert r.order[i] in r.order;
      }
    }
    r
  }

  /**
   * The corrected sweep has visited the first `i` keys of `c`: the visited
   * keys that remain are those it must keep, every unvisited key remains, and
   * every remaining entry is unchanged.
   */
  ghost predicate SweptUpTo<V>(c: Cache<V>, r: Cache<V>, active: set<StateKey>, now: nat, i: nat)
  {
    && c.Valid() && r.Valid() && i <= |c.order|
    && (forall k | k in r.items :: k in c.items && r.items[k] == c.items[k])
    && (forall j | 0 <= j < |c.order| :: c.order[j] in r.items <==> (j >= i || !Evictable(c, active, c.order[j], now)))
  }

  lemma SweptUpToStep<V>(c: Cache<V>, r: Cache<V>, active: set<StateKey>, now: nat, i: nat)
    requires SweptUpTo(c, r, active, now, i) && i < |c.order|
    ensures c.order[i] in r.items
    ensures SweptUpTo(c, if Evictable(c, active, c.order[i], now) then Remove(r, c.order[i]) else r, active, now, i + 1)
  {
  }

  lemma SweptUpToDone<V>(c: Cache<V>, r: Cache<V>, active: set<StateKey>, now: nat)
    requires SweptUpTo(c, r, active, now, |c.order|)
    ensures r.items == SweptIntended(c, active, now).items
  {
    var e := SweptIntended(c, active, now);
    forall k | k in c.items
      ensures k in r.items <==> !Evictable(c, active, k, now)
    {
      var j :| 0 <= j < |c.order| && c.order[j] == k;
    }
    assert r.items.Keys == e.items.Keys;
  }

  datatype CacheOptions<V> = CacheOptions(initialValue: Option<V>, staleTime: Option<Lifetime>, cacheTime: Option<Lifetime>)

  /** `cacheTimeMs = 5 * 60 * 1000` */
  const DefaultCacheTime: Lifetime := Finite(5 * 60 * 1000)
  /** `staleTimeMs = 1000` in `CacheState` */
  const DefaultStaleTime: Lifetime := Finite(1000)

  class CacheManager<V> {
    var queryCache: Cache<V>
    var mutationCache: Cache<V>
    /** `activeQueries`: the keys some mounted query pins. */
    var activeQueries: set<StateKey>
    /** The zero-delay eviction timers `get` has scheduled and that have not run yet. */
    var pendingEvictions: seq<(CacheType, StateKey)>
    /** `cleanupInterval`: the periodic sweep is running. */
    var cleanupTimer: bool

    ghost predicate Valid()
      reads this
    {
      queryCache.Valid() && mutationCache.Valid()
    }

    /** `getCache(type)` */
    function CacheOf(t: CacheType): Cache<V>
      reads this
    {
      if t == Query then queryCache else mutationCache
    }

    /** `new CacheManager()` in the browser: empty caches, and the sweep timer started. */
    constructor()
      ensures Valid()
      ensures queryCache == Empty() && mutationCache == Empty()
      ensures activeQueries == {} && pendingEvictions == [] && cleanupTimer
    {
      queryCache := Empty();
      mutationCache := Empty();
      activeQueries := {};
      pendingEvictions := [];
      cleanupTimer := true;
    }

    method AddActiveQuery(key: StateKey)
      modifies this`activeQueries
      ensures activeQueries == old(activeQueries) + {key}
    {
      activeQueries := activeQueries + {key};
    }

    /** One removal unpins the key, however many additions came before it. */
    method RemoveActiveQuery(key: StateKey)
      modifies this`activeQueries
      ensures activeQueries == old(activeQueries) - {key}
    {
      activeQueries := activeQueries - {key};
    }

    /** `get`: reads without deleting, and schedules an eviction for an expired, unpinned entry. */
    method Get(t: CacheType, key: StateKey, now: nat) returns (r: Option<V>)
      modifies this`pendingEvictions
      ensures r == Read(CacheOf(t), activeQueries, key, now)
      ensures pendingEvictions == old(pendingEvictions) +
        if SchedulesEviction(CacheOf(t), activeQueries, key, now) then [(t, key)] else []
    {
      var cache := CacheOf(t);
      if key !in cache.items {
        return None;
      }
      var entry := cache.items[key];
      if IsEntryExpired(entry, now) && key !in activeQueries {
        pendingEvictions := pendingEvictions + [(t, key)];
        return None;
      }
      r := Some(entry.value);
    }

    /**
     * The oldest eviction timer fires: the key goes only if an entry is still
     * there and still expired at that moment (whether or not it is pinned by then).
     */
    method RunPendingEviction(now: nat)
      requires Valid() && pendingEvictions != []
      modifies this`queryCache, this`mutationCache, this`pendingEvictions
      ensures Valid()
      ensures pendingEvictions == old(pendingEvictions)[1..]
      ensures var (t, key) := old(pendingEvictions)[0];
        && CacheOf(t) == (if key in old(CacheOf(t)).items && IsEntryExpired(old(CacheOf(t)).items[key], now)
                          then Remove(old(CacheOf(t)), key) else old(CacheOf(t)))
        && CacheOf(if t == Query then Mutation else Query) == old(CacheOf(if t == Query then Mutation else Query))
    {
      var (t, key) := pendingEvictions[0];
      pendingEvictions := pendingEvictions[1..];
      var cache := CacheOf(t);
      if key in cache.items && IsEntryExpired(cache.items[key], now) {
        if t == Query {
          queryCache := Remove(queryCache, key);
        } else {
          mutationCache := Remove(mutationCache, key);
        }
      }
    }

    /** `isStale` */
    function IsStale(t: CacheType, key: StateKey, now: nat): (b: bool)
      reads this
      ensures b <==> key !in CacheOf(t).items || IsEntryExpired(CacheOf(t).items[key], now) || IsEntryStale(CacheOf(t).items[key], now)
    {
      StaleRead(CacheOf(t), key, now)
    }

    /** `set`: upsert with `lastUpdated = now`; the stale window defaults to 0. */
    method Set(t: CacheType, key: StateKey, value: V, cacheTime: Lifetime, staleTime: Option<Lifetime>, now: nat)
      requires Valid()
      modifies this`queryCache, this`mutationCache
      ensures Valid()
      ensures CacheOf(t) == Put(old(CacheOf(t)), key, CacheEntry(value, now, cacheTime, if staleTime.Some? then staleTime.value else Finite(0)))
      ensures CacheOf(if t == Query then Mutation else Query) == old(CacheOf(if t == Query then Mutation else Query))
    {
      var entry := CacheEntry(value, now, cacheTime, if staleTime.Some? then staleTime.value else Finite(0));
      if t == Query {
        queryCache := Put(queryCache, key, entry);
      } else {
        mutationCache := Put(mutationCache, key, entry);
      }
    }

    /** `getLastUpdated` */
    function GetLastUpdated(t: CacheType, key: StateKey, now: nat): (r: Option<nat>)
      reads this
      ensures r.Some? <==> Read(CacheOf(t), activeQueries, key, now).Some?
      ensures r.Some? ==> r.value == CacheOf(t).items[key].lastUpdated
    {
      LastUpdatedRead(CacheOf(t), activeQueries, key, now)
    }

    /** `invalidate`: removes the key at once, pinned or not. */
    method Invalidate(t: CacheType, key: StateKey)
      requires Valid()
      modifies this`queryCache, this`mutationCache
      ensures Valid()
      ensures CacheOf(t) == Remove(old(CacheOf(t)), key)
      ensures CacheOf(if t == Query then Mutation else Query) == old(CacheOf(if t == Query then Mutation else Query))
    {
      if t == Query {
        queryCache := Remove(queryCache, key);
      } else {
        mutationCache := Remove(mutationCache, key);
      }
    }

    /**
     * The body of the sweep for one cache, as written: delete entries in order
     * until the first one that is pinned, `Infinity` or unexpired.
     */
    method SweepCacheAsWritten(c: Cache<V>, now: nat) returns (r: Cache<V>)
      requires c.Valid()
      ensures r == DropFirst(c, StopIndex(c, activeQueries, now, 0))
    {
      ghost var n := StopIndex(c, activeQueries, now, 0);
      r := c;
      var i := 0;
      while i < |c.order|
        invariant 0 <= i <= |c.order|
        invariant StopIndex(c, activeQueries, now, i) == n
        invariant r == DropFirst(c, i)
      {
        var key := c.order[i];
        var entry := c.items[key];
        if key in activeQueries {
          break;
        }
        if entry.cacheTime.Forever? {
          break;
        }
        if now - entry.lastUpdated <= entry.cacheTime.ms {
          break;
        }
        DropOneMore(c, i);
        r := Remove(r, key);
        i := i + 1;
      }
    }

    /**
     * The body of the sweep for one cache, corrected: a pinned, `Infinity` or
     * unexpired entry is skipped and the scan goes on, so exactly the
     * evictable entries go and the others stay unchanged.
     */
    method SweepCache(c: Cache<V>, now: nat) returns (r: Cache<V>)
      requires c.Valid()
      ensures r.Valid()
      ensures r.items == SweptIntended(c, activeQueries, now).items
    {
      r := c;
      var i := 0;
      while i < |c.order|
        invariant SweptUpTo(c, r, activeQueries, now, i)
      {
        SweptUpToStep(c, r, activeQueries, now, i);
        var key := c.order[i];
        var entry := c.items[key];
        if key !in activeQueries && entry.cacheTime.Finite? && now - entry.lastUpdated > entry.cacheTime.ms {
          r := Remove(r, key);
        }
        i := i + 1;
      }
      SweptUpToDone(c, r, activeQueries, now);
    }

    /** The interval timer fires, as written: each cache is swept only up to its first kept entry. */
    method SweepAsWritten(now: nat)
      requires Valid() && cleanupTimer
      modifies this`queryCache, this`mutationCache
      ensures Valid()
      ensures queryCache == DropFirst(old(queryCache), StopIndex(old(queryCache), activeQueries, now, 0))
      ensures mutationCache == DropFirst(old(mutationCache), StopIndex(old(mutationCache), activeQueries, now, 0))
    {
      queryCache := SweepCacheAsWritten(queryCache, now);
      mutationCache := SweepCacheAsWritten(mutationCache, now);
    }

    /** The interval timer fires, corrected: sweep the query cache, then the mutation cache. */
    method Sweep(now: nat)
      requires Valid() && cleanupTimer
      modifies this`queryCache, this`mutationCache
      ensures Valid()
      ensures queryCache.items == SweptIntended(old(queryCache), activeQueries, now).items
      ensures mutationCache.items == SweptIntended(old(mutationCache), activeQueries, now).items
    {
      queryCache := SweepCache(queryCache, now);
      mutationCache := SweepCache(mutationCache, now);
    }

    /** `destroy`: stop the sweep timer. */
    method Destroy()
      modifies this`cleanupTimer
      ensures !cleanupTimer
    {
      cleanupTimer := false;
    }
  }

  /** A value just written reads back at the same moment, pinned or not. */
  lemma ReadAfterWrite<V>(c: Cache<V>, active: set<StateKey>, key: StateKey, value: V, cacheTime: Lifetime, staleTime: Lifetime, now: nat)
    requires c.Valid()
    ensures Read(Put(c, key, CacheEntry(value, now, cacheTime, staleTime)), active, key, now) == Some(value)
    ensures !StaleRead(Put(c, key, CacheEntry(value, now, cacheTime, staleTime)), key, now)
  {
  }

  /** A pinned key keeps being served, however long ago it was written. */
  lemma PinnedKeyIsServed<V>(c: Cache<V>, active: set<StateKey>, key: StateKey, now: nat)
    requires key in c.items && key in active
    ensures Read(c, active, key, now) == Some(c.items[key].value)
    ensures !SchedulesEviction(c, active, key, now)
  {
  }

  /**
   * The life of one entry written at `t0` with a stale window of 100 ms and a
   * cache window of 1000 ms: fresh at first, stale but served after 150 ms, and
   * missing once more than 1000 ms have passed unless pinned.
   */
  lemma StalenessTimeline<V>(c: Cache<V>, key: StateKey, value: V, t0: nat)
    requires c.Valid()
    ensures var c' := Put(c, key, CacheEntry(value, t0, Finite(1000), Finite(100)));
      && !StaleRead(c', key, t0)
      && StaleRead(c', key, t0 + 150) && Read(c', {}, key, t0 + 150) == Some(value)
      && Read(c', {}, key, t0 + 1001) == None
      && Read(c', {key}, key, t0 + 1001) == Some(value)
  {
  }

  /** `CacheState(type, key, options)`: a getter and setter over one key of the manager. */
  class CacheState<V> {
    const manager: CacheManager<V>
    const kind: CacheType
    const key: StateKey
    const cacheTime: Lifetime
    const staleTime: Lifetime

    /**
     * Applies the defaults and seeds `initialValue` only when one is given and
     * `get` reports nothing for the key (`get` is not called otherwise).
     */
    constructor(manager: CacheManager<V>, kind: CacheType, key: StateKey, options: CacheOptions<V>, now: nat)
      requires manager.Valid()
      modifies manager`queryCache, manager`mutationCache, manager`pendingEvictions
      ensures manager.Valid()
      ensures this.manager == manager && this.kind == kind && this.key == key
      ensures cacheTime == if options.cacheTime.Some? then options.cacheTime.value else DefaultCacheTime
      ensures staleTime == if options.staleTime.Some? then options.staleTime.value else DefaultStaleTime
      ensures var seed := options.initialValue.Some? && Read(old(manager.CacheOf(kind)), manager.activeQueries, key, now).None?;
        && manager.CacheOf(kind) == (if seed then Put(old(manager.CacheOf(kind)), key, CacheEntry(options.initialValue.value, now, cacheTime, staleTime))
                                     else old(manager.CacheOf(kind)))
        && manager.pendingEvictions == old(manager.pendingEvictions) +
             if options.initialValue.Some? && SchedulesEviction(old(manager.CacheOf(kind)), manager.activeQueries, key, now) then [(kind, key)] else []
      ensures manager.CacheOf(if kind == Query then Mutation else Query) == old(manager.CacheOf(if kind == Query then Mutation else Query))
    {
      this.manager := manager;
      this.kind := kind;
      this.key := key;
      this.cacheTime := if options.cacheTime.Some? then options.cacheTime.value else DefaultCacheTime;
      this.staleTime := if options.staleTime.Some? then options.staleTime.value else DefaultStaleTime;
      new;
      if options.initialValue.Some? {
        var current := manager.Get(kind, key, now);
        if current.None? {
          manager.Set(kind, key, options.initialValue.value, cacheTime, Some(staleTime), now);
        }
      }
    }

    /** `get value()` */
    method Value(now: nat) returns (r: Option<V>)
      modifies manager`pendingEvictions
      ensures r == Read(manager.CacheOf(kind), manager.activeQueries, key, now)
      ensures manager.pendingEvictions == old(manager.pendingEvictions) +
        if SchedulesEviction(manager.CacheOf(kind), manager.activeQueries, key, now) then [(kind, key)] else []
    {
      r := manager.Get(kind, key, now);
    }

    /** `set value(v)`: a write with this state's windows; it reads back at once. */
    method SetValue(v: V, now: nat)
      requires manager.Valid()
      modifies manager`queryCache, manager`mutationCache
      ensures manager.Valid()
      ensures manager.CacheOf(kind) == Put(old(manager.CacheOf(kind)), key, CacheEntry(v, now, cacheTime, staleTime))
      ensures manager.CacheOf(if kind == Query then Mutation else Query) == old(manager.CacheOf(if kind == Query then Mutation else Query))
      ensures Read(manager.CacheOf(kind), manager.activeQueries, key, now) == Some(v)
    {
      manager.Set(kind, key, v, cacheTime, Some(staleTime), now);
    }

    /** `get isStale()` */
    function IsStale(now: nat): (b: bool)
      reads manager
      ensures b == StaleRead(manager.CacheOf(kind), key, now)
    {
      manager.IsStale(kind, key, now)
    }

    /** `get lastUpdated()` */
    function LastUpdated(now: nat): (r: Option<nat>)
      reads manager
      ensures r == LastUpdatedRead(manager.CacheOf(kind), manager.activeQueries, key, now)
    {
      manager.GetLastUpdated(kind, key, now)
    }

    /** `invalidate()` */
    method Invalidate()
      requires manager.Valid()
      modifies manager`queryCache, manager`mutationCache
      ensures manager.Valid()
      ensures manager.CacheOf(kind) == Remove(old(manager.CacheOf(kind)), key)
      ensures key !in manager.CacheOf(kind).items
      ensures manager.CacheOf(if kind == Query then Mutation else Query) == old(manager.CacheOf(if kind == Query then Mutation else Query))
    {
      manager.Invalidate(kind, key);
    }
  }
}
