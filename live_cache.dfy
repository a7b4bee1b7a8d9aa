/**
 * `liveCacheState`: named slots in one page-wide map (`liveCache`). A
 * non-empty key gives the slot `prefix + "_" + key`, shared by every state
 * with the same prefix and key; no key, or an empty one, gives a fresh
 * symbol, shared with nobody.
 */
module LiveCache {
  import opened Options
  import opened StateKeys

  /** The slot key for `prefix` and `key`, when the next fresh symbol would be `nextSymbol`. */
  function SlotKey(prefix: string, key: Option<string>, nextSymbol: nat): (h: StateKey)
    ensures key.Some? && key.value != [] ==> h == Name(prefix + "_" + key.value)
    ensures !(key.Some? && key.value != []) ==> h == Symbol(nextSymbol)
  {
    if key.Some? && key.value != [] then Name(prefix + "_" + key.value) else Symbol(nextSymbol)
  }

  /** Equal prefixes and equal non-empty keys name one slot, however many symbols exist. */
  lemma EqualKeysShareASlot(prefix: string, key: string, n: nat, m: nat)
    requires key != []
    ensures SlotKey(prefix, Some(key), n) == SlotKey(prefix, Some(key), m)
  {
  }

  /** A `live` state and a `liveArray` state never share a slot, whatever their keys. */
  lemma LiveAndLiveArrayNeverCollide(k1: Option<string>, k2: Option<string>, n1: nat, n2: nat)
    requires n1 != n2
    ensures SlotKey("LIVE", k1, n1) != SlotKey("LIVE-ARRAY", k2, n2)
  {
    var a, b := SlotKey("LIVE", k1, n1), SlotKey("LIVE-ARRAY", k2, n2);
    if a.Name? && b.Name? {
      assert a.text[4] == '_' && b.text[4] == '-';
    }
  }

  /** The page-wide `liveCache` map, and the number of symbols minted so far. */
  class LiveCacheStore<V> {
    var slots: map<StateKey, V>
    var symbols: nat

    /** Every symbol used as a slot key has already been minted. */
    ghost predicate Valid()
      reads this
    {
      forall h | h in slots :: h.Symbol? ==> h.id < symbols
    }

    constructor()
      ensures Valid() && slots == map[] && symbols == 0
    {
      slots := map[];
      symbols := 0;
    }

    /**
     * `liveCacheState(prefix, key, initialValue)`: derive the slot key and seed
     * `initialValue` only into an absent slot; a fresh symbol is always absent.
     */
    method NewState(prefix: string, key: Option<string>, initialValue: Option<V>) returns (h: StateKey)
      requires Valid()
      modifies this
      ensures Valid()
      ensures h == SlotKey(prefix, key, old(symbols))
      ensures symbols == old(symbols) + if h.Symbol? then 1 else 0
      ensures h.Symbol? ==> h !in old(slots)
      ensures slots == if h !in old(slots) && initialValue.Some? then old(slots)[h := initialValue.value] else old(slots)
    {
      h := SlotKey(prefix, key, symbols);
      if h.Symbol? {
        symbols := symbols + 1;
      }
      if h !in slots && initialValue.Some? {
        slots := slots[h := initialValue.value];
      }
    }

    /** `get current()` */
    function Current(h: StateKey): (r: Option<V>)
      reads this
      ensures r.Some? <==> h in slots
      ensures r.Some? ==> r.value == slots[h]
    {
      if h in slots then Some(slots[h]) else None
    }

    /** `set current(v)`: `undefined` deletes the slot, a value overwrites it; no other slot changes. */
    method SetCurrent(h: StateKey, v: Option<V>)
      requires Valid() && (h.Symbol? ==> h.id < symbols)
      modifies this`slots
      ensures Valid()
      ensures v.None? ==> slots == old(slots) - {h} && Current(h) == None
      ensures v.Some? ==> slots == old(slots)[h := v.value] && Current(h) == v
    {
      if v.None? {
        slots := slots - {h};
      } else {
        slots := slots[h := v.value];
      }
    }
  }
}
