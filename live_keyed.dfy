/**
 * `live` and `liveArray` over the shared slot map: each mounts, consumes its
 * iterator in the background writing into its slot, and calls the iterator's
 * `return()` when unmounted. Consuming one item is the step `Receive`; the end
 * of the iteration, normal or by an error that the loop catches, is
 * `EndIteration`.
 */
module LiveKeyed {
  import opened Options
  import opened StateKeys
  import opened LiveCache
  import opened LiveRule

  /** What a slot holds: a `live` value or a `liveArray` array. */
  datatype Stored<T> = Scalar(value: T) | Items(values: seq<T>)

  datatype Phase = Idle | Iterating | Ended

  /**
   * The slot and whether the `liveArray` loop goes on after consuming `items`:
   * an array item replaces the slot, a single item is appended to the array in
   * the slot, and a single item meeting an empty or non-array slot makes the
   * spread throw, which ends the loop with the slot untouched.
   */
  function ArrayRun<T>(slot: Option<Stored<T>>, items: seq<Item<T>>): (r: (Option<Stored<T>>, bool))
    ensures r.0.None? ==> slot.None?
    ensures !r.1 ==> items != []
    decreases |items|
  {
    if items == [] then (slot, true)
    else match items[0]
      case Many(values) => ArrayRun(Some(Items(values)), items[1..])
      case Single(x) =>
        if slot.Some? && slot.value.Items? then ArrayRun(Some(Items(slot.value.values + [x])), items[1..])
        else (slot, false)
  }

  /** From an array slot, the loop never stops early and the slot ends as the fold of the items. */
  lemma {:induction false} ArrayRunFolds<T>(s: seq<T>, items: seq<Item<T>>)
    ensures ArrayRun(Some(Items(s)), items) == (Some(Items(Fold(s, items))), true)
    decreases |items|
  {
    if items != [] {
      FoldFirst(s, items);
      ArrayRunFolds(ApplyItem(s, items[0]), items[1..]);
    }
  }

  /** `live(iterator, key)`: the last item consumed is the current value, in the slot `LIVE_<key>`. */
  class Live<T> {
    const store: LiveCacheStore<Stored<T>>
    const handle: StateKey
    var phase: Phase
    /** How many times the iterator's `return()` has been called. */
    var returnCalls: nat

    ghost predicate Valid()
      reads this, store
    {
      store.Valid() && (handle.Symbol? ==> handle.id < store.symbols)
    }

    constructor(store: LiveCacheStore<Stored<T>>, key: Option<string>)
      requires store.Valid()
      modifies store
      ensures Valid()
      ensures this.store == store && handle == SlotKey("LIVE", key, old(store.symbols))
      ensures store.slots == old(store.slots)
      ensures phase == Idle && returnCalls == 0
    {
      this.store := store;
      var h := store.NewState("LIVE", key, None);
      handle := h;
      phase := Idle;
      returnCalls := 0;
    }

    /** `get current()` */
    function Current(): (r: Option<Stored<T>>)
      reads this, store
      ensures r.Some? <==> handle in store.slots
      ensures r.Some? ==> r.value == store.slots[handle]
    {
      store.Current(handle)
    }

    /** `onMount`: start the background iteration. */
    method Mount()
      requires phase == Idle
      modifies this`phase
      ensures phase == Iterating
    {
      phase := Iterating;
    }

    /** The loop consumes one item: it becomes the current value, and `undefined` deletes the slot. */
    method Receive(x: Option<T>)
      requires Valid() && phase == Iterating
      modifies store`slots
      ensures Valid()
      ensures x.None? ==> store.slots == old(store.slots) - {handle}
      ensures x.Some? ==> store.slots == old(store.slots)[handle := Scalar(x.value)]
    {
      store.SetCurrent(handle, if x.Some? then Some(Scalar(x.value)) else None);
    }

    /** The loop consumes `xs`: the last of them decides the slot, and no other slot changes. */
    method Consume(xs: seq<Option<T>>)
      requires Valid() && phase == Iterating
      modifies store`slots
      ensures Valid()
      ensures xs == [] ==> store.slots == old(store.slots)
      ensures xs != [] && xs[|xs| - 1].None? ==> store.slots == old(store.slots) - {handle}
      ensures xs != [] && xs[|xs| - 1].Some? ==> store.slots == old(store.slots)[handle := Scalar(xs[|xs| - 1].value)]
    {
      var i := 0;
      while i < |xs|
        invariant 0 <= i <= |xs| && Valid()
        invariant i == 0 ==> store.slots == old(store.slots)
        invariant i > 0 && xs[i - 1].None? ==> store.slots == old(store.slots) - {handle}
        invariant i > 0 && xs[i - 1].Some? ==> store.slots == old(store.slots)[handle := Scalar(xs[i - 1].value)]
      {
        Receive(xs[i]);
        i := i + 1;
      }
    }

    /** The iterator finished or threw: the loop ends and the value stays as it was. */
    method EndIteration()
      requires phase == Iterating
      modifies this`phase
      ensures phase == Ended
    {
      phase := Ended;
    }

    /** The cleanup returned by `onMount` calls the iterator's `return()`, when it has one. */
    method Unmount(hasReturn: bool)
      modifies this`returnCalls
      ensures returnCalls == old(returnCalls) + if hasReturn then 1 else 0
    {
      if hasReturn {
        returnCalls := returnCalls + 1;
      }
    }

    /** `set current(v)`: `undefined` deletes the slot. */
    method SetCurrent(v: Option<T>)
      requires Valid()
      modifies store`slots
      ensures Valid()
      ensures v.None? ==> store.slots == old(store.slots) - {handle}
      ensures v.Some? ==> store.slots == old(store.slots)[handle := Scalar(v.value)]
    {
      store.SetCurrent(handle, if v.Some? then Some(Scalar(v.value)) else None);
    }
  }

  /** `liveArray(iterator, key)`: the slot `LIVE-ARRAY_<key>`, seeded with `[]`. */
  class LiveArray<T> {
    const store: LiveCacheStore<Stored<T>>
    const handle: StateKey
    var phase: Phase
    var returnCalls: nat

    ghost predicate Valid()
      reads this, store
    {
      store.Valid() && (handle.Symbol? ==> handle.id < store.symbols)
    }

    /** An absent slot starts as the empty array; a slot already there is kept. */
    constructor(store: LiveCacheStore<Stored<T>>, key: Option<string>)
      requires store.Valid()
      modifies store
      ensures Valid()
      ensures this.store == store && handle == SlotKey("LIVE-ARRAY", key, old(store.symbols))
      ensures store.slots == if handle in old(store.slots) then old(store.slots) else old(store.slots)[handle := Items([])]
      ensures phase == Idle && returnCalls == 0
    {
      this.store := store;
      var h := store.NewState("LIVE-ARRAY", key, Some(Items([])));
      handle := h;
      phase := Idle;
      returnCalls := 0;
    }

    /** `get current()` */
    function Current(): (r: Option<Stored<T>>)
      reads this, store
      ensures r.Some? <==> handle in store.slots
      ensures r.Some? ==> r.value == store.slots[handle]
    {
      store.Current(handle)
    }

    method Mount()
      requires phase == Idle
      modifies this`phase
      ensures phase == Iterating
    {
      phase := Iterating;
    }

    /** The loop consumes one item: an array replaces the slot, anything else is appended to it. */
    method Receive(item: Item<T>)
      requires Valid() && phase == Iterating
      modifies this`phase, store`slots
      ensures Valid()
      ensures var (slot, going) := ArrayRun(old(Current()), [item]);
        && store.slots == (if slot.Some? then old(store.slots)[handle := slot.value] else old(store.slots))
        && phase == (if going then Iterating else Ended)
    {
      match item {
        case Many(values) =>
          store.SetCurrent(handle, Some(Items(values)));
        case Single(x) =>
          if handle in store.slots && store.slots[handle].Items? {
            store.SetCurrent(handle, Some(Items(store.slots[handle].values + [x])));
          } else {
            phase := Ended;
          }
      }
      assert [item][1..] == [];
    }

    /** The loop consumes `items`, stopping early only when a spread throws. */
    method Consume(items: seq<Item<T>>)
      requires Valid() && phase == Iterating
      modifies this`phase, store`slots
      ensures Valid()
      ensures var (slot, going) := ArrayRun(old(Current()), items);
        && store.slots == (if slot.Some? then old(store.slots)[handle := slot.value] else old(store.slots))
        && phase == (if going then Iterating else Ended)
    {
      var i := 0;
      while i < |items| && phase == Iterating
        invariant 0 <= i <= |items| && Valid()
        invariant phase == Iterating || phase == Ended
        invariant phase == Iterating ==> ArrayRun(Current(), items[i..]) == ArrayRun(old(Current()), items)
        invariant phase == Ended ==> ArrayRun(old(Current()), items) == (Current(), false)
        invariant Current().Some? ==> store.slots == old(store.slots)[handle := Current().value]
        invariant Current().None? ==> store.slots == old(store.slots)
      {
        assert items[i..][1..] == items[i + 1..];
        Receive(items[i]);
        assert [items[i]][1..] == [];
        i := i + 1;
      }
    }

    method EndIteration()
      requires phase == Iterating
      modifies this`phase
      ensures phase == Ended
    {
      phase := Ended;
    }

    /** The cleanup calls the iterator's `return()`, when it has one. */
    method Unmount(hasReturn: bool)
      modifies this`returnCalls
      ensures returnCalls == old(returnCalls) + if hasReturn then 1 else 0
    {
      if hasReturn {
        returnCalls := returnCalls + 1;
      }
    }

    /** `set current(v)` */
    method SetCurrent(v: seq<T>)
      requires Valid()
      modifies store`slots
      ensures Valid()
      ensures store.slots == old(store.slots)[handle := Items(v)]
    {
      store.SetCurrent(handle, Some(Items(v)));
    }
  }
}
