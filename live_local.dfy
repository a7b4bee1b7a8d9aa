/**
 * The older `live` and `liveArray`: the same update rules over a local value
 * instead of a shared slot. The background loop starts as soon as the state
 * is created, and there is no unmount handling.
 */
module LiveLocal {
  import opened Options
  import opened LiveRule

  /** `live(iterator)`: the last item consumed is the current value. */
  class LocalLive<T> {
    var value: Option<T>
    /** The background loop is still consuming the iterator. */
    var iterating: bool

    constructor()
      ensures value == None && iterating
    {
      value := None;
      iterating := true;
    }

    /** The loop consumes one item; an `undefined` item resets the value. */
    method Receive(x: Option<T>)
      requires iterating
      modifies this`value
      ensures value == x
    {
      value := x;
    }

    /** The loop consumes `xs`: the current value is the last of them, or unchanged when there are none. */
    method Consume(xs: seq<Option<T>>)
      requires iterating
      modifies this`value
      ensures xs == [] ==> value == old(value)
      ensures xs != [] ==> value == xs[|xs| - 1]
    {
      var i := 0;
      while i < |xs|
        invariant 0 <= i <= |xs|
        invariant i == 0 ==> value == old(value)
        invariant i > 0 ==> value == xs[i - 1]
      {
        Receive(xs[i]);
        i := i + 1;
      }
    }

    /** The iterator finished or threw: the loop ends and the value stays as it was. */
    method EndIteration()
      requires iterating
      modifies this`iterating
      ensures !iterating
    {
      iterating := false;
    }

    /** `set current(v)` */
    method SetCurrent(v: Option<T>)
      modifies this`value
      ensures value == v
    {
      value := v;
    }
  }

  /** `liveArray(iterator)`: starts at `[]`; arrays replace, single items are appended. */
  class LocalLiveArray<T> {
    var value: seq<T>
    var iterating: bool

    constructor()
      ensures value == [] && iterating
    {
      value := [];
      iterating := true;
    }

    method Receive(item: Item<T>)
      requires iterating
      modifies this`value
      ensures value == ApplyItem(old(value), item)
    {
      match item {
        case Many(values) => value := values;
        case Single(x) => value := value + [x];
      }
    }

    /** The loop consumes `items`: the value is their fold over the value it had. */
    method Consume(items: seq<Item<T>>)
      requires iterating
      modifies this`value
      ensures value == Fold(old(value), items)
    {
      var i := 0;
      while i < |items|
        invariant 0 <= i <= |items|
        invariant value == Fold(old(value), items[..i])
      {
        Receive(items[i]);
        assert items[..i + 1][..i] == items[..i];
        i := i + 1;
      }
      assert items[..|items|] == items;
    }

    method EndIteration()
      requires iterating
      modifies this`iterating
      ensures !iterating
    {
      iterating := false;
    }

    /** `set current(v)` */
    method SetCurrent(v: seq<T>)
      modifies this`value
      ensures value == v
    {
      value := v;
    }
  }
}
