/**
 * The update rule of `liveArray`: an item that is an array replaces the whole
 * current array, any other item is appended to it.
 */
module LiveRule {
  import opened Options

  /** An item of a `T | T[]` stream. */
  datatype Item<T> = Single(value: T) | Many(values: seq<T>)

  /** One item applied to the current array. */
  function ApplyItem<T>(current: seq<T>, item: Item<T>): (r: seq<T>)
    ensures item.Many? ==> r == item.values
    ensures item.Single? ==> |r| == |current| + 1 && r[..|current|] == current && r[|current|] == item.value
  {
    match item
    case Many(values) => values
    case Single(value) => current + [value]
  }

  /** The array after every item of `items`, in order. */
  function Fold<T>(current: seq<T>, items: seq<Item<T>>): seq<T>
  {
    if items == [] then current
    else ApplyItem(Fold(current, items[..|items| - 1]), items[|items| - 1])
  }

  /** The position of the last array item, if any. */
  function LastMany<T>(items: seq<Item<T>>): (j: Option<nat>)
    ensures j.Some? ==> j.value < |items| && items[j.value].Many? && forall k | j.value < k < |items| :: items[k].Single?
    ensures j.None? ==> forall k | 0 <= k < |items| :: items[k].Single?
  {
    if items == [] then None
    else if items[|items| - 1].Many? then Some(|items| - 1)
    else LastMany(items[..|items| - 1])
  }

  /** The values of the single items, in order. */
  function SingleValues<T>(items: seq<Item<T>>): seq<T>
  {
    if items == [] then []
    else SingleValues(items[..|items| - 1]) + if items[|items| - 1].Single? then [items[|items| - 1].value] else []
  }

  /**
   * After a run of items the array is the last array item, or the starting
   * array if there is none, followed by every single item that came later.
   */
  lemma {:induction false} FoldIsLastArrayThenAppends<T>(current: seq<T>, items: seq<Item<T>>)
    ensures LastMany(items).None? ==> Fold(current, items) == current + SingleValues(items)
    ensures LastMany(items).Some? ==> var j := LastMany(items).value;
      Fold(current, items) == items[j].values + SingleValues(items[j + 1..])
  {
    if items != [] {
      var n := |items| - 1;
      FoldIsLastArrayThenAppends(current, items[..n]);
      if items[n].Many? {
        assert items[n + 1..] == [];
      } else {
        SingleLast(current, items);
      }
    }
  }

  lemma SingleLast<T>(current: seq<T>, items: seq<Item<T>>)
    requires items != [] && items[|items| - 1].Single?
    requires var p := items[..|items| - 1];
      && (LastMany(p).None? ==> Fold(current, p) == current + SingleValues(p))
      && (LastMany(p).Some? ==> Fold(current, p) == p[LastMany(p).value].values + SingleValues(p[LastMany(p).value + 1..]))
    ensures LastMany(items).None? ==> Fold(current, items) == current + SingleValues(items)
    ensures LastMany(items).Some? ==> var j := LastMany(items).value;
      Fold(current, items) == items[j].values + SingleValues(items[j + 1..])
  {
    var n := |items| - 1;
    var p, x := items[..n], items[n].value;
    assert LastMany(items) == LastMany(p);
    assert Fold(current, items) == Fold(current, p) + [x];
    if LastMany(p).Some? {
      var j := LastMany(p).value;
      SingleValuesAfter(items, j);
      assert p[j] == items[j];
    } else {
      assert SingleValues(items) == SingleValues(p) + [x];
    }
  }

  /** The single values after position `j` grow by the last item when it is a single one. */
  lemma SingleValuesAfter<T>(items: seq<Item<T>>, j: nat)
    requires j < |items| - 1 && items[|items| - 1].Single?
    ensures SingleValues(items[j + 1..]) == SingleValues(items[..|items| - 1][j + 1..]) + [items[|items| - 1].value]
  {
    var tail := items[j + 1..];
    assert tail[..|tail| - 1] == items[..|items| - 1][j + 1..];
    assert tail[|tail| - 1] == items[|items| - 1];
  }

  /** Appending never loses what was there: without array items, the start is a prefix of the result. */
  lemma AppendsPreservePrefix<T>(current: seq<T>, items: seq<Item<T>>)
    requires forall k | 0 <= k < |items| :: items[k].Single?
    ensures |Fold(current, items)| == |current| + |items|
    ensures Fold(current, items)[..|current|] == current
  {
    FoldIsLastArrayThenAppends(current, items);
    SingleValuesLength(items);
  }

  lemma {:induction false} SingleValuesLength<T>(items: seq<Item<T>>)
    requires forall k | 0 <= k < |items| :: items[k].Single?
    ensures |SingleValues(items)| == |items|
  {
    if items != [] {
      SingleValuesLength(items[..|items| - 1]);
    }
  }

  /** Folding one item first and the rest afterwards gives the same array. */
  lemma {:induction false} FoldFirst<T>(current: seq<T>, items: seq<Item<T>>)
    requires items != []
    ensures Fold(current, items) == Fold(ApplyItem(current, items[0]), items[1..])
  {
    if |items| > 1 {
      var n := |items| - 1;
      FoldFirst(current, items[..n]);
      assert items[..n][1..] == items[1..][..n - 1];
    } else {
      assert items[..0] == [] && items[1..] == [];
    }
  }
}
