/** Small value types shared by every part of the client layer. */
module Options {

  /** A value that may be absent: JavaScript's `T | undefined`. */
  datatype Option<+T> = None | Some(value: T)
}

/** Keys of the reactive caches: a JavaScript `string | symbol`. */
module StateKeys {

  /** `Name(s)` is a string key; `Symbol(id)` is the `id`-th symbol minted by `Symbol()`. */
  datatype StateKey = Name(text: string) | Symbol(id: nat)
}

/**
 * Time-to-live windows. A window is a number of milliseconds or `Infinity`,
 * and an entry is past its window when more milliseconds than the window
 * have gone by since it was last updated.
 */
module Ttl {

  datatype Lifetime = Finite(ms: nat) | Forever

  /** `window !== Infinity && now - lastUpdated > window` */
  predicate Elapsed(lastUpdated: nat, window: Lifetime, now: nat)
  {
    window.Finite? && now - lastUpdated > window.ms
  }

  /** A window that has elapsed stays elapsed as the clock moves on, and a fresh write is never past it. */
  lemma ElapsedIsMonotone(lastUpdated: nat, window: Lifetime, now: nat, later: nat)
    requires Elapsed(lastUpdated, window, now) && now <= later
    ensures Elapsed(lastUpdated, window, later)
    ensures !Elapsed(later, window, later)
  {
  }
}

/**
 * An insertion-ordered map, the semantics of a JavaScript `Map`: iteration
 * visits keys in the order they were first inserted, overwriting a key keeps
 * its place, and deleting a key removes it from the order.
 */
module OrderedMaps {
  import opened Options

  datatype OrderedMap<K, V> = OrderedMap(order: seq<K>, items: map<K, V>)
  {
    /** The order lists every key exactly once. */
    ghost predicate Valid()
    {
      && Distinct(order)
      && (forall k | k in items :: k in order)
      && (forall i | 0 <= i < |order| :: order[i] in items)
    }
  }

  ghost predicate Distinct<K>(s: seq<K>)
  {
    forall i, j :: 0 <= i < j < |s| ==> s[i] != s[j]
  }

  function Empty<K, V>(): (m: OrderedMap<K, V>)
    ensures m.Valid() && m.order == [] && m.items == map[]
  {
    OrderedMap([], map[])
  }

  /** `m.get(k)` */
  function Get<K, V>(m: OrderedMap<K, V>, k: K): (r: Option<V>)
    ensures r.Some? <==> k in m.items
    ensures r.Some? ==> r.value == m.items[k]
  {
    if k in m.items then Some(m.items[k]) else None
  }

  /** `m.set(k, v)`: an existing key keeps its position, a new key goes last. */
  function Put<K, V>(m: OrderedMap<K, V>, k: K, v: V): (r: OrderedMap<K, V>)
    requires m.Valid()
    ensures r.Valid()
    ensures r.items == m.items[k := v]
    ensures r.order == if k in m.items then m.order else m.order + [k]
  {
    if k in m.items then OrderedMap(m.order, m.items[k := v])
    else OrderedMap(m.order + [k], m.items[k := v])
  }

  /** The sequence `s` with every occurrence of `k` left out. */
  function Without<K(==)>(s: seq<K>, k: K): (r: seq<K>)
    ensures forall x | x in r :: x in s && x != k
    ensures forall i | 0 <= i < |s| && s[i] != k :: s[i] in r
    ensures |r| <= |s|
  {
    if s == [] then []
    else if s[0] == k then Without(s[1..], k)
    else [s[0]] + Without(s[1..], k)
  }

  lemma {:induction false} WithoutKeepsDistinct<K>(s: seq<K>, k: K)
    requires Distinct(s)
    ensures Distinct(Without(s, k))
  {
    if s != [] {
      var tail := s[1..];
      assert Distinct(tail) by {
        forall i, j | 0 <= i < j < |tail|
          ensures tail[i] != tail[j]
        {
          assert tail[i] == s[i + 1] && tail[j] == s[j + 1];
        }
      }
      WithoutKeepsDistinct(tail, k);
      if s[0] != k {
        var t := Without(tail, k);
        forall m | 0 <= m < |tail|
          ensures tail[m] != s[0]
        {
          assert tail[m] == s[m + 1];
        }
        forall j | 0 <= j < |t|
          ensures t[j] != s[0]
        {
          assert t[j] in tail;
        }
        var r := [s[0]] + t;
        forall i, j | 0 <= i < j < |r|
          ensures r[i] != r[j]
        {
          if i == 0 {
            assert r[j] == t[j - 1];
          } else {
            assert r[i] == t[i - 1] && r[j] == t[j - 1];
          }
        }
      }
    }
  }

  /** Leaving `k` out works piecewise, so the keys that remain keep their relative order. */
  lemma {:induction false} WithoutConcat<K>(a: seq<K>, b: seq<K>, k: K)
    ensures Without(a + b, k) == Without(a, k) + Without(b, k)
  {
    if a == [] {
      assert a + b == b;
    } else {
      assert (a + b)[1..] == a[1..] + b;
      WithoutConcat(a[1..], b, k);
    }
  }

  /** Deleting a key that occurs only at position `i`, leaves the keys before it and the keys after it, in order. */
  lemma {:induction false} WithoutAt<K>(s: seq<K>, i: nat)
    requires i < |s| && s[i] !in s[..i] && s[i] !in s[i + 1..]
    ensures Without(s, s[i]) == s[..i] + s[i + 1..]
  {
    var k, pre, post := s[i], s[..i], s[i + 1..];
    assert s == (pre + [k]) + post;
    calc {
      Without(s, k);
      { WithoutConcat(pre + [k], post, k); }
      Without(pre + [k], k) + Without(post, k);
      { WithoutConcat(pre, [k], k); }
      Without(pre, k) + Without([k], k) + Without(post, k);
      { WithoutAbsent(pre, k); WithoutAbsent(post, k); assert Without([k], k) == []; }
      pre + [] + post;
    }
  }

  /** In a duplicate-free sequence the key at `i` occurs neither before nor after `i`. */
  lemma {:induction false} NotElsewhere<K>(s: seq<K>, i: nat)
    requires Distinct(s) && i < |s|
    ensures s[i] !in s[..i] && s[i] !in s[i + 1..]
  {
    forall x | x in s[..i]
      ensures x != s[i]
    {
      var j :| 0 <= j < i && s[..i][j] == x;
      assert s[j] == x;
    }
    var post := s[i + 1..];
    forall x | x in post
      ensures x != s[i]
    {
      var j :| 0 <= j < |post| && post[j] == x;
      assert s[i + 1 + j] == x;
    }
  }

  lemma {:induction false} WithoutAbsent<K>(s: seq<K>, k: K)
    requires k !in s
    ensures Without(s, k) == s
  {
    if s != [] {
      WithoutAbsent(s[1..], k);
    }
  }

  /** Deleting the first key of a duplicate-free order drops exactly that key. */
  lemma WithoutFirst<K>(s: seq<K>)
    requires Distinct(s) && s != []
    ensures Without(s, s[0]) == s[1..]
  {
    assert s[0] !in s[1..] by {
      forall j | 0 <= j < |s[1..]|
        ensures s[1..][j] != s[0]
      {
        assert s[1..][j] == s[j + 1];
      }
    }
    WithoutAbsent(s[1..], s[0]);
  }

  /** `m.delete(k)` */
  function Remove<K(==), V>(m: OrderedMap<K, V>, k: K): (r: OrderedMap<K, V>)
    requires m.Valid()
    ensures r.Valid()
    ensures r.items == m.items - {k}
    ensures k !in m.items ==> r == m
    ensures k in m.items ==> exists i :: 0 <= i < |m.order| && m.order[i] == k && r.order == m.order[..i] + m.order[i + 1..]
  {
    if k !in m.items then
      WithoutAbsent(m.order, k);
      m
    else
      RemoveValid(m, k);
      OrderedMap(Without(m.order, k), m.items - {k})
  }

  lemma RemoveValid<K, V>(m: OrderedMap<K, V>, k: K)
    requires m.Valid() && k in m.items
    ensures OrderedMap(Without(m.order, k), m.items - {k}).Valid()
    ensures exists i :: 0 <= i < |m.order| && m.order[i] == k && Without(m.order, k) == m.order[..i] + m.order[i + 1..]
  {
    var n :| 0 <= n < |m.order| && m.order[n] == k;
    NotElsewhere(m.order, n);
    WithoutAt(m.order, n);
    WithoutKeepsDistinct(m.order, k);
    var r := OrderedMap(Without(m.order, k), m.items - {k});
    forall x | x in r.items
      ensures x in r.order
    {
      var i :| 0 <= i < |m.order| && m.order[i] == x;
    }
    forall i | 0 <= i < |r.order|
      ensures r.order[i] in r.items
    {
      assert r.order[i] in r.order;
    }
  }
}
