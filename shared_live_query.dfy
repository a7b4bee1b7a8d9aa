/**
 * `createLiveQuery`: one iterator shared by every mounted consumer. The
 * first mount starts the iteration, the last unmount asks the iterator to
 * return, and the iteration clears its own flags when it ends.
 *
 * The awaited steps are explicit: `IteratorReady` is the iterator promise
 * resolving, `Yield` one item, `Finish` the end of the loop (done, error or
 * rejected promise alike).
 */
module SharedLive {
  import opened Options

  datatype Lifecycle = Mounted | Unmounted

  /** `refCount` after the lifecycle events `evs`. */
  function RefCount(evs: seq<Lifecycle>): int
  {
    if evs == [] then 0
    else RefCount(evs[..|evs| - 1]) + if evs[|evs| - 1] == Mounted then 1 else -1
  }

  /** The `start` (true) and `stop` (false) calls the events `evs` make, in order. */
  function Triggers(evs: seq<Lifecycle>): seq<bool>
  {
    if evs == [] then []
    else
      var before := evs[..|evs| - 1];
      Triggers(before) +
        if evs[|evs| - 1] == Mounted && RefCount(before) == 0 then [true]
        else if evs[|evs| - 1] == Unmounted && RefCount(before) == 1 then [false]
        else []
  }

  /** Every consumer unmounts at most once per mount: the count never drops below zero. */
  ghost predicate Balanced(evs: seq<Lifecycle>)
  {
    forall k | 0 <= k <= |evs| :: RefCount(evs[..k]) >= 0
  }

  /**
   * While mounts and unmounts balance, `start` and `stop` calls alternate,
   * beginning with `start`, and the last call was `start` exactly when some
   * consumer is mounted.
   */
  lemma {:induction false} StartsAndStopsAlternate(evs: seq<Lifecycle>)
    requires Balanced(evs)
    ensures forall i | 0 <= i < |Triggers(evs)| :: Triggers(evs)[i] == (i % 2 == 0)
    ensures RefCount(evs) > 0 <==> |Triggers(evs)| % 2 == 1
  {
    if evs != [] {
      var before := evs[..|evs| - 1];
      assert Balanced(before) by {
        forall k | 0 <= k <= |before|
          ensures RefCount(before[..k]) >= 0
        {
          assert before[..k] == evs[..k];
        }
      }
      StartsAndStopsAlternate(before);
      assert evs[..|evs|] == evs;
      assert evs[..|evs| - 1] == before;
    }
  }

  class SharedLiveQuery<T> {
    var value: Option<T>
    var refCount: int
    /** `iterator !== null` */
    var hasIterator: bool
    var isIterating: bool
    /** How many times `start` got past its guard. */
    var starts: nat
    /** How many times the iterator's `return()` has been called. */
    var returnCalls: nat
    /** The mounts and unmounts so far. */
    ghost var history: seq<Lifecycle>

    /** The count is mounts minus unmounts, and an iterator is only held while iterating. */
    ghost predicate Valid()
      reads this
    {
      refCount == RefCount(history) && (hasIterator ==> isIterating)
    }

    constructor()
      ensures Valid()
      ensures value == None && refCount == 0 && !hasIterator && !isIterating
      ensures starts == 0 && returnCalls == 0 && history == []
    {
      value := None;
      refCount := 0;
      hasIterator := false;
      isIterating := false;
      starts := 0;
      returnCalls := 0;
      history := [];
    }

    /** The synchronous part of `start`: nothing while an iteration is running. */
    method Start()
      requires Valid()
      modifies this`isIterating, this`starts
      ensures Valid()
      ensures old(isIterating) ==> isIterating && starts == old(starts)
      ensures !old(isIterating) ==> isIterating && starts == old(starts) + 1
    {
      if isIterating {
        return;
      }
      isIterating := true;
      starts := starts + 1;
    }

    /** `iteratorPromise` resolved: the iterator is held. */
    method IteratorReady()
      requires Valid() && isIterating
      modifies this`hasIterator
      ensures Valid() && hasIterator
    {
      hasIterator := true;
    }

    /** The loop consumes one item. */
    method Yield(x: T)
      requires hasIterator
      modifies this`value
      ensures value == Some(x)
    {
      value := Some(x);
    }

    /** The `finally` of `start`: whatever ended the loop, the flags are cleared and the value kept. */
    method Finish()
      requires Valid() && isIterating
      modifies this`isIterating, this`hasIterator
      ensures Valid() && !isIterating && !hasIterator
    {
      isIterating := false;
      hasIterator := false;
    }

    /** `stop`: call `return()` on the iterator if one is held and it has a `return` method. */
    method Stop(hasReturn: bool)
      modifies this`returnCalls
      ensures returnCalls == old(returnCalls) + if hasIterator && hasReturn then 1 else 0
    {
      if hasIterator && hasReturn {
        returnCalls := returnCalls + 1;
      }
    }

    /** A consumer mounts; only the mount that brings the count from 0 to 1 calls `start`. */
    method Mount() returns (startCalled: bool)
      requires Valid()
      modifies this`refCount, this`history, this`isIterating, this`starts
      ensures Valid()
      ensures refCount == old(refCount) + 1 && history == old(history) + [Mounted]
      ensures startCalled <==> old(refCount) == 0
      ensures Triggers(history) == Triggers(old(history)) + if startCalled then [true] else []
      ensures startCalled && !old(isIterating) ==> isIterating && starts == old(starts) + 1
      ensures !(startCalled && !old(isIterating)) ==> isIterating == old(isIterating) && starts == old(starts)
    {
      refCount := refCount + 1;
      history := history + [Mounted];
      assert history[..|history| - 1] == old(history);
      startCalled := refCount == 1;
      if startCalled {
        Start();
      }
    }

    /** A consumer unmounts; only the unmount that brings the count from 1 to 0 calls `stop`. */
    method Unmount(hasReturn: bool) returns (stopCalled: bool)
      requires Valid()
      modifies this`refCount, this`history, this`returnCalls
      ensures Valid()
      ensures refCount == old(refCount) - 1 && history == old(history) + [Unmounted]
      ensures stopCalled <==> old(refCount) == 1
      ensures Triggers(history) == Triggers(old(history)) + if stopCalled then [false] else []
      ensures returnCalls == old(returnCalls) + if stopCalled && hasIterator && hasReturn then 1 else 0
    {
      refCount := refCount - 1;
      history := history + [Unmounted];
      assert history[..|history| - 1] == old(history);
      stopCalled := refCount == 0;
      if stopCalled {
        Stop(hasReturn);
      }
    }

    /** `set current(v)` */
    method SetCurrent(v: Option<T>)
      modifies this`value
      ensures value == v
    {
      value := v;
    }
  }
}
