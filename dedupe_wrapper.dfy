/**
 * `dedupe(fn)`: a wrapper that collects the calls made before its deferred
 * flush runs, calls `fn` once with the first caller's arguments, and hands the
 * single outcome to every caller of that batch.
 */
module DedupeWrapper {

  /** One pending call: its arguments and the promise it returned. */
  datatype QueueItem<A> = QueueItem(args: A, caller: nat)

  /** What `fn(...args)` did: returned (or resolved to) a value, threw, or returned a promise that rejected. */
  datatype Outcome<R, E> = Returned(value: R) | Threw(error: E) | Rejected(error: E)

  /** A resolve or reject callback invoked for one caller. */
  datatype Settlement<R, E> = Resolve(caller: nat, value: R) | Reject(caller: nat, error: E)

  /**
   * The callbacks the flush invokes for `batch`: every caller is resolved with
   * the one value, or every caller is rejected with the one error.
   */
  method SettleBatch<A, R, E>(batch: seq<QueueItem<A>>, outcome: Outcome<R, E>) returns (settled: seq<Settlement<R, E>>)
    ensures |settled| == |batch|
    ensures outcome.Returned? ==> forall i :: 0 <= i < |batch| ==> settled[i] == Resolve(batch[i].caller, outcome.value)
    ensures !outcome.Returned? ==> forall i :: 0 <= i < |batch| ==> settled[i] == Reject(batch[i].caller, outcome.error)
  {
    settled := [];
    var i := 0;
    while i < |batch|
      invariant 0 <= i <= |batch|
      invariant |settled| == i
      invariant outcome.Returned? ==> forall k :: 0 <= k < i ==> settled[k] == Resolve(batch[k].caller, outcome.value)
      invariant !outcome.Returned? ==> forall k :: 0 <= k < i ==> settled[k] == Reject(batch[k].caller, outcome.error)
    {
      var s := if outcome.Returned? then Resolve(batch[i].caller, outcome.value) else Reject(batch[i].caller, outcome.error);
      settled := settled + [s];
      i := i + 1;
    }
  }

  class Deduper<A, R, E> {
    /** `queue`: the calls waiting for the next flush. */
    var queue: seq<QueueItem<A>>
    /** `scheduled`: a flush has been deferred and has not run yet. */
    var scheduled: bool
    /** The arguments `fn` has been called with, one entry per flush. */
    var invocations: seq<A>
    /** Every resolve and reject callback invoked so far, in order. */
    var settled: seq<Settlement<R, E>>

    /** A flush is pending exactly when some call is waiting for it. */
    ghost predicate Valid()
      reads this
    {
      scheduled <==> queue != []
    }

    constructor()
      ensures Valid()
      ensures queue == [] && !scheduled && invocations == [] && settled == []
    {
      queue := [];
      scheduled := false;
      invocations := [];
      settled := [];
    }

    /**
     * A call of the wrapped function: it always queues one item, and it
     * defers a flush only when none is pending.
     */
    method Call(args: A, caller: nat) returns (deferredFlush: bool)
      requires Valid()
      modifies this`queue, this`scheduled
      ensures Valid()
      ensures queue == old(queue) + [QueueItem(args, caller)]
      ensures deferredFlush == !old(scheduled)
      ensures scheduled
    {
      queue := queue + [QueueItem(args, caller)];
      deferredFlush := false;
      if !scheduled {
        scheduled := true;
        deferredFlush := true;
      }
    }

    /**
     * The deferred flush: it takes the whole queue, resets the queue and the
     * flag before calling `fn`, calls `fn` once with the first caller's
     * arguments, and settles every caller of the batch with `fn`'s outcome.
     */
    method Flush(outcome: Outcome<R, E>) returns (batch: seq<QueueItem<A>>)
      requires Valid() && scheduled
      modifies this
      ensures Valid()
      ensures queue == [] && !scheduled
      ensures batch == old(queue) && batch != []
      ensures invocations == old(invocations) + [batch[0].args]
      ensures |settled| == |old(settled)| + |batch| && settled[..|old(settled)|] == old(settled)
      ensures outcome.Returned? ==> forall i :: 0 <= i < |batch| ==>
        settled[|old(settled)| + i] == Resolve(batch[i].caller, outcome.value)
      ensures !outcome.Returned? ==> forall i :: 0 <= i < |batch| ==>
        settled[|old(settled)| + i] == Reject(batch[i].caller, outcome.error)
    {
      batch := queue;
      queue := [];
      scheduled := false;
      invocations := invocations + [batch[0].args];
      var callbacks := SettleBatch(batch, outcome);
      settled := settled + callbacks;
    }
  }

  /** Every caller of a flushed batch receives the identical value, or the identical error. */
  lemma BatchSharesOneOutcome<A, R, E>(batch: seq<QueueItem<A>>, outcome: Outcome<R, E>, settled: seq<Settlement<R, E>>, i: nat, j: nat)
    requires |settled| == |batch| && i < |batch| && j < |batch|
    requires outcome.Returned? ==> forall k :: 0 <= k < |batch| ==> settled[k] == Resolve(batch[k].caller, outcome.value)
    requires !outcome.Returned? ==> forall k :: 0 <= k < |batch| ==> settled[k] == Reject(batch[k].caller, outcome.error)
    ensures settled[i].Resolve? == settled[j].Resolve?
    ensures settled[i].Resolve? ==> settled[i].value == settled[j].value
    ensures settled[i].Reject? ==> settled[i].error == settled[j].error
  {
  }
}
