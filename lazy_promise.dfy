/**
 * `LazyPromise`: a promise-like wrapper around a factory. Nothing runs at
 * construction; the first `then`/`catch`/`finally` calls the factory and
 * memoises its promise, later ones reuse it, and `run()` always calls the
 * factory again and replaces the memo.
 *
 * A promise is identified by the number of the factory call that produced it:
 * promise `n` comes from the `(n+1)`-th call.
 */
module Lazy {
  import opened Options

  /** The two things a caller can do to a lazy promise: subscribe to it, or force a new run. */
  datatype Op = Access | Rerun

  /** The handler a subscription attaches. */
  datatype Handler = Then | Catch | Finally

  /** A subscription: the handler and the factory promise it is attached to. */
  datatype Chained = Chained(handler: Handler, on: nat)

  /**
   * The number of factory calls and the memoised promise after the operations
   * `ops`, applied one after another to a fresh lazy promise.
   */
  function Replay(ops: seq<Op>): (s: (nat, Option<nat>))
    ensures s.1.None? <==> s.0 == 0
    ensures s.1.Some? ==> s.1.value == s.0 - 1
  {
    if ops == [] then (0, None)
    else
      var (calls, memo) := Replay(ops[..|ops| - 1]);
      match ops[|ops| - 1]
      case Access => if memo.None? then (calls + 1, Some(calls)) else (calls, memo)
      case Rerun => (calls + 1, Some(calls))
  }

  /** The number of `run()` calls among `ops`. */
  function Reruns(ops: seq<Op>): nat
  {
    if ops == [] then 0
    else Reruns(ops[..|ops| - 1]) + if ops[|ops| - 1] == Rerun then 1 else 0
  }

  lemma {:induction false} NoRerunsMeansNone(ops: seq<Op>)
    ensures Reruns(ops) == 0 <==> Rerun !in ops
  {
    if ops != [] {
      NoRerunsMeansNone(ops[..|ops| - 1]);
      assert ops == ops[..|ops| - 1] + [ops[|ops| - 1]];
    }
  }

  /** Some subscription happened before the first `run()`. */
  predicate AccessBeforeRerun(ops: seq<Op>)
  {
    exists i | 0 <= i < |ops| :: ops[i] == Access && Rerun !in ops[..i]
  }

  /**
   * The factory is called once per `run()`, plus once more when a
   * subscription came before every `run()`.
   */
  lemma {:induction false} FactoryCallCount(ops: seq<Op>)
    ensures Replay(ops).0 == Reruns(ops) + if AccessBeforeRerun(ops) then 1 else 0
  {
    if ops != [] {
      var prefix := ops[..|ops| - 1];
      var last := |ops| - 1;
      FactoryCallCount(prefix);
      NoRerunsMeansNone(prefix);
      assert ops[..last] == prefix;
      assert AccessBeforeRerun(prefix) ==> AccessBeforeRerun(ops) by {
        if AccessBeforeRerun(prefix) {
          var i :| 0 <= i < |prefix| && prefix[i] == Access && Rerun !in prefix[..i];
          assert ops[..i] == prefix[..i];
        }
      }
      assert AccessBeforeRerun(ops) ==> AccessBeforeRerun(prefix) || (ops[last] == Access && Rerun !in prefix) by {
        if AccessBeforeRerun(ops) {
          var i :| 0 <= i < |ops| && ops[i] == Access && Rerun !in ops[..i];
          if i < last {
            assert prefix[..i] == ops[..i];
          }
        }
      }
      if ops[last] == Access && Rerun !in prefix {
        assert Rerun !in ops[..last];
      }
    }
  }

  /** After a `run()`, every later subscription attaches to the promise of that run. */
  lemma {:induction false} SubscriptionsSeeLatestRun(ops: seq<Op>, k: nat)
    ensures var afterRun := Replay(ops + [Rerun]);
      && afterRun.1 == Some(Replay(ops).0)
      && Replay(ops + [Rerun] + seq(k, _ => Access)) == afterRun
  {
    if k > 0 {
      SubscriptionsSeeLatestRun(ops, k - 1);
      var s := ops + [Rerun] + seq(k, _ => Access);
      assert s[..|s| - 1] == ops + [Rerun] + seq(k - 1, _ => Access);
    } else {
      assert (ops + [Rerun])[..|ops|] == ops;
      assert ops + [Rerun] + seq(k, _ => Access) == ops + [Rerun];
    }
  }

  class LazyPromise {
    /** `key`: fixed by the constructor. */
    const key: string
    /** `_promise`: the memoised promise, if any. */
    var memo: Option<nat>
    /** How many times `factory` has been called. */
    var factoryCalls: nat
    /** The operations applied so far. */
    ghost var history: seq<Op>

    ghost predicate Valid()
      reads this
    {
      (factoryCalls, memo) == Replay(history)
    }

    /** Construction does not call the factory. */
    constructor(key: string)
      ensures Valid()
      ensures this.key == key && memo == None && factoryCalls == 0 && history == []
    {
      this.key := key;
      memo := None;
      factoryCalls := 0;
      history := [];
    }

    /** The private `promise` getter: call the factory only when nothing is memoised. */
    method Promise() returns (p: nat)
      requires Valid()
      modifies this
      ensures Valid() && history == old(history) + [Access]
      ensures old(memo).Some? ==> p == old(memo).value && factoryCalls == old(factoryCalls)
      ensures old(memo).None? ==> p == old(factoryCalls) && factoryCalls == old(factoryCalls) + 1
      ensures memo == Some(p)
    {
      history := history + [Access];
      assert history[..|history| - 1] == old(history);
      if memo.None? {
        memo := Some(factoryCalls);
        factoryCalls := factoryCalls + 1;
      }
      p := memo.value;
    }

    /** `run()`: always a new factory call, which replaces the memo. */
    method Run() returns (p: nat)
      requires Valid()
      modifies this
      ensures Valid() && history == old(history) + [Rerun]
      ensures p == old(factoryCalls) && factoryCalls == old(factoryCalls) + 1
      ensures memo == Some(p)
    {
      history := history + [Rerun];
      assert history[..|history| - 1] == old(history);
      p := factoryCalls;
      memo := Some(p);
      factoryCalls := factoryCalls + 1;
    }

    /** `then`, `catch` and `finally`: attach the handler to the memoised promise. */
    method Subscribe(handler: Handler) returns (c: Chained)
      requires Valid()
      modifies this
      ensures Valid() && history == old(history) + [Access]
      ensures c.handler == handler && memo == Some(c.on)
      ensures old(memo).Some? ==> c.on == old(memo).value && factoryCalls == old(factoryCalls)
      ensures old(memo).None? ==> c.on == old(factoryCalls) && factoryCalls == old(factoryCalls) + 1
    {
      var p := Promise();
      c := Chained(handler, p);
    }
  }
}
