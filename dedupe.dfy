/**
 * The request-deduplication plugin of the client link (`DedupeRequestsPlugin`).
 *
 * An interceptor either passes a request straight to the next link or parks it
 * in a per-group queue, merging it into an already parked request with the same
 * serialised shape. A deferred flush then starts one upstream call per parked
 * request and hands each waiter its own replica of the streamed response body.
 */
module Dedupe {
  import opened Options
  import opened OrderedMaps

  // ---------------------------------------------------------------- requests

  /** An abort signal of one caller, or the signal `toBatchAbortSignal` builds from several. */
  datatype Signal = CallerSignal(id: nat) | Batch(parts: seq<Option<Signal>>)

  /**
   * A request body. `Json` stands for any value `stringifyJSON` can serialise
   * (including no body); the other four are the payloads that bypass the plugin.
   */
  datatype Body = Json(value: string) | BlobBody | FormDataBody | SearchParamsBody | AsyncIteratorBody

  datatype Request = Request(
    verb: string,
    url: string,
    headers: seq<(string, string)>,
    body: Body,
    signal: Option<Signal>)

  /** `Omit<StandardRequest, 'signal'>`: the part of a request that is serialised for the equivalence test. */
  datatype Shape = Shape(body: Body, headers: seq<(string, string)>, verb: string, url: string)

  function ShapeOf(r: Request): Shape
  {
    Shape(r.body, r.headers, r.verb, r.url)
  }

  /** Two requests are merged when the serialisations of their shapes are equal. */
  predicate Equivalent(stringify: Shape -> string, a: Request, b: Request)
  {
    stringify(ShapeOf(a)) == stringify(ShapeOf(b))
  }

  /** Blob, FormData, URLSearchParams and async-iterator bodies are never deduplicated. */
  predicate OpaqueBody(b: Body)
  {
    !b.Json?
  }

  /** A caller-defined partition: a condition on the request and the context used upstream. */
  datatype Group = Group(condition: Request -> bool, context: nat)

  /** `groups.find(group => group.condition(options))`, as the index of the group found. */
  function FirstMatch(groups: seq<Group>, r: Request): (found: Option<nat>)
    ensures found.Some? ==> found.value < |groups| && groups[found.value].condition(r)
    ensures found.Some? ==> forall j :: 0 <= j < found.value ==> !groups[j].condition(r)
    ensures found.None? ==> forall j :: 0 <= j < |groups| ==> !groups[j].condition(r)
  {
    if groups == [] then None
    else if groups[0].condition(r) then Some(0)
    else match FirstMatch(groups[1..], r)
      case None => None
      case Some(i) => Some(i + 1)
  }

  // ------------------------------------------------------------ the queue

  /** Waiters are the resolve/reject pairs of the promises the interceptor returns. */
  type Waiter = nat

  /**
   * One distinct pending request of a group, with the signal, resolve and
   * reject of every caller merged into it, in arrival order.
   */
  datatype Entry = Entry(request: Request, signals: seq<Option<Signal>>, resolves: seq<Waiter>, rejects: seq<Waiter>)

  /** `#queue`: a `Map` from group to its pending entries, keyed by the group's index. */
  type Queue = OrderedMap<nat, seq<Entry>>

  /** The entry a first caller creates. */
  function Fresh(r: Request, w: Waiter): Entry
  {
    Entry(r, [r.signal], [w], [w])
  }

  /** The entry after one more equivalent caller has joined it. */
  function Join(e: Entry, r: Request, w: Waiter): Entry
  {
    Entry(e.request, e.signals + [r.signal], e.resolves + [w], e.rejects + [w])
  }

  ghost predicate WellFormed(e: Entry)
  {
    |e.signals| == |e.resolves| == |e.rejects| >= 1
  }

  /** No two pending entries of a group are equivalent. */
  ghost predicate NoEquivalentPair(stringify: Shape -> string, entries: seq<Entry>)
  {
    forall i, j :: 0 <= i < j < |entries| ==> !Equivalent(stringify, entries[i].request, entries[j].request)
  }

  ghost predicate GroupQueueOk(stringify: Shape -> string, entries: seq<Entry>)
  {
    && entries != []
    && (forall i :: 0 <= i < |entries| ==> WellFormed(entries[i]))
    && NoEquivalentPair(stringify, entries)
  }

  ghost predicate QueueOk(stringify: Shape -> string, groupCount: nat, q: Queue)
  {
    && q.Valid()
    && (forall g | g in q.items :: g < groupCount && GroupQueueOk(stringify, q.items[g]))
  }

  /** `queue.find(item => stringify(item) === stringify(request))`, as an index. */
  function FindEquivalent(stringify: Shape -> string, entries: seq<Entry>, r: Request): (found: Option<nat>)
    ensures found.Some? ==> found.value < |entries| && Equivalent(stringify, entries[found.value].request, r)
    ensures found.Some? ==> forall j :: 0 <= j < found.value ==> !Equivalent(stringify, entries[j].request, r)
    ensures found.None? ==> forall j :: 0 <= j < |entries| ==> !Equivalent(stringify, entries[j].request, r)
  {
    if entries == [] then None
    else if Equivalent(stringify, entries[0].request, r) then Some(0)
    else match FindEquivalent(stringify, entries[1..], r)
      case None => None
      case Some(i) => Some(i + 1)
  }

  /** The pending entries of group `g`, the empty list when the group has no queue yet. */
  function EntriesOf(q: Queue, g: nat): seq<Entry>
  {
    if g in q.items then q.items[g] else []
  }

  /** The queue after `#enqueue(group g, request r, waiter w)`. */
  function Enqueued(stringify: Shape -> string, q: Queue, g: nat, r: Request, w: Waiter): (q': Queue)
    requires q.Valid()
    ensures q'.Valid()
    ensures q'.items.Keys == q.items.Keys + {g}
    ensures forall h | h in q.items && h != g :: q'.items[h] == q.items[h]
  {
    var entries := EntriesOf(q, g);
    match FindEquivalent(stringify, entries, r)
    case Some(i) => Put(q, g, entries[i := Join(entries[i], r, w)])
    case None => Put(q, g, entries + [Fresh(r, w)])
  }

  /**
   * A caller whose request is equivalent to a pending one joins that entry:
   * its three lists grow by this caller at the end, and no other entry changes.
   */
  lemma EnqueueJoinsMatch(stringify: Shape -> string, q: Queue, g: nat, r: Request, w: Waiter, i: nat)
    requires q.Valid() && i < |EntriesOf(q, g)|
    requires FindEquivalent(stringify, EntriesOf(q, g), r) == Some(i)
    ensures var after := Enqueued(stringify, q, g, r, w).items[g];
      && |after| == |EntriesOf(q, g)|
      && after[i].request == EntriesOf(q, g)[i].request
      && after[i].signals == EntriesOf(q, g)[i].signals + [r.signal]
      && after[i].resolves == EntriesOf(q, g)[i].resolves + [w]
      && after[i].rejects == EntriesOf(q, g)[i].rejects + [w]
      && (forall j :: 0 <= j < |after| && j != i ==> after[j] == EntriesOf(q, g)[j])
  {
  }

  /** A caller with no equivalent pending request opens a new entry at the end of its group's list. */
  lemma EnqueueAppendsFresh(stringify: Shape -> string, q: Queue, g: nat, r: Request, w: Waiter)
    requires q.Valid()
    requires forall j :: 0 <= j < |EntriesOf(q, g)| ==> !Equivalent(stringify, EntriesOf(q, g)[j].request, r)
    ensures Enqueued(stringify, q, g, r, w).items[g] == EntriesOf(q, g) + [Entry(r, [r.signal], [w], [w])]
    ensures g !in q.items ==> Enqueued(stringify, q, g, r, w).order == q.order + [g]
  {
  }

  /** Enqueueing keeps every group's list well formed and free of equivalent pairs. */
  lemma EnqueuePreservesQueueOk(stringify: Shape -> string, groupCount: nat, q: Queue, g: nat, r: Request, w: Waiter)
    requires QueueOk(stringify, groupCount, q) && g < groupCount
    ensures QueueOk(stringify, groupCount, Enqueued(stringify, q, g, r, w))
  {
    var entries := EntriesOf(q, g);
    var q' := Enqueued(stringify, q, g, r, w);
    match FindEquivalent(stringify, entries, r)
    case Some(i) =>
      JoinKeepsGroupOk(stringify, entries, i, r, w);
      assert q'.items == q.items[g := entries[i := Join(entries[i], r, w)]];
    case None =>
      AppendKeepsGroupOk(stringify, entries, r, w);
      assert q'.items == q.items[g := entries + [Fresh(r, w)]];
  }

  /** Joining an entry keeps its group's list well formed: the entry's three lists grow together. */
  lemma JoinKeepsGroupOk(stringify: Shape -> string, entries: seq<Entry>, i: nat, r: Request, w: Waiter)
    requires GroupQueueOk(stringify, entries) && i < |entries|
    ensures GroupQueueOk(stringify, entries[i := Join(entries[i], r, w)])
  {
    var after := entries[i := Join(entries[i], r, w)];
    assert forall j :: 0 <= j < |after| ==> after[j].request == entries[j].request;
  }

  /** Appending a request no pending entry is equivalent to keeps the group's list free of equivalent pairs. */
  lemma AppendKeepsGroupOk(stringify: Shape -> string, entries: seq<Entry>, r: Request, w: Waiter)
    requires entries == [] || GroupQueueOk(stringify, entries)
    requires forall j :: 0 <= j < |entries| ==> !Equivalent(stringify, entries[j].request, r)
    ensures GroupQueueOk(stringify, entries + [Fresh(r, w)])
  {
    var after := entries + [Fresh(r, w)];
    forall i, j | 0 <= i < j < |after|
      ensures !Equivalent(stringify, after[i].request, after[j].request)
    {
      assert after[i] == entries[i];
      if j < |entries| {
        assert after[j] == entries[j];
      }
    }
  }

  // ------------------------------------------------------------ dispatch

  /**
   * One upstream call started by `#execute`: the first caller's request with
   * the batch signal of all callers, the group's context, and the waiters to settle.
   */
  datatype Dispatch = Dispatch(group: nat, context: nat, request: Request, resolves: seq<Waiter>, rejects: seq<Waiter>)

  /** `d` is the call started for entry `e`: its request with the batch signal, and its waiters. */
  ghost predicate StartedFor(d: Dispatch, e: Entry)
  {
    && d.request == e.request.(signal := Some(Batch(e.signals)))
    && d.resolves == e.resolves
    && d.rejects == e.rejects
  }

  /** Every pending entry of the groups `keys`, group by group, in list order. */
  function Pending(keys: seq<nat>, items: map<nat, seq<Entry>>): seq<Entry>
    requires forall i :: 0 <= i < |keys| ==> keys[i] in items
  {
    if keys == [] then []
    else Pending(keys[..|keys| - 1], items) + items[keys[|keys| - 1]]
  }

  /** The queue after `#enqueue` of each request of `rs`, in order, into group `g`. */
  function EnqueueAll(stringify: Shape -> string, q: Queue, g: nat, rs: seq<Request>, ws: seq<Waiter>): (q': Queue)
    requires q.Valid() && |rs| == |ws|
    ensures q'.Valid()
    ensures rs != [] ==> g in q'.items
    ensures forall h | h in q.items && h != g :: h in q'.items && q'.items[h] == q.items[h]
  {
    if rs == [] then q
    else Enqueued(stringify, EnqueueAll(stringify, q, g, rs[..|rs| - 1], ws[..|ws| - 1]), g, rs[|rs| - 1], ws[|ws| - 1])
  }

  /**
   * Coalescing: requests that all serialise like the first one, enqueued into a
   * group with nothing pending, end up as one entry that holds every caller's
   * signal, resolve and reject in arrival order.
   */
  lemma {:induction false} EquivalentRequestsShareOneEntry(stringify: Shape -> string, q: Queue, g: nat, rs: seq<Request>, ws: seq<Waiter>)
    requires q.Valid() && g !in q.items && |rs| == |ws| >= 1
    requires forall i :: 0 <= i < |rs| ==> Equivalent(stringify, rs[0], rs[i])
    ensures EnqueueAll(stringify, q, g, rs, ws).items[g] == [Entry(rs[0], SignalsOf(rs), ws, ws)]
  {
    var n := |rs|;
    if n > 1 {
      var rs', ws' := rs[..n - 1], ws[..n - 1];
      assert forall i :: 0 <= i < |rs'| ==> Equivalent(stringify, rs'[0], rs'[i]);
      EquivalentRequestsShareOneEntry(stringify, q, g, rs', ws');
      ShareStep(stringify, q, g, rs, ws);
    } else {
      assert rs[..0] == [] && ws[..0] == [];
      assert EnqueueAll(stringify, q, g, rs, ws) == Enqueued(stringify, q, g, rs[0], ws[0]);
      assert EntriesOf(q, g) == [];
      assert SignalsOf(rs) == [rs[0].signal];
      assert ws == [ws[0]];
    }
  }

  /** The inductive step of the lemma above: the last caller joins the single entry. */
  lemma ShareStep(stringify: Shape -> string, q: Queue, g: nat, rs: seq<Request>, ws: seq<Waiter>)
    requires q.Valid() && |rs| == |ws| > 1
    requires Equivalent(stringify, rs[0], rs[|rs| - 1])
    requires EnqueueAll(stringify, q, g, rs[..|rs| - 1], ws[..|ws| - 1]).items[g]
      == [Entry(rs[0], SignalsOf(rs[..|rs| - 1]), ws[..|ws| - 1], ws[..|ws| - 1])]
    ensures EnqueueAll(stringify, q, g, rs, ws).items[g] == [Entry(rs[0], SignalsOf(rs), ws, ws)]
  {
    var n := |rs|;
    var rs', ws', r, w := rs[..n - 1], ws[..n - 1], rs[n - 1], ws[n - 1];
    var prev := EnqueueAll(stringify, q, g, rs', ws');
    var e := Entry(rs[0], SignalsOf(rs'), ws', ws');
    JoinSingle(stringify, prev, g, r, w);
    EnqueueAllLast(stringify, q, g, rs, ws);
    assert EnqueueAll(stringify, q, g, rs, ws).items[g] == [Join(e, r, w)];
    JoinGrows(e, rs, ws);
  }

  lemma EnqueueAllLast(stringify: Shape -> string, q: Queue, g: nat, rs: seq<Request>, ws: seq<Waiter>)
    requires q.Valid() && |rs| == |ws| > 0
    ensures EnqueueAll(stringify, q, g, rs, ws)
      == Enqueued(stringify, EnqueueAll(stringify, q, g, rs[..|rs| - 1], ws[..|ws| - 1]), g, rs[|rs| - 1], ws[|ws| - 1])
  {
  }

  lemma JoinGrows(e: Entry, rs: seq<Request>, ws: seq<Waiter>)
    requires |rs| == |ws| > 0
    requires e.signals == SignalsOf(rs[..|rs| - 1]) && e.resolves == ws[..|ws| - 1] && e.rejects == ws[..|ws| - 1]
    ensures Join(e, rs[|rs| - 1], ws[|ws| - 1]) == Entry(e.request, SignalsOf(rs), ws, ws)
  {
    assert ws[..|ws| - 1] + [ws[|ws| - 1]] == ws;
  }

  /** The signals of the requests `rs`, in order. */
  function SignalsOf(rs: seq<Request>): (s: seq<Option<Signal>>)
    ensures |s| == |rs| && forall i :: 0 <= i < |rs| ==> s[i] == rs[i].signal
  {
    if rs == [] then [] else SignalsOf(rs[..|rs| - 1]) + [rs[|rs| - 1].signal]
  }

  /** A request equivalent to the only pending entry of a group joins that entry. */
  lemma JoinSingle(stringify: Shape -> string, q: Queue, g: nat, r: Request, w: Waiter)
    requires q.Valid() && g in q.items && |q.items[g]| == 1
    requires Equivalent(stringify, q.items[g][0].request, r)
    ensures Enqueued(stringify, q, g, r, w).items[g] == [Join(q.items[g][0], r, w)]
  {
    assert FindEquivalent(stringify, EntriesOf(q, g), r) == Some(0);
  }

  /**
   * Non-coalescing: with a serialisation that tells shapes apart, two requests
   * of different shape (a different header, say) are never merged.
   */
  lemma DifferentShapesStaySeparate(stringify: Shape -> string, q: Queue, g: nat, a: Request, b: Request, wa: Waiter, wb: Waiter)
    requires q.Valid() && g !in q.items
    requires forall x: Shape, y: Shape :: stringify(x) == stringify(y) ==> x == y
    requires ShapeOf(a) != ShapeOf(b)
    ensures Enqueued(stringify, Enqueued(stringify, q, g, a, wa), g, b, wb).items[g] == [Fresh(a, wa), Fresh(b, wb)]
  {
    var q1 := Enqueued(stringify, q, g, a, wa);
    assert q1.items[g] == [Fresh(a, wa)];
    assert FindEquivalent(stringify, EntriesOf(q1, g), b) == None;
  }

  // ------------------------------------------------------------ replication

  /** How an upstream sequence ends: normally, or by throwing. */
  datatype End<E> = Done | Errored(error: E)

  /** The items an async iterator yields and how it ends. */
  datatype Source<T, E> = Source(items: seq<T>, end: End<E>)

  /**
   * A readable stream: the stream `iteratorToStream` builds over the source,
   * or one of the two branches `tee()` returns for a stream.
   */
  datatype Stream<T, E> = Root(source: Source<T, E>) | TeeLeft(parent: Stream<T, E>) | TeeRight(parent: Stream<T, E>)

  /** `stream.tee()` */
  function Tee<T, E>(s: Stream<T, E>): (Stream<T, E>, Stream<T, E>)
  {
    (TeeLeft(s), TeeRight(s))
  }

  /** What `stream.values()` yields: every branch of a tee sees all of its parent's items. */
  function Yields<T, E>(s: Stream<T, E>): Source<T, E>
  {
    match s
    case Root(source) => source
    case TeeLeft(p) => Yields(p)
    case TeeRight(p) => Yields(p)
  }

  /** The stream reached from `s` by taking the second tee branch `k` times. */
  function Spine<T, E>(k: nat, s: Stream<T, E>): Stream<T, E>
  {
    if k == 0 then s else TeeRight(Spine(k - 1, s))
  }

  function Depth<T, E>(s: Stream<T, E>): nat
  {
    match s
    case Root(_) => 0
    case TeeLeft(p) => 1 + Depth(p)
    case TeeRight(p) => 1 + Depth(p)
  }

  lemma {:induction false} SpineFacts<T, E>(k: nat, s: Stream<T, E>)
    ensures Depth(Spine(k, s)) == Depth(s) + k
    ensures Yields(Spine(k, s)) == Yields(s)
  {
    if k > 0 {
      SpineFacts(k - 1, s);
    }
  }

  /** A handle a waiter receives: `body()` returns the values of its own stream branch. */
  datatype BodyProvider<T, E> = BodyProvider(branch: Stream<T, E>)

  /**
   * `replicateIteratorAsBody(iterator, count)`: no handle for a count of zero
   * or less, otherwise exactly `count` handles on pairwise distinct branches,
   * each of which yields the whole source sequence.
   */
  method ReplicateIteratorAsBody<T, E>(source: Source<T, E>, count: int) returns (handles: seq<BodyProvider<T, E>>)
    ensures count <= 0 ==> handles == []
    ensures count > 0 ==> |handles| == count
    ensures forall i :: 0 <= i < |handles| ==> Yields(handles[i].branch) == source
    ensures forall i, j :: 0 <= i < j < |handles| ==> handles[i] != handles[j]
  {
    if count <= 0 {
      return [];
    }
    var sourceStream := Root(source);
    if count == 1 {
      return [BodyProvider(sourceStream)];
    }
    var branches := TeeBranches(source, count);
    BranchesAreReplicas(source, branches);
    handles := [];
    var k := 0;
    while k < |branches|
      invariant 0 <= k <= |branches|
      invariant |handles| == k
      invariant forall j :: 0 <= j < k ==> handles[j] == BodyProvider(branches[j])
    {
      handles := handles + [BodyProvider(branches[k])];
      k := k + 1;
    }
  }

  /**
   * The tee loop of `replicateIteratorAsBody`: tee the source, keep the first
   * branch and tee the second again until `count - 1` branches are kept, then
   * keep the last second branch too.
   */
  method TeeBranches<T, E>(source: Source<T, E>, count: int) returns (branches: seq<Stream<T, E>>)
    requires count >= 2
    ensures |branches| == count
    ensures forall k :: 0 <= k < count - 1 ==> branches[k] == TeeLeft(Spine(k, Root(source)))
    ensures branches[count - 1] == Spine(count - 1, Root(source))
  {
    var teed := Tee(Root(source));
    branches := [teed.0];
    var streamToTee := teed.1;
    var i := 2;
    while i < count
      invariant 2 <= i <= count
      invariant |branches| == i - 1
      invariant forall k :: 0 <= k < |branches| ==> branches[k] == TeeLeft(Spine(k, Root(source)))
      invariant streamToTee == Spine(i - 1, Root(source))
    {
      var pair := Tee(streamToTee);
      branches := branches + [pair.0];
      streamToTee := pair.1;
      i := i + 1;
    }
    branches := branches + [streamToTee];
  }

  /**
   * The branches the tee loop leaves: the first branch of each of the
   * `|branches| - 1` tees, then the second branch of the last one. They are
   * pairwise distinct and each yields the whole source sequence.
   */
  lemma BranchesAreReplicas<T, E>(source: Source<T, E>, branches: seq<Stream<T, E>>)
    requires |branches| >= 2
    requires forall k :: 0 <= k < |branches| - 1 ==> branches[k] == TeeLeft(Spine(k, Root(source)))
    requires branches[|branches| - 1] == Spine(|branches| - 1, Root(source))
    ensures forall a :: 0 <= a < |branches| ==> Yields(branches[a]) == source
    ensures forall a, b :: 0 <= a < b < |branches| ==> branches[a] != branches[b]
  {
    var n := |branches|;
    forall a | 0 <= a < n
      ensures Yields(branches[a]) == source
    {
      SpineFacts(a, Root(source));
    }
    forall a, b | 0 <= a < b < n
      ensures branches[a] != branches[b]
    {
      if b < n - 1 {
        SpineInjective(a, b, Root(source));
      }
    }
  }

  /** Different numbers of tees of the second branch give different streams. */
  lemma SpineInjective<T, E>(k1: nat, k2: nat, s: Stream<T, E>)
    requires k1 != k2
    ensures Spine(k1, s) != Spine(k2, s)
  {
    SpineFacts(k1, s);
    SpineFacts(k2, s);
  }

  // ------------------------------------------------------------ settlement

  /** What the upstream call delivered: a response whose body is an iterator, or a failure. */
  datatype Response<T, E> = Delivered(body: Source<T, E>) | Failed(error: E)

  /** A callback invoked for one waiter. */
  datatype Settlement<T, E> = Resolved(waiter: Waiter, handle: BodyProvider<T, E>) | Rejected(waiter: Waiter, error: E)

  /**
   * `#execute` once the upstream call has settled: on success waiter `i`, in
   * arrival order, is resolved with its own replica `i` of the body; on any
   * failure every reject of the entry is called with the same error.
   */
  method Execute<T, E>(d: Dispatch, response: Response<T, E>) returns (settled: seq<Settlement<T, E>>)
    ensures response.Failed? ==> |settled| == |d.rejects|
    ensures response.Failed? ==> forall i :: 0 <= i < |settled| ==> settled[i] == Rejected(d.rejects[i], response.error)
    ensures response.Delivered? ==> |settled| == |d.resolves|
    ensures response.Delivered? ==> forall i :: 0 <= i < |settled| ==>
      && settled[i].Resolved?
      && settled[i].waiter == d.resolves[i]
      && Yields(settled[i].handle.branch) == response.body
    ensures response.Delivered? ==> forall i, j :: 0 <= i < j < |settled| ==> settled[i].handle != settled[j].handle
  {
    settled := [];
    match response
    case Failed(error) =>
      var k := 0;
      while k < |d.rejects|
        invariant 0 <= k <= |d.rejects|
        invariant |settled| == k
        invariant forall i :: 0 <= i < k ==> settled[i] == Rejected(d.rejects[i], error)
      {
        settled := settled + [Rejected(d.rejects[k], error)];
        k := k + 1;
      }
    case Delivered(body) =>
      var replicated := ReplicateIteratorAsBody(body, |d.resolves|);
      // The mismatch check of the source can never fire.
      assert |replicated| == |d.resolves|;
      var remaining := replicated;
      var k := 0;
      while k < |d.resolves|
        invariant 0 <= k <= |d.resolves|
        invariant remaining == replicated[k..]
        invariant |settled| == k
        invariant forall i :: 0 <= i < k ==> settled[i] == Resolved(d.resolves[i], replicated[i])
      {
        settled := settled + [Resolved(d.resolves[k], remaining[0])];
        remaining := remaining[1..];
        k := k + 1;
      }
  }

  // ------------------------------------------------------------ the plugin

  /** The default filter: only GET requests are deduplicated. */
  predicate IsGet(r: Request)
  {
    r.verb == "GET"
  }

  /** Where the interceptor sends a request. */
  datatype Route = Bypass | Coalesce(group: nat)

  class DedupeRequestsPlugin {
    const groups: seq<Group>
    const filter: Request -> bool
    const stringify: Shape -> string

    /** `#queue` */
    var queue: Queue
    /** `defer(() => this.#dequeue())` callbacks scheduled and not yet run. */
    var deferred: nat
    /** Requests the interceptor passed straight to `next()`. */
    var direct: seq<Request>
    /** Upstream calls started by `#dequeue`, in the order they were started. */
    var dispatched: seq<Dispatch>

    ghost predicate Valid()
      reads this
    {
      QueueOk(stringify, |groups|, queue)
    }

    /** `new DedupeRequestsPlugin({ groups, filter })`; the options type demands at least one group. */
    constructor(groups: seq<Group>, filter: Option<Request -> bool>, stringify: Shape -> string)
      requires |groups| >= 1
      ensures Valid()
      ensures this.groups == groups && this.stringify == stringify
      ensures forall r :: this.filter(r) == if filter.Some? then filter.value(r) else IsGet(r)
      ensures queue == Empty() && deferred == 0 && direct == [] && dispatched == []
    {
      this.groups := groups;
      var chosen: Request -> bool := if filter.Some? then filter.value else (r: Request) => IsGet(r);
      this.filter := chosen;
      this.stringify := stringify;
      queue := Empty();
      deferred := 0;
      direct := [];
      dispatched := [];
    }

    /**
     * The interceptor's decision: bypass for an opaque body, a request the
     * filter rejects, or one no group condition holds for; otherwise the
     * first group, in declaration order, whose condition holds.
     */
    function RouteOf(r: Request): (route: Route)
      ensures route.Bypass? <==>
        OpaqueBody(r.body) || !filter(r) || forall j :: 0 <= j < |groups| ==> !groups[j].condition(r)
      ensures route.Coalesce? ==> route.group < |groups| && groups[route.group].condition(r)
      ensures route.Coalesce? ==> forall j :: 0 <= j < route.group ==> !groups[j].condition(r)
    {
      if OpaqueBody(r.body) || !filter(r) then Bypass
      else match FirstMatch(groups, r)
        case None => Bypass
        case Some(g) => Coalesce(g)
    }

    /** The interceptor added by `init`: `waiter` is the promise it returns. */
    method Intercept(r: Request, waiter: Waiter) returns (route: Route)
      requires Valid()
      modifies this`queue, this`deferred, this`direct
      ensures Valid()
      ensures route == RouteOf(r)
      ensures route.Bypass? ==> queue == old(queue) && deferred == old(deferred) && direct == old(direct) + [r]
      ensures route.Coalesce? ==>
        && queue == Enqueued(stringify, old(queue), route.group, r, waiter)
        && deferred == old(deferred) + 1
        && direct == old(direct)
    {
      if OpaqueBody(r.body) || !filter(r) {
        direct := direct + [r];
        return Bypass;
      }
      var group := FirstMatch(groups, r);
      if group.None? {
        direct := direct + [r];
        return Bypass;
      }
      Enqueue(group.value, r, waiter);
      deferred := deferred + 1;
      route := Coalesce(group.value);
    }

    /** `#enqueue`: join the first equivalent entry of the group, or append a new one. */
    method Enqueue(g: nat, r: Request, waiter: Waiter)
      requires Valid() && g < |groups|
      modifies this`queue
      ensures Valid()
      ensures queue == Enqueued(stringify, old(queue), g, r, waiter)
    {
      EnqueuePreservesQueueOk(stringify, |groups|, queue, g, r, waiter);
      var entries := EntriesOf(queue, g);
      var matched := FindEquivalent(stringify, entries, r);
      if matched.Some? {
        var i := matched.value;
        entries := entries[i := Join(entries[i], r, waiter)];
      } else {
        entries := entries + [Fresh(r, waiter)];
      }
      queue := Put(queue, g, entries);
    }

    /** The call `#execute` starts for entry `e` of group `g`. */
    function Start(g: nat, e: Entry): (d: Dispatch)
      requires g < |groups|
      ensures d.request.signal == Some(Batch(e.signals)) && d.context == groups[g].context
      ensures ShapeOf(d.request) == ShapeOf(e.request)
      ensures d.resolves == e.resolves && d.rejects == e.rejects
    {
      Dispatch(g, groups[g].context, e.request.(signal := Some(Batch(e.signals))), e.resolves, e.rejects)
    }

    /** The calls started for a group's entries, in list order. */
    function StartGroup(g: nat, entries: seq<Entry>): (ds: seq<Dispatch>)
      requires g < |groups|
      ensures |ds| == |entries|
      ensures forall k :: 0 <= k < |ds| ==> StartedFor(ds[k], entries[k]) && ds[k].context == groups[g].context
    {
      if entries == [] then []
      else StartGroup(g, entries[..|entries| - 1]) + [Start(g, entries[|entries| - 1])]
    }

    /** The calls started for the groups `keys`: exactly one per pending entry, in the same order. */
    function StartAll(keys: seq<nat>, items: map<nat, seq<Entry>>): (ds: seq<Dispatch>)
      requires forall i :: 0 <= i < |keys| ==> keys[i] in items && keys[i] < |groups|
      ensures |ds| == |Pending(keys, items)|
      ensures forall k :: 0 <= k < |ds| ==> StartedFor(ds[k], Pending(keys, items)[k])
    {
      if keys == [] then []
      else StartAll(keys[..|keys| - 1], items) + StartGroup(keys[|keys| - 1], items[keys[|keys| - 1]])
    }

    lemma StartGroupStep(g: nat, entries: seq<Entry>, j: nat)
      requires g < |groups| && j < |entries|
      ensures StartGroup(g, entries[..j + 1]) == StartGroup(g, entries[..j]) + [Start(g, entries[j])]
    {
      assert entries[..j + 1][..j] == entries[..j];
    }

    lemma StartAllStep(keys: seq<nat>, items: map<nat, seq<Entry>>, i: nat)
      requires i < |keys|
      requires forall k :: 0 <= k < |keys| ==> keys[k] in items && keys[k] < |groups|
      ensures StartAll(keys[..i + 1], items) == StartAll(keys[..i], items) + StartGroup(keys[i], items[keys[i]])
    {
      assert keys[..i + 1][..i] == keys[..i];
    }

    /** The inner loop of `#dequeue`: one call per entry of group `g`, in list order. */
    method StartEntries(g: nat, entries: seq<Entry>) returns (started: seq<Dispatch>)
      requires g < |groups|
      ensures started == StartGroup(g, entries)
    {
      started := [];
      var j := 0;
      while j < |entries|
        invariant 0 <= j <= |entries|
        invariant started == StartGroup(g, entries[..j])
      {
        StartGroupStep(g, entries, j);
        started := started + [Start(g, entries[j])];
        j := j + 1;
      }
      assert entries[..j] == entries;
    }

    /** `#dequeue`: one `#execute` per pending entry across all groups, then `#queue.clear()`. */
    method Dequeue() returns (started: seq<Dispatch>)
      requires Valid()
      modifies this`queue, this`dispatched
      ensures Valid() && queue == Empty()
      ensures started == StartAll(old(queue).order, old(queue).items)
      ensures dispatched == old(dispatched) + started
    {
      started := [];
      var keys := queue.order;
      var items := queue.items;
      assert forall k :: 0 <= k < |keys| ==> keys[k] in items && keys[k] < |groups|;
      var i := 0;
      while i < |keys|
        invariant 0 <= i <= |keys|
        invariant started == StartAll(keys[..i], items)
        invariant unchanged(this)
      {
        var group := StartEntries(keys[i], items[keys[i]]);
        StartAllStep(keys, items, i);
        started := started + group;
        i := i + 1;
      }
      assert keys[..i] == keys;
      dispatched := dispatched + started;
      queue := Empty();
    }

    /** The deferred callback scheduled by an enqueue runs. */
    method RunDeferred() returns (started: seq<Dispatch>)
      requires Valid() && deferred > 0
      modifies this`queue, this`dispatched, this`deferred
      ensures Valid() && queue == Empty() && deferred == old(deferred) - 1
      ensures started == StartAll(old(queue).order, old(queue).items)
      ensures dispatched == old(dispatched) + started
    {
      started := Dequeue();
      deferred := deferred - 1;
    }
  }
}
