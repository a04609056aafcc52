/**
 The response queue of one transport request (`url_queue`): promises handed out
 by `getNext` are paired with transport responses in arrival order.
 `Queue` is the queue as a value, with its history; `UrlQueue` is the object the
 binding updates in place, proved against the value operations.
 */
module UrlQueues {
  import opened NativeEngine

  /** Who holds a promise: the request loop, or the blacklisting callback of `cleanUp`. */
  datatype Recipient = ByLoop | ByCleanUp(client: Ptr)
  datatype Waiter = Waiter(ticket: nat, to: Recipient)
  datatype Delivery = Delivery(ticket: nat, to: Recipient, url: nat)

  datatype Queue = Queue(
    frame: nat,                 // the sendRequest call the queue belongs to
    root: Ptr,
    ctx: Ptr,
    urls: nat,                  // number of urls the request was sent to
    cleanUp: bool,
    counter: nat,
    waiters: seq<Waiter>,
    buffered: seq<nat>,
    arrived: seq<nat>,          // history: url indices in order of arrival
    delivered: seq<Delivery>,   // history: resolved promises in order
    handled: set<nat>)          // cleanUp callbacks that already ran, by position in `delivered`

  function Fresh(frame: nat, root: Ptr, ctx: Ptr, urls: nat): Queue {
    Queue(frame, root, ctx, urls, false, 0, [], [], [], [], {})
  }

  function Min(a: int, b: int): int { if a < b then a else b }
  function Max(a: int, b: int): int { if a < b then b else a }

  // ---- the operations of the queue on values ----

  /** How many promises `trigger` resolves. */
  function Pairs(q: Queue): nat { Min(|q.waiters|, |q.buffered|) }

  /** The queue after its first promise got its first response. */
  function Popped(q: Queue): Queue
    requires q.waiters != [] && q.buffered != []
  {
    q.(waiters := q.waiters[1..], buffered := q.buffered[1..],
       delivered := q.delivered + [Delivery(q.waiters[0].ticket, q.waiters[0].to, q.buffered[0])])
  }

  /** `trigger`: hands responses over until promises or responses are used up. */
  function Paired(q: Queue): (r: Queue)
    ensures r == q.(waiters := r.waiters, buffered := r.buffered, delivered := r.delivered)
    ensures r.waiters == [] || r.buffered == []
    ensures |q.delivered| <= |r.delivered|
    decreases |q.waiters|
  {
    if q.waiters == [] || q.buffered == [] then q else Paired(Popped(q))
  }

  /** The native calls made while responses `urls` are handed over. */
  function Notices(root: Ptr, ctx: Ptr, urls: seq<nat>, alive: bool): seq<Call> {
    if urls == [] then []
    else Notice(root, ctx, urls[0], alive) + Notices(root, ctx, urls[1..], alive)
  }

  function Notice(root: Ptr, ctx: Ptr, url: nat, alive: bool): seq<Call> {
    [IsAlive(root, ctx)] + if alive then [SetResponse(root, ctx, url)] else []
  }

  function TriggerCalls(q: Queue, ptrSet: bool, alive: bool): seq<Call> {
    if q.cleanUp || !ptrSet then [] else Notices(q.root, q.ctx, q.buffered[..Pairs(q)], alive)
  }

  function Pushed(q: Queue, url: nat): Queue {
    q.(buffered := q.buffered + [url], arrived := q.arrived + [url])
  }

  function Accepts(q: Queue): bool { q.counter + 1 <= q.urls }

  function Asked(q: Queue, to: Recipient): Queue {
    if Accepts(q) then q.(counter := q.counter + 1, waiters := q.waiters + [Waiter(q.counter, to)])
    else q.(counter := q.counter + 1)
  }

  /** `waiters` followed by a claim for each ticket from `first` up to `end`. */
  function Claims(waiters: seq<Waiter>, first: nat, end: nat, client: Ptr): (r: seq<Waiter>)
    ensures |r| == |waiters| + Max(end - first, 0)
    ensures forall k | 0 <= k < |r| ::
              r[k] == if k < |waiters| then waiters[k] else Waiter(first + k - |waiters|, ByCleanUp(client))
    decreases end
  {
    if end <= first then waiters
    else Claims(waiters, first, end - 1, client) + [Waiter(end - 1, ByCleanUp(client))]
  }

  /** The queue with all responses below `upTo` claimed, before they are paired. */
  function Claimed(q: Queue, client: Ptr, upTo: nat): Queue {
    q.(cleanUp := true, counter := upTo, waiters := Claims(q.waiters, q.counter, upTo, client))
  }

  function ClaimedUpTo(q: Queue, client: Ptr, upTo: nat): Queue {
    Paired(Claimed(q, client, upTo))
  }

  /** `cleanUp`: claim every response nobody has asked for yet. */
  function CleanedUp(q: Queue, client: Ptr): Queue {
    ClaimedUpTo(q, client, Max(q.counter, q.urls))
  }

  // ---- what every operation keeps ----

  ghost predicate Distinct(s: seq<nat>) {
    forall i, j | 0 <= i < j < |s| :: s[i] != s[j]
  }

  /** The k-th accepted `getNext` belongs to the k-th arrival. */
  ghost predicate Queued(q: Queue) {
    && |q.delivered| + |q.buffered| == |q.arrived|
    && (forall k | 0 <= k < |q.delivered| :: q.delivered[k].ticket == k && q.delivered[k].url == q.arrived[k])
    && (forall k | 0 <= k < |q.buffered| :: q.buffered[k] == q.arrived[|q.delivered| + k])
    && (forall k | 0 <= k < |q.waiters| :: q.waiters[k].ticket == |q.delivered| + k)
    && |q.delivered| + |q.waiters| == Min(q.counter, q.urls)
    && Distinct(q.arrived)
    && (forall k | 0 <= k < |q.arrived| :: q.arrived[k] < q.urls)
    && (q.cleanUp ==> q.counter >= q.urls && forall k | 0 <= k < |q.waiters| :: q.waiters[k].to.ByCleanUp?)
  }

  /** ... and no promise is left waiting beside a buffered response. */
  ghost predicate Fifo(q: Queue) {
    Queued(q) && (q.waiters == [] || q.buffered == [])
  }

  lemma PoppedIsQueued(q: Queue)
    requires Queued(q) && q.waiters != [] && q.buffered != []
    ensures Queued(Popped(q))
  {
  }

  lemma {:induction false} PairedIsFifo(q: Queue)
    requires Queued(q)
    ensures Fifo(Paired(q))
    decreases |q.waiters|
  {
    if q.waiters != [] && q.buffered != [] {
      PoppedIsQueued(q);
      PairedIsFifo(Popped(q));
    }
  }

  lemma ArrivalKeepsFifo(q: Queue, url: nat)
    requires Fifo(q) && url < q.urls && url !in q.arrived
    ensures Fifo(Paired(Pushed(q, url)))
  {
    PairedIsFifo(Pushed(q, url));
  }

  lemma AskKeepsFifo(q: Queue, to: Recipient)
    requires Fifo(q) && (q.cleanUp ==> to.ByCleanUp?)
    ensures Fifo(Paired(Asked(q, to)))
  {
    PairedIsFifo(Asked(q, to));
  }

  function Below(n: nat): (r: set<nat>)
    ensures |r| == n
    ensures forall k: nat :: k in r <==> k < n
  {
    if n == 0 then {} else Below(n - 1) + {n - 1}
  }

  function Elements(s: seq<nat>): set<nat> { set k | 0 <= k < |s| :: s[k] }

  /** Distinct indices below n are at most n many; if they are n many they are all of them. */
  lemma DistinctBelow(s: seq<nat>, n: nat)
    requires Distinct(s) && forall k | 0 <= k < |s| :: s[k] < n
    ensures |s| <= n
    ensures |s| == n ==> Elements(s) == Below(n)
  {
    DistinctSize(s);
    assert Elements(s) <= Below(n);
    assert Below(n) == Elements(s) + (Below(n) - Elements(s));
  }

  lemma DistinctSize(s: seq<nat>)
    requires Distinct(s)
    ensures |Elements(s)| == |s|
  {
    if s != [] {
      var front := s[..|s| - 1];
      DistinctSize(front);
      assert Elements(s) == Elements(front) + {s[|s| - 1]};
    }
  }

  ghost predicate NoLoopWaiter(q: Queue) {
    forall k | 0 <= k < |q.waiters| :: q.waiters[k].to.ByCleanUp?
  }

  lemma ClaimedIsQueued(q: Queue, client: Ptr)
    requires Queued(q) && NoLoopWaiter(q)
    ensures Queued(Claimed(q, client, Max(q.counter, q.urls)))
  {
  }

  /** With a promise for every url no response stays buffered. */
  lemma NothingBuffered(q: Queue)
    requires Fifo(q) && q.counter >= q.urls
    ensures q.buffered == []
  {
    DistinctBelow(q.arrived, q.urls);
  }

  lemma CleanUpKeepsFifo(q: Queue, client: Ptr)
    requires Fifo(q) && NoLoopWaiter(q)
    ensures Fifo(CleanedUp(q, client)) && CleanedUp(q, client).cleanUp
    ensures CleanedUp(q, client).buffered == []
  {
    ClaimedIsQueued(q, client);
    PairedIsFifo(Claimed(q, client, Max(q.counter, q.urls)));
    NothingBuffered(CleanedUp(q, client));
  }

  // ---- the queue against a plain first-in first-out specification ----

  datatype Op = Arrive(url: nat) | GetNext(to: Recipient) | CleanUp(client: Ptr)

  function Perform(q: Queue, op: Op): Queue {
    match op
    case Arrive(url) => Paired(Pushed(q, url))
    case GetNext(to) => Paired(Asked(q, to))
    case CleanUp(client) => CleanedUp(q, client)
  }

  function PerformAll(q: Queue, ops: seq<Op>): Queue {
    if ops == [] then q else Perform(PerformAll(q, ops[..|ops| - 1]), ops[|ops| - 1])
  }

  function NextArrivals(arrivals: seq<nat>, op: Op): seq<nat> {
    if op.Arrive? then arrivals + [op.url] else arrivals
  }

  /** The url indices of the arrivals among `ops`, in order. */
  function Arrivals(ops: seq<Op>): seq<nat> {
    if ops == [] then [] else NextArrivals(Arrivals(ops[..|ops| - 1]), ops[|ops| - 1])
  }

  function CleanUps(n: nat, client: Ptr): seq<Recipient> {
    seq(n, _ => ByCleanUp(client))
  }

  function NextAskers(urls: nat, askers: seq<Recipient>, op: Op): (r: seq<Recipient>)
    requires |askers| <= urls
    ensures |r| <= urls
  {
    match op
    case Arrive(_) => askers
    case GetNext(to) => if |askers| < urls then askers + [to] else askers
    case CleanUp(client) => askers + CleanUps(urls - |askers|, client)
  }

  /** Who asked, in order: at most one asker per url, and `cleanUp` asks for all that is left. */
  function Askers(urls: nat, ops: seq<Op>): (r: seq<Recipient>)
    ensures |r| <= urls
  {
    if ops == [] then [] else NextAskers(urls, Askers(urls, ops[..|ops| - 1]), ops[|ops| - 1])
  }

  /** Every transport promise settles at most once. */
  ghost predicate Settling(urls: nat, ops: seq<Op>) {
    Distinct(Arrivals(ops)) && forall k | 0 <= k < |Arrivals(ops)| :: Arrivals(ops)[k] < urls
  }

  /** Queue `r` serves `askers` with `arrivals` first in, first out. */
  ghost predicate Lined(r: Queue, askers: seq<Recipient>, arrivals: seq<nat>) {
    && r.arrived == arrivals
    && |r.delivered| <= Min(|askers|, |arrivals|)
    && (forall k | 0 <= k < |r.delivered| :: r.delivered[k] == Delivery(k, askers[k], arrivals[k]))
    && r.buffered == arrivals[|r.delivered|..]
    && |r.waiters| == |askers| - |r.delivered|
    && (forall k | 0 <= k < |r.waiters| :: r.waiters[k] == Waiter(|r.delivered| + k, askers[|r.delivered| + k]))
    && |askers| == Min(r.counter, r.urls)
  }

  /** ... and has handed over all it could. */
  ghost predicate Serves(r: Queue, askers: seq<Recipient>, arrivals: seq<nat>) {
    Lined(r, askers, arrivals) && |r.delivered| == Min(|askers|, |arrivals|)
  }

  lemma PoppedLined(q: Queue, askers: seq<Recipient>, arrivals: seq<nat>)
    requires Lined(q, askers, arrivals) && q.waiters != [] && q.buffered != []
    ensures Lined(Popped(q), askers, arrivals)
  {
  }

  lemma {:induction false} PairedServes(q: Queue, askers: seq<Recipient>, arrivals: seq<nat>)
    requires Lined(q, askers, arrivals)
    ensures Serves(Paired(q), askers, arrivals)
    decreases |q.waiters|
  {
    if q.waiters != [] && q.buffered != [] {
      PoppedLined(q, askers, arrivals);
      PairedServes(Popped(q), askers, arrivals);
    }
  }

  lemma ServesArrival(r: Queue, askers: seq<Recipient>, arrivals: seq<nat>, url: nat)
    requires Serves(r, askers, arrivals)
    ensures Serves(Paired(Pushed(r, url)), askers, arrivals + [url])
  {
    PairedServes(Pushed(r, url), askers, arrivals + [url]);
  }

  lemma ServesAsker(r: Queue, askers: seq<Recipient>, arrivals: seq<nat>, to: Recipient)
    requires Serves(r, askers, arrivals)
    ensures Serves(Paired(Asked(r, to)), if Accepts(r) then askers + [to] else askers, arrivals)
  {
    PairedServes(Asked(r, to), if Accepts(r) then askers + [to] else askers, arrivals);
  }

  lemma ServesCleanUp(r: Queue, askers: seq<Recipient>, arrivals: seq<nat>, client: Ptr)
    requires Serves(r, askers, arrivals)
    ensures Serves(CleanedUp(r, client), askers + CleanUps(r.urls - |askers|, client), arrivals)
  {
    PairedServes(Claimed(r, client, Max(r.counter, r.urls)), askers + CleanUps(r.urls - |askers|, client), arrivals);
  }

  lemma ServesOp(r: Queue, askers: seq<Recipient>, arrivals: seq<nat>, op: Op)
    requires Serves(r, askers, arrivals)
    ensures Serves(Perform(r, op), NextAskers(r.urls, askers, op), NextArrivals(arrivals, op))
    ensures Perform(r, op).urls == r.urls
  {
    match op
    case Arrive(url) => ServesArrival(r, askers, arrivals, url);
    case GetNext(to) => ServesAsker(r, askers, arrivals, to);
    case CleanUp(client) => ServesCleanUp(r, askers, arrivals, client);
  }

  /**
   Whatever the order of arrivals, requests for the next response and clean-ups,
   the k-th accepted asker gets the k-th arrival, as soon as both exist.
   */
  lemma {:induction false} QueueIsFifo(q: Queue, ops: seq<Op>)
    requires q == Fresh(q.frame, q.root, q.ctx, q.urls)
    ensures PerformAll(q, ops).urls == q.urls
    ensures Serves(PerformAll(q, ops), Askers(q.urls, ops), Arrivals(ops))
  {
    if ops != [] {
      var front := ops[..|ops| - 1];
      QueueIsFifo(q, front);
      ServesOp(PerformAll(q, front), Askers(q.urls, front), Arrivals(front), ops[|ops| - 1]);
    }
  }

  /**
   Once cleaned up, a queue hands out every response exactly once: what had
   arrived is gone from the buffer, what still arrives is claimed, and after the
   last arrival each url has been delivered once and only once.
   */
  lemma CleanedQueueDrains(q: Queue, before: seq<Op>, client: Ptr, after: seq<Op>)
    requires q == Fresh(q.frame, q.root, q.ctx, q.urls)
    requires Settling(q.urls, before + [CleanUp(client)] + after)
    ensures
      var r := PerformAll(q, before + [CleanUp(client)] + after);
      && r.buffered == []
      && |r.delivered| == |r.arrived|
      && (forall k | 0 <= k < |r.delivered| :: r.delivered[k].url == r.arrived[k])
      && Distinct(r.arrived)
      && (|r.arrived| == q.urls ==> Elements(r.arrived) == Below(q.urls) && r.waiters == [])
  {
    var ops := before + [CleanUp(client)] + after;
    QueueIsFifo(q, ops);
    AskersSaturated(q.urls, before, client, after);
    DistinctBelow(Arrivals(ops), q.urls);
  }

  lemma {:induction false} AskersSaturated(urls: nat, before: seq<Op>, client: Ptr, after: seq<Op>)
    ensures |Askers(urls, before + [CleanUp(client)] + after)| == urls
  {
    var ops := before + [CleanUp(client)] + after;
    if after == [] {
      assert ops[..|ops| - 1] == before;
    } else {
      assert ops[..|ops| - 1] == before + [CleanUp(client)] + after[..|after| - 1];
      AskersSaturated(urls, before, client, after[..|after| - 1]);
    }
  }

  // ---- the queue object ----

  class UrlQueue {
    const frame: nat
    const root: Ptr
    const ctx: Ptr
    const urls: nat
    var cleanUp: bool
    var counter: nat
    var promises: seq<Waiter>
    var responses: seq<nat>
    ghost var arrived: seq<nat>
    ghost var delivered: seq<Delivery>
    ghost var handled: set<nat>
    ghost var calls: seq<Call>   // native calls made so far

    ghost function Model(): Queue
      reads this
    {
      Queue(frame, root, ctx, urls, cleanUp, counter, promises, responses, arrived, delivered, handled)
    }

    constructor (frame: nat, root: Ptr, ctx: Ptr, urls: nat)
      ensures Model() == Fresh(frame, root, ctx, urls) && calls == []
    {
      this.frame, this.root, this.ctx, this.urls := frame, root, ctx, urls;
      cleanUp, counter, promises, responses := false, 0, [], [];
      arrived, delivered, handled, calls := [], [], {}, [];
    }

    /** Resolves the first promise with the first response. */
    method ResolveFirst(ptrSet: bool, alive: bool)
      requires promises != [] && responses != []
      modifies this
      ensures Model() == Popped(old(Model()))
      ensures calls == old(calls) + PopCalls(old(Model()), ptrSet, alive)
    {
      var p, r := promises[0], responses[0];
      promises, responses := promises[1..], responses[1..];
      if !cleanUp && ptrSet {
        calls := calls + [IsAlive(root, ctx)];
        if alive {
          calls := calls + [SetResponse(root, ctx, r)];
        }
      }
      delivered := delivered + [Delivery(p.ticket, p.to, r)];
    }

    /** Pairs promises with responses; `ptrSet` and `alive` are what the client and the engine answer. */
    method Trigger(ptrSet: bool, alive: bool)
      modifies this
      ensures Model() == Paired(old(Model()))
      ensures calls == old(calls) + TriggerCalls(old(Model()), ptrSet, alive)
    {
      ghost var target, all := Paired(Model()), calls + TriggerCalls(Model(), ptrSet, alive);
      while promises != [] && responses != []
        invariant Paired(Model()) == target && calls + TriggerCalls(Model(), ptrSet, alive) == all
        decreases |promises|
      {
        ghost var q, before := Model(), calls;
        PairOne(q, ptrSet, alive);
        ResolveFirst(ptrSet, alive);
        AssociateCalls(before, PopCalls(q, ptrSet, alive), TriggerCalls(Popped(q), ptrSet, alive));
      }
      PairIdle(Model(), ptrSet, alive);
    }

    /** A transport promise settles. */
    method Arrive(url: nat, ptrSet: bool, alive: bool)
      modifies this
      ensures Model() == Paired(Pushed(old(Model()), url))
      ensures calls == old(calls) + TriggerCalls(Pushed(old(Model()), url), ptrSet, alive)
    {
      responses := responses + [url];
      arrived := arrived + [url];
      Trigger(ptrSet, alive);
    }

    /** `false`: the promise was rejected because every response has been asked for. */
    method GetNext(to: Recipient, ptrSet: bool, alive: bool) returns (accepted: bool)
      modifies this
      ensures accepted == Accepts(old(Model()))
      ensures Model() == if accepted then Paired(Asked(old(Model()), to)) else Asked(old(Model()), to)
      ensures calls == old(calls) +
                       if accepted then TriggerCalls(Asked(old(Model()), to), ptrSet, alive) else []
    {
      counter := counter + 1;
      if counter > urls {
        return false;
      }
      promises := promises + [Waiter(counter - 1, to)];
      Trigger(ptrSet, alive);
      return true;
    }

    /** Claims all outstanding responses; no native call is made for them any more. */
    method CleanUpQueue(client: Ptr, ptrSet: bool, alive: bool)
      requires promises == [] || responses == []
      modifies this
      ensures Model() == CleanedUp(old(Model()), client)
      ensures calls == old(calls)
    {
      ghost var q := Model();
      cleanUp := true;
      ClaimNone(q, client);
      while urls - counter > 0
        invariant cleanUp && q.counter <= counter <= Max(q.counter, urls)
        invariant Model() == ClaimedUpTo(q, client, counter) && calls == old(calls)
        decreases urls - counter
      {
        ClaimOneMore(q, client, counter);
        var _ := GetNext(ByCleanUp(client), ptrSet, alive);
      }
    }
  }

  lemma ClaimNone(q: Queue, client: Ptr)
    requires q.waiters == [] || q.buffered == []
    ensures ClaimedUpTo(q, client, q.counter) == q.(cleanUp := true)
  {
  }

  lemma PairIdle(q: Queue, ptrSet: bool, alive: bool)
    requires q.waiters == [] || q.buffered == []
    ensures Paired(q) == q && TriggerCalls(q, ptrSet, alive) == []
  {
  }

  function PopCalls(q: Queue, ptrSet: bool, alive: bool): seq<Call>
    requires q.buffered != []
  {
    if q.cleanUp || !ptrSet then [] else Notice(q.root, q.ctx, q.buffered[0], alive)
  }

  lemma AssociateCalls(a: seq<Call>, b: seq<Call>, c: seq<Call>)
    ensures a + (b + c) == (a + b) + c
  {
  }

  /** Resolving the first promise leaves the rest of `trigger` to do. */
  lemma PairOne(q: Queue, ptrSet: bool, alive: bool)
    requires q.waiters != [] && q.buffered != []
    ensures Paired(Popped(q)) == Paired(q)
    ensures TriggerCalls(q, ptrSet, alive) == PopCalls(q, ptrSet, alive) + TriggerCalls(Popped(q), ptrSet, alive)
  {
    var next := Popped(q);
    assert q.buffered[..Pairs(q)][1..] == next.buffered[..Pairs(next)];
  }

  /** The liveness question and the answer for each delivered response. */
  function Told(root: Ptr, ctx: Ptr, ds: seq<Delivery>): seq<Call> {
    if ds == [] then [] else [IsAlive(root, ctx), SetResponse(root, ctx, ds[0].url)] + Told(root, ctx, ds[1..])
  }

  /** The liveness question alone, for each of n responses. */
  function Questions(root: Ptr, ctx: Ptr, n: nat): seq<Call> {
    if n == 0 then [] else [IsAlive(root, ctx)] + Questions(root, ctx, n - 1)
  }

  /** What the engine hears of responses `ds`: with their answers while the context is alive, else questions only. */
  function Heard(root: Ptr, ctx: Ptr, ds: seq<Delivery>, alive: bool): seq<Call> {
    if alive then Told(root, ctx, ds) else Questions(root, ctx, |ds|)
  }

  lemma HeardNext(root: Ptr, ctx: Ptr, ds: seq<Delivery>, n: nat, alive: bool)
    requires n < |ds|
    ensures Heard(root, ctx, ds[n..], alive) ==
            Notice(root, ctx, ds[n].url, alive) + Heard(root, ctx, ds[n + 1..], alive)
  {
    assert ds[n..][0] == ds[n] && ds[n..][1..] == ds[n + 1..];
    if alive {
      assert Notice(root, ctx, ds[n].url, true) == [IsAlive(root, ctx), SetResponse(root, ctx, ds[n].url)];
    } else {
      assert Notice(root, ctx, ds[n].url, false) == [IsAlive(root, ctx)];
    }
  }

  lemma {:induction false} DeliveredStays(q: Queue)
    ensures q.delivered <= Paired(q).delivered
    decreases |q.waiters|
  {
    if q.waiters != [] && q.buffered != [] { DeliveredStays(Popped(q)); }
  }

  lemma FirstDelivered(q: Queue)
    requires q.waiters != [] && q.buffered != []
    ensures |q.delivered| < |Paired(q).delivered| && Paired(q).delivered[|q.delivered|].url == q.buffered[0]
  {
    DeliveredStays(Popped(q));
    assert Popped(q).delivered[|q.delivered|].url == q.buffered[0];
  }

  /**
   While the context is alive the engine is told each response that a promise
   gets, in that order and under its own url, and nothing else.  A dead context
   is only asked for, and without a client or after a clean-up there is no call.
   */
  lemma {:induction false} EngineIsToldDeliveries(q: Queue, ptrSet: bool, alive: bool)
    ensures TriggerCalls(q, ptrSet, alive) ==
            if q.cleanUp || !ptrSet then [] else Heard(q.root, q.ctx, Paired(q).delivered[|q.delivered|..], alive)
    decreases |q.waiters|
  {
    if !q.cleanUp && ptrSet {
      if q.waiters == [] || q.buffered == [] {
        PairIdle(q, ptrSet, alive);
        assert q.delivered[|q.delivered|..] == [];
      } else {
        EngineIsToldDeliveries(Popped(q), ptrSet, alive);
        ToldFirst(q, ptrSet, alive);
      }
    }
  }

  lemma ToldFirst(q: Queue, ptrSet: bool, alive: bool)
    requires q.waiters != [] && q.buffered != [] && !q.cleanUp && ptrSet
    requires TriggerCalls(Popped(q), ptrSet, alive) ==
             Heard(q.root, q.ctx, Paired(Popped(q)).delivered[|q.delivered| + 1..], alive)
    ensures TriggerCalls(q, ptrSet, alive) == Heard(q.root, q.ctx, Paired(q).delivered[|q.delivered|..], alive)
  {
    PairOne(q, ptrSet, alive);
    FirstDelivered(q);
    HeardNext(q.root, q.ctx, Paired(q).delivered, |q.delivered|, alive);
  }

  /** Claiming one response more and pairing again is the same as pairing once at the end. */
  lemma ClaimOneMore(q: Queue, client: Ptr, upTo: nat)
    requires q.counter <= upTo < q.urls
    ensures Paired(Asked(ClaimedUpTo(q, client, upTo), ByCleanUp(client))) == ClaimedUpTo(q, client, upTo + 1)
  {
    AskAfterPairing(Claimed(q, client, upTo), ByCleanUp(client));
  }

  /** Pairing before a further promise is accepted makes no difference. */
  lemma {:induction false} AskAfterPairing(q: Queue, to: Recipient)
    requires Accepts(q)
    ensures Paired(Asked(Paired(q), to)) == Paired(Asked(q, to))
    decreases |q.waiters|
  {
    if q.waiters != [] && q.buffered != [] {
      assert Asked(q, to).waiters[1..] == Asked(Popped(q), to).waiters;
      AskAfterPairing(Popped(q), to);
    }
  }
}
