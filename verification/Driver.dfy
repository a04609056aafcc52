/**
 The asynchronous request driver of the WASM binding as a state machine.
 A step is a run-to-completion segment of JavaScript or a part of one: between
 two steps any other step of any client may happen.  So the model has all
 interleavings of the source, and more where it cuts one segment into several
 (entering a request, creating its context and the first turn of its loop; an
 answer and the next turn).
 */
module Driver {
  import opened NativeEngine
  import opened UrlQueues

  /** An `IN3` object; `collected` once the garbage collector has dropped it. */
  datatype Client = Client(ptr: Ptr, pending: int, delayFree: bool, collected: bool)

  /** Where a `sendRequest` call is suspended. */
  datatype Pc =
    | Ensuring                       // found no native client, waits for _ensure_ptr
    | Ready                          // _ensure_ptr has run, about to create the context
    | Loop                           // about to test the loop condition
    | Awaiting(queue: nat)           // awaits getNext of a queue
    | Refused                        // awaits a promise that getNext rejected
    | Sleeping(ctx: Ptr, urls: nat)  // awaits the timer the engine asked for
    | Answering(ctx: Ptr)            // awaits a signature or a promise:// result
    | Finished

  datatype Frame = Frame(client: nat, pc: Pc, root: Ptr, queues: map<Ptr, nat>)

  datatype State = State(
    weak: bool,                    // the platform has a FinalizationRegistry
    clients: map<nat, Client>,
    registry: map<Ptr, nat>,       // the `clients` table: pointer to object
    cells: set<(nat, Ptr)>,        // registered finalizers
    frames: map<nat, Frame>,
    queues: map<nat, Queue>,
    world: World,
    log: seq<Call>,                // native calls in order
    faults: seq<Call>)             // those the engine could not legally take

  /** What ctx_execute reports. */
  datatype Reply =
    | Done                                               // ok, error or unreadable
    | Waiting(ctx: Ptr)
    | Sign(ctx: Ptr)
    | Rpc(ctx: Ptr, urls: nat, wait: bool, promise: bool)
    | Other                                              // nothing the loop knows how to serve

  datatype Step =
    | New(c: nat)
    | Send(c: nat, f: nat, root: Ptr)
    | Ensure(f: nat, ptr: Ptr)
    | Admit(f: nat, root: Ptr)
    | Test(f: nat, reply: Reply, required: set<Ptr>, q: nat)
    | Wake(f: nat, q: nat)
    | Answer(f: nat)
    | Reject(f: nat)
    | Settle(q: nat, url: nat)
    | Callback(q: nat, k: nat, bad: bool)
    | Free(c: nat, gc: bool)
    | Collect(c: nat)
    | Finalize(c: nat, ptr: Ptr)

  function Init(weak: bool): State {
    State(weak, map[], map[], {}, map[], map[], BOOT, [], [])
  }

  function Emit(s: State, c: Call): State {
    s.(world := Effect(s.world, c), log := s.log + [c],
       faults := if Legal(s.world, c) then s.faults else s.faults + [c])
  }

  function EmitAll(s: State, cs: seq<Call>): State
    decreases cs
  {
    if cs == [] then s else EmitAll(Emit(s, cs[0]), cs[1..])
  }

  predicate Active(fr: Frame) {
    fr.pc.Loop? || fr.pc.Awaiting? || fr.pc.Refused? || fr.pc.Sleeping? || fr.pc.Answering?
  }

  predicate Starting(fr: Frame) { fr.pc.Ensuring? || fr.pc.Ready? }

  /** The requests of a client whose native context exists. */
  function Running(s: State, c: nat): set<nat> {
    set f | f in s.frames && s.frames[f].client == c && Active(s.frames[f])
  }

  // ---- the segments ----

  function SetPc(s: State, f: nat, pc: Pc): State
    requires f in s.frames
  {
    s.(frames := s.frames[f := s.frames[f].(pc := pc)])
  }

  function SetClient(s: State, c: nat, k: Client): State {
    s.(clients := s.clients[c := k])
  }

  /** `free(gc)` */
  function FreeClient(s: State, c: nat, gc: bool): State
    requires c in s.clients
  {
    var k := s.clients[c];
    if k.pending != 0 then SetClient(s, c, k.(delayFree := true))
    else if k.ptr != 0 then
      var t := Emit(s, DisposeClient(k.ptr));
      SetClient(t.(cells := if s.weak && !gc then set x | x in s.cells && x.0 != c else s.cells,
                   registry := s.registry - {k.ptr}),
                c, k.(ptr := 0))
    else s
  }

  /** `_ensure_ptr_sync` */
  function EnsureClient(s: State, c: nat, ptr: Ptr): State
    requires c in s.clients
  {
    if s.clients[c].ptr != 0 then s
    else
      var t := Emit(s, CreateClient(ptr));
      SetClient(t.(registry := s.registry[ptr := c], cells := if s.weak then s.cells + {(c, ptr)} else s.cells),
                c, s.clients[c].(ptr := ptr))
  }

  /** Creates the native context; root 0 means the engine refused and sendRequest throws. */
  function AdmitFrame(s: State, f: nat, root: Ptr): State
    requires f in s.frames && s.frames[f].client in s.clients
  {
    var c := s.frames[f].client;
    var k := s.clients[c];
    var t := Emit(s, CreateCtx(k.ptr, root));
    if root == 0 then SetPc(t, f, Finished)
    else SetClient(t.(frames := s.frames[f := s.frames[f].(pc := Loop, root := root)]), c, k.(pending := k.pending + 1))
  }

  /** The finally block up to `pending--`: cleans up the queues and releases the context. */
  function Release(s: State, f: nat): State
    requires f in s.frames && s.frames[f].client in s.clients
  {
    var c := s.frames[f].client;
    var k := s.clients[c];
    var mine := s.frames[f].queues.Values;
    var t := s.(queues := map q | q in s.queues :: if q in mine then CleanedUp(s.queues[q], k.ptr) else s.queues[q]);
    SetClient(SetPc(Emit(t, FreeCtx(s.frames[f].root)), f, Finished), c, k.(pending := k.pending - 1))
  }

  /** The exit of the loop with its whole finally block. */
  function Finish(s: State, f: nat): State
    requires f in s.frames && s.frames[f].client in s.clients
  {
    var c := s.frames[f].client;
    var t := Release(s, f);
    if t.clients[c].pending == 0 && t.clients[c].delayFree then FreeClient(t, c, false) else t
  }

  predicate WakesLoop(q: Queue) {
    exists i | 0 <= i < Pairs(q) :: q.waiters[i].to == ByLoop
  }

  /** Stores `queue` as q and runs its `trigger`. */
  function Pump(s: State, q: nat, queue: Queue): State
    requires queue.frame in s.frames && s.frames[queue.frame].client in s.clients
  {
    var ptrSet := s.clients[s.frames[queue.frame].client].ptr != 0;
    var alive := queue.root in s.world.chain && queue.ctx in s.world.chain[queue.root];
    var t := EmitAll(s, TriggerCalls(queue, ptrSet, alive)).(queues := s.queues[q := Paired(queue)]);
    t.(frames := if WakesLoop(queue) then s.frames[queue.frame := s.frames[queue.frame].(pc := Loop)] else s.frames)
  }

  /** `await queue.getNext()` in the loop of f */
  function AwaitNext(s: State, f: nat, q: nat): State
    requires f in s.frames && s.frames[f].client in s.clients
    requires q in s.queues && s.queues[q].frame == f
  {
    if Accepts(s.queues[q]) then Pump(SetPc(s, f, Awaiting(q)), q, Asked(s.queues[q], ByLoop))
    else SetPc(s.(queues := s.queues[q := Asked(s.queues[q], ByLoop)]), f, Refused)
  }

  /** `url_queue`: sends the request to its urls; an earlier queue of the same context is overwritten. */
  function Open(s: State, f: nat, ctx: Ptr, urls: nat, q: nat): State
    requires f in s.frames
  {
    var fr := s.frames[f];
    s.(queues := s.queues[q := Fresh(f, fr.root, ctx, urls)],
       frames := s.frames[f := fr.(queues := fr.queues[ctx := q])])
  }

  function SendOut(s: State, f: nat, ctx: Ptr, urls: nat, q: nat): State
    requires f in s.frames && s.frames[f].client in s.clients
  {
    if urls == 0 then Finish(s, f) else AwaitNext(Open(s, f, ctx, urls, q), f, q)
  }

  /** Serves what the engine asked for. */
  function Served(t: State, f: nat, reply: Reply, q: nat): State
    requires Linked(t) && f in t.frames
  {
    match reply
    case Done => Finish(t, f)
    case Waiting(ctx) => if ctx in t.frames[f].queues then AwaitNext(t, f, t.frames[f].queues[ctx]) else Finish(t, f)
    case Sign(ctx) => SetPc(t, f, Answering(ctx))
    case Rpc(ctx, urls, wait, promise) =>
      if promise then SetPc(t, f, Answering(ctx))
      else if wait then SetPc(t, f, Sleeping(ctx, urls))
      else SendOut(t, f, ctx, urls, q)
    case Other => t
  }

  predicate Cancelled(s: State, f: nat)
    requires f in s.frames && s.frames[f].client in s.clients
  {
    var k := s.clients[s.frames[f].client];
    k.ptr == 0 || k.delayFree
  }

  /** One turn of the main loop. */
  function TestLoop(s: State, f: nat, reply: Reply, required: set<Ptr>, q: nat): State
    requires Linked(s) && f in s.frames
  {
    if Cancelled(s, f) then Finish(s, f)
    else Served(Emit(s, Execute(s.frames[f].root, required)), f, reply, q)
  }

  // ---- steps ----

  /** The chain the engine reports holds the root and the context it speaks about. */
  predicate Plausible(root: Ptr, reply: Reply, required: set<Ptr>) {
    && root in required
    && match reply
       case Waiting(ctx) => ctx in required
       case Sign(ctx) => ctx in required
       case Rpc(ctx, _, _, _) => ctx in required
       case _ => true
  }

  predicate FreshRoot(s: State, root: Ptr) { root == 0 || root !in s.world.everRoots }

  /** References held by an object lead to objects; no JavaScript step can break this. */
  predicate Linked(s: State) {
    && (forall f | f in s.frames :: s.frames[f].client in s.clients)
    && (forall q | q in s.queues :: s.queues[q].frame in s.frames)
    && (forall f, x | f in s.frames && x in s.frames[f].queues ::
          s.frames[f].queues[x] in s.queues && s.queues[s.frames[f].queues[x]].frame == f)
    && (forall p | p in s.registry :: s.registry[p] in s.clients)
  }

  /**
   When a step can happen.  The environment hands out fresh pointers, settles a
   transport promise at most once, and collects a client only after its requests
   have ended.
   */
  predicate Enabled(s: State, step: Step) {
    && Linked(s)
    && match step
       case New(c) => c !in s.clients
       case Send(c, f, root) => c in s.clients && !s.clients[c].collected && f !in s.frames && FreshRoot(s, root)
       case Ensure(f, ptr) => f in s.frames && s.frames[f].pc == Ensuring && ptr != 0 && ptr !in s.world.everClients
       case Admit(f, root) => f in s.frames && s.frames[f].pc == Ready && FreshRoot(s, root)
       case Test(f, reply, required, q) =>
         f in s.frames && s.frames[f].pc == Loop && Plausible(s.frames[f].root, reply, required) && q !in s.queues
       case Wake(f, q) => f in s.frames && s.frames[f].pc.Sleeping? && q !in s.queues
       case Answer(f) => f in s.frames && s.frames[f].pc.Answering?
       case Reject(f) => f in s.frames && s.frames[f].pc.Refused?
       case Settle(q, url) => q in s.queues && url < s.queues[q].urls && url !in s.queues[q].arrived
       case Callback(q, k, _) =>
         && q in s.queues && k < |s.queues[q].delivered| && s.queues[q].delivered[k].to.ByCleanUp?
         && k !in s.queues[q].handled
       case Free(c, _) => c in s.clients && !s.clients[c].collected
       case Collect(c) =>
         && c in s.clients && !s.clients[c].collected && (s.weak || s.clients[c].ptr == 0)
         && forall f | f in s.frames && s.frames[f].client == c :: s.frames[f].pc == Finished
       case Finalize(c, ptr) => c in s.clients && s.clients[c].collected && (c, ptr) in s.cells
  }

  function Apply(s: State, step: Step): State
    requires Enabled(s, step)
  {
    match step
    case New(c) => SetClient(s, c, Client(0, 0, false, false))
    case Send(c, f, root) =>
      if s.clients[c].ptr == 0 then s.(frames := s.frames[f := Frame(c, Ensuring, 0, map[])])
      else AdmitFrame(s.(frames := s.frames[f := Frame(c, Ready, 0, map[])]), f, root)
    case Ensure(f, ptr) => SetPc(EnsureClient(s, s.frames[f].client, ptr), f, Ready)
    case Admit(f, root) => AdmitFrame(s, f, root)
    case Test(f, reply, required, q) => TestLoop(s, f, reply, required, q)
    case Wake(f, q) => SendOut(s, f, s.frames[f].pc.ctx, s.frames[f].pc.urls, q)
    case Answer(f) => SetPc(Emit(s, SetResponse(s.frames[f].root, s.frames[f].pc.ctx, 0)), f, Loop)
    case Reject(f) => Finish(s, f)
    case Settle(q, url) => Pump(s, q, Pushed(s.queues[q], url))
    case Callback(q, k, bad) =>
      var d := s.queues[q].delivered[k];
      var t := s.(queues := s.queues[q := s.queues[q].(handled := s.queues[q].handled + {k})]);
      if bad && d.to.client in s.registry && !s.clients[s.registry[d.to.client]].collected
      then Emit(t, Blacklist(d.to.client, d.url)) else t
    case Free(c, gc) => FreeClient(s, c, gc)
    case Collect(c) => SetClient(s, c, s.clients[c].(collected := true))
    case Finalize(c, ptr) =>
      Emit(s, DisposeClient(ptr)).(registry := s.registry - {ptr}, cells := s.cells - {(c, ptr)})
  }

  /** The states after each prefix of `steps`, if all of them can be taken. */
  ghost predicate Possible(s: State, steps: seq<Step>)
    decreases steps
  {
    steps == [] || (Enabled(s, steps[0]) && Possible(Apply(s, steps[0]), steps[1..]))
  }

  ghost function After(s: State, steps: seq<Step>): State
    requires Possible(s, steps)
    decreases steps
  {
    if steps == [] then s else After(Apply(s, steps[0]), steps[1..])
  }
}
