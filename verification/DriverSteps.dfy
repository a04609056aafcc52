/** Each segment of the driver keeps the invariant. */
module DriverSteps {
  import opened NativeEngine
  import opened UrlQueues
  import opened Driver
  import opened DriverInvariant

  /** Moving a running request to another suspension point does not change who is running. */
  lemma SameRunning(s: State, t: State, f: nat)
    requires f in s.frames && f in t.frames && Active(s.frames[f]) && Active(t.frames[f])
    requires t.frames == s.frames[f := t.frames[f]] && t.frames[f].client == s.frames[f].client
    ensures forall c :: Running(t, c) == Running(s, c)
  {
    forall c ensures Running(t, c) == Running(s, c) {
    }
  }

  /** Queue `queue` is stored as q and paired, which may send its request back to the loop. */
  ghost predicate Pumped(s: State, t: State, q: nat, queue: Queue) {
    && queue.frame in s.frames
    && t == s.(log := t.log, queues := s.queues[q := Paired(queue)],
               frames := if WakesLoop(queue) then s.frames[queue.frame := s.frames[queue.frame].(pc := Loop)]
                         else s.frames)
  }

  /** What `trigger` does to the state, given that a promise of the loop implies a live root. */
  lemma PumpIs(s: State, q: nat, queue: Queue)
    requires LogOk(s) && queue.frame in s.frames && s.frames[queue.frame].client in s.clients
    requires Pairs(queue) > 0 && !queue.cleanUp ==> queue.root in s.world.owner
    ensures
      var t := Pump(s, q, queue);
      Pumped(s, t, q, queue) && LogOk(t)
  {
    var ptrSet := s.clients[s.frames[queue.frame].client].ptr != 0;
    var alive := queue.root in s.world.chain && queue.ctx in s.world.chain[queue.root];
    var calls := TriggerCalls(queue, ptrSet, alive);
    if calls != [] {
      assert Pairs(queue) > 0;
      NoticesHarmless(s.world, queue.root, queue.ctx, queue.buffered[..Pairs(queue)], alive);
    }
    HarmlessCalls(s, calls);
  }

  /** As far as its request can tell, the queue is as before. */
  ghost predicate SameQueue(k: Queue, k': Queue) {
    && k'.frame == k.frame && k'.root == k.root && k'.ctx == k.ctx && k'.cleanUp == k.cleanUp
    && (!k.cleanUp ==> k'.waiters == k.waiters)
  }

  /** A request that a step leaves alone stays as it should be. */
  lemma FrameStays(s: State, t: State, f: nat)
    requires Linked(s) && Linked(t) && f in s.frames && f in t.frames && FrameOk(s, f)
    requires t.frames[f] == s.frames[f]
    requires
      var k, k' := s.clients[s.frames[f].client], t.clients[s.frames[f].client];
      k'.collected == k.collected && (Active(s.frames[f]) ==> k'.ptr == k.ptr)
    requires
      var r := s.frames[f].root;
      Active(s.frames[f]) ==>
        && r in t.world.owner && (t.world.owner[r] == s.world.owner[r])
        && (r in s.world.chain ==> r in t.world.chain && t.world.chain[r] == s.world.chain[r])
    requires forall q | q in s.queues && s.queues[q].frame == f :: q in t.queues && SameQueue(s.queues[q], t.queues[q])
    ensures FrameOk(t, f)
  {
  }

  /** Request g has kept its place, its context and its queues. */
  ghost predicate Spared(s: State, t: State, g: nat)
    requires Linked(s) && Linked(t) && g in s.frames
  {
    var fr := s.frames[g];
    && g in t.frames && t.frames[g] == fr
    && var k, k' := s.clients[fr.client], t.clients[fr.client];
    && k'.collected == k.collected && k'.ptr == k.ptr
    && (fr.root in s.world.owner && Active(fr) ==>
          fr.root in t.world.owner && t.world.owner[fr.root] == s.world.owner[fr.root])
    && (fr.root in s.world.chain && Active(fr) ==>
          fr.root in t.world.chain && t.world.chain[fr.root] == s.world.chain[fr.root])
    && forall q | q in s.queues && s.queues[q].frame == g :: q in t.queues && t.queues[q] == s.queues[q]
  }

  lemma SparedStays(s: State, t: State, g: nat)
    requires Linked(s) && Linked(t) && g in s.frames && FrameOk(s, g) && Spared(s, t, g)
    ensures FrameOk(t, g)
  {
    FrameStays(s, t, g);
  }

  lemma QueueStays(s: State, t: State, q: nat)
    requires Linked(s) && Linked(t) && q in s.queues && q in t.queues && QueueOk(s, q)
    requires SameQueue(s.queues[q], t.queues[q])
    requires t.frames[s.queues[q].frame] == s.frames[s.queues[q].frame]
    ensures QueueOk(t, q)
  {
  }

  lemma RootsStay(s: State, t: State)
    requires RootsOk(s) && t.world == s.world && t.frames.Keys == s.frames.Keys
    requires forall f | f in s.frames ::
               t.frames[f].root == s.frames[f].root && (Active(s.frames[f]) ==> Active(t.frames[f]))
    ensures RootsOk(t)
  {
  }

  lemma ClientStays(s: State, t: State, d: nat)
    requires d in s.clients && d in t.clients && ClientOk(s, d) && t.frames == s.frames
    requires t.clients[d] == s.clients[d].(delayFree := t.clients[d].delayFree, collected := t.clients[d].collected)
    requires s.clients[d].collected ==> t.clients[d].collected
    requires var p := s.clients[d].ptr; p in s.registry ==> p in t.registry && t.registry[p] == s.registry[p]
    ensures ClientOk(t, d)
  {
    assert Running(t, d) == Running(s, d);
  }

  /** Nothing a client depends on has changed. */
  lemma ClientsStay(s: State, t: State)
    requires ClientsOk(s) && t.frames == s.frames && t.clients == s.clients && t.registry == s.registry
    ensures ClientsOk(t)
  {
    forall c | c in t.clients ensures ClientOk(t, c) { ClientStays(s, t, c); }
  }

  lemma QueuesStay(s: State, t: State)
    requires QueuesOk(s) && Linked(t) && t.frames == s.frames && t.queues == s.queues
    ensures QueuesOk(t)
  {
    forall x | x in t.queues ensures QueueOk(t, x) { QueueStays(s, t, x); }
  }

  /** One queue is replaced; its promises stay with the same holder. */
  ghost predicate Requeued(s: State, t: State, q: nat) {
    && q in s.queues && q in t.queues && SameQueue(s.queues[q], t.queues[q])
    && t == s.(log := t.log, faults := t.faults, queues := s.queues[q := t.queues[q]])
  }

  lemma RequeuedLinked(s: State, t: State, q: nat)
    requires Linked(s) && Requeued(s, t, q)
    ensures Linked(t)
  {
  }

  lemma RequeuedQueues(s: State, t: State, q: nat)
    requires QueuesOk(s) && Linked(t) && Requeued(s, t, q)
    ensures QueuesOk(t)
  {
    forall x | x in t.queues ensures QueueOk(t, x) { QueueStays(s, t, x); }
  }

  lemma RequeuedFrames(s: State, t: State, q: nat)
    requires FramesOk(s) && Linked(t) && Requeued(s, t, q)
    ensures FramesOk(t)
  {
    forall f | f in t.frames ensures FrameOk(t, f) { FrameStays(s, t, f); }
  }

  lemma RequeuedTidy(s: State, t: State, q: nat)
    requires Requeued(s, t, q)
    ensures Tidied(s, t)
  {
  }

  lemma RequeueKeeps(s: State, t: State, q: nat)
    requires Wired(s) && Requeued(s, t, q)
    ensures Wired(t)
  {
    RequeuedLinked(s, t, q);
    RequeuedQueues(s, t, q);
    RequeuedFrames(s, t, q);
    ClientsStay(s, t);
  }

  /** Running request f moves to another suspension point, together with the queue q it deals with. */
  ghost predicate Rewired(s: State, t: State, f: nat, q: nat) {
    && f in s.frames && Active(s.frames[f]) && (s.frames[f].pc.Awaiting? ==> s.frames[f].pc.queue == q)
    && f in t.frames && t.frames[f] == s.frames[f].(pc := t.frames[f].pc) && Active(t.frames[f])
    && q in s.queues && q in t.queues
    && t == s.(log := t.log, queues := s.queues[q := t.queues[q]], frames := s.frames[f := t.frames[f]])
    && var k, k' := s.queues[q], t.queues[q];
    && k.frame == f && k'.frame == f && k'.root == k.root && k'.ctx == k.ctx && k'.cleanUp == k.cleanUp
    && (k'.waiters == [] ||
        (|k'.waiters| == 1 && k'.waiters[0].to == ByLoop && t.frames[f].pc == Awaiting(q)))
    && (t.frames[f].pc.Awaiting? ==>
          && t.frames[f].pc.queue == q && |k'.waiters| == 1 && OnChain(s, s.frames[f].root, k.ctx)
          && k.ctx in s.frames[f].queues && s.frames[f].queues[k.ctx] == q)
    && !t.frames[f].pc.Sleeping? && !t.frames[f].pc.Answering?
  }

  lemma RewiredLinked(s: State, t: State, f: nat, q: nat)
    requires Linked(s) && Rewired(s, t, f, q)
    ensures Linked(t)
  {
  }

  lemma RewiredQueues(s: State, t: State, f: nat, q: nat)
    requires QueuesOk(s) && Linked(t) && Rewired(s, t, f, q)
    ensures QueuesOk(t)
  {
    forall x | x in t.queues ensures QueueOk(t, x) {
      assert QueueOk(s, x);
    }
  }

  lemma RewiredFrame(s: State, t: State, f: nat, q: nat)
    requires Rewired(s, t, f, q) && QueuesOk(s) && FramesOk(s) && Linked(t)
    ensures FrameOk(t, f)
  {
    assert QueueOk(s, q);
    assert FrameOk(s, f);
  }

  lemma RewiredFrames(s: State, t: State, f: nat, q: nat)
    requires QueuesOk(s) && FramesOk(s) && Linked(t) && Rewired(s, t, f, q)
    ensures FramesOk(t)
  {
    RewiredFrame(s, t, f, q);
    forall g | g in t.frames && g != f ensures FrameOk(t, g) {
      FrameStays(s, t, g);
    }
  }

  lemma RewiredClients(s: State, t: State, f: nat, q: nat)
    requires ClientsOk(s) && Rewired(s, t, f, q)
    ensures ClientsOk(t)
  {
    SameRunning(s, t, f);
    forall c | c in t.clients ensures ClientOk(t, c) { assert ClientOk(s, c); }
  }

  lemma RewiredRoots(s: State, t: State, f: nat, q: nat)
    requires RootsOk(s) && Rewired(s, t, f, q)
    ensures RootsOk(t)
  {
    RootsStay(s, t);
  }

  lemma RewiredTidy(s: State, t: State, f: nat, q: nat)
    requires Rewired(s, t, f, q)
    ensures Tidied(s, t)
  {
  }

  lemma RewireKeeps(s: State, t: State, f: nat, q: nat)
    requires Wired(s) && Rewired(s, t, f, q)
    ensures Wired(t)
  {
    RewiredLinked(s, t, f, q);
    RewiredQueues(s, t, f, q);
    RewiredFrames(s, t, f, q);
    RewiredClients(s, t, f, q);
    RewiredRoots(s, t, f, q);
  }

  lemma FifoAfter(s: State, t: State, q: nat)
    requires QueuesFifo(s) && q in t.queues && t.queues == s.queues[q := t.queues[q]] && Fifo(t.queues[q])
    ensures QueuesFifo(t)
  {
  }

  lemma WaitersOf(s: State, q: nat)
    requires Inv(s) && q in s.queues
    ensures WaitsFor(s, q)
  {
    assert QueueOk(s, q) && FrameOk(s, s.queues[q].frame);
  }

  /** A response arrived: its request goes on, or the response waits in the queue. */
  ghost predicate Arrived(s: State, t: State, q: nat) {
    q in s.queues && q in t.queues && (Rewired(s, t, s.queues[q].frame, q) || Requeued(s, t, q))
  }

  /** The response wakes the loop if the loop waits for it, and else changes no promise of the loop. */
  lemma ArrivalWakes(k: Queue, url: nat)
    requires Fifo(k) && (!k.cleanUp ==> k.waiters == [] || (|k.waiters| == 1 && k.waiters[0].to == ByLoop))
    ensures
      var p, k' := Pushed(k, url), Paired(Pushed(k, url));
      && (WakesLoop(p) <==> !k.cleanUp && k.waiters != [])
      && (WakesLoop(p) ==> k'.waiters == [])
      && (!k.cleanUp && !WakesLoop(p) ==> k'.waiters == k.waiters)
  {
    var p := Pushed(k, url);
    if !k.cleanUp && k.waiters != [] {
      assert p.waiters[0].to == ByLoop;
    }
  }

  /** The loop waits for queue q of its own, if for any. */
  ghost predicate WaitsFor(s: State, q: nat) {
    && q in s.queues
    && var k := s.queues[q];
    && k.frame in s.frames && k.root == s.frames[k.frame].root && Fifo(k)
    && (!k.cleanUp && k.waiters != [] ==>
          && |k.waiters| == 1 && k.waiters[0].to == ByLoop && k.root in s.world.owner
          && Active(s.frames[k.frame]) && s.frames[k.frame].pc == Awaiting(q))
  }

  lemma PumpedArrives(s: State, t: State, q: nat, url: nat)
    requires WaitsFor(s, q) && Pumped(s, t, q, Pushed(s.queues[q], url))
    ensures Arrived(s, t, q)
  {
    ArrivalWakes(s.queues[q], url);
  }

  lemma SettleIs(s: State, q: nat, url: nat, t: State)
    requires Inv(s) && Enabled(s, Settle(q, url)) && t == Apply(s, Settle(q, url))
    ensures Arrived(s, t, q) && t.queues[q] == Paired(Pushed(s.queues[q], url)) && t.faults == s.faults && LogOk(t)
  {
    WaitersOf(s, q);
    PumpIs(s, q, Pushed(s.queues[q], url));
    PumpedArrives(s, t, q, url);
  }

  lemma ArrivedKeeps(s: State, t: State, q: nat)
    requires Wired(s) && Arrived(s, t, q)
    ensures Wired(t) && Tidied(s, t)
  {
    if Requeued(s, t, q) {
      RequeueKeeps(s, t, q);
      RequeuedTidy(s, t, q);
    } else {
      RewireKeeps(s, t, s.queues[q].frame, q);
      RewiredTidy(s, t, s.queues[q].frame, q);
    }
  }

  lemma SettleKeeps(s: State, q: nat, url: nat)
    requires Inv(s) && Enabled(s, Settle(q, url))
    ensures Inv(Apply(s, Settle(q, url))) && Apply(s, Settle(q, url)).faults == s.faults
    ensures Tidied(s, Apply(s, Settle(q, url)))
  {
    var t := Apply(s, Settle(q, url));
    SettleIs(s, q, url, t);
    ArrivedKeeps(s, t, q);
    ArrivalKeepsFifo(s.queues[q], url);
    FifoAfter(s, t, q);
  }

  // ---- awaiting the next response ----

  ghost predicate CanAwait(s: State, f: nat, q: nat) {
    && f in s.frames && Active(s.frames[f]) && !s.frames[f].pc.Awaiting? && s.frames[f].client in s.clients
    && q in s.queues && s.queues[q].frame == f && s.queues[q].waiters == [] && !s.queues[q].cleanUp
    && s.queues[q].root == s.frames[f].root && s.frames[f].root in s.world.owner
    && OnChain(s, s.frames[f].root, s.queues[q].ctx)
    && s.queues[q].ctx in s.frames[f].queues && s.frames[f].queues[s.queues[q].ctx] == q
  }

  /** The loop goes on at once exactly if a response is there already. */
  lemma AskWakes(k: Queue)
    requires k.waiters == [] && Accepts(k)
    ensures
      var a, k' := Asked(k, ByLoop), Paired(Asked(k, ByLoop));
      && (WakesLoop(a) <==> k.buffered != []) && (WakesLoop(a) ==> k'.waiters == [])
      && (!WakesLoop(a) ==> k'.waiters == [Waiter(k.counter, ByLoop)])
  {
    var a := Asked(k, ByLoop);
    assert a.waiters == [Waiter(k.counter, ByLoop)];
    if k.buffered != [] {
      assert a.waiters[0].to == ByLoop;
      assert Popped(a).waiters == [];
    }
  }

  lemma PumpedAwaits(s: State, t: State, f: nat, q: nat)
    requires CanAwait(s, f, q) && Accepts(s.queues[q])
    requires Pumped(SetPc(s, f, Awaiting(q)), t, q, Asked(s.queues[q], ByLoop))
    ensures Rewired(s, t, f, q)
  {
    AskWakes(s.queues[q]);
  }

  lemma AwaitNextIs(s: State, f: nat, q: nat)
    requires LogOk(s) && CanAwait(s, f, q)
    ensures LogOk(AwaitNext(s, f, q)) && Rewired(s, AwaitNext(s, f, q), f, q)
    ensures AwaitNext(s, f, q).queues == s.queues[q := Paired(Asked(s.queues[q], ByLoop))]
  {
    var asked := Asked(s.queues[q], ByLoop);
    if Accepts(s.queues[q]) {
      PumpIs(SetPc(s, f, Awaiting(q)), q, asked);
      PumpedAwaits(s, AwaitNext(s, f, q), f, q);
    } else {
      PairIdle(asked, true, true);
    }
  }

  lemma AwaitNextKeeps(s: State, f: nat, q: nat)
    requires Inv(s) && CanAwait(s, f, q)
    ensures var t := AwaitNext(s, f, q); Inv(t) && t.faults == s.faults && Tidied(s, t)
  {
    AwaitNextIs(s, f, q);
    var t := AwaitNext(s, f, q);
    assert Fifo(s.queues[q]);
    AskKeepsFifo(s.queues[q], ByLoop);
    RewireKeeps(s, t, f, q);
    RewiredTidy(s, t, f, q);
    FifoAfter(s, t, q);
  }

  // ---- a running request moves on without touching a queue ----

  ghost predicate Moved(s: State, t: State, f: nat) {
    && f in s.frames && Active(s.frames[f]) && !s.frames[f].pc.Awaiting?
    && f in t.frames && t.frames[f] == s.frames[f].(pc := t.frames[f].pc)
    && Active(t.frames[f]) && !t.frames[f].pc.Awaiting?
    && (t.frames[f].pc.Sleeping? ==> OnChain(s, s.frames[f].root, t.frames[f].pc.ctx))
    && (t.frames[f].pc.Answering? ==> OnChain(s, s.frames[f].root, t.frames[f].pc.ctx))
    && t == s.(log := t.log, frames := s.frames[f := t.frames[f]])
  }

  lemma MovedLinked(s: State, t: State, f: nat)
    requires Linked(s) && Moved(s, t, f)
    ensures Linked(t)
  {
  }

  lemma MovedQueues(s: State, t: State, f: nat)
    requires QueuesOk(s) && Linked(t) && Moved(s, t, f)
    ensures QueuesOk(t)
  {
    forall x | x in t.queues ensures QueueOk(t, x) { assert QueueOk(s, x); }
  }

  lemma MovedFrames(s: State, t: State, f: nat)
    requires FramesOk(s) && Linked(t) && Moved(s, t, f)
    ensures FramesOk(t)
  {
    assert FrameOk(s, f);
    assert FrameOk(t, f);
    forall g | g in t.frames && g != f ensures FrameOk(t, g) { FrameStays(s, t, g); }
  }

  lemma MovedRest(s: State, t: State, f: nat)
    requires ClientsOk(s) && RootsOk(s) && Moved(s, t, f)
    ensures ClientsOk(t) && RootsOk(t)
  {
    RootsStay(s, t);
    SameRunning(s, t, f);
    forall c | c in t.clients ensures ClientOk(t, c) { assert ClientOk(s, c); }
  }

  lemma MovedTidy(s: State, t: State, f: nat)
    requires Moved(s, t, f)
    ensures Tidied(s, t)
  {
  }

  lemma MoveKeeps(s: State, t: State, f: nat)
    requires Wired(s) && Moved(s, t, f)
    ensures Wired(t)
  {
    MovedLinked(s, t, f);
    MovedQueues(s, t, f);
    MovedFrames(s, t, f);
    MovedRest(s, t, f);
  }

  lemma AnswerIs(s: State, f: nat)
    requires LogOk(s) && FramesOk(s) && Enabled(s, Answer(f))
    ensures
      var t := Apply(s, Answer(f));
      Moved(s, t, f) && LogOk(t) && t.faults == s.faults
  {
    assert FrameOk(s, f);
    HarmlessCall(s, SetResponse(s.frames[f].root, s.frames[f].pc.ctx, 0));
  }

  lemma AnswerKeeps(s: State, f: nat)
    requires Inv(s) && Enabled(s, Answer(f))
    ensures Inv(Apply(s, Answer(f))) && Apply(s, Answer(f)).faults == s.faults
    ensures Tidied(s, Apply(s, Answer(f)))
  {
    AnswerIs(s, f);
    MoveKeeps(s, Apply(s, Answer(f)), f);
    MovedTidy(s, Apply(s, Answer(f)), f);
  }

  // ---- ctx_execute ----

  ghost predicate Executed(s: State, t: State, f: nat) {
    && f in s.frames && s.frames[f].pc == Loop
    && var r := s.frames[f].root;
    && r in t.world.chain
    && t == s.(log := t.log, faults := t.faults, world := s.world.(chain := s.world.chain[r := t.world.chain[r]]))
  }

  lemma ExecutedFrames(s: State, t: State, f: nat)
    requires FramesOk(s) && RootsOk(s) && Linked(t) && Executed(s, t, f)
    ensures FramesOk(t)
  {
    ExecutedFrame(s, t, f);
    forall g | g in t.frames && g != f ensures FrameOk(t, g) {
      ExecutedSpares(s, t, f, g);
      SparedStays(s, t, g);
    }
  }

  lemma ExecutedFrame(s: State, t: State, f: nat)
    requires Linked(s) && Linked(t) && Executed(s, t, f) && FrameOk(s, f)
    ensures FrameOk(t, f)
  {
  }

  lemma ExecutedSpares(s: State, t: State, f: nat, g: nat)
    requires Linked(s) && Linked(t) && Executed(s, t, f) && RootsOk(s) && FrameOk(s, f) && g in s.frames && g != f
    ensures Spared(s, t, g)
  {
  }

  lemma ExecutedRoots(s: State, t: State, f: nat)
    requires RootsOk(s) && Executed(s, t, f) && s.frames[f].root in s.world.owner
    ensures RootsOk(t)
  {
  }

  lemma ExecutedTidy(s: State, t: State, f: nat)
    requires Executed(s, t, f)
    ensures Tidied(s, t)
  {
  }

  lemma ExecuteKeepsWired(s: State, t: State, f: nat)
    requires Wired(s) && Executed(s, t, f) && s.frames[f].root in s.world.owner
    ensures Wired(t)
  {
    QueuesStay(s, t);
    ExecutedFrames(s, t, f);
    ExecutedRoots(s, t, f);
    ClientsStay(s, t);
  }

  lemma ExecuteKeeps(s: State, f: nat, required: set<Ptr>)
    requires Inv(s) && f in s.frames && s.frames[f].pc == Loop
    ensures Inv(Emit(s, Execute(s.frames[f].root, required)))
    ensures Tidied(s, Emit(s, Execute(s.frames[f].root, required)))
    ensures s.frames[f].root in s.world.owner
  {
    var c := Execute(s.frames[f].root, required);
    var t := Emit(s, c);
    assert FrameOk(s, f);
    EmitLog(s, c);
    assert Executed(s, t, f);
    ExecuteKeepsWired(s, t, f);
    ExecutedTidy(s, t, f);
  }

  // ---- a new queue, possibly over an old one ----

  ghost predicate Enqueued(s: State, t: State, f: nat, q: nat, ctx: Ptr, urls: nat) {
    && f in s.frames && Active(s.frames[f]) && !s.frames[f].pc.Awaiting? && q !in s.queues
    && t == Open(s, f, ctx, urls, q)
  }

  lemma EnqueuedLinked(s: State, t: State, f: nat, q: nat, ctx: Ptr, urls: nat)
    requires Linked(s) && Enqueued(s, t, f, q, ctx, urls)
    ensures Linked(t)
  {
  }

  lemma EnqueuedQueues(s: State, t: State, f: nat, q: nat, ctx: Ptr, urls: nat)
    requires QueuesOk(s) && Linked(t) && Enqueued(s, t, f, q, ctx, urls)
    ensures QueuesOk(t)
  {
    forall x | x in t.queues ensures QueueOk(t, x) { if x != q { assert QueueOk(s, x); } }
  }

  lemma EnqueuedFrames(s: State, t: State, f: nat, q: nat, ctx: Ptr, urls: nat)
    requires FramesOk(s) && Linked(t) && Enqueued(s, t, f, q, ctx, urls)
    ensures FramesOk(t)
  {
    EnqueuedFrame(s, t, f, q, ctx, urls);
    forall g | g in t.frames && g != f ensures FrameOk(t, g) {
      EnqueuedSpares(s, t, f, q, ctx, urls, g);
      SparedStays(s, t, g);
    }
  }

  lemma EnqueuedFrame(s: State, t: State, f: nat, q: nat, ctx: Ptr, urls: nat)
    requires Linked(s) && Linked(t) && Enqueued(s, t, f, q, ctx, urls) && FrameOk(s, f)
    ensures FrameOk(t, f)
  {
  }

  lemma EnqueuedSpares(s: State, t: State, f: nat, q: nat, ctx: Ptr, urls: nat, g: nat)
    requires Linked(s) && Linked(t) && Enqueued(s, t, f, q, ctx, urls) && g in s.frames && g != f
    ensures Spared(s, t, g)
  {
  }

  lemma EnqueuedRest(s: State, t: State, f: nat, q: nat, ctx: Ptr, urls: nat)
    requires ClientsOk(s) && RootsOk(s) && Enqueued(s, t, f, q, ctx, urls)
    ensures ClientsOk(t) && RootsOk(t)
  {
    RootsStay(s, t);
    SameRunning(s, t, f);
    forall c | c in t.clients ensures ClientOk(t, c) { assert ClientOk(s, c); }
  }

  lemma EnqueuedTidy(s: State, t: State, f: nat, q: nat, ctx: Ptr, urls: nat)
    requires Enqueued(s, t, f, q, ctx, urls)
    ensures Tidied(s, t)
  {
  }

  lemma EnqueueKeeps(s: State, t: State, f: nat, q: nat, ctx: Ptr, urls: nat)
    requires Wired(s) && Enqueued(s, t, f, q, ctx, urls)
    ensures Wired(t)
  {
    EnqueuedLinked(s, t, f, q, ctx, urls);
    EnqueuedQueues(s, t, f, q, ctx, urls);
    EnqueuedFrames(s, t, f, q, ctx, urls);
    EnqueuedRest(s, t, f, q, ctx, urls);
  }

  lemma OpenKeeps(s: State, f: nat, ctx: Ptr, urls: nat, q: nat)
    requires Inv(s) && f in s.frames && Active(s.frames[f]) && !s.frames[f].pc.Awaiting? && q !in s.queues
    ensures Inv(Open(s, f, ctx, urls, q)) && Tidied(s, Open(s, f, ctx, urls, q))
  {
    var t := Open(s, f, ctx, urls, q);
    EnqueueKeeps(s, t, f, q, ctx, urls);
    EnqueuedTidy(s, t, f, q, ctx, urls);
    OpenFifo(s, f, ctx, urls, q);
    assert t.log == s.log && t.world == s.world && t.faults == s.faults;
  }

  lemma OpenFifo(s: State, f: nat, ctx: Ptr, urls: nat, q: nat)
    requires QueuesFifo(s) && f in s.frames && q !in s.queues
    ensures QueuesFifo(Open(s, f, ctx, urls, q))
  {
  }

  lemma OpenAwaits(s: State, f: nat, ctx: Ptr, urls: nat, q: nat)
    requires FramesOk(s) && f in s.frames && Active(s.frames[f]) && !s.frames[f].pc.Awaiting?
    requires OnChain(s, s.frames[f].root, ctx)
    ensures CanAwait(Open(s, f, ctx, urls, q), f, q)
  {
    assert FrameOk(s, f);
  }

  lemma SendOutKeeps(s: State, f: nat, ctx: Ptr, urls: nat, q: nat)
    requires Inv(s) && f in s.frames && Active(s.frames[f]) && !s.frames[f].pc.Awaiting? && q !in s.queues
    requires OnChain(s, s.frames[f].root, ctx)
    ensures Inv(SendOut(s, f, ctx, urls, q)) && SendOut(s, f, ctx, urls, q).faults == s.faults
    ensures Tidied(s, SendOut(s, f, ctx, urls, q))
  {
    if urls == 0 {
      FinishKeeps(s, f);
    } else {
      OpenKeeps(s, f, ctx, urls, q);
      OpenAwaits(s, f, ctx, urls, q);
      AwaitNextKeeps(Open(s, f, ctx, urls, q), f, q);
    }
  }

  // ---- free ----

  /** The native client of an idle client goes away. */
  ghost predicate Disposed(s: State, t: State, c: nat) {
    && c in s.clients && s.clients[c].ptr != 0 && s.clients[c].pending == 0 && !s.clients[c].collected
    && t == s.(log := t.log, faults := t.faults,
               world := s.world.(liveClients := s.world.liveClients - {s.clients[c].ptr}),
               registry := s.registry - {s.clients[c].ptr}, cells := t.cells,
               clients := s.clients[c := s.clients[c].(ptr := 0)])
    && t.cells <= s.cells
  }

  lemma DisposedLinked(s: State, t: State, c: nat)
    requires Linked(s) && Disposed(s, t, c)
    ensures Linked(t)
  {
  }

  lemma DisposedQueues(s: State, t: State, c: nat)
    requires QueuesOk(s) && Linked(t) && Disposed(s, t, c)
    ensures QueuesOk(t)
  {
    forall x | x in t.queues ensures QueueOk(t, x) { QueueStays(s, t, x); }
  }

  lemma IdleClient(s: State, c: nat, f: nat)
    requires ClientsOk(s) && c in s.clients && s.clients[c].pending == 0
    requires f in s.frames && s.frames[f].client == c
    ensures !Active(s.frames[f])
  {
    assert ClientOk(s, c);
    assert f in Running(s, c) <==> Active(s.frames[f]);
  }

  lemma DisposedFrames(s: State, t: State, c: nat)
    requires FramesOk(s) && ClientsOk(s) && Linked(t) && Disposed(s, t, c)
    ensures FramesOk(t)
  {
    forall g | g in t.frames ensures FrameOk(t, g) {
      if s.frames[g].client == c { IdleClient(s, c, g); }
      FrameStays(s, t, g);
    }
  }

  lemma DisposedRest(s: State, t: State, c: nat)
    requires ClientsOk(s) && RootsOk(s) && RegistryOk(s) && Disposed(s, t, c)
    ensures ClientsOk(t) && RootsOk(t) && RegistryOk(t)
  {
    forall d | d in t.clients ensures ClientOk(t, d) {
      assert ClientOk(s, d) && ClientOk(s, c);
      assert Running(t, d) == Running(s, d);
    }
  }

  lemma DisposedTidy(s: State, t: State, c: nat)
    requires Disposed(s, t, c) && RegistryOk(s) && ClientsOk(s)
    ensures CellsTidy(s) && (forall x | x in t.cells :: x.0 != c) ==> CellsTidy(t)
    ensures FramesTidy(s) && NoneStarting(s, c) ==> FramesTidy(t)
  {
    assert ClientOk(s, c);
  }

  /** A client without running requests owns no live context, so disposing it is legal. */
  lemma DisposeIsLegal(s: State, c: nat)
    requires Wired(s) && c in s.clients && s.clients[c].ptr != 0 && !s.clients[c].collected
    requires s.clients[c].pending == 0
    ensures Legal(s.world, DisposeClient(s.clients[c].ptr))
  {
    var p := s.clients[c].ptr;
    assert ClientOk(s, c);
    forall r | r in s.world.owner ensures s.world.owner[r] != p {
      var f :| f in s.frames && s.frames[f].root == r;
      assert FrameOk(s, f);
      if s.world.owner[r] == p {
        var d := s.frames[f].client;
        assert ClientOk(s, d);
        assert s.registry[p] == d && d == c;
        IdleClient(s, c, f);
      }
    }
  }

  ghost predicate Postponed(s: State, t: State, c: nat) {
    c in s.clients && t == s.(clients := s.clients[c := s.clients[c].(delayFree := true)])
  }

  lemma PostponedTidy(s: State, t: State, c: nat)
    requires Postponed(s, t, c)
    ensures CellsTidy(s) ==> CellsTidy(t)
    ensures FramesTidy(s) && NoneStarting(s, c) ==> FramesTidy(t)
  {
  }

  lemma PostponedFrames(s: State, t: State, c: nat)
    requires FramesOk(s) && Postponed(s, t, c)
    ensures FramesOk(t)
  {
    forall g | g in t.frames ensures FrameOk(t, g) { FrameStays(s, t, g); }
  }

  lemma PostponedClients(s: State, t: State, c: nat)
    requires ClientsOk(s) && Postponed(s, t, c)
    ensures ClientsOk(t)
  {
    forall d | d in t.clients ensures ClientOk(t, d) { ClientStays(s, t, d); }
  }

  lemma PostponedKeeps(s: State, t: State, c: nat)
    requires Wired(s) && Postponed(s, t, c)
    ensures Wired(t)
  {
    PostponedFrames(s, t, c);
    PostponedClients(s, t, c);
    QueuesStay(s, t);
  }

  lemma FreeKeeps(s: State, c: nat, gc: bool)
    requires Inv(s) && c in s.clients && !s.clients[c].collected
    ensures Inv(FreeClient(s, c, gc)) && FreeClient(s, c, gc).faults == s.faults
    ensures CellsTidy(s) && !(gc && s.weak) ==> CellsTidy(FreeClient(s, c, gc))
    ensures FramesTidy(s) && NoneStarting(s, c) ==> FramesTidy(FreeClient(s, c, gc))
  {
    var k := s.clients[c];
    var t := FreeClient(s, c, gc);
    if k.pending != 0 {
      PostponedKeeps(s, t, c);
      PostponedTidy(s, t, c);
    } else if k.ptr != 0 {
      assert ClientOk(s, c);
      DisposeIsLegal(s, c);
      EmitLog(s, DisposeClient(k.ptr));
      assert LogOk(t);
      assert Disposed(s, t, c);
      DisposedLinked(s, t, c);
      DisposedQueues(s, t, c);
      DisposedFrames(s, t, c);
      DisposedRest(s, t, c);
      DisposedTidy(s, t, c);
    }
  }

  // ---- the finally block ----

  /** Request f ends: its queues are cleaned up and its context is released. */
  ghost predicate Ended(s: State, t: State, f: nat) {
    && f in s.frames && Active(s.frames[f]) && !s.frames[f].pc.Awaiting?
    && var c := s.frames[f].client;
    && c in s.clients
    && t.queues.Keys == s.queues.Keys
    && (forall q | q in s.queues ::
          t.queues[q] == if q in s.frames[f].queues.Values then CleanedUp(s.queues[q], s.clients[c].ptr) else s.queues[q])
    && t == s.(log := t.log, faults := t.faults, queues := t.queues,
               world := s.world.(owner := s.world.owner - {s.frames[f].root}, chain := s.world.chain - {s.frames[f].root}),
               frames := s.frames[f := s.frames[f].(pc := Finished)],
               clients := s.clients[c := s.clients[c].(pending := s.clients[c].pending - 1)])
  }

  lemma EndedLinked(s: State, t: State, f: nat)
    requires Linked(s) && Ended(s, t, f)
    ensures Linked(t)
  {
  }

  lemma EndedQueues(s: State, t: State, f: nat)
    requires QueuesOk(s) && Linked(t) && Ended(s, t, f)
    ensures QueuesOk(t)
  {
    forall x | x in t.queues ensures QueueOk(t, x) {
      assert QueueOk(s, x);
      if s.queues[x].frame != f { assert SameQueue(s.queues[x], t.queues[x]); QueueStays(s, t, x); }
    }
  }

  lemma EndedFrame(s: State, t: State, f: nat)
    requires Linked(s) && Linked(t) && Ended(s, t, f) && FrameOk(s, f)
    ensures FrameOk(t, f)
  {
  }

  lemma EndedSpares(s: State, t: State, f: nat, g: nat)
    requires Linked(s) && Linked(t) && Ended(s, t, f) && RootsOk(s) && g in s.frames && g != f
    ensures Spared(s, t, g)
  {
  }

  lemma EndedFrames(s: State, t: State, f: nat)
    requires FramesOk(s) && RootsOk(s) && Linked(t) && Ended(s, t, f)
    ensures FramesOk(t)
  {
    EndedFrame(s, t, f);
    forall g | g in t.frames && g != f ensures FrameOk(t, g) {
      EndedSpares(s, t, f, g);
      SparedStays(s, t, g);
    }
  }

  /** One running request ends and takes its context along. */
  lemma RootsShrink(s: State, t: State, f: nat)
    requires RootsOk(s) && f in s.frames && t.frames.Keys == s.frames.Keys
    requires t.frames[f].root == s.frames[f].root && forall g | g in s.frames && g != f :: t.frames[g] == s.frames[g]
    requires t.world.owner == s.world.owner - {s.frames[f].root} && t.world.chain == s.world.chain - {s.frames[f].root}
    requires t.world.everRoots == s.world.everRoots
    ensures RootsOk(t)
  {
    assert forall g | g in t.frames :: t.frames[g].root == s.frames[g].root;
  }

  lemma EndedRoots(s: State, t: State, f: nat)
    requires RootsOk(s) && Ended(s, t, f)
    ensures RootsOk(t)
  {
    RootsShrink(s, t, f);
  }

  lemma EndedClients(s: State, t: State, f: nat)
    requires ClientsOk(s) && Ended(s, t, f)
    ensures ClientsOk(t)
  {
    forall d | d in t.clients ensures ClientOk(t, d) {
      assert ClientOk(s, d);
      assert f in Running(s, s.frames[f].client);
      assert Running(t, d) == Running(s, d) - (if d == s.frames[f].client then {f} else {});
    }
  }

  lemma EndedFifo(s: State, t: State, f: nat)
    requires Inv(s) && Ended(s, t, f)
    ensures QueuesFifo(t)
  {
    forall q | q in t.queues ensures Fifo(t.queues[q]) {
      if q in s.frames[f].queues.Values {
        var x :| x in s.frames[f].queues && s.frames[f].queues[x] == q;
        WaitersOf(s, q);
        CleanUpKeepsFifo(s.queues[q], s.clients[s.frames[f].client].ptr);
      }
    }
  }

  lemma EndedTidy(s: State, t: State, f: nat)
    requires Ended(s, t, f) && RootsOk(s)
    ensures Tidied(s, t)
  {
  }

  lemma EndKeeps(s: State, t: State, f: nat)
    requires Wired(s) && Ended(s, t, f)
    ensures Wired(t)
  {
    assert FrameOk(s, f);
    EndedLinked(s, t, f);
    EndedQueues(s, t, f);
    EndedFrames(s, t, f);
    EndedRoots(s, t, f);
    EndedClients(s, t, f);
  }

  lemma ReleaseIs(s: State, f: nat)
    requires LogOk(s) && RootsOk(s) && RegistryOk(s)
    requires f in s.frames && Active(s.frames[f]) && !s.frames[f].pc.Awaiting?
    requires s.frames[f].client in s.clients && s.frames[f].root in s.world.owner
    ensures Ended(s, Release(s, f), f) && LogOk(Release(s, f)) && Release(s, f).faults == s.faults
  {
    EmitLog(s, FreeCtx(s.frames[f].root));
  }

  lemma ReleaseKeeps(s: State, f: nat)
    requires Inv(s) && f in s.frames && Active(s.frames[f]) && !s.frames[f].pc.Awaiting?
    ensures Inv(Release(s, f)) && Release(s, f).faults == s.faults
    ensures Tidied(s, Release(s, f))
  {
    assert FrameOk(s, f);
    ReleaseIs(s, f);
    EndKeeps(s, Release(s, f), f);
    EndedTidy(s, Release(s, f), f);
    EndedFifo(s, Release(s, f), f);
  }

  lemma FinishKeeps(s: State, f: nat)
    requires Inv(s) && f in s.frames && Active(s.frames[f]) && !s.frames[f].pc.Awaiting?
    ensures Inv(Finish(s, f)) && Finish(s, f).faults == s.faults
    ensures Tidied(s, Finish(s, f))
  {
    assert FrameOk(s, f);
    ReleaseKeeps(s, f);
    var t, c := Release(s, f), s.frames[f].client;
    if t.clients[c].pending == 0 && t.clients[c].delayFree {
      FreeKeeps(t, c, false);
    }
  }

  // ---- one turn of the loop ----

  /** The reply is served from the state right after ctx_execute. */
  lemma WaitingCanAwait(s: State, f: nat, ctx: Ptr)
    requires Inv(s) && f in s.frames && s.frames[f].pc == Loop && ctx in s.frames[f].queues
    requires OnChain(s, s.frames[f].root, ctx)
    ensures CanAwait(s, f, s.frames[f].queues[ctx])
  {
    var q := s.frames[f].queues[ctx];
    assert FrameOk(s, f) && QueueOk(s, q);
  }

  lemma MoveOnKeeps(s: State, f: nat, pc: Pc)
    requires Inv(s) && f in s.frames && s.frames[f].pc == Loop
    requires (pc.Answering? || pc.Sleeping?) && OnChain(s, s.frames[f].root, pc.ctx)
    ensures Inv(SetPc(s, f, pc)) && SetPc(s, f, pc).faults == s.faults
    ensures Tidied(s, SetPc(s, f, pc))
  {
    var t := SetPc(s, f, pc);
    assert Moved(s, t, f);
    MoveKeeps(s, t, f);
    MovedTidy(s, t, f);
    assert t.log == s.log && t.world == s.world && t.queues == s.queues;
  }

  ghost predicate Replied(t: State, f: nat, reply: Reply, q: nat) {
    && f in t.frames && t.frames[f].pc == Loop && q !in t.queues
    && t.frames[f].root in t.world.chain && Plausible(t.frames[f].root, reply, t.world.chain[t.frames[f].root])
  }

  lemma WaitingKeeps(t: State, f: nat, ctx: Ptr, q: nat)
    requires Inv(t) && Replied(t, f, Waiting(ctx), q)
    ensures
      var u := Served(t, f, Waiting(ctx), q);
      Inv(u) && u.faults == t.faults && Tidied(t, u)
  {
    if ctx in t.frames[f].queues {
      WaitingCanAwait(t, f, ctx);
      AwaitNextKeeps(t, f, t.frames[f].queues[ctx]);
    } else {
      FinishKeeps(t, f);
    }
  }

  lemma ServedKeeps(t: State, f: nat, reply: Reply, q: nat)
    requires Inv(t) && Replied(t, f, reply, q)
    ensures var u := Served(t, f, reply, q); Inv(u) && u.faults == t.faults && Tidied(t, u)
  {
    match reply
    case Done => FinishKeeps(t, f);
    case Waiting(ctx) =>
      WaitingKeeps(t, f, ctx, q);
    case Sign(ctx) => MoveOnKeeps(t, f, Answering(ctx));
    case Rpc(ctx, urls, wait, promise) =>
      if promise {
        MoveOnKeeps(t, f, Answering(ctx));
      } else if wait {
        MoveOnKeeps(t, f, Sleeping(ctx, urls));
      } else {
        SendOutKeeps(t, f, ctx, urls, q);
      }
    case Other =>
  }

  function ExecuteFaults(s: State, root: Ptr, required: set<Ptr>): seq<Call>
    requires root in s.world.owner
  {
    if s.world.owner[root] in s.world.liveClients then s.faults else s.faults + [Execute(root, required)]
  }

  lemma EmitExecute(s: State, root: Ptr, required: set<Ptr>)
    requires root in s.world.owner
    ensures Emit(s, Execute(root, required)).faults == ExecuteFaults(s, root, required)
  {
  }

  lemma TurnKeeps(s: State, f: nat, reply: Reply, required: set<Ptr>, q: nat)
    requires Inv(s) && Enabled(s, Test(f, reply, required, q)) && !Cancelled(s, f)
    ensures Inv(TestLoop(s, f, reply, required, q)) && Tidied(s, TestLoop(s, f, reply, required, q))
    ensures s.frames[f].root in s.world.owner
    ensures TestLoop(s, f, reply, required, q).faults == ExecuteFaults(s, s.frames[f].root, required)
  {
    ExecuteKeeps(s, f, required);
    EmitExecute(s, s.frames[f].root, required);
    ExecuteReplied(s, f, reply, required, q);
    ServedKeeps(Emit(s, Execute(s.frames[f].root, required)), f, reply, q);
  }

  lemma ExecuteReplied(s: State, f: nat, reply: Reply, required: set<Ptr>, q: nat)
    requires RootsOk(s) && Enabled(s, Test(f, reply, required, q)) && s.frames[f].root in s.world.owner
    ensures Replied(Emit(s, Execute(s.frames[f].root, required)), f, reply, q)
  {
  }

  lemma TestKeeps(s: State, f: nat, reply: Reply, required: set<Ptr>, q: nat)
    requires Inv(s) && Enabled(s, Test(f, reply, required, q))
    ensures Inv(TestLoop(s, f, reply, required, q)) && Tidied(s, TestLoop(s, f, reply, required, q))
    ensures s.frames[f].root in s.world.owner
    ensures Cancelled(s, f) ==> TestLoop(s, f, reply, required, q).faults == s.faults
    ensures !Cancelled(s, f) ==>
              TestLoop(s, f, reply, required, q).faults == ExecuteFaults(s, s.frames[f].root, required)
  {
    assert FrameOk(s, f);
    if Cancelled(s, f) {
      FinishKeeps(s, f);
    } else {
      TurnKeeps(s, f, reply, required, q);
    }
  }

  // ---- starting a request ----

  ghost predicate Entered(s: State, t: State, c: nat, f: nat, pc: Pc) {
    && c in s.clients && !s.clients[c].collected && f !in s.frames && (pc == Ensuring || pc == Ready)
    && t == s.(frames := s.frames[f := Frame(c, pc, 0, map[])])
  }

  lemma EnteredQueues(s: State, t: State, c: nat, f: nat, pc: Pc)
    requires QueuesOk(s) && Entered(s, t, c, f, pc)
    ensures QueuesOk(t)
  {
    forall x | x in t.queues ensures QueueOk(t, x) { QueueStays(s, t, x); }
  }

  lemma EnteredFrames(s: State, t: State, c: nat, f: nat, pc: Pc)
    requires FramesOk(s) && Linked(t) && Entered(s, t, c, f, pc)
    ensures FramesOk(t)
  {
    assert FrameOk(t, f);
    forall g | g in t.frames && g != f ensures FrameOk(t, g) { FrameStays(s, t, g); }
  }

  lemma EnteredClients(s: State, t: State, c: nat, f: nat, pc: Pc)
    requires ClientsOk(s) && Entered(s, t, c, f, pc)
    ensures ClientsOk(t)
  {
    forall d | d in t.clients ensures ClientOk(t, d) { assert ClientOk(s, d); assert Running(t, d) == Running(s, d); }
  }

  lemma EnteredRoots(s: State, t: State, c: nat, f: nat, pc: Pc)
    requires RootsOk(s) && Entered(s, t, c, f, pc)
    ensures RootsOk(t)
  {
    forall r | r in t.world.owner ensures exists g :: g in t.frames && t.frames[g].root == r {
      var g :| g in s.frames && s.frames[g].root == r;
      assert t.frames[g].root == r;
    }
  }

  lemma EnteredTidy(s: State, t: State, c: nat, f: nat, pc: Pc)
    requires Entered(s, t, c, f, pc)
    ensures CellsTidy(s) ==> CellsTidy(t)
    ensures FramesTidy(s) && !s.clients[c].delayFree && (pc == Ready ==> s.clients[c].ptr != 0)
            ==> FramesTidy(t)
  {
  }

  lemma EnterKeeps(s: State, t: State, c: nat, f: nat, pc: Pc)
    requires Inv(s) && Entered(s, t, c, f, pc)
    ensures Inv(t)
    ensures CellsTidy(s) ==> CellsTidy(t)
    ensures FramesTidy(s) && !s.clients[c].delayFree && (pc == Ready ==> s.clients[c].ptr != 0) ==> FramesTidy(t)
  {
    EnteredQueues(s, t, c, f, pc);
    EnteredFrames(s, t, c, f, pc);
    EnteredClients(s, t, c, f, pc);
    EnteredRoots(s, t, c, f, pc);
    EnteredTidy(s, t, c, f, pc);
  }

  /** A waiting request changes its state without ever having had a context. */
  ghost predicate Restarted(s: State, t: State, f: nat) {
    && f in s.frames && Starting(s.frames[f])
    && f in t.frames && t.frames[f] == s.frames[f].(pc := t.frames[f].pc)
    && (t.frames[f].pc == Ready || t.frames[f].pc == Finished)
    && t == s.(log := t.log, faults := t.faults, frames := s.frames[f := t.frames[f]])
  }

  lemma RestartedQueues(s: State, t: State, f: nat)
    requires QueuesOk(s) && Restarted(s, t, f)
    ensures QueuesOk(t)
  {
    assert Linked(t);
    forall x | x in t.queues ensures QueueOk(t, x) { assert QueueOk(s, x); QueueStays(s, t, x); }
  }

  lemma RestartedFrames(s: State, t: State, f: nat)
    requires FramesOk(s) && Linked(t) && Restarted(s, t, f)
    ensures FramesOk(t)
  {
    assert FrameOk(s, f);
    assert FrameOk(t, f);
    forall g | g in t.frames && g != f ensures FrameOk(t, g) { FrameStays(s, t, g); }
  }

  lemma RestartedRest(s: State, t: State, f: nat)
    requires ClientsOk(s) && RootsOk(s) && Restarted(s, t, f)
    ensures ClientsOk(t) && RootsOk(t)
  {
    RootsStay(s, t);
    forall d | d in t.clients ensures ClientOk(t, d) { assert ClientOk(s, d); assert Running(t, d) == Running(s, d); }
  }

  lemma RestartedTidy(s: State, t: State, f: nat)
    requires Restarted(s, t, f)
    ensures CellsTidy(s) ==> CellsTidy(t)
    ensures FramesTidy(s) && (t.frames[f].pc == Ready ==> s.clients[s.frames[f].client].ptr != 0)
            ==> FramesTidy(t)
  {
  }

  lemma RestartKeeps(s: State, t: State, f: nat)
    requires Wired(s) && Restarted(s, t, f)
    ensures Wired(t)
  {
    RestartedQueues(s, t, f);
    RestartedFrames(s, t, f);
    RestartedRest(s, t, f);
  }

  // ---- creating the native client ----

  ghost predicate Created(s: State, t: State, c: nat, p: Ptr) {
    && c in s.clients && s.clients[c].ptr == 0 && !s.clients[c].collected
    && p != 0 && p !in s.world.everClients
    && t == s.(log := t.log, registry := s.registry[p := c], cells := t.cells,
               world := s.world.(everClients := s.world.everClients + {p}, liveClients := s.world.liveClients + {p}),
               clients := s.clients[c := s.clients[c].(ptr := p)])
    && s.cells <= t.cells <= s.cells + {(c, p)}
  }

  lemma CreatedQueues(s: State, t: State, c: nat, p: Ptr)
    requires QueuesOk(s) && Created(s, t, c, p)
    ensures QueuesOk(t)
  {
    assert Linked(t);
    forall x | x in t.queues ensures QueueOk(t, x) { QueueStays(s, t, x); }
  }

  /** A context created for the null client keeps the null client as its owner. */
  lemma CreatedFrames(s: State, t: State, c: nat, p: Ptr)
    requires FramesOk(s) && Linked(t) && Created(s, t, c, p)
    ensures FramesOk(t)
  {
    forall g | g in t.frames ensures FrameOk(t, g) {
      assert FrameOk(s, g);
      if s.frames[g].client != c { FrameStays(s, t, g); }
    }
  }

  lemma CreatedRest(s: State, t: State, c: nat, p: Ptr)
    requires RootsOk(s) && RegistryOk(s) && Created(s, t, c, p)
    ensures RootsOk(t) && RegistryOk(t)
  {
    RootsStayUnder(s, t);
  }

  lemma CreatedClients(s: State, t: State, c: nat, p: Ptr)
    requires ClientsOk(s) && RegistryOk(s) && Created(s, t, c, p)
    ensures ClientsOk(t)
  {
    assert ClientOk(s, c);
    assert Running(t, c) == Running(s, c);
    forall d | d in t.clients && d != c ensures ClientOk(t, d) { ClientStays(s, t, d); }
  }

  lemma CreatedTidy(s: State, t: State, c: nat, p: Ptr)
    ensures Created(s, t, c, p) && (!s.weak ==> t.cells == s.cells) ==> Tidied(s, t)
  {
  }

  lemma RootsStayUnder(s: State, t: State)
    requires RootsOk(s) && t.frames == s.frames
    requires t.world.owner == s.world.owner && t.world.chain == s.world.chain && t.world.everRoots == s.world.everRoots
    ensures RootsOk(t)
  {
  }

  lemma CreateKeeps(s: State, c: nat, p: Ptr)
    requires Inv(s) && c in s.clients && !s.clients[c].collected && p != 0 && p !in s.world.everClients
    ensures Inv(EnsureClient(s, c, p)) && EnsureClient(s, c, p).faults == s.faults
    ensures EnsureClient(s, c, p).frames == s.frames
    ensures Tidied(s, EnsureClient(s, c, p))
  {
    if s.clients[c].ptr == 0 {
      var t := EnsureClient(s, c, p);
      EmitLog(s, CreateClient(p));
      assert Created(s, t, c, p);
      CreatedQueues(s, t, c, p);
      CreatedFrames(s, t, c, p);
      CreatedRest(s, t, c, p);
      CreatedClients(s, t, c, p);
      CreatedTidy(s, t, c, p);
    }
  }

  lemma EnsureKeeps(s: State, f: nat, p: Ptr)
    requires Inv(s) && Enabled(s, Ensure(f, p))
    ensures Inv(Apply(s, Ensure(f, p))) && Apply(s, Ensure(f, p)).faults == s.faults
    ensures Tidied(s, Apply(s, Ensure(f, p)))
  {
    assert FrameOk(s, f);
    var c := s.frames[f].client;
    CreateKeeps(s, c, p);
    var t := EnsureClient(s, c, p);
    var u := SetPc(t, f, Ready);
    assert Restarted(t, u, f);
    RestartKeeps(t, u, f);
    RestartedTidy(t, u, f);
    assert u.queues == t.queues && u.log == t.log && u.world == t.world;
  }

  // ---- creating the request context ----

  ghost predicate Admitted(s: State, t: State, f: nat, r: Ptr) {
    && f in s.frames && s.frames[f].pc == Ready && s.frames[f].client in s.clients
    && r != 0 && r !in s.world.everRoots
    && var c := s.frames[f].client;
    && t == s.(log := t.log, faults := t.faults,
               world := s.world.(everRoots := s.world.everRoots + {r}, owner := s.world.owner[r := s.clients[c].ptr],
                                 chain := s.world.chain[r := {r}]),
               frames := s.frames[f := s.frames[f].(pc := Loop, root := r)],
               clients := s.clients[c := s.clients[c].(pending := s.clients[c].pending + 1)])
  }

  lemma AdmittedQueues(s: State, t: State, f: nat, r: Ptr)
    requires QueuesOk(s) && Admitted(s, t, f, r)
    ensures QueuesOk(t)
  {
    assert Linked(t);
    forall x | x in t.queues ensures QueueOk(t, x) { assert QueueOk(s, x); QueueStays(s, t, x); }
  }

  lemma AdmittedFrames(s: State, t: State, f: nat, r: Ptr)
    requires FramesOk(s) && RootsOk(s) && Linked(t) && Admitted(s, t, f, r)
    ensures FramesOk(t)
  {
    AdmittedFrame(s, t, f, r);
    forall g | g in t.frames && g != f ensures FrameOk(t, g) {
      AdmittedSpares(s, t, f, r, g);
      SparedStays(s, t, g);
    }
  }

  lemma AdmittedFrame(s: State, t: State, f: nat, r: Ptr)
    requires Linked(s) && Linked(t) && Admitted(s, t, f, r) && FrameOk(s, f)
    ensures FrameOk(t, f)
  {
  }

  lemma AdmittedSpares(s: State, t: State, f: nat, r: Ptr, g: nat)
    requires Linked(s) && Linked(t) && Admitted(s, t, f, r) && RootsOk(s) && g in s.frames && g != f
    ensures Spared(s, t, g)
  {
  }

  lemma AdmittedRoots(s: State, t: State, f: nat, r: Ptr)
    requires RootsOk(s) && Admitted(s, t, f, r) && s.frames[f].root == 0
    ensures RootsOk(t)
  {
    assert t.frames[f].root == r;
    assert forall g | g in t.frames && g != f :: t.frames[g] == s.frames[g];
    forall x | x in t.world.owner ensures exists g :: g in t.frames && t.frames[g].root == x {
      if x != r {
        var g :| g in s.frames && s.frames[g].root == x;
        assert t.frames[g].root == x;
      }
    }
  }

  lemma AdmittedClients(s: State, t: State, f: nat, r: Ptr)
    requires ClientsOk(s) && Admitted(s, t, f, r)
    ensures ClientsOk(t)
  {
    forall d | d in t.clients ensures ClientOk(t, d) {
      assert ClientOk(s, d);
      AdmittedRunning(s, t, f, r, d);
    }
  }

  lemma AdmittedRunning(s: State, t: State, f: nat, r: Ptr, d: nat)
    requires Admitted(s, t, f, r)
    ensures f !in Running(s, d)
    ensures Running(t, d) == if d == s.frames[f].client then Running(s, d) + {f} else Running(s, d)
  {
  }

  lemma AdmittedTidy(s: State, t: State, f: nat, r: Ptr)
    requires Admitted(s, t, f, r) && RootsOk(s)
    ensures Tidied(s, t)
  {
  }

  lemma AdmissionKeeps(s: State, t: State, f: nat, r: Ptr)
    requires Wired(s) && Admitted(s, t, f, r)
    ensures Wired(t)
  {
    assert FrameOk(s, f);
    AdmittedQueues(s, t, f, r);
    AdmittedFrames(s, t, f, r);
    AdmittedRoots(s, t, f, r);
    AdmittedClients(s, t, f, r);
  }

  function CreateFaults(s: State, client: Ptr, root: Ptr): seq<Call> {
    if client in s.world.liveClients then s.faults else s.faults + [CreateCtx(client, root)]
  }

  lemma AdmitIs(s: State, f: nat, root: Ptr)
    requires LogOk(s) && RootsOk(s) && RegistryOk(s) && FreshRoot(s, root)
    requires f in s.frames && s.frames[f].pc == Ready && s.frames[f].client in s.clients
    requires var p := s.clients[s.frames[f].client].ptr; p == 0 || p in s.world.liveClients
    ensures
      var t := AdmitFrame(s, f, root);
      && LogOk(t) && t.faults == CreateFaults(s, s.clients[s.frames[f].client].ptr, root) && t.queues == s.queues
      && (root == 0 ==> Restarted(s, t, f))
      && (root != 0 ==> Admitted(s, t, f, root))
  {
    EmitLog(s, CreateCtx(s.clients[s.frames[f].client].ptr, root));
  }

  lemma AdmitKeeps(s: State, f: nat, root: Ptr)
    requires Inv(s) && f in s.frames && s.frames[f].pc == Ready && FreshRoot(s, root)
    ensures
      var t, p := AdmitFrame(s, f, root), s.clients[s.frames[f].client].ptr;
      && Inv(t) && t.faults == CreateFaults(s, p, root) && Tidied(s, t)
      && (p == 0 <==> p !in s.world.liveClients)
  {
    assert FrameOk(s, f) && ClientOk(s, s.frames[f].client);
    AdmitIs(s, f, root);
    var t := AdmitFrame(s, f, root);
    if root == 0 {
      RestartKeeps(s, t, f);
      RestartedTidy(s, t, f);
    } else {
      AdmissionKeeps(s, t, f, root);
      AdmittedTidy(s, t, f, root);
    }
  }

  lemma SendKeeps(s: State, c: nat, f: nat, root: Ptr)
    requires Inv(s) && Enabled(s, Send(c, f, root))
    ensures Inv(Apply(s, Send(c, f, root))) && Apply(s, Send(c, f, root)).faults == s.faults
    ensures CellsTidy(s) ==> CellsTidy(Apply(s, Send(c, f, root)))
    ensures FramesTidy(s) && !s.clients[c].delayFree ==> FramesTidy(Apply(s, Send(c, f, root)))
  {
    if s.clients[c].ptr == 0 {
      EnterKeeps(s, Apply(s, Send(c, f, root)), c, f, Ensuring);
    } else {
      var t := s.(frames := s.frames[f := Frame(c, Ready, 0, map[])]);
      EnterKeeps(s, t, c, f, Ready);
      AdmitKeeps(t, f, root);
    }
  }

  // ---- the remaining steps ----

  ghost predicate Appeared(s: State, t: State, c: nat) {
    c !in s.clients && t == s.(clients := s.clients[c := Client(0, 0, false, false)])
  }

  lemma AppearedTidy(s: State, t: State, c: nat)
    requires Appeared(s, t, c)
    ensures Tidied(s, t)
  {
  }

  lemma AppearedFrames(s: State, t: State, c: nat)
    requires FramesOk(s) && Appeared(s, t, c)
    ensures FramesOk(t)
  {
    forall g | g in t.frames ensures FrameOk(t, g) { FrameStays(s, t, g); }
  }

  lemma AppearedClients(s: State, t: State, c: nat)
    requires Linked(s) && ClientsOk(s) && Appeared(s, t, c)
    ensures ClientsOk(t)
  {
    assert Running(t, c) == {};
    forall d | d in t.clients && d != c ensures ClientOk(t, d) { ClientStays(s, t, d); }
  }

  lemma NewKeeps(s: State, t: State, c: nat)
    requires Wired(s) && Appeared(s, t, c)
    ensures Wired(t)
  {
    AppearedFrames(s, t, c);
    AppearedClients(s, t, c);
    QueuesStay(s, t);
  }

  ghost predicate Dropped(s: State, t: State, c: nat) {
    && c in s.clients && t == s.(clients := s.clients[c := s.clients[c].(collected := true)])
    && forall f | f in s.frames && s.frames[f].client == c :: s.frames[f].pc == Finished
  }

  lemma DroppedFrames(s: State, t: State, c: nat)
    requires FramesOk(s) && Dropped(s, t, c)
    ensures FramesOk(t)
  {
    assert Linked(t);
    forall g | g in t.frames ensures FrameOk(t, g) {
      assert FrameOk(s, g);
      if s.frames[g].client != c { FrameStays(s, t, g); }
    }
  }

  lemma DroppedTidy(s: State, t: State, c: nat)
    requires Dropped(s, t, c)
    ensures Tidied(s, t)
  {
  }

  lemma CollectKeeps(s: State, t: State, c: nat)
    requires Wired(s) && Dropped(s, t, c)
    ensures Wired(t)
  {
    DroppedFrames(s, t, c);
    DroppedClients(s, t, c);
    QueuesStay(s, t);
  }

  lemma DroppedClients(s: State, t: State, c: nat)
    requires ClientsOk(s) && Dropped(s, t, c)
    ensures ClientsOk(t)
  {
    forall d | d in t.clients ensures ClientOk(t, d) { ClientStays(s, t, d); }
  }

  ghost predicate Finalized(s: State, t: State, c: nat, p: Ptr) {
    && c in s.clients && s.clients[c].collected && (c, p) in s.cells
    && t == s.(log := t.log, faults := t.faults, registry := s.registry - {p}, cells := s.cells - {(c, p)},
               world := s.world.(liveClients := s.world.liveClients - {p}))
  }

  lemma FinalizedFrames(s: State, t: State, c: nat, p: Ptr)
    requires FramesOk(s) && Linked(t) && Finalized(s, t, c, p)
    ensures FramesOk(t)
  {
    forall g | g in t.frames ensures FrameOk(t, g) { FrameStays(s, t, g); }
  }

  lemma FinalizedRest(s: State, t: State, c: nat, p: Ptr)
    requires ClientsOk(s) && RootsOk(s) && RegistryOk(s) && Finalized(s, t, c, p)
    ensures ClientsOk(t) && RootsOk(t) && RegistryOk(t)
  {
    RootsStayUnder(s, t);
    forall d | d in t.clients ensures ClientOk(t, d) { assert ClientOk(s, d); assert Running(t, d) == Running(s, d); }
  }

  lemma FinalizedTidy(s: State, t: State, c: nat, p: Ptr)
    requires Finalized(s, t, c, p) && RegistryOk(s)
    ensures Tidied(s, t)
  {
  }

  lemma FinalizedKeeps(s: State, t: State, c: nat, p: Ptr)
    requires Wired(s) && Finalized(s, t, c, p)
    ensures Wired(t)
  {
    QueuesStay(s, t);
    FinalizedFrames(s, t, c, p);
    FinalizedRest(s, t, c, p);
  }

  /** A registered finalizer disposes legally exactly when the client is still in the `clients` table. */
  lemma FinalizeLegal(s: State, c: nat, p: Ptr)
    requires Wired(s) && c in s.clients && s.clients[c].collected && (c, p) in s.cells
    ensures Legal(s.world, DisposeClient(p)) <==> p in s.registry
    ensures p in s.world.everClients
  {
    if p in s.registry {
      forall r | r in s.world.owner ensures s.world.owner[r] != p {
        var f :| f in s.frames && s.frames[f].root == r;
        assert FrameOk(s, f);
        assert ClientOk(s, s.frames[f].client);
      }
    }
  }

  lemma FinalizeKeeps(s: State, c: nat, p: Ptr)
    requires Inv(s) && Enabled(s, Finalize(c, p))
    ensures Inv(Apply(s, Finalize(c, p))) && Tidied(s, Apply(s, Finalize(c, p)))
    ensures Apply(s, Finalize(c, p)).faults == if p in s.registry then s.faults else s.faults + [DisposeClient(p)]
  {
    FinalizeLegal(s, c, p);
    EmitLog(s, DisposeClient(p));
    var t := Apply(s, Finalize(c, p));
    assert Finalized(s, t, c, p);
    FinalizedKeeps(s, t, c, p);
    FinalizedTidy(s, t, c, p);
  }

  /** The blacklisting callback only reaches a native client that is alive. */
  lemma CallbackIs(s: State, q: nat, k: nat, bad: bool)
    requires LogOk(s) && RootsOk(s) && RegistryOk(s) && Enabled(s, Callback(q, k, bad))
    ensures
      var t := Apply(s, Callback(q, k, bad));
      && LogOk(t) && t.faults == s.faults && Requeued(s, t, q)
      && t.queues == s.queues[q := s.queues[q].(handled := s.queues[q].handled + {k})]
  {
    var d := s.queues[q].delivered[k];
    if bad && d.to.client in s.registry && !s.clients[s.registry[d.to.client]].collected {
      EmitLog(s, Blacklist(d.to.client, d.url));
    }
  }

  lemma CallbackKeeps(s: State, q: nat, k: nat, bad: bool)
    requires Inv(s) && Enabled(s, Callback(q, k, bad))
    ensures Inv(Apply(s, Callback(q, k, bad))) && Apply(s, Callback(q, k, bad)).faults == s.faults
    ensures Tidied(s, Apply(s, Callback(q, k, bad)))
  {
    CallbackIs(s, q, k, bad);
    var t := Apply(s, Callback(q, k, bad));
    RequeueKeeps(s, t, q);
    RequeuedTidy(s, t, q);
    HandledFifo(s.queues[q], k);
    FifoAfter(s, t, q);
  }

  lemma HandledFifo(k: Queue, i: nat)
    requires Fifo(k)
    ensures Fifo(k.(handled := k.handled + {i}))
  {
  }
}
