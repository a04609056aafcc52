/** What each step of the driver does for its request: where it goes on, when it ends, and what the engine is told. */
module DriverTurns {
  import opened NativeEngine
  import opened UrlQueues
  import opened Driver
  import opened DriverInvariant
  import opened DriverSteps
  import opened DriverTheorems
  import opened DriverFree
  import opened DriverGuards

  // ---- how a request ends ----

  /** The client without one of its requests; if `free` waited for that, without its native client too. */
  function Left(k: Client): Client {
    k.(pending := k.pending - 1, ptr := if k.pending == 1 && k.delayFree then 0 else k.ptr)
  }

  function Parting(k: Client): seq<Call> {
    if k.pending == 1 && k.delayFree && k.ptr != 0 then [DisposeClient(k.ptr)] else []
  }

  /**
   Request f has ended, after `calls`: its context is released, its client has one
   request less and is disposed if a delayed `free` waited for this one, and all
   its queues, and no others, have their open responses claimed in the name of
   the native client.  Nothing else has changed.
   */
  ghost predicate Ends(s: State, t: State, f: nat, calls: seq<Call>)
    requires Linked(s) && f in s.frames
  {
    var fr := s.frames[f];
    var k := s.clients[fr.client];
    && t.frames == s.frames[f := fr.(pc := Finished)]
    && t.clients == s.clients[fr.client := Left(k)]
    && t.log == s.log + calls + [FreeCtx(fr.root)] + Parting(k)
    && t.world.owner == s.world.owner - {fr.root}
    && t.queues.Keys == s.queues.Keys
    && forall q | q in s.queues ::
         t.queues[q] == if q in fr.queues.Values then CleanedUp(s.queues[q], k.ptr) else s.queues[q]
  }

  ghost predicate Released(s: State, t: State, f: nat)
    requires Linked(s) && f in s.frames
  {
    var fr := s.frames[f];
    var k := s.clients[fr.client];
    && t.frames == s.frames[f := fr.(pc := Finished)] && t.log == s.log + [FreeCtx(fr.root)]
    && t.clients == s.clients[fr.client := k.(pending := k.pending - 1)]
    && t.world.owner == s.world.owner - {fr.root} && t.queues.Keys == s.queues.Keys
    && forall q | q in s.queues ::
         t.queues[q] == if q in fr.queues.Values then CleanedUp(s.queues[q], k.ptr) else s.queues[q]
  }

  lemma ReleaseEnds(s: State, f: nat)
    requires Linked(s) && f in s.frames
    ensures Released(s, Release(s, f), f)
  {
  }

  /** The delayed `free`, if it was waiting for the last request. */
  ghost predicate FreedIfDue(r: State, t: State, c: nat)
    requires c in r.clients
  {
    var k := r.clients[c];
    var due := k.pending == 0 && k.delayFree;
    && t.frames == r.frames && t.queues == r.queues && t.world.owner == r.world.owner
    && t.clients == r.clients[c := k.(ptr := if due then 0 else k.ptr)]
    && t.log == r.log + if due && k.ptr != 0 then [DisposeClient(k.ptr)] else []
  }

  lemma FreeIfDue(r: State, c: nat)
    requires c in r.clients
    ensures
      var k := r.clients[c];
      FreedIfDue(r, if k.pending == 0 && k.delayFree then FreeClient(r, c, false) else r, c)
  {
    Unchanged(r.log, []);
    assert r.clients[c := r.clients[c]] == r.clients;
  }

  lemma ReleasedEnds(s: State, r: State, t: State, f: nat)
    requires Linked(s) && f in s.frames && Released(s, r, f) && FreedIfDue(r, t, s.frames[f].client)
    ensures Ends(s, t, f, [])
  {
    Unchanged(s.log, [FreeCtx(s.frames[f].root)]);
  }

  lemma FinishEnds(s: State, f: nat)
    requires Linked(s) && f in s.frames
    ensures Ends(s, Finish(s, f), f, [])
  {
    ReleaseEnds(s, f);
    FreeIfDue(Release(s, f), s.frames[f].client);
    ReleasedEnds(s, Release(s, f), Finish(s, f), f);
  }

  lemma Unchanged(a: seq<Call>, b: seq<Call>)
    ensures a + [] == a && a + [] + b == a + b
  {
  }

  lemma ExecutedEnds(s: State, f: nat, required: set<Ptr>)
    requires Linked(s) && f in s.frames
    ensures
      var x := Execute(s.frames[f].root, required);
      Ends(s, Finish(Emit(s, x), f), f, [x])
  {
    var u := Emit(s, Execute(s.frames[f].root, required));
    FinishEnds(u, f);
    Unchanged(u.log, [FreeCtx(s.frames[f].root)]);
  }

  // ---- what the engine is told of a response ----

  /**
   What the engine hears when responses `ds` of a queue are handed over: nothing
   after a clean-up or without a native client; else each with its answer if the
   context hangs off its root, and with the liveness question only if it does not.
   */
  ghost function Hears(s: State, k: Queue, ds: seq<Delivery>): seq<Call>
    requires k.frame in s.frames && s.frames[k.frame].client in s.clients
  {
    if k.cleanUp || s.clients[s.frames[k.frame].client].ptr == 0 then []
    else Heard(k.root, k.ctx, ds, OnChain(s, k.root, k.ctx))
  }

  lemma PumpTells(s: State, q: nat, k: Queue)
    requires k.frame in s.frames && s.frames[k.frame].client in s.clients
    ensures var t := Pump(s, q, k); t.log == s.log + Hears(s, k, Paired(k).delivered[|k.delivered|..])
  {
    var ptrSet := s.clients[s.frames[k.frame].client].ptr != 0;
    var alive := k.root in s.world.chain && k.ctx in s.world.chain[k.root];
    EmitAllIs(s, TriggerCalls(k, ptrSet, alive));
    EngineIsToldDeliveries(k, ptrSet, alive);
  }

  /** Where a response goes: to the first promise, or into the buffer. */
  ghost predicate HandedOver(k: Queue, k': Queue, url: nat) {
    && k'.arrived == k.arrived + [url]
    && if k.waiters == [] then k' == k.(arrived := k'.arrived, buffered := k.buffered + [url])
       else k' == k.(arrived := k'.arrived, waiters := k.waiters[1..],
                     delivered := k.delivered + [Delivery(k.waiters[0].ticket, k.waiters[0].to, url)])
  }

  lemma PushedIsHandedOver(k: Queue, url: nat)
    requires k.waiters == [] || k.buffered == []
    ensures HandedOver(k, Paired(Pushed(k, url)), url)
  {
    var p := Pushed(k, url);
    if k.waiters != [] {
      assert p.buffered == [url] && Popped(p).buffered == [];
    }
  }

  /** The responses handed over between two states of a queue. */
  function Recent(k: Queue, k': Queue): seq<Delivery>
    requires |k.delivered| <= |k'.delivered|
  {
    k'.delivered[|k.delivered|..]
  }

  ghost predicate Tells(s: State, t: State, q: nat, url: nat)
    requires Linked(s) && q in s.queues
  {
    var k := s.queues[q];
    && q in t.queues && HandedOver(k, t.queues[q], url) && t.queues == s.queues[q := t.queues[q]]
    && t.clients == s.clients && t.world == s.world
    && t.log == s.log + Hears(s, k, Recent(k, t.queues[q]))
    && t.frames == if k.waiters != [] && !k.cleanUp then s.frames[k.frame := s.frames[k.frame].(pc := Loop)] else s.frames
  }

  lemma PushTells(s: State, q: nat, url: nat)
    requires Linked(s) && WaitsFor(s, q)
    ensures Tells(s, Pump(s, q, Pushed(s.queues[q], url)), q, url)
  {
    var k := s.queues[q];
    ArrivalWakes(k, url);
    PushedIsHandedOver(k, url);
    PumpTells(s, q, Pushed(k, url));
    PumpOnward(s, q, Pushed(k, url));
    PumpCreatesNone(s, q, Pushed(k, url));
  }

  /**
   A response that settles goes to the first promise or waits.  The engine hears
   of it exactly when it is handed over, and the loop goes on exactly if the
   promise is the loop's.
   */
  lemma SettleTells(s: State, q: nat, url: nat)
    requires Inv(s) && Enabled(s, Settle(q, url))
    ensures Tells(s, Apply(s, Settle(q, url)), q, url)
  {
    WaitersOf(s, q);
    PushTells(s, q, url);
  }

  // ---- where a request goes on ----

  /** The loop asks queue q: it is refused, goes on with the first buffered response, or waits. */
  ghost predicate AsksQueue(s: State, t: State, f: nat, q: nat)
    requires f in s.frames && q in s.queues
  {
    var k := s.queues[q];
    && f in t.frames && q in t.queues && t.queues == s.queues[q := t.queues[q]]
    && var k' := t.queues[q];
    && if k.counter >= k.urls then
         t.frames[f].pc == Refused && k' == k.(counter := k.counter + 1)
       else if k.buffered == [] then
         && t.frames[f].pc == Awaiting(q)
         && k' == k.(counter := k.counter + 1, waiters := [Waiter(k.counter, ByLoop)])
       else
         && t.frames[f].pc == Loop
         && k' == k.(counter := k.counter + 1, buffered := k.buffered[1..],
                     delivered := k.delivered + [Delivery(k.counter, ByLoop, k.buffered[0])])
  }

  lemma AskedPaired(k: Queue)
    requires k.waiters == [] && Accepts(k)
    ensures
      var k' := Paired(Asked(k, ByLoop));
      k' == if k.buffered == [] then k.(counter := k.counter + 1, waiters := [Waiter(k.counter, ByLoop)])
            else k.(counter := k.counter + 1, buffered := k.buffered[1..],
                    delivered := k.delivered + [Delivery(k.counter, ByLoop, k.buffered[0])])
  {
    var a := Asked(k, ByLoop);
    assert a.waiters == [Waiter(k.counter, ByLoop)];
    if k.buffered != [] { assert Popped(a).waiters == []; }
  }

  lemma AwaitNextAsks(s: State, f: nat, q: nat)
    requires CanAwait(s, f, q)
    ensures
      var t := AwaitNext(s, f, q);
      && AsksQueue(s, t, f, q) && t.frames == s.frames[f := s.frames[f].(pc := t.frames[f].pc)]
      && t.clients == s.clients
  {
    if Accepts(s.queues[q]) {
      AskedPaired(s.queues[q]);
      AskWakes(s.queues[q]);
      AwaitNextOnward(s, f, q);
      assert AwaitNext(s, f, q).queues == s.queues[q := Paired(Asked(s.queues[q], ByLoop))];
    }
  }

  lemma AwaitNextTells(s: State, f: nat, q: nat)
    requires CanAwait(s, f, q)
    ensures
      var t := AwaitNext(s, f, q);
      && q in t.queues && |s.queues[q].delivered| <= |t.queues[q].delivered|
      && t.log == s.log + Hears(s, s.queues[q], Recent(s.queues[q], t.queues[q]))
  {
    var k := s.queues[q];
    if Accepts(k) {
      PumpTells(SetPc(s, f, Awaiting(q)), q, Asked(k, ByLoop));
    } else {
      assert k.delivered[|k.delivered|..] == [];
    }
  }

  // ---- the turn of the loop ----

  /** The replies on which a request ends: a result or error, nothing to wait for, and nowhere to send. */
  predicate EndsOn(s: State, f: nat, reply: Reply)
    requires f in s.frames
  {
    || reply.Done?
    || (reply.Waiting? && reply.ctx !in s.frames[f].queues)
    || (reply.Rpc? && reply.urls == 0 && !reply.wait && !reply.promise)
  }

  /** A fresh queue q for the urls of ctx, which the loop awaits. */
  ghost predicate SendsOut(s: State, t: State, f: nat, ctx: Ptr, urls: nat, q: nat)
    requires f in s.frames
  {
    var fr := s.frames[f];
    && f in t.frames && t.frames[f] == fr.(pc := Awaiting(q), queues := fr.queues[ctx := q])
    && t.queues == s.queues[q := Fresh(f, fr.root, ctx, urls).(counter := 1, waiters := [Waiter(0, ByLoop)])]
  }

  /** Where request f is suspended after a reply that does not end it. */
  ghost predicate GoesOn(s: State, t: State, f: nat, reply: Reply, q: nat)
    requires Linked(s) && f in s.frames && !EndsOn(s, f, reply)
  {
    && f in t.frames && (!reply.Waiting? && !reply.Rpc? ==> t.queues == s.queues)
    && match reply
       case Waiting(ctx) => AsksQueue(s, t, f, s.frames[f].queues[ctx])
       case Sign(ctx) => t.frames[f] == s.frames[f].(pc := Answering(ctx))
       case Rpc(ctx, urls, wait, promise) =>
         if promise then t.frames[f] == s.frames[f].(pc := Answering(ctx)) && t.queues == s.queues
         else if wait then t.frames[f] == s.frames[f].(pc := Sleeping(ctx, urls)) && t.queues == s.queues
         else SendsOut(s, t, f, ctx, urls, q)
       case Other => t.frames == s.frames
  }

  /** The calls after ctx_execute: the answers for the responses handed over, and nothing else. */
  ghost predicate HearsAnswers(s: State, t: State, f: nat, reply: Reply)
    requires Linked(s) && f in s.frames && !EndsOn(s, f, reply)
  {
    if !reply.Waiting? then t.log == s.log
    else
      var q := s.frames[f].queues[reply.ctx];
      && q in t.queues && |s.queues[q].delivered| <= |t.queues[q].delivered|
      && t.log == s.log + Told(s.frames[f].root, reply.ctx, Recent(s.queues[q], t.queues[q]))
  }

  /** The request keeps its context and its client its count; all other requests stay. */
  ghost predicate StaysPending(s: State, t: State, f: nat)
    requires Linked(s) && f in s.frames
  {
    && f in t.frames && t.frames[f].pc != Finished && t.frames[f].root == s.frames[f].root
    && t.frames == s.frames[f := t.frames[f]] && t.clients == s.clients && t.world.owner == s.world.owner
  }

  lemma OpenSendsOut(s: State, f: nat, ctx: Ptr, urls: nat, q: nat)
    requires Linked(s) && FramesOk(s) && f in s.frames && Active(s.frames[f]) && !s.frames[f].pc.Awaiting?
    requires OnChain(s, s.frames[f].root, ctx) && urls > 0 && q !in s.queues
    ensures
      var t := SendOut(s, f, ctx, urls, q);
      SendsOut(s, t, f, ctx, urls, q) && StaysPending(s, t, f) && t.log == s.log
  {
    var o := Open(s, f, ctx, urls, q);
    OpenAwaits(s, f, ctx, urls, q);
    AwaitNextAsks(o, f, q);
    AwaitNextTells(o, f, q);
    AwaitNextCreatesNone(o, f, q);
    NoneHeard(s, Fresh(f, s.frames[f].root, ctx, urls));
    assert s.log + [] == s.log;
  }

  lemma NoneHeard(s: State, k: Queue)
    requires k.frame in s.frames && s.frames[k.frame].client in s.clients
    ensures Hears(s, k, []) == []
  {
  }

  ghost predicate Continues(s: State, t: State, f: nat, reply: Reply, q: nat)
    requires Linked(s) && f in s.frames && !EndsOn(s, f, reply)
  {
    GoesOn(s, t, f, reply, q) && StaysPending(s, t, f) && HearsAnswers(s, t, f, reply)
  }

  lemma QueueContinues(s: State, f: nat, ctx: Ptr, q: nat)
    requires Linked(s) && f in s.frames && ctx in s.frames[f].queues && s.clients[s.frames[f].client].ptr != 0
    requires var k := s.frames[f].queues[ctx]; CanAwait(s, f, k) && s.queues[k].ctx == ctx
    ensures Continues(s, Served(s, f, Waiting(ctx), q), f, Waiting(ctx), q)
  {
    var k := s.frames[f].queues[ctx];
    AwaitNextAsks(s, f, k);
    AwaitNextTells(s, f, k);
    AwaitNextCreatesNone(s, f, k);
  }

  lemma WaitingContinues(s: State, f: nat, ctx: Ptr, q: nat)
    requires Inv(s) && Replied(s, f, Waiting(ctx), q) && ctx in s.frames[f].queues && s.clients[s.frames[f].client].ptr != 0
    ensures Continues(s, Served(s, f, Waiting(ctx), q), f, Waiting(ctx), q)
  {
    assert FrameOk(s, f);
    WaitingCanAwait(s, f, ctx);
    QueueContinues(s, f, ctx, q);
  }

  lemma MovesOn(s: State, f: nat, pc: Pc)
    requires Linked(s) && f in s.frames && pc != Finished
    ensures
      var t := SetPc(s, f, pc);
      t.frames[f] == s.frames[f].(pc := pc) && StaysPending(s, t, f) && t.log == s.log && t.queues == s.queues
  {
  }

  lemma QuietlyContinues(s: State, f: nat, reply: Reply, q: nat)
    requires Linked(s) && f in s.frames && s.frames[f].pc == Loop && (reply.Sign? || reply.Other?)
    ensures Continues(s, Served(s, f, reply, q), f, reply, q)
  {
    if reply.Sign? { MovesOn(s, f, Answering(reply.ctx)); }
  }

  lemma RpcContinues(s: State, f: nat, ctx: Ptr, urls: nat, wait: bool, promise: bool, q: nat)
    requires Linked(s) && FramesOk(s) && Replied(s, f, Rpc(ctx, urls, wait, promise), q)
    requires !EndsOn(s, f, Rpc(ctx, urls, wait, promise))
    ensures Continues(s, Served(s, f, Rpc(ctx, urls, wait, promise), q), f, Rpc(ctx, urls, wait, promise), q)
  {
    if promise {
      MovesOn(s, f, Answering(ctx));
    } else if wait {
      MovesOn(s, f, Sleeping(ctx, urls));
    } else {
      OpenSendsOut(s, f, ctx, urls, q);
    }
  }

  lemma ServedContinues(s: State, f: nat, reply: Reply, q: nat)
    requires Inv(s) && Replied(s, f, reply, q) && !EndsOn(s, f, reply) && s.clients[s.frames[f].client].ptr != 0
    ensures Continues(s, Served(s, f, reply, q), f, reply, q)
  {
    match reply
    case Done => assert false;
    case Waiting(ctx) => WaitingContinues(s, f, ctx, q);
    case Rpc(ctx, urls, wait, promise) => RpcContinues(s, f, ctx, urls, wait, promise, q);
    case _ => QuietlyContinues(s, f, reply, q);
  }

  lemma ServedEnds(s: State, f: nat, reply: Reply, q: nat)
    requires Linked(s) && f in s.frames && EndsOn(s, f, reply)
    ensures Served(s, f, reply, q) == Finish(s, f)
  {
  }

  /** After ctx_execute the request is where it was. */
  lemma ContinuesAfter(s: State, u: State, t: State, f: nat, reply: Reply, q: nat)
    requires Linked(s) && Linked(u) && f in s.frames
    requires u.frames == s.frames && u.queues == s.queues && u.clients == s.clients && u.world.owner == s.world.owner
    requires !EndsOn(u, f, reply) && Continues(u, t, f, reply, q)
    ensures GoesOn(s, t, f, reply, q) && StaysPending(s, t, f)
  {
  }

  lemma EndingTurn(s: State, f: nat, reply: Reply, required: set<Ptr>, q: nat)
    requires Linked(s) && f in s.frames && EndsOn(s, f, reply)
    ensures
      var u := Emit(s, Execute(s.frames[f].root, required));
      Linked(u) && Ends(s, Served(u, f, reply, q), f, [Execute(s.frames[f].root, required)])
  {
    ExecutedEnds(s, f, required);
    ServedEnds(Emit(s, Execute(s.frames[f].root, required)), f, reply, q);
  }

  lemma ContinuingTurn(s: State, u: State, f: nat, reply: Reply, required: set<Ptr>, q: nat)
    requires Inv(s) && Enabled(s, Test(f, reply, required, q)) && !Cancelled(s, f) && !EndsOn(s, f, reply)
    requires u == Emit(s, Execute(s.frames[f].root, required))
    ensures Inv(u) && Continues(u, Served(u, f, reply, q), f, reply, q)
  {
    ExecuteKeeps(s, f, required);
    ExecuteReplied(s, f, reply, required, q);
    ServedContinues(u, f, reply, q);
  }

  /**
   One turn of the main loop.  A cancelled request ends without another call of
   ctx_execute.  Any other one executes its context, and ends exactly if the
   reply leaves nothing to do; else it keeps its context, is suspended where the
   reply asks for, and the engine hears of just the responses handed over.
   */
  ghost predicate Turned(s: State, t: State, f: nat, reply: Reply, required: set<Ptr>, q: nat)
    requires Linked(s) && f in s.frames
  {
    var x := Execute(s.frames[f].root, required);
    && f in t.frames
    && (t.frames[f].pc == Finished <==> Cancelled(s, f) || EndsOn(s, f, reply))
    && (t.frames[f].pc == Finished ==> Ends(s, t, f, if Cancelled(s, f) then [] else [x]))
    && (!Cancelled(s, f) && !EndsOn(s, f, reply) ==>
          GoesOn(s, t, f, reply, q) && StaysPending(s, t, f) && HearsAnswers(Emit(s, x), t, f, reply))
  }

  lemma CancelledTurn(s: State, f: nat, reply: Reply, required: set<Ptr>, q: nat)
    requires Linked(s) && f in s.frames && Cancelled(s, f)
    ensures Turned(s, Finish(s, f), f, reply, required, q)
  {
    FinishEnds(s, f);
  }

  lemma EndedTurn(s: State, t: State, f: nat, reply: Reply, required: set<Ptr>, q: nat)
    requires Linked(s) && f in s.frames && !Cancelled(s, f) && EndsOn(s, f, reply)
    requires Ends(s, t, f, [Execute(s.frames[f].root, required)])
    ensures Turned(s, t, f, reply, required, q)
  {
  }

  lemma ContinuedTurn(s: State, u: State, t: State, f: nat, reply: Reply, required: set<Ptr>, q: nat)
    requires Linked(s) && f in s.frames && !Cancelled(s, f) && !EndsOn(s, f, reply)
    requires u == Emit(s, Execute(s.frames[f].root, required)) && Linked(u)
    requires Continues(u, t, f, reply, q)
    ensures Turned(s, t, f, reply, required, q)
  {
    ContinuesAfter(s, u, t, f, reply, q);
  }

  lemma TurnOfLoop(s: State, f: nat, reply: Reply, required: set<Ptr>, q: nat)
    requires Inv(s) && Enabled(s, Test(f, reply, required, q))
    ensures Turned(s, Apply(s, Test(f, reply, required, q)), f, reply, required, q)
  {
    if Cancelled(s, f) {
      CancelledTurn(s, f, reply, required, q);
    } else {
      var u := Emit(s, Execute(s.frames[f].root, required));
      var t := Served(u, f, reply, q);
      if EndsOn(s, f, reply) {
        EndingTurn(s, f, reply, required, q);
        EndedTurn(s, t, f, reply, required, q);
      } else {
        ContinuingTurn(s, u, f, reply, required, q);
        ContinuedTurn(s, u, t, f, reply, required, q);
      }
    }
  }

  // ---- the other steps of a request ----

  /** The timer the engine asked for has run out: the request is sent, unless there is nowhere to send it. */
  lemma WakeSends(s: State, f: nat, q: nat)
    requires Inv(s) && Enabled(s, Wake(f, q))
    ensures
      var t, pc := Apply(s, Wake(f, q)), s.frames[f].pc;
      if pc.urls == 0 then Ends(s, t, f, [])
      else SendsOut(s, t, f, pc.ctx, pc.urls, q) && StaysPending(s, t, f) && t.log == s.log
  {
    var pc := s.frames[f].pc;
    assert FrameOk(s, f);
    if pc.urls == 0 { FinishEnds(s, f); } else { OpenSendsOut(s, f, pc.ctx, pc.urls, q); }
  }

  ghost predicate Answered(s: State, t: State, f: nat)
    requires Linked(s) && f in s.frames && s.frames[f].pc.Answering?
  {
    var fr := s.frames[f];
    && OnChain(s, fr.root, fr.pc.ctx) && t.log == s.log + [SetResponse(fr.root, fr.pc.ctx, 0)]
    && StaysPending(s, t, f) && t.frames[f].pc == Loop && t.queues == s.queues
  }

  lemma ResponseAnswers(s: State, f: nat)
    requires Linked(s) && f in s.frames && s.frames[f].pc.Answering? && OnChain(s, s.frames[f].root, s.frames[f].pc.ctx)
    ensures Answered(s, SetPc(Emit(s, SetResponse(s.frames[f].root, s.frames[f].pc.ctx, 0)), f, Loop), f)
  {
  }

  /** A signature or promised result goes to the engine, to the context that asked for it, and the loop goes on. */
  lemma AnswerTells(s: State, f: nat)
    requires Inv(s) && Enabled(s, Answer(f))
    ensures Answered(s, Apply(s, Answer(f)), f)
  {
    assert FrameOk(s, f);
    ResponseAnswers(s, f);
  }

  /** A refused request for a further response ends the request. */
  lemma RejectEnds(s: State, f: nat)
    requires Enabled(s, Reject(f))
    ensures Ends(s, Apply(s, Reject(f)), f, [])
  {
    FinishEnds(s, f);
  }

  /** A context was created for client k, or the engine refused the request and it is over. */
  ghost predicate Creates(s: State, t: State, f: nat, c: nat, root: Ptr)
    requires c in s.clients
  {
    var k := s.clients[c];
    && t.log == s.log + [CreateCtx(k.ptr, root)] && f in t.frames && t.queues == s.queues
    && if root == 0 then
         t.frames == s.frames[f := Frame(c, Finished, 0, map[])] && t.clients == s.clients && t.world == s.world
       else
         && t.frames == s.frames[f := Frame(c, Loop, root, map[])]
         && t.clients == s.clients[c := k.(pending := k.pending + 1)]
         && t.world.owner == s.world.owner[root := k.ptr]
  }

  /** A request on a client without native client waits for one; any other creates its context at once. */
  lemma SendStarts(s: State, c: nat, f: nat, root: Ptr)
    requires Enabled(s, Send(c, f, root))
    ensures
      var t := Apply(s, Send(c, f, root));
      if s.clients[c].ptr == 0 then t == s.(frames := s.frames[f := Frame(c, Ensuring, 0, map[])])
      else Creates(s, t, f, c, root)
  {
    if s.clients[c].ptr != 0 {
      var u := s.(frames := s.frames[f := Frame(c, Ready, 0, map[])]);
      assert u.frames[f := Frame(c, Finished, 0, map[])] == s.frames[f := Frame(c, Finished, 0, map[])];
      assert u.frames[f := Frame(c, Loop, root, map[])] == s.frames[f := Frame(c, Loop, root, map[])];
    }
  }

  lemma FrameCreates(s: State, f: nat, root: Ptr)
    requires Linked(s) && f in s.frames && s.frames[f].root == 0 && s.frames[f].queues == map[]
    ensures Creates(s, AdmitFrame(s, f, root), f, s.frames[f].client, root)
  {
  }

  lemma AdmitCreates(s: State, f: nat, root: Ptr)
    requires Inv(s) && Enabled(s, Admit(f, root))
    ensures Creates(s, Apply(s, Admit(f, root)), f, s.frames[f].client, root)
  {
    assert FrameOk(s, f);
    FrameCreates(s, f, root);
  }

  /** The first of several waiting requests creates the native client, lists it and registers its finalizer. */
  lemma EnsureCreatesOnce(s: State, f: nat, p: Ptr)
    requires Enabled(s, Ensure(f, p))
    ensures
      var t, c := Apply(s, Ensure(f, p)), s.frames[f].client;
      && t.frames == s.frames[f := s.frames[f].(pc := Ready)] && t.queues == s.queues
      && if s.clients[c].ptr != 0 then t == s.(frames := t.frames)
         else
           && t.log == s.log + [CreateClient(p)] && t.clients == s.clients[c := s.clients[c].(ptr := p)]
           && t.registry == s.registry[p := c] && t.cells == if s.weak then s.cells + {(c, p)} else s.cells
  {
  }

  // ---- free, finalizer and late responses ----

  /**
   `free` on a busy client only takes note of it.  An idle one is disposed and
   unlisted, and its finalizer called off, unless the gc flag says otherwise.
   */
  ghost predicate FreedOrWaits(s: State, t: State, c: nat, gc: bool)
    requires c in s.clients
  {
    var k := s.clients[c];
    if k.pending != 0 then t == s.(clients := s.clients[c := k.(delayFree := true)])
    else if k.ptr == 0 then t == s
    else
      && t.frames == s.frames && t.queues == s.queues
      && t.log == s.log + [DisposeClient(k.ptr)] && t.clients == s.clients[c := k.(ptr := 0)]
      && t.registry == s.registry - {k.ptr}
      && forall x :: x in t.cells <==> x in s.cells && (x.0 == c ==> gc || !s.weak)
  }

  lemma ClientFreedOrWaits(s: State, c: nat, gc: bool)
    requires c in s.clients
    ensures FreedOrWaits(s, FreeClient(s, c, gc), c, gc)
  {
  }

  lemma FreeDisposesOrWaits(s: State, c: nat, gc: bool)
    requires Enabled(s, Free(c, gc))
    ensures FreedOrWaits(s, Apply(s, Free(c, gc)), c, gc)
  {
    ClientFreedOrWaits(s, c, gc);
  }

  /** The finalizer of a collected client disposes and unlists it, and will not fire again. */
  lemma FinalizerDisposes(s: State, c: nat, p: Ptr)
    requires Enabled(s, Finalize(c, p))
    ensures
      var t := Apply(s, Finalize(c, p));
      && t.log == s.log + [DisposeClient(p)] && p !in t.registry && t.cells == s.cells - {(c, p)}
      && !Enabled(t, Finalize(c, p)) && t.clients == s.clients && t.frames == s.frames && t.queues == s.queues
  {
  }

  /** The client with pointer p is still listed and not collected. */
  predicate StillListed(s: State, p: Ptr)
    requires Linked(s)
  {
    p in s.registry && !s.clients[s.registry[p]].collected
  }

  /** Delivery k of queue q was looked at, and only that. */
  ghost predicate LookedAt(s: State, t: State, q: nat, k: nat)
    requires q in s.queues
  {
    && t.frames == s.frames && t.clients == s.clients && t.registry == s.registry
    && t.queues == s.queues[q := s.queues[q].(handled := s.queues[q].handled + {k})]
  }

  lemma ListedIsAlive(s: State, p: Ptr)
    requires Linked(s) && RegistryOk(s) && StillListed(s, p)
    ensures p in s.world.liveClients && s.clients[s.registry[p]].ptr == p
  {
  }

  /**
   A late response of a cleaned-up queue is looked at once.  A bad one blacklists
   its url on the client its request had, exactly if that is still listed and not
   collected; a good one changes nothing else.
   */
  lemma LateResponseBlacklists(s: State, q: nat, k: nat, bad: bool)
    requires Enabled(s, Callback(q, k, bad))
    ensures
      var t, d := Apply(s, Callback(q, k, bad)), s.queues[q].delivered[k];
      && t.log == s.log + (if bad && StillListed(s, d.to.client) then [Blacklist(d.to.client, d.url)] else [])
      && LookedAt(s, t, q, k)
  {
    Unchanged(s.log, []);
  }
}
