/** What a delayed `free` means for the requests of its client. */
module DriverFree {
  import opened NativeEngine
  import opened UrlQueues
  import opened Driver
  import opened DriverInvariant
  import opened DriverSteps
  import opened DriverTheorems

  /** Requests keep their client and, once they have one, their context; `delayFree` is never taken back. */
  ghost predicate Onward(s: State, t: State) {
    && (forall c | c in s.clients :: c in t.clients && (s.clients[c].delayFree ==> t.clients[c].delayFree))
    && (forall f | f in s.frames ::
          && f in t.frames && t.frames[f].client == s.frames[f].client
          && (s.frames[f].root != 0 ==> t.frames[f].root == s.frames[f].root))
  }

  /** The log grows, and not by a ctx_execute. */
  ghost predicate Idle(s: State, t: State) {
    && s.log <= t.log
    && forall i | |s.log| <= i < |t.log| :: !t.log[i].Execute?
  }

  lemma {:induction false} EmitAllIs(s: State, cs: seq<Call>)
    ensures
      var t := EmitAll(s, cs);
      && t.log == s.log + cs && t.clients == s.clients && t.frames == s.frames && t.queues == s.queues
    decreases cs
  {
    if cs != [] {
      EmitAllIs(Emit(s, cs[0]), cs[1..]);
      assert s.log + [cs[0]] + cs[1..] == s.log + cs;
    }
  }

  lemma NoticesIdle(root: Ptr, ctx: Ptr, urls: seq<nat>, alive: bool)
    ensures forall c | c in Notices(root, ctx, urls, alive) :: c.IsAlive? || c.SetResponse?
  {
  }

  lemma PumpOnward(s: State, q: nat, queue: Queue)
    requires queue.frame in s.frames && s.frames[queue.frame].client in s.clients
    ensures var t := Pump(s, q, queue); Onward(s, t) && Idle(s, t) && t.clients == s.clients
  {
    var ptrSet := s.clients[s.frames[queue.frame].client].ptr != 0;
    var alive := queue.root in s.world.chain && queue.ctx in s.world.chain[queue.root];
    var calls := TriggerCalls(queue, ptrSet, alive);
    EmitAllIs(s, calls);
    NoticesIdle(queue.root, queue.ctx, queue.buffered[..Pairs(queue)], alive);
    forall i | |s.log| <= i < |s.log + calls| ensures !(s.log + calls)[i].Execute? {
      assert calls[i - |s.log|] in calls;
    }
  }

  lemma AwaitNextOnward(s: State, f: nat, q: nat)
    requires f in s.frames && s.frames[f].client in s.clients && q in s.queues && s.queues[q].frame == f
    ensures var t := AwaitNext(s, f, q); Onward(s, t) && Idle(s, t) && t.clients == s.clients
  {
    if Accepts(s.queues[q]) {
      PumpOnward(SetPc(s, f, Awaiting(q)), q, Asked(s.queues[q], ByLoop));
    }
  }

  lemma FinishOnward(s: State, f: nat)
    requires f in s.frames && s.frames[f].client in s.clients
    ensures var t := Finish(s, f); Onward(s, t) && Idle(s, t)
  {
  }

  lemma SendOutOnward(s: State, f: nat, ctx: Ptr, urls: nat, q: nat)
    requires f in s.frames && s.frames[f].client in s.clients
    ensures var t := SendOut(s, f, ctx, urls, q); Onward(s, t) && Idle(s, t)
  {
    if urls == 0 { FinishOnward(s, f); } else { AwaitNextOnward(Open(s, f, ctx, urls, q), f, q); }
  }

  lemma SetPcOnward(s: State, f: nat, pc: Pc)
    requires f in s.frames
    ensures var t := SetPc(s, f, pc); Onward(s, t) && Idle(s, t)
  {
  }

  lemma WaitingOnward(t: State, f: nat, ctx: Ptr, q: nat)
    requires Linked(t) && f in t.frames
    ensures var u := Served(t, f, Waiting(ctx), q); Onward(t, u) && Idle(t, u)
  {
    if ctx in t.frames[f].queues { AwaitNextOnward(t, f, t.frames[f].queues[ctx]); } else { FinishOnward(t, f); }
  }

  lemma ServedOnward(t: State, f: nat, reply: Reply, q: nat)
    requires Linked(t) && f in t.frames
    ensures var u := Served(t, f, reply, q); Onward(t, u) && Idle(t, u)
  {
    match reply
    case Done => FinishOnward(t, f);
    case Waiting(ctx) => WaitingOnward(t, f, ctx, q);
    case Sign(ctx) => SetPcOnward(t, f, Answering(ctx));
    case Rpc(ctx, urls, wait, promise) =>
      SetPcOnward(t, f, if promise then Answering(ctx) else Sleeping(ctx, urls));
      SendOutOnward(t, f, ctx, urls, q);
    case Other =>
  }

  /** Only the loop executes a context, its own, and only if its client is neither freed nor about to be. */
  ghost predicate ExecutesOnlyIn(s: State, t: State, step: Step) {
    && s.log <= t.log
    && forall i | |s.log| <= i < |t.log| && t.log[i].Execute? ::
         && step.Test? && step.f in s.frames && s.frames[step.f].client in s.clients
         && !Cancelled(s, step.f) && s.frames[step.f].root == t.log[i].root
  }

  lemma TestOnward(s: State, f: nat, reply: Reply, required: set<Ptr>, q: nat)
    requires Linked(s) && f in s.frames
    ensures
      var t := TestLoop(s, f, reply, required, q);
      Onward(s, t) && ExecutesOnlyIn(s, t, Test(f, reply, required, q))
  {
    if Cancelled(s, f) {
      FinishOnward(s, f);
    } else {
      ServedOnward(Emit(s, Execute(s.frames[f].root, required)), f, reply, q);
    }
  }

  lemma FreeOnward(s: State, c: nat, gc: bool)
    requires c in s.clients
    ensures var t := FreeClient(s, c, gc); Onward(s, t) && Idle(s, t)
  {
  }

  lemma AdmitOnward(s: State, f: nat, root: Ptr)
    requires f in s.frames && s.frames[f].client in s.clients && s.frames[f].root == 0
    ensures var t := AdmitFrame(s, f, root); Onward(s, t) && Idle(s, t)
  {
  }

  lemma CallbackOnward(s: State, q: nat, k: nat, bad: bool)
    requires Enabled(s, Callback(q, k, bad))
    ensures var t := Apply(s, Callback(q, k, bad)); Onward(s, t) && Idle(s, t)
  {
  }

  lemma AnswerOnward(s: State, f: nat)
    requires Enabled(s, Answer(f))
    ensures var t := Apply(s, Answer(f)); Onward(s, t) && Idle(s, t)
  {
  }

  /** The steps that touch one client only. */
  lemma ClientStepOnward(s: State, step: Step)
    requires Enabled(s, step) && (step.New? || step.Collect? || step.Finalize?)
    ensures var t := Apply(s, step); Onward(s, t) && Idle(s, t)
  {
  }

  lemma EnsureClientOnward(s: State, c: nat, ptr: Ptr)
    requires c in s.clients
    ensures var t := EnsureClient(s, c, ptr); Onward(s, t) && Idle(s, t) && t.frames == s.frames
  {
  }

  lemma EnsureOnward(s: State, f: nat, ptr: Ptr)
    requires Enabled(s, Ensure(f, ptr))
    ensures var t := Apply(s, Ensure(f, ptr)); Onward(s, t) && Idle(s, t)
  {
    EnsureClientOnward(s, s.frames[f].client, ptr);
    SetPcOnward(EnsureClient(s, s.frames[f].client, ptr), f, Ready);
  }

  lemma SendOnward(s: State, c: nat, f: nat, root: Ptr)
    requires Enabled(s, Send(c, f, root))
    ensures var t := Apply(s, Send(c, f, root)); Onward(s, t) && Idle(s, t)
  {
    if s.clients[c].ptr != 0 {
      AdmitOnward(s.(frames := s.frames[f := Frame(c, Ready, 0, map[])]), f, root);
    }
  }

  lemma StepOnward(s: State, step: Step)
    requires FramesOk(s) && Enabled(s, step)
    ensures
      var t := Apply(s, step);
      Onward(s, t) && ExecutesOnlyIn(s, t, step)
  {
    match step
    case Send(c, f, root) => SendOnward(s, c, f, root);
    case Ensure(f, ptr) => EnsureOnward(s, f, ptr);
    case Admit(f, root) => assert FrameOk(s, f); AdmitOnward(s, f, root);
    case Test(f, reply, required, q) => TestOnward(s, f, reply, required, q);
    case Wake(f, q) => SendOutOnward(s, f, s.frames[f].pc.ctx, s.frames[f].pc.urls, q);
    case Reject(f) => FinishOnward(s, f);
    case Settle(q, url) => PumpOnward(s, q, Pushed(s.queues[q], url));
    case Free(c, gc) => FreeOnward(s, c, gc);
    case Callback(q, k, bad) => CallbackOnward(s, q, k, bad);
    case Answer(f) => AnswerOnward(s, f);
    case _ => ClientStepOnward(s, step);
  }

  /**
   Once `free` has been delayed, no request of that client, in flight or sent
   later, ever reaches ctx_execute again.
   */
  lemma {:induction false} DelayedFreeStopsExecution(s: State, steps: seq<Step>, c: nat)
    requires Inv(s) && Possible(s, steps) && c in s.clients && s.clients[c].delayFree
    ensures
      var t := After(s, steps);
      && Onward(s, t) && Inv(t) && s.log <= t.log
      && forall i, f | |s.log| <= i < |t.log| && t.log[i].Execute? && f in t.frames && t.frames[f].client == c ::
           t.frames[f].root != t.log[i].root
    decreases steps
  {
    if steps != [] {
      var u := Apply(s, steps[0]);
      StepOnward(s, steps[0]);
      StepKeeps(s, steps[0]);
      DelayedFreeStopsExecution(u, steps[1..], c);
      var t := After(s, steps);
      forall i, f | |s.log| <= i < |u.log| && t.log[i].Execute? && f in t.frames && t.frames[f].client == c
        ensures t.frames[f].root != t.log[i].root
      {
        assert t.log[i] == u.log[i];
        ExecutedElsewhere(s, u, t, steps[0], i, f, c);
      }
    }
  }

  lemma ExecutedElsewhere(s: State, u: State, t: State, step: Step, i: nat, f: nat, c: nat)
    requires FramesOk(s) && RootsOk(t) && Onward(s, u) && Onward(u, t) && ExecutesOnlyIn(s, u, step)
    requires c in s.clients && s.clients[c].delayFree
    requires |s.log| <= i < |u.log| && u.log[i].Execute? && f in t.frames && t.frames[f].client == c
    requires step.Test? ==> Enabled(s, step) && RootsOk(s)
    ensures t.frames[f].root != u.log[i].root
  {
    var g := step.f;
    assert FrameOk(s, g);
    assert t.frames[g].root == u.log[i].root != 0;
  }

  // ---- the last finally block disposes ----

  /** The log grew, and a disposal of p is the last new call and the only new disposal. */
  ghost predicate EndsWithDisposal(before: seq<Call>, after: seq<Call>, p: Ptr) {
    && before < after && after[|after| - 1] == DisposeClient(p)
    && forall i | |before| <= i < |after| - 1 :: !after[i].DisposeClient?
  }

  /** A delayed client after a step: freed, with its disposal as the last call, exactly if nothing is pending any more. */
  ghost predicate DisposedIfLast(s: State, t: State, c: nat)
    requires c in s.clients
  {
    && c in t.clients
    && (t.clients[c].ptr == 0 <==> t.clients[c].pending == 0)
    && (t.clients[c].ptr != 0 ==> t.clients[c].ptr == s.clients[c].ptr)
    && (t.clients[c].ptr == 0 ==> EndsWithDisposal(s.log, t.log, s.clients[c].ptr))
  }

  ghost predicate Delayed(s: State, c: nat) {
    c in s.clients && s.clients[c].delayFree && s.clients[c].pending > 0 && s.clients[c].ptr != 0
  }

  lemma FinishDisposesLast(s: State, f: nat, c: nat)
    requires f in s.frames && s.frames[f].client in s.clients && Delayed(s, c)
    ensures DisposedIfLast(s, Finish(s, f), c)
  {
  }

  lemma SendOutDisposesLast(s: State, f: nat, ctx: Ptr, urls: nat, q: nat, c: nat)
    requires f in s.frames && s.frames[f].client in s.clients && Delayed(s, c)
    ensures DisposedIfLast(s, SendOut(s, f, ctx, urls, q), c)
  {
    if urls == 0 { FinishDisposesLast(s, f, c); } else { AwaitNextOnward(Open(s, f, ctx, urls, q), f, q); }
  }

  lemma ServedDisposesLast(t: State, f: nat, reply: Reply, q: nat, c: nat)
    requires Linked(t) && f in t.frames && Delayed(t, c)
    ensures DisposedIfLast(t, Served(t, f, reply, q), c)
  {
    match reply
    case Done => FinishDisposesLast(t, f, c);
    case Waiting(ctx) =>
      if ctx in t.frames[f].queues { AwaitNextOnward(t, f, t.frames[f].queues[ctx]); } else { FinishDisposesLast(t, f, c); }
    case Rpc(ctx, urls, wait, promise) => if !promise && !wait { SendOutDisposesLast(t, f, ctx, urls, q, c); }
    case _ =>
  }

  lemma TestDisposesLast(s: State, f: nat, reply: Reply, required: set<Ptr>, q: nat, c: nat)
    requires Linked(s) && f in s.frames && Delayed(s, c)
    ensures DisposedIfLast(s, TestLoop(s, f, reply, required, q), c)
  {
    if Cancelled(s, f) {
      FinishDisposesLast(s, f, c);
    } else {
      ServedDisposesLast(Emit(s, Execute(s.frames[f].root, required)), f, reply, q, c);
    }
  }

  lemma FreeDisposesNothing(s: State, d: nat, gc: bool, c: nat)
    requires d in s.clients && Delayed(s, c)
    ensures DisposedIfLast(s, FreeClient(s, d, gc), c)
  {
  }

  lemma AdmitDisposesNothing(s: State, f: nat, root: Ptr, c: nat)
    requires f in s.frames && s.frames[f].client in s.clients && Delayed(s, c)
    ensures DisposedIfLast(s, AdmitFrame(s, f, root), c)
  {
  }

  lemma StartDisposesNothing(s: State, step: Step, c: nat)
    requires Enabled(s, step) && Delayed(s, c) && (step.Send? || step.Ensure? || step.Admit?)
    ensures DisposedIfLast(s, Apply(s, step), c)
  {
    match step
    case Send(d, f, root) =>
      if s.clients[d].ptr != 0 {
        AdmitDisposesNothing(s.(frames := s.frames[f := Frame(d, Ready, 0, map[])]), f, root, c);
      }
    case Ensure(_, _) =>
    case Admit(f, root) => AdmitDisposesNothing(s, f, root, c);
  }

  lemma SmallStepDisposesNothing(s: State, step: Step, c: nat)
    requires Enabled(s, step) && Delayed(s, c)
    requires step.New? || step.Answer? || step.Callback? || step.Collect? || step.Finalize?
    ensures DisposedIfLast(s, Apply(s, step), c)
  {
  }

  lemma StepDisposesLast(s: State, step: Step, c: nat)
    requires Enabled(s, step) && Delayed(s, c)
    ensures DisposedIfLast(s, Apply(s, step), c)
  {
    match step
    case Test(f, reply, required, q) => TestDisposesLast(s, f, reply, required, q, c);
    case Wake(f, q) => SendOutDisposesLast(s, f, s.frames[f].pc.ctx, s.frames[f].pc.urls, q, c);
    case Reject(f) => FinishDisposesLast(s, f, c);
    case Settle(q, url) => PumpOnward(s, q, Pushed(s.queues[q], url));
    case Send(_, _, _) => StartDisposesNothing(s, step, c);
    case Ensure(_, _) => StartDisposesNothing(s, step, c);
    case Admit(_, _) => StartDisposesNothing(s, step, c);
    case Free(d, gc) => FreeDisposesNothing(s, d, gc, c);
    case _ => SmallStepDisposesNothing(s, step, c);
  }

  /** A client with a pending request is alive, and nobody has disposed it yet. */
  lemma PendingIsAlive(s: State, c: nat)
    requires Inv(s) && c in s.clients && s.clients[c].pending > 0 && s.clients[c].ptr != 0
    ensures s.clients[c].ptr in s.world.liveClients && DisposeClient(s.clients[c].ptr) !in s.log
  {
    assert ClientOk(s, c);
    var f :| f in Running(s, c);
    assert FrameOk(s, f);
  }

  lemma DisposedIsDead(s: State, p: Ptr)
    requires LogOk(s) && DisposeClient(p) in s.log
    ensures p !in s.world.liveClients
  {
  }

  lemma OnlyDisposal(before: seq<Call>, after: seq<Call>, p: Ptr)
    requires EndsWithDisposal(before, after, p) && DisposeClient(p) !in before
    ensures DisposeClient(p) in after
    ensures forall i | 0 <= i < |after| :: after[i] == DisposeClient(p) <==> i == |after| - 1
  {
    assert forall i | 0 <= i < |before| :: after[i] == before[i];
  }

  lemma EndedRequest(s: State, t: State, f: nat)
    requires Linked(s) && RootsOk(s) && f in s.frames && FrameOk(s, f) && Active(s.frames[f])
    requires Linked(t) && f in t.frames && FrameOk(t, f) && t.frames[f].root == s.frames[f].root
    ensures Active(t.frames[f]) || t.frames[f].pc == Finished
  {
  }

  /** If nothing is pending any more, the step has ended a request of the client. */
  lemma LastRequestEnds(s: State, t: State, c: nat)
    requires FramesOk(s) && RootsOk(s) && FramesOk(t) && Onward(s, t)
    requires c in s.clients && ClientOk(s, c) && s.clients[c].pending > 0
    requires c in t.clients && ClientOk(t, c) && t.clients[c].pending == 0
    ensures exists f | f in Running(s, c) :: f in t.frames && t.frames[f].pc == Finished
  {
    var f :| f in Running(s, c);
    EndedRequest(s, t, f);
    assert f !in Running(t, c);
  }

  /** Alive, and disposed by nobody so far. */
  ghost predicate Untouched(t: State, c: nat, p: Ptr) {
    c in t.clients && t.clients[c].ptr == p && p in t.world.liveClients && DisposeClient(p) !in t.log
  }

  /** Dead, by the very last call and no other one. */
  ghost predicate JustDisposed(t: State, c: nat, p: Ptr) {
    && c in t.clients && t.clients[c].ptr == 0 && p !in t.world.liveClients
    && DisposeClient(p) in t.log
    && forall i | 0 <= i < |t.log| :: t.log[i] == DisposeClient(p) <==> i == |t.log| - 1
  }

  ghost predicate UntouchedWhilePending(s: State, t: State, c: nat) {
    && c in s.clients && c in t.clients && Untouched(s, c, s.clients[c].ptr)
    && (t.clients[c].pending != 0 ==> Untouched(t, c, s.clients[c].ptr))
  }

  /** With nothing pending any more the client is disposed, by a step that ended one of its requests. */
  ghost predicate DisposedWithLast(s: State, t: State, c: nat) {
    && c in s.clients && c in t.clients
    && (t.clients[c].pending == 0 ==>
          && JustDisposed(t, c, s.clients[c].ptr)
          && exists f | f in Running(s, c) :: f in t.frames && t.frames[f].pc == Finished)
  }

  lemma StaysUntouched(s: State, t: State, c: nat)
    requires Inv(t) && Delayed(s, c) && Untouched(s, c, s.clients[c].ptr) && DisposedIfLast(s, t, c)
    ensures UntouchedWhilePending(s, t, c)
  {
    if t.clients[c].pending != 0 {
      assert ClientOk(t, c);
      PendingIsAlive(t, c);
    }
  }

  lemma GoesWithLast(s: State, t: State, c: nat)
    requires LogOk(t) && Delayed(s, c) && Untouched(s, c, s.clients[c].ptr) && DisposedIfLast(s, t, c)
    ensures t.clients[c].pending == 0 ==> JustDisposed(t, c, s.clients[c].ptr)
  {
    if t.clients[c].pending == 0 {
      OnlyDisposal(s.log, t.log, s.clients[c].ptr);
      DisposedIsDead(t, s.clients[c].ptr);
    }
  }

  /**
   Once `free` has been delayed, the native client stays alive and undisposed
   through every step that leaves a request pending.  Only the step that ends
   the last one disposes it, as its last call, and there is no other disposal.
   */
  lemma LastFinallyDisposes(s: State, step: Step, c: nat)
    requires Inv(s) && Enabled(s, step) && Delayed(s, c)
    ensures UntouchedWhilePending(s, Apply(s, step), c) && DisposedWithLast(s, Apply(s, step), c)
  {
    var t := Apply(s, step);
    StepKeeps(s, step);
    StepOnward(s, step);
    StepDisposesLast(s, step, c);
    PendingIsAlive(s, c);
    StaysUntouched(s, t, c);
    GoesWithLast(s, t, c);
    if t.clients[c].pending == 0 { LastRequestEnds(s, t, c); }
  }
}
