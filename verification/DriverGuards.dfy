/** Exactly which runs of the driver make only calls the engine can take. */
module DriverGuards {
  import opened NativeEngine
  import opened UrlQueues
  import opened Driver
  import opened DriverInvariant
  import opened DriverTheorems
  import opened DriverFree

  /** Every live context was created for a client, not for the null pointer. */
  ghost predicate Owned(s: State) {
    forall r | r in s.world.owner :: s.world.owner[r] != 0
  }

  /** No context was created. */
  ghost predicate NoneCreated(s: State, t: State) {
    forall r | r in t.world.owner :: r in s.world.owner && t.world.owner[r] == s.world.owner[r]
  }

  lemma {:induction false} EmitAllCreatesNone(s: State, cs: seq<Call>)
    requires forall c | c in cs :: c.IsAlive? || c.SetResponse?
    ensures EmitAll(s, cs).world == s.world
    decreases cs
  {
    if cs != [] {
      assert cs[0] in cs;
      EmitAllCreatesNone(Emit(s, cs[0]), cs[1..]);
    }
  }

  lemma PumpCreatesNone(s: State, q: nat, queue: Queue)
    requires queue.frame in s.frames && s.frames[queue.frame].client in s.clients
    ensures Pump(s, q, queue).world == s.world
  {
    var ptrSet := s.clients[s.frames[queue.frame].client].ptr != 0;
    var alive := queue.root in s.world.chain && queue.ctx in s.world.chain[queue.root];
    NoticesIdle(queue.root, queue.ctx, queue.buffered[..Pairs(queue)], alive);
    EmitAllCreatesNone(s, TriggerCalls(queue, ptrSet, alive));
  }

  lemma AwaitNextCreatesNone(s: State, f: nat, q: nat)
    requires f in s.frames && s.frames[f].client in s.clients && q in s.queues && s.queues[q].frame == f
    ensures AwaitNext(s, f, q).world == s.world
  {
    if Accepts(s.queues[q]) { PumpCreatesNone(SetPc(s, f, Awaiting(q)), q, Asked(s.queues[q], ByLoop)); }
  }

  lemma FinishCreatesNone(s: State, f: nat)
    requires f in s.frames && s.frames[f].client in s.clients
    ensures NoneCreated(s, Finish(s, f))
  {
  }

  lemma SendOutCreatesNone(s: State, f: nat, ctx: Ptr, urls: nat, q: nat)
    requires f in s.frames && s.frames[f].client in s.clients
    ensures NoneCreated(s, SendOut(s, f, ctx, urls, q))
  {
    if urls == 0 { FinishCreatesNone(s, f); } else { AwaitNextCreatesNone(Open(s, f, ctx, urls, q), f, q); }
  }

  lemma ServedCreatesNone(t: State, f: nat, reply: Reply, q: nat)
    requires Linked(t) && f in t.frames
    ensures NoneCreated(t, Served(t, f, reply, q))
  {
    match reply
    case Done => FinishCreatesNone(t, f);
    case Waiting(ctx) =>
      if ctx in t.frames[f].queues {
        AwaitNextCreatesNone(t, f, t.frames[f].queues[ctx]);
      } else {
        FinishCreatesNone(t, f);
      }
    case Rpc(ctx, urls, wait, promise) => SendOutCreatesNone(t, f, ctx, urls, q);
    case _ =>
  }

  lemma TestCreatesNone(s: State, f: nat, reply: Reply, required: set<Ptr>, q: nat)
    requires Linked(s) && f in s.frames
    ensures NoneCreated(s, TestLoop(s, f, reply, required, q))
  {
    if Cancelled(s, f) {
      FinishCreatesNone(s, f);
    } else {
      ServedCreatesNone(Emit(s, Execute(s.frames[f].root, required)), f, reply, q);
    }
  }

  lemma SmallStepCreatesNone(s: State, step: Step)
    requires Enabled(s, step)
    requires step.New? || step.Ensure? || step.Answer? || step.Callback? || step.Collect? || step.Finalize?
    ensures NoneCreated(s, Apply(s, step))
  {
  }

  lemma FreeCreatesNone(s: State, c: nat, gc: bool)
    requires c in s.clients
    ensures NoneCreated(s, FreeClient(s, c, gc))
  {
  }

  lemma AdmitOwned(s: State, f: nat, root: Ptr)
    requires f in s.frames && s.frames[f].client in s.clients && s.clients[s.frames[f].client].ptr != 0 && Owned(s)
    ensures Owned(AdmitFrame(s, f, root))
  {
  }

  // ---- the guards ----

  /** What the code does not test: a native client before creating a context, a listed client before finalizing. */
  ghost predicate Guarded(s: State, step: Step)
    requires Enabled(s, step)
  {
    match step
    case Admit(f, _) => s.clients[s.frames[f].client].ptr != 0
    case Finalize(_, p) => p in s.registry
    case _ => true
  }

  ghost predicate GuardedRun(s: State, steps: seq<Step>)
    requires Possible(s, steps)
    decreases steps
  {
    steps == [] || (Guarded(s, steps[0]) && GuardedRun(Apply(s, steps[0]), steps[1..]))
  }

  lemma GuardedStepOwned(s: State, step: Step)
    requires Enabled(s, step) && Guarded(s, step) && Owned(s)
    ensures Owned(Apply(s, step))
  {
    match step
    case Send(c, f, root) =>
      if s.clients[c].ptr != 0 { AdmitOwned(s.(frames := s.frames[f := Frame(c, Ready, 0, map[])]), f, root); }
    case Admit(f, root) => AdmitOwned(s, f, root);
    case Test(f, reply, required, q) => TestCreatesNone(s, f, reply, required, q);
    case Wake(f, q) => SendOutCreatesNone(s, f, s.frames[f].pc.ctx, s.frames[f].pc.urls, q);
    case Reject(f) => FinishCreatesNone(s, f);
    case Settle(q, url) => PumpCreatesNone(s, q, Pushed(s.queues[q], url));
    case Free(c, gc) => FreeCreatesNone(s, c, gc);
    case _ => SmallStepCreatesNone(s, step);
  }

  /** Without a context of the null client, the two guards are all that is missing. */
  lemma GuardedFaults(s: State, step: Step)
    requires Enabled(s, step) && Owned(s)
    ensures NewFaults(s, step) == [] <==> Guarded(s, step)
  {
  }

  lemma {:induction false} FaultsStay(s: State, steps: seq<Step>)
    requires Inv(s) && Possible(s, steps)
    ensures s.faults <= After(s, steps).faults
    decreases steps
  {
    if steps != [] {
      StepKeeps(s, steps[0]);
      FaultsStay(Apply(s, steps[0]), steps[1..]);
    }
  }

  lemma {:induction false} RunFaults(s: State, steps: seq<Step>)
    requires Inv(s) && Owned(s) && Possible(s, steps)
    ensures After(s, steps).faults == s.faults <==> GuardedRun(s, steps)
    decreases steps
  {
    if steps != [] {
      var t := Apply(s, steps[0]);
      StepKeeps(s, steps[0]);
      GuardedFaults(s, steps[0]);
      FaultsStay(t, steps[1..]);
      if Guarded(s, steps[0]) {
        GuardedStepOwned(s, steps[0]);
        RunFaults(t, steps[1..]);
      }
    }
  }

  /**
   A run makes only calls the engine can take if and only if each context is
   created with a client at hand and each finalizer finds its client listed.
   */
  lemma FaultlessExactlyIfGuarded(weak: bool, steps: seq<Step>)
    requires Possible(Init(weak), steps)
    ensures After(Init(weak), steps).faults == [] <==> GuardedRun(Init(weak), steps)
  {
    InitInv(weak);
    RunFaults(Init(weak), steps);
  }
}
