/** Exactly which runs dispose a native client twice. */
module DriverDisposal {
  import opened NativeEngine
  import opened UrlQueues
  import opened Driver
  import opened DriverInvariant
  import opened DriverTheorems
  import opened DriverFree

  /** A registered finalizer belongs to a client that is alive or has been disposed. */
  ghost predicate Accounted(s: State) {
    forall x | x in s.cells :: x.1 in s.registry || DisposeClient(x.1) in s.log
  }

  /** Client table and finalizers are as before, while the log may have grown. */
  ghost predicate SameTables(s: State, t: State) {
    t.cells == s.cells && t.registry == s.registry && s.log <= t.log
  }

  lemma SameAccount(s: State, t: State)
    requires Accounted(s) && SameTables(s, t)
    ensures Accounted(t)
  {
    forall x | x in t.cells ensures x.1 in t.registry || DisposeClient(x.1) in t.log {
      if x.1 !in t.registry { assert DisposeClient(x.1) in s.log; }
    }
  }

  lemma {:induction false} EmitAllSame(s: State, cs: seq<Call>)
    ensures SameTables(s, EmitAll(s, cs))
    decreases cs
  {
    if cs != [] { EmitAllSame(Emit(s, cs[0]), cs[1..]); }
  }

  lemma PumpSame(s: State, q: nat, queue: Queue)
    requires queue.frame in s.frames && s.frames[queue.frame].client in s.clients
    ensures SameTables(s, Pump(s, q, queue))
  {
    var ptrSet := s.clients[s.frames[queue.frame].client].ptr != 0;
    var alive := queue.root in s.world.chain && queue.ctx in s.world.chain[queue.root];
    EmitAllSame(s, TriggerCalls(queue, ptrSet, alive));
  }

  lemma AwaitNextSame(s: State, f: nat, q: nat)
    requires f in s.frames && s.frames[f].client in s.clients && q in s.queues && s.queues[q].frame == f
    ensures SameTables(s, AwaitNext(s, f, q))
  {
    if Accepts(s.queues[q]) { PumpSame(SetPc(s, f, Awaiting(q)), q, Asked(s.queues[q], ByLoop)); }
  }

  lemma FreeAccounts(s: State, c: nat, gc: bool)
    requires c in s.clients
    requires Accounted(s)
    ensures Accounted(FreeClient(s, c, gc))
  {
    var t := FreeClient(s, c, gc);
    forall x | x in t.cells ensures x.1 in t.registry || DisposeClient(x.1) in t.log {
      assert x in s.cells;
      if DisposeClient(x.1) in s.log { assert DisposeClient(x.1) in t.log; }
    }
  }

  lemma FinishAccounts(s: State, f: nat)
    requires f in s.frames && s.frames[f].client in s.clients
    requires Accounted(s)
    ensures Accounted(Finish(s, f))
  {
    SameAccount(s, Release(s, f));
    FreeAccounts(Release(s, f), s.frames[f].client, false);
  }

  lemma SendOutAccounts(s: State, f: nat, ctx: Ptr, urls: nat, q: nat)
    requires f in s.frames && s.frames[f].client in s.clients
    requires Accounted(s)
    ensures Accounted(SendOut(s, f, ctx, urls, q))
  {
    if urls == 0 {
      FinishAccounts(s, f);
    } else {
      AwaitNextSame(Open(s, f, ctx, urls, q), f, q);
      SameAccount(s, SendOut(s, f, ctx, urls, q));
    }
  }

  lemma ServedAccounts(t: State, f: nat, reply: Reply, q: nat)
    requires Linked(t) && f in t.frames
    requires Accounted(t)
    ensures Accounted(Served(t, f, reply, q))
  {
    match reply
    case Done => FinishAccounts(t, f);
    case Waiting(ctx) =>
      if ctx in t.frames[f].queues {
        AwaitNextSame(t, f, t.frames[f].queues[ctx]);
        SameAccount(t, Served(t, f, reply, q));
      } else {
        FinishAccounts(t, f);
      }
    case Rpc(ctx, urls, wait, promise) => if !promise && !wait { SendOutAccounts(t, f, ctx, urls, q); }
    case _ =>
  }

  lemma TestAccounts(s: State, f: nat, reply: Reply, required: set<Ptr>, q: nat)
    requires Linked(s) && f in s.frames
    requires Accounted(s)
    ensures Accounted(TestLoop(s, f, reply, required, q))
  {
    if Cancelled(s, f) {
      FinishAccounts(s, f);
    } else {
      var t := Emit(s, Execute(s.frames[f].root, required));
      SameAccount(s, t);
      ServedAccounts(t, f, reply, q);
    }
  }

  lemma EnsureAccounts(s: State, c: nat, p: Ptr)
    requires c in s.clients
    requires Accounted(s)
    ensures Accounted(EnsureClient(s, c, p))
  {
    var t := EnsureClient(s, c, p);
    forall x | x in t.cells ensures x.1 in t.registry || DisposeClient(x.1) in t.log {
      if x in s.cells && DisposeClient(x.1) in s.log { assert DisposeClient(x.1) in t.log; }
    }
  }

  lemma FinalizeAccounts(s: State, c: nat, p: Ptr)
    requires Enabled(s, Finalize(c, p))
    requires Accounted(s)
    ensures Accounted(Apply(s, Finalize(c, p)))
  {
    var t := Apply(s, Finalize(c, p));
    forall x | x in t.cells ensures x.1 in t.registry || DisposeClient(x.1) in t.log {
      assert x in s.cells;
      if DisposeClient(x.1) in s.log { assert DisposeClient(x.1) in t.log; }
    }
  }

  lemma AdmitSame(s: State, f: nat, root: Ptr)
    requires f in s.frames && s.frames[f].client in s.clients
    ensures SameTables(s, AdmitFrame(s, f, root))
  {
  }

  lemma SendSame(s: State, c: nat, f: nat, root: Ptr)
    requires Enabled(s, Send(c, f, root))
    ensures SameTables(s, Apply(s, Send(c, f, root)))
  {
    if s.clients[c].ptr != 0 { AdmitSame(s.(frames := s.frames[f := Frame(c, Ready, 0, map[])]), f, root); }
  }

  lemma SmallStepSame(s: State, step: Step)
    requires Enabled(s, step) && (step.New? || step.Answer? || step.Callback? || step.Collect?)
    ensures SameTables(s, Apply(s, step))
  {
  }

  lemma StepAccounts(s: State, step: Step)
    requires Enabled(s, step)
    requires Accounted(s)
    ensures Accounted(Apply(s, step))
  {
    match step
    case Ensure(f, p) =>
      EnsureAccounts(s, s.frames[f].client, p);
      SameAccount(EnsureClient(s, s.frames[f].client, p), Apply(s, step));
    case Test(f, reply, required, q) => TestAccounts(s, f, reply, required, q);
    case Wake(f, q) => SendOutAccounts(s, f, s.frames[f].pc.ctx, s.frames[f].pc.urls, q);
    case Reject(f) => FinishAccounts(s, f);
    case Settle(q, url) => PumpSame(s, q, Pushed(s.queues[q], url)); SameAccount(s, Apply(s, step));
    case Free(c, gc) => FreeAccounts(s, c, gc);
    case Finalize(c, p) => FinalizeAccounts(s, c, p);
    case Send(c, f, root) => SendSame(s, c, f, root); SameAccount(s, Apply(s, step));
    case Admit(f, root) => AdmitSame(s, f, root); SameAccount(s, Apply(s, step));
    case _ => SmallStepSame(s, step); SameAccount(s, Apply(s, step));
  }

  // ---- disposals in the log ----

  ghost predicate DisposedOnce(log: seq<Call>) {
    forall i, j | 0 <= i < j < |log| && log[i].DisposeClient? :: log[j] != log[i]
  }

  /** Every finalizer of the run finds its client alive. */
  ghost predicate FinalizersInTime(s: State, steps: seq<Step>)
    requires Possible(s, steps)
    decreases steps
  {
    steps == [] ||
    ((steps[0].Finalize? ==> steps[0].ptr in s.registry) && FinalizersInTime(Apply(s, steps[0]), steps[1..]))
  }

  lemma PrefixOnce(a: seq<Call>, b: seq<Call>)
    requires a <= b && DisposedOnce(b)
    ensures DisposedOnce(a)
  {
    assert forall i | 0 <= i < |a| :: a[i] == b[i];
  }

  lemma TwiceInLog(log: seq<Call>, c: Call)
    requires c in log && c.DisposeClient?
    ensures !DisposedOnce(log + [c])
  {
    var i :| 0 <= i < |log| && log[i] == c;
    assert (log + [c])[i] == c && (log + [c])[|log|] == c;
  }

  /** Disposals count as repeated exactly if some finalizer came too late. */
  lemma {:induction false} RunDisposals(s: State, steps: seq<Step>)
    requires Inv(s) && Accounted(s) && Possible(s, steps) && (forall c | c in s.faults :: !c.DisposeClient?)
    ensures
      var t := After(s, steps);
      && s.log <= t.log
      && (FinalizersInTime(s, steps) ==> forall c | c in t.faults :: !c.DisposeClient?)
      && (!FinalizersInTime(s, steps) ==> !DisposedOnce(t.log))
    decreases steps
  {
    if steps != [] {
      var step, u := steps[0], Apply(s, steps[0]);
      StepKeeps(s, step);
      StepOnward(s, step);
      StepAccounts(s, step);
      if step.Finalize? && step.ptr !in s.registry {
        TwiceInLog(s.log, DisposeClient(step.ptr));
        LogGrows(u, steps[1..]);
        if DisposedOnce(After(s, steps).log) { PrefixOnce(u.log, After(s, steps).log); }
      } else {
        InTimeFaults(s, step);
        RunDisposals(u, steps[1..]);
      }
    }
  }

  lemma InTimeFaults(s: State, step: Step)
    requires Enabled(s, step) && (step.Finalize? ==> step.ptr in s.registry)
    ensures forall c | c in NewFaults(s, step) :: !c.DisposeClient?
  {
  }

  lemma {:induction false} LogGrows(s: State, steps: seq<Step>)
    requires Inv(s) && Possible(s, steps)
    ensures s.log <= After(s, steps).log
    decreases steps
  {
    if steps != [] {
      StepKeeps(s, steps[0]);
      StepOnward(s, steps[0]);
      LogGrows(Apply(s, steps[0]), steps[1..]);
    }
  }

  /**
   Across `free`, delayed free and the finalizer, no run disposes a pointer twice
   if and only if each finalizer that fires finds its client still listed.
   */
  lemma DisposedOnceExactlyIfInTime(weak: bool, steps: seq<Step>)
    requires Possible(Init(weak), steps)
    ensures DisposedOnce(After(Init(weak), steps).log) <==> FinalizersInTime(Init(weak), steps)
  {
    InitInv(weak);
    RunDisposals(Init(weak), steps);
    RunKeeps(Init(weak), steps);
  }
}
