/** Theorems about whole runs of the driver. */
module DriverTheorems {
  import opened NativeEngine
  import opened UrlQueues
  import opened Driver
  import opened DriverInvariant
  import opened DriverSteps

  // ---- every step keeps the invariant, and its faults are known exactly ----

  /** The calls of a step that the engine cannot take; each is decided by a guard the code does not have. */
  function NewFaults(s: State, step: Step): seq<Call>
    requires Enabled(s, step)
  {
    match step
    case Admit(f, root) =>
      if s.clients[s.frames[f].client].ptr == 0 then [CreateCtx(0, root)] else []
    case Test(f, _, required, _) =>
      var root := s.frames[f].root;
      if !Cancelled(s, f) && root in s.world.owner && s.world.owner[root] == 0 then [Execute(root, required)] else []
    case Finalize(_, p) => if p !in s.registry then [DisposeClient(p)] else []
    case _ => []
  }

  /** `free` is not called with its internal gc flag, which skips the unregistering of the finalizer. */
  predicate NoGc(s: State, step: Step) { step.Free? ==> !(step.gc && s.weak) }

  /**
   `free` is not called while a request of the client is still starting, and no
   request is sent on a client whose `free` had to be delayed.
   */
  predicate Unhurried(s: State, step: Step) {
    match step
    case Send(c, _, _) => c in s.clients && !s.clients[c].delayFree
    case Free(c, _) => forall f | f in s.frames && s.frames[f].client == c :: !Starting(s.frames[f])
    case _ => true
  }

  ghost predicate TidiedBy(s: State, step: Step)
    requires Enabled(s, step)
  {
    && (CellsTidy(s) && NoGc(s, step) ==> CellsTidy(Apply(s, step)))
    && (FramesTidy(s) && Unhurried(s, step) ==> FramesTidy(Apply(s, step)))
  }

  ghost predicate Kept(s: State, step: Step) {
    && Enabled(s, step) && Inv(Apply(s, step)) && Apply(s, step).faults == s.faults + NewFaults(s, step)
    && TidiedBy(s, step)
  }

  lemma KeptQuietly(s: State, step: Step)
    requires Enabled(s, step) && Inv(Apply(s, step)) && Apply(s, step).faults == s.faults && NewFaults(s, step) == []
              && TidiedBy(s, step)
    ensures Kept(s, step)
  {
    assert s.faults + [] == s.faults;
  }

  lemma KeptTidily(s: State, step: Step)
    requires Enabled(s, step) && Inv(Apply(s, step)) && Apply(s, step).faults == s.faults && NewFaults(s, step) == []
              && Tidied(s, Apply(s, step))
    ensures Kept(s, step)
  {
    KeptQuietly(s, step);
  }

  lemma SameLog(s: State, t: State)
    requires LogOk(s) && QueuesFifo(s) && t.log == s.log && t.world == s.world && t.faults == s.faults
              && t.queues == s.queues
    ensures LogOk(t) && QueuesFifo(t)
  {
  }

  lemma KeepNew(s: State, c: nat)
    requires Inv(s) && Enabled(s, New(c))
    ensures Kept(s, New(c))
  {
    var t := Apply(s, New(c));
    NewKeeps(s, t, c);
    AppearedTidy(s, t, c);
    SameLog(s, t);
    KeptTidily(s, New(c));
  }

  lemma KeepSend(s: State, c: nat, f: nat, root: Ptr)
    requires Inv(s) && Enabled(s, Send(c, f, root))
    ensures Kept(s, Send(c, f, root))
  {
    SendKeeps(s, c, f, root);
    KeptQuietly(s, Send(c, f, root));
  }

  lemma KeepEnsure(s: State, f: nat, p: Ptr)
    requires Inv(s) && Enabled(s, Ensure(f, p))
    ensures Kept(s, Ensure(f, p))
  {
    EnsureKeeps(s, f, p);
    KeptTidily(s, Ensure(f, p));
  }

  lemma KeepAdmit(s: State, f: nat, root: Ptr)
    requires Inv(s) && Enabled(s, Admit(f, root))
    ensures Kept(s, Admit(f, root))
  {
    AdmitKeeps(s, f, root);
    assert s.faults + [] == s.faults;
  }

  /** A context belongs to a live client unless it was created for the null client. */
  lemma OwnerAlive(s: State, f: nat)
    requires Wired(s) && f in s.frames && Active(s.frames[f]) && s.clients[s.frames[f].client].ptr != 0
    ensures s.frames[f].root in s.world.owner
    ensures s.world.owner[s.frames[f].root] in s.world.liveClients <==> s.world.owner[s.frames[f].root] != 0
  {
    assert FrameOk(s, f) && ClientOk(s, s.frames[f].client);
  }

  lemma TestFaults(s: State, f: nat, reply: Reply, required: set<Ptr>, q: nat)
    requires Wired(s) && Enabled(s, Test(f, reply, required, q)) && s.frames[f].root in s.world.owner
    ensures
      (if Cancelled(s, f) then s.faults else ExecuteFaults(s, s.frames[f].root, required))
      == s.faults + NewFaults(s, Test(f, reply, required, q))
  {
    NothingMore(s.faults);
    if !Cancelled(s, f) { OwnerAlive(s, f); }
  }

  lemma NothingMore(faults: seq<Call>)
    ensures faults + [] == faults
  {
  }

  lemma KeepTest(s: State, f: nat, reply: Reply, required: set<Ptr>, q: nat)
    requires Inv(s) && Enabled(s, Test(f, reply, required, q))
    ensures Kept(s, Test(f, reply, required, q))
  {
    TestKeeps(s, f, reply, required, q);
    TestFaults(s, f, reply, required, q);
  }

  lemma KeepWake(s: State, f: nat, q: nat)
    requires Inv(s) && Enabled(s, Wake(f, q))
    ensures Kept(s, Wake(f, q))
  {
    assert FrameOk(s, f);
    SendOutKeeps(s, f, s.frames[f].pc.ctx, s.frames[f].pc.urls, q);
    KeptTidily(s, Wake(f, q));
  }

  lemma KeepAnswer(s: State, f: nat)
    requires Inv(s) && Enabled(s, Answer(f))
    ensures Kept(s, Answer(f))
  {
    AnswerKeeps(s, f);
    KeptTidily(s, Answer(f));
  }

  lemma RejectIsFinish(s: State, f: nat)
    requires Enabled(s, Reject(f))
    ensures Apply(s, Reject(f)) == Finish(s, f)
  {
  }

  lemma KeepReject(s: State, f: nat)
    requires Inv(s) && Enabled(s, Reject(f))
    ensures Kept(s, Reject(f))
  {
    FinishKeeps(s, f);
    RejectIsFinish(s, f);
    KeptTidily(s, Reject(f));
  }

  lemma KeepSettle(s: State, q: nat, url: nat)
    requires Inv(s) && Enabled(s, Settle(q, url))
    ensures Kept(s, Settle(q, url))
  {
    SettleKeeps(s, q, url);
    KeptTidily(s, Settle(q, url));
  }

  lemma KeepCallback(s: State, q: nat, k: nat, bad: bool)
    requires Inv(s) && Enabled(s, Callback(q, k, bad))
    ensures Kept(s, Callback(q, k, bad))
  {
    CallbackKeeps(s, q, k, bad);
    KeptTidily(s, Callback(q, k, bad));
  }

  lemma KeepFree(s: State, c: nat, gc: bool)
    requires Inv(s) && Enabled(s, Free(c, gc))
    ensures Kept(s, Free(c, gc))
  {
    FreeKeeps(s, c, gc);
    KeptQuietly(s, Free(c, gc));
  }

  lemma KeepCollect(s: State, c: nat)
    requires Inv(s) && Enabled(s, Collect(c))
    ensures Kept(s, Collect(c))
  {
    var t := Apply(s, Collect(c));
    assert Dropped(s, t, c);
    CollectKeeps(s, t, c);
    DroppedTidy(s, t, c);
    SameLog(s, t);
    KeptTidily(s, Collect(c));
  }

  lemma KeepFinalize(s: State, c: nat, p: Ptr)
    requires Inv(s) && Enabled(s, Finalize(c, p))
    ensures Kept(s, Finalize(c, p))
  {
    FinalizeKeeps(s, c, p);
    assert s.faults + [] == s.faults;
  }

  lemma RequestStepKeeps(s: State, step: Step)
    requires Inv(s) && Enabled(s, step)
    requires step.Send? || step.Ensure? || step.Admit? || step.Test? || step.Wake? || step.Answer? || step.Reject?
    ensures Kept(s, step)
  {
    match step
    case Send(c, f, root) => KeepSend(s, c, f, root);
    case Ensure(f, p) => KeepEnsure(s, f, p);
    case Admit(f, root) => KeepAdmit(s, f, root);
    case Test(f, reply, required, q) => KeepTest(s, f, reply, required, q);
    case Wake(f, q) => KeepWake(s, f, q);
    case Answer(f) => KeepAnswer(s, f);
    case Reject(f) => KeepReject(s, f);
  }

  lemma OutsideStepKeeps(s: State, step: Step)
    requires Inv(s) && Enabled(s, step)
    requires step.New? || step.Settle? || step.Callback? || step.Free? || step.Collect? || step.Finalize?
    ensures Kept(s, step)
  {
    match step
    case New(c) => KeepNew(s, c);
    case Settle(q, url) => KeepSettle(s, q, url);
    case Callback(q, k, bad) => KeepCallback(s, q, k, bad);
    case Free(c, gc) => KeepFree(s, c, gc);
    case Collect(c) => KeepCollect(s, c);
    case Finalize(c, p) => KeepFinalize(s, c, p);
  }

  /**
   Every step of every client keeps the invariant.  It makes a call the engine
   cannot take exactly when it creates a context without a native client, runs
   such a context, or finalizes a client that has been disposed already.
   */
  lemma StepKeeps(s: State, step: Step)
    requires Inv(s) && Enabled(s, step)
    ensures Kept(s, step)
  {
    if step.New? || step.Settle? || step.Callback? || step.Free? || step.Collect? || step.Finalize? {
      OutsideStepKeeps(s, step);
    } else {
      RequestStepKeeps(s, step);
    }
  }

  lemma {:induction false} RunKeeps(s: State, steps: seq<Step>)
    decreases steps
    requires Inv(s) && Possible(s, steps)
    ensures Inv(After(s, steps))
  {
    if steps != [] {
      StepKeeps(s, steps[0]);
      RunKeeps(Apply(s, steps[0]), steps[1..]);
    }
  }

  ghost predicate NoGcRun(s: State, steps: seq<Step>)
    requires Possible(s, steps)
    decreases steps
  {
    steps == [] || (NoGc(s, steps[0]) && NoGcRun(Apply(s, steps[0]), steps[1..]))
  }

  ghost predicate UnhurriedRun(s: State, steps: seq<Step>)
    requires Possible(s, steps)
    decreases steps
  {
    steps == [] || (Unhurried(s, steps[0]) && UnhurriedRun(Apply(s, steps[0]), steps[1..]))
  }

  lemma TidyCellFaults(s: State, step: Step)
    requires CellsTidy(s) && Enabled(s, step)
    ensures forall c | c in NewFaults(s, step) :: !c.DisposeClient?
  {
  }

  lemma TidyFrameFaults(s: State, step: Step)
    requires FramesTidy(s) && Enabled(s, step)
    ensures forall c | c in NewFaults(s, step) :: c.DisposeClient?
  {
    match step
    case Admit(f, _) => assert TidyFrame(s, s.frames[f]);
    case Test(f, _, _, _) => assert TidyFrame(s, s.frames[f]);
    case _ =>
  }

  lemma {:induction false} NoGcRunKeeps(s: State, steps: seq<Step>)
    decreases steps
    requires Inv(s) && CellsTidy(s) && Possible(s, steps) && NoGcRun(s, steps)
              && (forall c | c in s.faults :: !c.DisposeClient?)
    ensures forall c | c in After(s, steps).faults :: !c.DisposeClient?
  {
    if steps != [] {
      StepKeeps(s, steps[0]);
      TidyCellFaults(s, steps[0]);
      NoGcRunKeeps(Apply(s, steps[0]), steps[1..]);
    }
  }

  lemma {:induction false} UnhurriedRunKeeps(s: State, steps: seq<Step>)
    decreases steps
    requires Inv(s) && FramesTidy(s) && Possible(s, steps) && UnhurriedRun(s, steps)
              && (forall c | c in s.faults :: c.DisposeClient?)
    ensures forall c | c in After(s, steps).faults :: c.DisposeClient?
  {
    if steps != [] {
      StepKeeps(s, steps[0]);
      TidyFrameFaults(s, steps[0]);
      UnhurriedRunKeeps(Apply(s, steps[0]), steps[1..]);
    }
  }

  /** Without the gc flag, no client pointer is disposed twice, by whichever of the three ways. */
  lemma DisposedAtMostOnce(weak: bool, steps: seq<Step>)
    requires Possible(Init(weak), steps) && NoGcRun(Init(weak), steps)
    ensures
      var log := After(Init(weak), steps).log;
      forall i, j | 0 <= i < j < |log| && log[i].DisposeClient? :: log[j] != log[i]
  {
    InitInv(weak);
    RunKeeps(Init(weak), steps);
    NoGcRunKeeps(Init(weak), steps);
  }

  lemma SomeMember(calls: seq<Call>)
    requires calls != []
    ensures exists c :: c in calls
  {
    assert calls[0] in calls;
  }

  /** A run that is also unhurried makes only calls the engine can take. */
  lemma GentleRunsAreFaultless(weak: bool, steps: seq<Step>)
    requires Possible(Init(weak), steps) && NoGcRun(Init(weak), steps) && UnhurriedRun(Init(weak), steps)
    ensures After(Init(weak), steps).faults == []
  {
    InitInv(weak);
    NoGcRunKeeps(Init(weak), steps);
    UnhurriedRunKeeps(Init(weak), steps);
    var faults := After(Init(weak), steps).faults;
    if faults != [] { SomeMember(faults); }
  }

  // ---- memory safety of every run ----

  /**
   In every run, whatever the interleaving: no context is executed, asked about,
   answered or released after its release, no client is used or blacklisted on
   after its disposal, and the only illegal calls are creations without a client
   (and runs of such a context) and repeated disposals.
   */
  lemma NoRunUsesFreedMemory(weak: bool, steps: seq<Step>)
    requires Possible(Init(weak), steps)
    ensures
      var s := After(Init(weak), steps);
      && NoUseAfterFree(s.log)
      && forall i | 0 <= i < |s.faults| :: s.faults[i].CreateCtx? || s.faults[i].Execute? || s.faults[i].DisposeClient?
  {
    InitInv(weak);
    RunKeeps(Init(weak), steps);
  }

  /** In every run `pending` counts the live contexts of a client, and nothing else keeps memory alive. */
  lemma PendingCountsLiveContexts(weak: bool, steps: seq<Step>)
    requires Possible(Init(weak), steps)
    ensures
      var s := After(Init(weak), steps);
      && (forall c | c in s.clients :: s.clients[c].pending == |Running(s, c)|)
      && (forall f | f in s.frames :: Active(s.frames[f]) <==> s.frames[f].root in s.world.owner)
      && (forall r | r in s.world.owner :: exists f :: f in s.frames && s.frames[f].root == r)
      && s.world.liveClients == s.registry.Keys
  {
    InitInv(weak);
    RunKeeps(Init(weak), steps);
    var s := After(Init(weak), steps);
    forall c | c in s.clients ensures s.clients[c].pending == |Running(s, c)| { assert ClientOk(s, c); }
    forall f | f in s.frames ensures Active(s.frames[f]) <==> s.frames[f].root in s.world.owner { assert FrameOk(s, f); }
  }

  /**
   A queue that a retry has overwritten holds no promise: its late responses are
   buffered and reach neither the engine nor anybody else.
   */
  lemma OverwrittenQueueIsMute(weak: bool, steps: seq<Step>, q: nat)
    requires Possible(Init(weak), steps)
    ensures
      var s := After(Init(weak), steps);
      q in s.queues && s.queues[q].frame in s.frames && q !in s.frames[s.queues[q].frame].queues.Values
      ==> !s.queues[q].cleanUp ==> s.queues[q].waiters == []
  {
    InitInv(weak);
    RunKeeps(Init(weak), steps);
    var s := After(Init(weak), steps);
    if q in s.queues {
      assert QueueOk(s, q) && FrameOk(s, s.queues[q].frame);
    }
  }

  /**
   In every run every queue pairs promises and responses first in, first out;
   a cleaned-up queue buffers nothing, and its promises are never the loop's.
   */
  lemma QueuesServeInOrder(weak: bool, steps: seq<Step>, q: nat)
    requires Possible(Init(weak), steps) && q in After(Init(weak), steps).queues
    ensures
      var k := After(Init(weak), steps).queues[q];
      && Fifo(k)
      && (k.cleanUp ==> k.buffered == [] && NoLoopWaiter(k))
  {
    InitInv(weak);
    RunKeeps(Init(weak), steps);
    var k := After(Init(weak), steps).queues[q];
    assert Fifo(k);
    if k.cleanUp { NothingBuffered(k); }
  }
}
