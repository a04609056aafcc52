/** What every step of the driver keeps, in every interleaving. */
module DriverInvariant {
  import opened NativeEngine
  import opened UrlQueues
  import opened Driver

  /** A queue without cleanUp has at most one promise out, and its request waits for it. */
  ghost predicate QueueOk(s: State, q: nat)
    requires Linked(s) && q in s.queues
  {
    var k := s.queues[q];
    var fr := s.frames[k.frame];
    && k.root == fr.root && !Starting(fr)
    && (k.cleanUp ==> fr.pc == Finished)
    && (!k.cleanUp ==>
          k.waiters == [] || (|k.waiters| == 1 && k.waiters[0].to == ByLoop && fr.pc == Awaiting(q)))
  }

  ghost predicate OnChain(s: State, root: Ptr, ctx: Ptr) {
    root in s.world.chain && ctx in s.world.chain[root]
  }

  ghost predicate FrameOk(s: State, f: nat)
    requires Linked(s) && f in s.frames
  {
    var fr := s.frames[f];
    var k := s.clients[fr.client];
    && (Starting(fr) ==> fr.root == 0 && fr.queues == map[] && !k.collected)
    && (Active(fr) ==>
          && fr.root in s.world.owner && !k.collected
          && (s.world.owner[fr.root] == 0 || s.world.owner[fr.root] == k.ptr))
    && (fr.pc.Awaiting? ==>
          && fr.pc.queue in s.queues && s.queues[fr.pc.queue].frame == f
          && !s.queues[fr.pc.queue].cleanUp && |s.queues[fr.pc.queue].waiters| == 1
          && OnChain(s, fr.root, s.queues[fr.pc.queue].ctx)
          && s.queues[fr.pc.queue].ctx in fr.queues && fr.queues[s.queues[fr.pc.queue].ctx] == fr.pc.queue)
    && (fr.pc.Sleeping? ==> OnChain(s, fr.root, fr.pc.ctx))
    && (fr.pc.Answering? ==> OnChain(s, fr.root, fr.pc.ctx))
    && (forall x | x in fr.queues :: s.queues[fr.queues[x]].ctx == x)
    && (fr.pc == Finished ==> forall x | x in fr.queues :: s.queues[fr.queues[x]].cleanUp)
  }

  /** The live contexts are exactly those of the running requests, one each. */
  ghost predicate RootsOk(s: State) {
    && s.world.owner.Keys == s.world.chain.Keys
    && s.world.owner.Keys <= s.world.everRoots && 0 !in s.world.everRoots
    && (forall f | f in s.frames :: s.frames[f].root == 0 || s.frames[f].root in s.world.everRoots)
    && (forall f, g | f in s.frames && g in s.frames && s.frames[f].root != 0 ::
          s.frames[f].root == s.frames[g].root ==> f == g)
    && (forall f | f in s.frames && s.frames[f].root in s.world.owner :: Active(s.frames[f]))
    && (forall r | r in s.world.owner :: exists f :: f in s.frames && s.frames[f].root == r)
  }

  ghost predicate ClientOk(s: State, c: nat)
    requires c in s.clients
  {
    var k := s.clients[c];
    && k.pending == |Running(s, c)|
    && (k.ptr != 0 && !k.collected ==> k.ptr in s.registry && s.registry[k.ptr] == c)
  }

  /** The `clients` table lists exactly the native clients that are alive. */
  ghost predicate RegistryOk(s: State) {
    && s.registry.Keys == s.world.liveClients
    && s.world.liveClients <= s.world.everClients && 0 !in s.world.everClients
    && (forall p | p in s.registry :: s.registry[p] in s.clients && s.clients[s.registry[p]].ptr == p)
    && (forall x | x in s.cells ::
          x.0 in s.clients && x.1 in s.world.everClients && (x.1 in s.registry ==> s.registry[x.1] == x.0))
  }

  predicate TouchesRoot(c: Call, root: Ptr) {
    match c
    case Execute(r, _) => r == root
    case IsAlive(r, _) => r == root
    case SetResponse(r, _, _) => r == root
    case FreeCtx(r) => r == root
    case _ => false
  }

  predicate TouchesClient(c: Call, client: Ptr) {
    match c
    case CreateCtx(p, _) => p == client
    case Blacklist(p, _) => p == client
    case _ => false
  }

  /** Nothing in the log touches a context after its release or a client after its disposal. */
  ghost predicate NoUseAfterFree(log: seq<Call>) {
    forall i, j | 0 <= i < j < |log| ::
      && (log[i].FreeCtx? ==> !TouchesRoot(log[j], log[i].root))
      && (log[i].DisposeClient? ==> !TouchesClient(log[j], log[i].client))
  }

  ghost predicate LogOk(s: State) {
    && NoUseAfterFree(s.log)
    && (forall i | 0 <= i < |s.log| ::
          && (s.log[i].FreeCtx? ==> s.log[i].root in s.world.everRoots && s.log[i].root !in s.world.owner)
          && (s.log[i].DisposeClient? ==>
                s.log[i].client in s.world.everClients && s.log[i].client !in s.world.liveClients))
    && (forall i, j | 0 <= i < j < |s.log| && s.log[i].DisposeClient? :: s.log[j] == s.log[i] ==> s.log[j] in s.faults)
    && (forall i | 0 <= i < |s.faults| ::
          s.faults[i].CreateCtx? || s.faults[i].Execute? || s.faults[i].DisposeClient?)
  }

  ghost predicate QueuesFifo(s: State) {
    forall q | q in s.queues :: Fifo(s.queues[q])
  }

  ghost predicate QueuesOk(s: State) {
    Linked(s) && forall q | q in s.queues :: QueueOk(s, q)
  }

  ghost predicate FramesOk(s: State) {
    Linked(s) && forall f | f in s.frames :: FrameOk(s, f)
  }

  ghost predicate ClientsOk(s: State) {
    forall c | c in s.clients :: ClientOk(s, c)
  }

  /** How requests, queues and native memory hang together. */
  ghost predicate Wired(s: State) {
    QueuesOk(s) && FramesOk(s) && ClientsOk(s) && RootsOk(s) && RegistryOk(s)
  }

  ghost predicate Inv(s: State) {
    Wired(s) && QueuesFifo(s) && LogOk(s)
  }

  /** No finalizer is registered for a client that has been disposed. */
  ghost predicate CellsTidy(s: State) {
    (forall x | x in s.cells :: x.1 in s.registry) && (!s.weak ==> s.cells == {})
  }

  ghost predicate TidyFrame(s: State, fr: Frame)
    requires fr.client in s.clients
  {
    && (fr.pc == Ready ==> s.clients[fr.client].ptr != 0)
    && (Starting(fr) ==> !s.clients[fr.client].delayFree)
    && (Active(fr) && fr.root in s.world.owner ==> s.world.owner[fr.root] != 0)
  }

  /** A request about to create its context still has a native client. */
  ghost predicate FramesTidy(s: State) {
    forall f | f in s.frames :: s.frames[f].client in s.clients && TidyFrame(s, s.frames[f])
  }

  ghost predicate Tidied(s: State, t: State) {
    (CellsTidy(s) ==> CellsTidy(t)) && (FramesTidy(s) ==> FramesTidy(t))
  }

  ghost predicate NoneStarting(s: State, c: nat) {
    forall f | f in s.frames && s.frames[f].client == c :: !Starting(s.frames[f])
  }

  lemma InitInv(weak: bool)
    ensures Inv(Init(weak)) && CellsTidy(Init(weak)) && FramesTidy(Init(weak))
  {
  }

  // ---- calls ----

  /** A call that touches only what is alive keeps the log clean. */
  lemma EmitLog(s: State, c: Call)
    requires LogOk(s) && RootsOk(s) && RegistryOk(s)
    requires forall r | TouchesRoot(c, r) :: r in s.world.owner
    requires forall p | TouchesClient(c, p) :: p == 0 || p in s.world.liveClients
    requires c.CreateClient? ==> c.client !in s.world.everClients
    requires c.CreateCtx? ==> FreshRoot(s, c.root)
    requires Legal(s.world, c) || c.CreateCtx? || c.Execute? || c.DisposeClient?
    requires c.DisposeClient? ==> c.client in s.world.everClients
    ensures LogOk(Emit(s, c))
  {
    var t := Emit(s, c);
    forall i | 0 <= i < |s.log| ensures Past(t, s.log[i], c) {
      assert s.log[i].FreeCtx? ==> s.log[i].root in s.world.everRoots && s.log[i].root !in s.world.owner;
    }
    PastLog(s, t, c);
  }

  /** What call `e` released is gone, and call `c` does not touch it. */
  ghost predicate Past(t: State, e: Call, c: Call) {
    && (e.FreeCtx? ==>
          !TouchesRoot(c, e.root) && e.root in t.world.everRoots && e.root !in t.world.owner)
    && (e.DisposeClient? ==>
          !TouchesClient(c, e.client) && e.client in t.world.everClients && e.client !in t.world.liveClients)
  }

  lemma PastLog(s: State, t: State, c: Call)
    requires LogOk(s) && t.log == s.log + [c] && (forall i | 0 <= i < |s.log| :: Past(t, s.log[i], c))
    requires c.FreeCtx? ==> c.root in t.world.everRoots && c.root !in t.world.owner
    requires c.DisposeClient? ==> c.client in t.world.everClients && c.client !in t.world.liveClients
    requires t.faults == s.faults || (t.faults == s.faults + [c] && (c.CreateCtx? || c.Execute? || c.DisposeClient?))
    requires c.DisposeClient? && c in s.log ==> c in t.faults
    ensures LogOk(t)
  {
  }

  /** Asking about or answering a live context. */
  ghost predicate Harmless(w: World, c: Call) {
    (c.IsAlive? || c.SetResponse?) && Legal(w, c)
  }

  lemma HarmlessCall(s: State, c: Call)
    requires LogOk(s) && Harmless(s.world, c)
    ensures Emit(s, c) == s.(log := s.log + [c]) && LogOk(Emit(s, c))
  {
  }

  lemma {:induction false} HarmlessCalls(s: State, cs: seq<Call>)
    requires LogOk(s) && forall i | 0 <= i < |cs| :: Harmless(s.world, cs[i])
    ensures EmitAll(s, cs) == s.(log := s.log + cs)
    ensures LogOk(s.(log := s.log + cs))
    decreases cs
  {
    if cs == [] {
      assert s.log + [] == s.log;
    } else {
      HarmlessCall(s, cs[0]);
      HarmlessCalls(Emit(s, cs[0]), cs[1..]);
      assert s.log + [cs[0]] + cs[1..] == s.log + cs;
    }
  }

  lemma NoticesHarmless(w: World, root: Ptr, ctx: Ptr, urls: seq<nat>, alive: bool)
    requires root in w.owner && (alive ==> root in w.chain && ctx in w.chain[root])
    ensures forall i | 0 <= i < |Notices(root, ctx, urls, alive)| :: Harmless(w, Notices(root, ctx, urls, alive)[i])
  {
  }
}
