/** Runs from the start that make a call the engine cannot take. */
module DriverFaults {
  import opened NativeEngine
  import opened Driver

  ghost predicate Takes(s: State, step: Step, t: State) {
    Enabled(s, step) && Apply(s, step) == t
  }

  /** The run `steps` leads from s to t. */
  ghost predicate Leads(s: State, steps: seq<Step>, t: State) {
    Possible(s, steps) && After(s, steps) == t
  }

  lemma Single(s: State, step: Step, t: State)
    requires Takes(s, step, t)
    ensures Leads(s, [step], t)
  {
    assert [step][1..] == [];
  }

  lemma {:induction false} Join(s: State, first: seq<Step>, u: State, second: seq<Step>, t: State)
    requires Leads(s, first, u) && Leads(u, second, t)
    ensures Leads(s, first + second, t)
    decreases first
  {
    if first == [] {
      assert first + second == second;
    } else {
      Join(Apply(s, first[0]), first[1..], u, second, t);
      assert (first + second)[1..] == first[1..] + second;
    }
  }

  /** The cancelled last request of a client whose `free` was delayed. */
  lemma CancelledLast(s: State, f: nat, q: nat, t: State)
    requires Linked(s) && s.weak && s.queues == map[] && f in s.frames && s.frames[f].queues == map[]
    requires s.frames[f].pc == Loop && s.world.owner.Keys == {s.frames[f].root}
    requires var k := s.clients[s.frames[f].client]; k.delayFree && k.pending == 1 && k.ptr in s.world.liveClients && k.ptr != 0
    requires
      var c, r := s.frames[f].client, s.frames[f].root;
      var p := s.clients[c].ptr;
      && t.clients == s.clients[c := s.clients[c].(ptr := 0, pending := 0)] && t.registry == s.registry - {p}
      && t.cells == (set x | x in s.cells && x.0 != c) && t.frames == s.frames[f := s.frames[f].(pc := Finished)]
      && t.world == s.world.(owner := map[], chain := s.world.chain - {r}, liveClients := s.world.liveClients - {p})
      && t.log == s.log + [FreeCtx(r)] + [DisposeClient(p)]
      && t.weak && t.queues == map[] && t.faults == s.faults
    ensures Leads(s, [Test(f, Done, {s.frames[f].root}, q)], t)
  {
    assert s.world.owner - {s.frames[f].root} == map[];
    Single(s, Test(f, Done, {s.frames[f].root}, q), t);
  }

  // ---- the states on the way ----

  function One(k: Client, registry: map<Ptr, nat>, cells: set<(nat, Ptr)>, frames: map<nat, Frame>, world: World,
               log: seq<Call>, faults: seq<Call>): State {
    State(true, map[0 := k], registry, cells, frames, map[], world, log, faults)
  }

  const CREATED := One(Client(0, 0, false, false), map[], {}, map[], BOOT, [], [])
  const SENT := CREATED.(frames := map[0 := Frame(0, Ensuring, 0, map[])])
  const ONE_READY := One(
    Client(1, 0, false, false), map[1 := 0], {(0, 1)}, map[0 := Frame(0, Ready, 0, map[])],
    World({1}, {1}, {}, map[], map[]), [CreateClient(1)], [])

  lemma Created() ensures Leads(Init(true), [New(0)], CREATED) { Single(Init(true), New(0), CREATED); }
  lemma Sent() ensures Leads(CREATED, [Send(0, 0, 0)], SENT) { Single(CREATED, Send(0, 0, 0), SENT); }
  lemma OneReady() ensures Leads(SENT, [Ensure(0, 1)], ONE_READY) { Single(SENT, Ensure(0, 1), ONE_READY); }

  lemma Started()
    ensures Leads(Init(true), [New(0), Send(0, 0, 0), Ensure(0, 1)], ONE_READY)
  {
    Created();
    Sent();
    Join(Init(true), [New(0)], CREATED, [Send(0, 0, 0)], SENT);
    OneReady();
    Join(Init(true), [New(0)] + [Send(0, 0, 0)], SENT, [Ensure(0, 1)], ONE_READY);
    assert [New(0)] + [Send(0, 0, 0)] + [Ensure(0, 1)] == [New(0), Send(0, 0, 0), Ensure(0, 1)];
  }

  // ---- free between _ensure_ptr and the creation of the context ----

  const FREED := One(
    Client(0, 0, false, false), map[], {}, map[0 := Frame(0, Ready, 0, map[])],
    World({1}, {}, {}, map[], map[]), [CreateClient(1), DisposeClient(1)], [])
  const ORPHAN := One(
    Client(0, 1, false, false), map[], {}, map[0 := Frame(0, Loop, 2, map[])],
    World({1}, {}, {2}, map[2 := 0], map[2 := {2}]),
    [CreateClient(1), DisposeClient(1), CreateCtx(0, 2)], [CreateCtx(0, 2)])

  lemma Freed() ensures Leads(ONE_READY, [Free(0, false)], FREED) { Single(ONE_READY, Free(0, false), FREED); }
  lemma Orphan() ensures Leads(FREED, [Admit(0, 2)], ORPHAN) { Single(FREED, Admit(0, 2), ORPHAN); }

  lemma Five(a: Step, b: Step, c: Step, d: Step, e: Step)
    ensures [a, b, c] + ([d] + [e]) == [a, b, c, d, e]
  {
  }

  lemma FreeWhileStarting()
    ensures
      var steps := [New(0), Send(0, 0, 0), Ensure(0, 1), Free(0, false), Admit(0, 2)];
      Possible(Init(true), steps) && After(Init(true), steps).faults == [CreateCtx(0, 2)]
  {
    Started();
    Freed();
    Orphan();
    Join(ONE_READY, [Free(0, false)], FREED, [Admit(0, 2)], ORPHAN);
    Join(Init(true), [New(0), Send(0, 0, 0), Ensure(0, 1)], ONE_READY, [Free(0, false)] + [Admit(0, 2)], ORPHAN);
    Five(New(0), Send(0, 0, 0), Ensure(0, 1), Free(0, false), Admit(0, 2));
  }

  // ---- free with the gc flag, then the finalizer ----

  const REFUSED := One(
    Client(1, 0, false, false), map[1 := 0], {(0, 1)}, map[0 := Frame(0, Finished, 0, map[])],
    World({1}, {1}, {}, map[], map[]), [CreateClient(1), CreateCtx(1, 0)], [])
  const GC_FREED := One(
    Client(0, 0, false, false), map[], {(0, 1)}, map[0 := Frame(0, Finished, 0, map[])],
    World({1}, {}, {}, map[], map[]), [CreateClient(1), CreateCtx(1, 0), DisposeClient(1)], [])
  const COLLECTED := GC_FREED.(clients := map[0 := Client(0, 0, false, true)])
  const DISPOSED_TWICE := COLLECTED.(
    cells := {}, log := [CreateClient(1), CreateCtx(1, 0), DisposeClient(1), DisposeClient(1)],
    faults := [DisposeClient(1)])

  lemma Refused() ensures Leads(ONE_READY, [Admit(0, 0)], REFUSED) { Single(ONE_READY, Admit(0, 0), REFUSED); }
  lemma GcFreed() ensures Leads(REFUSED, [Free(0, true)], GC_FREED) { Single(REFUSED, Free(0, true), GC_FREED); }
  lemma Collected() ensures Leads(GC_FREED, [Collect(0)], COLLECTED) { Single(GC_FREED, Collect(0), COLLECTED); }
  lemma DisposedTwice()
    ensures Leads(COLLECTED, [Finalize(0, 1)], DISPOSED_TWICE)
  {
    Single(COLLECTED, Finalize(0, 1), DISPOSED_TWICE);
  }

  lemma ReleasedTwice()
    ensures Leads(ONE_READY, [Admit(0, 0), Free(0, true), Collect(0), Finalize(0, 1)], DISPOSED_TWICE)
  {
    Refused();
    GcFreed();
    Join(ONE_READY, [Admit(0, 0)], REFUSED, [Free(0, true)], GC_FREED);
    Collected();
    DisposedTwice();
    Join(GC_FREED, [Collect(0)], COLLECTED, [Finalize(0, 1)], DISPOSED_TWICE);
    Join(ONE_READY, [Admit(0, 0)] + [Free(0, true)], GC_FREED, [Collect(0)] + [Finalize(0, 1)], DISPOSED_TWICE);
    assert [Admit(0, 0)] + [Free(0, true)] + ([Collect(0)] + [Finalize(0, 1)])
        == [Admit(0, 0), Free(0, true), Collect(0), Finalize(0, 1)];
  }

  lemma Seven(a: Step, b: Step, c: Step, d: Step, e: Step, f: Step, g: Step)
    ensures [a, b, c] + [d, e, f, g] == [a, b, c, d, e, f, g]
  {
  }

  lemma GcFlagDisposesTwice()
    ensures
      var steps := [New(0), Send(0, 0, 0), Ensure(0, 1), Admit(0, 0), Free(0, true), Collect(0), Finalize(0, 1)];
      Possible(Init(true), steps) && After(Init(true), steps).faults == [DisposeClient(1)]
  {
    Started();
    ReleasedTwice();
    var first, second := [New(0), Send(0, 0, 0), Ensure(0, 1)], [Admit(0, 0), Free(0, true), Collect(0), Finalize(0, 1)];
    Join(Init(true), first, ONE_READY, second, DISPOSED_TWICE);
    Seven(New(0), Send(0, 0, 0), Ensure(0, 1), Admit(0, 0), Free(0, true), Collect(0), Finalize(0, 1));
  }

  // ---- two requests on a client whose free was delayed and then carried out ----

  const LOOPING := One(
    Client(1, 1, false, false), map[1 := 0], {(0, 1)}, map[0 := Frame(0, Loop, 2, map[])],
    World({1}, {1}, {2}, map[2 := 1], map[2 := {2}]), [CreateClient(1), CreateCtx(1, 2)], [])
  const SIGNING := LOOPING.(
    frames := map[0 := Frame(0, Answering(2), 2, map[])], log := LOOPING.log + [Execute(2, {2})])
  const DELAYED := SIGNING.(clients := map[0 := Client(1, 1, true, false)])
  const SIGNED := DELAYED.(frames := LOOPING.frames, log := SIGNING.log + [SetResponse(2, 2, 0)])
  /** The client after its freed request; the log is filled in by WithLog. */
  const SPENT := One(
    Client(0, 0, true, false), map[], {}, map[0 := Frame(0, Finished, 2, map[])],
    World({1}, {}, {2}, map[], map[]), [], [])

  function WithLog(s: State, log: seq<Call>): State { s.(log := log) }

  lemma Looping() ensures Leads(ONE_READY, [Admit(0, 2)], LOOPING) { Single(ONE_READY, Admit(0, 2), LOOPING); }
  lemma Delayed() ensures Leads(SIGNING, [Free(0, false)], DELAYED) { Single(SIGNING, Free(0, false), DELAYED); }
  lemma Signed() ensures Leads(DELAYED, [Answer(0)], SIGNED) { Single(DELAYED, Answer(0), SIGNED); }

  lemma Signing()
    ensures Leads(LOOPING, [Test(0, Sign(2), {2}, 0)], SIGNING)
  {
    Single(LOOPING, Test(0, Sign(2), {2}, 0), SIGNING);
  }

  lemma Spent()
    ensures Leads(SIGNED, [Test(0, Done, {2}, 0)], WithLog(SPENT, SIGNED.log + [FreeCtx(2)] + [DisposeClient(1)]))
  {
    var spent := WithLog(SPENT, SIGNED.log + [FreeCtx(2)] + [DisposeClient(1)]);
    CancelledLast(SIGNED, 0, 0, spent);
  }

  /** A request that waits for a signature while its client is freed. */
  const SIGN_AND_FREE :=
    [Admit(0, 2)] + [Test(0, Sign(2), {2}, 0)] + ([Free(0, false)] + ([Answer(0)] + [Test(0, Done, {2}, 0)]))

  lemma UsedUp()
    ensures Leads(ONE_READY, SIGN_AND_FREE, WithLog(SPENT, SIGNED.log + [FreeCtx(2)] + [DisposeClient(1)]))
  {
    var spent := WithLog(SPENT, SIGNED.log + [FreeCtx(2)] + [DisposeClient(1)]);
    Looping();
    Signing();
    Join(ONE_READY, [Admit(0, 2)], LOOPING, [Test(0, Sign(2), {2}, 0)], SIGNING);
    Signed();
    Spent();
    Join(DELAYED, [Answer(0)], SIGNED, [Test(0, Done, {2}, 0)], spent);
    Delayed();
    Join(SIGNING, [Free(0, false)], DELAYED, [Answer(0)] + [Test(0, Done, {2}, 0)], spent);
    Join(ONE_READY, [Admit(0, 2)] + [Test(0, Sign(2), {2}, 0)], SIGNING,
         [Free(0, false)] + ([Answer(0)] + [Test(0, Done, {2}, 0)]), spent);
  }

  /** A second request awaits its client, found by a third one that runs and ends; whatever was logged before. */
  function Resent(log: seq<Call>): State {
    WithLog(SPENT.(frames := SPENT.frames[1 := Frame(0, Ensuring, 0, map[])]), log)
  }

  const READY_FRAMES := map[0 := Frame(0, Finished, 2, map[]), 1 := Frame(0, Ready, 0, map[])]

  function SecondReady(log: seq<Call>): State {
    One(Client(3, 0, true, false), map[3 := 0], {(0, 3)}, READY_FRAMES, World({1, 3}, {3}, {2}, map[], map[]), log, [])
  }

  function ThirdLooping(log: seq<Call>): State {
    One(Client(3, 1, true, false), map[3 := 0], {(0, 3)}, READY_FRAMES[2 := Frame(0, Loop, 4, map[])],
        World({1, 3}, {3}, {2, 4}, map[4 := 3], map[4 := {4}]), log, [])
  }

  function Gone(log: seq<Call>): State {
    One(Client(0, 0, true, false), map[], {}, READY_FRAMES[2 := Frame(0, Finished, 4, map[])],
        World({1, 3}, {}, {2, 4}, map[], map[]), log, [])
  }

  lemma SecondIsSent(log: seq<Call>)
    ensures Leads(WithLog(SPENT, log), [Send(0, 1, 0)], Resent(log))
  {
    Single(WithLog(SPENT, log), Send(0, 1, 0), Resent(log));
  }

  lemma SecondGetsReady(log: seq<Call>)
    ensures Leads(Resent(log), [Ensure(1, 3)], SecondReady(log + [CreateClient(3)]))
  {
    Single(Resent(log), Ensure(1, 3), SecondReady(log + [CreateClient(3)]));
  }

  lemma ThirdIsSent(log: seq<Call>)
    ensures Leads(SecondReady(log), [Send(0, 2, 4)], ThirdLooping(log + [CreateCtx(3, 4)]))
  {
    Single(SecondReady(log), Send(0, 2, 4), ThirdLooping(log + [CreateCtx(3, 4)]));
  }

  lemma ThirdEnds(log: seq<Call>)
    ensures Leads(ThirdLooping(log), [Test(2, Done, {4}, 0)], Gone(log + [FreeCtx(4)] + [DisposeClient(3)]))
  {
    CancelledLast(ThirdLooping(log), 2, 0, Gone(log + [FreeCtx(4)] + [DisposeClient(3)]));
  }

  lemma SecondIsOrphan(log: seq<Call>)
    ensures Takes(Gone(log), Admit(1, 5), Apply(Gone(log), Admit(1, 5)))
    ensures Apply(Gone(log), Admit(1, 5)).faults == [CreateCtx(0, 5)]
  {
    assert [] + [CreateCtx(0, 5)] == [CreateCtx(0, 5)];
  }

  const TWO_MORE :=
    [Send(0, 1, 0)] + ([Ensure(1, 3)] + ([Send(0, 2, 4)] + ([Test(2, Done, {4}, 0)] + [Admit(1, 5)])))

  lemma TwoMore(log: seq<Call>) returns (t: State)
    ensures Leads(WithLog(SPENT, log), TWO_MORE, t) && t.faults == [CreateCtx(0, 5)]
  {
    var ready := log + [CreateClient(3)];
    var looping := ready + [CreateCtx(3, 4)];
    var gone := looping + [FreeCtx(4)] + [DisposeClient(3)];
    SecondIsOrphan(gone);
    t := Apply(Gone(gone), Admit(1, 5));
    Single(Gone(gone), Admit(1, 5), t);
    ThirdEnds(looping);
    Join(ThirdLooping(looping), [Test(2, Done, {4}, 0)], Gone(gone), [Admit(1, 5)], t);
    ThirdIsSent(ready);
    Join(SecondReady(ready), [Send(0, 2, 4)], ThirdLooping(looping), [Test(2, Done, {4}, 0)] + [Admit(1, 5)], t);
    SecondGetsReady(log);
    Join(Resent(log), [Ensure(1, 3)], SecondReady(ready),
         [Send(0, 2, 4)] + ([Test(2, Done, {4}, 0)] + [Admit(1, 5)]), t);
    SecondIsSent(log);
    Join(WithLog(SPENT, log), [Send(0, 1, 0)], Resent(log),
         [Ensure(1, 3)] + ([Send(0, 2, 4)] + ([Test(2, Done, {4}, 0)] + [Admit(1, 5)])), t);
  }

  /** The freed request, and two more on the same client. */
  const REUSE := [New(0), Send(0, 0, 0), Ensure(0, 1)] + (SIGN_AND_FREE + TWO_MORE)

  /** Of the two later requests one is cancelled and disposes the client; the other creates its context for no client. */
  lemma ReuseAfterDelayedFree()
    ensures Possible(Init(true), REUSE) && After(Init(true), REUSE).faults == [CreateCtx(0, 5)]
  {
    var spent := WithLog(SPENT, SIGNED.log + [FreeCtx(2)] + [DisposeClient(1)]);
    var t := TwoMore(spent.log);
    UsedUp();
    Join(ONE_READY, SIGN_AND_FREE, spent, TWO_MORE, t);
    Started();
    Join(Init(true), [New(0), Send(0, 0, 0), Ensure(0, 1)], ONE_READY, SIGN_AND_FREE + TWO_MORE, t);
  }
}
