/** An ordinary request from its start to the late response it no longer needs. */
module DriverScenario {
  import opened NativeEngine
  import opened UrlQueues
  import opened Driver
  import opened DriverInvariant
  import opened DriverTheorems
  import opened DriverTurns
  import opened DriverFaults

  /** The context of request 0 is sent to two urls; the second answers first, and that is enough. */
  const ASK := Test(0, Rpc(2, 2, false, false), {2}, 0)
  const ANSWERED := Settle(0, 1)
  const DONE := Test(0, Done, {2}, 1)
  const LATE := Settle(0, 0)
  const LOOKED_AT := Callback(0, 1, true)

  const SENT_LOG := [CreateClient(1), CreateCtx(1, 2), Execute(2, {2})]
  const ANSWERED_LOG := SENT_LOG + [IsAlive(2, 2), SetResponse(2, 2, 1)]
  const DONE_LOG := ANSWERED_LOG + [Execute(2, {2})] + [FreeCtx(2)]

  const ASKED_QUEUE := Fresh(0, 2, 2, 2).(counter := 1, waiters := [Waiter(0, ByLoop)])
  const ANSWERED_QUEUE := ASKED_QUEUE.(arrived := [1], waiters := [], delivered := [Delivery(0, ByLoop, 1)])
  const CLAIMED_QUEUE := ANSWERED_QUEUE.(cleanUp := true, counter := 2, waiters := [Waiter(1, ByCleanUp(1))])
  const DRAINED_QUEUE := CLAIMED_QUEUE.(
    arrived := [1, 0], waiters := [], delivered := [Delivery(0, ByLoop, 1), Delivery(1, ByCleanUp(1), 0)])

  ghost predicate Sound(s: State) { Inv(s) && s.faults == [] }

  /** Request 0 at `pc` with its one queue, on its one client. */
  ghost predicate Stage(s: State, pc: Pc, pending: nat, k: Queue, log: seq<Call>) {
    && s.log == log
    && s.frames == map[0 := Frame(0, pc, 2, map[2 := 0])] && s.queues == map[0 := k]
    && s.clients == map[0 := Client(1, pending, false, false)]
    && s.world.owner == (if pending == 0 then map[] else map[2 := 1])
  }

  lemma LoopingIsReached()
    ensures Inv(LOOPING)
  {
    Started();
    Looping();
    Join(Init(true), [New(0), Send(0, 0, 0), Ensure(0, 1)], ONE_READY, [Admit(0, 2)], LOOPING);
    InitInv(true);
    RunKeeps(Init(true), [New(0), Send(0, 0, 0), Ensure(0, 1)] + [Admit(0, 2)]);
  }

  /** The request before its first turn. */
  ghost predicate Begins(s: State) {
    && s.log == [CreateClient(1), CreateCtx(1, 2)]
    && s.frames == map[0 := Frame(0, Loop, 2, map[])] && s.queues == map[]
    && s.clients == map[0 := Client(1, 1, false, false)] && s.world.owner == map[2 := 1]
  }

  lemma NothingToAdd(s: State, t: State, step: Step)
    requires Kept(s, step) && t == Apply(s, step) && s.faults == [] && NewFaults(s, step) == []
    ensures Sound(t)
  {
  }

  lemma AskedStage(s: State, t: State)
    requires Linked(s) && Begins(s) && Turned(s, t, 0, Rpc(2, 2, false, false), {2}, 0)
    ensures Stage(t, Awaiting(0), 1, ASKED_QUEUE, SENT_LOG)
  {
    assert s.log + [Execute(2, {2})] == SENT_LOG;
  }

  lemma AskIsSent(s: State)
    requires Sound(s) && Begins(s)
    ensures Enabled(s, ASK) && Sound(Apply(s, ASK)) && Stage(Apply(s, ASK), Awaiting(0), 1, ASKED_QUEUE, SENT_LOG)
  {
    TurnOfLoop(s, 0, Rpc(2, 2, false, false), {2}, 0);
    StepKeeps(s, ASK);
    NothingToAdd(s, Apply(s, ASK), ASK);
    AskedStage(s, Apply(s, ASK));
  }

  lemma AnsweredStage(s: State, t: State)
    requires Linked(s) && Stage(s, Awaiting(0), 1, ASKED_QUEUE, SENT_LOG) && OnChain(s, 2, 2)
    requires Tells(s, t, 0, 1)
    ensures Stage(t, Loop, 1, ANSWERED_QUEUE, ANSWERED_LOG)
  {
    var d := Delivery(0, ByLoop, 1);
    assert ASKED_QUEUE.waiters[1..] == [] && [] + [d] == [d] && [] + [1] == [1];
    assert t.queues[0] == ANSWERED_QUEUE;
    assert Recent(ASKED_QUEUE, ANSWERED_QUEUE) == [d];
    assert [d][1..] == [] && Told(2, 2, [d]) == [IsAlive(2, 2), SetResponse(2, 2, 1)] + [];
  }

  lemma AnswerArrives(s: State)
    requires Sound(s) && Stage(s, Awaiting(0), 1, ASKED_QUEUE, SENT_LOG)
    ensures Enabled(s, ANSWERED) && Sound(Apply(s, ANSWERED))
    ensures Stage(Apply(s, ANSWERED), Loop, 1, ANSWERED_QUEUE, ANSWERED_LOG)
  {
    assert FrameOk(s, 0);
    SettleTells(s, 0, 1);
    StepKeeps(s, ANSWERED);
    NothingToAdd(s, Apply(s, ANSWERED), ANSWERED);
    AnsweredStage(s, Apply(s, ANSWERED));
  }

  lemma ClaimedIs()
    ensures CleanedUp(ANSWERED_QUEUE, 1) == CLAIMED_QUEUE
  {
    var k := ANSWERED_QUEUE;
    assert Claims([], 1, 2, 1) == Claims([], 1, 1, 1) + [Waiter(1, ByCleanUp(1))];
    assert Claimed(k, 1, 2) == CLAIMED_QUEUE;
  }

  lemma DoneStage(s: State, t: State)
    requires Linked(s) && Stage(s, Loop, 1, ANSWERED_QUEUE, ANSWERED_LOG)
    requires Ends(s, t, 0, [Execute(2, {2})])
    ensures Stage(t, Finished, 0, CLAIMED_QUEUE, DONE_LOG)
  {
    ClaimedIs();
    assert 0 in s.frames[0].queues.Values by { assert s.frames[0].queues[2] == 0; }
    assert DONE_LOG + [] == DONE_LOG;
    assert t.world.owner == map[];
  }

  lemma RequestIsDone(s: State)
    requires Sound(s) && Stage(s, Loop, 1, ANSWERED_QUEUE, ANSWERED_LOG)
    ensures Enabled(s, DONE) && Sound(Apply(s, DONE)) && Stage(Apply(s, DONE), Finished, 0, CLAIMED_QUEUE, DONE_LOG)
  {
    TurnOfLoop(s, 0, Done, {2}, 1);
    StepKeeps(s, DONE);
    NothingToAdd(s, Apply(s, DONE), DONE);
    DoneStage(s, Apply(s, DONE));
  }

  lemma LateStage(s: State, t: State)
    requires Linked(s) && Stage(s, Finished, 0, CLAIMED_QUEUE, DONE_LOG)
    requires Tells(s, t, 0, 0)
    ensures Stage(t, Finished, 0, DRAINED_QUEUE, DONE_LOG)
  {
    assert CLAIMED_QUEUE.waiters[1..] == [] && [1] + [0] == [1, 0];
    assert CLAIMED_QUEUE.delivered + [Delivery(1, ByCleanUp(1), 0)] == DRAINED_QUEUE.delivered;
    assert t.queues[0] == DRAINED_QUEUE;
    assert DONE_LOG + [] == DONE_LOG;
  }

  lemma LateResponseArrives(s: State)
    requires Sound(s) && Stage(s, Finished, 0, CLAIMED_QUEUE, DONE_LOG)
    ensures Enabled(s, LATE) && Sound(Apply(s, LATE)) && Stage(Apply(s, LATE), Finished, 0, DRAINED_QUEUE, DONE_LOG)
  {
    SettleTells(s, 0, 0);
    StepKeeps(s, LATE);
    NothingToAdd(s, Apply(s, LATE), LATE);
    LateStage(s, Apply(s, LATE));
  }

  lemma BadUrlIsBlacklisted(s: State)
    requires Sound(s) && Stage(s, Finished, 0, DRAINED_QUEUE, DONE_LOG)
    ensures Enabled(s, LOOKED_AT)
    ensures var t := Apply(s, LOOKED_AT); Sound(t) && t.log == DONE_LOG + [Blacklist(1, 0)]
  {
    assert ClientOk(s, 0);
    LateResponseBlacklists(s, 0, 1, true);
    StepKeeps(s, LOOKED_AT);
    NothingToAdd(s, Apply(s, LOOKED_AT), LOOKED_AT);
  }

  /** The whole run, and every call it makes. */
  lemma OrdinaryRequest()
    ensures
      var steps := [ASK, ANSWERED, DONE, LATE, LOOKED_AT];
      && Inv(LOOPING) && Possible(LOOPING, steps)
      && After(LOOPING, steps).log == DONE_LOG + [Blacklist(1, 0)] && After(LOOPING, steps).faults == []
  {
    var s0 := LOOPING;
    LoopingIsReached();
    AskIsSent(s0);
    var s1 := Apply(s0, ASK);
    AnswerArrives(s1);
    var s2 := Apply(s1, ANSWERED);
    RequestIsDone(s2);
    var s3 := Apply(s2, DONE);
    LateResponseArrives(s3);
    var s4 := Apply(s3, LATE);
    BadUrlIsBlacklisted(s4);
    var s5 := Apply(s4, LOOKED_AT);
    FiveSteps(s0, ASK, s1, ANSWERED, s2, DONE, s3, LATE, s4, LOOKED_AT, s5);
  }

  lemma FiveSteps(
    s0: State, a: Step, s1: State, b: Step, s2: State, c: Step, s3: State, d: Step, s4: State, e: Step, s5: State)
    requires Takes(s0, a, s1) && Takes(s1, b, s2) && Takes(s2, c, s3) && Takes(s3, d, s4) && Takes(s4, e, s5)
    ensures Leads(s0, [a, b, c, d, e], s5)
  {
    TwoSteps(s3, d, s4, e, s5);
    TwoSteps(s1, b, s2, c, s3);
    Join(s1, [b, c], s3, [d, e], s5);
    Single(s0, a, s1);
    Join(s0, [a], s1, [b, c] + [d, e], s5);
    FiveJoined(a, b, c, d, e);
  }

  lemma FiveJoined(a: Step, b: Step, c: Step, d: Step, e: Step)
    ensures [a] + ([b, c] + [d, e]) == [a, b, c, d, e]
  {
  }

  lemma TwoSteps(s: State, a: Step, t: State, b: Step, u: State)
    requires Takes(s, a, t) && Takes(t, b, u)
    ensures Leads(s, [a, b], u)
  {
    Single(s, a, t);
    Single(t, b, u);
    Join(s, [a], t, [b], u);
    assert [a] + [b] == [a, b];
  }
}
