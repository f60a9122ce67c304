/**
 A run in which SetDesired sends away a worker that a request holds: the request has found the worker fit and claims
 it (internal/worker/pool.go:591) after SetDesired has looked at it (516) and before it is marked (523). The worker is
 terminated, and the request finds its connection closed.
 */
module ScaleDownRace {
  import opened PoolModel
  import opened PoolMachine
  import opened PoolDraining
  import opened PoolScaleDown
  import opened Continuations
  import opened SmallPools
  import opened GrownPool

  const READY := SERVING.(idle := [0])
  const OUT := FILLED.(retired := true)
  const LEAVING := OUT.(planned := true)
  const BUSY := WORKER.(state := Busy)
  const DRAINING := WORKER.(state := Draining)
  const CLOSED := Closed(DRAINING)
  const RETIRED := Core([OUT], [WORKER], [], 0, false)
  const CLAIMED := RETIRED.(workers := [BUSY])
  const MARKED := RETIRED.(slots := [LEAVING], workers := [DRAINING])
  const GONE := MARKED.(workers := [CLOSED])
  const THEN := ResizeThen([0], [])

  /** Thread 3 is the monitor, 4 the request, 5 SetDesired(0), 6 the terminator. */
  function S9(): State { Bare(SERVING, [Outside, ResizeNext([], []), BootPush(0, false), Watch(1, 0)]) }
  function S10(): State { Bare(READY, [Outside, ResizeNext([], []), Done, Watch(1, 0)]) }
  function S11(): State { Bare(READY, [Outside, ResizeNext([], []), Done, Watch(1, 0), TryAcquire]) }
  function S12(): State { Bare(READY, [Outside, ResizeNext([], []), Done, Watch(1, 0), Receive(false)]) }
  function S13(): State { Bare(SERVING, [Outside, ResizeNext([], []), Done, Watch(1, 0), Check(0, false)]) }
  function S14(): State { Bare(SERVING, [Outside, ResizeNext([], []), Done, Watch(1, 0), Inspect(0, false)]) }
  function S15(): State { Bare(SERVING, [Outside, ResizeNext([], []), Done, Watch(1, 0), Claim(0, false)]) }
  function S16(): State {
    Bare(SERVING, [Outside, ResizeNext([], []), Done, Watch(1, 0), Claim(0, false), ResizeStart(0)])
  }
  function S17(): State {
    Bare(RETIRED,
         [Outside, ResizeNext([], []), Done, Watch(1, 0), Claim(0, false), ResizeScan(0, 0, [], [])])
      .(locked := true)
  }
  function S18(): State {
    Bare(RETIRED,
         [Outside, ResizeNext([], []), Done, Watch(1, 0), Claim(0, false), ResizeMark(0, 0, 0, [], [])])
      .(locked := true)
  }
  function S19(): State {
    Bare(CLAIMED,
         [Outside, ResizeNext([], []), Done, Watch(1, 0), Send(0), ResizeMark(0, 0, 0, [], [])])
      .(locked := true)
  }
  function S20(): State {
    Bare(MARKED,
         [Outside, ResizeNext([], []), Done, Watch(1, 0), Send(0), ResizeScan(0, 1, [0], [])])
      .(locked := true)
  }
  function S21(): State {
    Bare(MARKED, [Outside, ResizeNext([], []), Done, Watch(1, 0), Send(0), ResizeNext([0], [])])
  }
  function S22(): State {
    Bare(MARKED, [Outside, ResizeNext([], []), Done, Watch(1, 0), Send(0), PurgeStart(0, THEN)])
  }
  function S23(): State {
    Bare(MARKED, [Outside, ResizeNext([], []), Done, Watch(1, 0), Send(0), PurgeLoop(0, 0, THEN)]).(locked := true)
  }
  function S24(): State {
    Bare(MARKED, [Outside, ResizeNext([], []), Done, Watch(1, 0), Send(0), ResizeNext([], []), Terminate(0)])
  }
  function S25(): State {
    Bare(GONE, [Outside, ResizeNext([], []), Done, Watch(1, 0), Send(0), ResizeNext([], []), Done])
  }

  const STATES: seq<State> := [
    S8(), S9(), S10(), S11(), S12(), S13(), S14(), S15(), S16(), S17(), S18(), S19(), S20(), S21(), S22(), S23(),
    S24(), S25()
  ]

  const EVENTS: seq<Event> := [
    Event(2, Go), Event(2, Go), Event(0, NewRequest), Event(4, Go), Event(4, Go), Event(4, Go), Event(4, Go),
    Event(0, NewResize(0)), Event(5, Go), Event(5, Go), Event(4, Go), Event(5, Go), Event(5, Go), Event(5, Go),
    Event(5, Go), Event(5, Go), Event(6, Go)
  ]

  ghost predicate Steps(a: nat, b: nat) {
    forall k :: a <= k < b && k < |EVENTS| ==> Step(POOL, STATES[k], EVENTS[k], STATES[k + 1])
  }

  lemma Retires()
    ensures CoreOk(SERVING) && Rescaled(SERVING, 0) == RETIRED
  {
    assert Rescaled(SERVING, 0).slots == RETIRED.slots;
  }

  lemma Pushing()
    requires Ok(S8())
    ensures Steps(0, 2) && Ok(S10())
  {
    hide Step, Ok, PcOk, CoreOk, PlanRequest, PlanSender, PlanMonitor, PlanControl, PlanOutside;
    Takes(POOL, S8(), Event(2, Go), Effect(Keep, BootPush(0, false), [Watch(1, 0)], NoSide), S9());
    Takes(POOL, S9(), Event(2, Go), Write1(PutIdle(0), Done), S10());
  }

  lemma Acquiring()
    requires Ok(S10())
    ensures Steps(2, 7) && Ok(S15())
  {
    hide Step, Ok, PcOk, CoreOk, PlanSender, PlanBoot, PlanMonitor, PlanControl;
    Takes(POOL, S10(), Event(0, NewRequest), Effect(Keep, Outside, [TryAcquire], NoSide), S11());
    Takes(POOL, S11(), Event(4, Go), Goto(Receive(false)), S12());
    Takes(POOL, S12(), Event(4, Go), Write1(TakeIdle, Check(0, false)), S13());
    Takes(POOL, S13(), Event(4, Go), Goto(Inspect(0, false)), S14());
    Takes(POOL, S14(), Event(4, Go), Goto(Claim(0, false)), S15());
  }

  lemma Shrinking()
    requires Ok(S15())
    ensures Steps(7, 9) && Ok(S17())
  {
    hide Step, Ok, PcOk, CoreOk, PlanRequest, PlanSender, PlanBoot, PlanMonitor;
    Takes(POOL, S15(), Event(0, NewResize(0)), Effect(Keep, Outside, [ResizeStart(0)], NoSide), S16());
    Retires();
    Takes(POOL, S16(), Event(5, Go), Effect(Replace(RETIRED), ResizeScan(0, 0, [], []), [], LockMu), S17());
  }

  lemma Sparing()
    requires Ok(S17())
    ensures Steps(9, 10) && Ok(S18())
  {
    hide Step, Ok, PcOk, CoreOk, PlanRequest, PlanSender, PlanBoot, PlanMonitor, PlanOutside;
    Takes(POOL, S17(), Event(5, Go), Goto(ResizeMark(0, 0, 0, [], [])), S18());
  }

  lemma Claiming()
    requires Ok(S18())
    ensures Steps(10, 11) && Ok(S19())
  {
    hide Step, Ok, PcOk, CoreOk, PlanSender, PlanBoot, PlanMonitor, PlanControl, PlanOutside;
    Takes(POOL, S18(), Event(4, Go), Write1(PutWorker(0, BUSY), Send(0)), S19());
  }

  lemma Marking()
    requires Ok(S19())
    ensures Steps(11, 12) && Ok(S20())
  {
    hide Step, Ok, PcOk, CoreOk, PlanRequest, PlanSender, PlanBoot, PlanMonitor, PlanOutside;
    assert S19().threads[5].drains + [0] == [0];
    Takes(POOL, S19(), Event(5, Go), Write1(PutBoth(0, DRAINING, 1, LEAVING), ResizeScan(0, 1, [0], [])), S20());
  }

  lemma Unlocking()
    requires Ok(S20())
    ensures Steps(12, 14) && Ok(S22())
  {
    hide Step, Ok, PcOk, CoreOk, PlanRequest, PlanSender, PlanBoot, PlanMonitor, PlanOutside;
    Takes(POOL, S20(), Event(5, Go), Effect(Keep, ResizeNext([0], []), [], UnlockMu), S21());
    Takes(POOL, S21(), Event(5, Go), Goto(PurgeStart(0, THEN)), S22());
  }

  lemma Purging()
    requires Ok(S22())
    ensures Steps(14, 15) && Ok(S23())
  {
    hide Step, Ok, PcOk, CoreOk, PlanRequest, PlanSender, PlanBoot, PlanControl, PlanOutside;
    Takes(POOL, S22(), Event(5, Go), Effect(Keep, PurgeLoop(0, 0, THEN), [], LockMu), S23());
  }

  lemma Resuming()
    requires Ok(S23())
    ensures Steps(15, 16) && Ok(S24())
  {
    hide Step, Ok, PcOk, CoreOk, PlanRequest, PlanSender, PlanBoot, PlanControl, PlanOutside;
    assert THEN.drains[1..] == [];
    Takes(POOL, S23(), Event(5, Go), Effect(Keep, ResizeNext([], []), [Terminate(0)], UnlockMu), S24());
  }

  lemma Terminating()
    requires Ok(S24())
    ensures Steps(16, 17) && Ok(S25())
  {
    hide Step, Ok, PcOk, CoreOk, PlanRequest, PlanSender, PlanBoot, PlanMonitor, PlanOutside;
    Takes(POOL, S24(), Event(6, Go), Write1(PutWorker(0, CLOSED), Done), S25());
  }

  lemma AllSteps()
    ensures Steps(0, |EVENTS|)
  {
    hide Step, Ok, S8, S9, S10, S11, S12, S13, S14, S15, S16, S17, S18, S19, S20, S21, S22, S23, S24, S25;
    GrownRun();
    Pushing();
    Acquiring();
    Shrinking();
    Sparing();
    Claiming();
    Marking();
    Unlocking();
    Purging();
    Resuming();
    Terminating();
  }

  /** At the mark a request holds the worker; in the end its connection is closed and the request holds it still. */
  lemma AHeldWorkerCanBeSentAway()
    ensures var (states, events) := (GrownPool.STATES + STATES[1..], GrownPool.EVENTS + EVENTS);
            && Run(POOL, states, events)
            && LooksAndMarks(states, events, 17, 19, 5) && states[18].threads[5].w == 0
            && HeldByRequest(states[19], 0) && HeldByRequest(states[25], 0) && !states[25].core.workers[0].conn.open
  {
    AllSteps();
    GrownRun();
    hide Step, Run;
    RunContinues(POOL, GrownPool.STATES, GrownPool.EVENTS, STATES, EVENTS);
    assert Claimed(STATES[11].threads[4], 0) && Claimed(STATES[17].threads[4], 0);
  }
}
