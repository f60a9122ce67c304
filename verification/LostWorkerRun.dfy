/**
 A run in which an idle worker is lost: a boot is delayed before its push (internal/worker/pool.go:313-317) until
 its worker has crashed, been purged and been replaced. Its late push fills the channel with the dead worker, and
 the push of the replacement finds no room.
 */
module LostWorkerRun {
  import opened Basics
  import opened CrashPolicy
  import opened PoolModel
  import opened PoolMachine
  import opened WholeOperations
  import opened PoolTheorems
  import opened SmallPools

  const POOL := ONE_WORKER

  const FIRST := NewWorker(1, 1)
  const DEAD := Closed(FIRST.(state := Dead))
  const SECOND := NewWorker(1, 2)
  const GEN_1 := FRESH_SLOT.(gen := 1)
  const FILLED_1 := GEN_1.(worker := Some(0))
  const CRASHED := GEN_1.(restartCount := 1, recent := [0], crashes := [Crash(0, true)])
  const GEN_2 := CRASHED.(gen := 2)
  const FILLED_2 := GEN_2.(worker := Some(1))
  const THEN := ExitThen(1, Crashed)

  function OneSlot(slot: Slot, workers: seq<Worker>, idle: seq<Ref>): Core { Core([slot], workers, idle, 1, false) }

  /** Thread 1 is the first boot, thread 2 the monitor of its worker, thread 3 the restart. */
  function S0(): State { Bare(OneSlot(FRESH_SLOT, [], []), [Outside, BootStart(1, false, false)]) }
  function S1(): State { Bare(OneSlot(GEN_1, [], []), [Outside, BootRun(1, 1, false, false)]) }
  function S2(): State { Bare(OneSlot(GEN_1, [FIRST], []), [Outside, BootInstall(1, 0, false)]) }
  function S3(): State { Bare(OneSlot(FILLED_1, [FIRST], []), [Outside, BootWatch(1, 0, false)]) }
  function S4(): State { Bare(OneSlot(FILLED_1, [FIRST], []), [Outside, BootPush(0, false), Watch(1, 0)]) }
  function S5(): State { Bare(OneSlot(FILLED_1, [FIRST], []), [Outside, BootPush(0, false), Clear(1, 0, 1)]) }
  function S6(): State { Bare(OneSlot(GEN_1, [DEAD], []), [Outside, BootPush(0, false), PurgeStart(0, THEN)]) }
  function S7(): State {
    Bare(OneSlot(GEN_1, [DEAD], []), [Outside, BootPush(0, false), PurgeLoop(0, 0, THEN)]).(locked := true)
  }
  function S8(): State { Bare(OneSlot(GEN_1, [DEAD], []), [Outside, BootPush(0, false), AfterExit(1, Crashed)]) }
  function S9(): State { Bare(OneSlot(GEN_1, [DEAD], []), [Outside, BootPush(0, false), CrashExit(1)]) }
  function S10(): State {
    Bare(OneSlot(CRASHED, [DEAD], []), [Outside, BootPush(0, false), Done, RestartWait(1, true)])
  }
  function S11(): State {
    Bare(OneSlot(CRASHED, [DEAD], []), [Outside, BootPush(0, false), Done, RestartCheck(1, true)])
  }
  function S12(): State {
    Bare(OneSlot(CRASHED, [DEAD], []), [Outside, BootPush(0, false), Done, BootStart(1, true, true)])
  }
  function S13(): State {
    Bare(OneSlot(GEN_2, [DEAD], []), [Outside, BootPush(0, false), Done, BootRun(1, 2, true, true)])
  }
  function S14(): State {
    Bare(OneSlot(GEN_2, [DEAD, SECOND], []), [Outside, BootPush(0, false), Done, BootInstall(1, 1, true)])
  }
  function S15(): State {
    Bare(OneSlot(FILLED_2, [DEAD, SECOND], []), [Outside, BootPush(0, false), Done, BootWatch(1, 1, true)])
  }
  function S16(): State {
    Bare(OneSlot(FILLED_2, [DEAD, SECOND], []), [Outside, BootPush(0, false), Done, BootPush(1, true), Watch(1, 1)])
  }
  function S17(): State {
    Bare(OneSlot(FILLED_2, [DEAD, SECOND], [0]), [Outside, Done, Done, BootPush(1, true), Watch(1, 1)])
  }
  function S18(): State { Bare(OneSlot(FILLED_2, [DEAD, SECOND], [0]), [Outside, Done, Done, Done, Watch(1, 1)]) }

  const STATES: seq<State> := [
    S0(), S1(), S2(), S3(), S4(), S5(), S6(), S7(), S8(), S9(), S10(), S11(), S12(), S13(), S14(), S15(), S16(),
    S17(), S18()
  ]

  const EVENTS: seq<Event> := [
    Event(1, Go), Event(1, Go), Event(1, Go), Event(1, Go), Event(2, Exit(1)), Event(2, Go), Event(2, Go),
    Event(2, Go), Event(2, Go), Event(2, Go), Event(3, Go), Event(3, Go), Event(3, Go), Event(3, Go), Event(3, Go),
    Event(3, Go), Event(1, Go), Event(3, Go)
  ]

  ghost predicate Steps(a: nat, b: nat) {
    forall k :: a <= k < b && k < |EVENTS| ==> Step(POOL, STATES[k], EVENTS[k], STATES[k + 1])
  }

  lemma FirstCrash()
    ensures RecordCrash(POOL, GEN_1, 0) == CRASHED
  {
    assert Pruned([], -60) == [] && [] + [0] == [0];
    assert Recorded([], 0, 60) == [0];
    assert GEN_1.crashes + [Crash(0, true)] == CRASHED.crashes;
  }

  lemma Booting()
    requires Ok(S0())
    ensures Steps(0, 3) && Ok(S3())
  {
    hide Step, Ok, PcOk, CoreOk, PlanRequest, PlanSender, PlanMonitor, PlanControl, PlanOutside;
    Takes(POOL, S0(), Event(1, Go), Write1(PutSlot(1, GEN_1), BootRun(1, 1, false, false)), S1());
    Takes(POOL, S1(), Event(1, Go), Write1(AddWorker(FIRST), BootInstall(1, 0, false)), S2());
    Takes(POOL, S2(), Event(1, Go), Write1(PutSlot(1, FILLED_1), BootWatch(1, 0, false)), S3());
  }

  lemma Watching()
    requires Ok(S3())
    ensures Steps(3, 5) && Ok(S5())
  {
    hide Step, Ok, PcOk, CoreOk, PlanRequest, PlanSender, PlanControl, PlanOutside;
    Takes(POOL, S3(), Event(1, Go), Effect(Keep, BootPush(0, false), [Watch(1, 0)], NoSide), S4());
    Takes(POOL, S4(), Event(2, Exit(1)), Goto(Clear(1, 0, 1)), S5());
  }

  lemma Clearing()
    requires Ok(S5())
    ensures Steps(5, 6) && Ok(S6())
  {
    hide Step, Ok, PcOk, CoreOk, PlanRequest, PlanSender, PlanBoot, PlanControl, PlanOutside;
    Takes(POOL, S5(), Event(2, Go), Write1(PutBoth(0, DEAD, 1, GEN_1), PurgeStart(0, THEN)), S6());
  }

  lemma Purging()
    requires Ok(S6())
    ensures Steps(6, 8) && Ok(S8())
  {
    hide Step, Ok, PcOk, CoreOk, PlanRequest, PlanSender, PlanBoot, PlanControl, PlanOutside;
    Takes(POOL, S6(), Event(2, Go), Effect(Keep, PurgeLoop(0, 0, THEN), [], LockMu), S7());
    Takes(POOL, S7(), Event(2, Go), Effect(Keep, AfterExit(1, Crashed), [], UnlockMu), S8());
  }

  lemma Crashing()
    requires Ok(S8())
    ensures Steps(8, 10) && Ok(S10())
  {
    hide Step, Ok, PcOk, CoreOk, PlanRequest, PlanSender, PlanBoot, PlanControl, PlanOutside;
    Takes(POOL, S8(), Event(2, Go), Goto(CrashExit(1)), S9());
    FirstCrash();
    Takes(POOL, S9(), Event(2, Go), Effect(PutSlot(1, CRASHED), Done, [RestartWait(1, true)], NoSide), S10());
  }

  lemma Restarting()
    requires Ok(S10())
    ensures Steps(10, 12) && Ok(S12())
  {
    hide Step, Ok, PcOk, CoreOk, PlanRequest, PlanSender, PlanMonitor, PlanControl, PlanOutside;
    Takes(POOL, S10(), Event(3, Go), Goto(RestartCheck(1, true)), S11());
    Takes(POOL, S11(), Event(3, Go), Goto(BootStart(1, true, true)), S12());
  }

  lemma Reserving()
    requires Ok(S12())
    ensures Steps(12, 13) && Ok(S13())
  {
    hide Step, Ok, PcOk, CoreOk, PlanRequest, PlanSender, PlanMonitor, PlanControl, PlanOutside;
    Takes(POOL, S12(), Event(3, Go), Write1(PutSlot(1, GEN_2), BootRun(1, 2, true, true)), S13());
  }

  lemma Starting()
    requires Ok(S13())
    ensures Steps(13, 14) && Ok(S14())
  {
    hide Step, Ok, PcOk, CoreOk, PlanRequest, PlanSender, PlanMonitor, PlanControl, PlanOutside;
    Takes(POOL, S13(), Event(3, Go), Write1(AddWorker(SECOND), BootInstall(1, 1, true)), S14());
  }

  lemma Installing()
    requires Ok(S14())
    ensures Steps(14, 16) && Ok(S16())
  {
    hide Step, Ok, PcOk, CoreOk, PlanRequest, PlanSender, PlanMonitor, PlanControl, PlanOutside;
    Takes(POOL, S14(), Event(3, Go), Write1(PutSlot(1, FILLED_2), BootWatch(1, 1, true)), S15());
    Takes(POOL, S15(), Event(3, Go), Effect(Keep, BootPush(1, true), [Watch(1, 1)], NoSide), S16());
  }

  lemma LatePush()
    requires Ok(S16())
    ensures Steps(16, 17) && Ok(S17())
  {
    hide Step, Ok, PcOk, CoreOk, PlanRequest, PlanSender, PlanMonitor, PlanControl, PlanOutside;
    Takes(POOL, S16(), Event(1, Go), Write1(PutIdle(0), Done), S17());
  }

  lemma Losing()
    requires Ok(S17())
    ensures Steps(17, 18) && Ok(S18())
  {
    hide Step, Ok, PcOk, CoreOk, PlanRequest, PlanSender, PlanMonitor, PlanControl, PlanOutside;
    Takes(POOL, S17(), Event(3, Go), Goto(Done), S18());
  }

  lemma Starts()
    ensures Ok(S0())
  {
  }

  lemma AllSteps()
    ensures Steps(0, |EVENTS|) && Ok(S18())
  {
    hide Step, Ok, S0, S1, S2, S3, S4, S5, S6, S7, S8, S9, S10, S11, S12, S13, S14, S15, S16, S17, S18;
    Starts();
    Booting();
    Watching();
    Clearing();
    Purging();
    Crashing();
    Restarting();
    Reserving();
    Starting();
    Installing();
    LatePush();
    Losing();
  }

  /** The worker in service is Idle, but no thread holds it and it is not in the channel: it never will be again. */
  lemma AnIdleWorkerCanBeLost()
    ensures Run(POOL, STATES, EVENTS) && |EVENTS| == 18
    ensures Ok(STATES[18]) && !STATES[18].core.stopping && CurrentIdle(STATES[18].core, 1) && LetGo(STATES[18], 1)
  {
    AllSteps();
    hide Step;
    assert STATES[0].core.slots == seq(1, _ => FRESH_SLOT);
    assert STATES[0].threads == [Outside] + seq(1, (i: nat) => BootStart(i + 1, false, false));
  }
}
