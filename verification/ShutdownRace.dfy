/**
 A run in which Shutdown returns while a slot is still occupied. The boot that SetDesired has started
 (internal/worker/pool.go:549-554) is not in p.wg, and Shutdown overtakes it between installing its worker (299-310)
 and registering the monitor (311-313).
 */
module ShutdownRace {
  import opened Basics
  import opened PoolModel
  import opened PoolMachine
  import opened PoolShutdown
  import opened Continuations
  import opened SmallPools
  import opened GrownPool

  const STOPPING := SERVING.(stopping := true)
  const MARKED := STOPPING.(slots := [FILLED.(planned := true)], workers := [WORKER.(state := Draining)])
  const CLOSED := Closed(WORKER.(state := Draining))
  const TERMINATED := MARKED.(workers := [CLOSED])

  /** Thread 3 is Shutdown, thread 4 the terminator that Shutdown starts. */
  function S9(): State { Bare(SERVING, [Outside, ResizeNext([], []), BootWatch(1, 0, false), StopStart]) }
  function S10(): State { Bare(STOPPING, [Outside, ResizeNext([], []), BootWatch(1, 0, false), StopCancel]) }
  function S11(): State {
    Bare(STOPPING, [Outside, ResizeNext([], []), BootWatch(1, 0, false), StopDrain]).(cancelled := true)
  }
  function S12(): State {
    Bare(STOPPING, [Outside, ResizeNext([], []), BootWatch(1, 0, false), StopMark]).(cancelled := true)
  }
  function S13(): State {
    Bare(MARKED, [Outside, ResizeNext([], []), BootWatch(1, 0, false), StopWait, Terminate(0)]).(cancelled := true)
  }
  function S14(): State {
    Bare(TERMINATED, [Outside, ResizeNext([], []), BootWatch(1, 0, false), StopWait, Done]).(cancelled := true)
  }
  function S15(): State {
    Bare(TERMINATED, [Outside, ResizeNext([], []), BootWatch(1, 0, false), StopDone, Done]).(cancelled := true)
  }

  const STATES: seq<State> := [
    S8(), S9(), S10(), S11(), S12(), S13(), S14(), S15()
  ]

  const EVENTS: seq<Event> := [
    Event(0, NewShutdown), Event(3, Go), Event(3, Go), Event(3, Go), Event(3, Go), Event(4, Go), Event(3, Go)
  ]

  ghost predicate Steps(a: nat, b: nat) {
    forall k :: a <= k < b && k < |EVENTS| ==> Step(POOL, STATES[k], EVENTS[k], STATES[k + 1])
  }

  lemma MarksOne()
    ensures MarkAll(STOPPING) == MARKED && Remaining(STOPPING.slots) == [0]
    ensures [Terminate(0)] == seq(1, k requires 0 <= k < 1 => Terminate([0][k]))
  {
    assert Remaining([]) == [] && STOPPING.slots[..0] == [];
    assert MarkAll(STOPPING).slots == MARKED.slots && MarkAll(STOPPING).workers == MARKED.workers;
  }

  lemma Stopping()
    requires Ok(S8())
    ensures Steps(0, 2) && Ok(S10())
  {
    hide Step, Ok, PcOk, CoreOk, PlanRequest, PlanSender, PlanBoot, PlanMonitor;
    Takes(POOL, S8(), Event(0, NewShutdown), Effect(Keep, Outside, [StopStart], NoSide), S9());
    Takes(POOL, S9(), Event(3, Go), Write1(Replace(STOPPING), StopCancel), S10());
  }

  lemma Emptying()
    requires Ok(S10())
    ensures Steps(2, 3) && Ok(S11())
  {
    hide Step, Ok, PcOk, CoreOk, PlanRequest, PlanSender, PlanBoot, PlanMonitor, PlanOutside;
    Takes(POOL, S10(), Event(3, Go), Effect(Keep, StopDrain, [], CancelCtx), S11());
  }

  lemma Marking()
    requires Ok(S11())
    ensures Steps(3, 4) && Ok(S12())
  {
    hide Step, Ok, PcOk, CoreOk, PlanRequest, PlanSender, PlanBoot, PlanMonitor, PlanOutside;
    Takes(POOL, S11(), Event(3, Go), Goto(StopMark), S12());
  }

  lemma Terminating()
    requires Ok(S12())
    ensures Steps(4, 5) && Ok(S13())
  {
    hide Step, Ok, PcOk, CoreOk, PlanRequest, PlanSender, PlanBoot, PlanMonitor, PlanOutside;
    MarksOne();
    Takes(POOL, S12(), Event(3, Go), Effect(Replace(MARKED), StopWait, [Terminate(0)], NoSide), S13());
  }

  lemma Leaving()
    requires Ok(S13())
    ensures Steps(5, 7) && Ok(S15())
  {
    hide Step, Ok, PcOk, CoreOk, PlanRequest, PlanSender, PlanBoot, PlanMonitor, PlanOutside;
    Takes(POOL, S13(), Event(4, Go), Write1(PutWorker(0, CLOSED), Done), S14());
    Takes(POOL, S14(), Event(3, Go), Goto(StopDone), S15());
  }

  lemma AllSteps()
    ensures Steps(0, |EVENTS|)
  {
    hide Step, Ok, S8, S9, S10, S11, S12, S13, S14, S15;
    GrownRun();
    Stopping();
    Emptying();
    Marking();
    Terminating();
    Leaving();
  }

  /** Shutdown's wait, the last step, ends with the worker of slot 1 still installed. */
  lemma ShutdownCanLeaveAWorker()
    ensures var (states, events) := (GrownPool.STATES + STATES[1..], GrownPool.EVENTS + EVENTS);
            && Run(POOL, states, events) && |events| == 15
            && states[14].threads[3].StopWait? && states[15].threads[3].StopDone? && !AllEmpty(states[15].core)
  {
    AllSteps();
    GrownRun();
    hide Step, Run;
    RunContinues(POOL, GrownPool.STATES, GrownPool.EVENTS, STATES, EVENTS);
    assert STATES[7].core.slots[0].worker == Some(0);
  }
}
