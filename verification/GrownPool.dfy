/**
 How SetDesired(1) boots the first worker of an empty pool (internal/worker/pool.go:464-554), up to the moment at
 which the worker is installed and its monitor is not yet registered (311).
 */
module GrownPool {
  import opened Basics
  import opened PoolModel
  import opened PoolMachine
  import opened SmallPools

  const POOL := UP_TO_ONE

  const GEN_1 := FRESH_SLOT.(gen := 1)
  const FILLED := GEN_1.(worker := Some(0))
  const WORKER := NewWorker(1, 1)
  const EMPTY := Core([], [], [], 0, false)
  const FRESH := Core([FRESH_SLOT], [], [], 1, false)
  const RESERVED := FRESH.(slots := [GEN_1])
  const STARTED := RESERVED.(workers := [WORKER])
  const SERVING := STARTED.(slots := [FILLED])

  /** Thread 1 is SetDesired, thread 2 the boot. */
  function S0(): State { Bare(EMPTY, [Outside]) }
  function S1(): State { Bare(EMPTY, [Outside, ResizeStart(1)]) }
  function S2(): State { Bare(FRESH, [Outside, ResizeScan(1, 0, [], [])]).(locked := true) }
  function S3(): State { Bare(FRESH, [Outside, ResizeScan(1, 1, [], [1])]).(locked := true) }
  function S4(): State { Bare(FRESH, [Outside, ResizeNext([], [1])]) }
  function S5(): State { Bare(FRESH, [Outside, ResizeNext([], []), BootStart(1, false, false)]) }
  function S6(): State { Bare(RESERVED, [Outside, ResizeNext([], []), BootRun(1, 1, false, false)]) }
  function S7(): State { Bare(STARTED, [Outside, ResizeNext([], []), BootInstall(1, 0, false)]) }
  function S8(): State { Bare(SERVING, [Outside, ResizeNext([], []), BootWatch(1, 0, false)]) }

  const STATES: seq<State> := [
    S0(), S1(), S2(), S3(), S4(), S5(), S6(), S7(), S8()
  ]

  const EVENTS: seq<Event> := [
    Event(0, NewResize(1)), Event(1, Go), Event(1, Go), Event(1, Go), Event(1, Go), Event(2, Go), Event(2, Go),
    Event(2, Go)
  ]

  ghost predicate Steps(a: nat, b: nat) {
    forall k :: a <= k < b && k < |EVENTS| ==> Step(POOL, STATES[k], EVENTS[k], STATES[k + 1])
  }

  lemma Rescales()
    ensures CoreOk(EMPTY) && Rescaled(EMPTY, 1) == FRESH
  {
    assert Rescaled(EMPTY, 1).slots == FRESH.slots;
  }

  lemma Growing()
    requires Ok(S0())
    ensures Steps(0, 2) && Ok(S2())
  {
    hide Step, Ok, PcOk, CoreOk, PlanRequest, PlanSender, PlanBoot, PlanMonitor;
    Takes(POOL, S0(), Event(0, NewResize(1)), Effect(Keep, Outside, [ResizeStart(1)], NoSide), S1());
    Rescales();
    Takes(POOL, S1(), Event(1, Go), Effect(Replace(FRESH), ResizeScan(1, 0, [], []), [], LockMu), S2());
  }

  lemma Looking()
    requires Ok(S2())
    ensures Steps(2, 3) && Ok(S3())
  {
    hide Step, Ok, PcOk, CoreOk, PlanRequest, PlanSender, PlanBoot, PlanMonitor, PlanOutside;
    assert S2().threads[1].boots + [1] == [1];
    Takes(POOL, S2(), Event(1, Go), Goto(ResizeScan(1, 1, [], [1])), S3());
  }

  lemma Spawning()
    requires Ok(S3())
    ensures Steps(3, 4) && Ok(S4())
  {
    hide Step, Ok, PcOk, CoreOk, PlanRequest, PlanSender, PlanBoot, PlanMonitor, PlanOutside;
    Takes(POOL, S3(), Event(1, Go), Effect(Keep, ResizeNext([], [1]), [], UnlockMu), S4());
  }

  lemma Starting()
    requires Ok(S4())
    ensures Steps(4, 5) && Ok(S5())
  {
    hide Step, Ok, PcOk, CoreOk, PlanRequest, PlanSender, PlanBoot, PlanMonitor, PlanOutside;
    assert S4().threads[1].boots[1..] == [];
    Takes(POOL, S4(), Event(1, Go), Effect(Keep, ResizeNext([], []), [BootStart(1, false, false)], NoSide), S5());
  }

  lemma Reserving()
    requires Ok(S5())
    ensures Steps(5, 6) && Ok(S6())
  {
    hide Step, Ok, PcOk, CoreOk, PlanRequest, PlanSender, PlanMonitor, PlanControl, PlanOutside;
    Takes(POOL, S5(), Event(2, Go), Write1(PutSlot(1, GEN_1), BootRun(1, 1, false, false)), S6());
  }

  lemma Installing()
    requires Ok(S6())
    ensures Steps(6, 8) && Ok(S8())
  {
    hide Step, Ok, PcOk, CoreOk, PlanRequest, PlanSender, PlanMonitor, PlanControl, PlanOutside;
    Takes(POOL, S6(), Event(2, Go), Write1(AddWorker(WORKER), BootInstall(1, 0, false)), S7());
    Takes(POOL, S7(), Event(2, Go), Write1(PutSlot(1, FILLED), BootWatch(1, 0, false)), S8());
  }

  lemma Starts()
    ensures Ok(S0())
  {
  }

  lemma AllSteps()
    ensures Steps(0, |EVENTS|) && Ok(S8())
  {
    hide Step, Ok, S0, S1, S2, S3, S4, S5, S6, S7, S8;
    Starts();
    Growing();
    Looking();
    Spawning();
    Starting();
    Reserving();
    Installing();
  }

  lemma GrownRun()
    ensures Run(POOL, STATES, EVENTS) && STATES[|EVENTS|] == S8() && Ok(S8())
  {
    AllSteps();
    hide Step, Ok;
    assert STATES[0].core.slots == seq(0, _ => FRESH_SLOT);
    assert STATES[0].threads == [Outside] + seq(0, (i: nat) => BootStart(i + 1, false, false));
  }
}
