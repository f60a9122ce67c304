/**
 A run in which a slot boots again after the policy has refused it. While the restart of a failed first boot is
 pending, SetDesired boots the slot as well (internal/worker/pool.go:529-534), and that boot fails too. Now two restarts
 are pending: the first crashes and schedules a third, the second crashes and is refused, and the third goes on.
 */
module CrashLoopRun {
  import opened CrashPolicy
  import opened PoolModel
  import opened PoolMachine
  import opened CrashBoots
  import opened SlotRevival
  import opened SmallPools

  const POOL := ONE_CRASH

  const GEN_1 := FRESH_SLOT.(gen := 1)
  const GEN_2 := FRESH_SLOT.(gen := 2)
  const GEN_3 := FRESH_SLOT.(gen := 3)
  const CRASHED := GEN_3.(restartCount := 1, recent := [0], crashes := [Crash(0, true)])
  const GEN_4 := CRASHED.(gen := 4)
  const FAILED := GEN_4.(restartCount := 2, recent := [0, 0], crashes := [Crash(0, true), Crash(0, false)])
  const GEN_5 := FAILED.(gen := 5)

  function OneSlot(slot: Slot): Core { Core([slot], [], [], 1, false) }

  /**
   Thread 1 is the initial boot, 2 its restart, 3 SetDesired, 4 its boot, 5 the restart of that, and 6 the restart
   after the first crash.
   */
  function S0(): State { Bare(OneSlot(FRESH_SLOT), [Outside, BootStart(1, false, false)]) }
  function S1(): State { Bare(OneSlot(GEN_1), [Outside, BootRun(1, 1, false, false)]) }
  function S2(): State { Bare(OneSlot(GEN_1), [Outside, BootFail(1, false, false)]) }
  function S3(): State { Bare(OneSlot(GEN_1), [Outside, Done, RestartWait(1, true)]) }
  function S4(): State { Bare(OneSlot(GEN_1), [Outside, Done, RestartWait(1, true), ResizeStart(1)]) }
  function S5(): State {
    Bare(OneSlot(GEN_1), [Outside, Done, RestartWait(1, true), ResizeScan(1, 0, [], [])]).(locked := true)
  }
  function S6(): State {
    Bare(OneSlot(GEN_1), [Outside, Done, RestartWait(1, true), ResizeScan(1, 1, [], [1])]).(locked := true)
  }
  function S7(): State { Bare(OneSlot(GEN_1), [Outside, Done, RestartWait(1, true), ResizeNext([], [1])]) }
  function S8(): State {
    Bare(OneSlot(GEN_1), [Outside, Done, RestartWait(1, true), ResizeNext([], []), BootStart(1, false, false)])
  }
  function S9(): State {
    Bare(OneSlot(GEN_2), [Outside, Done, RestartWait(1, true), ResizeNext([], []), BootRun(1, 2, false, false)])
  }
  function S10(): State {
    Bare(OneSlot(GEN_2), [Outside, Done, RestartWait(1, true), ResizeNext([], []), BootFail(1, false, false)])
  }
  function S11(): State {
    Bare(OneSlot(GEN_2), [Outside, Done, RestartWait(1, true), ResizeNext([], []), Done, RestartWait(1, true)])
  }
  function S12(): State {
    Bare(OneSlot(GEN_2), [Outside, Done, RestartCheck(1, true), ResizeNext([], []), Done, RestartWait(1, true)])
  }
  function S13(): State {
    Bare(OneSlot(GEN_2), [Outside, Done, BootStart(1, true, true), ResizeNext([], []), Done, RestartWait(1, true)])
  }
  function S14(): State {
    Bare(OneSlot(GEN_3), [Outside, Done, BootRun(1, 3, true, true), ResizeNext([], []), Done, RestartWait(1, true)])
  }
  function S15(): State {
    Bare(OneSlot(GEN_3), [Outside, Done, BootFail(1, true, true), ResizeNext([], []), Done, RestartWait(1, true)])
  }
  function S16(): State {
    Bare(OneSlot(CRASHED),
         [Outside, Done, Done, ResizeNext([], []), Done, RestartWait(1, true), RestartWait(1, true)])
  }
  function S17(): State {
    Bare(OneSlot(CRASHED),
         [Outside, Done, Done, ResizeNext([], []), Done, RestartCheck(1, true), RestartWait(1, true)])
  }
  function S18(): State {
    Bare(OneSlot(CRASHED),
         [Outside, Done, Done, ResizeNext([], []), Done, BootStart(1, true, true), RestartWait(1, true)])
  }
  function S19(): State {
    Bare(OneSlot(GEN_4),
         [Outside, Done, Done, ResizeNext([], []), Done, BootRun(1, 4, true, true), RestartWait(1, true)])
  }
  function S20(): State {
    Bare(OneSlot(GEN_4),
         [Outside, Done, Done, ResizeNext([], []), Done, BootFail(1, true, true), RestartWait(1, true)])
  }
  function S21(): State {
    Bare(OneSlot(FAILED), [Outside, Done, Done, ResizeNext([], []), Done, Done, RestartWait(1, true)])
  }
  function S22(): State {
    Bare(OneSlot(FAILED), [Outside, Done, Done, ResizeNext([], []), Done, Done, RestartCheck(1, true)])
  }
  function S23(): State {
    Bare(OneSlot(FAILED), [Outside, Done, Done, ResizeNext([], []), Done, Done, BootStart(1, true, true)])
  }
  function S24(): State {
    Bare(OneSlot(GEN_5), [Outside, Done, Done, ResizeNext([], []), Done, Done, BootRun(1, 5, true, true)])
  }

  const STATES: seq<State> := [
    S0(), S1(), S2(), S3(), S4(), S5(), S6(), S7(), S8(), S9(), S10(), S11(), S12(), S13(), S14(), S15(), S16(),
    S17(), S18(), S19(), S20(), S21(), S22(), S23(), S24()
  ]

  const EVENTS: seq<Event> := [
    Event(1, Go), Event(1, Fail), Event(1, Go), Event(0, NewResize(1)), Event(3, Go), Event(3, Go), Event(3, Go),
    Event(3, Go), Event(4, Go), Event(4, Fail), Event(4, Go), Event(2, Go), Event(2, Go), Event(2, Go),
    Event(2, Fail), Event(2, Go), Event(5, Go), Event(5, Go), Event(5, Go), Event(5, Fail), Event(5, Go),
    Event(6, Go), Event(6, Go), Event(6, Go)
  ]

  ghost predicate Steps(a: nat, b: nat) {
    forall k :: a <= k < b && k < |EVENTS| ==> Step(POOL, STATES[k], EVENTS[k], STATES[k + 1])
  }

  lemma Rescales()
    ensures CoreOk(OneSlot(GEN_1)) && Rescaled(OneSlot(GEN_1), 1) == OneSlot(GEN_1)
    ensures !NothingToResize(POOL, OneSlot(GEN_1), 1)
  {
    assert Rescaled(OneSlot(GEN_1), 1).slots == OneSlot(GEN_1).slots;
    assert Bootable(POOL, OneSlot(GEN_1).slots[0]);
  }

  lemma FirstCrash()
    ensures BootFailed(POOL, GEN_3, true, 0) == CRASHED
  {
    assert Pruned([], -60) == [] && [] + [0] == [0];
    assert Recorded([], 0, 60) == [0];
    assert GEN_3.crashes + [Crash(0, true)] == CRASHED.crashes;
  }

  lemma SecondCrash()
    ensures BootFailed(POOL, GEN_4, true, 0) == FAILED && SlotFailed(POOL, FAILED)
  {
    assert Pruned([], -60) == [] && [0] + [0] == [0, 0] && [0, 0][1..] == [0] && [0][1..] == [];
    assert Pruned([0], -60) == [0] && [0] + [0] == [0, 0];
    assert Recorded([0], 0, 60) == [0, 0];
    assert GEN_4.crashes + [Crash(0, false)] == FAILED.crashes;
  }

  lemma Booting()
    requires Ok(S0())
    ensures Steps(0, 2) && Ok(S2())
  {
    hide Step, Ok, PcOk, CoreOk, PlanRequest, PlanSender, PlanMonitor, PlanControl, PlanOutside;
    Takes(POOL, S0(), Event(1, Go), Write1(PutSlot(1, GEN_1), BootRun(1, 1, false, false)), S1());
    Takes(POOL, S1(), Event(1, Fail), Goto(BootFail(1, false, false)), S2());
  }

  lemma Failing()
    requires Ok(S2())
    ensures Steps(2, 3) && Ok(S3())
  {
    hide Step, Ok, PcOk, CoreOk, PlanRequest, PlanSender, PlanMonitor, PlanControl, PlanOutside;
    Takes(POOL, S2(), Event(1, Go), Effect(PutSlot(1, GEN_1), Done, [RestartWait(1, true)], NoSide), S3());
  }

  lemma Growing()
    requires Ok(S3())
    ensures Steps(3, 5) && Ok(S5())
  {
    hide Step, Ok, PcOk, CoreOk, PlanRequest, PlanSender, PlanBoot, PlanMonitor;
    Takes(POOL, S3(), Event(0, NewResize(1)), Effect(Keep, Outside, [ResizeStart(1)], NoSide), S4());
    Rescales();
    Takes(POOL, S4(), Event(3, Go), Effect(Replace(OneSlot(GEN_1)), ResizeScan(1, 0, [], []), [], LockMu), S5());
  }

  lemma Looking()
    requires Ok(S5())
    ensures Steps(5, 6) && Ok(S6())
  {
    hide Step, Ok, PcOk, CoreOk, PlanRequest, PlanSender, PlanBoot, PlanMonitor, PlanOutside;
    assert S5().threads[3].boots + [1] == [1];
    Takes(POOL, S5(), Event(3, Go), Goto(ResizeScan(1, 1, [], [1])), S6());
  }

  lemma Spawning()
    requires Ok(S6())
    ensures Steps(6, 8) && Ok(S8())
  {
    hide Step, Ok, PcOk, CoreOk, PlanRequest, PlanSender, PlanBoot, PlanMonitor, PlanOutside;
    Takes(POOL, S6(), Event(3, Go), Effect(Keep, ResizeNext([], [1]), [], UnlockMu), S7());
    assert S7().threads[3].boots[1..] == [];
    Takes(POOL, S7(), Event(3, Go), Effect(Keep, ResizeNext([], []), [BootStart(1, false, false)], NoSide), S8());
  }

  lemma SecondBoot()
    requires Ok(S8())
    ensures Steps(8, 10) && Ok(S10())
  {
    hide Step, Ok, PcOk, CoreOk, PlanRequest, PlanSender, PlanMonitor, PlanControl, PlanOutside;
    Takes(POOL, S8(), Event(4, Go), Write1(PutSlot(1, GEN_2), BootRun(1, 2, false, false)), S9());
    Takes(POOL, S9(), Event(4, Fail), Goto(BootFail(1, false, false)), S10());
  }

  lemma SecondFailing()
    requires Ok(S10())
    ensures Steps(10, 11) && Ok(S11())
  {
    hide Step, Ok, PcOk, CoreOk, PlanRequest, PlanSender, PlanMonitor, PlanControl, PlanOutside;
    Takes(POOL, S10(), Event(4, Go), Effect(PutSlot(1, GEN_2), Done, [RestartWait(1, true)], NoSide), S11());
  }

  lemma Firing()
    requires Ok(S11())
    ensures Steps(11, 12) && Ok(S12())
  {
    hide Step, Ok, PcOk, CoreOk, PlanRequest, PlanSender, PlanMonitor, PlanControl, PlanOutside;
    Takes(POOL, S11(), Event(2, Go), Goto(RestartCheck(1, true)), S12());
  }

  lemma Restarting()
    requires Ok(S12())
    ensures Steps(12, 13) && Ok(S13())
  {
    hide Step, Ok, PcOk, CoreOk, PlanRequest, PlanSender, PlanMonitor, PlanControl, PlanOutside;
    Takes(POOL, S12(), Event(2, Go), Goto(BootStart(1, true, true)), S13());
  }

  lemma Reserving()
    requires Ok(S13())
    ensures Steps(13, 14) && Ok(S14())
  {
    hide Step, Ok, PcOk, CoreOk, PlanRequest, PlanSender, PlanMonitor, PlanControl, PlanOutside;
    Takes(POOL, S13(), Event(2, Go), Write1(PutSlot(1, GEN_3), BootRun(1, 3, true, true)), S14());
  }

  lemma Crashing()
    requires Ok(S14())
    ensures Steps(14, 16) && Ok(S16())
  {
    hide Step, Ok, PcOk, CoreOk, PlanRequest, PlanSender, PlanMonitor, PlanControl, PlanOutside;
    Takes(POOL, S14(), Event(2, Fail), Goto(BootFail(1, true, true)), S15());
    FirstCrash();
    Takes(POOL, S15(), Event(2, Go), Effect(PutSlot(1, CRASHED), Done, [RestartWait(1, true)], NoSide), S16());
  }

  lemma SecondFiring()
    requires Ok(S16())
    ensures Steps(16, 17) && Ok(S17())
  {
    hide Step, Ok, PcOk, CoreOk, PlanRequest, PlanSender, PlanMonitor, PlanControl, PlanOutside;
    Takes(POOL, S16(), Event(5, Go), Goto(RestartCheck(1, true)), S17());
  }

  lemma SecondRestart()
    requires Ok(S17())
    ensures Steps(17, 18) && Ok(S18())
  {
    hide Step, Ok, PcOk, CoreOk, PlanRequest, PlanSender, PlanMonitor, PlanControl, PlanOutside;
    Takes(POOL, S17(), Event(5, Go), Goto(BootStart(1, true, true)), S18());
  }

  lemma SecondReserving()
    requires Ok(S18())
    ensures Steps(18, 19) && Ok(S19())
  {
    hide Step, Ok, PcOk, CoreOk, PlanRequest, PlanSender, PlanMonitor, PlanControl, PlanOutside;
    Takes(POOL, S18(), Event(5, Go), Write1(PutSlot(1, GEN_4), BootRun(1, 4, true, true)), S19());
  }

  lemma SecondCrashing()
    requires Ok(S19())
    ensures Steps(19, 21) && Ok(S21())
  {
    hide Step, Ok, PcOk, CoreOk, PlanRequest, PlanSender, PlanMonitor, PlanControl, PlanOutside;
    Takes(POOL, S19(), Event(5, Fail), Goto(BootFail(1, true, true)), S20());
    SecondCrash();
    Takes(POOL, S20(), Event(5, Go), Write1(PutSlot(1, FAILED), Done), S21());
  }

  lemma ThirdFiring()
    requires Ok(S21())
    ensures Steps(21, 22) && Ok(S22())
  {
    hide Step, Ok, PcOk, CoreOk, PlanRequest, PlanSender, PlanMonitor, PlanControl, PlanOutside;
    Takes(POOL, S21(), Event(6, Go), Goto(RestartCheck(1, true)), S22());
  }

  lemma ThirdRestart()
    requires Ok(S22())
    ensures Steps(22, 23) && Ok(S23())
  {
    hide Step, Ok, PcOk, CoreOk, PlanRequest, PlanSender, PlanMonitor, PlanControl, PlanOutside;
    Takes(POOL, S22(), Event(6, Go), Goto(BootStart(1, true, true)), S23());
  }

  lemma ThirdReserving()
    requires Ok(S23())
    ensures Steps(23, 24) && Ok(S24())
  {
    hide Step, Ok, PcOk, CoreOk, PlanRequest, PlanSender, PlanMonitor, PlanControl, PlanOutside;
    Takes(POOL, S23(), Event(6, Go), Write1(PutSlot(1, GEN_5), BootRun(1, 5, true, true)), S24());
  }

  lemma Starts()
    ensures Ok(S0())
  {
  }

  lemma AllSteps()
    ensures Steps(0, |EVENTS|) && Ok(S24())
  {
    hide Step, Ok, S0, S1, S2, S3, S4, S5, S6, S7, S8, S9, S10, S11, S12, S13, S14, S15, S16, S17, S18, S19, S20,
         S21, S22, S23, S24;
    Starts();
    Booting();
    Failing();
    Growing();
    Looking();
    Spawning();
    SecondBoot();
    SecondFailing();
    Firing();
    Restarting();
    Reserving();
    Crashing();
    SecondFiring();
    SecondRestart();
    SecondReserving();
    SecondCrashing();
    ThirdFiring();
    ThirdRestart();
    ThirdReserving();
  }

  /** The limit is one crash a minute; both crashes of the slot, in the same minute, are followed by a boot. */
  lemma ARefusedSlotCanBootAgain()
    ensures Run(POOL, STATES, EVENTS) && |EVENTS| == 24
    ensures Refuses(STATES[20], EVENTS[20], STATES[21], 1) && DrawsSince(STATES[21], STATES[24], 0)
    ensures FollowedByBoot(STATES, 0, 0, 24) && FollowedByBoot(STATES, 0, 1, 24)
  {
    AllSteps();
    hide Step;
    assert STATES[0].core.slots == seq(1, _ => FRESH_SLOT);
    assert STATES[0].threads == [Outside] + seq(1, (i: nat) => BootStart(i + 1, false, false));
    assert RecordedBy(STATES[16], 0, 0) && DrawsSince(STATES[16], STATES[24], 0);
    assert RecordedBy(STATES[21], 0, 1) && DrawsSince(STATES[21], STATES[24], 0);
  }
}
