/**
 The crash-loop policy inside the running pool, at the granularity of single steps: the pruned list of every slot
 always answers what the slot's whole crash history would, and the goroutine that records a crash schedules a restart
 exactly when the policy allows it. Which boots follow a crash is the subject of CrashBoots.
 */
module CrashHistory {
  import opened CrashPolicy
  import opened Protocol
  import opened PoolModel
  import opened PoolMachine
  import opened PoolWellFormed

  ghost predicate SlotLogged(c: Config, now: int, sl: Slot) {
    && sl.restartCount == |sl.crashes|
    && sl.recent == WindowOf(sl.crashes, c.restartWindow)
    && Ordered(sl.crashes) && Judged(sl.crashes, c.restartLimit, c.restartWindow)
    && (sl.crashes != [] ==> sl.crashes[|sl.crashes| - 1].time <= now)
  }

  ghost predicate Logged(c: Config, s: State) {
    forall i :: 0 <= i < |s.core.slots| ==> SlotLogged(c, s.now, s.core.slots[i])
  }

  /** Either the crash list is untouched, or one crash is recorded and answered with a restart or not. */
  ghost predicate LogMove(c: Config, now: int, f: Effect, i: nat, before: Slot, after: Slot) {
    || (&& after.recent == before.recent && after.crashes == before.crashes
        && after.restartCount == before.restartCount)
    || (&& after.recent == Recorded(before.recent, now, c.restartWindow)
        && after.crashes == before.crashes + [Crash(now, !SlotFailed(c, after))]
        && after.restartCount == before.restartCount + 1
        && f.next == Done && f.side == NoSide
        && f.spawned == (if SlotFailed(c, after) then [] else [RestartWait(i, true)]))
  }

  ghost predicate Logs(c: Config, s: State, pc: Pc, f: Effect)
    requires Ok(s) && OpOk(s.core, f.op)
  {
    && (f.op.PutSlot? ==> LogMove(c, s.now, f, f.op.i, s.core.slots[f.op.i - 1], f.op.slot) && !f.side.Advance?)
    && (f.op.PutBoth? ==> LogMove(c, s.now, f, f.op.i, s.core.slots[f.op.i - 1], f.op.slot) && !f.side.Advance?)
  }

  lemma RequestLogs(c: Config, s: State, pc: Pc, ch: Choice)
    requires Ok(s) && PcOk(s.core, pc)
    ensures var f := PlanRequest(c, s, pc, ch); f.Some? ==> Logs(c, s, pc, f.value)
  {
    hide SameGeneration, WantsRecycle, CheckAcquired, OutOfService;
  }

  lemma BootLogs(c: Config, s: State, pc: Pc, ch: Choice)
    requires Ok(s) && PcOk(s.core, pc)
    ensures var f := PlanBoot(c, s, pc, ch); f.Some? ==> Logs(c, s, pc, f.value)
    ensures var f := PlanSender(s, pc, ch); f.Some? ==> Logs(c, s, pc, f.value)
    ensures var f := PlanOutside(c, s, pc, ch); f.Some? ==> Logs(c, s, pc, f.value)
  {
    hide ValidResponse, Recorded;
  }

  lemma MonitorLogs(c: Config, s: State, pc: Pc, ch: Choice)
    requires Ok(s) && PcOk(s.core, pc)
    ensures var f := PlanMonitor(c, s, pc, ch); f.Some? ==> Logs(c, s, pc, f.value)
    ensures var f := PlanControl(c, s, pc); f.Some? ==> Logs(c, s, pc, f.value)
  {
    hide PlanAfterExit, OwnsSlot, Rescaled, MarkAll, Remaining, NothingToResize, Bootable, Spared;
  }

  lemma PlanLogs(c: Config, s: State, pc: Pc, ch: Choice)
    requires Ok(s) && PcOk(s.core, pc)
    ensures var f := Plan(c, s, pc, ch); f.Some? ==> Logs(c, s, pc, f.value)
  {
    hide PlanRequest, PlanSender, PlanBoot, PlanMonitor, PlanControl, PlanOutside, PcOk, Logs;
    RequestLogs(c, s, pc, ch);
    BootLogs(c, s, pc, ch);
    MonitorLogs(c, s, pc, ch);
  }

  lemma LogsPreserved(c: Config, s: State, t: nat, f: Effect)
    requires Ok(s) && t < |s.threads| && OpOk(s.core, f.op) && EffectOk(s, f)
    requires Logged(c, s) && Logs(c, s, s.threads[t], f)
    ensures Logged(c, Perform(s, t, f))
  {
    hide PcOk, WindowOf, Judged, Ordered, Recorded;
    var s' := Perform(s, t, f);
    forall i | 0 <= i < |s'.core.slots| ensures SlotLogged(c, s'.now, s'.core.slots[i]) {
      if i < |s.core.slots| {
        assert SlotLogged(c, s.now, s.core.slots[i]);
        SlotKeepsLog(c, s.now, s'.now, f, i + 1, s.core.slots[i], s'.core.slots[i]);
      } else {
        FreshIsLogged(c, s'.now, s'.core.slots[i]);
      }
    }
  }

  lemma FreshIsLogged(c: Config, now: int, sl: Slot)
    requires sl.recent == [] && sl.crashes == [] && sl.restartCount == 0
    ensures SlotLogged(c, now, sl)
  {
  }

  lemma SlotKeepsLog(c: Config, now: int, later: int, f: Effect, i: nat, before: Slot, after: Slot)
    requires SlotLogged(c, now, before) && LogMove(c, now, f, i, before, after) && now <= later
    ensures SlotLogged(c, later, after)
  {
    hide WindowOf, Judged, Ordered, Recorded, Exceeded;
    if after.crashes != before.crashes {
      var next := Crash(now, !SlotFailed(c, after));
      WindowIsExact(before.crashes, now, next.allowed, c.restartWindow);
      JudgedExtends(before.crashes, next, c.restartLimit, c.restartWindow);
    }
  }

  /** The policy allows a restart after at most restart_limit of a slot's crashes in any restart_window. */
  lemma AllowedAreLimited(c: Config, s: State, i: nat, lo: int)
    requires Logged(c, s) && i < |s.core.slots| && c.restartLimit > 0
    ensures AllowedWithin(s.core.slots[i].crashes, lo, lo + c.restartWindow) <= c.restartLimit
  {
    assert SlotLogged(c, s.now, s.core.slots[i]);
    hide Judged, Ordered, AllowedWithin, WindowOf, Logged;
    CrashLoopLimit(s.core.slots[i].crashes, c.restartLimit, c.restartWindow, lo);
  }
}
