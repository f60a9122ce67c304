/**
 p.mu over the sections that take several steps: at most one goroutine is inside one, and while it is, nobody else
 enters a section, so nobody else writes what the mutex guards.
 */
module PoolLocking {
  import opened Protocol
  import opened PoolModel
  import opened PoolMachine

  /** In the middle of a section: a purge at work on the channel, or SetDesired at work on the slots. */
  predicate HoldsMu(pc: Pc) {
    pc.PurgeLoop? || pc.PurgeHand? || pc.ResizeScan? || pc.ResizeMark?
  }

  ghost predicate LockExclusive(s: State) {
    && (forall t :: 0 <= t < |s.threads| && HoldsMu(s.threads[t]) ==> s.locked)
    && (forall t, u :: 0 <= t < u < |s.threads| && HoldsMu(s.threads[t]) ==> !HoldsMu(s.threads[u]))
  }

  /** Entering, staying in and leaving a section, and writing only inside one. */
  ghost predicate KeepsLock(s: State, pc: Pc, f: Effect) {
    && (HoldsMu(f.next) ==> if HoldsMu(pc) then !f.side.UnlockMu? else f.side.LockMu?)
    && (HoldsMu(pc) ==> !f.side.LockMu? && (f.side.UnlockMu? <==> !HoldsMu(f.next)))
    && (!HoldsMu(pc) ==> !f.side.UnlockMu? && (f.side.LockMu? ==> !s.locked && HoldsMu(f.next)))
    && (forall k :: 0 <= k < |f.spawned| ==> !HoldsMu(f.spawned[k]))
    && (f.op.PutSlot? || f.op.PutBoth? || f.op.Replace? ==> HoldsMu(pc) || !s.locked)
  }

  lemma RequestKeepsLock(c: Config, s: State, pc: Pc, ch: Choice)
    requires Ok(s) && PcOk(s.core, pc)
    ensures var f := PlanRequest(c, s, pc, ch); f.Some? ==> KeepsLock(s, pc, f.value)
  {
    hide SameGeneration, WantsRecycle, CheckAcquired, OutOfService;
  }

  lemma BootKeepsLock(c: Config, s: State, pc: Pc, ch: Choice)
    requires Ok(s) && PcOk(s.core, pc)
    ensures var f := PlanBoot(c, s, pc, ch); f.Some? ==> KeepsLock(s, pc, f.value)
  {
    hide RecordCrash, SlotFailed, Accepting;
  }

  lemma WireKeepsLock(c: Config, s: State, pc: Pc, ch: Choice)
    requires Ok(s) && PcOk(s.core, pc)
    ensures var f := PlanSender(s, pc, ch); f.Some? ==> KeepsLock(s, pc, f.value)
    ensures var f := PlanOutside(c, s, pc, ch); f.Some? ==> KeepsLock(s, pc, f.value)
  {
    hide ValidResponse, MayWrite;
  }

  lemma MonitorKeepsLock(c: Config, s: State, pc: Pc, ch: Choice)
    requires Ok(s) && PcOk(s.core, pc)
    ensures var f := PlanMonitor(c, s, pc, ch); f.Some? ==> KeepsLock(s, pc, f.value)
  {
    hide RecordCrash, SlotFailed, PlanAfterExit, OwnsSlot, SameWorker;
  }

  lemma ControlKeepsLock(c: Config, s: State, pc: Pc)
    requires Ok(s) && PcOk(s.core, pc)
    ensures var f := PlanControl(c, s, pc); f.Some? ==> KeepsLock(s, pc, f.value)
  {
    hide Rescaled, MarkAll, Remaining, NothingToResize, Bootable, Spared;
  }

  lemma PlanKeepsLock(c: Config, s: State, pc: Pc, ch: Choice)
    requires Ok(s) && PcOk(s.core, pc)
    ensures var f := Plan(c, s, pc, ch); f.Some? ==> KeepsLock(s, pc, f.value)
  {
    hide PlanRequest, PlanSender, PlanBoot, PlanMonitor, PlanControl, PlanOutside, PcOk, KeepsLock;
    RequestKeepsLock(c, s, pc, ch);
    BootKeepsLock(c, s, pc, ch);
    WireKeepsLock(c, s, pc, ch);
    MonitorKeepsLock(c, s, pc, ch);
    ControlKeepsLock(c, s, pc);
  }

  lemma LockPreserved(s: State, t: nat, f: Effect)
    requires Ok(s) && t < |s.threads| && OpOk(s.core, f.op)
    requires LockExclusive(s) && KeepsLock(s, s.threads[t], f)
    ensures LockExclusive(Perform(s, t, f))
  {
    hide PcOk, CoreOk, HoldsMu;
  }
}
