/**
 Scale-down is safe at the granularity of single steps: exactly the slots above `desired` are retired,
 nothing is installed there, and no worker there is ever Idle, that is, open to a request - except the ones that
 the section of SetDesired now at work has not reached.
 */
module PoolSizing {
  import opened Basics
  import opened Protocol
  import opened PoolModel
  import opened PoolMachine
  import opened PoolWellFormed
  import opened PoolLocking

  ghost predicate Sized(c: Config, p: Core)
    requires CoreOk(p)
  {
    && c.minWorkers <= p.desired <= c.maxWorkers
    && 0 <= p.desired <= |p.slots| <= c.maxWorkers
    && (forall i :: 0 <= i < |p.slots| ==> (p.slots[i].retired <==> i + 1 > p.desired))
  }

  ghost predicate RetiredIsNotIdle(p: Core, i: nat)
    requires CoreOk(p) && i < |p.slots|
  {
    assert Installable(p, i + 1, p.slots[i].worker);
    p.slots[i].retired && p.slots[i].worker.Some? ==> p.workers[p.slots[i].worker.value].state != Idle
  }

  predicate Scanning(pc: Pc) { pc.ResizeScan? || pc.ResizeMark? }

  /** A section of SetDesired at work has not passed slot i. */
  ghost predicate Unscanned(s: State, i: nat) {
    exists t :: 0 <= t < |s.threads| && Scanning(s.threads[t]) && s.threads[t].i <= i
  }

  ghost predicate RetiredAway(s: State)
    requires CoreOk(s.core)
  {
    forall i :: 0 <= i < |s.core.slots| ==> RetiredIsNotIdle(s.core, i) || Unscanned(s, i)
  }

  /** The section works towards the size the pool has, and marks the worker of the slot it stands at. */
  ghost predicate ScanCurrent(p: Core, pc: Pc) {
    && (Scanning(pc) ==> pc.n == p.desired)
    && (pc.ResizeMark? ==> pc.i < |p.slots| && pc.i + 1 > pc.n && p.slots[pc.i].worker == Some(pc.w))
  }

  ghost predicate ScansCurrent(s: State) {
    forall t :: 0 <= t < |s.threads| ==> ScanCurrent(s.core, s.threads[t])
  }

  ghost predicate KeepsSize(c: Config, s: State, pc: Pc, f: Effect)
    requires Ok(s) && OpOk(s.core, f.op)
  {
    match f.op
    case Replace(q) => Sized(c, q) && (FlagsOnly(s.core, q) || (f.next.ResizeScan? && f.next.i == 0))
    case PutWorker(w, wk) => wk.state != Idle || s.core.workers[w].state == Idle || !s.core.slots[wk.slot - 1].retired
    case PutSlot(i, sl) => KeepsFlag(s.core.slots[i - 1], sl)
    case PutBoth(w, wk, i, sl) => wk.state != Idle && KeepsFlag(s.core.slots[i - 1], sl)
    case _ => true
  }

  /** Nothing is retired and nobody becomes Idle. */
  ghost predicate FlagsOnly(p: Core, q: Core)
    requires Grows(p, q)
  {
    && |q.slots| == |p.slots|
    && (forall i :: 0 <= i < |p.slots| ==> q.slots[i].retired == p.slots[i].retired)
    && (forall r :: 0 <= r < |p.workers| ==> q.workers[r].state != Idle || p.workers[r].state == Idle)
  }

  ghost predicate KeepsFlag(before: Slot, after: Slot) {
    && after.retired == before.retired
    && (after.worker == before.worker || after.worker.None? || !before.retired)
  }

  /** How the section of SetDesired moves from slot to slot. */
  ghost predicate Scans(s: State, pc: Pc, f: Effect)
    requires Ok(s) && OpOk(s.core, f.op)
  {
    var q := ApplyOp(s.core, f.op);
    && ScanCurrent(q, f.next)
    && (forall k :: 0 <= k < |f.spawned| ==> !Scanning(f.spawned[k]))
    && (Scanning(pc) ==> forall i :: pc.i <= i < |q.slots| ==>
          RetiredIsNotIdle(q, i) || (Scanning(f.next) && f.next.i <= i))
  }

  lemma RescaledIsSized(c: Config, p: Core, target: int)
    requires CoreOk(p) && GoodConfig(c) && Sized(c, p)
    ensures Sized(c, Rescaled(p, ClampTarget(c, target)))
  {
  }

  lemma MarkingIsSized(c: Config, p: Core)
    requires CoreOk(p) && Sized(c, p)
    ensures Sized(c, MarkAll(p)) && FlagsOnly(p, MarkAll(p))
  {
  }

  lemma GiveBackKeepsSize(c: Config, s: State, pc: Pc, ch: Choice)
    requires Ok(s) && PcOk(s.core, pc) && GoodConfig(c) && Sized(c, s.core)
    requires pc.Release? || pc.Discard?
    ensures var f := PlanRequest(c, s, pc, ch); f.Some? ==> KeepsSize(c, s, pc, f.value)
  {
    hide SameGeneration, WantsRecycle;
  }

  lemma RequestKeepsSize(c: Config, s: State, pc: Pc, ch: Choice)
    requires Ok(s) && PcOk(s.core, pc) && GoodConfig(c) && Sized(c, s.core)
    ensures var f := PlanRequest(c, s, pc, ch); f.Some? ==> KeepsSize(c, s, pc, f.value)
  {
    if pc.Release? || pc.Discard? {
      GiveBackKeepsSize(c, s, pc, ch);
    } else {
      hide ReleaseCommit, DiscardCommit;
      hide WantsRecycle;
    }
  }

  lemma BootKeepsSize(c: Config, s: State, pc: Pc, ch: Choice)
    requires Ok(s) && PcOk(s.core, pc) && GoodConfig(c) && Sized(c, s.core)
    ensures var f := PlanBoot(c, s, pc, ch); f.Some? ==> KeepsSize(c, s, pc, f.value)
    ensures var f := PlanSender(s, pc, ch); f.Some? ==> KeepsSize(c, s, pc, f.value)
    ensures var f := PlanOutside(c, s, pc, ch); f.Some? ==> KeepsSize(c, s, pc, f.value)
  {
    hide RecordCrash, SlotFailed, ValidResponse;
  }

  lemma MonitorKeepsSize(c: Config, s: State, pc: Pc, ch: Choice)
    requires Ok(s) && PcOk(s.core, pc) && GoodConfig(c) && Sized(c, s.core)
    ensures var f := PlanMonitor(c, s, pc, ch); f.Some? ==> KeepsSize(c, s, pc, f.value)
  {
    hide RecordCrash, SlotFailed, PlanAfterExit, OwnsSlot, SameWorker, Sized, ApplyOp;
  }

  lemma ControlKeepsSize(c: Config, s: State, pc: Pc)
    requires Ok(s) && PcOk(s.core, pc) && GoodConfig(c) && Sized(c, s.core)
    ensures var f := PlanControl(c, s, pc); f.Some? ==> KeepsSize(c, s, pc, f.value)
  {
    hide Rescaled, MarkAll, Remaining, NothingToResize, Bootable, Sized, ApplyOp;
    StopIsSized(c, s.core);
    MarkingIsSized(c, s.core);
    if pc.ResizeStart? {
      RescaledIsSized(c, s.core, pc.wanted);
    }
  }

  lemma MonitorScans(c: Config, s: State, pc: Pc, ch: Choice)
    requires Ok(s) && PcOk(s.core, pc)
    ensures var f := PlanMonitor(c, s, pc, ch); f.Some? ==> Scans(s, pc, f.value)
    ensures var f := PlanBoot(c, s, pc, ch); f.Some? ==> Scans(s, pc, f.value)
  {
    hide RecordCrash, SlotFailed, PlanAfterExit, OwnsSlot, SameWorker, Accepting, ApplyOp;
  }

  lemma RequestScans(c: Config, s: State, pc: Pc, ch: Choice)
    requires Ok(s) && PcOk(s.core, pc)
    ensures var f := PlanRequest(c, s, pc, ch); f.Some? ==> Scans(s, pc, f.value)
    ensures var f := PlanSender(s, pc, ch); f.Some? ==> Scans(s, pc, f.value)
    ensures var f := PlanOutside(c, s, pc, ch); f.Some? ==> Scans(s, pc, f.value)
  {
    hide ReleaseCommit, DiscardCommit, CheckAcquired, ValidResponse, MayWrite, ApplyOp;
  }

  lemma ScanScans(c: Config, s: State, pc: Pc)
    requires Ok(s) && PcOk(s.core, pc) && Sized(c, s.core) && ScanCurrent(s.core, pc) && Scanning(pc)
    ensures var f := PlanControl(c, s, pc); f.Some? ==> Scans(s, pc, f.value)
  {
    hide Bootable;
    if pc.i < |s.core.slots| {
      assert Installable(s.core, pc.i + 1, s.core.slots[pc.i].worker);
    }
  }

  lemma ControlScans(c: Config, s: State, pc: Pc)
    requires Ok(s) && PcOk(s.core, pc) && Sized(c, s.core) && ScanCurrent(s.core, pc)
    ensures var f := PlanControl(c, s, pc); f.Some? ==> Scans(s, pc, f.value)
  {
    if Scanning(pc) {
      ScanScans(c, s, pc);
    } else {
      hide MarkAll, Remaining, NothingToResize, Bootable, Sized;
    }
  }

  lemma PlanScans(c: Config, s: State, pc: Pc, ch: Choice)
    requires Ok(s) && PcOk(s.core, pc) && Sized(c, s.core) && ScanCurrent(s.core, pc)
    ensures var f := Plan(c, s, pc, ch); f.Some? ==> Scans(s, pc, f.value)
  {
    hide PlanRequest, PlanSender, PlanBoot, PlanMonitor, PlanControl, PlanOutside, PcOk, Scans, Sized, ScanCurrent;
    MonitorScans(c, s, pc, ch);
    RequestScans(c, s, pc, ch);
    ControlScans(c, s, pc);
  }

  lemma PlanKeepsSize(c: Config, s: State, pc: Pc, ch: Choice)
    requires Ok(s) && PcOk(s.core, pc) && GoodConfig(c) && Sized(c, s.core)
    ensures var f := Plan(c, s, pc, ch); f.Some? ==> KeepsSize(c, s, pc, f.value)
  {
    hide PlanRequest, PlanSender, PlanBoot, PlanMonitor, PlanControl, PlanOutside, PcOk, KeepsSize;
    RequestKeepsSize(c, s, pc, ch);
    BootKeepsSize(c, s, pc, ch);
    MonitorKeepsSize(c, s, pc, ch);
    ControlKeepsSize(c, s, pc);
  }

  lemma StopIsSized(c: Config, p: Core)
    requires CoreOk(p) && Sized(c, p)
    ensures CoreOk(p.(stopping := true)) && Sized(c, p.(stopping := true)) && FlagsOnly(p, p.(stopping := true))
  {
    forall i | 0 <= i < |p.slots| ensures Installable(p.(stopping := true), i + 1, p.slots[i].worker) {
      assert Installable(p, i + 1, p.slots[i].worker);
    }
  }

  lemma SizePreserved(c: Config, s: State, t: nat, f: Effect)
    requires Ok(s) && t < |s.threads| && OpOk(s.core, f.op) && EffectOk(s, f)
    requires Sized(c, s.core) && KeepsSize(c, s, s.threads[t], f)
    ensures Sized(c, Perform(s, t, f).core)
  {
    hide PcOk;
  }

  /** While another goroutine is in the section nobody writes what it works on. */
  lemma ScansPreserved(s: State, t: nat, f: Effect)
    requires Ok(s) && t < |s.threads| && OpOk(s.core, f.op)
    requires LockExclusive(s) && KeepsLock(s, s.threads[t], f)
    requires ScansCurrent(s) && Scans(s, s.threads[t], f)
    ensures ScansCurrent(Perform(s, t, f))
  {
    hide PcOk, CoreOk;
    var s' := Perform(s, t, f);
    forall u | 0 <= u < |s'.threads| ensures ScanCurrent(s'.core, s'.threads[u]) {
      if u < |s.threads| && u != t && Scanning(s.threads[u]) {
        assert HoldsMu(s.threads[u]) && !HoldsMu(s.threads[t]);
        assert ScanCurrent(s.core, s.threads[u]);
        assert s'.core.slots == s.core.slots && s'.core.desired == s.core.desired;
      }
    }
  }

  lemma NotIdleStays(c: Config, s: State, pc: Pc, f: Effect, i: nat)
    requires Ok(s) && OpOk(s.core, f.op) && KeepsSize(c, s, pc, f)
    requires !(f.op.Replace? && f.next.ResizeScan? && f.next.i == 0)
    requires i < |s.core.slots| && RetiredIsNotIdle(s.core, i)
    ensures RetiredIsNotIdle(ApplyOp(s.core, f.op), i)
  {
    hide PcOk;
    assert Installable(s.core, i + 1, s.core.slots[i].worker);
  }

  lemma RetiredStayAway(c: Config, s: State, t: nat, f: Effect)
    requires Ok(s) && t < |s.threads| && OpOk(s.core, f.op)
    requires RetiredAway(s) && KeepsSize(c, s, s.threads[t], f) && Scans(s, s.threads[t], f)
    ensures RetiredAway(Perform(s, t, f))
  {
    hide PcOk, CoreOk, KeepsSize, RetiredIsNotIdle, ScanCurrent;
    var s' := Perform(s, t, f);
    assert s'.threads[t] == f.next;
    if f.op.Replace? && f.next.ResizeScan? && f.next.i == 0 {
      assert forall i: nat :: Unscanned(s', i);
    } else {
      SlotsStayPut(c, s, s.threads[t], f);
      forall i | 0 <= i < |s'.core.slots| ensures RetiredIsNotIdle(s'.core, i) || Unscanned(s', i) {
        if RetiredIsNotIdle(s.core, i) {
          NotIdleStays(c, s, s.threads[t], f, i);
        } else {
          var u :| 0 <= u < |s.threads| && Scanning(s.threads[u]) && s.threads[u].i <= i;
          assert u != t ==> s'.threads[u] == s.threads[u];
        }
      }
    }
  }

  lemma SlotsStayPut(c: Config, s: State, pc: Pc, f: Effect)
    requires Ok(s) && OpOk(s.core, f.op) && KeepsSize(c, s, pc, f)
    requires !(f.op.Replace? && f.next.ResizeScan? && f.next.i == 0)
    ensures |ApplyOp(s.core, f.op).slots| == |s.core.slots|
  {
  }

  /** bootSlot never installs a worker in a slot above desired, nor once the pool is stopping. */
  lemma NothingInstalledAboveDesired(c: Config, s: State, e: Event, s': State, i: nat)
    requires Step(c, s, e, s') && Ok(s') && Sized(c, s.core)
    requires i < |s.core.slots| <= |s'.core.slots|
    requires s.core.stopping || i + 1 > s.core.desired
    ensures s'.core.slots[i].worker == s.core.slots[i].worker || s'.core.slots[i].worker.None?
  {
    hide PcOk, Plan;
    PlanInstalls(c, s, s.threads[e.t], e.choice);
  }

  ghost predicate InstallsOnlyIfAccepting(s: State, f: Effect)
    requires Ok(s) && OpOk(s.core, f.op)
  {
    && (f.op.PutSlot? ==> f.op.slot.worker == s.core.slots[f.op.i - 1].worker || f.op.slot.worker.None?
                          || Accepting(s.core, f.op.i))
    && (f.op.PutBoth? ==> f.op.slot.worker == s.core.slots[f.op.i - 1].worker || f.op.slot.worker.None?)
  }

  lemma GiveBackInstalls(c: Config, s: State, pc: Pc, ch: Choice)
    requires Ok(s) && PcOk(s.core, pc)
    requires pc.Release? || pc.Discard?
    ensures var f := PlanRequest(c, s, pc, ch); f.Some? ==> InstallsOnlyIfAccepting(s, f.value)
  {
    hide SameGeneration, WantsRecycle, CheckAcquired, OutOfService;
  }

  lemma RequestInstalls(c: Config, s: State, pc: Pc, ch: Choice)
    requires Ok(s) && PcOk(s.core, pc)
    ensures var f := PlanRequest(c, s, pc, ch); f.Some? ==> InstallsOnlyIfAccepting(s, f.value)
  {
    if pc.Release? || pc.Discard? {
      GiveBackInstalls(c, s, pc, ch);
    } else {
      hide ReleaseCommit, DiscardCommit;
      hide CheckAcquired, OutOfService;
    }
  }

  lemma BootInstalls(c: Config, s: State, pc: Pc, ch: Choice)
    requires Ok(s) && PcOk(s.core, pc)
    ensures var f := PlanBoot(c, s, pc, ch); f.Some? ==> InstallsOnlyIfAccepting(s, f.value)
    ensures var f := PlanSender(s, pc, ch); f.Some? ==> InstallsOnlyIfAccepting(s, f.value)
    ensures var f := PlanOutside(c, s, pc, ch); f.Some? ==> InstallsOnlyIfAccepting(s, f.value)
  {
    hide RecordCrash, SlotFailed, ValidResponse, Accepting, MayWrite;
  }

  lemma MonitorInstalls(c: Config, s: State, pc: Pc, ch: Choice)
    requires Ok(s) && PcOk(s.core, pc)
    ensures var f := PlanMonitor(c, s, pc, ch); f.Some? ==> InstallsOnlyIfAccepting(s, f.value)
    ensures var f := PlanControl(c, s, pc); f.Some? ==> InstallsOnlyIfAccepting(s, f.value)
  {
    hide RecordCrash, SlotFailed, PlanAfterExit, OwnsSlot, SameWorker, Rescaled;
    hide MarkAll, Remaining, NothingToResize, Bootable, Spared;
  }

  lemma PlanInstalls(c: Config, s: State, pc: Pc, ch: Choice)
    requires Ok(s) && PcOk(s.core, pc)
    ensures var f := Plan(c, s, pc, ch); f.Some? ==> InstallsOnlyIfAccepting(s, f.value)
  {
    hide PlanRequest, PlanSender, PlanBoot, PlanMonitor, PlanControl, PlanOutside, PcOk, InstallsOnlyIfAccepting;
    RequestInstalls(c, s, pc, ch);
    BootInstalls(c, s, pc, ch);
    MonitorInstalls(c, s, pc, ch);
  }
}
