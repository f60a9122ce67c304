/** Every reference and slot number a thread carries stays meaningful, so a run never leaves Ok. */
module PoolWellFormed {
  import opened PoolModel
  import opened PoolMachine

  lemma PcOkGrows(p: Core, q: Core, pc: Pc)
    requires Grows(p, q) && PcOk(p, pc)
    ensures PcOk(q, pc)
  {
  }

  ghost predicate EffectOk(s: State, f: Effect)
    requires Ok(s) && OpOk(s.core, f.op)
  {
    && PcOk(ApplyOp(s.core, f.op), f.next)
    && (forall k :: 0 <= k < |f.spawned| ==> PcOk(ApplyOp(s.core, f.op), f.spawned[k]))
  }

  lemma RequestOk(c: Config, s: State, pc: Pc, ch: Choice)
    requires Ok(s) && PcOk(s.core, pc)
    ensures var f := PlanRequest(c, s, pc, ch); f.Some? ==> EffectOk(s, f.value)
  {
    hide SameGeneration, WantsRecycle, CheckAcquired, OutOfService;
  }

  lemma SenderOk(s: State, pc: Pc, ch: Choice)
    requires Ok(s) && PcOk(s.core, pc)
    ensures var f := PlanSender(s, pc, ch); f.Some? ==> EffectOk(s, f.value)
  {
  }

  lemma BootOk(c: Config, s: State, pc: Pc, ch: Choice)
    requires Ok(s) && PcOk(s.core, pc)
    ensures var f := PlanBoot(c, s, pc, ch); f.Some? ==> EffectOk(s, f.value)
  {
    hide RecordCrash, SlotFailed, Accepting;
  }

  lemma MonitorOk(c: Config, s: State, pc: Pc, ch: Choice)
    requires Ok(s) && PcOk(s.core, pc)
    ensures var f := PlanMonitor(c, s, pc, ch); f.Some? ==> EffectOk(s, f.value)
  {
    hide RecordCrash, SlotFailed, PlanAfterExit, OwnsSlot, SameWorker;
  }

  lemma ResizeOk(c: Config, s: State, pc: Pc)
    requires Ok(s) && PcOk(s.core, pc) && (pc.ResizeStart? || pc.ResizeNext? || pc.ResizeScan? || pc.ResizeMark?)
    ensures var f := PlanControl(c, s, pc); f.Some? ==> EffectOk(s, f.value)
  {
    hide NothingToResize, Bootable, Spared, Rescaled;
    if pc.ResizeScan? && pc.i < |s.core.slots| {
      assert Installable(s.core, pc.i + 1, s.core.slots[pc.i].worker);
    }
  }

  lemma MarkOk(c: Config, s: State, pc: Pc)
    requires Ok(s) && PcOk(s.core, pc) && pc.StopMark?
    ensures var f := PlanControl(c, s, pc); f.Some? ==> EffectOk(s, f.value)
  {
    hide MarkAll, Remaining;
    RemainingOk(s.core);
  }

  lemma ControlOk(c: Config, s: State, pc: Pc)
    requires Ok(s) && PcOk(s.core, pc)
    ensures var f := PlanControl(c, s, pc); f.Some? ==> EffectOk(s, f.value)
  {
    if pc.ResizeStart? || pc.ResizeNext? || pc.ResizeScan? || pc.ResizeMark? {
      ResizeOk(c, s, pc);
      hide PlanControl, PcOk;
    } else if pc.StopMark? {
      MarkOk(c, s, pc);
      hide PlanControl, PcOk;
    } else {
      hide CoreOk, AllCountedDone;
    }
  }

  lemma RemainingOk(p: Core)
    requires CoreOk(p)
    ensures forall k :: 0 <= k < |Remaining(p.slots)| ==> ValidRef(p, Remaining(p.slots)[k])
  {
    forall k | 0 <= k < |Remaining(p.slots)| ensures ValidRef(p, Remaining(p.slots)[k]) {
      var i := RemainingSound(p.slots, k);
      assert Installable(p, i + 1, p.slots[i].worker);
    }
  }

  lemma OutsideOk(c: Config, s: State, pc: Pc, ch: Choice)
    requires Ok(s) && PcOk(s.core, pc)
    ensures var f := PlanOutside(c, s, pc, ch); f.Some? ==> EffectOk(s, f.value)
  {
  }

  lemma PlanOk(c: Config, s: State, pc: Pc, ch: Choice)
    requires Ok(s) && PcOk(s.core, pc)
    ensures var f := Plan(c, s, pc, ch); f.Some? ==> EffectOk(s, f.value)
  {
    hide PlanRequest, PlanSender, PlanBoot, PlanMonitor, PlanControl, PlanOutside, PcOk;
    RequestOk(c, s, pc, ch);
    SenderOk(s, pc, ch);
    BootOk(c, s, pc, ch);
    MonitorOk(c, s, pc, ch);
    ControlOk(c, s, pc);
    OutsideOk(c, s, pc, ch);
  }

  lemma PerformOk(s: State, t: nat, f: Effect)
    requires Ok(s) && t < |s.threads| && OpOk(s.core, f.op) && EffectOk(s, f)
    ensures Ok(Perform(s, t, f))
  {
    var s' := Perform(s, t, f);
    forall u | 0 <= u < |s'.threads| ensures PcOk(s'.core, s'.threads[u]) {
      if u < |s.threads| && u != t {
        PcOkGrows(s.core, s'.core, s.threads[u]);
      }
    }
  }

  /** The step system never gets stuck in a meaningless state. */
  lemma StepKeepsOk(c: Config, s: State, e: Event, s': State)
    requires Step(c, s, e, s')
    ensures Ok(s') && Grows(s.core, s'.core)
  {
    hide PcOk, Plan;
    var f := Plan(c, s, s.threads[e.t], e.choice);
    PlanOk(c, s, s.threads[e.t], e.choice);
    PerformOk(s, e.t, f.value);
  }
}
