/**
 Generations decide identity: the pool compares workers by slot and generation only, and that is exact,
 because a slot never hands out a generation twice. A worker that has left its slot never comes back.
 */
module PoolIdentity {
  import opened Basics
  import opened Protocol
  import opened PoolModel
  import opened PoolMachine
  import opened PoolWellFormed
  import opened PoolOwnership

  /** The generation a booting goroutine drew for its slot. */
  ghost predicate Drew(pc: Pc, i: nat, gen: nat) {
    pc.BootRun? && pc.slot == i && pc.gen == gen
  }

  ghost predicate Installing(pc: Pc, w: Ref) {
    pc.BootInstall? && pc.w == w
  }

  ghost predicate Distinct(s: State)
    requires Ok(s)
  {
    WorkersDistinct(s.core) && DrawsFresh(s) && DrawsDistinct(s)
  }

  ghost predicate WorkersDistinct(p: Core)
    requires CoreOk(p)
  {
    && (forall r :: 0 <= r < |p.workers| ==> BelowCounter(p, r))
    && (forall q, r :: 0 <= q < r < |p.workers| ==>
          p.workers[q].slot != p.workers[r].slot || p.workers[q].gen != p.workers[r].gen)
  }

  ghost predicate BelowCounter(p: Core, r: Ref)
    requires CoreOk(p) && ValidRef(p, r)
  {
    p.workers[r].gen <= p.slots[p.workers[r].slot - 1].gen
  }

  ghost predicate DrawsFresh(s: State) {
    && (forall t :: 0 <= t < |s.threads| && s.threads[t].BootRun? ==> DrawnBelow(s.core, s.threads[t]))
    && (forall t, r :: 0 <= t < |s.threads| && 0 <= r < |s.core.workers| ==>
          !Drew(s.threads[t], s.core.workers[r].slot, s.core.workers[r].gen))
  }

  ghost predicate DrawsDistinct(s: State) {
    forall t, u :: 0 <= t < |s.threads| && 0 <= u < |s.threads| && t != u && s.threads[t].BootRun? ==>
      !Drew(s.threads[u], s.threads[t].slot, s.threads[t].gen)
  }

  ghost predicate DrawnBelow(p: Core, pc: Pc) {
    pc.BootRun? && ValidSlot(p, pc.slot) && pc.gen <= p.slots[pc.slot - 1].gen
  }

  /** A worker about to be installed is not installed yet. */
  ghost predicate NotYetInstalled(s: State)
    requires Ok(s)
  {
    forall t :: 0 <= t < |s.threads| && s.threads[t].BootInstall? ==> Pending(s.core, s.threads[t])
  }

  ghost predicate Pending(p: Core, pc: Pc)
    requires CoreOk(p) && PcOk(p, pc) && pc.BootInstall?
  {
    !Current(p, pc.w)
  }

  ghost predicate SlotMove(pc: Pc, f: Effect, i: nat, before: Slot, after: Slot) {
    && (after.gen == before.gen || (after.gen == before.gen + 1 && Drew(f.next, i, after.gen)))
    && (after.worker == before.worker
        || after.worker.None?
        || (pc.BootInstall? && pc.slot == i && after.worker == Some(pc.w) && !f.next.BootInstall?))
  }

  ghost predicate Draws(s: State, pc: Pc, f: Effect)
    requires Ok(s) && OpOk(s.core, f.op)
  {
    && (forall k :: 0 <= k < |f.spawned| ==> !f.spawned[k].BootRun? && !f.spawned[k].BootInstall?)
    && (f.next.BootRun? ==>
          f.op.PutSlot? && Drew(f.next, f.op.i, s.core.slots[f.op.i - 1].gen + 1) && f.op.slot.gen == f.next.gen)
    && (f.next.BootInstall? ==> f.op.AddWorker? && f.next.w == |s.core.workers|)
    && (f.op.AddWorker? ==> Drew(pc, f.op.worker.slot, f.op.worker.gen))
    && (f.op.PutSlot? ==> SlotMove(pc, f, f.op.i, s.core.slots[f.op.i - 1], f.op.slot))
    && (f.op.PutBoth? ==> SlotMove(pc, f, f.op.i, s.core.slots[f.op.i - 1], f.op.slot))
  }

  lemma RequestDraws(c: Config, s: State, pc: Pc, ch: Choice)
    requires Ok(s) && PcOk(s.core, pc)
    ensures var f := PlanRequest(c, s, pc, ch); f.Some? ==> Draws(s, pc, f.value)
  {
    hide SameGeneration, WantsRecycle, CheckAcquired, OutOfService, InPool, CoreOk;
  }

  lemma BootDraws(c: Config, s: State, pc: Pc, ch: Choice)
    requires Ok(s) && PcOk(s.core, pc)
    ensures var f := PlanBoot(c, s, pc, ch); f.Some? ==> Draws(s, pc, f.value)
  {
    hide RecordCrash, SlotFailed, ValidResponse, Accepting, MayWrite;
  }

  lemma WireDraws(c: Config, s: State, pc: Pc, ch: Choice)
    requires Ok(s) && PcOk(s.core, pc)
    ensures var f := PlanSender(s, pc, ch); f.Some? ==> Draws(s, pc, f.value)
    ensures var f := PlanOutside(c, s, pc, ch); f.Some? ==> Draws(s, pc, f.value)
  {
    hide RecordCrash, SlotFailed, ValidResponse, Accepting, MayWrite;
  }

  lemma MonitorDraws(c: Config, s: State, pc: Pc, ch: Choice)
    requires Ok(s) && PcOk(s.core, pc)
    ensures var f := PlanMonitor(c, s, pc, ch); f.Some? ==> Draws(s, pc, f.value)
  {
    hide RecordCrash, SlotFailed, PlanAfterExit, OwnsSlot, SameWorker;
  }

  lemma ControlDraws(c: Config, s: State, pc: Pc)
    requires Ok(s) && PcOk(s.core, pc)
    ensures var f := PlanControl(c, s, pc); f.Some? ==> Draws(s, pc, f.value)
  {
    hide Rescaled, MarkAll, Remaining, NothingToResize, Bootable, Spared;
  }

  lemma PlanDraws(c: Config, s: State, pc: Pc, ch: Choice)
    requires Ok(s) && PcOk(s.core, pc)
    ensures var f := Plan(c, s, pc, ch); f.Some? ==> Draws(s, pc, f.value)
  {
    hide PlanRequest, PlanSender, PlanBoot, PlanMonitor, PlanControl, PlanOutside, PcOk, Draws;
    RequestDraws(c, s, pc, ch);
    BootDraws(c, s, pc, ch);
    WireDraws(c, s, pc, ch);
    MonitorDraws(c, s, pc, ch);
    ControlDraws(c, s, pc);
  }

  lemma DrawsKeepWorkersDistinct(s: State, t: nat, f: Effect)
    requires Ok(s) && t < |s.threads| && OpOk(s.core, f.op) && EffectOk(s, f)
    requires WorkersDistinct(s.core) && DrawsFresh(s) && Draws(s, s.threads[t], f)
    ensures WorkersDistinct(Perform(s, t, f).core)
  {
    hide PcOk;
    var p, q := s.core, Perform(s, t, f).core;
    forall r | 0 <= r < |q.workers| ensures BelowCounter(q, r) {
      if r < |p.workers| {
        assert BelowCounter(p, r);
      } else {
        assert DrawnBelow(p, s.threads[t]);
      }
    }
  }

  lemma DrawsKeepFresh(s: State, t: nat, f: Effect)
    requires Ok(s) && t < |s.threads| && OpOk(s.core, f.op) && EffectOk(s, f)
    requires WorkersDistinct(s.core) && DrawsFresh(s) && DrawsDistinct(s) && Draws(s, s.threads[t], f)
    ensures DrawsFresh(Perform(s, t, f))
  {
    hide PcOk;
    var s' := Perform(s, t, f);
    forall u | 0 <= u < |s'.threads| && s'.threads[u].BootRun?
      ensures DrawnBelow(s'.core, s'.threads[u])
    {
      assert u < |s.threads|;
    }
    forall u, r | 0 <= u < |s'.threads| && 0 <= r < |s'.core.workers|
      ensures !Drew(s'.threads[u], s'.core.workers[r].slot, s'.core.workers[r].gen)
    {
      if s'.threads[u].BootRun? {
        assert u < |s.threads|;
        if r < |s.core.workers| {
          assert BelowCounter(s.core, r);
          assert !Drew(s.threads[u], s.core.workers[r].slot, s.core.workers[r].gen);
        } else {
          assert u != t && !Drew(s.threads[t], s.threads[u].slot, s.threads[u].gen);
        }
      }
    }
  }

  lemma DrawsKeepApart(s: State, t: nat, f: Effect)
    requires Ok(s) && t < |s.threads| && OpOk(s.core, f.op) && EffectOk(s, f)
    requires DrawsFresh(s) && DrawsDistinct(s) && Draws(s, s.threads[t], f)
    ensures DrawsDistinct(Perform(s, t, f))
  {
    hide PcOk;
    var s' := Perform(s, t, f);
    forall u, v | 0 <= u < |s'.threads| && 0 <= v < |s'.threads| && u != v && s'.threads[u].BootRun?
      ensures !Drew(s'.threads[v], s'.threads[u].slot, s'.threads[u].gen)
    {
      if s'.threads[v].BootRun? {
        assert u < |s.threads| && v < |s.threads|;
      }
    }
  }

  lemma DrawsKeepPending(s: State, t: nat, f: Effect)
    requires Ok(s) && t < |s.threads| && OpOk(s.core, f.op) && EffectOk(s, f)
    requires NotYetInstalled(s) && Exclusive(s) && Draws(s, s.threads[t], f)
    ensures Ok(Perform(s, t, f)) && NotYetInstalled(Perform(s, t, f))
  {
    PerformOk(s, t, f);
    hide PcOk;
  }

  /** The code's test by generation accepts exactly the installed worker. */
  lemma GenerationsDecideIdentity(p: Core, w: Ref)
    requires CoreOk(p) && WorkersDistinct(p) && ValidRef(p, w)
    ensures SameGeneration(p, w) <==> Current(p, w)
  {
    var i := p.workers[w].slot;
    assert Installable(p, i - 1 + 1, p.slots[i - 1].worker);
  }

  lemma InstalledByGeneration(s: State, w: Ref)
    requires Ok(s) && Distinct(s) && ValidRef(s.core, w)
    ensures SameGeneration(s.core, w) <==> Current(s.core, w)
  {
    GenerationsDecideIdentity(s.core, w);
  }

  /** The monitor's test by generation (344): it clears the slot only of its own worker. */
  lemma OwnsSlotIsCurrent(s: State, i: nat, w: Ref)
    requires Ok(s) && Distinct(s) && ValidRef(s.core, w) && ValidSlot(s.core, i) && s.core.workers[w].slot == i
    ensures OwnsSlot(s.core, i, w) <==> s.core.slots[i - 1].worker == Some(w)
  {
    InstalledByGeneration(s, w);
  }

  /** w has been replaced or cleared, and no goroutine is about to install it. */
  ghost predicate Departed(s: State, w: Ref)
    requires Ok(s)
  {
    && ValidRef(s.core, w) && !Current(s.core, w)
    && (forall t :: 0 <= t < |s.threads| ==> !Installing(s.threads[t], w))
  }

  lemma DepartedStaysDeparted(c: Config, s: State, e: Event, s': State, w: Ref)
    requires Step(c, s, e, s') && Departed(s, w)
    ensures Ok(s') && Departed(s', w)
  {
    StepKeepsOk(c, s, e, s');
    hide PcOk, Plan;
    var f := Plan(c, s, s.threads[e.t], e.choice).value;
    PlanDraws(c, s, s.threads[e.t], e.choice);
    DepartedSurvives(s, e.t, f, w);
  }

  lemma DepartedSurvives(s: State, t: nat, f: Effect, w: Ref)
    requires Ok(s) && t < |s.threads| && OpOk(s.core, f.op) && Draws(s, s.threads[t], f)
    requires Departed(s, w) && Ok(Perform(s, t, f))
    ensures Departed(Perform(s, t, f), w)
  {
    hide PcOk;
    var s' := Perform(s, t, f);
    forall u | 0 <= u < |s'.threads| ensures !Installing(s'.threads[u], w) {
      if u < |s.threads| && u != t {
        assert !Installing(s.threads[u], w);
      }
    }
    assert !Installing(s.threads[t], w);
  }

  /**
   What it means for the pool that w has departed: no acquire accepts it, and giving it back or
   discarding it changes neither a slot nor the idle channel.
   */
  lemma DepartedIsRejected(c: Config, s: State, w: Ref, resp: Response)
    requires Ok(s) && Distinct(s) && Departed(s, w)
    ensures CheckAcquired(s.core, w) != Plausible
    ensures DiscardCommit(s.core, w) == Keep
    ensures var (op, back) := ReleaseCommit(c, s.core, w, resp);
            !back && ApplyOp(s.core, op).slots == s.core.slots && ApplyOp(s.core, op).idle == s.core.idle
  {
    InstalledByGeneration(s, w);
  }
}
