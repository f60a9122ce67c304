/**
 The life of a slot in a fixed-size pool, at the granularity of single steps: one goroutine at a time looks
 after a slot - booting, watching, purging, or waiting to restart - so no slot ever has two processes, and a
 slot that has exceeded its crash limit is never booted again.
 */
module PoolLifecycle {
  import opened CrashPolicy
  import opened Basics
  import opened Protocol
  import opened PoolModel
  import opened PoolMachine
  import opened PoolWellFormed

  function ThenSlot(next: Then): Option<nat> {
    match next
    case ExitThen(i, _) => Some(i)
    case ResizeThen(_, _) => None
  }

  /** The slot a goroutine looks after. */
  function LooksAfter(pc: Pc): Option<nat> {
    match pc
    case BootStart(i, _, _) => Some(i)
    case BootRun(i, _, _, _) => Some(i)
    case BootFail(i, _, _) => Some(i)
    case BootInstall(i, _, _) => Some(i)
    case BootWatch(i, _, _) => Some(i)
    case Watch(i, _) => Some(i)
    case Clear(i, _, _) => Some(i)
    case AfterExit(i, _) => Some(i)
    case CrashExit(i) => Some(i)
    case PurgeStart(_, next) => ThenSlot(next)
    case PurgeLoop(_, _, next) => ThenSlot(next)
    case PurgeHand(_, _, _, next) => ThenSlot(next)
    case RestartWait(i, _) => Some(i)
    case RestartCheck(i, _) => Some(i)
    case _ => None
  }

  /** The worker whose process that goroutine keeps in its slot. */
  function Keeps(pc: Pc): Option<Ref> {
    match pc
    case BootWatch(_, w, _) => Some(w)
    case Watch(_, w) => Some(w)
    case Clear(_, w, _) => Some(w)
    case _ => None
  }

  predicate Resizes(pc: Pc) {
    match pc
    case ResizeStart(_) => true
    case ResizeNext(_, _) => true
    case ResizeScan(_, _, _, _) => true
    case ResizeMark(_, _, _, _, _) => true
    case PurgeStart(_, next) => next.ResizeThen?
    case PurgeLoop(_, _, next) => next.ResizeThen?
    case PurgeHand(_, _, _, next) => next.ResizeThen?
    case _ => false
  }

  /** A slot in the care of pc holds exactly the worker pc keeps, and is within its crash limit. */
  ghost predicate InCare(c: Config, p: Core, pc: Pc) {
    LooksAfter(pc).Some? ==>
      && ValidSlot(p, LooksAfter(pc).value)
      && p.slots[LooksAfter(pc).value - 1].worker == Keeps(pc)
      && !SlotFailed(c, p.slots[LooksAfter(pc).value - 1])
  }

  ghost predicate OneCarer(s: State) {
    forall t, u :: 0 <= t < u < |s.threads| && LooksAfter(s.threads[t]).Some? ==>
      LooksAfter(s.threads[t]) != LooksAfter(s.threads[u])
  }

  ghost predicate NeverResizes(s: State) {
    && s.core.desired == |s.core.slots|
    && (forall t :: 0 <= t < |s.threads| ==> !Resizes(s.threads[t]))
  }

  ghost predicate Cared(c: Config, s: State) {
    c.fixedSize ==>
      OneCarer(s) && NeverResizes(s) && forall t :: 0 <= t < |s.threads| ==> InCare(c, s.core, s.threads[t])
  }

  ghost predicate Cares(c: Config, s: State, pc: Pc, f: Effect)
    requires Ok(s) && OpOk(s.core, f.op)
  {
    && !Resizes(f.next) && (forall k :: 0 <= k < |f.spawned| ==> !Resizes(f.spawned[k]))
    && (LooksAfter(f.next).Some? ==> LooksAfter(f.next) == LooksAfter(pc))
    && (forall k :: 0 <= k < |f.spawned| && LooksAfter(f.spawned[k]).Some? ==>
          |f.spawned| == 1 && LooksAfter(f.spawned[k]) == LooksAfter(pc) && LooksAfter(f.next).None?)
    && (f.op.PutSlot? ==> LooksAfter(pc) == Some(f.op.i))
    && (f.op.PutBoth? ==>
          LooksAfter(pc) == Some(f.op.i)
          || (f.op.slot.worker == s.core.slots[f.op.i - 1].worker
              && f.op.slot.recent == s.core.slots[f.op.i - 1].recent))
    && (f.op.Replace? ==> f.op.core.desired == s.core.desired && |f.op.core.slots| == |s.core.slots|)
    && InCare(c, ApplyOp(s.core, f.op), f.next)
    && (forall k :: 0 <= k < |f.spawned| ==> InCare(c, ApplyOp(s.core, f.op), f.spawned[k]))
  }

  lemma GiveBackCares(c: Config, s: State, pc: Pc, ch: Choice)
    requires Ok(s) && PcOk(s.core, pc) && c.fixedSize && !Resizes(pc) && InCare(c, s.core, pc)
    requires pc.Release? || pc.Discard?
    ensures var f := PlanRequest(c, s, pc, ch); f.Some? ==> Cares(c, s, pc, f.value)
  {
    hide SameGeneration, WantsRecycle, CheckAcquired, OutOfService, SlotFailed;
  }

  lemma RequestCares(c: Config, s: State, pc: Pc, ch: Choice)
    requires Ok(s) && PcOk(s.core, pc) && c.fixedSize && !Resizes(pc) && InCare(c, s.core, pc)
    ensures var f := PlanRequest(c, s, pc, ch); f.Some? ==> Cares(c, s, pc, f.value)
  {
    if pc.Release? || pc.Discard? {
      GiveBackCares(c, s, pc, ch);
    } else {
      hide ReleaseCommit, DiscardCommit;
      hide CheckAcquired, OutOfService, SlotFailed;
    }
  }

  lemma InstallCares(c: Config, s: State, pc: Pc, ch: Choice)
    requires Ok(s) && PcOk(s.core, pc) && c.fixedSize && !Resizes(pc) && InCare(c, s.core, pc)
    requires pc.BootInstall? || pc.BootFail?
    ensures var f := PlanBoot(c, s, pc, ch); f.Some? ==> Cares(c, s, pc, f.value)
  {
    hide Recorded, Exceeded, Accepting;
  }

  lemma BootCares(c: Config, s: State, pc: Pc, ch: Choice)
    requires Ok(s) && PcOk(s.core, pc) && c.fixedSize && !Resizes(pc) && InCare(c, s.core, pc)
    ensures var f := PlanBoot(c, s, pc, ch); f.Some? ==> Cares(c, s, pc, f.value)
  {
    if pc.BootInstall? || pc.BootFail? {
      hide PlanBoot, Cares, PcOk, CoreOk;
      InstallCares(c, s, pc, ch);
    } else {
      hide Recorded, Exceeded, Accepting;
    }
  }

  lemma SenderCares(c: Config, s: State, pc: Pc, ch: Choice)
    requires Ok(s) && PcOk(s.core, pc) && c.fixedSize && !Resizes(pc) && InCare(c, s.core, pc)
    ensures var f := PlanSender(s, pc, ch); f.Some? ==> Cares(c, s, pc, f.value)
    ensures var f := PlanOutside(c, s, pc, ch); f.Some? ==> Cares(c, s, pc, f.value)
  {
    hide ValidResponse, SlotFailed;
  }

  lemma PurgeCares(c: Config, s: State, pc: Pc, ch: Choice)
    requires Ok(s) && PcOk(s.core, pc) && c.fixedSize && !Resizes(pc) && InCare(c, s.core, pc)
    requires pc.PurgeStart? || pc.PurgeLoop? || pc.PurgeHand?
    ensures var f := PlanMonitor(c, s, pc, ch); f.Some? ==> Cares(c, s, pc, f.value)
  {
    hide SlotFailed, SameWorker;
  }

  lemma ExitCares(c: Config, s: State, pc: Pc, ch: Choice)
    requires Ok(s) && PcOk(s.core, pc) && c.fixedSize && !Resizes(pc) && InCare(c, s.core, pc)
    requires !pc.PurgeStart? && !pc.PurgeLoop? && !pc.PurgeHand?
    ensures var f := PlanMonitor(c, s, pc, ch); f.Some? ==> Cares(c, s, pc, f.value)
  {
    hide Recorded, PlanAfterExit, Exceeded;
  }

  lemma MonitorCares(c: Config, s: State, pc: Pc, ch: Choice)
    requires Ok(s) && PcOk(s.core, pc) && c.fixedSize && !Resizes(pc) && InCare(c, s.core, pc)
    ensures var f := PlanMonitor(c, s, pc, ch); f.Some? ==> Cares(c, s, pc, f.value)
  {
    hide PlanMonitor, Cares, PcOk, InCare, Resizes;
    if pc.PurgeStart? || pc.PurgeLoop? || pc.PurgeHand? {
      PurgeCares(c, s, pc, ch);
    } else {
      ExitCares(c, s, pc, ch);
    }
  }

  lemma ControlCares(c: Config, s: State, pc: Pc)
    requires Ok(s) && PcOk(s.core, pc) && c.fixedSize && !Resizes(pc) && InCare(c, s.core, pc)
    ensures var f := PlanControl(c, s, pc); f.Some? ==> Cares(c, s, pc, f.value)
  {
    hide MarkedSlots, MarkedWorkers, Remaining, SlotFailed;
  }

  lemma PlanCares(c: Config, s: State, pc: Pc, ch: Choice)
    requires Ok(s) && PcOk(s.core, pc) && c.fixedSize && !Resizes(pc) && InCare(c, s.core, pc)
    ensures var f := Plan(c, s, pc, ch); f.Some? ==> Cares(c, s, pc, f.value)
  {
    hide PlanRequest, PlanSender, PlanBoot, PlanMonitor, PlanControl, PlanOutside, PcOk, Cares;
    RequestCares(c, s, pc, ch);
    BootCares(c, s, pc, ch);
    SenderCares(c, s, pc, ch);
    MonitorCares(c, s, pc, ch);
    ControlCares(c, s, pc);
  }

  lemma CarePreserved(c: Config, s: State, t: nat, f: Effect)
    requires Ok(s) && t < |s.threads| && OpOk(s.core, f.op) && EffectOk(s, f)
    requires c.fixedSize && Cared(c, s) && Cares(c, s, s.threads[t], f)
    ensures Cared(c, Perform(s, t, f))
  {
    hide PcOk, LooksAfter, Keeps, Resizes, InCare;
    var s' := Perform(s, t, f);
    forall u | 0 <= u < |s'.threads| ensures InCare(c, s'.core, s'.threads[u]) {
      if u < |s.threads| && u != t {
        OtherStaysInCare(c, s, t, f, u);
      }
    }
  }

  lemma OtherStaysInCare(c: Config, s: State, t: nat, f: Effect, u: nat)
    requires Ok(s) && t < |s.threads| && OpOk(s.core, f.op)
    requires c.fixedSize && Cared(c, s) && Cares(c, s, s.threads[t], f)
    requires u < |s.threads| && u != t
    ensures InCare(c, ApplyOp(s.core, f.op), s.threads[u])
  {
    hide PcOk, LooksAfter, Keeps, Resizes, Exceeded;
    assert InCare(c, s.core, s.threads[u]);
    if u < t {
      assert LooksAfter(s.threads[u]).Some? ==> LooksAfter(s.threads[u]) != LooksAfter(s.threads[t]);
    } else {
      assert LooksAfter(s.threads[t]).Some? ==> LooksAfter(s.threads[t]) != LooksAfter(s.threads[u]);
    }
  }

  /** A goroutine whose worker process may be alive: it has been started and its exit has not been seen. */
  ghost predicate RunsProcess(pc: Pc, i: nat) {
    (pc.BootRun? || pc.BootInstall? || pc.BootWatch? || pc.Watch?) && pc.slot == i
  }

  lemma OneProcessPerSlot(c: Config, s: State, i: nat, t: nat, u: nat)
    requires c.fixedSize && Cared(c, s)
    requires t < |s.threads| && u < |s.threads| && RunsProcess(s.threads[t], i) && RunsProcess(s.threads[u], i)
    ensures t == u
  {
  }

  /** A slot with more than restart_limit crashes in the window is Failed, and stays so, whatever happens. */
  lemma FailedStaysFailed(c: Config, s: State, e: Event, s': State, i: nat)
    requires Step(c, s, e, s') && c.fixedSize && Cared(c, s)
    requires i < |s.core.slots| && SlotFailed(c, s.core.slots[i])
    ensures i < |s'.core.slots| && SlotFailed(c, s'.core.slots[i]) && s'.core.slots[i].gen == s.core.slots[i].gen
  {
    hide PcOk, Plan, LooksAfter, Keeps, Exceeded, Resizes;
    var pc := s.threads[e.t];
    assert InCare(c, s.core, pc);
    assert !Resizes(pc);
    PlanCares(c, s, pc, e.choice);
    PlanKeepsGenerations(c, s, pc, e.choice);
  }

  ghost predicate DrawsOnlyInCare(s: State, pc: Pc, f: Effect)
    requires Ok(s) && OpOk(s.core, f.op)
  {
    f.op.PutBoth? ==> f.op.slot.gen == s.core.slots[f.op.i - 1].gen
  }

  lemma RequestKeepsGenerations(c: Config, s: State, pc: Pc, ch: Choice)
    requires Ok(s) && PcOk(s.core, pc)
    ensures var f := PlanRequest(c, s, pc, ch); f.Some? ==> DrawsOnlyInCare(s, pc, f.value)
  {
    hide SameGeneration, WantsRecycle, CheckAcquired, OutOfService;
  }

  lemma BootKeepsGenerations(c: Config, s: State, pc: Pc, ch: Choice)
    requires Ok(s) && PcOk(s.core, pc)
    ensures var f := PlanBoot(c, s, pc, ch); f.Some? ==> DrawsOnlyInCare(s, pc, f.value)
    ensures var f := PlanSender(s, pc, ch); f.Some? ==> DrawsOnlyInCare(s, pc, f.value)
    ensures var f := PlanOutside(c, s, pc, ch); f.Some? ==> DrawsOnlyInCare(s, pc, f.value)
  {
    hide RecordCrash, SlotFailed, ValidResponse, Accepting, MayWrite;
  }

  lemma MonitorKeepsGenerations(c: Config, s: State, pc: Pc, ch: Choice)
    requires Ok(s) && PcOk(s.core, pc)
    ensures var f := PlanMonitor(c, s, pc, ch); f.Some? ==> DrawsOnlyInCare(s, pc, f.value)
    ensures var f := PlanControl(c, s, pc); f.Some? ==> DrawsOnlyInCare(s, pc, f.value)
  {
    hide RecordCrash, SlotFailed, PlanAfterExit, OwnsSlot, SameWorker, Rescaled;
    hide MarkAll, Remaining, NothingToResize, Bootable, Spared;
  }

  lemma PlanKeepsGenerations(c: Config, s: State, pc: Pc, ch: Choice)
    requires Ok(s) && PcOk(s.core, pc)
    ensures var f := Plan(c, s, pc, ch); f.Some? ==> DrawsOnlyInCare(s, pc, f.value)
  {
    hide PlanRequest, PlanSender, PlanBoot, PlanMonitor, PlanControl, PlanOutside, PcOk, DrawsOnlyInCare;
    RequestKeepsGenerations(c, s, pc, ch);
    BootKeepsGenerations(c, s, pc, ch);
    MonitorKeepsGenerations(c, s, pc, ch);
  }
}
