/**
 Exclusive ownership, at the granularity of single steps: in every reachable state a worker is in at most
 one place - the idle channel, the hand of a purge, or the hands of one thread - although the channel is
 not guarded by the mutex.
 */
module PoolOwnership {
  import opened Basics
  import opened PoolModel
  import opened PoolMachine
  import opened Protocol
  import opened PoolWellFormed

  /** The worker a thread has taken and not yet handed on. */
  function Held(pc: Pc): Option<Ref> {
    match pc
    case Check(w, _) => Some(w)
    case Inspect(w, _) => Some(w)
    case Claim(w, _) => Some(w)
    case LeaveQueue(got) => got
    case Send(w) => Some(w)
    case Await(w, _) => Some(w)
    case Release(w, _, _) => Some(w)
    case Return(w) => Some(w)
    case Discard(w) => Some(w)
    case BootInstall(_, w, _) => Some(w)
    case BootWatch(_, w, _) => Some(w)
    case BootPush(w, _) => Some(w)
    case PurgeHand(_, hand, _, _) => Some(hand)
    case StopWorker(w) => Some(w)
    case _ => None
  }

  ghost predicate Exclusive(s: State) {
    && NoDuplicates(s.core.idle)
    && (forall t, k :: 0 <= t < |s.threads| && 0 <= k < |s.core.idle| ==> Held(s.threads[t]) != Some(s.core.idle[k]))
    && (forall t, u :: 0 <= t < u < |s.threads| && Held(s.threads[t]).Some? ==>
          Held(s.threads[t]) != Held(s.threads[u]))
  }

  /** How a step may pass a worker from hand to hand. */
  ghost predicate HandsOn(s: State, pc: Pc, f: Effect)
    requires OpOk(s.core, f.op)
  {
    && (forall k :: 0 <= k < |f.spawned| ==> Held(f.spawned[k]).None?)
    && (match f.op
        case TakeIdle => Held(pc).None? && (Held(f.next).None? || Held(f.next) == Some(s.core.idle[0]))
        case PutIdle(w) => Held(pc) == Some(w) && Held(f.next).None?
        case AddWorker(_) => Held(pc).None? && (Held(f.next).None? || Held(f.next) == Some(|s.core.workers|))
        case _ => Held(f.next).None? || Held(f.next) == Held(pc))
  }

  lemma RequestHandsOn(c: Config, s: State, pc: Pc, ch: Choice)
    requires Ok(s) && PcOk(s.core, pc)
    ensures var f := PlanRequest(c, s, pc, ch); f.Some? ==> HandsOn(s, pc, f.value)
  {
    hide SameGeneration, WantsRecycle, CheckAcquired, OutOfService;
  }

  lemma BootHandsOn(c: Config, s: State, pc: Pc, ch: Choice)
    requires Ok(s) && PcOk(s.core, pc)
    ensures var f := PlanBoot(c, s, pc, ch); f.Some? ==> HandsOn(s, pc, f.value)
  {
    hide RecordCrash, SlotFailed, ValidResponse, Accepting, MayWrite;
  }

  lemma WireHandsOn(c: Config, s: State, pc: Pc, ch: Choice)
    requires Ok(s) && PcOk(s.core, pc)
    ensures var f := PlanSender(s, pc, ch); f.Some? ==> HandsOn(s, pc, f.value)
    ensures var f := PlanOutside(c, s, pc, ch); f.Some? ==> HandsOn(s, pc, f.value)
  {
    hide RecordCrash, SlotFailed, ValidResponse, Accepting, MayWrite;
  }

  lemma MonitorHandsOn(c: Config, s: State, pc: Pc, ch: Choice)
    requires Ok(s) && PcOk(s.core, pc)
    ensures var f := PlanMonitor(c, s, pc, ch); f.Some? ==> HandsOn(s, pc, f.value)
  {
    hide RecordCrash, SlotFailed, PlanAfterExit, OwnsSlot, SameWorker, Rescaled;
    hide MarkAll, Remaining, NothingToResize, Bootable, Spared;
  }

  lemma ControlHandsOn(c: Config, s: State, pc: Pc)
    requires Ok(s) && PcOk(s.core, pc)
    ensures var f := PlanControl(c, s, pc); f.Some? ==> HandsOn(s, pc, f.value)
  {
    hide RecordCrash, SlotFailed, PlanAfterExit, OwnsSlot, SameWorker, Rescaled;
    hide MarkAll, Remaining, NothingToResize, Bootable, Spared;
  }

  lemma PlanHandsOn(c: Config, s: State, pc: Pc, ch: Choice)
    requires Ok(s) && PcOk(s.core, pc)
    ensures var f := Plan(c, s, pc, ch); f.Some? ==> HandsOn(s, pc, f.value)
  {
    hide PlanRequest, PlanSender, PlanBoot, PlanMonitor, PlanControl, PlanOutside, PcOk, HandsOn;
    RequestHandsOn(c, s, pc, ch);
    BootHandsOn(c, s, pc, ch);
    WireHandsOn(c, s, pc, ch);
    MonitorHandsOn(c, s, pc, ch);
    ControlHandsOn(c, s, pc);
  }

  lemma HeldIsValid(p: Core, pc: Pc)
    requires PcOk(p, pc) && Held(pc).Some?
    ensures ValidRef(p, Held(pc).value)
  {
  }

  lemma HandsOnKeepsExclusive(s: State, t: nat, f: Effect)
    requires Ok(s) && t < |s.threads| && OpOk(s.core, f.op) && EffectOk(s, f)
    requires Exclusive(s) && HandsOn(s, s.threads[t], f)
    ensures Exclusive(Perform(s, t, f))
  {
    hide Held, PcOk;
    var s' := Perform(s, t, f);
    forall u | 0 <= u < |s.threads| && Held(s.threads[u]).Some?
      ensures ValidRef(s.core, Held(s.threads[u]).value)
    {
      HeldIsValid(s.core, s.threads[u]);
    }
  }
}
