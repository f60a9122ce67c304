/**
 max_requests is honoured at the granularity of single steps: a worker that can still be handed to a
 request has answered fewer than max_requests, and no worker ever answers more.
 */
module Recycling {
  import opened Basics
  import opened Protocol
  import opened PoolModel
  import opened PoolMachine
  import opened PoolWellFormed
  import opened PoolOwnership

  /** w may still answer a request: it is idle, or in hands that can pass it on. */
  ghost predicate CanServe(s: State, w: Ref) {
    || w in s.core.idle
    || exists t :: 0 <= t < |s.threads| && Offers(s.threads[t], w)
  }

  ghost predicate Offers(pc: Pc, w: Ref) {
    Held(pc) == Some(w) && !pc.Discard? && !pc.StopWorker?
  }

  ghost predicate WithinLimit(c: Config, s: State) {
    c.maxRequests > 0 ==>
      && (forall w :: 0 <= w < |s.core.workers| ==> s.core.workers[w].handled <= c.maxRequests)
      && (forall w :: 0 <= w < |s.core.workers| && CanServe(s, w) ==> s.core.workers[w].handled < c.maxRequests)
  }

  ghost predicate Handles(c: Config, s: State, pc: Pc, f: Effect)
    requires Ok(s) && OpOk(s.core, f.op)
  {
    && (forall w :: Offers(f.next, w) ==>
          Offers(pc, w) || (f.op.TakeIdle? && w == s.core.idle[0]) || (f.op.AddWorker? && w == |s.core.workers|))
    && (forall k, w :: 0 <= k < |f.spawned| ==> !Offers(f.spawned[k], w))
    && (f.op.PutIdle? ==> Offers(pc, f.op.w))
    && (f.op.AddWorker? ==> f.op.worker.handled == 0)
    && (f.op.PutWorker? ==> Served(c, pc, f, s.core.workers[f.op.w], f.op.worker, f.op.w))
    && (f.op.PutBoth? ==> Served(c, pc, f, s.core.workers[f.op.w], f.op.worker, f.op.w))
  }

  ghost predicate Served(c: Config, pc: Pc, f: Effect, before: Worker, after: Worker, w: Ref) {
    || after.handled == before.handled
    || (&& after.handled == before.handled + 1
        && Offers(pc, w)
        && (c.maxRequests > 0 && after.handled >= c.maxRequests ==> Held(f.next).None?))
  }

  lemma RequestHandles(c: Config, s: State, pc: Pc, ch: Choice)
    requires Ok(s) && PcOk(s.core, pc)
    ensures var f := PlanRequest(c, s, pc, ch); f.Some? ==> Handles(c, s, pc, f.value)
  {
    hide SameGeneration, CheckAcquired, OutOfService, CoreOk, InPool;
  }

  lemma BootHandles(c: Config, s: State, pc: Pc, ch: Choice)
    requires Ok(s) && PcOk(s.core, pc)
    ensures var f := PlanBoot(c, s, pc, ch); f.Some? ==> Handles(c, s, pc, f.value)
  {
    hide RecordCrash, SlotFailed, ValidResponse, Accepting, MayWrite;
  }

  lemma WireHandles(c: Config, s: State, pc: Pc, ch: Choice)
    requires Ok(s) && PcOk(s.core, pc)
    ensures var f := PlanSender(s, pc, ch); f.Some? ==> Handles(c, s, pc, f.value)
    ensures var f := PlanOutside(c, s, pc, ch); f.Some? ==> Handles(c, s, pc, f.value)
  {
    hide RecordCrash, SlotFailed, ValidResponse, Accepting, MayWrite;
  }

  lemma MonitorHandles(c: Config, s: State, pc: Pc, ch: Choice)
    requires Ok(s) && PcOk(s.core, pc)
    ensures var f := PlanMonitor(c, s, pc, ch); f.Some? ==> Handles(c, s, pc, f.value)
  {
    hide RecordCrash, SlotFailed, PlanAfterExit, OwnsSlot, SameWorker, Rescaled;
    hide MarkAll, Remaining, NothingToResize, Bootable, Spared;
  }

  lemma ControlHandles(c: Config, s: State, pc: Pc)
    requires Ok(s) && PcOk(s.core, pc)
    ensures var f := PlanControl(c, s, pc); f.Some? ==> Handles(c, s, pc, f.value)
  {
    hide RecordCrash, SlotFailed, PlanAfterExit, OwnsSlot, SameWorker, Rescaled;
    hide MarkAll, Remaining, NothingToResize, Bootable, Spared;
  }

  lemma PlanHandles(c: Config, s: State, pc: Pc, ch: Choice)
    requires Ok(s) && PcOk(s.core, pc)
    ensures var f := Plan(c, s, pc, ch); f.Some? ==> Handles(c, s, pc, f.value)
  {
    hide PlanRequest, PlanSender, PlanBoot, PlanMonitor, PlanControl, PlanOutside, PcOk, Handles;
    RequestHandles(c, s, pc, ch);
    BootHandles(c, s, pc, ch);
    WireHandles(c, s, pc, ch);
    MonitorHandles(c, s, pc, ch);
    ControlHandles(c, s, pc);
  }

  lemma LimitPreserved(c: Config, s: State, t: nat, f: Effect)
    requires Ok(s) && t < |s.threads| && OpOk(s.core, f.op) && EffectOk(s, f)
    requires Exclusive(s) && WithinLimit(c, s) && HandsOn(s, s.threads[t], f) && Handles(c, s, s.threads[t], f)
    ensures WithinLimit(c, Perform(s, t, f))
  {
    hide PcOk, Held;
    var s' := Perform(s, t, f);
    if c.maxRequests > 0 {
      forall w | 0 <= w < |s'.core.workers| && CanServe(s', w)
        ensures s'.core.workers[w].handled < c.maxRequests
      {
        if w < |s.core.workers| {
          CanServeBefore(s, t, f, w);
          assert s.core.workers[w].handled < c.maxRequests;
        }
      }
      forall w | 0 <= w < |s'.core.workers| ensures s'.core.workers[w].handled <= c.maxRequests {
        if w < |s.core.workers| && s'.core.workers[w].handled != s.core.workers[w].handled {
          assert Offers(s.threads[t], w);
          assert CanServe(s, w);
        }
      }
    }
  }

  /** Whoever can serve after a step could serve before it, or was just created. */
  lemma CanServeBefore(s: State, t: nat, f: Effect, w: Ref)
    requires Ok(s) && t < |s.threads| && OpOk(s.core, f.op) && EffectOk(s, f)
    requires forall w :: Offers(f.next, w) ==>
               || Offers(s.threads[t], w)
               || (f.op.TakeIdle? && w == s.core.idle[0])
               || (f.op.AddWorker? && w == |s.core.workers|)
    requires forall k, w :: 0 <= k < |f.spawned| ==> !Offers(f.spawned[k], w)
    requires f.op.PutIdle? ==> Offers(s.threads[t], f.op.w)
    requires CanServe(Perform(s, t, f), w) && w < |s.core.workers|
    ensures CanServe(s, w)
  {
    hide PcOk, Held;
    var s' := Perform(s, t, f);
    if w !in s'.core.idle {
      var u :| 0 <= u < |s'.threads| && Offers(s'.threads[u], w);
      if u < |s.threads| && u != t {
        assert Offers(s.threads[u], w);
      }
    }
  }
}
