/**
 SetDesired and the requests, at the granularity of single steps: it looks at a worker (internal/worker/pool.go:516)
 and marks it (523) while it holds p.mu, but a request claims a worker (591, 629) under the worker's own mutex. A
 look never finds a claimed worker open to being sent away; whether a claimed worker is marked all the same depends
 on what happens between look and mark.
 */
module PoolDraining {
  import opened Basics
  import opened Protocol
  import opened PoolModel
  import opened PoolMachine
  import opened PoolWellFormed
  import opened PoolOwnership

  /** A request that has marked w Busy and has not given it back. */
  ghost predicate Claimed(pc: Pc, w: Ref) {
    Held(pc) == Some(w) && (pc.LeaveQueue? || pc.Send? || pc.Await? || pc.Release? || pc.Discard?)
  }

  ghost predicate IsClaimant(pc: Pc) {
    Held(pc).Some? && (pc.LeaveQueue? || pc.Send? || pc.Await? || pc.Release? || pc.Discard?)
  }

  /** No acquire accepts a worker in this state. */
  predicate Taken(st: WorkerState) { st == Busy || st == Draining || st == Dead || st == Stopped }

  ghost predicate ClaimIsTaken(p: Core, pc: Pc)
    requires PcOk(p, pc) && IsClaimant(pc)
  {
    HeldIsValid(p, pc);
    Taken(p.workers[Held(pc).value].state)
  }

  ghost predicate ClaimedAreTaken(s: State)
    requires Ok(s)
  {
    forall t :: 0 <= t < |s.threads| && IsClaimant(s.threads[t]) ==> ClaimIsTaken(s.core, s.threads[t])
  }

  ghost predicate Claims(s: State, pc: Pc, f: Effect)
    requires Ok(s) && OpOk(s.core, f.op)
  {
    && (forall k :: 0 <= k < |f.spawned| ==> !IsClaimant(f.spawned[k]))
    && (IsClaimant(f.next) ==>
          (IsClaimant(pc) && Held(f.next) == Held(pc)
           && (f.op.PutWorker? ==> f.op.worker.state == s.core.workers[f.op.w].state || Taken(f.op.worker.state)))
          || (pc.Claim? && f.op.PutWorker? && f.op.w == pc.w && Held(f.next) == Some(pc.w)
              && f.op.worker.state == Busy))
    && (f.op.PutWorker? ==>
          f.op.worker.state == s.core.workers[f.op.w].state || Taken(f.op.worker.state) || Held(pc) == Some(f.op.w))
    && (f.op.PutBoth? ==> Taken(f.op.worker.state))
  }

  lemma RequestClaims(c: Config, s: State, pc: Pc, ch: Choice)
    requires Ok(s) && PcOk(s.core, pc)
    ensures var f := PlanRequest(c, s, pc, ch); f.Some? ==> Claims(s, pc, f.value)
  {
    hide WantsRecycle, SameGeneration, CheckAcquired, OutOfService;
  }

  lemma BootClaims(c: Config, s: State, pc: Pc, ch: Choice)
    requires Ok(s) && PcOk(s.core, pc)
    ensures var f := PlanBoot(c, s, pc, ch); f.Some? ==> Claims(s, pc, f.value)
  {
    hide RecordCrash, SlotFailed, Accepting;
  }

  lemma WireClaims(c: Config, s: State, pc: Pc, ch: Choice)
    requires Ok(s) && PcOk(s.core, pc)
    ensures var f := PlanSender(s, pc, ch); f.Some? ==> Claims(s, pc, f.value)
    ensures var f := PlanOutside(c, s, pc, ch); f.Some? ==> Claims(s, pc, f.value)
  {
    hide ValidResponse, MayWrite;
  }

  lemma MonitorClaims(c: Config, s: State, pc: Pc, ch: Choice)
    requires Ok(s) && PcOk(s.core, pc)
    ensures var f := PlanMonitor(c, s, pc, ch); f.Some? ==> Claims(s, pc, f.value)
  {
    hide RecordCrash, SlotFailed, PlanAfterExit, OwnsSlot, SameWorker;
  }

  lemma ControlClaims(c: Config, s: State, pc: Pc)
    requires Ok(s) && PcOk(s.core, pc)
    ensures var f := PlanControl(c, s, pc); f.Some? ==> Claims(s, pc, f.value)
  {
    hide Rescaled, MarkAll, Remaining, NothingToResize, Bootable, Spared;
  }

  lemma PlanClaims(c: Config, s: State, pc: Pc, ch: Choice)
    requires Ok(s) && PcOk(s.core, pc)
    ensures var f := Plan(c, s, pc, ch); f.Some? ==> Claims(s, pc, f.value)
  {
    hide PlanRequest, PlanSender, PlanBoot, PlanMonitor, PlanControl, PlanOutside, PcOk, Claims;
    RequestClaims(c, s, pc, ch);
    BootClaims(c, s, pc, ch);
    WireClaims(c, s, pc, ch);
    MonitorClaims(c, s, pc, ch);
    ControlClaims(c, s, pc);
  }

  /** A worker's state stays taken unless its holder changes it. */
  lemma TakenStays(s: State, pc: Pc, f: Effect, w: Ref)
    requires Ok(s) && OpOk(s.core, f.op) && Claims(s, pc, f)
    requires ValidRef(s.core, w) && Taken(s.core.workers[w].state) && Held(pc) != Some(w)
    ensures Taken(ApplyOp(s.core, f.op).workers[w].state)
  {
    hide PcOk, CoreOk, Held;
  }

  lemma OwnClaimIsTaken(s: State, pc: Pc, f: Effect)
    requires Ok(s) && PcOk(s.core, pc) && OpOk(s.core, f.op) && Claims(s, pc, f) && IsClaimant(f.next)
    requires PcOk(ApplyOp(s.core, f.op), f.next) && (IsClaimant(pc) ==> ClaimIsTaken(s.core, pc))
    ensures ClaimIsTaken(ApplyOp(s.core, f.op), f.next)
  {
    hide PcOk, CoreOk, Held;
    HeldIsValid(ApplyOp(s.core, f.op), f.next);
    if IsClaimant(pc) {
      HeldIsValid(s.core, pc);
    }
  }

  lemma ClaimsPreserved(s: State, t: nat, f: Effect)
    requires Ok(s) && t < |s.threads| && OpOk(s.core, f.op) && EffectOk(s, f)
    requires Exclusive(s) && ClaimedAreTaken(s) && Claims(s, s.threads[t], f)
    ensures Ok(Perform(s, t, f)) && ClaimedAreTaken(Perform(s, t, f))
  {
    PerformOk(s, t, f);
    var s' := Perform(s, t, f);
    forall u | 0 <= u < |s'.threads| && IsClaimant(s'.threads[u]) ensures ClaimIsTaken(s'.core, s'.threads[u]) {
      hide PcOk, Held;
      assert u < |s.threads|;
      if u == t {
        OwnClaimIsTaken(s, s.threads[t], f);
      } else {
        HeldIsValid(s.core, s.threads[u]);
        assert ClaimIsTaken(s.core, s.threads[u]);
        assert Held(s.threads[u]) != Held(s.threads[t]);
        TakenStays(s, s.threads[t], f, Held(s.threads[u]).value);
      }
    }
  }

  /** A look at a claimed worker spares it. */
  lemma LookSpares(c: Config, s: State, t: nat, u: nat, w: Ref)
    requires Ok(s) && c.http && ClaimedAreTaken(s) && t < |s.threads| && u < |s.threads|
    requires s.threads[t].ResizeScan? && Claimed(s.threads[u], w)
    ensures var f := PlanControl(c, s, s.threads[t]); f.Some? && !(f.value.next.ResizeMark? && f.value.next.w == w)
  {
    assert IsClaimant(s.threads[u]) && ClaimIsTaken(s.core, s.threads[u]);
    assert PcOk(s.core, s.threads[t]);
  }
}
