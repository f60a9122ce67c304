/**
 What Shutdown (internal/worker/pool.go:824-893) leaves behind, told from the moment it begins. A boot outside p.wg
 is out of its sight between installing its worker (311) and registering the monitor (313); once the pool is stopping
 nobody gets there any more.
 */
module ShutdownCompleteness {
  import opened Protocol
  import opened PoolModel
  import opened PoolMachine
  import opened PoolIdentity
  import opened PoolShutdown
  import opened PoolTheorems

  /** A boot that p.wg does not know stands between lines 311 and 313. */
  ghost predicate OutOfSight(s: State, t: nat) {
    t < |s.threads| && s.threads[t].BootWatch? && !s.threads[t].counted
  }

  /** A boot that p.wg does not know: one of Start's or of SetDesired's. */
  predicate UncountedBoot(pc: Pc) {
    (pc.BootStart? || pc.BootRun? || pc.BootFail? || pc.BootInstall? || pc.BootWatch? || pc.BootPush?) && !pc.counted
  }

  ghost predicate BootsSettle(c: Config, s: State, pc: Pc, f: Effect) {
    && (f.next.BootRun? || f.next.BootWatch? ==> !s.core.stopping)
    && (UncountedBoot(f.next) ==> UncountedBoot(pc))
    && (forall k :: 0 <= k < |f.spawned| ==> !f.spawned[k].BootWatch?)
    && (pc.ResizeNext? || forall k :: 0 <= k < |f.spawned| ==> !UncountedBoot(f.spawned[k]))
  }

  lemma RequestSettles(c: Config, s: State, pc: Pc, ch: Choice)
    requires Ok(s) && PcOk(s.core, pc)
    ensures var f := PlanRequest(c, s, pc, ch); f.Some? ==> BootsSettle(c, s, pc, f.value)
    ensures var f := PlanSender(s, pc, ch); f.Some? ==> BootsSettle(c, s, pc, f.value)
    ensures var f := PlanOutside(c, s, pc, ch); f.Some? ==> BootsSettle(c, s, pc, f.value)
  {
    hide ReleaseCommit, DiscardCommit, CheckAcquired, ValidResponse, MayWrite;
  }

  lemma BootSettles(c: Config, s: State, pc: Pc, ch: Choice)
    requires Ok(s) && PcOk(s.core, pc)
    ensures var f := PlanBoot(c, s, pc, ch); f.Some? ==> BootsSettle(c, s, pc, f.value)
  {
    hide RecordCrash, SlotFailed, OutOfService;
  }

  lemma MonitorSettles(c: Config, s: State, pc: Pc, ch: Choice)
    requires Ok(s) && PcOk(s.core, pc)
    ensures var f := PlanMonitor(c, s, pc, ch); f.Some? ==> BootsSettle(c, s, pc, f.value)
    ensures var f := PlanControl(c, s, pc); f.Some? ==> BootsSettle(c, s, pc, f.value)
  {
    hide RecordCrash, SlotFailed, PlanAfterExit, OwnsSlot, SameWorker, Rescaled;
    hide MarkAll, Remaining, NothingToResize, Bootable, Spared;
  }

  lemma PlanSettles(c: Config, s: State, pc: Pc, ch: Choice)
    requires Ok(s) && PcOk(s.core, pc)
    ensures var f := Plan(c, s, pc, ch); f.Some? ==> BootsSettle(c, s, pc, f.value)
  {
    hide PlanRequest, PlanSender, PlanBoot, PlanMonitor, PlanControl, PlanOutside, PcOk, BootsSettle;
    RequestSettles(c, s, pc, ch);
    BootSettles(c, s, pc, ch);
    MonitorSettles(c, s, pc, ch);
  }

  lemma NobodyGoesOutOfSight(c: Config, s: State, e: Event, s': State, t: nat)
    requires Step(c, s, e, s') && s.core.stopping && OutOfSight(s', t)
    ensures t < |s.threads| && s.threads[t] == s'.threads[t]
  {
    hide Plan, PcOk, CoreOk;
    PlanSettles(c, s, s.threads[e.t], e.choice);
  }

  /** Once the pool is stopping, whoever is out of sight has been there all the time. */
  lemma {:induction false} OutOfSightSince(
    c: Config, states: seq<State>, events: seq<Event>, j: nat, k: nat, t: nat)
    requires Run(c, states, events) && j <= k < |states| && states[j].core.stopping && OutOfSight(states[k], t)
    ensures t < |states[j].threads| && states[j].threads[t] == states[k].threads[t]
    decreases k
  {
    hide Run, Step;
    if j < k {
      RunStep(c, states, events, k - 1);
      StoppingOverRuns(c, states, events, j, k - 1);
      NobodyGoesOutOfSight(c, states[k - 1], events[k - 1], states[k], t);
      OutOfSightSince(c, states, events, j, k - 1, t);
    }
  }

  /** Event j is Shutdown's first section, and at event k the wait of a Shutdown ends. */
  ghost predicate StopsAndReturns(states: seq<State>, events: seq<Event>, j: nat, k: nat) {
    && j < k < |events| && |states| == |events| + 1
    && events[j].t < |states[j].threads| && states[j].threads[events[j].t].StopStart?
    && events[k].t < |states[k].threads| && states[k].threads[events[k].t].StopWait?
  }

  lemma StopStartStops(c: Config, s: State, e: Event, s': State)
    requires Step(c, s, e, s') && s.threads[e.t].StopStart?
    ensures s'.core == s.core.(stopping := true) && s'.threads == s.threads[e.t := StopCancel] && !s'.locked
  {
  }

  /** Thread t was out of sight when Shutdown began, is so still, and its worker is in its slot. */
  ghost predicate LeftBehind(states: seq<State>, j: nat, k: nat, t: nat)
    requires j < |states| && k < |states|
  {
    OutOfSight(states[j], t) && Unregistered(states[k], t) && states[k].threads[t] == states[j].threads[t]
  }

  /**
   Shutdown returns with every slot empty if and only if no boot that was out of its sight when it began has stood
   there all the time, its worker in its slot.
   */
  lemma ShutdownLeavesExactly(c: Config, states: seq<State>, events: seq<Event>, j: nat, k: nat)
    requires Run(c, states, events) && StopsAndReturns(states, events, j, k)
    ensures AllEmpty(states[k + 1].core) <==> forall t: nat :: !LeftBehind(states, j, k, t)
  {
    hide Run, Step;
    RunStep(c, states, events, j);
    StopStartStops(c, states[j], events[j], states[j + 1]);
    ShutdownIsComplete(c, states, events, k, k + 1);
    forall t: nat | Unregistered(states[k], t) ensures LeftBehind(states, j, k, t) {
      OutOfSightSince(c, states, events, j + 1, k, t);
    }
  }

  /** If no boot is out of sight when Shutdown begins, every slot is empty for good when it returns. */
  lemma ShutdownSuffices(c: Config, states: seq<State>, events: seq<Event>, j: nat, k: nat, m: nat)
    requires Run(c, states, events) && StopsAndReturns(states, events, j, k) && k < m < |states|
    requires forall t: nat :: !OutOfSight(states[j], t)
    ensures AllEmpty(states[m].core)
  {
    hide Run, Step, OutOfSight, Unregistered;
    ShutdownLeavesExactly(c, states, events, j, k);
    EmptyStaysEmpty(c, states, events, j, k, m);
  }

  lemma EmptyStaysEmpty(c: Config, states: seq<State>, events: seq<Event>, j: nat, k: nat, m: nat)
    requires Run(c, states, events) && StopsAndReturns(states, events, j, k) && k < m < |states|
    requires AllEmpty(states[k + 1].core)
    ensures AllEmpty(states[m].core)
  {
    hide Run, Step;
    RunStep(c, states, events, j);
    StopStartStops(c, states[j], events[j], states[j + 1]);
    StoppingOverRuns(c, states, events, j + 1, k + 1);
    StoppingOverRuns(c, states, events, k + 1, m);
    forall i | 0 <= i < |states[m].core.slots| ensures states[m].core.slots[i].worker.None? {
      OccupiedSlotsOnlyShrink(c, states, events, k + 1, m, i);
    }
  }

  lemma StoppingDrawsNothing(c: Config, s: State, e: Event, s': State, i: nat)
    requires Step(c, s, e, s') && s.core.stopping && i < |s.core.slots|
    ensures s'.core.stopping && i < |s'.core.slots| && s'.core.slots[i].gen == s.core.slots[i].gen
  {
    hide Plan, PcOk, CoreOk;
    StoppingIsForever(c, s, e, s');
    PlanSettles(c, s, s.threads[e.t], e.choice);
    PlanDraws(c, s, s.threads[e.t], e.choice);
  }

  // ----- fixed-size pools -----

  /** Start has returned from its wg.Wait (252): none of its boots is at work any more. */
  ghost predicate Started(s: State) {
    forall t :: 0 <= t < |s.threads| ==> !UncountedBoot(s.threads[t])
  }

  lemma StartedStays(c: Config, s: State, e: Event, s': State)
    requires Step(c, s, e, s') && Started(s) && !s.threads[e.t].ResizeNext?
    ensures Started(s')
  {
    hide Plan, PcOk, CoreOk;
    PlanSettles(c, s, s.threads[e.t], e.choice);
  }

  lemma NobodyResizes(c: Config, states: seq<State>, events: seq<Event>, k: nat)
    requires Run(c, states, events) && k < |events| && c.fixedSize && events[k].t < |states[k].threads|
    ensures !states[k].threads[events[k].t].ResizeNext?
  {
    RunCared(c, states, events, k);
  }

  lemma {:induction false} StartedOverRuns(c: Config, states: seq<State>, events: seq<Event>, k: nat, m: nat)
    requires Run(c, states, events) && k <= m < |states| && c.fixedSize && Started(states[k])
    ensures Started(states[m])
    decreases m
  {
    hide Run, Step, Started;
    if k < m {
      StartedOverRuns(c, states, events, k, m - 1);
      RunStep(c, states, events, m - 1);
      StepHasThread(c, states[m - 1], events[m - 1], states[m]);
      NobodyResizes(c, states, events, m - 1);
      StartedStays(c, states[m - 1], events[m - 1], states[m]);
    }
  }

  /** A fixed-size pool that has been started is always shut down completely. */
  lemma FixedSizeShutdownIsComplete(
    c: Config, states: seq<State>, events: seq<Event>, i: nat, j: nat, k: nat, m: nat)
    requires Run(c, states, events) && StopsAndReturns(states, events, j, k) && i <= j && k < m < |states|
    requires c.fixedSize && Started(states[i])
    ensures AllEmpty(states[m].core)
  {
    hide Run, Step;
    StartedOverRuns(c, states, events, i, j);
    ShutdownSuffices(c, states, events, j, k, m);
  }
}
