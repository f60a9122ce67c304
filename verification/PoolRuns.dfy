/**
 The pool's promises over whole runs. Every theorem here quantifies over all configurations, all runs and
 all interleavings of single steps, except WholeRun's, which assumes that operations do not cut into each
 other.
 */
module PoolRuns {
  import opened PoolModel
  import opened PoolMachine
  import opened PoolWellFormed
  import opened PoolLocking
  import opened PoolOwnership
  import opened PoolIdentity
  import opened PoolSizing
  import opened Admission
  import opened Recycling
  import opened ResponseMatching
  import opened OrderlyWorkers
  import opened CrashHistory
  import opened PoolDraining
  import opened PoolShutdown
  import opened PoolLifecycle
  import opened WholeOperations

  /** Everything that holds in every reachable state. */
  ghost predicate Inv(c: Config, s: State) {
    && GoodConfig(c) && Ok(s)
    && Exclusive(s)
    && Distinct(s) && NotYetInstalled(s)
    && LockExclusive(s)
    && Sized(c, s.core) && ScansCurrent(s) && RetiredAway(s)
    && Admitted(c, s)
    && WithinLimit(c, s)
    && IdsUnique(s) && OneOutstanding(s) && Matched(s)
    && (c.orderly ==> PipesOk(s))
    && Logged(c, s)
    && ClaimedAreTaken(s)
    && Watched(s) && Stopping(s)
    && Cared(c, s) && BornIdle(c, s)
  }

  lemma StepKeepsInv(c: Config, s: State, e: Event, s': State)
    requires Inv(c, s) && Step(c, s, e, s')
    ensures Inv(c, s')
  {
    var pc := s.threads[e.t];
    var f := Plan(c, s, pc, e.choice).value;
    PlanOk(c, s, pc, e.choice);
    PerformOk(s, e.t, f);
    StepKeepsOwnership(c, s, e);
    StepKeepsService(c, s, e);
    StepKeepsSlots(c, s, e);
    StepKeepsRecords(c, s, e);
    StepKeepsLifecycle(c, s, e);
  }

  lemma StepKeepsOwnership(c: Config, s: State, e: Event)
    requires Inv(c, s) && e.t < |s.threads| && Plan(c, s, s.threads[e.t], e.choice).Some?
    ensures var s' := Perform(s, e.t, Plan(c, s, s.threads[e.t], e.choice).value);
            Ok(s') && Exclusive(s') && Distinct(s') && NotYetInstalled(s')
  {
    hide Plan, PcOk, HandsOn, Draws, Exclusive, WorkersDistinct, DrawsFresh, DrawsDistinct, NotYetInstalled;
    hide ApplyOp, Sized, Admitted, WithinLimit, IdsUnique, OneOutstanding, Matched, PipesOk, Logged, ClaimedAreTaken;
    hide Watched, Stopping, Cared, BornIdle, EffectOk, CoreOk;
    var pc := s.threads[e.t];
    var f := Plan(c, s, pc, e.choice).value;
    PlanOk(c, s, pc, e.choice);
    PerformOk(s, e.t, f);
    PlanHandsOn(c, s, pc, e.choice);
    HandsOnKeepsExclusive(s, e.t, f);
    PlanDraws(c, s, pc, e.choice);
    DrawsKeepWorkersDistinct(s, e.t, f);
    DrawsKeepFresh(s, e.t, f);
    DrawsKeepApart(s, e.t, f);
    DrawsKeepPending(s, e.t, f);
  }

  lemma StepKeepsService(c: Config, s: State, e: Event)
    requires Inv(c, s) && e.t < |s.threads| && Plan(c, s, s.threads[e.t], e.choice).Some?
    ensures var s' := Perform(s, e.t, Plan(c, s, s.threads[e.t], e.choice).value);
            Ok(s') && Admitted(c, s') && WithinLimit(c, s') && IdsUnique(s') && OneOutstanding(s') && Matched(s')
            && (c.orderly ==> PipesOk(s'))
  {
    hide Plan, PcOk, HandsOn, KeepsCount, Handles, Converses, PipesMove, EffectOk, CoreOk, ApplyOp;
    hide Exclusive, Distinct, NotYetInstalled, Sized, Admitted, WithinLimit, IdsUnique, OneOutstanding, Matched;
    hide PipesOk, Logged, ClaimedAreTaken, Watched, Stopping, Cared, BornIdle;
    var pc := s.threads[e.t];
    var f := Plan(c, s, pc, e.choice).value;
    PlanOk(c, s, pc, e.choice);
    PerformOk(s, e.t, f);
    PlanHandsOn(c, s, pc, e.choice);
    PlanKeepsCount(c, s, pc, e.choice);
    CountPreserved(c, s, e.t, f);
    PlanHandles(c, s, pc, e.choice);
    LimitPreserved(c, s, e.t, f);
    PlanConverses(c, s, pc, e.choice);
    IdsStayUnique(s, e.t, f);
    StaysOneOutstanding(s, e.t, f);
    StaysMatched(s, e.t, f);
    if c.orderly {
      PlanPipesMove(c, s, pc, e.choice);
      PipesPreserved(c, s, e.t, f);
    }
  }

  lemma StepKeepsSlots(c: Config, s: State, e: Event)
    requires Inv(c, s) && e.t < |s.threads| && Plan(c, s, s.threads[e.t], e.choice).Some?
    ensures var s' := Perform(s, e.t, Plan(c, s, s.threads[e.t], e.choice).value);
            Ok(s') && LockExclusive(s') && Sized(c, s'.core) && ScansCurrent(s') && RetiredAway(s')
  {
    hide Plan, PcOk, KeepsSize, KeepsLock, Scans, EffectOk, CoreOk, ApplyOp, LockExclusive, RetiredAway, ScanCurrent;
    hide Exclusive, Distinct, NotYetInstalled, Sized, Admitted, WithinLimit, IdsUnique, OneOutstanding, Matched;
    hide PipesOk, Logged, ClaimedAreTaken, Watched, Cared, BornIdle, AllCondemned;
    var pc := s.threads[e.t];
    var f := Plan(c, s, pc, e.choice).value;
    PlanOk(c, s, pc, e.choice);
    PerformOk(s, e.t, f);
    PlanKeepsLock(c, s, pc, e.choice);
    LockPreserved(s, e.t, f);
    PlanKeepsSize(c, s, pc, e.choice);
    SizePreserved(c, s, e.t, f);
    PlanScans(c, s, pc, e.choice);
    ScansPreserved(s, e.t, f);
    RetiredStayAway(c, s, e.t, f);
  }

  lemma StepKeepsRecords(c: Config, s: State, e: Event)
    requires Inv(c, s) && e.t < |s.threads| && Plan(c, s, s.threads[e.t], e.choice).Some?
    ensures var s' := Perform(s, e.t, Plan(c, s, s.threads[e.t], e.choice).value);
            Ok(s') && Logged(c, s') && ClaimedAreTaken(s')
  {
    hide Plan, PcOk, Logs, Claims, EffectOk, CoreOk, ApplyOp;
    hide Exclusive, Distinct, NotYetInstalled, Sized, Admitted, WithinLimit, IdsUnique, OneOutstanding, Matched;
    hide PipesOk, Logged, ClaimedAreTaken, Watched, Cared, BornIdle, AllCondemned, LockExclusive, RetiredAway;
    var pc := s.threads[e.t];
    var f := Plan(c, s, pc, e.choice).value;
    PlanOk(c, s, pc, e.choice);
    PerformOk(s, e.t, f);
    PlanLogs(c, s, pc, e.choice);
    LogsPreserved(c, s, e.t, f);
    PlanClaims(c, s, pc, e.choice);
    ClaimsPreserved(s, e.t, f);
  }

  lemma StepKeepsLifecycle(c: Config, s: State, e: Event)
    requires Inv(c, s) && e.t < |s.threads| && Plan(c, s, s.threads[e.t], e.choice).Some?
    ensures var s' := Perform(s, e.t, Plan(c, s, s.threads[e.t], e.choice).value);
            Ok(s') && Watched(s') && Stopping(s') && Cared(c, s') && BornIdle(c, s')
  {
    hide Plan, PcOk, Closes, Cares, LeavesNewborns, EffectOk, CoreOk, ApplyOp;
    hide Exclusive, Distinct, NotYetInstalled, Sized, Admitted, WithinLimit, IdsUnique, OneOutstanding, Matched;
    hide PipesOk, Logged, ClaimedAreTaken, Watched, BornIdle, AllCondemned, InCare, Resizes;
    var pc := s.threads[e.t];
    var f := Plan(c, s, pc, e.choice).value;
    PlanOk(c, s, pc, e.choice);
    PerformOk(s, e.t, f);
    PlanCloses(c, s, pc, e.choice);
    WatchedPreserved(s, e.t, f);
    StoppingPreserved(s, e.t, f);
    if c.fixedSize {
      PlanCares(c, s, pc, e.choice);
      CarePreserved(c, s, e.t, f);
      PlanLeavesNewborns(c, s, pc, e.choice);
      BornIdlePreserved(c, s, e.t, f);
    } else {
      NoPromiseWithoutFixedSize(c, Perform(s, e.t, f));
    }
  }

  lemma NoPromiseWithoutFixedSize(c: Config, s: State)
    requires Ok(s) && !c.fixedSize
    ensures Cared(c, s) && BornIdle(c, s)
  {
  }

  /** Init, thread by thread and slot by slot. */
  ghost predicate Starts(c: Config, s: State) {
    && GoodConfig(c)
    && c.minWorkers <= s.core.desired <= c.maxWorkers && |s.core.slots| == s.core.desired
    && (forall i :: 0 <= i < |s.core.slots| ==> s.core.slots[i] == FRESH_SLOT)
    && s.core.workers == [] && s.core.idle == [] && !s.core.stopping
    && |s.threads| == s.core.desired + 1 && s.threads[0] == Outside
    && (forall t :: 1 <= t < |s.threads| ==> s.threads[t] == BootStart(t, false, false))
    && s.replies == map[] && s.waiting == 0 && s.lastId == 0 && !s.locked
  }

  lemma StartOwnership(c: Config, s: State)
    requires Starts(c, s)
    ensures Ok(s) && Exclusive(s) && Distinct(s) && NotYetInstalled(s)
  {
  }

  lemma StartService(c: Config, s: State)
    requires Starts(c, s) && Ok(s)
    ensures Admitted(c, s) && WithinLimit(c, s) && IdsUnique(s) && OneOutstanding(s) && Matched(s) && PipesOk(s)
  {
    CountNone(s.threads);
    StartPipes(c, s);
    hide PipesOk, Ok;
  }

  lemma StartPipes(c: Config, s: State)
    requires Starts(c, s) && Ok(s)
    ensures PipesOk(s)
  {
    hide CoreOk, PcOk;
  }

  lemma StartSlots(c: Config, s: State)
    requires Starts(c, s) && Ok(s)
    ensures LockExclusive(s) && Sized(c, s.core) && ScansCurrent(s) && RetiredAway(s)
    ensures Logged(c, s) && ClaimedAreTaken(s)
  {
    forall i | 0 <= i < |s.core.slots| ensures SlotLogged(c, s.now, s.core.slots[i]) {
      FreshIsLogged(c, s.now, s.core.slots[i]);
    }
  }

  lemma StartLifecycle(c: Config, s: State)
    requires Starts(c, s) && Ok(s)
    ensures Watched(s) && Stopping(s) && Cared(c, s) && BornIdle(c, s)
  {
    forall t | 0 <= t < |s.threads| ensures InCare(c, s.core, s.threads[t]) {
      if t > 0 {
        assert s.core.slots[t - 1] == FRESH_SLOT;
      }
    }
  }

  lemma InitInv(c: Config, s: State)
    requires GoodConfig(c) && Init(c, s)
    ensures Inv(c, s)
  {
    assert Starts(c, s);
    hide Exclusive, WorkersDistinct, DrawsFresh, DrawsDistinct, NotYetInstalled, Sized, Admitted, WithinLimit;
    hide IdsUnique, OneOutstanding, Matched, PipesOk, Logged, ClaimedAreTaken, Watched, Stopping, Cared, BornIdle;
    StartOwnership(c, s);
    StartService(c, s);
    StartSlots(c, s);
    StartLifecycle(c, s);
  }

  lemma RunUnfolds(c: Config, states: seq<State>, events: seq<Event>, k: nat)
    requires Run(c, states, events)
    ensures |states| == |events| + 1 && GoodConfig(c) && Init(c, states[0])
    ensures k < |events| ==> Step(c, states[k], events[k], states[k + 1])
  {
    hide Step, Init;
  }

  /** Every state of every run satisfies every invariant. */
  lemma {:induction false} RunInv(c: Config, states: seq<State>, events: seq<Event>, k: nat)
    requires Run(c, states, events) && k < |states|
    ensures Inv(c, states[k])
  {
    hide Inv, Run, Init, Step, GoodConfig;
    RunUnfolds(c, states, events, if k == 0 then 0 else k - 1);
    if k == 0 {
      InitInv(c, states[0]);
    } else {
      RunInv(c, states, events, k - 1);
      StepKeepsInv(c, states[k - 1], events[k - 1], states[k]);
    }
  }
}
