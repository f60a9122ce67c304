/**
 What single steps guarantee about idle workers, for a fixed-size HTTP pool that is not stopping: a worker that is
 current and Idle is in the idle channel, or in the hands of a thread that is about to use or queue it, unless a
 send of it met a full channel (internal/worker/pool.go:316-322, 404-407, 720-724) - and then it is lost for good.
 */
module LostWorkers {
  import opened Basics
  import opened Protocol
  import opened PoolModel
  import opened PoolMachine
  import opened PoolWellFormed
  import opened PoolOwnership
  import opened PoolIdentity
  import opened PoolLifecycle
  import opened PoolShutdown
  import opened WholeOperations
  import opened PoolRuns
  import opened PoolTheorems

  /** The next step of a thread at pc throws w away because the idle channel is full. */
  ghost predicate Drops(c: Config, s: State, pc: Pc, w: Ref) {
    && |s.core.idle| >= c.idleCap
    && (pc.Return? || pc.BootPush? || pc.PurgeHand?) && Carries(pc) == Some(w)
  }

  /** In the channel, or in the hands of a thread that is about to claim it or to push it. */
  ghost predicate InPlay(s: State, w: Ref) {
    w in s.core.idle || exists t :: 0 <= t < |s.threads| && Carries(s.threads[t]) == Some(w)
  }

  /** A purge looks for a worker that has left for good. */
  ghost predicate TargetsDeparted(s: State)
    requires Ok(s)
  {
    forall t :: 0 <= t < |s.threads| && Target(s.threads[t]).Some? ==>
      Departed(s, Target(s.threads[t]).value)
  }

  // ----- targets of purges -----

  /** Only a monitor that has just cleared its worker starts a purge, and it purges that worker. */
  ghost predicate Aims(s: State, pc: Pc, f: Effect)
    requires Ok(s) && PcOk(s.core, pc) && OpOk(s.core, f.op)
  {
    && (forall k :: 0 <= k < |f.spawned| ==> Target(f.spawned[k]).None?)
    && (Target(f.next).Some? ==>
          || Target(f.next) == Target(pc)
          || (pc.Clear? && Target(f.next) == Some(pc.w) && OwnsSlot(s.core, pc.slot, pc.w)
              && ApplyOp(s.core, f.op).slots[pc.slot - 1].worker.None?))
  }

  lemma RequestAims(c: Config, s: State, pc: Pc, ch: Choice)
    requires Ok(s) && PcOk(s.core, pc) && !Resizes(pc)
    ensures var f := PlanRequest(c, s, pc, ch); f.Some? ==> Aims(s, pc, f.value)
  {
    hide SameGeneration, WantsRecycle, OwnsSlot;
  }

  lemma BootAims(c: Config, s: State, pc: Pc, ch: Choice)
    requires Ok(s) && PcOk(s.core, pc) && !Resizes(pc)
    ensures var f := PlanBoot(c, s, pc, ch); f.Some? ==> Aims(s, pc, f.value)
    ensures var f := PlanSender(s, pc, ch); f.Some? ==> Aims(s, pc, f.value)
    ensures var f := PlanOutside(c, s, pc, ch); f.Some? ==> Aims(s, pc, f.value)
  {
    hide RecordCrash, SlotFailed, ValidResponse, OwnsSlot;
  }

  lemma MonitorAims(c: Config, s: State, pc: Pc, ch: Choice)
    requires Ok(s) && PcOk(s.core, pc) && !Resizes(pc)
    ensures var f := PlanMonitor(c, s, pc, ch); f.Some? ==> Aims(s, pc, f.value)
    ensures var f := PlanControl(c, s, pc); f.Some? ==> Aims(s, pc, f.value)
  {
    hide RecordCrash, SlotFailed, PlanAfterExit, OwnsSlot, MarkAll, Remaining, SameWorker;
  }

  lemma PlanAims(c: Config, s: State, pc: Pc, ch: Choice)
    requires Ok(s) && PcOk(s.core, pc) && !Resizes(pc)
    ensures var f := Plan(c, s, pc, ch); f.Some? ==> Aims(s, pc, f.value)
  {
    hide PlanRequest, PlanSender, PlanBoot, PlanMonitor, PlanControl, PlanOutside, PcOk, Aims;
    RequestAims(c, s, pc, ch);
    BootAims(c, s, pc, ch);
    MonitorAims(c, s, pc, ch);
  }

  lemma ClearedHasDeparted(c: Config, s: State, e: Event, s': State)
    requires Step(c, s, e, s') && Distinct(s) && NotYetInstalled(s) && s.threads[e.t].Clear?
    requires OwnsSlot(s.core, s.threads[e.t].slot, s.threads[e.t].w)
    requires s'.core.slots[s.threads[e.t].slot - 1].worker.None?
    ensures Ok(s') && Departed(s', s.threads[e.t].w)
  {
    var pc := s.threads[e.t];
    assert PcOk(s.core, pc);
    OwnsSlotIsCurrent(s, pc.slot, pc.w);
    CurrentIsSettled(s, pc.w);
    SettledStays(c, s, e, s', pc.w);
    StepKeepsOk(c, s, e, s');
    hide Plan, PcOk, Step;
  }

  lemma TargetsStayDeparted(c: Config, s: State, e: Event, s': State)
    requires Step(c, s, e, s') && Distinct(s) && NotYetInstalled(s) && TargetsDeparted(s) && !Resizes(s.threads[e.t])
    ensures Ok(s') && TargetsDeparted(s')
  {
    StepKeepsOk(c, s, e, s');
    var pc := s.threads[e.t];
    var f := Plan(c, s, pc, e.choice).value;
    PlanAims(c, s, pc, e.choice);
    hide Plan, PcOk, Departed, Distinct, NotYetInstalled, OwnsSlot;
    forall u | 0 <= u < |s'.threads| && Target(s'.threads[u]).Some?
      ensures Departed(s', Target(s'.threads[u]).value)
    {
      if u < |s.threads| && Target(s.threads[u]) == Target(s'.threads[u]) {
        DepartedStaysDeparted(c, s, e, s', Target(s.threads[u]).value);
      } else {
        assert u == e.t;
        ClearedHasDeparted(c, s, e, s');
      }
    }
  }

  lemma RunFacts(c: Config, states: seq<State>, events: seq<Event>, k: nat, t: nat)
    requires Run(c, states, events) && k < |states| && c.fixedSize && t < |states[k].threads|
    ensures Ok(states[k]) && Distinct(states[k]) && NotYetInstalled(states[k]) && Exclusive(states[k])
    ensures !Resizes(states[k].threads[t])
    ensures PastStopStart(states[k].threads[t]) ==> states[k].core.stopping
  {
    RunInv(c, states, events, k);
  }

  lemma NoWorkersAtFirst(c: Config, s: State, w: Ref)
    requires Init(c, s) && CoreOk(s.core)
    ensures !CurrentIdle(s.core, w)
  {
  }

  lemma NoTargetsAtFirst(c: Config, s: State)
    requires GoodConfig(c) && Init(c, s)
    ensures Ok(s) && TargetsDeparted(s)
  {
    InitInv(c, s);
    hide Departed, Inv;
    forall t | 0 <= t < |s.threads| ensures Target(s.threads[t]).None? {
      assert t > 0 ==> s.threads[t] == BootStart(t, false, false);
    }
  }

  lemma {:induction false} TargetsDepartedOverRuns(c: Config, states: seq<State>, events: seq<Event>, k: nat)
    requires Run(c, states, events) && k < |states| && c.fixedSize
    ensures Ok(states[k]) && TargetsDeparted(states[k])
    decreases k
  {
    hide Run, Step, TargetsDeparted, Distinct, NotYetInstalled, Exclusive, Resizes, PcOk, GoodConfig, Init, CoreOk;
    RunUnfolds(c, states, events, 0);
    if k == 0 {
      NoTargetsAtFirst(c, states[0]);
    } else {
      TargetsDepartedOverRuns(c, states, events, k - 1);
      RunStep(c, states, events, k - 1);
      StepHasThread(c, states[k - 1], events[k - 1], states[k]);
      RunFacts(c, states, events, k - 1, events[k - 1].t);
      TargetsStayDeparted(c, states[k - 1], events[k - 1], states[k]);
    }
  }

  // ----- no step loses an idle worker, except by dropping it -----

  /** If w is current and Idle after the step, it is in the stepping thread's hands or where it was before. */
  ghost predicate SafeFor(c: Config, s: State, pc: Pc, f: Effect, w: Ref)
    requires Ok(s) && OpOk(s.core, f.op)
  {
    var p, q := s.core, ApplyOp(s.core, f.op);
    CurrentIdle(q, w) && !q.stopping && !Drops(c, s, pc, w) ==>
      || Carries(f.next) == Some(w)
      || (CurrentIdle(p, w) && (Carries(pc) == Some(w) ==> w in q.idle) && (f.op.TakeIdle? ==> w != p.idle[0]))
  }

  /** Steps that give back a worker or fail its request. */
  predicate Returning(pc: Pc) { pc.Release? || pc.Discard? || pc.Await? || pc.Return? }

  lemma AcquireSafe(c: Config, s: State, pc: Pc, ch: Choice, w: Ref)
    requires Ok(s) && PcOk(s.core, pc) && !Returning(pc)
    ensures var f := PlanRequest(c, s, pc, ch); f.Some? ==> SafeFor(c, s, pc, f.value, w)
  {
    hide ReleaseCommit, DiscardCommit;
  }

  lemma ReturnSafe(c: Config, s: State, pc: Pc, ch: Choice, w: Ref)
    requires Ok(s) && PcOk(s.core, pc) && Returning(pc)
    ensures var f := PlanRequest(c, s, pc, ch); f.Some? ==> SafeFor(c, s, pc, f.value, w)
  {
    hide WantsRecycle, CheckAcquired, OutOfService;
  }

  lemma BootSafe(c: Config, s: State, pc: Pc, ch: Choice, w: Ref)
    requires Ok(s) && PcOk(s.core, pc) && c.http
    ensures var f := PlanBoot(c, s, pc, ch); f.Some? ==> SafeFor(c, s, pc, f.value, w)
  {
    hide RecordCrash, SlotFailed, Accepting;
  }

  lemma WireSafe(c: Config, s: State, pc: Pc, ch: Choice, w: Ref)
    requires Ok(s) && PcOk(s.core, pc)
    ensures var f := PlanSender(s, pc, ch); f.Some? ==> SafeFor(c, s, pc, f.value, w)
    ensures var f := PlanOutside(c, s, pc, ch); f.Some? ==> SafeFor(c, s, pc, f.value, w)
  {
    hide ValidResponse, MayWrite;
  }

  lemma PurgeSafe(c: Config, s: State, pc: Pc, ch: Choice, w: Ref)
    requires Ok(s) && PcOk(s.core, pc) && Distinct(s)
    requires Target(pc).Some? && Departed(s, Target(pc).value)
    ensures var f := PlanMonitor(c, s, pc, ch); f.Some? ==> SafeFor(c, s, pc, f.value, w)
  {
    hide SameWorker, Distinct;
    if pc.PurgeLoop? && s.core.idle != [] {
      SameWorkerIsIdentity(s, s.core.idle[0], pc.target);
    }
  }

  lemma MonitorSafe(c: Config, s: State, pc: Pc, ch: Choice, w: Ref)
    requires Ok(s) && PcOk(s.core, pc) && Target(pc).None?
    ensures var f := PlanMonitor(c, s, pc, ch); f.Some? ==> SafeFor(c, s, pc, f.value, w)
  {
    hide RecordCrash, SlotFailed, PlanAfterExit, OwnsSlot, SameWorker;
  }

  lemma ControlSafe(c: Config, s: State, pc: Pc, w: Ref)
    requires Ok(s) && PcOk(s.core, pc) && !Resizes(pc)
    requires PastStopStart(pc) ==> s.core.stopping
    ensures var f := PlanControl(c, s, pc); f.Some? ==> SafeFor(c, s, pc, f.value, w)
  {
    hide MarkedSlots, MarkedWorkers, Remaining, AllCountedDone;
  }

  lemma PlanSafe(c: Config, s: State, pc: Pc, ch: Choice, w: Ref)
    requires Ok(s) && PcOk(s.core, pc) && !Resizes(pc) && Distinct(s) && c.http
    requires Target(pc).Some? ==> Departed(s, Target(pc).value)
    requires PastStopStart(pc) ==> s.core.stopping
    ensures var f := Plan(c, s, pc, ch); f.Some? ==> SafeFor(c, s, pc, f.value, w)
  {
    hide PlanRequest, PlanSender, PlanBoot, PlanMonitor, PlanControl, PlanOutside, PcOk, SafeFor, Departed, Distinct;
    if Returning(pc) {
      ReturnSafe(c, s, pc, ch, w);
    } else {
      AcquireSafe(c, s, pc, ch, w);
    }
    BootSafe(c, s, pc, ch, w);
    WireSafe(c, s, pc, ch, w);
    if Target(pc).Some? {
      PurgeSafe(c, s, pc, ch, w);
    } else {
      MonitorSafe(c, s, pc, ch, w);
    }
    ControlSafe(c, s, pc, w);
  }

  lemma SafeStaysInPlay(c: Config, s: State, t: nat, f: Effect, w: Ref)
    requires Ok(s) && t < |s.threads| && OpOk(s.core, f.op) && SafeFor(c, s, s.threads[t], f, w)
    requires !Drops(c, s, s.threads[t], w) && CurrentIdle(s.core, w) ==> InPlay(s, w)
    requires !Drops(c, s, s.threads[t], w)
    ensures var q := ApplyOp(s.core, f.op);
            CurrentIdle(q, w) && !q.stopping ==> InPlay(Perform(s, t, f), w)
  {
    hide PcOk, CurrentIdle, Drops, Carries;
    var p, s' := s.core, Perform(s, t, f);
    if CurrentIdle(s'.core, w) && !s'.core.stopping {
      if Carries(f.next) == Some(w) {
        assert s'.threads[t] == f.next;
      } else if w in p.idle {
        assert f.op.TakeIdle? ==> p.idle == [p.idle[0]] + p.idle[1..];
      } else {
        var u :| 0 <= u < |s.threads| && Carries(s.threads[u]) == Some(w);
        assert u != t ==> s'.threads[u] == s.threads[u];
      }
    }
  }

  // ----- over whole runs -----

  ghost predicate DroppedAt(c: Config, states: seq<State>, events: seq<Event>, j: nat, w: Ref)
    requires j < |events| && |states| == |events| + 1
  {
    events[j].t < |states[j].threads| && Drops(c, states[j], states[j].threads[events[j].t], w)
  }

  lemma InPlayStep(c: Config, s: State, e: Event, s': State, w: Ref)
    requires Step(c, s, e, s') && c.http && Distinct(s) && TargetsDeparted(s)
    requires !Resizes(s.threads[e.t]) && (PastStopStart(s.threads[e.t]) ==> s.core.stopping)
    requires !Drops(c, s, s.threads[e.t], w) && (CurrentIdle(s.core, w) ==> InPlay(s, w))
    requires CoreOk(s'.core) && CurrentIdle(s'.core, w) && !s'.core.stopping
    ensures InPlay(s', w)
  {
    hide Plan, PcOk, CurrentIdle, Drops, InPlay, Distinct, Departed, SafeFor, Resizes, PastStopStart;
    var f := Plan(c, s, s.threads[e.t], e.choice).value;
    PlanSafe(c, s, s.threads[e.t], e.choice, w);
    SafeStaysInPlay(c, s, e.t, f, w);
  }

  lemma {:induction false} InPlayUnlessDropped(c: Config, states: seq<State>, events: seq<Event>, k: nat, w: Ref)
    requires Run(c, states, events) && k < |states| && c.http && c.fixedSize
    requires CoreOk(states[k].core) && !states[k].core.stopping && CurrentIdle(states[k].core, w)
    requires forall j :: 0 <= j < k ==> !DroppedAt(c, states, events, j, w)
    ensures InPlay(states[k], w)
    decreases k
  {
    hide Run, Step, InPlay, Distinct, NotYetInstalled, Exclusive, TargetsDeparted, PcOk, GoodConfig, Init, Resizes;
    hide CoreOk, Drops;
    RunUnfolds(c, states, events, 0);
    if k == 0 {
      NoWorkersAtFirst(c, states[0], w);
    } else {
      hide CurrentIdle;
      var s, e := states[k - 1], events[k - 1];
      RunStep(c, states, events, k - 1);
      StepHasThread(c, s, e, states[k]);
      RunFacts(c, states, events, k - 1, e.t);
      TargetsDepartedOverRuns(c, states, events, k - 1);
      StoppingBefore(c, s, e, states[k]);
      assert !DroppedAt(c, states, events, k - 1, w);
      if CurrentIdle(s.core, w) {
        InPlayUnlessDropped(c, states, events, k - 1, w);
      }
      InPlayStep(c, s, e, states[k], w);
    }
  }

  lemma DroppedLetsGo(c: Config, s: State, e: Event, s': State, w: Ref)
    requires Step(c, s, e, s') && Exclusive(s) && c.http && Drops(c, s, s.threads[e.t], w)
    ensures LetGo(s', w)
  {
    var pc := s.threads[e.t];
    assert PcOk(s.core, pc) && Held(pc) == Some(w);
    hide PcOk, CoreOk;
    assert s'.core == s.core && Held(s'.threads[e.t]).None?;
    forall u | 0 <= u < |s'.threads| ensures Held(s'.threads[u]) != Some(w) {
      if u != e.t {
        assert if u < e.t then Held(s.threads[u]).Some? ==> Held(s.threads[u]) != Held(pc)
               else Held(pc) != Held(s.threads[u]);
      }
    }
  }

  lemma DroppedIsLost(c: Config, states: seq<State>, events: seq<Event>, j: nat, k: nat, w: Ref)
    requires Run(c, states, events) && j < k < |states| && c.http && DroppedAt(c, states, events, j, w)
    ensures LetGo(states[k], w)
  {
    RunStep(c, states, events, j);
    RunInv(c, states, events, j);
    hide Run, Step, Drops;
    DroppedLetsGo(c, states[j], events[j], states[j + 1], w);
    LetGoOverRuns(c, states, events, j + 1, k, w);
  }

  lemma LetGoIsNotInPlay(s: State, w: Ref)
    requires LetGo(s, w)
    ensures !InPlay(s, w)
  {
    forall t | 0 <= t < |s.threads| ensures Carries(s.threads[t]) != Some(w) {
      assert Held(s.threads[t]) != Some(w);
    }
  }

  /** A worker in service that waits for work is out of reach exactly when a push of it once met a full channel. */
  lemma LostExactlyWhenDropped(c: Config, states: seq<State>, events: seq<Event>, k: nat, w: Ref)
    requires Run(c, states, events) && k < |states| && c.http && c.fixedSize
    requires Ok(states[k]) && !states[k].core.stopping && CurrentIdle(states[k].core, w)
    ensures InPlay(states[k], w) <==> forall j :: 0 <= j < k ==> !DroppedAt(c, states, events, j, w)
  {
    if forall j :: 0 <= j < k ==> !DroppedAt(c, states, events, j, w) {
      InPlayUnlessDropped(c, states, events, k, w);
    } else {
      var j :| 0 <= j < k && DroppedAt(c, states, events, j, w);
      DroppedIsLost(c, states, events, j, k, w);
      LetGoIsNotInPlay(states[k], w);
    }
  }
}
