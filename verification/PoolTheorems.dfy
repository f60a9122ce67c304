/**
 What the pool promises over whole runs: for every configuration, every run and every interleaving of
 single steps. Only WholeRun assumes more, namely that operations do not cut into each other.
 */
module PoolTheorems {
  import opened Basics
  import opened CrashPolicy
  import opened Protocol
  import opened PoolModel
  import opened PoolMachine
  import opened PoolWellFormed
  import opened PoolLocking
  import opened PoolOwnership
  import opened PoolIdentity
  import opened PoolSizing
  import opened Admission
  import opened ResponseMatching
  import opened OrderlyWorkers
  import opened CrashHistory
  import opened PoolShutdown
  import opened PoolLifecycle
  import opened WholeOperations
  import opened PoolRuns

  lemma RunStep(c: Config, states: seq<State>, events: seq<Event>, k: nat)
    requires Run(c, states, events) && k + 1 < |states|
    ensures k < |events| && Step(c, states[k], events[k], states[k + 1])
  {
    hide Step, Init;
  }

  lemma StepHasThread(c: Config, s: State, e: Event, s': State)
    requires Step(c, s, e, s')
    ensures e.t < |s.threads|
  {
  }

  /** No two threads ever hold the same worker, and none holds one that is in the idle channel. */
  lemma ExclusiveOwnership(c: Config, states: seq<State>, events: seq<Event>, k: nat, t: nat, u: nat)
    requires Run(c, states, events) && k < |states|
    requires t < |states[k].threads| && u < |states[k].threads| && t != u && Held(states[k].threads[t]).Some?
    ensures Held(states[k].threads[t]) != Held(states[k].threads[u])
    ensures Held(states[k].threads[t]).value !in states[k].core.idle
    ensures NoDuplicates(states[k].core.idle)
  {
    RunInv(c, states, events, k);
    if t < u {
      assert Held(states[k].threads[t]) != Held(states[k].threads[u]);
    } else {
      assert Held(states[k].threads[u]).Some? ==> Held(states[k].threads[u]) != Held(states[k].threads[t]);
    }
  }

  /** w exists, is not in the idle channel, and no thread holds it. */
  ghost predicate LetGo(s: State, w: Ref) {
    && w < |s.core.workers| && w !in s.core.idle
    && forall t :: 0 <= t < |s.threads| ==> Held(s.threads[t]) != Some(w)
  }

  lemma LetGoStays(s: State, t: nat, f: Effect, w: Ref)
    requires Ok(s) && t < |s.threads| && OpOk(s.core, f.op) && HandsOn(s, s.threads[t], f) && LetGo(s, w)
    ensures LetGo(Perform(s, t, f), w)
  {
    hide Held, PcOk;
  }

  lemma {:induction false} LetGoOverRuns(c: Config, states: seq<State>, events: seq<Event>, k: nat, m: nat, w: Ref)
    requires Run(c, states, events) && k <= m < |states| && LetGo(states[k], w)
    ensures LetGo(states[m], w)
    decreases m
  {
    hide Run, Step, LetGo;
    if k < m {
      RunStep(c, states, events, m - 1);
      LetGoOverRuns(c, states, events, k, m - 1, w);
      LetGoStep(c, states[m - 1], events[m - 1], states[m], w);
    }
  }

  lemma LetGoStep(c: Config, s: State, e: Event, s': State, w: Ref)
    requires Step(c, s, e, s') && LetGo(s, w)
    ensures LetGo(s', w)
  {
    hide Plan, PcOk, HandsOn, LetGo;
    PlanHandsOn(c, s, s.threads[e.t], e.choice);
    LetGoStays(s, e.t, Plan(c, s, s.threads[e.t], e.choice).value, w);
  }

  /** A worker that Discard or a recycling Release has consumed is never queued or held again. */
  lemma ConsumedForever(c: Config, states: seq<State>, events: seq<Event>, k: nat, m: nat)
    requires Run(c, states, events) && k < |events| && k < m < |states|
    requires events[k].t < |states[k].threads| && events[k].t < |states[k + 1].threads|
    requires states[k].threads[events[k].t].Discard? || states[k].threads[events[k].t].Release?
    requires states[k + 1].threads[events[k].t].Done?
    ensures LetGo(states[m], states[k].threads[events[k].t].w)
  {
    var s, t := states[k], events[k].t;
    var w := s.threads[t].w;
    RunInv(c, states, events, k);
    RunStep(c, states, events, k);
    assert Held(s.threads[t]) == Some(w);
    ConsumedHere(c, s, events[k], states[k + 1], w);
    LetGoOverRuns(c, states, events, k + 1, m, w);
  }

  lemma ConsumedHere(c: Config, s: State, e: Event, s': State, w: Ref)
    requires Step(c, s, e, s') && Exclusive(s)
    requires (s.threads[e.t].Discard? || s.threads[e.t].Release?) && w == s.threads[e.t].w && s'.threads[e.t].Done?
    ensures LetGo(s', w)
  {
    var t := e.t;
    assert PcOk(s.core, s.threads[t]);
    hide PcOk, SameGeneration, WantsRecycle, CoreOk;
    assert s'.core.idle == s.core.idle;
    forall u | 0 <= u < |s'.threads| ensures Held(s'.threads[u]) != Some(w) {
      if u < |s.threads| && u != t {
        assert s'.threads[u] == s.threads[u];
        assert if u < t then Held(s.threads[u]).Some? ==> Held(s.threads[u]) != Held(s.threads[t])
               else Held(s.threads[t]) != Held(s.threads[u]);
      }
    }
  }

  /** w exists and no goroutine is about to install it. */
  ghost predicate Settled(s: State, w: Ref)
    requires Ok(s)
  {
    ValidRef(s.core, w) && forall t :: 0 <= t < |s.threads| ==> !Installing(s.threads[t], w)
  }

  lemma CurrentIsSettled(s: State, w: Ref)
    requires Ok(s) && NotYetInstalled(s) && ValidRef(s.core, w) && Current(s.core, w)
    ensures Settled(s, w)
  {
    forall t | 0 <= t < |s.threads| ensures !Installing(s.threads[t], w) {
      if s.threads[t].BootInstall? {
        assert Pending(s.core, s.threads[t]);
      }
    }
  }

  lemma SettledStays(c: Config, s: State, e: Event, s': State, w: Ref)
    requires Step(c, s, e, s') && Settled(s, w)
    ensures Ok(s') && Settled(s', w)
  {
    StepKeepsOk(c, s, e, s');
    hide PcOk, Plan;
    var f := Plan(c, s, s.threads[e.t], e.choice).value;
    PlanDraws(c, s, s.threads[e.t], e.choice);
    forall u | 0 <= u < |s'.threads| ensures !Installing(s'.threads[u], w) {
      if u < |s.threads| && u != e.t {
        assert !Installing(s.threads[u], w);
      }
    }
  }

  lemma {:induction false} SettledOverRuns(c: Config, states: seq<State>, events: seq<Event>, k: nat, m: nat, w: Ref)
    requires Run(c, states, events) && k <= m < |states|
    requires Ok(states[k]) && Settled(states[k], w)
    ensures Ok(states[m]) && Settled(states[m], w)
    decreases m
  {
    hide Run, Step, Settled, PcOk, CoreOk;
    if k < m {
      RunStep(c, states, events, m - 1);
      SettledOverRuns(c, states, events, k, m - 1, w);
      SettledStays(c, states[m - 1], events[m - 1], states[m], w);
    }
  }

  lemma {:induction false} DepartedOverRuns(c: Config, states: seq<State>, events: seq<Event>, j: nat, m: nat, w: Ref)
    requires Run(c, states, events) && j <= m < |states|
    requires Ok(states[j]) && Departed(states[j], w)
    ensures Ok(states[m]) && Departed(states[m], w)
    decreases m
  {
    hide Run, Step, Departed, PcOk, CoreOk;
    if j < m {
      RunStep(c, states, events, m - 1);
      DepartedOverRuns(c, states, events, j, m - 1, w);
      DepartedStaysDeparted(c, states[m - 1], events[m - 1], states[m], w);
    }
  }

  /**
   A worker that was installed at step k and is not at step j has left for good: at every later step m no
   acquire accepts it, and releasing or discarding it leaves every slot and the idle channel as they are.
   */
  lemma DepartedForever(
    c: Config, states: seq<State>, events: seq<Event>, k: nat, j: nat, m: nat, w: Ref, resp: Response)
    requires Run(c, states, events) && k <= j <= m < |states|
    requires Ok(states[k]) && ValidRef(states[k].core, w) && Current(states[k].core, w)
    requires Ok(states[j]) && ValidRef(states[j].core, w) && !Current(states[j].core, w)
    ensures Ok(states[m]) && ValidRef(states[m].core, w) && !Current(states[m].core, w)
    ensures CheckAcquired(states[m].core, w) != Plausible
    ensures DiscardCommit(states[m].core, w) == Keep
    ensures var (op, back) := ReleaseCommit(c, states[m].core, w, resp);
            !back && ApplyOp(states[m].core, op).slots == states[m].core.slots
            && ApplyOp(states[m].core, op).idle == states[m].core.idle
  {
    RunInv(c, states, events, k);
    RunInv(c, states, events, m);
    CurrentIsSettled(states[k], w);
    SettledOverRuns(c, states, events, k, j, w);
    DepartedOverRuns(c, states, events, j, m, w);
    DepartedIsRejected(c, states[m], w, resp);
  }

  /** A request goes on with a response only if that response carries the request's own id. */
  lemma RightResponse(c: Config, states: seq<State>, events: seq<Event>, k: nat, t: nat)
    requires Run(c, states, events) && k < |states|
    requires t < |states[k].threads| && states[k].threads[t].Release?
    ensures states[k].threads[t].resp.id == states[k].threads[t].id
    ensures forall u :: 0 <= u < |states[k].threads| && IsSender(states[k].threads[u]) ==>
              states[k].threads[u].w != states[k].threads[t].w
  {
    RunInv(c, states, events, k);
    var s := states[k];
    forall u | 0 <= u < |s.threads| && IsSender(s.threads[u]) ensures s.threads[u].w != s.threads[t].w {
      assert Compatible(s.threads[u], s.threads[t]);
    }
  }

  /** A connection carries one request at a time, and ids are never shared. */
  lemma OneRequestPerConnection(c: Config, states: seq<State>, events: seq<Event>, k: nat, t: nat, u: nat)
    requires Run(c, states, events) && k < |states|
    requires t < |states[k].threads| && u < |states[k].threads| && t != u
    requires IsSender(states[k].threads[t]) && IsSender(states[k].threads[u])
    ensures states[k].threads[t].w != states[k].threads[u].w && states[k].threads[t].id != states[k].threads[u].id
  {
    RunInv(c, states, events, k);
    assert !SharesConnection(states[k].threads[t], states[k].threads[u]);
  }

  lemma SenderHasRead(c: Config, s: State, e: Event, s': State)
    requires Step(c, s, e, s') && PipesOk(s) && s.threads[e.t].Read? && e.choice.Go?
    requires s.core.workers[s.threads[e.t].w].conn.open
    ensures var id := s.threads[e.t].id;
            id in s'.replies && s'.replies[id].Answered? && s'.replies[id].resp.id == id
  {
    if s.core.workers[s.threads[e.t].w].conn.fromWorker != [] {
      NoMismatch(c, s, e.t);
    }
  }

  /** With orderly workers a sender never posts a failure because of the frame it has read. */
  lemma OrderlyNeverMismatches(c: Config, states: seq<State>, events: seq<Event>, k: nat)
    requires Run(c, states, events) && k < |events| && c.orderly
    requires events[k].t < |states[k].threads| && states[k].threads[events[k].t].Read? && events[k].choice.Go?
    requires PcOk(states[k].core, states[k].threads[events[k].t])
    requires states[k].core.workers[states[k].threads[events[k].t].w].conn.open
    ensures var id := states[k].threads[events[k].t].id;
            id in states[k + 1].replies && states[k + 1].replies[id].Answered?
            && states[k + 1].replies[id].resp.id == id
  {
    RunInv(c, states, events, k);
    RunStep(c, states, events, k);
    SenderHasRead(c, states[k], events[k], states[k + 1]);
  }

  /** No worker ever answers more than max_requests requests. */
  lemma MaxRequestsHonoured(c: Config, states: seq<State>, events: seq<Event>, k: nat, w: Ref)
    requires Run(c, states, events) && k < |states| && c.maxRequests > 0 && w < |states[k].core.workers|
    ensures states[k].core.workers[w].handled <= c.maxRequests
  {
    RunInv(c, states, events, k);
  }

  /** In any window of restart_window the policy allows a restart after at most restart_limit crashes of a slot. */
  lemma VerdictsAreLimited(c: Config, states: seq<State>, events: seq<Event>, k: nat, i: nat, lo: int)
    requires Run(c, states, events) && k < |states| && i < |states[k].core.slots| && c.restartLimit > 0
    ensures AllowedWithin(states[k].core.slots[i].crashes, lo, lo + c.restartWindow) <= c.restartLimit
    ensures states[k].core.slots[i].recent == WindowOf(states[k].core.slots[i].crashes, c.restartWindow)
  {
    RunInv(c, states, events, k);
    AllowedAreLimited(c, states[k], i, lo);
    assert SlotLogged(c, states[k].now, states[k].core.slots[i]);
  }

  lemma RunLogged(c: Config, states: seq<State>, events: seq<Event>, k: nat, i: nat)
    requires Run(c, states, events) && k < |states| && i < |states[k].core.slots|
    ensures SlotLogged(c, states[k].now, states[k].core.slots[i])
  {
    RunInv(c, states, events, k);
  }

  /**
   The policy allows a restart after a crash if and only if it is switched off or the restart_window that ends with the
   crash holds at most restart_limit crashes of the slot, counting all that have ever happened.
   */
  lemma VerdictsAreExact(c: Config, states: seq<State>, events: seq<Event>, k: nat, i: nat, j: nat)
    requires Run(c, states, events) && k < |states| && i < |states[k].core.slots|
    requires j < |states[k].core.slots[i].crashes|
    ensures var crashes := states[k].core.slots[i].crashes;
            && |crashes| == states[k].core.slots[i].restartCount && crashes[j].time <= states[k].now
            && (crashes[j].allowed <==>
                  || c.restartLimit <= 0
                  || CrashesWithin(crashes[..j + 1], crashes[j].time - c.restartWindow, crashes[j].time)
                     <= c.restartLimit)
  {
    hide Run, WindowOf, CrashesWithin, Judged;
    RunLogged(c, states, events, k, i);
    VerdictsCount(states[k].core.slots[i].crashes, c.restartLimit, c.restartWindow, j);
  }

  lemma RunCared(c: Config, states: seq<State>, events: seq<Event>, k: nat)
    requires Run(c, states, events) && k < |states|
    ensures Cared(c, states[k])
  {
    RunInv(c, states, events, k);
  }

  /** In a fixed-size pool a Failed slot is Failed forever and never draws another generation. */
  lemma {:induction false} FailedForever(c: Config, states: seq<State>, events: seq<Event>, k: nat, m: nat, i: nat)
    requires Run(c, states, events) && k <= m < |states| && c.fixedSize
    requires i < |states[k].core.slots| && SlotFailed(c, states[k].core.slots[i])
    ensures i < |states[m].core.slots| && SlotFailed(c, states[m].core.slots[i])
    ensures states[m].core.slots[i].gen == states[k].core.slots[i].gen
    decreases m
  {
    hide Run, Step, Inv, SlotFailed, Cared;
    if k < m {
      FailedForever(c, states, events, k, m - 1, i);
      RunCared(c, states, events, m - 1);
      RunStep(c, states, events, m - 1);
      FailedStaysFailed(c, states[m - 1], events[m - 1], states[m], i);
    }
  }

  /** A fixed-size pool never has two processes for one slot. */
  lemma OneProcess(c: Config, states: seq<State>, events: seq<Event>, k: nat, i: nat, t: nat, u: nat)
    requires Run(c, states, events) && k < |states| && c.fixedSize
    requires t < |states[k].threads| && u < |states[k].threads|
    requires RunsProcess(states[k].threads[t], i) && RunsProcess(states[k].threads[u], i)
    ensures t == u
  {
    RunInv(c, states, events, k);
    OneProcessPerSlot(c, states[k], i, t, u);
  }

  /** At most slots + capacity requests wait or are served by a worker in service, and the counter is exact. */
  lemma BoundedAdmission(c: Config, states: seq<State>, events: seq<Event>, k: nat, serving: set<nat>)
    requires Run(c, states, events) && k < |states|
    requires Ok(states[k]) && forall t :: t in serving ==> InService(states[k], t)
    ensures states[k].waiting == CountIf(states[k].threads, InQueue) <= Max(c.queueCapacity, 0)
    ensures |serving| + states[k].waiting <= |states[k].core.slots| + Max(c.queueCapacity, 0)
    ensures |states[k].core.slots| <= c.maxWorkers
  {
    RunInv(c, states, events, k);
    AdmissionBound(c, states[k], serving);
  }

  /**
   Slots above desired are exactly the retired ones. No worker there is Idle, except one that a section of
   SetDesired, which holds p.mu, has not reached yet.
   */
  lemma SafeScaleDown(c: Config, states: seq<State>, events: seq<Event>, k: nat, i: nat)
    requires Run(c, states, events) && k < |states| && i < |states[k].core.slots|
    ensures Ok(states[k])
    ensures states[k].core.slots[i].retired <==> i + 1 > states[k].core.desired
    ensures RetiredIsNotIdle(states[k].core, i) || (states[k].locked && Unscanned(states[k], i))
    ensures c.minWorkers <= states[k].core.desired <= c.maxWorkers
  {
    RunInv(c, states, events, k);
    if Unscanned(states[k], i) {
      var t :| 0 <= t < |states[k].threads| && Scanning(states[k].threads[t]) && states[k].threads[t].i <= i;
      assert HoldsMu(states[k].threads[t]);
    }
  }

  lemma {:induction false} StoppingOverRuns(c: Config, states: seq<State>, events: seq<Event>, k: nat, m: nat)
    requires Run(c, states, events) && k <= m < |states| && states[k].core.stopping
    ensures states[m].core.stopping && |states[m].core.slots| == |states[k].core.slots|
    decreases m
  {
    hide Run, Step;
    if k < m {
      StoppingOverRuns(c, states, events, k, m - 1);
      RunStep(c, states, events, m - 1);
      StoppingIsForever(c, states[m - 1], events[m - 1], states[m]);
    }
  }

  /** From the moment the pool is stopping, every slot keeps its worker or becomes empty, for good. */
  lemma {:induction false} OccupiedSlotsOnlyShrink(
    c: Config, states: seq<State>, events: seq<Event>, k: nat, m: nat, i: nat)
    requires Run(c, states, events) && k <= m < |states| && states[k].core.stopping
    requires i < |states[k].core.slots|
    ensures states[m].core.stopping && |states[m].core.slots| == |states[k].core.slots|
    ensures states[m].core.slots[i].worker == states[k].core.slots[i].worker || states[m].core.slots[i].worker.None?
    decreases m
  {
    hide Run, Step;
    StoppingOverRuns(c, states, events, k, m);
    if k < m {
      OccupiedSlotsOnlyShrink(c, states, events, k, m - 1, i);
      RunStep(c, states, events, m - 1);
      NothingInstalledWhileStopping(c, states[m - 1], events[m - 1], states[m], i);
    }
  }

  lemma StopWaitEnds(c: Config, s: State, e: Event, s': State)
    requires Step(c, s, e, s') && Stopping(s) && s.threads[e.t].StopWait?
    ensures AllCountedDone(s.threads) && s.core.stopping && s'.core == s.core
  {
    assert PastStopStart(s.threads[e.t]);
  }

  /**
   Shutdown returns with every slot empty, and they stay empty, exactly unless a boot outside the wait group
   has just filled one.
   */
  lemma ShutdownIsComplete(c: Config, states: seq<State>, events: seq<Event>, k: nat, m: nat)
    requires Run(c, states, events) && k < |events| && k < m < |states|
    requires events[k].t < |states[k].threads| && states[k].threads[events[k].t].StopWait?
    ensures AllEmpty(states[k + 1].core) <==> forall t :: !Unregistered(states[k], t)
    ensures (forall t :: !Unregistered(states[k], t)) ==> AllEmpty(states[m].core)
  {
    RunInv(c, states, events, k);
    RunStep(c, states, events, k);
    hide Run, Step;
    StopWaitEnds(c, states[k], events[k], states[k + 1]);
    ShutdownLeavesNothing(states[k]);
    if AllEmpty(states[k].core) {
      StoppingOverRuns(c, states, events, k, m);
      forall i | 0 <= i < |states[m].core.slots| ensures states[m].core.slots[i].worker.None? {
        OccupiedSlotsOnlyShrink(c, states, events, k, m, i);
      }
    }
  }

  // ----- whole operations -----

  ghost predicate WholeRun(c: Config, states: seq<State>, events: seq<Event>) {
    && Run(c, states, events)
    && forall k :: 0 <= k < |events| ==> WholeStep(c, states[k], events[k], states[k + 1])
  }

  lemma InvIsReliable(c: Config, s: State, t: nat)
    requires Inv(c, s) && c.http && c.fixedSize && !s.core.stopping && t < |s.threads|
    ensures Reliable(c, s, t)
  {
  }

  lemma WholeStepKeepsExact(c: Config, s: State, e: Event, s': State, t: nat)
    requires WholeStep(c, s, e, s') && Inv(c, s) && Inv(c, s') && c.http && c.fixedSize && !s'.core.stopping
    requires !s.core.stopping && ExactAt(s, t)
    ensures ExactAt(s', e.t)
  {
    hide Inv, Reliable, Exact, PlanRequest, PlanBoot, PlanMonitor, PlanSender, PlanOutside, PlanControl;
    var pc := s.threads[e.t];
    var f := Plan(c, s, pc, e.choice).value;
    ExactForStepper(s, t, e.t);
    InvIsReliable(c, s, e.t);
    SpawnsNoOperation(c, s, pc, e.choice);
    hide PcOk;
    RequestKeepsExact(c, s, e.t, e.choice);
    BootKeepsExact(c, s, e.t, e.choice);
    MonitorKeepsExact(c, s, e.t, e.choice);
    WireKeepsExact(c, s, e.t, e.choice);
    ControlKeepsExact(c, s, e.t);
  }

  ghost predicate QuietSpawns(f: Effect) {
    forall k :: 0 <= k < |f.spawned| ==> !InOperation(f.spawned[k])
  }

  lemma RequestSpawnsNoOperation(c: Config, s: State, pc: Pc, ch: Choice)
    requires Ok(s) && PcOk(s.core, pc)
    ensures var f := PlanRequest(c, s, pc, ch); f.Some? ==> QuietSpawns(f.value)
  {
    hide SameGeneration, WantsRecycle, CheckAcquired, OutOfService;
  }

  lemma BootSpawnsNoOperation(c: Config, s: State, pc: Pc, ch: Choice)
    requires Ok(s) && PcOk(s.core, pc)
    ensures var f := PlanBoot(c, s, pc, ch); f.Some? ==> QuietSpawns(f.value)
    ensures var f := PlanSender(s, pc, ch); f.Some? ==> QuietSpawns(f.value)
    ensures var f := PlanOutside(c, s, pc, ch); f.Some? ==> QuietSpawns(f.value)
  {
    hide RecordCrash, SlotFailed, ValidResponse, Accepting, MayWrite;
  }

  lemma MonitorSpawnsNoOperation(c: Config, s: State, pc: Pc, ch: Choice)
    requires Ok(s) && PcOk(s.core, pc)
    ensures var f := PlanMonitor(c, s, pc, ch); f.Some? ==> QuietSpawns(f.value)
    ensures var f := PlanControl(c, s, pc); f.Some? ==> QuietSpawns(f.value)
  {
    hide RecordCrash, SlotFailed, PlanAfterExit, OwnsSlot, SameWorker, Rescaled;
    hide MarkAll, Remaining, NothingToResize, Bootable, Spared;
  }

  lemma SpawnsNoOperation(c: Config, s: State, pc: Pc, ch: Choice)
    requires Ok(s) && PcOk(s.core, pc)
    ensures var f := Plan(c, s, pc, ch); f.Some? ==> QuietSpawns(f.value)
  {
    hide PlanRequest, PlanSender, PlanBoot, PlanMonitor, PlanControl, PlanOutside, PcOk, QuietSpawns;
    RequestSpawnsNoOperation(c, s, pc, ch);
    BootSpawnsNoOperation(c, s, pc, ch);
    MonitorSpawnsNoOperation(c, s, pc, ch);
  }

  lemma StoppingBefore(c: Config, s: State, e: Event, s': State)
    requires Step(c, s, e, s') && !s'.core.stopping
    ensures !s.core.stopping
  {
    hide Plan, PcOk;
    if s.core.stopping {
      StoppingIsForever(c, s, e, s');
    }
  }

  lemma WholeRunStep(c: Config, states: seq<State>, events: seq<Event>, k: nat)
    requires WholeRun(c, states, events)
    ensures Run(c, states, events) && GoodConfig(c) && |states| == |events| + 1 && Init(c, states[0])
    ensures k < |events| ==> WholeStep(c, states[k], events[k], states[k + 1])
  {
  }

  lemma ExactAtFirst(c: Config, s: State)
    requires Init(c, s) && Ok(s) && c.http
    ensures ExactAt(s, 0)
  {
    forall u | 0 <= u < |s.threads| ensures !InOperation(s.threads[u]) {
      assert u > 0 ==> s.threads[u] == BootStart(u, false, false);
    }
  }

  lemma ExactAfter(c: Config, s: State, e: Event, s': State, u: nat)
    requires WholeStep(c, s, e, s') && Inv(c, s) && Inv(c, s') && c.http && c.fixedSize && !s'.core.stopping
    requires !s.core.stopping ==> ExactAt(s, u)
    ensures !s.core.stopping && ExactAt(s', e.t)
  {
    hide Inv, Step, Exact, Calm;
    StoppingBefore(c, s, e, s');
    WholeStepKeepsExact(c, s, e, s', u);
  }

  /** In a whole run the idle channel is exact in every state, up to what one operating thread has in hand. */
  lemma {:induction false} ChannelIsExact(c: Config, states: seq<State>, events: seq<Event>, k: nat) returns (t: nat)
    requires WholeRun(c, states, events) && k < |states|
    requires c.http && c.fixedSize && !states[k].core.stopping
    ensures Ok(states[k]) && ExactAt(states[k], t)
  {
    hide Run, Step, WholeRun, WholeStep, Init, GoodConfig, ExactAt, PcOk, CoreOk;
    WholeRunStep(c, states, events, if k == 0 then 0 else k - 1);
    RunInv(c, states, events, k);
    assert Ok(states[k]) by { InvIsOk(c, states[k]); }
    if k == 0 {
      ExactAtFirst(c, states[0]);
      t := 0;
    } else {
      RunInv(c, states, events, k - 1);
      hide Inv;
      t := events[k - 1].t;
      assert Ok(states[k - 1]) by { InvIsOk(c, states[k - 1]); }
      assert !states[k - 1].core.stopping by { WholeStoppingBefore(c, states[k - 1], events[k - 1], states[k]); }
      var u := ChannelIsExact(c, states, events, k - 1);
      ExactAfter(c, states[k - 1], events[k - 1], states[k], u);
    }
  }

  lemma InvIsOk(c: Config, s: State)
    requires Inv(c, s)
    ensures Ok(s)
  {
  }

  lemma WholeStoppingBefore(c: Config, s: State, e: Event, s': State)
    requires WholeStep(c, s, e, s') && !s'.core.stopping
    ensures !s.core.stopping
  {
    hide Step, Calm;
    StoppingBefore(c, s, e, s');
  }

  /**
   No idle worker is lost and none is stale: whenever no operation is in progress, the channel holds every
   current Idle worker, each once, and nothing else; so it never exceeds the slots or its own capacity.
   */
  lemma NoIdleWorkerLost(c: Config, states: seq<State>, events: seq<Event>, k: nat)
    requires WholeRun(c, states, events) && k < |states|
    requires c.http && c.fixedSize && !states[k].core.stopping
    requires forall t :: 0 <= t < |states[k].threads| ==> !InOperation(states[k].threads[t])
    ensures Ok(states[k]) && NoDuplicates(states[k].core.idle)
    ensures forall w :: w in states[k].core.idle <==> CurrentIdle(states[k].core, w)
    ensures |states[k].core.idle| <= |states[k].core.slots| <= c.idleCap
  {
    RunInv(c, states, events, k);
    var t := ChannelIsExact(c, states, events, k);
    var s := states[k];
    assert !InOperation(s.threads[t]);
    forall w | w in s.core.idle ensures CurrentIdle(s.core, w) {
      var i :| 0 <= i < |s.core.idle| && s.core.idle[i] == w;
    }
  }

  /** The three "idle channel full" branches (316-322, 404-407, 720-724) are never taken. */
  lemma NeverFull(c: Config, states: seq<State>, events: seq<Event>, k: nat, t: nat)
    requires WholeRun(c, states, events) && k < |states|
    requires c.http && c.fixedSize && !states[k].core.stopping
    requires t < |states[k].threads| && Carries(states[k].threads[t]).Some?
    ensures |states[k].core.idle| < c.idleCap
  {
    RunInv(c, states, events, k);
    var u := ChannelIsExact(c, states, events, k);
    assert InOperation(states[k].threads[t]);
  }

  /** An acquire never meets a stale or busy worker: what it receives it claims. */
  lemma AcquireNeverRejects(c: Config, states: seq<State>, events: seq<Event>, k: nat, t: nat)
    requires WholeRun(c, states, events) && k < |states|
    requires c.http && c.fixedSize && !states[k].core.stopping
    requires t < |states[k].threads|
    requires states[k].threads[t].Check? || states[k].threads[t].Inspect? || states[k].threads[t].Claim?
    ensures Ok(states[k]) && PcOk(states[k].core, states[k].threads[t])
    ensures CheckAcquired(states[k].core, states[k].threads[t].w) == Plausible
    ensures states[k].core.workers[states[k].threads[t].w].state == Idle
  {
    RunInv(c, states, events, k);
    var u := ChannelIsExact(c, states, events, k);
    assert InOperation(states[k].threads[t]);
    assert CurrentIdle(states[k].core, states[k].threads[t].w);
  }
}
