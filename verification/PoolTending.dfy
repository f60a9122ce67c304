/**
 No slot of a fixed-size pool is forgotten, at the granularity of single steps: until the pool stops or its context
 ends, every slot that has not crashed out is booting, watched, being cleared or waiting to restart.
 */
module PoolTending {
  import opened Basics
  import opened CrashPolicy
  import opened PoolModel
  import opened PoolMachine
  import opened PoolShutdown
  import opened PoolLifecycle
  import opened PoolRuns
  import opened PoolTheorems

  /** Nobody has a reason to leave a slot alone. */
  predicate Serving(s: State) { !s.core.stopping && !s.cancelled }

  ghost predicate Tended(c: Config, s: State, i: nat)
    requires i < |s.core.slots|
  {
    || SlotFailed(c, s.core.slots[i])
    || exists t :: 0 <= t < |s.threads| && LooksAfter(s.threads[t]) == Some(i + 1)
  }

  ghost predicate AllTended(c: Config, s: State) {
    forall i :: 0 <= i < |s.core.slots| ==> Tended(c, s, i)
  }

  /** A monitor that will not restart its slot. */
  predicate GivesUp(pc: Pc) {
    match pc
    case AfterExit(_, plan) => plan == NoRestart
    case PurgeStart(_, next) => next.ExitThen? && next.plan == NoRestart
    case PurgeLoop(_, _, next) => next.ExitThen? && next.plan == NoRestart
    case PurgeHand(_, _, _, next) => next.ExitThen? && next.plan == NoRestart
    case _ => false
  }

  /** It decided so only because the pool is stopping. */
  ghost predicate NoneGivesUp(s: State) {
    forall t :: 0 <= t < |s.threads| && GivesUp(s.threads[t]) ==> s.core.stopping
  }

  /** What a step of a goroutine that looks after slot i relies on. */
  ghost predicate Caring(c: Config, s: State, pc: Pc, i: nat)
    requires Ok(s)
  {
    && LooksAfter(pc) == Some(i) && PcOk(s.core, pc)
    && InCare(c, s.core, pc) && !OutOfService(s.core, i)
    && (GivesUp(pc) ==> s.core.stopping)
  }

  /** The care for slot i is kept, passed on, or ends with the slot failed or the pool no longer serving. */
  ghost predicate Tends(c: Config, s: State, f: Effect, i: nat)
    requires Ok(s) && OpOk(s.core, f.op) && ValidSlot(s.core, i)
  {
    var q := ApplyOp(s.core, f.op);
    && (|| LooksAfter(f.next) == Some(i)
        || (exists k :: 0 <= k < |f.spawned| && LooksAfter(f.spawned[k]) == Some(i))
        || (|q.slots| >= i && SlotFailed(c, q.slots[i - 1]))
        || !Serving(s))
    && (GivesUp(f.next) ==> s.core.stopping)
    && (forall k :: 0 <= k < |f.spawned| ==> !GivesUp(f.spawned[k]))
  }

  lemma BootTends(c: Config, s: State, pc: Pc, ch: Choice, i: nat)
    requires Ok(s) && Caring(c, s, pc, i)
    ensures ValidSlot(s.core, i)
    ensures var f := PlanBoot(c, s, pc, ch); f.Some? ==> Tends(c, s, f.value, i)
  {
    hide Recorded, Exceeded;
    var f := PlanBoot(c, s, pc, ch);
    assert f.Some? && f.value.spawned != [] ==> f.value.spawned[0] in f.value.spawned;
  }

  lemma MonitorTends(c: Config, s: State, pc: Pc, ch: Choice, i: nat)
    requires Ok(s) && Caring(c, s, pc, i)
    ensures ValidSlot(s.core, i)
    ensures var f := PlanMonitor(c, s, pc, ch); f.Some? ==> Tends(c, s, f.value, i)
  {
    hide Recorded, Exceeded, SameWorker;
    var f := PlanMonitor(c, s, pc, ch);
    assert f.Some? && f.value.spawned != [] ==> f.value.spawned[0] in f.value.spawned;
  }

  lemma OthersDoNotCare(c: Config, s: State, pc: Pc, ch: Choice, i: nat)
    requires Ok(s) && Caring(c, s, pc, i)
    ensures Plan(c, s, pc, ch) == PlanBoot(c, s, pc, ch) || Plan(c, s, pc, ch) == PlanMonitor(c, s, pc, ch)
  {
    hide PlanRequest, PlanSender, PlanBoot, PlanMonitor, PlanControl, PlanOutside, InCare;
  }

  lemma PlanTends(c: Config, s: State, pc: Pc, ch: Choice, i: nat)
    requires Ok(s) && Caring(c, s, pc, i)
    ensures ValidSlot(s.core, i)
    ensures var f := Plan(c, s, pc, ch); f.Some? ==> Tends(c, s, f.value, i)
  {
    hide Plan, PlanBoot, PlanMonitor, Tends, Caring;
    BootTends(c, s, pc, ch, i);
    MonitorTends(c, s, pc, ch, i);
    OthersDoNotCare(c, s, pc, ch, i);
  }

  lemma CaresWithoutGivingUp(c: Config, s: State, pc: Pc, f: Effect)
    requires Ok(s) && OpOk(s.core, f.op) && Cares(c, s, pc, f) && LooksAfter(pc).None?
    ensures !GivesUp(f.next) && forall k :: 0 <= k < |f.spawned| ==> !GivesUp(f.spawned[k])
  {
    assert forall other: Pc :: GivesUp(other) ==> LooksAfter(other).Some?;
    hide InCare, Resizes;
  }

  lemma StepperCares(c: Config, s: State, t: nat)
    requires Inv(c, s) && c.fixedSize && NoneGivesUp(s) && t < |s.threads| && LooksAfter(s.threads[t]).Some?
    ensures Caring(c, s, s.threads[t], LooksAfter(s.threads[t]).value)
  {
    assert InCare(c, s.core, s.threads[t]);
    assert PcOk(s.core, s.threads[t]);
    hide PcOk;
  }

  lemma CareGoesOn(c: Config, s: State, t: nat, f: Effect, i: nat)
    requires Ok(s) && t < |s.threads| && OpOk(s.core, f.op) && ValidSlot(s.core, i)
    requires Tends(c, s, f, i) && |ApplyOp(s.core, f.op).slots| == |s.core.slots| && Serving(s)
    ensures Tended(c, Perform(s, t, f), i - 1)
  {
    hide PcOk, CoreOk, SlotFailed, LooksAfter;
    var s' := Perform(s, t, f);
    if LooksAfter(f.next) == Some(i) {
      assert s'.threads[t] == f.next;
    } else if k :| 0 <= k < |f.spawned| && LooksAfter(f.spawned[k]) == Some(i) {
      assert s'.threads[|s.threads| + k] == f.spawned[k];
    }
  }

  lemma CareElsewhere(c: Config, s: State, t: nat, f: Effect, u: nat)
    requires Ok(s) && t < |s.threads| && OpOk(s.core, f.op) && u < |s.threads| && u != t
    requires LooksAfter(s.threads[u]).Some? && 1 <= LooksAfter(s.threads[u]).value <= |Perform(s, t, f).core.slots|
    ensures Tended(c, Perform(s, t, f), LooksAfter(s.threads[u]).value - 1)
  {
    hide PcOk, CoreOk, SlotFailed, LooksAfter;
    assert Perform(s, t, f).threads[u] == s.threads[u];
  }

  /** The effect of a step of a fixed-size pool: no slots come or go, and who gives up does so because of stopping. */
  lemma StepperKeeps(c: Config, s: State, e: Event, f: Effect)
    requires Inv(c, s) && c.fixedSize && NoneGivesUp(s) && e.t < |s.threads|
    requires Plan(c, s, s.threads[e.t], e.choice) == Some(f) && OpOk(s.core, f.op)
    ensures |ApplyOp(s.core, f.op).slots| == |s.core.slots|
    ensures (GivesUp(f.next) ==> s.core.stopping) && forall k :: 0 <= k < |f.spawned| ==> !GivesUp(f.spawned[k])
    ensures LooksAfter(s.threads[e.t]).Some? ==>
              ValidSlot(s.core, LooksAfter(s.threads[e.t]).value) && Tends(c, s, f, LooksAfter(s.threads[e.t]).value)
  {
    var pc := s.threads[e.t];
    StepperFacts(c, s, e.t);
    hide Plan, PcOk, Inv, InCare, Resizes, Caring, NoneGivesUp, CoreOk;
    PlanCares(c, s, pc, e.choice);
    if LooksAfter(pc).Some? {
      StepperCares(c, s, e.t);
      PlanTends(c, s, pc, e.choice, LooksAfter(pc).value);
      hide Cares;
    } else {
      CaresWithoutGivingUp(c, s, pc, f);
    }
    SlotsStay(c, s, pc, f);
  }

  lemma StepperFacts(c: Config, s: State, t: nat)
    requires Inv(c, s) && c.fixedSize && t < |s.threads|
    ensures PcOk(s.core, s.threads[t]) && !Resizes(s.threads[t]) && InCare(c, s.core, s.threads[t])
  {
  }

  lemma SlotsStay(c: Config, s: State, pc: Pc, f: Effect)
    requires Ok(s) && OpOk(s.core, f.op) && Cares(c, s, pc, f)
    ensures |ApplyOp(s.core, f.op).slots| == |s.core.slots|
  {
    hide InCare, Resizes;
  }

  lemma FailureStays(c: Config, s: State, e: Event, s': State, i: nat)
    requires Step(c, s, e, s') && Inv(c, s) && c.fixedSize
    requires i < |s.core.slots| && SlotFailed(c, s.core.slots[i])
    ensures i < |s'.core.slots| && SlotFailed(c, s'.core.slots[i])
  {
    hide Step, SlotFailed;
    FailedStaysFailed(c, s, e, s', i);
  }

  lemma StopsForGood(c: Config, s: State, e: Event, s': State)
    requires Step(c, s, e, s')
    ensures s.core.stopping ==> s'.core.stopping
    ensures s.cancelled ==> s'.cancelled
  {
    hide Plan, PcOk;
    if s.core.stopping {
      StoppingIsForever(c, s, e, s');
    }
  }

  lemma GivingUpStays(c: Config, s: State, e: Event, f: Effect)
    requires Ok(s) && e.t < |s.threads| && OpOk(s.core, f.op) && NoneGivesUp(s)
    requires (GivesUp(f.next) ==> s.core.stopping) && forall k :: 0 <= k < |f.spawned| ==> !GivesUp(f.spawned[k])
    requires s.core.stopping ==> Perform(s, e.t, f).core.stopping
    ensures NoneGivesUp(Perform(s, e.t, f))
  {
    hide PcOk, GivesUp, CoreOk;
  }

  lemma StaysTended(c: Config, s: State, t: nat, f: Effect, i: nat)
    requires Ok(s) && t < |s.threads| && OpOk(s.core, f.op) && i < |s.core.slots|
    requires Tended(c, s, i) && Serving(s) && |ApplyOp(s.core, f.op).slots| == |s.core.slots|
    requires SlotFailed(c, s.core.slots[i]) ==> SlotFailed(c, ApplyOp(s.core, f.op).slots[i])
    requires LooksAfter(s.threads[t]) == Some(i + 1) ==> Tends(c, s, f, i + 1)
    ensures Tended(c, Perform(s, t, f), i)
  {
    hide PcOk, CoreOk, SlotFailed, LooksAfter, Tends, Serving;
    if !SlotFailed(c, s.core.slots[i]) {
      var u :| 0 <= u < |s.threads| && LooksAfter(s.threads[u]) == Some(i + 1);
      if u == t {
        CareGoesOn(c, s, t, f, i + 1);
      } else {
        CareElsewhere(c, s, t, f, u);
      }
    }
  }

  lemma AllStayTended(c: Config, s: State, t: nat, f: Effect)
    requires Ok(s) && t < |s.threads| && OpOk(s.core, f.op)
    requires AllTended(c, s) && Serving(s) && |ApplyOp(s.core, f.op).slots| == |s.core.slots|
    requires forall i :: 0 <= i < |s.core.slots| && SlotFailed(c, s.core.slots[i]) ==>
               SlotFailed(c, ApplyOp(s.core, f.op).slots[i])
    requires LooksAfter(s.threads[t]).Some? ==>
               ValidSlot(s.core, LooksAfter(s.threads[t]).value) && Tends(c, s, f, LooksAfter(s.threads[t]).value)
    ensures AllTended(c, Perform(s, t, f))
  {
    hide PcOk, CoreOk, SlotFailed, LooksAfter, Tends, Serving, Tended, ApplyOp;
    forall i | 0 <= i < |s.core.slots| ensures Tended(c, Perform(s, t, f), i) {
      StaysTended(c, s, t, f, i);
    }
  }

  /** One step keeps every slot tended as long as the pool serves. */
  lemma StepKeepsTending(c: Config, s: State, e: Event, s': State)
    requires Step(c, s, e, s') && Inv(c, s) && c.fixedSize && NoneGivesUp(s)
    requires Serving(s) ==> AllTended(c, s)
    ensures NoneGivesUp(s')
    ensures Serving(s') ==> AllTended(c, s')
  {
    hide Inv, Plan, PcOk, Tends, SlotFailed, CoreOk, GivesUp, NoneGivesUp, LooksAfter, AllTended, ApplyOp;
    StopsForGood(c, s, e, s');
    var f := Plan(c, s, s.threads[e.t], e.choice).value;
    StepperKeeps(c, s, e, f);
    GivingUpStays(c, s, e, f);
    if Serving(s') {
      forall i | 0 <= i < |s.core.slots| && SlotFailed(c, s.core.slots[i])
        ensures SlotFailed(c, ApplyOp(s.core, f.op).slots[i])
      {
        FailureStays(c, s, e, s', i);
      }
      AllStayTended(c, s, e.t, f);
    }
  }

  lemma AllTendedAtFirst(c: Config, s: State)
    requires Init(c, s)
    ensures NoneGivesUp(s) && AllTended(c, s)
  {
    forall t | 0 <= t < |s.threads| ensures !GivesUp(s.threads[t]) {
      assert t > 0 ==> s.threads[t] == BootStart(t, false, false);
    }
    forall i | 0 <= i < |s.core.slots| ensures Tended(c, s, i) {
      assert s.threads[i + 1] == BootStart(i + 1, false, false);
    }
  }

  lemma {:induction false} TendedOverRuns(c: Config, states: seq<State>, events: seq<Event>, k: nat)
    requires Run(c, states, events) && k < |states| && c.fixedSize
    ensures NoneGivesUp(states[k])
    ensures Serving(states[k]) ==> AllTended(c, states[k])
    decreases k
  {
    hide Run, Step, Init, Inv, GoodConfig, NoneGivesUp, Serving, AllTended;
    RunUnfolds(c, states, events, if k == 0 then 0 else k - 1);
    if k == 0 {
      AllTendedAtFirst(c, states[0]);
    } else {
      TendedOverRuns(c, states, events, k - 1);
      RunInv(c, states, events, k - 1);
      StepKeepsTending(c, states[k - 1], events[k - 1], states[k]);
    }
  }

  /**
   While a fixed-size pool serves, exactly one goroutine looks after every slot that has not crashed out: it boots
   it, watches its worker, clears it or waits to restart it.
   */
  lemma NoSlotForgotten(c: Config, states: seq<State>, events: seq<Event>, k: nat, i: nat) returns (t: nat)
    requires Run(c, states, events) && k < |states| && c.fixedSize && Serving(states[k])
    requires i < |states[k].core.slots| && !SlotFailed(c, states[k].core.slots[i])
    ensures t < |states[k].threads| && LooksAfter(states[k].threads[t]) == Some(i + 1)
    ensures forall u :: 0 <= u < |states[k].threads| && LooksAfter(states[k].threads[u]) == Some(i + 1) ==> u == t
  {
    hide Run, Serving, SlotFailed, LooksAfter, InCare;
    TendedOverRuns(c, states, events, k);
    RunCared(c, states, events, k);
    assert Tended(c, states[k], i);
    t :| 0 <= t < |states[k].threads| && LooksAfter(states[k].threads[t]) == Some(i + 1);
  }
}
