/**
 Slots that have exceeded their crash limit (internal/worker/pool.go:428-433) on pools of any kind. The limit is
 tested where a crash is recorded and where SetDesired looks for slots to boot, but not where a boot or a restart
 that is already under way goes on. So a failed slot boots again exactly if somebody is on the way to it.
 */
module FailedSlots {
  import opened Basics
  import opened CrashPolicy
  import opened Protocol
  import opened PoolModel
  import opened PoolMachine
  import opened PoolShutdown
  import opened ShutdownCompleteness
  import opened CrashBoots
  import opened Continuations

  predicate ThenComesTo(next: Then, i: nat) {
    match next
    case ExitThen(j, plan) => j == i && plan != NoRestart
    case ResizeThen(_, boots) => i in boots
  }

  /** A goroutine that may go on to draw a generation for slot i, which holds `worker`. */
  predicate OnTheWay(pc: Pc, i: nat, worker: Option<Ref>) {
    match pc
    case BootStart(j, _, _) => j == i
    case BootRun(j, _, _, _) => j == i
    case BootFail(j, afterCrash, _) => j == i && afterCrash
    case BootInstall(j, _, _) => j == i
    case BootWatch(j, w, _) => j == i && worker == Some(w)
    case Watch(j, w) => j == i && worker == Some(w)
    case Clear(j, w, _) => j == i && worker == Some(w)
    case AfterExit(j, plan) => j == i && plan != NoRestart
    case CrashExit(j) => j == i
    case PurgeStart(_, next) => ThenComesTo(next, i)
    case PurgeLoop(_, _, next) => ThenComesTo(next, i)
    case PurgeHand(_, _, _, next) => ThenComesTo(next, i)
    case RestartWait(j, _) => j == i
    case RestartCheck(j, _) => j == i
    case ResizeScan(_, _, _, boots) => i in boots
    case ResizeMark(_, _, _, _, boots) => i in boots
    case ResizeNext(_, boots) => i in boots
    case _ => false
  }

  /** Some continuation draws a generation for slot i. */
  ghost predicate CanBoot(c: Config, s: State, i: nat) {
    i > 0 && exists s' :: Leads(c, s, s') && DrawsSince(s, s', i - 1)
  }

  ghost predicate SomebodyComes(s: State, i: nat)
    requires ValidSlot(s.core, i)
  {
    exists u :: 0 <= u < |s.threads| && OnTheWay(s.threads[u], i, s.core.slots[i - 1].worker)
  }

  /** A failed slot that holds no worker and that nobody is on the way to. */
  ghost predicate Forsaken(c: Config, s: State, i: nat) {
    && ValidSlot(s.core, i) && SlotFailed(c, s.core.slots[i - 1]) && s.core.slots[i - 1].worker.None?
    && !SomebodyComes(s, i)
  }

  lemma NobodyMeansEmpty(s: State, i: nat)
    requires Ok(s) && Watched(s) && ValidSlot(s.core, i) && !SomebodyComes(s, i)
    ensures s.core.slots[i - 1].worker.None?
  {
    if s.core.slots[i - 1].worker.Some? {
      var w := s.core.slots[i - 1].worker.value;
      assert HasWatcher(s, i - 1 + 1, w);
      var u :| 0 <= u < |s.threads| && Watches(s.threads[u], i, w);
      assert OnTheWay(s.threads[u], i, Some(w));
    }
  }

  // ----- nobody comes: never again -----

  ghost predicate SameCrashes(before: Slot, after: Slot) {
    after.worker.None? && after.recent == before.recent && after.gen == before.gen
  }

  ghost predicate StaysAway(s: State, f: Effect, i: nat)
    requires Ok(s) && OpOk(s.core, f.op) && ValidSlot(s.core, i)
  {
    && !OnTheWay(f.next, i, None)
    && (forall k :: 0 <= k < |f.spawned| ==> !OnTheWay(f.spawned[k], i, None))
    && (f.op.PutSlot? && f.op.i == i ==> SameCrashes(s.core.slots[i - 1], f.op.slot))
    && (f.op.PutBoth? && f.op.i == i ==> SameCrashes(s.core.slots[i - 1], f.op.slot))
  }

  lemma RequestStaysAway(c: Config, s: State, pc: Pc, ch: Choice, i: nat)
    requires Ok(s) && PcOk(s.core, pc) && ValidSlot(s.core, i) && s.core.slots[i - 1].worker.None?
    ensures var f := PlanRequest(c, s, pc, ch); f.Some? ==> StaysAway(s, f.value, i)
  {
    if pc.Release? || pc.Discard? {
      hide WantsRecycle, OutOfService, CheckAcquired;
    } else {
      hide ReleaseCommit, DiscardCommit;
      hide CheckAcquired, OutOfService, CoreOk;
    }
  }

  lemma WireStaysAway(c: Config, s: State, pc: Pc, ch: Choice, i: nat)
    requires Ok(s) && PcOk(s.core, pc) && ValidSlot(s.core, i) && s.core.slots[i - 1].worker.None?
    ensures var f := PlanSender(s, pc, ch); f.Some? ==> StaysAway(s, f.value, i)
    ensures var f := PlanOutside(c, s, pc, ch); f.Some? ==> StaysAway(s, f.value, i)
  {
    hide ValidResponse, MayWrite;
  }

  lemma BootStaysAway(c: Config, s: State, pc: Pc, ch: Choice, i: nat)
    requires Ok(s) && PcOk(s.core, pc) && ValidSlot(s.core, i) && s.core.slots[i - 1].worker.None?
    requires SlotFailed(c, s.core.slots[i - 1]) && !OnTheWay(pc, i, None)
    ensures var f := PlanBoot(c, s, pc, ch); f.Some? ==> StaysAway(s, f.value, i)
  {
    hide RecordCrash, Exceeded, Accepting;
  }

  lemma MonitorStaysAway(c: Config, s: State, pc: Pc, ch: Choice, i: nat)
    requires Ok(s) && PcOk(s.core, pc) && ValidSlot(s.core, i) && s.core.slots[i - 1].worker.None?
    requires SlotFailed(c, s.core.slots[i - 1]) && !OnTheWay(pc, i, None)
    ensures var f := PlanMonitor(c, s, pc, ch); f.Some? ==> StaysAway(s, f.value, i)
  {
    hide RecordCrash, Exceeded, PlanAfterExit, SameWorker;
  }

  lemma ScanStaysAway(c: Config, s: State, pc: Pc, i: nat)
    requires Ok(s) && PcOk(s.core, pc) && ValidSlot(s.core, i) && s.core.slots[i - 1].worker.None?
    requires SlotFailed(c, s.core.slots[i - 1]) && !OnTheWay(pc, i, None) && (pc.ResizeScan? || pc.ResizeMark?)
    ensures var f := PlanControl(c, s, pc); f.Some? ==> StaysAway(s, f.value, i)
  {
    hide SlotFailed, Spared;
    if pc.ResizeMark? || pc.i < |s.core.slots| {
      assert Installable(s.core, pc.i + 1, s.core.slots[pc.i].worker);
    }
  }

  lemma ControlStaysAway(c: Config, s: State, pc: Pc, i: nat)
    requires Ok(s) && PcOk(s.core, pc) && ValidSlot(s.core, i) && s.core.slots[i - 1].worker.None?
    requires SlotFailed(c, s.core.slots[i - 1]) && !OnTheWay(pc, i, None)
    ensures var f := PlanControl(c, s, pc); f.Some? ==> StaysAway(s, f.value, i)
  {
    if pc.ResizeScan? || pc.ResizeMark? {
      hide *;
      ScanStaysAway(c, s, pc, i);
    } else {
      hide Rescaled, MarkAll, Remaining, NothingToResize, SlotFailed, CoreOk, AllCountedDone;
    }
  }

  lemma PlanStaysAway(c: Config, s: State, pc: Pc, ch: Choice, i: nat)
    requires Ok(s) && PcOk(s.core, pc) && ValidSlot(s.core, i) && s.core.slots[i - 1].worker.None?
    requires SlotFailed(c, s.core.slots[i - 1]) && !OnTheWay(pc, i, None)
    ensures var f := Plan(c, s, pc, ch); f.Some? ==> StaysAway(s, f.value, i)
  {
    hide PlanRequest, PlanSender, PlanBoot, PlanMonitor, PlanControl, PlanOutside, PcOk, StaysAway, OnTheWay;
    RequestStaysAway(c, s, pc, ch, i);
    WireStaysAway(c, s, pc, ch, i);
    BootStaysAway(c, s, pc, ch, i);
    MonitorStaysAway(c, s, pc, ch, i);
    ControlStaysAway(c, s, pc, i);
  }

  lemma ForsakenStays(c: Config, s: State, e: Event, s': State, i: nat)
    requires Step(c, s, e, s') && Forsaken(c, s, i)
    ensures Forsaken(c, s', i) && s'.core.slots[i - 1].gen == s.core.slots[i - 1].gen
  {
    hide Plan, PcOk, CoreOk, OnTheWay, SlotFailed;
    assert !OnTheWay(s.threads[e.t], i, None);
    PlanStaysAway(c, s, s.threads[e.t], e.choice, i);
    var f := Plan(c, s, s.threads[e.t], e.choice).value;
    SlotStaysFailed(c, s.core.slots[i - 1], s'.core.slots[i - 1]);
    forall u | 0 <= u < |s'.threads| ensures !OnTheWay(s'.threads[u], i, None) {
      if u < |s.threads| && u != e.t {
        assert !OnTheWay(s.threads[u], i, None);
      }
    }
  }

  lemma SlotStaysFailed(c: Config, before: Slot, after: Slot)
    requires SlotFailed(c, before) && after.recent == before.recent
    ensures SlotFailed(c, after)
  {
  }

  lemma {:induction false} ForsakenOverPaths(c: Config, states: seq<State>, events: seq<Event>, m: nat, i: nat)
    requires Path(c, states, events) && m < |states| && Forsaken(c, states[0], i)
    ensures Forsaken(c, states[m], i) && states[m].core.slots[i - 1].gen == states[0].core.slots[i - 1].gen
  {
    hide Step, Forsaken;
    if m > 0 {
      ForsakenOverPaths(c, states, events, m - 1, i);
      ForsakenStays(c, states[m - 1], events[m - 1], states[m], i);
    } else {
      ForsakenIsValid(c, states[0], i);
    }
  }

  lemma ForsakenIsValid(c: Config, s: State, i: nat)
    requires Forsaken(c, s, i)
    ensures ValidSlot(s.core, i)
  {
  }

  lemma {:induction false} StoppingOverPaths(c: Config, states: seq<State>, events: seq<Event>, m: nat, i: nat)
    requires Path(c, states, events) && m < |states| && states[0].core.stopping && i < |states[0].core.slots|
    ensures states[m].core.stopping && i < |states[m].core.slots|
    ensures states[m].core.slots[i].gen == states[0].core.slots[i].gen
  {
    hide Step;
    if m > 0 {
      StoppingOverPaths(c, states, events, m - 1, i);
      StoppingDrawsNothing(c, states[m - 1], events[m - 1], states[m], i);
    }
  }

  /** A stopping pool boots nothing, and nobody boots a forsaken slot. */
  lemma NeverBootsAgain(c: Config, s: State, i: nat)
    requires ValidSlot(s.core, i) && (s.core.stopping || Forsaken(c, s, i))
    ensures !CanBoot(c, s, i)
  {
    hide Step, Forsaken;
    forall s' | Leads(c, s, s') ensures !DrawsSince(s, s', i - 1) {
      var states, events :| Path(c, states, events) && states[0] == s && states[|events|] == s';
      if s.core.stopping {
        StoppingOverPaths(c, states, events, |events|, i - 1);
      } else {
        ForsakenOverPaths(c, states, events, |events|, i);
      }
    }
  }
}
