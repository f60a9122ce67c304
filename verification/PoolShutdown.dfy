/**
 Shutdown (internal/worker/pool.go:824-893), at the granularity of single steps. Every installed worker is
 watched by a goroutine that will clear its slot; once the pool is stopping nothing is installed and every
 worker left is on the terminate path. What Shutdown finds when p.wg drains is characterised exactly.
 */
module PoolShutdown {
  import opened Basics
  import opened Protocol
  import opened PoolModel
  import opened PoolMachine
  import opened PoolWellFormed

  /** The goroutine responsible for clearing slot i of w. */
  predicate Watches(pc: Pc, i: nat, w: Ref) {
    match pc
    case BootWatch(slot, r, _) => slot == i && r == w
    case Watch(slot, r) => slot == i && r == w
    case Clear(slot, r, _) => slot == i && r == w
    case _ => false
  }

  ghost predicate InstalledIn(p: Core, i: nat, w: Ref) {
    ValidSlot(p, i) && p.slots[i - 1].worker == Some(w)
  }

  ghost predicate HasWatcher(s: State, i: nat, w: Ref) {
    exists t :: 0 <= t < |s.threads| && Watches(s.threads[t], i, w)
  }

  ghost predicate Watched(s: State) {
    forall i :: 0 <= i < |s.core.slots| && s.core.slots[i].worker.Some? ==>
      HasWatcher(s, i + 1, s.core.slots[i].worker.value)
  }

  ghost predicate Condemned(s: State, w: Ref)
    requires ValidRef(s.core, w)
  {
    || !s.core.workers[w].conn.open
    || exists t :: 0 <= t < |s.threads| && s.threads[t] == Terminate(w)
  }

  predicate PastStopStart(pc: Pc) {
    pc.StopCancel? || pc.StopDrain? || pc.StopWorker? || pc.StopMark? || pc.StopWait? || pc.StopDone?
  }

  predicate PastMarking(pc: Pc) { pc.StopWait? || pc.StopDone? }

  ghost predicate AllCondemned(s: State)
    requires CoreOk(s.core)
  {
    forall i :: 0 <= i < |s.core.slots| ==> SlotCondemned(s, i)
  }

  ghost predicate SlotCondemned(s: State, i: nat)
    requires CoreOk(s.core) && i < |s.core.slots|
  {
    assert Installable(s.core, i + 1, s.core.slots[i].worker);
    s.core.slots[i].worker.Some? ==> Condemned(s, s.core.slots[i].worker.value)
  }

  ghost predicate Stopping(s: State)
    requires CoreOk(s.core)
  {
    && (forall t :: 0 <= t < |s.threads| && PastStopStart(s.threads[t]) ==> s.core.stopping)
    && ((exists t :: 0 <= t < |s.threads| && PastMarking(s.threads[t])) ==> AllCondemned(s))
  }

  ghost predicate Closes(s: State, pc: Pc, f: Effect)
    requires Ok(s) && OpOk(s.core, f.op)
  {
    // watching
    && (f.op.PutSlot? ==> f.op.slot.worker == s.core.slots[f.op.i - 1].worker || f.op.slot.worker.None?
                          || (Watches(f.next, f.op.i, f.op.slot.worker.value) && !s.core.stopping))
    && (f.op.PutBoth? ==> f.op.slot.worker == s.core.slots[f.op.i - 1].worker || f.op.slot.worker.None?)
    && (pc.BootWatch? ==> f.spawned == [Watch(pc.slot, pc.w)] && f.op.Keep?)
    && (pc.Watch? ==> Watches(f.next, pc.slot, pc.w) && f.op.Keep?)
    && (pc.Clear? ==> (f.op.PutBoth? && f.op.i == pc.slot && f.op.slot.worker.None?)
                      || !InstalledIn(s.core, pc.slot, pc.w))
    // terminating
    && (f.op.PutWorker? ==> (f.op.worker.conn.open ==> s.core.workers[f.op.w].conn.open))
    && (f.op.PutBoth? ==> (f.op.worker.conn.open ==> s.core.workers[f.op.w].conn.open))
    && (pc.Terminate? ==> f.op.PutWorker? && f.op.w == pc.w && !f.op.worker.conn.open)
    // stopping
    && (PastStopStart(f.next) ==> PastStopStart(pc) || (f.op.Replace? && f.op.core.stopping))
    && (forall k :: 0 <= k < |f.spawned| ==> !PastStopStart(f.spawned[k]))
    && (PastMarking(f.next) ==> PastMarking(pc) || MarksAll(s, pc, f))
    && (f.next.StopDone? ==> pc.StopWait?)
  }

  ghost predicate MarksAll(s: State, pc: Pc, f: Effect) {
    && pc.StopMark? && f.op.Replace? && f.op.core.slots == MarkedSlots(s.core.slots)
    && (forall i :: 0 <= i < |s.core.slots| && s.core.slots[i].worker.Some? ==>
          Terminate(s.core.slots[i].worker.value) in f.spawned)
  }

  lemma MarkSpawns(slots: seq<Slot>, spawned: seq<Pc>)
    requires |spawned| == |Remaining(slots)|
    requires forall k :: 0 <= k < |spawned| ==> spawned[k] == Terminate(Remaining(slots)[k])
    ensures forall i :: 0 <= i < |slots| && slots[i].worker.Some? ==> Terminate(slots[i].worker.value) in spawned
  {
    forall i | 0 <= i < |slots| && slots[i].worker.Some? ensures Terminate(slots[i].worker.value) in spawned {
      RemainingComplete(slots, i);
      var k :| 0 <= k < |Remaining(slots)| && Remaining(slots)[k] == slots[i].worker.value;
      assert spawned[k] == Terminate(slots[i].worker.value);
    }
  }

  lemma GiveBackCloses(c: Config, s: State, pc: Pc, ch: Choice)
    requires Ok(s) && PcOk(s.core, pc)
    requires pc.Release? || pc.Discard?
    ensures var f := PlanRequest(c, s, pc, ch); f.Some? ==> Closes(s, pc, f.value)
  {
    hide SameGeneration, WantsRecycle, CheckAcquired, OutOfService, Watches, MarksAll, InstalledIn;
  }

  lemma RequestCloses(c: Config, s: State, pc: Pc, ch: Choice)
    requires Ok(s) && PcOk(s.core, pc)
    ensures var f := PlanRequest(c, s, pc, ch); f.Some? ==> Closes(s, pc, f.value)
  {
    if pc.Release? || pc.Discard? {
      GiveBackCloses(c, s, pc, ch);
    } else {
      hide ReleaseCommit, DiscardCommit;
      hide CheckAcquired, OutOfService, Watches, MarksAll, InstalledIn;
    }
  }

  lemma BootCloses(c: Config, s: State, pc: Pc, ch: Choice)
    requires Ok(s) && PcOk(s.core, pc)
    ensures var f := PlanBoot(c, s, pc, ch); f.Some? ==> Closes(s, pc, f.value)
  {
    hide RecordCrash, SlotFailed, ValidResponse, MayWrite;
  }

  lemma WireCloses(c: Config, s: State, pc: Pc, ch: Choice)
    requires Ok(s) && PcOk(s.core, pc)
    ensures var f := PlanSender(s, pc, ch); f.Some? ==> Closes(s, pc, f.value)
    ensures var f := PlanOutside(c, s, pc, ch); f.Some? ==> Closes(s, pc, f.value)
  {
    hide RecordCrash, SlotFailed, ValidResponse, MayWrite;
  }

  lemma MonitorCloses(c: Config, s: State, pc: Pc, ch: Choice)
    requires Ok(s) && PcOk(s.core, pc)
    ensures var f := PlanMonitor(c, s, pc, ch); f.Some? ==> Closes(s, pc, f.value)
  {
    hide RecordCrash, SlotFailed, PlanAfterExit, SameWorker;
  }

  lemma ControlCloses(c: Config, s: State, pc: Pc)
    requires Ok(s) && PcOk(s.core, pc)
    ensures var f := PlanControl(c, s, pc); f.Some? ==> Closes(s, pc, f.value)
  {
    hide Rescaled, Bootable, Spared, NothingToResize, Remaining, MarkedSlots, MarkedWorkers;
    if pc.StopMark? {
      var f := PlanControl(c, s, pc);
      if f.Some? {
        MarkSpawns(s.core.slots, f.value.spawned);
      }
    }
  }

  lemma PlanCloses(c: Config, s: State, pc: Pc, ch: Choice)
    requires Ok(s) && PcOk(s.core, pc)
    ensures var f := Plan(c, s, pc, ch); f.Some? ==> Closes(s, pc, f.value)
  {
    hide PlanRequest, PlanSender, PlanBoot, PlanMonitor, PlanControl, PlanOutside, PcOk, Closes;
    RequestCloses(c, s, pc, ch);
    BootCloses(c, s, pc, ch);
    WireCloses(c, s, pc, ch);
    MonitorCloses(c, s, pc, ch);
    ControlCloses(c, s, pc);
  }

  lemma WatchedPreserved(s: State, t: nat, f: Effect)
    requires Ok(s) && t < |s.threads| && OpOk(s.core, f.op) && EffectOk(s, f)
    requires Watched(s) && Closes(s, s.threads[t], f)
    ensures Watched(Perform(s, t, f))
  {
    hide PcOk;
    var s' := Perform(s, t, f);
    forall i | 0 <= i < |s'.core.slots| && s'.core.slots[i].worker.Some?
      ensures HasWatcher(s', i + 1, s'.core.slots[i].worker.value)
    {
      var w := s'.core.slots[i].worker.value;
      if i < |s.core.slots| && s.core.slots[i].worker == Some(w) {
        var u :| 0 <= u < |s.threads| && Watches(s.threads[u], i + 1, w);
        if u != t || Watches(f.next, i + 1, w) {
          assert Watches(s'.threads[u], i + 1, w);
        } else {
          assert Watches(s'.threads[|s.threads|], i + 1, w);
        }
      } else {
        assert Watches(s'.threads[t], i + 1, w);
      }
    }
  }

  lemma StoppingPreserved(s: State, t: nat, f: Effect)
    requires Ok(s) && t < |s.threads| && OpOk(s.core, f.op) && EffectOk(s, f)
    requires Stopping(s) && Closes(s, s.threads[t], f)
    ensures Stopping(Perform(s, t, f))
  {
    hide PcOk, Watches, MarksAll, AllCondemned;
    var s' := Perform(s, t, f);
    if exists u :: 0 <= u < |s'.threads| && PastMarking(s'.threads[u]) {
      if exists u :: 0 <= u < |s.threads| && PastMarking(s.threads[u]) {
        var u :| 0 <= u < |s.threads| && PastMarking(s.threads[u]);
        assert PastStopStart(s.threads[u]);
        CondemnedPreserved(s, t, f);
      } else {
        var u :| 0 <= u < |s'.threads| && PastMarking(s'.threads[u]);
        assert u == t;
        MarkingCondemns(s, t, f);
      }
    }
  }

  lemma CondemnedPreserved(s: State, t: nat, f: Effect)
    requires Ok(s) && t < |s.threads| && OpOk(s.core, f.op) && EffectOk(s, f)
    requires s.core.stopping && AllCondemned(s) && Closes(s, s.threads[t], f)
    ensures AllCondemned(Perform(s, t, f))
  {
    hide PcOk, Watches, MarksAll;
    var s' := Perform(s, t, f);
    forall i | 0 <= i < |s'.core.slots| ensures SlotCondemned(s', i) {
      if s'.core.slots[i].worker.Some? {
        assert i < |s.core.slots| && SlotCondemned(s, i);
        assert Installable(s.core, i + 1, s.core.slots[i].worker);
        var w := s'.core.slots[i].worker.value;
        if s.core.workers[w].conn.open {
          var u :| 0 <= u < |s.threads| && s.threads[u] == Terminate(w);
          if u != t {
            assert s'.threads[u] == Terminate(w);
          }
        }
      }
    }
  }

  lemma MarkingCondemns(s: State, t: nat, f: Effect)
    requires Ok(s) && t < |s.threads| && OpOk(s.core, f.op) && EffectOk(s, f)
    requires MarksAll(s, s.threads[t], f)
    ensures AllCondemned(Perform(s, t, f))
  {
    hide PcOk, Watches;
    var s' := Perform(s, t, f);
    forall i | 0 <= i < |s'.core.slots| ensures SlotCondemned(s', i) {
      if s'.core.slots[i].worker.Some? {
        var w := s'.core.slots[i].worker.value;
        var k :| 0 <= k < |f.spawned| && f.spawned[k] == Terminate(w);
        assert s'.threads[|s.threads| + k] == Terminate(w);
      }
    }
  }

  /** Once the pool is stopping, a slot keeps its worker or loses it. */
  lemma NothingInstalledWhileStopping(c: Config, s: State, e: Event, s': State, i: nat)
    requires Step(c, s, e, s') && s.core.stopping && i < |s.core.slots|
    ensures i < |s'.core.slots|
    ensures s'.core.slots[i].worker == s.core.slots[i].worker || s'.core.slots[i].worker.None?
  {
    hide PcOk, Plan;
    PlanCloses(c, s, s.threads[e.t], e.choice);
  }

  ghost predicate KeepsStopping(s: State, f: Effect) {
    s.core.stopping && f.op.Replace? ==> f.op.core.stopping && |f.op.core.slots| == |s.core.slots|
  }

  lemma RequestKeepsStopping(c: Config, s: State, pc: Pc, ch: Choice)
    requires Ok(s) && PcOk(s.core, pc)
    ensures var f := PlanRequest(c, s, pc, ch); f.Some? ==> KeepsStopping(s, f.value)
  {
    hide SameGeneration, WantsRecycle, CheckAcquired, OutOfService;
  }

  lemma BootKeepsStopping(c: Config, s: State, pc: Pc, ch: Choice)
    requires Ok(s) && PcOk(s.core, pc)
    ensures var f := PlanBoot(c, s, pc, ch); f.Some? ==> KeepsStopping(s, f.value)
    ensures var f := PlanSender(s, pc, ch); f.Some? ==> KeepsStopping(s, f.value)
    ensures var f := PlanOutside(c, s, pc, ch); f.Some? ==> KeepsStopping(s, f.value)
  {
    hide RecordCrash, SlotFailed, ValidResponse, Accepting, MayWrite;
  }

  lemma MonitorKeepsStopping(c: Config, s: State, pc: Pc, ch: Choice)
    requires Ok(s) && PcOk(s.core, pc)
    ensures var f := PlanMonitor(c, s, pc, ch); f.Some? ==> KeepsStopping(s, f.value)
    ensures var f := PlanControl(c, s, pc); f.Some? ==> KeepsStopping(s, f.value)
  {
    hide RecordCrash, SlotFailed, PlanAfterExit, OwnsSlot, SameWorker, Bootable, Spared;
    hide Remaining, MarkedSlots, MarkedWorkers, NeedsBoot;
  }

  lemma PlanKeepsStopping(c: Config, s: State, pc: Pc, ch: Choice)
    requires Ok(s) && PcOk(s.core, pc)
    ensures var f := Plan(c, s, pc, ch); f.Some? ==> KeepsStopping(s, f.value)
  {
    hide PlanRequest, PlanSender, PlanBoot, PlanMonitor, PlanControl, PlanOutside, PcOk, KeepsStopping;
    RequestKeepsStopping(c, s, pc, ch);
    BootKeepsStopping(c, s, pc, ch);
    MonitorKeepsStopping(c, s, pc, ch);
  }

  /** Stopping is never revoked, and a stopping pool is not resized any more. */
  lemma StoppingIsForever(c: Config, s: State, e: Event, s': State)
    requires Step(c, s, e, s') && s.core.stopping
    ensures s'.core.stopping && |s'.core.slots| == |s.core.slots|
  {
    hide PcOk, Plan;
    PlanKeepsStopping(c, s, s.threads[e.t], e.choice);
  }

  /** A goroutine outside p.wg between installing its worker (line 311) and registering the monitor (line 313). */
  ghost predicate Unregistered(s: State, t: nat) {
    && t < |s.threads| && s.threads[t].BootWatch? && !s.threads[t].counted
    && InstalledIn(s.core, s.threads[t].slot, s.threads[t].w)
  }

  ghost predicate AllEmpty(p: Core) {
    forall i :: 0 <= i < |p.slots| ==> p.slots[i].worker.None?
  }

  /**
   What Shutdown finds when p.wg has drained: all slots are empty if and only if no boot outside the wait
   group has just filled one.
   */
  lemma ShutdownLeavesNothing(s: State)
    requires Ok(s) && Watched(s) && AllCountedDone(s.threads)
    ensures AllEmpty(s.core) <==> forall t :: !Unregistered(s, t)
  {
    if !AllEmpty(s.core) {
      var i :| 0 <= i < |s.core.slots| && s.core.slots[i].worker.Some?;
      var w := s.core.slots[i].worker.value;
      assert HasWatcher(s, i + 1, w);
      var t :| 0 <= t < |s.threads| && Watches(s.threads[t], i + 1, w);
      assert !Counted(s.threads[t]);
      assert Unregistered(s, t);
    }
  }
}
