/**
 How a failed slot comes to boot again: from every state in which p.mu is free and somebody is on the way to the slot
 there are steps that get there - the restart timer fires, the boot succeeds, the process crashes after a quiet window,
 the purge runs through, or SetDesired puts the slot back into service first.
 */
module SlotRevival {
  import opened Basics
  import opened CrashPolicy
  import opened PoolModel
  import opened PoolMachine
  import opened PoolLocking
  import opened PoolSizing
  import opened CrashHistory
  import opened PoolShutdown
  import opened PoolRuns
  import opened PoolTheorems
  import opened CrashBoots
  import opened Continuations
  import opened FailedSlots

  ghost predicate NoLaterThan(times: seq<int>, t: int) {
    forall k :: 0 <= k < |times| ==> times[k] <= t
  }

  /** Slot i is in service, and the clock is not behind its crashes. */
  ghost predicate Usable(c: Config, s: State, i: nat) {
    && Ok(s) && ValidSlot(s.core, i) && Accepting(s.core, i)
    && |s.threads| > 0 && s.threads[0].Outside?
    && c.restartWindow > 0
    && NoLaterThan(s.core.slots[i - 1].recent, s.now)
  }

  ghost predicate Ready(c: Config, s: State, i: nat) { Usable(c, s, i) && !s.locked }

  /** Some continuation brings a boot to the start of slot i, which has drawn no generation in the meantime. */
  ghost predicate CanStart(c: Config, s: State, i: nat) {
    exists s', u :: Leads(c, s, s') && AtStart(c, s, s', u, i)
  }

  ghost predicate AtStart(c: Config, s: State, s': State, u: nat, i: nat) {
    && Ready(c, s', i) && ValidSlot(s.core, i) && s'.core.slots[i - 1].gen == s.core.slots[i - 1].gen
    && |s.core.workers| <= |s'.core.workers|
    && u < |s'.threads| && s'.threads[u].BootStart? && s'.threads[u].slot == i
  }

  lemma Prepend(c: Config, s: State, e: Event, s1: State, i: nat)
    requires Step(c, s, e, s1) && ValidSlot(s.core, i) && ValidSlot(s1.core, i) && CanStart(c, s1, i)
    requires s1.core.slots[i - 1].gen == s.core.slots[i - 1].gen && |s.core.workers| <= |s1.core.workers|
    ensures CanStart(c, s, i)
  {
    hide Step, Leads, Ready;
    var s', u :| Leads(c, s1, s') && AtStart(c, s1, s', u, i);
    FirstStep(c, s, e, s1, s');
    assert AtStart(c, s, s', u, i);
  }

  lemma FromBootStart(c: Config, s: State, u: nat, i: nat)
    requires Ready(c, s, i) && u < |s.threads| && s.threads[u].BootStart? && s.threads[u].slot == i
    ensures CanStart(c, s, i)
  {
    hide Leads;
    NoStep(c, s);
    assert AtStart(c, s, s, u, i);
  }

  lemma FromRestartCheck(c: Config, s: State, u: nat, i: nat)
    requires Ready(c, s, i) && u < |s.threads| && s.threads[u].RestartCheck? && s.threads[u].slot == i
    ensures CanStart(c, s, i)
  {
    var s1 := Moves(c, s, u, Go, Goto(BootStart(i, s.threads[u].useBackoff, true)));
    hide Step, CanStart, PcOk, CoreOk;
    FromBootStart(c, s1, u, i);
    Prepend(c, s, Event(u, Go), s1, i);
  }

  lemma FromRestartWait(c: Config, s: State, u: nat, i: nat)
    requires Ready(c, s, i) && u < |s.threads| && s.threads[u].RestartWait? && s.threads[u].slot == i
    ensures CanStart(c, s, i)
  {
    var s1 := Moves(c, s, u, Go, Goto(RestartCheck(i, s.threads[u].useBackoff)));
    hide Step, CanStart, PcOk, CoreOk;
    FromRestartCheck(c, s1, u, i);
    Prepend(c, s, Event(u, Go), s1, i);
  }

  lemma {:induction false} AllPruned(times: seq<int>, windowStart: int)
    requires NoLaterThan(times, windowStart)
    ensures Pruned(times, windowStart) == []
  {
    if times != [] {
      AllPruned(times[1..], windowStart);
    }
  }

  /** After a quiet window the policy allows a restart whatever has happened before. */
  lemma QuietWindowAllows(c: Config, sl: Slot, now: int)
    requires c.restartWindow > 0
    requires NoLaterThan(sl.recent, now - c.restartWindow)
    ensures !SlotFailed(c, RecordCrash(c, sl, now)) && RecordCrash(c, sl, now).recent == [now]
  {
    PrunedConcat(sl.recent, [now], now - c.restartWindow);
    AllPruned(sl.recent, now - c.restartWindow);
    assert Pruned([now], now - c.restartWindow) == [now] + Pruned([], now - c.restartWindow);
  }

  /** The same state a restart_window later. */
  lemma Wait(c: Config, s: State, i: nat) returns (s1: State)
    requires Ready(c, s, i)
    ensures Step(c, s, Event(0, Tick(c.restartWindow)), s1) && Ready(c, s1, i)
    ensures s1 == s.(now := s.now + c.restartWindow)
  {
    s1 := Moves(c, s, 0, Tick(c.restartWindow), Effect(Keep, Outside, [], Advance(c.restartWindow)));
    hide Step, PcOk, CoreOk;
    assert s1.threads == s.threads;
  }

  lemma FromCrashExit(c: Config, s: State, u: nat, i: nat)
    requires Ready(c, s, i) && u < |s.threads| && s.threads[u].CrashExit? && s.threads[u].slot == i
    ensures CanStart(c, s, i)
  {
    hide Leads, PcOk, CoreOk, Recorded;
    var s1 := Wait(c, s, i);
    var sl := RecordCrash(c, s1.core.slots[i - 1], s1.now);
    QuietWindowAllows(c, s1.core.slots[i - 1], s1.now);
    var s2 := Moves(c, s1, u, Go, Effect(PutSlot(i, sl), Done, [RestartWait(i, true)], NoSide));
    hide Step, CanStart;
    FromRestartWait(c, s2, |s.threads|, i);
    Prepend(c, s1, Event(u, Go), s2, i);
    Prepend(c, s, Event(0, Tick(c.restartWindow)), s1, i);
  }

  lemma FromBootFail(c: Config, s: State, u: nat, i: nat)
    requires Ready(c, s, i) && u < |s.threads| && s.threads[u].BootFail? && s.threads[u].slot == i
    requires s.threads[u].afterCrash || !SlotFailed(c, s.core.slots[i - 1])
    ensures CanStart(c, s, i)
  {
    hide Leads, PcOk, CoreOk, Recorded;
    var s1 := Wait(c, s, i);
    var sl := BootFailed(c, s1.core.slots[i - 1], s1.threads[u].afterCrash, s1.now);
    QuietWindowAllows(c, s1.core.slots[i - 1].(worker := None), s1.now);
    var s2 := Moves(c, s1, u, Go, Effect(PutSlot(i, sl), Done, [RestartWait(i, true)], NoSide));
    hide Step, CanStart;
    FromRestartWait(c, s2, |s.threads|, i);
    Prepend(c, s1, Event(u, Go), s2, i);
    Prepend(c, s, Event(0, Tick(c.restartWindow)), s1, i);
  }

  lemma FromAfterExit(c: Config, s: State, u: nat, i: nat)
    requires Ready(c, s, i) && u < |s.threads| && s.threads[u].AfterExit? && s.threads[u].slot == i
    requires s.threads[u].plan != NoRestart
    ensures CanStart(c, s, i)
  {
    hide Leads, PcOk, CoreOk;
    if s.threads[u].plan.PlannedRestart? {
      var s1 := Moves(c, s, u, Go, Effect(Keep, Done, [RestartWait(i, false)], NoSide));
      hide Step, CanStart;
      FromRestartWait(c, s1, |s.threads|, i);
      Prepend(c, s, Event(u, Go), s1, i);
    } else {
      var s1 := Moves(c, s, u, Go, Goto(CrashExit(i)));
      hide Step, CanStart;
      FromCrashExit(c, s1, u, i);
      Prepend(c, s, Event(u, Go), s1, i);
    }
  }

  lemma CanStartLater(c: Config, s: State, s1: State, i: nat)
    requires Leads(c, s, s1) && CanStart(c, s1, i) && ValidSlot(s.core, i) && ValidSlot(s1.core, i)
    requires s1.core.slots[i - 1].gen == s.core.slots[i - 1].gen && |s.core.workers| <= |s1.core.workers|
    ensures CanStart(c, s, i)
  {
    hide Leads, Ready;
    var s', u :| Leads(c, s1, s') && AtStart(c, s1, s', u, i);
    LeadsOn(c, s, s1, s');
    assert AtStart(c, s, s', u, i);
  }

  /** And then the slot boots. */
  lemma StartBoots(c: Config, s: State, i: nat)
    requires CanStart(c, s, i)
    ensures CanBoot(c, s, i)
  {
    hide Leads;
    var s1, u: nat :| Leads(c, s, s1) && AtStart(c, s, s1, u, i);
    var pc := s1.threads[u];
    var sl := NextGeneration(s1.core.slots[i - 1]);
    var s2 := Moves(c, s1, u, Go, Write1(PutSlot(i, sl), BootRun(i, sl.gen, pc.afterCrash, pc.counted)));
    hide Step, PcOk, CoreOk;
    OneStep(c, s1, Event(u, Go), s2);
    LeadsOn(c, s, s1, s2);
    assert DrawsSince(s, s2, i - 1);
  }

  lemma FromPurgeStart(c: Config, s: State, u: nat, i: nat)
    requires Ready(c, s, i) && u < |s.threads| && s.threads[u].PurgeStart? && ThenComesTo(s.threads[u].next, i)
    requires s.threads[u].next.ExitThen?
    ensures CanStart(c, s, i)
  {
    hide Leads, CanStart;
    var s1 := Purged(c, s, u);
    FromAfterExit(c, s1, u, i);
    CanStartLater(c, s, s1, i);
  }

  lemma FromClear(c: Config, s: State, u: nat, i: nat)
    requires Ready(c, s, i) && u < |s.threads| && s.threads[u].Clear? && s.threads[u].slot == i
    requires s.core.slots[i - 1].worker == Some(s.threads[u].w)
    ensures CanStart(c, s, i)
  {
    var pc, p := s.threads[u], s.core;
    assert PcOk(p, pc);
    var plan := PlanAfterExit(p, i, pc.w, pc.exitCode);
    var s1 := Moves(c, s, u, Go, Write1(ClearExited(p, i, pc.w), PurgeStart(pc.w, ExitThen(i, plan))));
    hide Step, CanStart, PcOk, CoreOk;
    FromPurgeStart(c, s1, u, i);
    Prepend(c, s, Event(u, Go), s1, i);
  }

  lemma FromWatch(c: Config, s: State, u: nat, i: nat)
    requires Ready(c, s, i) && u < |s.threads| && s.threads[u].Watch? && s.threads[u].slot == i
    requires s.core.slots[i - 1].worker == Some(s.threads[u].w)
    ensures CanStart(c, s, i)
  {
    var s1 := Moves(c, s, u, Exit(1), Goto(Clear(i, s.threads[u].w, 1)));
    hide Step, CanStart, PcOk, CoreOk;
    FromClear(c, s1, u, i);
    Prepend(c, s, Event(u, Exit(1)), s1, i);
  }

  lemma FromBootWatch(c: Config, s: State, u: nat, i: nat)
    requires Ready(c, s, i) && u < |s.threads| && s.threads[u].BootWatch? && s.threads[u].slot == i
    requires s.core.slots[i - 1].worker == Some(s.threads[u].w)
    ensures CanStart(c, s, i)
  {
    var pc := s.threads[u];
    var s1 := Moves(c, s, u, Go, Effect(Keep, BootPush(pc.w, pc.counted), [Watch(i, pc.w)], NoSide));
    hide Step, CanStart, PcOk, CoreOk;
    FromWatch(c, s1, |s.threads|, i);
    Prepend(c, s, Event(u, Go), s1, i);
  }

  lemma FromBootInstall(c: Config, s: State, u: nat, i: nat)
    requires Ready(c, s, i) && u < |s.threads| && s.threads[u].BootInstall? && s.threads[u].slot == i
    ensures CanStart(c, s, i)
  {
    var pc := s.threads[u];
    var s1 := Moves(c, s, u, Go,
                    Write1(PutSlot(i, Installed(s.core.slots[i - 1], pc.w)), BootWatch(i, pc.w, pc.counted)));
    hide Step, CanStart, PcOk, CoreOk;
    FromBootWatch(c, s1, u, i);
    Prepend(c, s, Event(u, Go), s1, i);
  }

  lemma FromBootRun(c: Config, s: State, u: nat, i: nat)
    requires Ready(c, s, i) && u < |s.threads| && s.threads[u].BootRun? && s.threads[u].slot == i
    ensures CanStart(c, s, i)
  {
    var pc := s.threads[u];
    var s1 := Moves(c, s, u, Go,
                    Write1(AddWorker(NewWorker(i, pc.gen)), BootInstall(i, |s.core.workers|, pc.counted)));
    hide Step, CanStart, PcOk, CoreOk;
    FromBootInstall(c, s1, u, i);
    Prepend(c, s, Event(u, Go), s1, i);
  }

  /** SetDesired purges the workers it sends away and then starts its boots one after the other. */
  lemma {:induction false} FromResizeNext(c: Config, s: State, u: nat, i: nat)
    requires Ready(c, s, i) && u < |s.threads| && s.threads[u].ResizeNext? && i in s.threads[u].boots
    ensures CanStart(c, s, i)
    decreases |s.threads[u].drains|, |s.threads[u].boots|
  {
    hide Leads, PcOk, CoreOk;
    var pc := s.threads[u];
    if pc.drains != [] {
      var s1 := Moves(c, s, u, Go, Goto(PurgeStart(pc.drains[0], ResizeThen(pc.drains, pc.boots))));
      hide Step, CanStart;
      var s2 := Purged(c, s1, u);
      FromResizeNext(c, s2, u, i);
      CanStartLater(c, s1, s2, i);
      Prepend(c, s, Event(u, Go), s1, i);
    } else {
      var boot := BootStart(pc.boots[0], false, false);
      var s1 := Moves(c, s, u, Go, Effect(Keep, ResizeNext([], pc.boots[1..]), [boot], NoSide));
      hide Step, CanStart;
      if pc.boots[0] == i {
        FromBootStart(c, s1, |s.threads|, i);
      } else {
        FromResizeNext(c, s1, u, i);
      }
      Prepend(c, s, Event(u, Go), s1, i);
    }
  }

  lemma FromResizePurge(c: Config, s: State, u: nat, i: nat)
    requires Ready(c, s, i) && u < |s.threads| && s.threads[u].PurgeStart? && ThenComesTo(s.threads[u].next, i)
    requires s.threads[u].next.ResizeThen?
    ensures CanStart(c, s, i)
  {
    hide Leads, CanStart;
    var s1 := Purged(c, s, u);
    FromResizeNext(c, s1, u, i);
    CanStartLater(c, s, s1, i);
  }

  lemma FromBoot(c: Config, s: State, u: nat, i: nat)
    requires Ready(c, s, i) && u < |s.threads| && OnTheWay(s.threads[u], i, s.core.slots[i - 1].worker)
    requires var pc := s.threads[u];
             pc.BootStart? || pc.BootRun? || pc.BootFail? || pc.BootInstall? || pc.BootWatch? || pc.RestartWait?
             || pc.RestartCheck?
    ensures CanStart(c, s, i)
  {
    hide Ready, CanStart;
    match s.threads[u]
    case BootStart(_, _, _) => FromBootStart(c, s, u, i);
    case BootRun(_, _, _, _) => FromBootRun(c, s, u, i);
    case BootFail(_, _, _) => FromBootFail(c, s, u, i);
    case BootInstall(_, _, _) => FromBootInstall(c, s, u, i);
    case BootWatch(_, _, _) => FromBootWatch(c, s, u, i);
    case RestartWait(_, _) => FromRestartWait(c, s, u, i);
    case RestartCheck(_, _) => FromRestartCheck(c, s, u, i);
  }

  lemma FromMonitor(c: Config, s: State, u: nat, i: nat)
    requires Ready(c, s, i) && u < |s.threads| && OnTheWay(s.threads[u], i, s.core.slots[i - 1].worker)
    requires var pc := s.threads[u];
             pc.Watch? || pc.Clear? || pc.AfterExit? || pc.CrashExit? || pc.PurgeStart? || pc.ResizeNext?
    ensures CanStart(c, s, i)
  {
    hide Ready, CanStart;
    match s.threads[u]
    case Watch(_, _) => FromWatch(c, s, u, i);
    case Clear(_, _, _) => FromClear(c, s, u, i);
    case AfterExit(_, _) => FromAfterExit(c, s, u, i);
    case CrashExit(_) => FromCrashExit(c, s, u, i);
    case ResizeNext(_, _) => FromResizeNext(c, s, u, i);
    case PurgeStart(_, next) =>
      if next.ExitThen? {
        FromPurgeStart(c, s, u, i);
      } else {
        FromResizePurge(c, s, u, i);
      }
  }

  /** With p.mu free and the slot in service, whoever is on the way to the slot can get there. */
  lemma WhoComesCanStart(c: Config, s: State, u: nat, i: nat)
    requires Ready(c, s, i) && u < |s.threads| && OnTheWay(s.threads[u], i, s.core.slots[i - 1].worker)
    requires !HoldsMu(s.threads[u])
    ensures CanStart(c, s, i)
  {
    hide Ready, CanStart;
    var pc := s.threads[u];
    if pc.Watch? || pc.Clear? || pc.AfterExit? || pc.CrashExit? || pc.PurgeStart? || pc.ResizeNext? {
      FromMonitor(c, s, u, i);
    } else {
      FromBoot(c, s, u, i);
    }
  }

  // ----- a slot that is out of service can come back -----

  lemma {:induction false} ScanEnds(c: Config, s: State, u: nat) returns (s': State)
    requires Ok(s) && s.locked && 0 < u < |s.threads| && s.threads[u].ResizeScan?
    requires s.threads[u].n >= |s.core.slots|
    ensures Leads(c, s, s') && Ok(s') && !s'.locked && s'.core == s.core && s'.now == s.now
    ensures |s'.threads| == |s.threads| && forall v :: 0 <= v < |s.threads| && v != u ==> s'.threads[v] == s.threads[v]
    decreases |s.core.slots| - s.threads[u].i
  {
    var pc := s.threads[u];
    hide Leads, PcOk, CoreOk, Bootable;
    if pc.i >= |s.core.slots| {
      s' := Moves(c, s, u, Go, Effect(Keep, ResizeNext(pc.drains, pc.boots), [], UnlockMu));
      hide Step;
      NoStep(c, s');
      FirstStep(c, s, Event(u, Go), s', s');
    } else {
      var boots := if Bootable(c, s.core.slots[pc.i]) then pc.boots + [pc.i + 1] else pc.boots;
      var s1 := Moves(c, s, u, Go, Goto(ResizeScan(pc.n, pc.i + 1, pc.drains, boots)));
      hide Step;
      s' := ScanEnds(c, s1, u);
      FirstStep(c, s, Event(u, Go), s1, s');
    }
  }

  /** SetDesired(max) puts every slot back into service. */
  lemma BackInService(c: Config, s: State, i: nat) returns (s': State)
    requires Ok(s) && !s.locked && !s.core.stopping && GoodConfig(c) && Sized(c, s.core) && !c.fixedSize
    requires |s.threads| > 0 && s.threads[0].Outside? && ValidSlot(s.core, i) && !Accepting(s.core, i)
    ensures Leads(c, s, s') && Ok(s') && !s'.locked && s'.now == s.now && ValidSlot(s'.core, i) && Accepting(s'.core, i)
    ensures s'.core.slots[i - 1] == s.core.slots[i - 1].(retired := false)
    ensures |s'.threads| > |s.threads| && forall v :: 0 <= v < |s.threads| ==> s'.threads[v] == s.threads[v]
    ensures s'.core.workers == s.core.workers
  {
    hide Leads, PcOk, CoreOk;
    var u, n := |s.threads|, c.maxWorkers;
    var s1 := Moves(c, s, 0, NewResize(n), Effect(Keep, Outside, [ResizeStart(n)], NoSide));
    assert ClampTarget(c, n) == n && !NothingToResize(c, s.core, n);
    var s2 := Moves(c, s1, u, Go, Effect(Replace(Rescaled(s.core, n)), ResizeScan(n, 0, [], []), [], LockMu));
    hide Step;
    s' := ScanEnds(c, s2, u);
    FirstStep(c, s1, Event(u, Go), s2, s');
    FirstStep(c, s, Event(0, NewResize(n)), s1, s');
  }

  // ----- the exact condition -----

  lemma {:induction false} PrunedIsSubset(times: seq<int>, windowStart: int, t: int)
    requires NoLaterThan(times, t)
    ensures NoLaterThan(Pruned(times, windowStart), t)
  {
    if times != [] {
      PrunedIsSubset(times[1..], windowStart, t);
    }
  }

  lemma OrderedIsPast(history: seq<Crash>, now: int)
    requires Ordered(history) && history != [] && history[|history| - 1].time <= now
    ensures NoLaterThan(Times(history), now)
  {
  }

  lemma RecentIsPast(c: Config, now: int, sl: Slot)
    requires SlotLogged(c, now, sl)
    ensures NoLaterThan(sl.recent, now)
  {
    hide Judged, Pruned;
    if sl.crashes != [] {
      var last := sl.crashes[|sl.crashes| - 1].time;
      OrderedIsPast(sl.crashes, now);
      hide NoLaterThan, Ordered, Times;
      PrunedIsSubset(Times(sl.crashes), last - c.restartWindow, now);
    }
  }

  /** What the invariants say about a state in which p.mu is free. */
  lemma ReachedUnlocked(c: Config, states: seq<State>, events: seq<Event>, k: nat, i: nat)
    requires Run(c, states, events) && k < |states| && !states[k].locked && ValidSlot(states[k].core, i)
    ensures var s := states[k];
            && Ok(s) && GoodConfig(c) && Sized(c, s.core) && Watched(s)
            && (forall u :: 0 <= u < |s.threads| ==> !HoldsMu(s.threads[u]))
            && NoLaterThan(s.core.slots[i - 1].recent, s.now)
            && (c.fixedSize ==> s.core.desired == |s.core.slots|)
  {
    RunInv(c, states, events, k);
    assert SlotLogged(c, states[k].now, states[k].core.slots[i - 1]);
    RecentIsPast(c, states[k].now, states[k].core.slots[i - 1]);
  }

  lemma SomebodyGetsThere(c: Config, states: seq<State>, events: seq<Event>, k: nat, i: nat)
    requires Run(c, states, events) && k < |states| && !states[k].locked && !states[k].core.stopping
    requires ValidSlot(states[k].core, i) && SomebodyComes(states[k], i)
    ensures CanStart(c, states[k], i)
  {
    var s := states[k];
    ReachedUnlocked(c, states, events, k, i);
    OutsideStaysOutside(c, states, events, k);
    hide Run, CanStart, Leads, OnTheWay, PcOk, CoreOk;
    var u :| 0 <= u < |s.threads| && OnTheWay(s.threads[u], i, s.core.slots[i - 1].worker);
    if Accepting(s.core, i) {
      WhoComesCanStart(c, s, u, i);
    } else {
      var s1 := BackInService(c, s, i);
      WhoComesCanStart(c, s1, u, i);
      CanStartLater(c, s, s1, i);
    }
  }

  /**
   A failed slot boots again in some continuation if and only if the pool is not stopping and somebody is on the way
   to it. On every pool, in every reachable state in which p.mu is free.
   */
  lemma FailedSlotBootsExactlyWhen(c: Config, states: seq<State>, events: seq<Event>, k: nat, i: nat)
    requires Run(c, states, events) && k < |states| && !states[k].locked
    requires ValidSlot(states[k].core, i) && SlotFailed(c, states[k].core.slots[i - 1])
    ensures CanBoot(c, states[k], i) <==> !states[k].core.stopping && SomebodyComes(states[k], i)
  {
    ReachedUnlocked(c, states, events, k, i);
    hide Run, CanBoot, SomebodyComes, SlotFailed;
    if states[k].core.stopping {
      NeverBootsAgain(c, states[k], i);
    } else if SomebodyComes(states[k], i) {
      SomebodyGetsThere(c, states, events, k, i);
      hide CanStart;
      StartBoots(c, states[k], i);
    } else {
      NobodyMeansEmpty(states[k], i);
      NeverBootsAgain(c, states[k], i);
    }
  }

  // ----- at a refused crash -----

  /** Step e records a crash of slot i that the policy refuses. */
  ghost predicate Refuses(s: State, e: Event, s': State, i: nat) {
    && ValidSlot(s.core, i) && ValidSlot(s'.core, i) && e.t < |s.threads| && e.t < |s'.threads|
    && |s'.core.slots[i - 1].crashes| == |s.core.slots[i - 1].crashes| + 1
    && !s'.core.slots[i - 1].crashes[|s.core.slots[i - 1].crashes|].allowed
  }

  /** Somebody other than thread t is on the way to slot i, which holds `worker`. */
  ghost predicate SomebodyElseComes(s: State, t: nat, i: nat, worker: Option<Ref>) {
    exists u :: 0 <= u < |s.threads| && u != t && OnTheWay(s.threads[u], i, worker)
  }

  lemma RefusalEnds(c: Config, s: State, e: Event, s': State, i: nat)
    requires Step(c, s, e, s') && Refuses(s, e, s', i)
    ensures SlotFailed(c, s'.core.slots[i - 1]) && s'.threads == s.threads[e.t := Done] && !s'.locked
    ensures s'.core.stopping == s.core.stopping
  {
    hide Plan, PcOk, CoreOk, SlotFailed, Recorded;
    PlanLogs(c, s, s.threads[e.t], e.choice);
    PlanKeepsLock(c, s, s.threads[e.t], e.choice);
  }

  /**
   A crash that the policy refuses is the slot's last boot if and only if, when it is recorded, the pool is stopping or
   nobody else is on the way to the slot.
   */
  lemma RefusalIsFinalExactlyWhen(c: Config, states: seq<State>, events: seq<Event>, k: nat, i: nat)
    requires Run(c, states, events) && k < |events| && Refuses(states[k], events[k], states[k + 1], i)
    ensures !CanBoot(c, states[k + 1], i) <==>
            states[k].core.stopping
            || !SomebodyElseComes(states[k], events[k].t, i, states[k + 1].core.slots[i - 1].worker)
  {
    RunStep(c, states, events, k);
    hide Run, Step, CanBoot, OnTheWay, SlotFailed;
    RefusalEnds(c, states[k], events[k], states[k + 1], i);
    FailedSlotBootsExactlyWhen(c, states, events, k + 1, i);
    NotOnTheWay(i, states[k + 1].core.slots[i - 1].worker);
    OthersStay(states[k], events[k].t, states[k + 1], i);
  }

  lemma NotOnTheWay(i: nat, worker: Option<Ref>)
    ensures !OnTheWay(Done, i, worker)
  {
  }

  lemma OthersStay(s: State, t: nat, s': State, i: nat)
    requires t < |s.threads| && s'.threads == s.threads[t := Done] && ValidSlot(s'.core, i)
    ensures SomebodyComes(s', i) <==> SomebodyElseComes(s, t, i, s'.core.slots[i - 1].worker)
  {
    var worker := s'.core.slots[i - 1].worker;
    NotOnTheWay(i, worker);
    hide OnTheWay;
    if SomebodyElseComes(s, t, i, worker) {
      var u :| 0 <= u < |s.threads| && u != t && OnTheWay(s.threads[u], i, worker);
      assert OnTheWay(s'.threads[u], i, worker);
    }
    if SomebodyComes(s', i) {
      var u :| 0 <= u < |s'.threads| && OnTheWay(s'.threads[u], i, worker);
      assert u != t && OnTheWay(s.threads[u], i, worker);
    }
  }
}
