/**
 The other half of what Shutdown leaves behind: whenever a boot out of its sight has just filled a slot, and no boot in
 the wait group is about to empty it, there are steps that bring Shutdown to its end with the slot still filled. All
 goroutines it waits for come to their end, while the boot stands where it is.
 */
module ShutdownOvertaken {
  import opened Basics
  import opened CrashPolicy
  import opened Protocol
  import opened PoolModel
  import opened PoolMachine
  import opened PoolLocking
  import opened PoolIdentity
  import opened PoolShutdown
  import opened PoolRuns
  import opened Continuations

  // ----- one goroutine at a time brings up or watches a worker -----

  function Tracks(pc: Pc): Option<Ref> {
    match pc
    case BootInstall(_, w, _) => Some(w)
    case BootWatch(_, w, _) => Some(w)
    case Watch(_, w) => Some(w)
    case Clear(_, w, _) => Some(w)
    case _ => None
  }

  ghost predicate OneTracker(s: State) {
    forall t, u :: 0 <= t < u < |s.threads| && Tracks(s.threads[t]).Some? ==>
      Tracks(s.threads[t]) != Tracks(s.threads[u])
  }

  ghost predicate TracksOn(s: State, pc: Pc, f: Effect) {
    && (Tracks(f.next).Some? ==>
          Tracks(f.next) == Tracks(pc) || (f.op.AddWorker? && Tracks(f.next) == Some(|s.core.workers|)))
    && (forall k :: 0 <= k < |f.spawned| && Tracks(f.spawned[k]).Some? ==>
          |f.spawned| == 1 && Tracks(f.spawned[k]) == Tracks(pc) && Tracks(f.next).None?)
  }

  lemma RequestTracksOn(c: Config, s: State, pc: Pc, ch: Choice)
    requires Ok(s) && PcOk(s.core, pc)
    ensures var f := PlanRequest(c, s, pc, ch); f.Some? ==> TracksOn(s, pc, f.value)
    ensures var f := PlanSender(s, pc, ch); f.Some? ==> TracksOn(s, pc, f.value)
    ensures var f := PlanOutside(c, s, pc, ch); f.Some? ==> TracksOn(s, pc, f.value)
  {
    hide ReleaseCommit, DiscardCommit, CheckAcquired, ValidResponse, MayWrite;
  }

  lemma BootTracksOn(c: Config, s: State, pc: Pc, ch: Choice)
    requires Ok(s) && PcOk(s.core, pc)
    ensures var f := PlanBoot(c, s, pc, ch); f.Some? ==> TracksOn(s, pc, f.value)
  {
    hide RecordCrash, SlotFailed, Accepting;
  }

  lemma MonitorTracksOn(c: Config, s: State, pc: Pc, ch: Choice)
    requires Ok(s) && PcOk(s.core, pc)
    ensures var f := PlanMonitor(c, s, pc, ch); f.Some? ==> TracksOn(s, pc, f.value)
    ensures var f := PlanControl(c, s, pc); f.Some? ==> TracksOn(s, pc, f.value)
  {
    hide RecordCrash, SlotFailed, PlanAfterExit, OwnsSlot, SameWorker, Rescaled;
    hide MarkAll, Remaining, NothingToResize, Bootable, Spared;
  }

  lemma PlanTracksOn(c: Config, s: State, pc: Pc, ch: Choice)
    requires Ok(s) && PcOk(s.core, pc)
    ensures var f := Plan(c, s, pc, ch); f.Some? ==> TracksOn(s, pc, f.value)
  {
    hide PlanRequest, PlanSender, PlanBoot, PlanMonitor, PlanControl, PlanOutside, PcOk, TracksOn;
    RequestTracksOn(c, s, pc, ch);
    BootTracksOn(c, s, pc, ch);
    MonitorTracksOn(c, s, pc, ch);
  }

  lemma TrackedIsValid(p: Core, pc: Pc)
    requires PcOk(p, pc) && Tracks(pc).Some?
    ensures ValidRef(p, Tracks(pc).value)
  {
  }

  lemma StepKeepsTracker(c: Config, s: State, e: Event, s': State)
    requires Step(c, s, e, s') && OneTracker(s)
    ensures OneTracker(s')
  {
    PlanTracksOn(c, s, s.threads[e.t], e.choice);
    forall u | 0 <= u < |s.threads| && Tracks(s.threads[u]).Some?
      ensures Tracks(s.threads[u]).value < |s.core.workers|
    {
      TrackedIsValid(s.core, s.threads[u]);
    }
    hide Plan, PcOk, CoreOk, Tracks;
  }

  lemma {:induction false} TrackerOverRuns(c: Config, states: seq<State>, events: seq<Event>, k: nat)
    requires Run(c, states, events) && k < |states|
    ensures OneTracker(states[k])
  {
    hide Run, Step, Init, OneTracker;
    RunUnfolds(c, states, events, if k == 0 then 0 else k - 1);
    if k == 0 {
      NoTrackerAtFirst(c, states[0]);
    } else {
      TrackerOverRuns(c, states, events, k - 1);
      StepKeepsTracker(c, states[k - 1], events[k - 1], states[k]);
    }
  }

  lemma NoTrackerAtFirst(c: Config, s: State)
    requires Init(c, s)
    ensures OneTracker(s)
  {
    forall t | 0 <= t < |s.threads| ensures Tracks(s.threads[t]).None? {
      assert t > 0 ==> s.threads[t] == BootStart(t, false, false);
    }
  }

  lemma {:induction false} TrackerOverPaths(c: Config, states: seq<State>, events: seq<Event>, m: nat)
    requires Path(c, states, events) && m < |states| && OneTracker(states[0])
    ensures OneTracker(states[m])
  {
    hide Step, OneTracker;
    if m > 0 {
      TrackerOverPaths(c, states, events, m - 1);
      StepKeepsTracker(c, states[m - 1], events[m - 1], states[m]);
    }
  }

  lemma TrackerStays(c: Config, s: State, s': State)
    requires OneTracker(s) && Leads(c, s, s')
    ensures OneTracker(s')
  {
    hide OneTracker, Step;
    var states, events :| Path(c, states, events) && states[0] == s && states[|events|] == s';
    TrackerOverPaths(c, states, events, |events|);
  }

  // ----- the boot stands, the others come to their end -----

  /** In a stopping pool with p.mu free, thread u stands out of sight, with its worker w in slot i. */
  ghost predicate Standing(s: State, u: nat, i: nat, w: Ref) {
    && Ok(s) && s.core.stopping && !s.locked
    && u < |s.threads| && s.threads[u] == BootWatch(i, w, false) && InstalledIn(s.core, i, w)
  }

  /** Thread v has left the wait group, and so has everybody started since; the others have not moved. */
  ghost predicate Leaves(s: State, s': State, v: nat) {
    && v < |s.threads| <= |s'.threads| && !Counted(s'.threads[v])
    && (forall x :: 0 <= x < |s.threads| && x != v ==> s'.threads[x] == s.threads[x])
    && (forall x :: |s.threads| <= x < |s'.threads| ==> !Counted(s'.threads[x]))
  }

  /** What a step of thread v does that matters here. */
  ghost predicate Turns(s: State, s': State, v: nat, next: Pc, spawned: seq<Pc>) {
    v < |s.threads| && s'.threads == s.threads[v := next] + spawned
  }

  lemma LeavesAfter(s: State, s1: State, s': State, v: nat, next: Pc)
    requires Turns(s, s1, v, next, []) && Leaves(s1, s', v)
    ensures Leaves(s, s', v)
  {
  }

  lemma LeavesWithChild(s: State, s1: State, s': State, v: nat, next: Pc, child: Pc)
    requires Turns(s, s1, v, next, [child]) && !Counted(next) && Leaves(s1, s', |s.threads|)
    ensures Leaves(s, s', v)
  {
  }

  lemma LeavesNow(s: State, s': State, v: nat, next: Pc)
    requires Turns(s, s', v, next, []) && !Counted(next)
    ensures Leaves(s, s', v)
  {
  }

  /** From s thread v can come to its end, while thread u stands. */
  ghost predicate Ends(c: Config, s: State, s': State, u: nat, i: nat, w: Ref, v: nat) {
    Leads(c, s, s') && Standing(s', u, i, w) && Leaves(s, s', v)
  }

  lemma EndsAfter(c: Config, s: State, ch: Choice, s1: State, s': State, u: nat, i: nat, w: Ref, v: nat, next: Pc)
    requires Step(c, s, Event(v, ch), s1) && Turns(s, s1, v, next, []) && Ends(c, s1, s', u, i, w, v)
    ensures Ends(c, s, s', u, i, w, v)
  {
    hide Step, Leads, Standing, Turns, Leaves;
    FirstStep(c, s, Event(v, ch), s1, s');
    LeavesAfter(s, s1, s', v, next);
  }

  lemma EndsWithChild(
    c: Config, s: State, s1: State, s': State, u: nat, i: nat, w: Ref, v: nat, next: Pc, child: Pc)
    requires Step(c, s, Event(v, Go), s1) && Turns(s, s1, v, next, [child]) && !Counted(next)
    requires Ends(c, s1, s', u, i, w, |s.threads|)
    ensures Ends(c, s, s', u, i, w, v)
  {
    hide Step, Leads, Standing, Turns, Leaves;
    FirstStep(c, s, Event(v, Go), s1, s');
    LeavesWithChild(s, s1, s', v, next, child);
  }

  lemma EndsNow(c: Config, s: State, s': State, u: nat, i: nat, w: Ref, v: nat)
    requires Step(c, s, Event(v, Go), s') && Turns(s, s', v, Done, []) && Standing(s', u, i, w)
    ensures Ends(c, s, s', u, i, w, v)
  {
    hide Step, Leads, Standing, Turns, Leaves;
    OneStep(c, s, Event(v, Go), s');
    LeavesNow(s, s', v, Done);
  }

  lemma EndRefused(c: Config, s: State, u: nat, i: nat, w: Ref, v: nat) returns (s': State)
    requires Standing(s, u, i, w) && v < |s.threads| && v != u
    requires s.threads[v].BootStart? || s.threads[v].RestartCheck?
    ensures Ends(c, s, s', u, i, w, v)
  {
    s' := Moves(c, s, v, Go, Goto(Done));
    hide Step, Leads, PcOk, CoreOk;
    EndsNow(c, s, s', u, i, w, v);
  }

  lemma EndRefusedInstall(c: Config, s: State, u: nat, i: nat, w: Ref, v: nat) returns (s': State)
    requires Standing(s, u, i, w) && v < |s.threads| && v != u && s.threads[v].BootInstall?
    ensures Ends(c, s, s', u, i, w, v)
  {
    var pc := s.threads[v];
    assert PcOk(s.core, pc);
    s' := Moves(c, s, v, Go, Write1(PutWorker(pc.w, Closed(s.core.workers[pc.w])), Done));
    hide Step, Leads, PcOk, CoreOk;
    EndsNow(c, s, s', u, i, w, v);
  }

  lemma EndTerminate(c: Config, s: State, u: nat, i: nat, w: Ref, v: nat) returns (s': State)
    requires Standing(s, u, i, w) && v < |s.threads| && v != u && s.threads[v].Terminate?
    ensures Ends(c, s, s', u, i, w, v)
  {
    var pc := s.threads[v];
    assert PcOk(s.core, pc);
    s' := Moves(c, s, v, Go, Write1(PutWorker(pc.w, Closed(s.core.workers[pc.w])), Done));
    hide Step, Leads, PcOk, CoreOk;
    EndsNow(c, s, s', u, i, w, v);
  }

  lemma EndPush(c: Config, s: State, u: nat, i: nat, w: Ref, v: nat) returns (s': State)
    requires Standing(s, u, i, w) && v < |s.threads| && v != u && s.threads[v].BootPush?
    ensures Ends(c, s, s', u, i, w, v)
  {
    s' := Moves(c, s, v, Go, Write1(if c.http then Push(c, s.core, s.threads[v].w) else Keep, Done));
    hide Step, Leads, PcOk, CoreOk;
    EndsNow(c, s, s', u, i, w, v);
  }

  lemma EndWait(c: Config, s: State, u: nat, i: nat, w: Ref, v: nat) returns (s': State)
    requires Standing(s, u, i, w) && v < |s.threads| && v != u && s.threads[v].RestartWait?
    ensures Ends(c, s, s', u, i, w, v)
  {
    var next := RestartCheck(s.threads[v].slot, s.threads[v].useBackoff);
    var s1 := Moves(c, s, v, Go, Goto(next));
    hide Step, Leads, PcOk, CoreOk;
    s' := EndRefused(c, s1, u, i, w, v);
    hide Ends;
    EndsAfter(c, s, Go, s1, s', u, i, w, v, next);
  }

  lemma EndRun(c: Config, s: State, u: nat, i: nat, w: Ref, v: nat) returns (s': State)
    requires Standing(s, u, i, w) && v < |s.threads| && v != u && s.threads[v].BootRun?
    ensures Ends(c, s, s', u, i, w, v)
  {
    var pc := s.threads[v];
    var next := BootInstall(pc.slot, |s.core.workers|, pc.counted);
    var s1 := Moves(c, s, v, Go, Write1(AddWorker(NewWorker(pc.slot, pc.gen)), next));
    hide Step, Leads, PcOk, CoreOk;
    s' := EndRefusedInstall(c, s1, u, i, w, v);
    hide Ends;
    EndsAfter(c, s, Go, s1, s', u, i, w, v, next);
  }

  lemma EndFail(c: Config, s: State, u: nat, i: nat, w: Ref, v: nat) returns (s': State)
    requires Standing(s, u, i, w) && v < |s.threads| && v != u && s.threads[v].BootFail? && s.threads[v].slot != i
    ensures Ends(c, s, s', u, i, w, v)
  {
    var pc := s.threads[v];
    assert PcOk(s.core, pc);
    var sl := BootFailed(c, s.core.slots[pc.slot - 1], pc.afterCrash, s.now);
    var wait := RestartWait(pc.slot, true);
    var s1 := Moves(c, s, v, Go,
                    Effect(PutSlot(pc.slot, sl), Done, if SlotFailed(c, sl) then [] else [wait], NoSide));
    hide Step, Leads, PcOk, CoreOk, SlotFailed, RecordCrash;
    if SlotFailed(c, sl) {
      s' := s1;
      EndsNow(c, s, s', u, i, w, v);
    } else {
      s' := EndWait(c, s1, u, i, w, |s.threads|);
      hide Ends;
      EndsWithChild(c, s, s1, s', u, i, w, v, Done, wait);
    }
  }

  lemma EndCrash(c: Config, s: State, u: nat, i: nat, w: Ref, v: nat) returns (s': State)
    requires Standing(s, u, i, w) && v < |s.threads| && v != u && s.threads[v].CrashExit?
    ensures Ends(c, s, s', u, i, w, v)
  {
    var pc := s.threads[v];
    assert PcOk(s.core, pc);
    var sl := RecordCrash(c, s.core.slots[pc.slot - 1], s.now);
    var wait := RestartWait(pc.slot, true);
    var s1 := Moves(c, s, v, Go,
                    Effect(PutSlot(pc.slot, sl), Done, if SlotFailed(c, sl) then [] else [wait], NoSide));
    hide Step, Leads, PcOk, CoreOk, SlotFailed, Recorded;
    if SlotFailed(c, sl) {
      s' := s1;
      EndsNow(c, s, s', u, i, w, v);
    } else {
      s' := EndWait(c, s1, u, i, w, |s.threads|);
      hide Ends;
      EndsWithChild(c, s, s1, s', u, i, w, v, Done, wait);
    }
  }

  lemma EndAfterExit(c: Config, s: State, u: nat, i: nat, w: Ref, v: nat) returns (s': State)
    requires Standing(s, u, i, w) && v < |s.threads| && v != u && s.threads[v].AfterExit?
    ensures Ends(c, s, s', u, i, w, v)
  {
    hide Leads, PcOk, CoreOk;
    var pc := s.threads[v];
    match pc.plan
    case NoRestart =>
      s' := Moves(c, s, v, Go, Goto(Done));
      hide Step;
      EndsNow(c, s, s', u, i, w, v);
    case PlannedRestart =>
      var wait := RestartWait(pc.slot, false);
      var s1 := Moves(c, s, v, Go, Effect(Keep, Done, [wait], NoSide));
      hide Step;
      s' := EndWait(c, s1, u, i, w, |s.threads|);
      hide Ends;
      EndsWithChild(c, s, s1, s', u, i, w, v, Done, wait);
    case Crashed =>
      var s1 := Moves(c, s, v, Go, Goto(CrashExit(pc.slot)));
      hide Step;
      s' := EndCrash(c, s1, u, i, w, v);
      hide Ends;
      EndsAfter(c, s, Go, s1, s', u, i, w, v, CrashExit(pc.slot));
  }

  lemma EndPurge(c: Config, s: State, u: nat, i: nat, w: Ref, v: nat) returns (s': State)
    requires Standing(s, u, i, w) && v < |s.threads| && v != u
    requires s.threads[v].PurgeStart? && s.threads[v].next.ExitThen?
    ensures Ends(c, s, s', u, i, w, v)
  {
    hide Leads, PcOk, CoreOk;
    var s1 := Purged(c, s, v);
    s' := EndAfterExit(c, s1, u, i, w, v);
    LeadsOn(c, s, s1, s');
    LeavesAfter(s, s1, s', v, Resume(s.threads[v].next));
  }

  lemma OwnClearIsCurrent(c: Config, s: State, v: nat)
    requires Inv(c, s) && v < |s.threads| && s.threads[v].Clear?
    ensures Ok(s) && PcOk(s.core, s.threads[v])
    ensures OwnsSlot(s.core, s.threads[v].slot, s.threads[v].w) ==>
              s.core.slots[s.threads[v].slot - 1].worker == Some(s.threads[v].w)
  {
    assert PcOk(s.core, s.threads[v]);
    OwnsSlotIsCurrent(s, s.threads[v].slot, s.threads[v].w);
  }

  lemma EndOwnClear(c: Config, s: State, u: nat, i: nat, w: Ref, v: nat) returns (s': State)
    requires Standing(s, u, i, w) && v < |s.threads| && v != u && s.threads[v].Clear? && PcOk(s.core, s.threads[v])
    requires OwnsSlot(s.core, s.threads[v].slot, s.threads[v].w) && s.threads[v].slot != i
    ensures Ends(c, s, s', u, i, w, v)
  {
    hide Leads, OwnsSlot;
    var pc, p := s.threads[v], s.core;
    var next := PurgeStart(pc.w, ExitThen(pc.slot, PlanAfterExit(p, pc.slot, pc.w, pc.exitCode)));
    var s1 := Moves(c, s, v, Go, Write1(ClearExited(p, pc.slot, pc.w), next));
    hide Step, PcOk, CoreOk, PlanAfterExit;
    s' := EndPurge(c, s1, u, i, w, v);
    hide Ends;
    EndsAfter(c, s, Go, s1, s', u, i, w, v, next);
  }

  lemma EndClear(c: Config, s: State, u: nat, i: nat, w: Ref, v: nat) returns (s': State)
    requires Standing(s, u, i, w) && Inv(c, s) && v < |s.threads| && v != u
    requires s.threads[v].Clear? && s.threads[v].w != w
    ensures Ends(c, s, s', u, i, w, v)
  {
    hide Inv, Leads, OwnsSlot;
    OwnClearIsCurrent(c, s, v);
    if OwnsSlot(s.core, s.threads[v].slot, s.threads[v].w) {
      s' := EndOwnClear(c, s, u, i, w, v);
    } else {
      s' := Moves(c, s, v, Go, Goto(Done));
      hide Step, PcOk, CoreOk;
      EndsNow(c, s, s', u, i, w, v);
    }
  }

  lemma EndWatch(c: Config, s: State, u: nat, i: nat, w: Ref, v: nat) returns (s': State)
    requires Standing(s, u, i, w) && Inv(c, s) && v < |s.threads| && v != u
    requires s.threads[v].Watch? && s.threads[v].w != w
    ensures Ends(c, s, s', u, i, w, v)
  {
    hide Inv;
    var next := Clear(s.threads[v].slot, s.threads[v].w, 0);
    var s1 := Moves(c, s, v, Exit(0), Goto(next));
    hide Step, Leads, PcOk, CoreOk;
    StepKeepsInv(c, s, Event(v, Exit(0)), s1);
    s' := EndClear(c, s1, u, i, w, v);
    hide Ends;
    EndsAfter(c, s, Exit(0), s1, s', u, i, w, v, next);
  }

  /** A counted boot behind line 313: the boot and the monitor it has started come to their ends one after the other. */
  lemma EndBootWatch(c: Config, s: State, u: nat, i: nat, w: Ref, v: nat) returns (s': State)
    requires Standing(s, u, i, w) && Inv(c, s) && v < |s.threads| && v != u
    requires s.threads[v].BootWatch? && s.threads[v].w != w
    ensures Ends(c, s, s', u, i, w, v)
  {
    hide Inv, Leads;
    var pc := s.threads[v];
    var monitor := Watch(pc.slot, pc.w);
    var s1 := Moves(c, s, v, Go, Effect(Keep, BootPush(pc.w, pc.counted), [monitor], NoSide));
    hide Step, PcOk, CoreOk;
    var s2 := EndPush(c, s1, u, i, w, v);
    FirstStep(c, s, Event(v, Go), s1, s2);
    InvStays(c, s, s2);
    assert s2.threads[|s.threads|] == monitor;
    s' := EndWatch(c, s2, u, i, w, |s.threads|);
    LeadsOn(c, s, s2, s');
  }

  lemma EndMonitor(c: Config, s: State, u: nat, i: nat, w: Ref, v: nat) returns (s': State)
    requires Standing(s, u, i, w) && Inv(c, s) && v < |s.threads| && v != u && Tracks(s.threads[v]) != Some(w)
    requires var pc := s.threads[v];
             pc.Watch? || pc.Clear? || pc.AfterExit? || pc.CrashExit? || (pc.PurgeStart? && pc.next.ExitThen?)
    ensures Ends(c, s, s', u, i, w, v)
  {
    hide Inv, Standing, Ends;
    match s.threads[v]
    case Watch(_, _) => s' := EndWatch(c, s, u, i, w, v);
    case Clear(_, _, _) => s' := EndClear(c, s, u, i, w, v);
    case AfterExit(_, _) => s' := EndAfterExit(c, s, u, i, w, v);
    case CrashExit(_) => s' := EndCrash(c, s, u, i, w, v);
    case PurgeStart(_, _) => s' := EndPurge(c, s, u, i, w, v);
  }

  /** Every goroutine in the wait group can come to its end, unless that would empty the slot. */
  lemma EndCounted(c: Config, s: State, u: nat, i: nat, w: Ref, v: nat) returns (s': State)
    requires Standing(s, u, i, w) && Inv(c, s) && v < |s.threads| && v != u && Tracks(s.threads[v]) != Some(w)
    requires Counted(s.threads[v]) && !HoldsMu(s.threads[v]) && !(s.threads[v].BootFail? && s.threads[v].slot == i)
    ensures Ends(c, s, s', u, i, w, v)
  {
    hide Inv, Standing, Ends;
    var pc := s.threads[v];
    if pc.Watch? || pc.Clear? || pc.AfterExit? || pc.CrashExit? || pc.PurgeStart? {
      s' := EndMonitor(c, s, u, i, w, v);
    } else {
      match s.threads[v]
      case BootStart(_, _, _) => s' := EndRefused(c, s, u, i, w, v);
      case BootInstall(_, _, _) => s' := EndRefusedInstall(c, s, u, i, w, v);
      case RestartCheck(_, _) => s' := EndRefused(c, s, u, i, w, v);
      case BootRun(_, _, _, _) => s' := EndRun(c, s, u, i, w, v);
      case BootFail(_, _, _) => s' := EndFail(c, s, u, i, w, v);
      case BootWatch(_, _, _) => s' := EndBootWatch(c, s, u, i, w, v);
      case BootPush(_, _) => s' := EndPush(c, s, u, i, w, v);
      case RestartWait(_, _) => s' := EndWait(c, s, u, i, w, v);
      case Terminate(_) => s' := EndTerminate(c, s, u, i, w, v);
    }
  }
}
