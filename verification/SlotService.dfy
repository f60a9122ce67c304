/**
 A slot can come to serve (internal/worker/pool.go:272-460): a boot brings a new worker into the channel, a worker that
 has exited is replaced unless the policy refuses, and while a fixed-size pool runs every slot that has not failed can
 be brought to that point.
 */
module SlotService {
  import opened Basics
  import opened PoolModel
  import opened PoolMachine
  import opened PoolPurging
  import opened PoolLocking
  import opened PoolLifecycle
  import opened PoolRuns
  import opened PoolTheorems
  import opened PoolTending
  import opened Continuations
  import opened FailedSlots
  import opened SlotRevival
  import opened RequestService
  import opened RequestOutcomes

  // ----- a boot -----

  /** The pool after a boot of slot i: the next generation is installed, idle, and at the end of the channel. */
  function BroughtUp(p: Core, i: nat): Core
    requires ValidSlot(p, i)
  {
    var sl, w := p.slots[i - 1], |p.workers|;
    p.(slots := p.slots[i - 1 := sl.(gen := sl.gen + 1, worker := Some(w), planned := false)],
       workers := p.workers + [Worker(i, sl.gen + 1, Idle, 0, Conn(true, [], []))],
       idle := p.idle + [w])
  }

  /** What a boot of slot i needs. */
  ghost predicate Bootstraps(c: Config, s: State, i: nat) {
    Ok(s) && !s.locked && c.http && ValidSlot(s.core, i) && Accepting(s.core, i) && |s.core.idle| < c.idleCap
  }

  lemma Draws(c: Config, s: State, u: nat, i: nat) returns (s': State)
    requires Bootstraps(c, s, i) && u < |s.threads| && s.threads[u].BootStart? && s.threads[u].slot == i
    ensures Step(c, s, Event(u, Go), s') && Ok(s')
    ensures var p, pc, gen := s.core, s.threads[u], s.core.slots[i - 1].gen + 1;
            s' == s.(core := p.(slots := p.slots[i - 1 := p.slots[i - 1].(gen := gen)]),
                     threads := s.threads[u := BootRun(i, gen, pc.afterCrash, pc.counted)])
  {
    hide PcOk, CoreOk;
    var pc := s.threads[u];
    var sl := NextGeneration(s.core.slots[i - 1]);
    s' := Moves(c, s, u, Go, Write1(PutSlot(i, sl), BootRun(i, sl.gen, pc.afterCrash, pc.counted)));
  }

  /** The generation is drawn and the process started. */
  lemma Spawns(c: Config, s: State, u: nat, i: nat) returns (s': State)
    requires Bootstraps(c, s, i) && u < |s.threads| && s.threads[u].BootStart? && s.threads[u].slot == i
    ensures Leads(c, s, s') && Ok(s')
    ensures var p, gen := s.core, s.core.slots[i - 1].gen + 1;
            s' == s.(core := p.(slots := p.slots[i - 1 := p.slots[i - 1].(gen := gen)],
                                workers := p.workers + [Worker(i, gen, Idle, 0, Conn(true, [], []))]),
                     threads := s.threads[u := BootInstall(i, |p.workers|, s.threads[u].counted)])
  {
    hide Leads, PcOk, CoreOk;
    var p := s.core;
    var s1 := Draws(c, s, u, i);
    var next := BootInstall(i, |p.workers|, s.threads[u].counted);
    s' := Moves(c, s1, u, Go, Write1(AddWorker(NewWorker(i, p.slots[i - 1].gen + 1)), next));
    assert s'.threads == s.threads[u := next];
    hide Step;
    OneStep(c, s1, Event(u, Go), s');
    FirstStep(c, s, Event(u, Go), s1, s');
  }

  lemma Offers(c: Config, s: State, u: nat, i: nat, w: Ref, counted: bool) returns (s': State)
    requires Ok(s) && c.http && |s.core.idle| < c.idleCap && u < |s.threads| && s.threads[u] == BootWatch(i, w, counted)
    ensures Leads(c, s, s') && Ok(s')
    ensures s' == s.(core := s.core.(idle := s.core.idle + [w]), threads := s.threads[u := Done] + [Watch(i, w)])
  {
    hide Leads, PcOk, CoreOk;
    var s1 := Moves(c, s, u, Go, Effect(Keep, BootPush(w, counted), [Watch(i, w)], NoSide));
    s' := Moves(c, s1, u, Go, Write1(PutIdle(w), Done));
    assert s'.threads == s.threads[u := Done] + [Watch(i, w)];
    hide Step;
    OneStep(c, s1, Event(u, Go), s');
    FirstStep(c, s, Event(u, Go), s1, s');
  }

  lemma TakesPlace(c: Config, s: State, u: nat, i: nat, w: Ref, counted: bool) returns (s': State)
    requires Bootstraps(c, s, i) && u < |s.threads| && s.threads[u] == BootInstall(i, w, counted)
    ensures Step(c, s, Event(u, Go), s') && Ok(s')
    ensures var p := s.core;
            s' == s.(core := p.(slots := p.slots[i - 1 := p.slots[i - 1].(worker := Some(w), planned := false)]),
                     threads := s.threads[u := BootWatch(i, w, counted)])
  {
    assert PcOk(s.core, s.threads[u]);
    hide PcOk, CoreOk;
    s' := Moves(c, s, u, Go, Write1(PutSlot(i, Installed(s.core.slots[i - 1], w)), BootWatch(i, w, counted)));
  }

  /** The worker is installed, watched and offered. */
  lemma Installs(c: Config, s: State, u: nat, i: nat, w: Ref, counted: bool) returns (s': State)
    requires Bootstraps(c, s, i) && u < |s.threads| && s.threads[u] == BootInstall(i, w, counted)
    ensures Leads(c, s, s') && Ok(s')
    ensures var p := s.core;
            s' == s.(core := p.(slots := p.slots[i - 1 := p.slots[i - 1].(worker := Some(w), planned := false)],
                                idle := p.idle + [w]),
                     threads := s.threads[u := Done] + [Watch(i, w)])
  {
    hide Leads, Step, PcOk, CoreOk;
    var s1 := TakesPlace(c, s, u, i, w, counted);
    s' := Offers(c, s1, u, i, w, counted);
    assert s'.threads == s.threads[u := Done] + [Watch(i, w)];
    FirstStep(c, s, Event(u, Go), s1, s');
  }

  lemma ABootComesThrough(c: Config, s: State, u: nat, i: nat) returns (s': State)
    requires Bootstraps(c, s, i) && u < |s.threads| && s.threads[u].BootStart? && s.threads[u].slot == i
    ensures Leads(c, s, s') && Ok(s')
    ensures s' == s.(core := BroughtUp(s.core, i), threads := s.threads[u := Done] + [Watch(i, |s.core.workers|)])
  {
    hide Leads, Step, PcOk, CoreOk;
    var s1 := Spawns(c, s, u, i);
    s' := Installs(c, s1, u, i, |s.core.workers|, s.threads[u].counted);
    assert s'.threads == s.threads[u := Done] + [Watch(i, |s.core.workers|)];
    assert s'.core.slots == BroughtUp(s.core, i).slots;
    LeadsOn(c, s, s1, s');
  }

  lemma FromRestart(c: Config, s: State, u: nat, i: nat, useBackoff: bool) returns (s': State)
    requires Bootstraps(c, s, i) && u < |s.threads| && s.threads[u] == RestartWait(i, useBackoff)
    ensures Leads(c, s, s') && Ok(s')
    ensures s' == s.(core := BroughtUp(s.core, i), threads := s.threads[u := Done] + [Watch(i, |s.core.workers|)])
  {
    hide Leads, Step, PcOk, CoreOk, BroughtUp;
    var s1 := Restarts(c, s, u, i, useBackoff);
    s' := ABootComesThrough(c, s1, u, i);
    assert s'.threads == s.threads[u := Done] + [Watch(i, |s.core.workers|)];
    LeadsOn(c, s, s1, s');
  }

  /** A worker that comes up when its slot is no longer in use is terminated instead of installed. */
  lemma ALateWorkerIsTerminated(c: Config, s: State, u: nat, i: nat, w: Ref, counted: bool) returns (s': State)
    requires Ok(s) && !s.locked && ValidSlot(s.core, i) && !Accepting(s.core, i)
    requires u < |s.threads| && s.threads[u] == BootInstall(i, w, counted)
    ensures Leads(c, s, s') && Ok(s') && ValidRef(s.core, w)
    ensures s' == s.(core := s.core.(workers := s.core.workers[w := Closed(s.core.workers[w])]),
                     threads := s.threads[u := Done])
  {
    assert PcOk(s.core, s.threads[u]);
    hide Leads, PcOk, CoreOk;
    s' := Moves(c, s, u, Go, Write1(PutWorker(w, Closed(s.core.workers[w])), Done));
    hide Step;
    OneStep(c, s, Event(u, Go), s');
  }

  /** Slot i after a boot that failed: one generation is used up, and after a crash the failure counts as another. */
  function FailedOnce(c: Config, sl: Slot, afterCrash: bool, now: int): Slot {
    var drawn := sl.(gen := sl.gen + 1, worker := None);
    if afterCrash then RecordCrash(c, drawn, now) else drawn
  }

  /** A boot may fail: the slot tries again with a backoff, unless the policy refuses. */
  lemma ABootFails(c: Config, s: State, u: nat, i: nat) returns (s': State)
    requires Bootstraps(c, s, i) && u < |s.threads| && s.threads[u].BootStart? && s.threads[u].slot == i
    ensures Leads(c, s, s') && Ok(s')
    ensures var sl := FailedOnce(c, s.core.slots[i - 1], s.threads[u].afterCrash, s.now);
            s' == s.(core := s.core.(slots := s.core.slots[i - 1 := sl]),
                     threads := s.threads[u := Done] + if SlotFailed(c, sl) then [] else [RestartWait(i, true)])
  {
    hide Leads, Step, PcOk, CoreOk, PoolModel.RecordCrash, SlotFailed;
    var pc := s.threads[u];
    var s1 := Draws(c, s, u, i);
    var s2 := CannotStart(c, s1, u, i, s.core.slots[i - 1].gen + 1, pc.afterCrash, pc.counted);
    s' := Abandons(c, s2, u, i, pc.afterCrash, pc.counted);
    assert s.threads[u := s1.threads[u]][u := s2.threads[u]][u := Done] == s.threads[u := Done];
    OneStep(c, s2, Event(u, Go), s');
    FirstStep(c, s1, Event(u, Fail), s2, s');
    FirstStep(c, s, Event(u, Go), s1, s');
  }

  lemma CannotStart(c: Config, s: State, u: nat, i: nat, gen: nat, afterCrash: bool, counted: bool)
    returns (s': State)
    requires Ok(s) && u < |s.threads| && s.threads[u] == BootRun(i, gen, afterCrash, counted)
    ensures Step(c, s, Event(u, Fail), s') && Ok(s')
    ensures s' == s.(threads := s.threads[u := BootFail(i, afterCrash, counted)])
  {
    hide PcOk, CoreOk;
    s' := Moves(c, s, u, Fail, Goto(BootFail(i, afterCrash, counted)));
  }

  lemma Abandons(c: Config, s: State, u: nat, i: nat, afterCrash: bool, counted: bool) returns (s': State)
    requires Ok(s) && !s.locked && ValidSlot(s.core, i)
    requires u < |s.threads| && s.threads[u] == BootFail(i, afterCrash, counted)
    ensures Step(c, s, Event(u, Go), s') && Ok(s')
    ensures var sl := BootFailed(c, s.core.slots[i - 1], afterCrash, s.now);
            s' == s.(core := s.core.(slots := s.core.slots[i - 1 := sl]),
                     threads := s.threads[u := Done] + if SlotFailed(c, sl) then [] else [RestartWait(i, true)])
  {
    hide PcOk, CoreOk, PoolModel.RecordCrash, SlotFailed;
    var sl := BootFailed(c, s.core.slots[i - 1], afterCrash, s.now);
    s' := Moves(c, s, u, Go,
                Effect(PutSlot(i, sl), Done, if SlotFailed(c, sl) then [] else [RestartWait(i, true)], NoSide));
  }

  /** A restart after a crash boots as such, and a planned restart does not, so only the former's failure is a crash. */
  lemma ARestartFails(c: Config, s: State, u: nat, i: nat, useBackoff: bool) returns (s': State)
    requires Bootstraps(c, s, i) && u < |s.threads| && s.threads[u] == RestartWait(i, useBackoff)
    ensures Leads(c, s, s') && Ok(s')
    ensures var sl := FailedOnce(c, s.core.slots[i - 1], useBackoff, s.now);
            s' == s.(core := s.core.(slots := s.core.slots[i - 1 := sl]),
                     threads := s.threads[u := Done] + if SlotFailed(c, sl) then [] else [RestartWait(i, true)])
  {
    hide Leads, Step, PcOk, CoreOk, FailedOnce, SlotFailed;
    var s1 := Restarts(c, s, u, i, useBackoff);
    s' := ABootFails(c, s1, u, i);
    assert s.threads[u := s1.threads[u]][u := Done] == s.threads[u := Done];
    LeadsOn(c, s, s1, s');
  }

  /** The end of the pool's context calls a waiting restart off. */
  lemma ARestartCanBeCalledOff(c: Config, s: State, u: nat, i: nat, useBackoff: bool) returns (s': State)
    requires Ok(s) && 0 < u < |s.threads| && s.threads[0].Outside? && s.threads[u] == RestartWait(i, useBackoff)
    ensures Leads(c, s, s') && Ok(s') && s' == s.(cancelled := true, threads := s.threads[u := Done])
  {
    hide Leads, PcOk, CoreOk;
    var s1 := Moves(c, s, 0, CancelParent, Effect(Keep, Outside, [], CancelCtx));
    assert s1.threads == s.threads;
    s' := Moves(c, s1, u, Fail, Goto(Done));
    hide Step;
    OneStep(c, s1, Event(u, Fail), s');
    FirstStep(c, s, Event(0, CancelParent), s1, s');
  }

  lemma TimerStep(c: Config, s: State, e: Event, s': State)
    requires Step(c, s, e, s') && s.threads[e.t].RestartWait?
    ensures s'.core == s.core && (e.choice.Fail? ==> s.cancelled)
    ensures var pc := s.threads[e.t];
            s'.threads == s.threads[e.t := if e.choice.Fail? then Done else RestartCheck(pc.slot, pc.useBackoff)]
  {
    hide PcOk, CoreOk;
  }

  /** And nothing else does: a restart that goes away without being due found the pool's context at its end. */
  lemma CalledOffExactlyWhen(c: Config, states: seq<State>, events: seq<Event>, k: nat)
    requires Run(c, states, events) && k < |events|
    requires events[k].t < |states[k].threads| && states[k].threads[events[k].t].RestartWait?
    ensures events[k].t < |states[k + 1].threads|
    ensures var next := states[k + 1].threads[events[k].t];
            && (next.Done? <==> events[k].choice.Fail?) && (next.Done? ==> states[k].cancelled)
            && (!next.Done? ==> next.RestartCheck? && next.slot == states[k].threads[events[k].t].slot)
  {
    hide Run, Step;
    RunUnfolds(c, states, events, k);
    TimerStep(c, states[k], events[k], states[k + 1]);
  }

  lemma Restarts(c: Config, s: State, u: nat, i: nat, useBackoff: bool) returns (s': State)
    requires Bootstraps(c, s, i) && u < |s.threads| && s.threads[u] == RestartWait(i, useBackoff)
    ensures Leads(c, s, s') && Ok(s') && s' == s.(threads := s.threads[u := BootStart(i, useBackoff, true)])
  {
    hide Leads, PcOk, CoreOk;
    var s1 := Moves(c, s, u, Go, Goto(RestartCheck(i, useBackoff)));
    s' := Moves(c, s1, u, Go, Goto(BootStart(i, useBackoff, true)));
    assert s'.threads == s.threads[u := BootStart(i, useBackoff, true)];
    hide Step;
    OneStep(c, s1, Event(u, Go), s');
    FirstStep(c, s, Event(u, Go), s1, s');
  }

  // ----- an exit -----

  /** The exit was asked for: the slot is marked, or the process ended well after it was sent away. */
  predicate ExitIsPlanned(p: Core, i: nat, w: Ref, exitCode: int)
    requires ValidSlot(p, i) && ValidRef(p, w)
  {
    p.slots[i - 1].planned || (exitCode == 0 && p.workers[w].state == Draining)
  }

  /** The pool after the exit of w, installed in slot i: it is dead, out of its slot and out of the channel. */
  function Emptied(p: Core, i: nat, w: Ref): Core
    requires ValidSlot(p, i) && ValidRef(p, w) && forall k :: 0 <= k < |p.idle| ==> ValidRef(p, p.idle[k])
  {
    p.(workers := p.workers[w := Closed(p.workers[w].(state := Dead))],
       slots := p.slots[i - 1 := p.slots[i - 1].(worker := None)],
       idle := Without(p, p.idle, w))
  }

  /** What is known of w when its process exits. */
  ghost predicate Watching(c: Config, s: State, u: nat, i: nat, w: Ref) {
    && Ok(s) && !s.locked && c.http && ValidSlot(s.core, i) && Accepting(s.core, i) && ValidRef(s.core, w)
    && u < |s.threads| && s.threads[u] == Watch(i, w) && s.core.slots[i - 1].worker == Some(w)
    && |s.core.idle| <= c.idleCap
  }

  lemma ChannelIsValid(s: State)
    requires Ok(s)
    ensures forall k :: 0 <= k < |s.core.idle| ==> ValidRef(s.core, s.core.idle[k])
  {
  }

  lemma Clears(c: Config, s: State, u: nat, i: nat, w: Ref, exitCode: int) returns (s': State)
    requires Ok(s) && !s.locked && ValidSlot(s.core, i) && Accepting(s.core, i) && ValidRef(s.core, w)
    requires u < |s.threads| && s.threads[u] == Clear(i, w, exitCode) && s.core.slots[i - 1].worker == Some(w)
    ensures Step(c, s, Event(u, Go), s') && Ok(s')
    ensures var p, plan := s.core, if ExitIsPlanned(s.core, i, w, exitCode) then PlannedRestart else Crashed;
            s' == s.(core := p.(workers := p.workers[w := Closed(p.workers[w].(state := Dead))],
                                slots := p.slots[i - 1 := p.slots[i - 1].(worker := None)]),
                     threads := s.threads[u := PurgeStart(w, ExitThen(i, plan))])
  {
    var p := s.core;
    var plan := if ExitIsPlanned(p, i, w, exitCode) then PlannedRestart else Crashed;
    assert PcOk(p, s.threads[u]);
    assert OwnsSlot(p, i, w) && PlanAfterExit(p, i, w, exitCode) == plan;
    hide PcOk, CoreOk, OwnsSlot, PlanAfterExit;
    s' := Moves(c, s, u, Go, Write1(ClearExited(p, i, w), PurgeStart(w, ExitThen(i, plan))));
  }

  lemma Dies(c: Config, s: State, u: nat, i: nat, w: Ref, exitCode: int) returns (s': State)
    requires Ok(s) && u < |s.threads| && s.threads[u] == Watch(i, w)
    ensures Step(c, s, Event(u, Exit(exitCode)), s') && Ok(s')
    ensures s' == s.(threads := s.threads[u := Clear(i, w, exitCode)])
  {
    hide PcOk, CoreOk;
    s' := Moves(c, s, u, Exit(exitCode), Goto(Clear(i, w, exitCode)));
  }

  lemma Exits(c: Config, s: State, u: nat, i: nat, w: Ref, exitCode: int) returns (s': State)
    requires Watching(c, s, u, i, w)
    ensures Leads(c, s, s') && Ok(s')
    ensures forall k :: 0 <= k < |s.core.idle| ==> ValidRef(s.core, s.core.idle[k])
    ensures var plan := if ExitIsPlanned(s.core, i, w, exitCode) then PlannedRestart else Crashed;
            s' == s.(core := Emptied(s.core, i, w), threads := s.threads[u := AfterExit(i, plan)])
  {
    hide Leads, Step, PcOk, CoreOk, ExitIsPlanned, Without;
    ChannelIsValid(s);
    var s1 := Dies(c, s, u, i, w, exitCode);
    var s2 := Clears(c, s1, u, i, w, exitCode);
    s' := Purged(c, s2, u);
    LabelsDoNotMatter(s.core, s2.core, s.core.idle, w);
    var plan := if ExitIsPlanned(s.core, i, w, exitCode) then PlannedRestart else Crashed;
    assert s'.threads == s.threads[u := AfterExit(i, plan)];
    FirstStep(c, s1, Event(u, Go), s2, s');
    FirstStep(c, s, Event(u, Exit(exitCode)), s1, s');
  }

  /** A purge looks at slots and generations only. */
  lemma {:induction false} LabelsDoNotMatter(p: Core, q: Core, s: seq<Ref>, w: Ref)
    requires ValidRef(p, w) && forall k :: 0 <= k < |s| ==> ValidRef(p, s[k])
    requires q.workers == p.workers[w := Closed(p.workers[w].(state := Dead))]
    ensures ValidRef(q, w) && forall k :: 0 <= k < |s| ==> ValidRef(q, s[k])
    ensures Without(q, s, w) == Without(p, s, w)
  {
    if s != [] {
      LabelsDoNotMatter(p, q, s[..|s| - 1], w);
    }
  }

  /** The pool when the exit of w is on record: a crash is, with the policy's verdict, and a planned exit is not. */
  function Recorded(c: Config, p: Core, i: nat, w: Ref, exitCode: int, now: int): (q: Core)
    requires ValidSlot(p, i) && ValidRef(p, w) && forall k :: 0 <= k < |p.idle| ==> ValidRef(p, p.idle[k])
    ensures |q.slots| == |p.slots|
  {
    var q := Emptied(p, i, w);
    if ExitIsPlanned(p, i, w, exitCode) then q else q.(slots := q.slots[i - 1 := RecordCrash(c, q.slots[i - 1], now)])
  }

  /** After the record: a restart is on its way, or the slot has failed. */
  lemma Answers(c: Config, s: State, u: nat, i: nat, planned: bool) returns (s': State)
    requires Ok(s) && !s.locked && ValidSlot(s.core, i) && u < |s.threads|
    requires s.threads[u] == AfterExit(i, if planned then PlannedRestart else Crashed)
    ensures Leads(c, s, s') && Ok(s')
    ensures var sl := RecordCrash(c, s.core.slots[i - 1], s.now);
            s' == if planned then s.(threads := s.threads[u := Done] + [RestartWait(i, false)])
                  else s.(core := s.core.(slots := s.core.slots[i - 1 := sl]),
                          threads := s.threads[u := Done] + if SlotFailed(c, sl) then [] else [RestartWait(i, true)])
  {
    hide Leads, Step, PcOk, CoreOk, PoolModel.RecordCrash, SlotFailed;
    if planned {
      s' := AnswersPlan(c, s, u, i);
      OneStep(c, s, Event(u, Go), s');
    } else {
      var s1 := AnswersCrash(c, s, u, i);
      s' := Records(c, s1, u, i);
      assert s.threads[u := CrashExit(i)][u := Done] == s.threads[u := Done];
      OneStep(c, s1, Event(u, Go), s');
      FirstStep(c, s, Event(u, Go), s1, s');
    }
  }

  lemma AnswersPlan(c: Config, s: State, u: nat, i: nat) returns (s': State)
    requires Ok(s) && u < |s.threads| && s.threads[u] == AfterExit(i, PlannedRestart)
    ensures Step(c, s, Event(u, Go), s') && Ok(s')
    ensures s' == s.(threads := s.threads[u := Done] + [RestartWait(i, false)])
  {
    hide PcOk, CoreOk;
    s' := Moves(c, s, u, Go, Effect(Keep, Done, [RestartWait(i, false)], NoSide));
  }

  lemma AnswersCrash(c: Config, s: State, u: nat, i: nat) returns (s': State)
    requires Ok(s) && u < |s.threads| && s.threads[u] == AfterExit(i, Crashed)
    ensures Step(c, s, Event(u, Go), s') && Ok(s') && s' == s.(threads := s.threads[u := CrashExit(i)])
  {
    hide PcOk, CoreOk;
    s' := Moves(c, s, u, Go, Goto(CrashExit(i)));
  }

  lemma Records(c: Config, s: State, u: nat, i: nat) returns (s': State)
    requires Ok(s) && !s.locked && ValidSlot(s.core, i) && u < |s.threads| && s.threads[u] == CrashExit(i)
    ensures Step(c, s, Event(u, Go), s') && Ok(s')
    ensures var sl := RecordCrash(c, s.core.slots[i - 1], s.now);
            s' == s.(core := s.core.(slots := s.core.slots[i - 1 := sl]),
                     threads := s.threads[u := Done] + if SlotFailed(c, sl) then [] else [RestartWait(i, true)])
  {
    hide PcOk, CoreOk, PoolModel.RecordCrash, SlotFailed;
    var sl := RecordCrash(c, s.core.slots[i - 1], s.now);
    s' := Moves(c, s, u, Go,
                Effect(PutSlot(i, sl), Done, if SlotFailed(c, sl) then [] else [RestartWait(i, true)], NoSide));
  }

  lemma ExitsOnRecord(c: Config, s: State, u: nat, i: nat, w: Ref, exitCode: int) returns (s': State)
    requires Watching(c, s, u, i, w)
    ensures Leads(c, s, s') && Ok(s')
    ensures forall k :: 0 <= k < |s.core.idle| ==> ValidRef(s.core, s.core.idle[k])
    ensures var q, planned := Recorded(c, s.core, i, w, exitCode, s.now), ExitIsPlanned(s.core, i, w, exitCode);
            s' == s.(core := q,
                     threads := s.threads[u := Done]
                                + if !planned && SlotFailed(c, q.slots[i - 1]) then [] else [RestartWait(i, !planned)])
  {
    hide Leads, Step, PcOk, CoreOk, ExitIsPlanned, Without, PoolModel.RecordCrash, SlotFailed;
    ChannelIsValid(s);
    var planned := ExitIsPlanned(s.core, i, w, exitCode);
    var s1 := Exits(c, s, u, i, w, exitCode);
    s' := Answers(c, s1, u, i, planned);
    assert s'.core == Recorded(c, s.core, i, w, exitCode, s.now);
    assert s.threads[u := s1.threads[u]][u := Done] == s.threads[u := Done];
    LeadsOn(c, s, s1, s');
  }

  /** An installed worker may exit at any time; unless that is a crash beyond the limit, it is replaced. */
  lemma AnExitedWorkerIsReplaced(c: Config, s: State, u: nat, i: nat, w: Ref, exitCode: int) returns (s': State)
    requires Watching(c, s, u, i, w)
    ensures Leads(c, s, s') && Ok(s')
    ensures forall k :: 0 <= k < |s.core.idle| ==> ValidRef(s.core, s.core.idle[k])
    ensures var q := Recorded(c, s.core, i, w, exitCode, s.now);
            if !ExitIsPlanned(s.core, i, w, exitCode) && SlotFailed(c, q.slots[i - 1])
            then s' == s.(core := q, threads := s.threads[u := Done])
            else |q.idle| < c.idleCap ==>
                   s' == s.(core := BroughtUp(q, i), threads := s.threads[u := Done] + [Done, Watch(i, |q.workers|)])
  {
    hide Leads, Step, PcOk, CoreOk, ExitIsPlanned, Without, BroughtUp, Accepting, Recorded, SlotFailed, Emptied;
    var s2 := ExitsOnRecord(c, s, u, i, w, exitCode);
    var planned := ExitIsPlanned(s.core, i, w, exitCode);
    var q := Recorded(c, s.core, i, w, exitCode, s.now);
    if !planned && SlotFailed(c, q.slots[i - 1]) {
      s' := s2;
      assert s'.threads == s.threads[u := Done];
    } else if |q.idle| < c.idleCap {
      assert Accepting(q, i) by { StillAccepting(c, s.core, i, w, exitCode, s.now); }
      s' := FromRestart(c, s2, |s.threads|, i, !planned);
      assert s'.threads == s.threads[u := Done] + [Done, Watch(i, |q.workers|)];
      LeadsOn(c, s, s2, s');
    } else {
      s' := s2;
    }
  }

  lemma StillAccepting(c: Config, p: Core, i: nat, w: Ref, exitCode: int, now: int)
    requires ValidSlot(p, i) && ValidRef(p, w) && forall k :: 0 <= k < |p.idle| ==> ValidRef(p, p.idle[k])
    requires Accepting(p, i)
    ensures Accepting(Recorded(c, p, i, w, exitCode, now), i)
  {
    hide Without, ExitIsPlanned;
  }

  // ----- every slot -----

  /** In s' slot i holds a worker started since s, idle, on an open connection, and in the channel. */
  ghost predicate Filled(s: State, s': State, i: nat) {
    && ValidSlot(s'.core, i)
    && var worker := s'.core.slots[i - 1].worker;
       && worker.Some? && |s.core.workers| <= worker.value < |s'.core.workers|
       && s'.core.workers[worker.value].state == Idle && s'.core.workers[worker.value].conn == Conn(true, [], [])
       && worker.value in s'.core.idle
  }

  ghost predicate CanFill(c: Config, s: State, i: nat) {
    exists s' :: Leads(c, s, s') && Filled(s, s', i)
  }

  /** When the channel is full, a request can take a worker out of it. */
  lemma MakesRoom(c: Config, s: State) returns (s': State)
    requires Ok(s) && !s.locked && !s.core.stopping && c.http && |s.threads| > 0 && s.threads[0].Outside?
    requires 0 < c.idleCap && |s.core.idle| <= c.idleCap
    ensures Leads(c, s, s') && Ok(s') && |s'.core.idle| < c.idleCap
    ensures s' == s.(core := s.core.(idle := s'.core.idle), threads := s'.threads) && s.threads <= s'.threads
  {
    hide Leads, PcOk, CoreOk;
    if |s.core.idle| < c.idleCap {
      s' := s;
      NoStep(c, s);
    } else {
      var s1 := Arrives(c, s);
      var s2 := Moves(c, s1, |s.threads|, Go, Goto(Receive(false)));
      s' := Moves(c, s2, |s.threads|, Go, Write1(TakeIdle, Check(s.core.idle[0], false)));
      hide Step;
      OneStep(c, s2, Event(|s.threads|, Go), s');
      FirstStep(c, s1, Event(|s.threads|, Go), s2, s');
      FirstStep(c, s, Event(0, NewRequest), s1, s');
    }
  }

  lemma StartedBootFills(c: Config, s: State, u: nat, i: nat) returns (s': State)
    requires Ready(c, s, i) && c.http && 0 < c.idleCap && |s.core.idle| <= c.idleCap
    requires u < |s.threads| && s.threads[u].BootStart? && s.threads[u].slot == i
    ensures Leads(c, s, s') && Filled(s, s', i)
  {
    hide Leads, Step, PcOk, CoreOk;
    var s1 := MakesRoom(c, s);
    s' := ABootComesThrough(c, s1, u, i);
    LeadsOn(c, s, s1, s');
    var w := |s.core.workers|;
    assert s'.core.idle[|s1.core.idle|] == w;
  }

  lemma StartFills(c: Config, s: State, i: nat)
    requires CanStart(c, s, i) && c.http && 0 < c.idleCap && |s.core.idle| <= c.idleCap
    ensures CanFill(c, s, i)
  {
    hide Leads, Ready, Filled;
    var s1, u: nat :| Leads(c, s, s1) && AtStart(c, s, s1, u, i);
    StillFits(c, s, s1);
    var s' := StartedBootFills(c, s1, u, i);
    LeadsOn(c, s, s1, s');
    assert Filled(s, s', i) by { FilledSince(s, s1, s', i); }
  }

  lemma FilledSince(s: State, s1: State, s': State, i: nat)
    requires Filled(s1, s', i) && |s.core.workers| <= |s1.core.workers|
    ensures Filled(s, s', i)
  {
  }

  /** A goroutine that looks after a slot is on the way to boot it. */
  lemma CarerComes(pc: Pc, i: nat)
    requires LooksAfter(pc) == Some(i) && !GivesUp(pc) && !(pc.BootFail? && !pc.afterCrash)
    ensures OnTheWay(pc, i, Keeps(pc))
  {
  }

  lemma CarerGetsThere(c: Config, s: State, t: nat, i: nat)
    requires Ready(c, s, i) && t < |s.threads| && LooksAfter(s.threads[t]) == Some(i) && InCare(c, s.core, s.threads[t])
    requires !GivesUp(s.threads[t]) && !HoldsMu(s.threads[t])
    ensures CanStart(c, s, i)
  {
    hide CanStart, Ready, SlotFailed;
    var pc := s.threads[t];
    if pc.BootFail? && !pc.afterCrash {
      FromBootFail(c, s, t, i);
    } else {
      CarerComes(pc, i);
      WhoComesCanStart(c, s, t, i);
    }
  }

  lemma TendedGetsThere(c: Config, states: seq<State>, events: seq<Event>, k: nat, i: nat)
    requires Run(c, states, events) && k < |states| && !states[k].locked && c.fixedSize && Serving(states[k])
    requires ValidSlot(states[k].core, i) && !SlotFailed(c, states[k].core.slots[i - 1])
    ensures CanStart(c, states[k], i)
  {
    hide Run, CanStart, SlotFailed, LooksAfter, InCare, HoldsMu, PcOk, CoreOk, GivesUp;
    var t := NoSlotForgotten(c, states, events, k, i - 1);
    ReachedUnlocked(c, states, events, k, i);
    OutsideStaysOutside(c, states, events, k);
    TendedOverRuns(c, states, events, k);
    RunCared(c, states, events, k);
    CarerGetsThere(c, states[k], t, i);
  }

  /**
   Whenever p.mu is free on a running HTTP pool, slot i can come to hold a new idle worker that stands in the channel,
   if somebody is on the way to the slot, or if the pool is of fixed size, its context has not ended and the slot has
   not failed.
   */
  lemma EverySlotCanServe(c: Config, states: seq<State>, events: seq<Event>, k: nat, i: nat)
    requires Run(c, states, events) && k < |states| && !states[k].locked && c.http && !states[k].core.stopping
    requires ValidSlot(states[k].core, i)
    requires SomebodyComes(states[k], i)
             || (c.fixedSize && !states[k].cancelled && !SlotFailed(c, states[k].core.slots[i - 1]))
    ensures CanFill(c, states[k], i)
  {
    hide Run, CanStart, CanFill, SlotFailed, SomebodyComes;
    if SomebodyComes(states[k], i) {
      SomebodyGetsThere(c, states, events, k, i);
    } else {
      TendedGetsThere(c, states, events, k, i);
    }
    ChannelFits(c, states, events, k);
    RunUnfolds(c, states, events, 0);
    StartFills(c, states[k], i);
  }
}
