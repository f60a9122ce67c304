/**
 Exactly when Shutdown (internal/worker/pool.go:824-893) can leave a worker behind, told from the moment at which the
 pool starts to stop.
 */
module ShutdownExactly {
  import opened Basics
  import opened PoolModel
  import opened PoolMachine
  import opened PoolLocking
  import opened PoolShutdown
  import opened PoolRuns
  import opened PoolTheorems
  import opened ShutdownCompleteness
  import opened Continuations
  import opened ShutdownOvertaken

  // ----- Shutdown goes on to its wait -----

  lemma {:induction false} DrainEnds(c: Config, s: State, u: nat, i: nat, w: Ref, t: nat) returns (s': State)
    requires Standing(s, u, i, w) && t < |s.threads| && t != u && s.threads[t].StopDrain?
    ensures Leads(c, s, s') && Standing(s', u, i, w) && s'.threads == s.threads[t := StopMark]
    decreases |s.core.idle|
  {
    hide Leads, CoreOk, PcOk;
    if s.core.idle == [] {
      s' := Moves(c, s, t, Go, Goto(StopMark));
      hide Step;
      OneStep(c, s, Event(t, Go), s');
    } else {
      var r := s.core.idle[0];
      var s1 := Moves(c, s, t, Go, Write1(TakeIdle, StopWorker(r)));
      var s2 := StopOne(c, s1, t, r);
      hide Step;
      s' := DrainEnds(c, s2, u, i, w, t);
      assert s2.threads[t := StopMark] == s.threads[t := StopMark];
      FirstStep(c, s1, Event(t, Go), s2, s');
      FirstStep(c, s, Event(t, Go), s1, s');
    }
  }

  lemma StopOne(c: Config, s: State, t: nat, r: Ref) returns (s': State)
    requires Ok(s) && t < |s.threads| && s.threads[t] == StopWorker(r)
    ensures Step(c, s, Event(t, Go), s') && Ok(s')
    ensures s' == s.(core := s.core.(workers := s'.core.workers), threads := s.threads[t := StopDrain])
  {
    assert PcOk(s.core, s.threads[t]);
    s' := Moves(c, s, t, Go, Write1(PutWorker(r, Closed(s.core.workers[r].(state := Stopped))), StopDrain));
    hide PcOk, CoreOk;
    assert s'.threads == s.threads[t := StopDrain];
  }

  lemma MarkingKeeps(p: Core)
    requires CoreOk(p)
    ensures var q := MarkAll(p);
            && q.stopping == p.stopping && |q.slots| == |p.slots| && q.idle == p.idle
            && forall x :: 0 <= x < |p.slots| ==> q.slots[x].worker == p.slots[x].worker
  {
  }

  lemma MarkGoesToWait(c: Config, s: State, u: nat, i: nat, w: Ref, t: nat) returns (s': State)
    requires Standing(s, u, i, w) && t < |s.threads| && t != u && s.threads[t].StopMark?
    ensures Leads(c, s, s') && Standing(s', u, i, w)
    ensures |s'.threads| >= |s.threads| && s'.threads[..|s.threads|] == s.threads[t := StopWait]
    ensures forall x :: |s.threads| <= x < |s'.threads| ==> s'.threads[x].Terminate?
  {
    hide Leads, Remaining, MarkAll, PcOk;
    var doomed := Remaining(s.core.slots);
    var ends := seq(|doomed|, k requires 0 <= k < |doomed| => Terminate(doomed[k]));
    s' := Moves(c, s, t, Go, Effect(Replace(MarkAll(s.core)), StopWait, ends, NoSide));
    hide Step;
    OneStep(c, s, Event(t, Go), s');
    MarkingKeeps(s.core);
    hide CoreOk;
  }

  lemma ToWait(c: Config, s: State, u: nat, i: nat, w: Ref, t: nat) returns (s': State)
    requires Standing(s, u, i, w) && t < |s.threads| && t != u && s.threads[t].StopCancel?
    ensures Leads(c, s, s') && Standing(s', u, i, w)
    ensures |s'.threads| >= |s.threads| && s'.threads[..|s.threads|] == s.threads[t := StopWait]
    ensures forall x :: |s.threads| <= x < |s'.threads| ==> s'.threads[x].Terminate?
  {
    hide Leads, PcOk, CoreOk;
    var s1 := Moves(c, s, t, Go, Effect(Keep, StopDrain, [], CancelCtx));
    hide Step;
    var s2 := DrainEnds(c, s1, u, i, w, t);
    hide Standing;
    FirstStep(c, s, Event(t, Go), s1, s2);
    s' := MarkGoesToWait(c, s2, u, i, w, t);
    assert s2.threads[t := StopWait] == s.threads[t := StopWait];
    LeadsOn(c, s, s2, s');
  }

  // ----- everybody it waits for comes to an end -----

  /** No counted boot is about to empty slot i. */
  ghost predicate NobodyEmpties(s: State, i: nat) {
    forall v :: 0 <= v < |s.threads| && s.threads[v].BootFail? && s.threads[v].counted ==> s.threads[v].slot != i
  }

  lemma {:induction false} AllEnd(c: Config, s: State, u: nat, i: nat, w: Ref, t: nat, k: nat, n: nat)
    returns (s': State)
    requires Standing(s, u, i, w) && Inv(c, s) && OneTracker(s) && NobodyEmpties(s, i)
    requires t < |s.threads| && s.threads[t].StopWait? && k <= n <= |s.threads|
    requires forall x :: 0 <= x < k ==> !Counted(s.threads[x])
    requires forall x :: n <= x < |s.threads| ==> !Counted(s.threads[x])
    ensures Leads(c, s, s') && Standing(s', u, i, w) && AllCountedDone(s'.threads)
    ensures t < |s'.threads| && s'.threads[t].StopWait?
    decreases n - k
  {
    hide Leads, Inv, Standing, Step;
    if k == n {
      s' := s;
      NoStep(c, s);
    } else if !Counted(s.threads[k]) {
      s' := AllEnd(c, s, u, i, w, t, k + 1, n);
    } else {
      StandsUncounted(c, s, u, i, w, k);
      var s1 := EndCounted(c, s, u, i, w, k);
      InvStays(c, s, s1);
      TrackerStays(c, s, s1);
      hide OneTracker;
      NobodyEmptiesStill(s, s1, i, k);
      s' := AllEnd(c, s1, u, i, w, t, k + 1, n);
      LeadsOn(c, s, s1, s');
    }
  }

  lemma NobodyEmptiesStill(s: State, s': State, i: nat, v: nat)
    requires NobodyEmpties(s, i) && Leaves(s, s', v)
    ensures NobodyEmpties(s', i)
  {
    forall x | 0 <= x < |s'.threads| && s'.threads[x].BootFail? && s'.threads[x].counted
      ensures s'.threads[x].slot != i
    {
      assert Counted(s'.threads[x]);
    }
  }

  lemma StandsUncounted(c: Config, s: State, u: nat, i: nat, w: Ref, v: nat)
    requires Standing(s, u, i, w) && Inv(c, s) && OneTracker(s) && v < |s.threads| && Counted(s.threads[v])
    ensures v != u && Tracks(s.threads[v]) != Some(w) && !HoldsMu(s.threads[v])
  {
    assert Tracks(s.threads[u]) == Some(w);
    hide Tracks;
  }

  /** From the start of the stop to its end, past a boot that stands. */
  lemma ShutdownOvertakes(c: Config, s: State, u: nat, i: nat, w: Ref, t: nat) returns (s': State)
    requires Standing(s, u, i, w) && Inv(c, s) && OneTracker(s) && NobodyEmpties(s, i)
    requires t < |s.threads| && t != u && s.threads[t].StopCancel?
    ensures Leads(c, s, s') && Standing(s', u, i, w) && t < |s'.threads| && s'.threads[t].StopDone?
  {
    hide Leads, Inv, Standing, OneTracker;
    var s1 := ToWait(c, s, u, i, w, t);
    InvStays(c, s, s1);
    TrackerStays(c, s, s1);
    assert NobodyEmpties(s1, i) by {
      forall x | 0 <= x < |s1.threads| && s1.threads[x].BootFail? && s1.threads[x].counted
        ensures s1.threads[x].slot != i
      {
        assert x < |s.threads| && s1.threads[..|s.threads|][x] == s1.threads[x];
      }
    }
    assert s1.threads[..|s.threads|][t] == StopWait;
    var s2 := AllEnd(c, s1, u, i, w, t, 0, |s1.threads|);
    hide NobodyEmpties;
    LeadsOn(c, s, s1, s2);
    s' := WaitEnds(c, s2, u, i, w, t);
    LeadsOn(c, s, s2, s');
  }

  lemma WaitEnds(c: Config, s: State, u: nat, i: nat, w: Ref, t: nat) returns (s': State)
    requires Standing(s, u, i, w) && t < |s.threads| && s.threads[t].StopWait? && AllCountedDone(s.threads)
    ensures Leads(c, s, s') && Standing(s', u, i, w) && t < |s'.threads| && s'.threads[t].StopDone?
  {
    hide Leads, PcOk, CoreOk, AllCountedDone;
    s' := Moves(c, s, t, Go, Goto(StopDone));
    hide Step;
    OneStep(c, s, Event(t, Go), s');
  }

  // ----- and only then -----

  /** Thread t of the run goes from StopCancel at j to StopDone at k: somewhere in between its wait ends. */
  lemma {:induction false} WaitEndsAt(c: Config, states: seq<State>, events: seq<Event>, j: nat, k: nat, t: nat)
    returns (m: nat)
    requires Run(c, states, events) && j <= k < |states| && t < |states[j].threads| && t < |states[k].threads|
    requires !states[j].threads[t].StopDone? && states[k].threads[t].StopDone?
    ensures j <= m < k && events[m].t == t && t < |states[m].threads| && states[m].threads[t].StopWait?
    decreases k
  {
    hide Run, Step;
    RunStep(c, states, events, k - 1);
    ThreadsStayThere(c, states, events, j, k - 1, t);
    if states[k - 1].threads[t].StopDone? {
      m := WaitEndsAt(c, states, events, j, k - 1, t);
    } else {
      DoneComesFromWait(c, states[k - 1], events[k - 1], states[k], t);
      m := k - 1;
    }
  }

  lemma {:induction false} ThreadsStayThere(
    c: Config, states: seq<State>, events: seq<Event>, j: nat, k: nat, t: nat)
    requires Run(c, states, events) && j <= k < |states| && t < |states[j].threads|
    ensures t < |states[k].threads|
    decreases k
  {
    hide Run, Step;
    if j < k {
      ThreadsStayThere(c, states, events, j, k - 1, t);
      RunStep(c, states, events, k - 1);
      ThreadStays(c, states[k - 1], events[k - 1], states[k]);
    }
  }

  lemma ThreadStays(c: Config, s: State, e: Event, s': State)
    requires Step(c, s, e, s')
    ensures |s.threads| <= |s'.threads|
  {
    hide Plan, PcOk, CoreOk;
  }

  lemma DoneComesFromWait(c: Config, s: State, e: Event, s': State, t: nat)
    requires Step(c, s, e, s') && t < |s.threads| && !s.threads[t].StopDone?
    requires t < |s'.threads| && s'.threads[t].StopDone?
    ensures e.t == t && s.threads[t].StopWait?
  {
    hide Plan, PcOk, CoreOk;
    PlanCloses(c, s, s.threads[e.t], e.choice);
  }

  /** A counted boot that failed empties its slot before it leaves the wait group. */
  lemma {:induction false} FailureEmpties(
    c: Config, states: seq<State>, events: seq<Event>, j: nat, k: nat, v: nat, i: nat)
    requires Run(c, states, events) && j <= k < |states| && states[j].core.stopping && ValidSlot(states[j].core, i)
    requires v < |states[j].threads| && states[j].threads[v].BootFail? && states[j].threads[v].slot == i
    ensures v < |states[k].threads| && ValidSlot(states[k].core, i)
    ensures states[k].threads[v] == states[j].threads[v] || states[k].core.slots[i - 1].worker.None?
    decreases k
  {
    hide Run, Step;
    StoppingOverRuns(c, states, events, j, k);
    if j < k {
      FailureEmpties(c, states, events, j, k - 1, v, i);
      RunStep(c, states, events, k - 1);
      ThreadStays(c, states[k - 1], events[k - 1], states[k]);
      StoppingOverRuns(c, states, events, j, k - 1);
      if states[k - 1].core.slots[i - 1].worker.None? {
        NothingInstalledWhileStopping(c, states[k - 1], events[k - 1], states[k], i - 1);
      } else {
        FailureStep(c, states[k - 1], events[k - 1], states[k], v, i);
      }
    }
  }

  lemma FailureStep(c: Config, s: State, e: Event, s': State, v: nat, i: nat)
    requires Step(c, s, e, s') && v < |s.threads| && s.threads[v].BootFail? && s.threads[v].slot == i
    requires ValidSlot(s'.core, i)
    ensures v < |s'.threads| && (s'.threads[v] == s.threads[v] || s'.core.slots[i - 1].worker.None?)
  {
    hide PlanRequest, PlanSender, PlanMonitor, PlanControl, PlanOutside, PcOk, CoreOk, SlotFailed, RecordCrash;
  }

  /** Out of Shutdown's sight, the worker in its slot, and nobody in the wait group about to empty it. */
  ghost predicate Overtaken(s: State, u: nat) {
    Unregistered(s, u) && NobodyEmpties(s, s.threads[u].slot)
  }

  ghost predicate SomebodyOvertakes(s: State) {
    exists u: nat :: Overtaken(s, u)
  }

  /** Shutdown t has returned, and a slot is filled. */
  ghost predicate ReturnsOccupied(s: State, t: nat) {
    t < |s.threads| && s.threads[t].StopDone? && !AllEmpty(s.core)
  }

  lemma CountedFailureEmpties(
    c: Config, states: seq<State>, events: seq<Event>, j: nat, m: nat, v: nat)
    requires Run(c, states, events) && j <= m < |states| && states[j].core.stopping
    requires v < |states[j].threads| && states[j].threads[v].BootFail? && states[j].threads[v].counted
    requires ValidSlot(states[j].core, states[j].threads[v].slot) && AllCountedDone(states[m].threads)
    ensures var i := states[j].threads[v].slot;
            ValidSlot(states[m].core, i) && states[m].core.slots[i - 1].worker.None?
  {
    hide Run;
    FailureEmpties(c, states, events, j, m, v, states[j].threads[v].slot);
    assert Counted(states[j].threads[v]);
  }

  lemma LeftBehindWasOvertaken(
    c: Config, states: seq<State>, events: seq<Event>, j: nat, m: nat, u: nat)
    requires Run(c, states, events) && j <= m < |states| && states[j].core.stopping
    requires Unregistered(states[m], u) && AllCountedDone(states[m].threads)
    ensures Overtaken(states[j], u)
  {
    hide Run;
    OutOfSightSince(c, states, events, j, m, u);
    StoppingOverRuns(c, states, events, j, m);
    var i := states[m].threads[u].slot;
    OccupiedSlotsOnlyShrink(c, states, events, j, m, i - 1);
    forall v | 0 <= v < |states[j].threads| && states[j].threads[v].BootFail? && states[j].threads[v].counted
      ensures states[j].threads[v].slot != i
    {
      if states[j].threads[v].slot == i {
        CountedFailureEmpties(c, states, events, j, m, v);
      }
    }
  }

  lemma OccupiedMeansOvertaken(
    c: Config, states: seq<State>, events: seq<Event>, j: nat, t: nat) returns (u: nat)
    requires Run(c, states, events) && j < |states| && states[j].core.stopping
    requires t < |states[j].threads| && !states[j].threads[t].StopDone? && ReturnsOccupied(states[|events|], t)
    ensures Overtaken(states[j], u)
  {
    hide Run, Step, Overtaken, Unregistered;
    var n := |events|;
    RunUnfolds(c, states, events, j);
    var m := WaitEndsAt(c, states, events, j, n, t);
    ShutdownIsComplete(c, states, events, m, m + 1);
    StoppingOverRuns(c, states, events, j, m + 1);
    StoppingOverRuns(c, states, events, m + 1, n);
    if forall v: nat :: !Unregistered(states[m], v) {
      forall i | 0 <= i < |states[n].core.slots| ensures states[n].core.slots[i].worker.None? {
        OccupiedSlotsOnlyShrink(c, states, events, m + 1, n, i);
      }
      assert false;
    }
    u :| Unregistered(states[m], u);
    WaitFindsDone(c, states, events, m);
    LeftBehindWasOvertaken(c, states, events, j, m, u);
  }

  lemma WaitFindsDone(c: Config, states: seq<State>, events: seq<Event>, m: nat)
    requires Run(c, states, events) && m < |events| && events[m].t < |states[m].threads|
    requires states[m].threads[events[m].t].StopWait?
    ensures AllCountedDone(states[m].threads)
  {
    RunInv(c, states, events, m);
    RunStep(c, states, events, m);
    StopWaitEnds(c, states[m], events[m], states[m + 1]);
  }

  lemma OvertakenStands(s: State, u: nat)
    requires Ok(s) && s.core.stopping && !s.locked && Overtaken(s, u)
    ensures u < |s.threads| && s.threads[u].BootWatch? && Standing(s, u, s.threads[u].slot, s.threads[u].w)
    ensures NobodyEmpties(s, s.threads[u].slot)
  {
  }

  lemma StandingOccupies(s: State, u: nat, i: nat, w: Ref)
    requires Standing(s, u, i, w)
    ensures !AllEmpty(s.core)
  {
    assert s.core.slots[i - 1].worker == Some(w);
  }

  lemma OvertakenGoesOn(c: Config, states: seq<State>, events: seq<Event>, j: nat, u: nat) returns (s': State)
    requires Run(c, states, events) && |events| == j + 1 && Overtaken(states[j + 1], u)
    requires events[j].t < |states[j].threads| && states[j].threads[events[j].t].StopStart?
    ensures Leads(c, states[j + 1], s') && ReturnsOccupied(s', events[j].t)
  {
    var s, t := states[j + 1], events[j].t;
    hide Run, Step, Overtaken, Inv, Leads, OneTracker, NobodyEmpties, Standing;
    RunStep(c, states, events, j);
    StopStartStops(c, states[j], events[j], s);
    RunInv(c, states, events, j + 1);
    TrackerOverRuns(c, states, events, j + 1);
    InvIsOk(c, s);
    OvertakenStands(s, u);
    s' := ShutdownOvertakes(c, s, u, s.threads[u].slot, s.threads[u].w, t);
    StandingOccupies(s', u, s.threads[u].slot, s.threads[u].w);
  }

  /**
   Shutdown can return with a slot still filled if and only if, when the pool starts to stop, a boot outside the wait
   group has just filled a slot (311) and is still to register its monitor (313), and no boot in the wait group is about
   to empty that slot.
   */
  lemma ShutdownCanLeaveExactlyWhen(c: Config, states: seq<State>, events: seq<Event>, j: nat)
    requires Run(c, states, events) && |events| == j + 1
    requires events[j].t < |states[j].threads| && states[j].threads[events[j].t].StopStart?
    ensures (exists s' :: Leads(c, states[j + 1], s') && ReturnsOccupied(s', events[j].t))
            <==> SomebodyOvertakes(states[j + 1])
  {
    var s, t := states[j + 1], events[j].t;
    hide Run, Step, Overtaken, Leads, Standing;
    RunStep(c, states, events, j);
    StopStartStops(c, states[j], events[j], s);
    if SomebodyOvertakes(s) {
      var u: nat :| Overtaken(s, u);
      var s' := OvertakenGoesOn(c, states, events, j, u);
    }
    forall s' | Leads(c, s, s') && ReturnsOccupied(s', t) ensures SomebodyOvertakes(s) {
      var states', events' := PathExtendsRun(c, states, events, s');
      assert states'[j + 1] == s;
      var u := OccupiedMeansOvertaken(c, states', events', j + 1, t);
    }
  }
}
