/**
 Scale-down and the requests over whole runs. SetDesired looks at a worker (internal/worker/pool.go:516) and marks it
 (523) under p.mu; a request claims one (591, 629) under the worker's own mutex. Which held workers are sent away is
 decided by what stands between an acquire's check and its claim at the moment of the look.
 */
module PoolScaleDown {
  import opened Protocol
  import opened PoolModel
  import opened PoolMachine
  import opened PoolLocking
  import opened PoolOwnership
  import opened PoolIdentity
  import opened PoolDraining
  import opened PoolRuns
  import opened PoolTheorems
  import opened Continuations

  /** Step e is the claim of w. */
  ghost predicate ClaimsNow(s: State, e: Event, w: Ref) {
    e.t < |s.threads| && s.threads[e.t].Claim? && s.threads[e.t].w == w
  }

  ghost predicate HeldByRequest(s: State, w: Ref) {
    exists u :: 0 <= u < |s.threads| && Claimed(s.threads[u], w)
  }

  /** An acquire has found w fit and is about to claim it. */
  ghost predicate AboutToClaim(s: State, u: nat, w: Ref) {
    && u < |s.threads| && w < |s.core.workers|
    && ((s.threads[u].Claim? && s.threads[u].w == w)
        || (s.threads[u].Inspect? && s.threads[u].w == w && s.core.workers[w].state == Idle))
  }

  ghost predicate MayBeClaimed(s: State, w: Ref) {
    exists u: nat :: AboutToClaim(s, u, w)
  }

  // ----- single steps -----

  lemma ClaimantsComeFromClaims(c: Config, s: State, e: Event, s': State, u: nat, w: Ref)
    requires Step(c, s, e, s') && u < |s'.threads| && Claimed(s'.threads[u], w)
    ensures (u < |s.threads| && Claimed(s.threads[u], w)) || ClaimsNow(s, e, w)
  {
    hide Plan, PcOk, CoreOk, Held;
    PlanClaims(c, s, s.threads[e.t], e.choice);
    assert IsClaimant(s'.threads[u]);
  }

  lemma ClaimTakes(c: Config, s: State, e: Event, s': State, w: Ref)
    requires Step(c, s, e, s') && ClaimsNow(s, e, w)
    ensures e.t < |s'.threads| && Claimed(s'.threads[e.t], w)
  {
    hide PcOk, CoreOk;
  }

  /** While p.mu is held no request gives its worker back. */
  lemma ClaimantsWait(c: Config, s: State, e: Event, s': State, u: nat, w: Ref)
    requires Step(c, s, e, s') && s.locked && u < |s.threads| && Claimed(s.threads[u], w)
    ensures u < |s'.threads| && Claimed(s'.threads[u], w)
  {
    hide PcOk, CoreOk, ReleaseCommit, DiscardCommit;
  }

  /** How acquires come to a claim, and how workers change their state; with p.mu held no acquire passes its check. */
  ghost predicate Approaches(s: State, pc: Pc, f: Effect) {
    && (forall k :: 0 <= k < |f.spawned| ==> !f.spawned[k].Inspect? && !f.spawned[k].Claim?)
    && (f.next.Inspect? ==> !s.locked)
    && (f.next.Claim? ==>
          pc.Inspect? && pc.w == f.next.w && pc.w < |s.core.workers| && s.core.workers[pc.w].state == Idle)
    && (f.op.PutWorker? && f.op.w < |s.core.workers| ==>
          f.op.worker.state == s.core.workers[f.op.w].state || Taken(f.op.worker.state)
          || (pc.Release? && pc.w == f.op.w && !s.locked))
    && (f.op.PutBoth? ==> Taken(f.op.worker.state))
  }

  lemma RequestApproaches(c: Config, s: State, pc: Pc, ch: Choice)
    requires Ok(s) && PcOk(s.core, pc)
    ensures var f := PlanRequest(c, s, pc, ch); f.Some? ==> Approaches(s, pc, f.value)
    ensures var f := PlanSender(s, pc, ch); f.Some? ==> Approaches(s, pc, f.value)
    ensures var f := PlanOutside(c, s, pc, ch); f.Some? ==> Approaches(s, pc, f.value)
  {
    hide SameGeneration, WantsRecycle, OutOfService, CheckAcquired, ValidResponse, MayWrite;
  }

  lemma MonitorApproaches(c: Config, s: State, pc: Pc, ch: Choice)
    requires Ok(s) && PcOk(s.core, pc)
    ensures var f := PlanBoot(c, s, pc, ch); f.Some? ==> Approaches(s, pc, f.value)
    ensures var f := PlanMonitor(c, s, pc, ch); f.Some? ==> Approaches(s, pc, f.value)
  {
    hide RecordCrash, SlotFailed, PlanAfterExit, OwnsSlot, SameWorker, Accepting;
  }

  lemma ControlApproaches(c: Config, s: State, pc: Pc)
    requires Ok(s) && PcOk(s.core, pc)
    ensures var f := PlanControl(c, s, pc); f.Some? ==> Approaches(s, pc, f.value)
  {
    hide Rescaled, MarkAll, Remaining, NothingToResize, Bootable, Spared;
  }

  lemma PlanApproaches(c: Config, s: State, pc: Pc, ch: Choice)
    requires Ok(s) && PcOk(s.core, pc)
    ensures var f := Plan(c, s, pc, ch); f.Some? ==> Approaches(s, pc, f.value)
  {
    hide PlanRequest, PlanSender, PlanBoot, PlanMonitor, PlanControl, PlanOutside, PcOk, Approaches;
    RequestApproaches(c, s, pc, ch);
    MonitorApproaches(c, s, pc, ch);
    ControlApproaches(c, s, pc);
  }

  lemma NobodyGetsThrough(c: Config, s: State, e: Event, s': State, u: nat, w: Ref)
    requires Step(c, s, e, s') && s.locked && w < |s.core.workers| && AboutToClaim(s', u, w)
    ensures AboutToClaim(s, u, w)
  {
    hide Plan, PcOk, CoreOk;
    PlanApproaches(c, s, s.threads[e.t], e.choice);
  }

  // ----- between look and mark -----

  /** Event j is thread t's look, which finds the worker open to being sent away, and event k is its mark. */
  ghost predicate LooksAndMarks(states: seq<State>, events: seq<Event>, j: nat, k: nat, t: nat) {
    && j < k < |events| && |states| == |events| + 1
    && events[j].t == t == events[k].t && t < |states[j].threads| && t < |states[j + 1].threads|
    && states[j].threads[t].ResizeScan? && states[j + 1].threads[t].ResizeMark?
    && forall m :: j < m < k ==> events[m].t != t
  }

  lemma OtherThreadsStay(c: Config, s: State, e: Event, s': State, t: nat)
    requires Step(c, s, e, s') && t < |s.threads| && e.t != t
    ensures t < |s'.threads| && s'.threads[t] == s.threads[t]
  {
    hide Plan, PcOk, CoreOk;
  }

  lemma {:induction false} MarkerWaits(
    c: Config, states: seq<State>, events: seq<Event>, j: nat, k: nat, t: nat, m: nat)
    requires Run(c, states, events) && LooksAndMarks(states, events, j, k, t) && j < m <= k
    ensures t < |states[m].threads| && states[m].threads[t] == states[j + 1].threads[t] && states[m].locked
    decreases m
  {
    hide Run, Step, Inv;
    if m > j + 1 {
      MarkerWaits(c, states, events, j, k, t, m - 1);
      RunStep(c, states, events, m - 1);
      OtherThreadsStay(c, states[m - 1], events[m - 1], states[m], t);
    }
    RunIsLocked(c, states, events, m, t);
  }

  lemma RunIsLocked(c: Config, states: seq<State>, events: seq<Event>, m: nat, t: nat)
    requires Run(c, states, events) && m < |states| && t < |states[m].threads| && HoldsMu(states[m].threads[t])
    ensures states[m].locked
  {
    RunInv(c, states, events, m);
  }

  lemma NotHeldAfterLook(c: Config, states: seq<State>, events: seq<Event>, j: nat, k: nat, t: nat)
    requires Run(c, states, events) && c.http && LooksAndMarks(states, events, j, k, t)
    ensures !HeldByRequest(states[j + 1], states[j + 1].threads[t].w)
  {
    var w := states[j + 1].threads[t].w;
    RunInv(c, states, events, j);
    RunStep(c, states, events, j);
    LookLeavesUnheld(c, states[j], events[j], states[j + 1], w);
  }

  lemma LookLeavesUnheld(c: Config, s: State, e: Event, s': State, w: Ref)
    requires Step(c, s, e, s') && c.http && ClaimedAreTaken(s) && s.threads[e.t].ResizeScan?
    requires s'.threads[e.t].ResizeMark? && s'.threads[e.t].w == w
    ensures !HeldByRequest(s', w)
  {
    hide PlanControl, PcOk, CoreOk, ClaimedAreTaken, Claimed;
    if HeldByRequest(s', w) {
      var u :| 0 <= u < |s'.threads| && Claimed(s'.threads[u], w);
      ClaimantsComeFromClaims(c, s, e, s', u, w);
      LookSpares(c, s, e.t, u, w);
    }
  }

  /**
   Between look and mark a worker is held by a request exactly if one has claimed it since the look: a claim
   cannot be given back while p.mu is held.
   */
  lemma {:induction false} HeldExactlyIfClaimedSince(
    c: Config, states: seq<State>, events: seq<Event>, j: nat, k: nat, t: nat, m: nat)
    requires Run(c, states, events) && c.http && LooksAndMarks(states, events, j, k, t) && j < m <= k
    ensures var w := states[j + 1].threads[t].w;
            HeldByRequest(states[m], w) <==> exists x :: j < x < m && ClaimsNow(states[x], events[x], w)
    decreases m
  {
    hide Run, Step, Held, ClaimsNow, Claimed, LooksAndMarks;
    var w := LookedAt(states, events, j, k, t);
    if m == j + 1 {
      NotHeldAfterLook(c, states, events, j, k, t);
    } else {
      HeldExactlyIfClaimedSince(c, states, events, j, k, t, m - 1);
      MarkerWaits(c, states, events, j, k, t, m - 1);
      RunStep(c, states, events, m - 1);
      HeldStep(c, states[m - 1], events[m - 1], states[m], w);
    }
  }

  lemma HeldStep(c: Config, s: State, e: Event, s': State, w: Ref)
    requires Step(c, s, e, s') && s.locked
    ensures HeldByRequest(s', w) <==> HeldByRequest(s, w) || ClaimsNow(s, e, w)
  {
    hide Step, Claimed;
    if HeldByRequest(s, w) {
      var u :| 0 <= u < |s.threads| && Claimed(s.threads[u], w);
      ClaimantsWait(c, s, e, s', u, w);
    }
    if ClaimsNow(s, e, w) {
      ClaimTakes(c, s, e, s', w);
    }
    if HeldByRequest(s', w) {
      var u :| 0 <= u < |s'.threads| && Claimed(s'.threads[u], w);
      ClaimantsComeFromClaims(c, s, e, s', u, w);
    }
  }

  /** The worker that the look of thread t has found. */
  lemma LookedAt(states: seq<State>, events: seq<Event>, j: nat, k: nat, t: nat) returns (w: Ref)
    requires LooksAndMarks(states, events, j, k, t)
    ensures |states| == |events| + 1 && j < k < |events| && t < |states[j + 1].threads|
    ensures states[j + 1].threads[t].ResizeMark? && w == states[j + 1].threads[t].w
  {
    w := states[j + 1].threads[t].w;
  }

  lemma {:induction false} ClaimsStandAtTheLook(
    c: Config, states: seq<State>, events: seq<Event>, j: nat, k: nat, t: nat, m: nat, u: nat)
    requires Run(c, states, events) && LooksAndMarks(states, events, j, k, t) && j < m <= k
    requires AboutToClaim(states[m], u, states[j + 1].threads[t].w)
    ensures AboutToClaim(states[j + 1], u, states[j + 1].threads[t].w)
    decreases m
  {
    hide Run, Step, LooksAndMarks, AboutToClaim;
    var w := LookedAt(states, events, j, k, t);
    if m > j + 1 {
      MarkerWaits(c, states, events, j, k, t, m - 1);
      RunStep(c, states, events, m - 1);
      MarkedWorkerExists(c, states, events, m - 1, t);
      NobodyGetsThrough(c, states[m - 1], events[m - 1], states[m], u, w);
      ClaimsStandAtTheLook(c, states, events, j, k, t, m - 1, u);
    }
  }

  lemma MarkedWorkerExists(c: Config, states: seq<State>, events: seq<Event>, m: nat, t: nat)
    requires Run(c, states, events) && m < |states| && t < |states[m].threads| && states[m].threads[t].ResizeMark?
    ensures states[m].threads[t].w < |states[m].core.workers|
  {
    RunInv(c, states, events, m);
    assert PcOk(states[m].core, states[m].threads[t]);
  }

  lemma AClaimStandsThere(c: Config, s: State, e: Event, s': State, w: Ref)
    requires Step(c, s, e, s') && ClaimsNow(s, e, w)
    ensures AboutToClaim(s, e.t, w)
  {
    hide Plan, CoreOk;
    assert PcOk(s.core, s.threads[e.t]);
  }

  /** If no acquire stood between its check and its claim at the look, no request holds the worker at the mark. */
  lemma UnheldAtTheMark(c: Config, states: seq<State>, events: seq<Event>, j: nat, k: nat, t: nat)
    requires Run(c, states, events) && c.http && LooksAndMarks(states, events, j, k, t)
    requires !MayBeClaimed(states[j + 1], states[j + 1].threads[t].w)
    ensures var w := states[j + 1].threads[t].w; !HeldByRequest(states[k], w) && !MayBeClaimed(states[k], w)
  {
    hide Run, Step, LooksAndMarks, AboutToClaim, ClaimsNow, HeldByRequest;
    var w := LookedAt(states, events, j, k, t);
    MarkerWaits(c, states, events, j, k, t, k);
    HeldExactlyIfClaimedSince(c, states, events, j, k, t, k);
    if HeldByRequest(states[k], w) {
      var x :| j < x < k && ClaimsNow(states[x], events[x], w);
      RunStep(c, states, events, x);
      AClaimStandsThere(c, states[x], events[x], states[x + 1], w);
      ClaimsStandAtTheLook(c, states, events, j, k, t, x, events[x].t);
    }
    if MayBeClaimed(states[k], w) {
      var u: nat :| AboutToClaim(states[k], u, w);
      ClaimsStandAtTheLook(c, states, events, j, k, t, k, u);
    }
  }

  /** Taken by nobody: no request holds w, none is about to claim it, and no acquire accepts its state. */
  ghost predicate OutOfReach(s: State, w: Ref) {
    w < |s.core.workers| && Taken(s.core.workers[w].state) && !HeldByRequest(s, w) && !MayBeClaimed(s, w)
  }

  /** Nobody comes nearer to claiming a taken worker, and it stays taken unless a request gives it back. */
  lemma NobodyComesForward(c: Config, s: State, e: Event, s': State, w: Ref)
    requires Step(c, s, e, s') && w < |s.core.workers| && Taken(s.core.workers[w].state)
    ensures w < |s'.core.workers| && (Taken(s'.core.workers[w].state) || HeldByRequest(s, w))
    ensures HeldByRequest(s, w) || forall u: nat :: AboutToClaim(s', u, w) ==> AboutToClaim(s, u, w)
  {
    hide Plan, PcOk, CoreOk;
    var pc := s.threads[e.t];
    PlanApproaches(c, s, pc, e.choice);
    assert pc.Release? && pc.w == w ==> Claimed(s.threads[e.t], w);
  }

  lemma StaysOutOfReach(c: Config, s: State, e: Event, s': State, w: Ref)
    requires Step(c, s, e, s') && OutOfReach(s, w)
    ensures OutOfReach(s', w)
  {
    NobodyComesForward(c, s, e, s', w);
    assert ClaimsNow(s, e, w) ==> AboutToClaim(s, e.t, w);
    forall u | 0 <= u < |s'.threads| && Claimed(s'.threads[u], w)
      ensures ClaimsNow(s, e, w) || (u < |s.threads| && Claimed(s.threads[u], w))
    {
      hide *;
      ClaimantsComeFromClaims(c, s, e, s', u, w);
    }
    hide Step, Claimed, AboutToClaim, ClaimsNow;
  }

  lemma {:induction false} OutOfReachOverRuns(
    c: Config, states: seq<State>, events: seq<Event>, k: nat, m: nat, w: Ref)
    requires Run(c, states, events) && k <= m < |states| && OutOfReach(states[k], w)
    ensures OutOfReach(states[m], w)
    decreases m
  {
    hide Run, Step, OutOfReach;
    if k < m {
      OutOfReachOverRuns(c, states, events, k, m - 1, w);
      RunStep(c, states, events, m - 1);
      StaysOutOfReach(c, states[m - 1], events[m - 1], states[m], w);
    }
  }

  lemma MarkSends(c: Config, s: State, e: Event, s': State, w: Ref)
    requires Step(c, s, e, s') && s.threads[e.t].ResizeMark? && s.threads[e.t].w == w
    ensures s'.threads == s.threads[e.t := s'.threads[e.t]] && s'.threads[e.t].ResizeScan?
    ensures w < |s'.core.workers| && s'.core.workers[w] == s.core.workers[w].(state := Draining)
    ensures w in s'.threads[e.t].drains
  {
    assert PcOk(s.core, s.threads[e.t]);
    hide PcOk, CoreOk;
  }

  lemma MarkPutsOutOfReach(c: Config, s: State, e: Event, s': State, w: Ref)
    requires Step(c, s, e, s') && s.threads[e.t].ResizeMark? && s.threads[e.t].w == w
    requires !HeldByRequest(s, w) && !MayBeClaimed(s, w)
    ensures OutOfReach(s', w)
  {
    MarkSends(c, s, e, s', w);
    hide Step;
    forall u | 0 <= u < |s'.threads| && Claimed(s'.threads[u], w) ensures Claimed(s.threads[u], w) {
      hide HeldByRequest;
    }
    forall u: nat | AboutToClaim(s', u, w) ensures AboutToClaim(s, u, w) {
      hide MayBeClaimed;
    }
    hide Claimed, AboutToClaim;
  }

  /**
   A worker that no acquire was about to claim when SetDesired looked at it goes without harm: no request holds it
   when it is marked, and none ever holds it afterwards.
   */
  lemma SentAwayUnheld(c: Config, states: seq<State>, events: seq<Event>, j: nat, k: nat, t: nat, m: nat)
    requires Run(c, states, events) && c.http && LooksAndMarks(states, events, j, k, t) && k < m < |states|
    requires !MayBeClaimed(states[j + 1], states[j + 1].threads[t].w)
    ensures var w := states[j + 1].threads[t].w; !HeldByRequest(states[k], w) && !HeldByRequest(states[m], w)
  {
    UnheldAtTheMark(c, states, events, j, k, t);
    MarkerWaits(c, states, events, j, k, t, k);
    RunStep(c, states, events, k);
    hide Run, Step, AboutToClaim, HeldByRequest, MayBeClaimed;
    var w := LookedAt(states, events, j, k, t);
    MarkPutsOutOfReach(c, states[k], events[k], states[k + 1], w);
    OutOfReachOverRuns(c, states, events, k + 1, m, w);
  }

  // ----- the other direction -----

  /** (states', events') is a run that goes on from (states, events). */
  ghost predicate Extends(
    c: Config, states: seq<State>, events: seq<Event>, states': seq<State>, events': seq<Event>) {
    Run(c, states', events') && states <= states' && events <= events'
  }

  lemma RunExtends(c: Config, states: seq<State>, events: seq<Event>, e: Event, s: State)
    requires Run(c, states, events) && Step(c, states[|events|], e, s)
    ensures Extends(c, states, events, states + [s], events + [e])
  {
    hide Step, Init, GoodConfig;
    var more := [states[|events|], s];
    assert more[1..] == [s];
    RunContinues(c, states, events, more, [e]);
  }

  /** Thread t's mark of w comes at the end of (states, events), while a request holds w. */
  ghost predicate MarkedWhileHeld(states: seq<State>, events: seq<Event>, j: nat, t: nat, w: Ref) {
    exists k: nat :: LooksAndMarks(states, events, j, k, t) && HeldByRequest(states[k], w)
  }

  lemma InspectGoesOn(c: Config, s: State, u: nat, w: Ref) returns (s': State)
    requires Ok(s) && AboutToClaim(s, u, w) && s.threads[u].Inspect?
    ensures Step(c, s, Event(u, Go), s') && AboutToClaim(s', u, w) && s'.threads[u].Claim?
  {
    s' := Perform(s, u, Goto(Claim(w, s.threads[u].queued)));
    hide PcOk, CoreOk;
  }

  lemma ClaimGoesOn(c: Config, s: State, u: nat, w: Ref) returns (s': State)
    requires Ok(s) && AboutToClaim(s, u, w) && s.threads[u].Claim?
    ensures Step(c, s, Event(u, Go), s')
  {
    assert PcOk(s.core, s.threads[u]);
    s' := Perform(s, u, PlanRequest(c, s, s.threads[u], Go).value);
    hide PcOk, CoreOk;
  }

  lemma MarkGoesOn(c: Config, s: State, t: nat) returns (s': State)
    requires Ok(s) && t < |s.threads| && s.threads[t].ResizeMark?
    ensures Step(c, s, Event(t, Go), s')
  {
    assert PcOk(s.core, s.threads[t]);
    s' := Perform(s, t, PlanControl(c, s, s.threads[t]).value);
    hide PcOk, CoreOk;
  }

  lemma AboutToClaimMeans(s: State, u: nat, w: Ref)
    requires AboutToClaim(s, u, w)
    ensures u < |s.threads| && (s.threads[u].Claim? || s.threads[u].Inspect?) && s.threads[u].w == w
  {
  }

  /** Event j was thread t's look, and its mark is still to come. */
  ghost predicate Looked(states: seq<State>, events: seq<Event>, j: nat, t: nat) {
    && j < |events| && |states| == |events| + 1
    && events[j].t == t && t < |states[j].threads| && t < |states[j + 1].threads|
    && states[j].threads[t].ResizeScan? && states[j + 1].threads[t].ResizeMark?
    && forall m :: j < m < |events| ==> events[m].t != t
  }

  lemma {:induction false} LookerWaits(
    c: Config, states: seq<State>, events: seq<Event>, j: nat, t: nat, m: nat)
    requires Run(c, states, events) && Looked(states, events, j, t) && j < m < |states|
    ensures Ok(states[m]) && t < |states[m].threads| && states[m].threads[t] == states[j + 1].threads[t]
    decreases m
  {
    hide Run, Step, PcOk, CoreOk;
    if m > j + 1 {
      LookerWaits(c, states, events, j, t, m - 1);
      RunStep(c, states, events, m - 1);
      OtherThreadsStay(c, states[m - 1], events[m - 1], states[m], t);
    }
    RunIsOk(c, states, events, m);
  }

  lemma RunIsOk(c: Config, states: seq<State>, events: seq<Event>, m: nat)
    requires Run(c, states, events) && m < |states|
    ensures Ok(states[m])
  {
    hide Run;
    RunInv(c, states, events, m);
  }

  lemma MarkAfterClaim(c: Config, states: seq<State>, events: seq<Event>, j: nat, t: nat, u: nat)
    returns (states': seq<State>, events': seq<Event>)
    requires Run(c, states, events) && Looked(states, events, j, t)
    requires AboutToClaim(states[|events|], u, states[j + 1].threads[t].w) && states[|events|].threads[u].Claim?
    ensures Extends(c, states, events, states', events')
    ensures MarkedWhileHeld(states', events', j, t, states[j + 1].threads[t].w)
  {
    hide Run, Step, AboutToClaim, Claimed, PcOk, CoreOk;
    var w := states[j + 1].threads[t].w;
    var n := |events|;
    LookerWaits(c, states, events, j, t, n);
    AboutToClaimMeans(states[n], u, w);
    var s1 := ClaimGoesOn(c, states[n], u, w);
    RunExtends(c, states, events, Event(u, Go), s1);
    var states1, events1 := states + [s1], events + [Event(u, Go)];
    assert Looked(states1, events1, j, t);
    LookerWaits(c, states1, events1, j, t, n + 1);
    var s2 := MarkGoesOn(c, s1, t);
    RunExtends(c, states1, events1, Event(t, Go), s2);
    states', events' := states1 + [s2], events1 + [Event(t, Go)];
    assert LooksAndMarks(states', events', j, n + 1, t);
    ClaimTakes(c, states[n], Event(u, Go), s1, w);
    assert states'[n + 1] == s1;
  }

  lemma AClaimLeadsToTheMark(c: Config, states: seq<State>, events: seq<Event>, j: nat, t: nat, u: nat)
    returns (states': seq<State>, events': seq<Event>)
    requires Run(c, states, events) && Looked(states, events, j, t) && j + 1 == |events|
    requires AboutToClaim(states[j + 1], u, states[j + 1].threads[t].w)
    ensures Extends(c, states, events, states', events')
    ensures MarkedWhileHeld(states', events', j, t, states[j + 1].threads[t].w)
  {
    hide Run, Step, AboutToClaim, MarkedWhileHeld, PcOk, CoreOk;
    var w := states[j + 1].threads[t].w;
    AboutToClaimMeans(states[j + 1], u, w);
    if states[j + 1].threads[u].Claim? {
      states', events' := MarkAfterClaim(c, states, events, j, t, u);
    } else {
      RunIsOk(c, states, events, j + 1);
      var s := InspectGoesOn(c, states[j + 1], u, w);
      RunExtends(c, states, events, Event(u, Go), s);
      var states1, events1 := states + [s], events + [Event(u, Go)];
      assert Looked(states1, events1, j, t);
      states', events' := MarkAfterClaim(c, states1, events1, j, t, u);
    }
  }

  /**
   After a look that finds w open to being sent away, some continuation marks w in the hands of a request if and only
   if an acquire stands between its check (583-586) and its claim (591) of w at that moment.
   */
  lemma MarkedWhileHeldExactlyWhen(c: Config, states: seq<State>, events: seq<Event>, j: nat, t: nat)
    requires Run(c, states, events) && c.http && Looked(states, events, j, t) && j + 1 == |events|
    ensures var w := states[j + 1].threads[t].w;
            MayBeClaimed(states[j + 1], w) <==>
            exists states', events' ::
              Extends(c, states, events, states', events') && MarkedWhileHeld(states', events', j, t, w)
  {
    hide Run, Step, AboutToClaim, HeldByRequest, PcOk, CoreOk;
    var w := states[j + 1].threads[t].w;
    if MayBeClaimed(states[j + 1], w) {
      var u: nat :| AboutToClaim(states[j + 1], u, w);
      var states', events' := AClaimLeadsToTheMark(c, states, events, j, t, u);
    }
    forall states', events' | Extends(c, states, events, states', events') && MarkedWhileHeld(states', events', j, t, w)
      ensures MayBeClaimed(states[j + 1], w)
    {
      hide MayBeClaimed;
      var k: nat :| LooksAndMarks(states', events', j, k, t) && HeldByRequest(states'[k], w);
      assert states'[j + 1] == states[j + 1];
      if !MayBeClaimed(states[j + 1], w) {
        UnheldAtTheMark(c, states', events', j, k, t);
      }
    }
  }

  // ----- the worker that was spared -----

  lemma RetiredReleaseDrains(c: Config, s: State, e: Event, s': State)
    requires Step(c, s, e, s') && s.threads[e.t].Release? && PcOk(s.core, s.threads[e.t])
    requires SameGeneration(s.core, s.threads[e.t].w)
    requires InPool(s.core, s.threads[e.t].w) && OutOfService(s.core, s.core.workers[s.threads[e.t].w].slot)
    ensures var w := s.threads[e.t].w;
            && w < |s'.core.workers| && s'.core.workers[w].state == Draining && !s'.core.workers[w].conn.open
            && s.core.workers[w].slot <= |s'.core.slots| && s'.core.slots[s.core.workers[w].slot - 1].planned
    ensures e.t < |s'.threads| && s'.threads[e.t].Done?
  {
    hide WantsRecycle;
  }

  lemma CurrentPassesTheTest(c: Config, states: seq<State>, events: seq<Event>, k: nat, w: Ref)
    requires Run(c, states, events) && k < |states| && Ok(states[k]) && ValidRef(states[k].core, w)
    requires Current(states[k].core, w)
    ensures InPool(states[k].core, w) && SameGeneration(states[k].core, w)
  {
    RunInv(c, states, events, k);
    InstalledByGeneration(states[k], w);
  }

  /**
   A worker that SetDesired spared because a request held it drains when that request gives it back: its connection
   is closed, its exit is planned, and it is never queued or held again.
   */
  lemma SparedWorkersDrainAtRelease(c: Config, states: seq<State>, events: seq<Event>, k: nat, m: nat)
    requires Run(c, states, events) && k < |events| && k < m < |states| && events[k].t < |states[k].threads|
    requires states[k].threads[events[k].t].Release?
    requires Ok(states[k]) && ValidRef(states[k].core, states[k].threads[events[k].t].w)
    requires Current(states[k].core, states[k].threads[events[k].t].w)
    requires OutOfService(states[k].core, states[k].core.workers[states[k].threads[events[k].t].w].slot)
    ensures var w := states[k].threads[events[k].t].w;
            && w < |states[k + 1].core.workers| && states[k + 1].core.workers[w].state == Draining
            && !states[k + 1].core.workers[w].conn.open
            && states[k].core.workers[w].slot <= |states[k + 1].core.slots|
            && states[k + 1].core.slots[states[k].core.workers[w].slot - 1].planned
            && LetGo(states[m], w)
  {
    hide Run, Step, PcOk, CoreOk, SameGeneration, LetGo, OutOfService;
    var s, t := states[k], events[k].t;
    CurrentPassesTheTest(c, states, events, k, s.threads[t].w);
    RunStep(c, states, events, k);
    assert PcOk(s.core, s.threads[t]);
    RetiredReleaseDrains(c, s, events[k], states[k + 1]);
    ConsumedForever(c, states, events, k, m);
  }
}
