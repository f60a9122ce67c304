/** What can still happen: the states that some further steps lead to. */
module Continuations {
  import opened Basics
  import opened PoolModel
  import opened PoolMachine
  import opened PoolWellFormed
  import opened PoolPurging
  import opened PoolRuns

  function PlanOf(c: Config, s: State, e: Event): (f: Option<Effect>)
    requires Ok(s) && e.t < |s.threads|
    ensures Fine(s, f) && PcOk(s.core, s.threads[e.t])
  {
    Plan(c, s, s.threads[e.t], e.choice)
  }

  /** The step of thread u to the plan it has. */
  lemma Moves(c: Config, s: State, u: nat, ch: Choice, f: Effect) returns (s': State)
    requires Ok(s) && u < |s.threads| && PlanOf(c, s, Event(u, ch)) == Some(f)
    ensures s' == Perform(s, u, f) && Step(c, s, Event(u, ch), s') && Ok(s')
  {
    hide Plan, PcOk, CoreOk;
    s' := Perform(s, u, f);
    StepKeepsOk(c, s, Event(u, ch), s');
  }

  ghost predicate Path(c: Config, states: seq<State>, events: seq<Event>) {
    && |states| == |events| + 1
    && forall k :: 0 <= k < |events| ==> Step(c, states[k], events[k], states[k + 1])
  }

  ghost predicate Leads(c: Config, s: State, s': State) {
    exists states, events :: Path(c, states, events) && states[0] == s && states[|events|] == s'
  }

  lemma NoStep(c: Config, s: State)
    ensures Leads(c, s, s)
  {
    var none: seq<Event> := [];
    assert Path(c, [s], none) && [s][|none|] == s;
  }

  lemma FirstStep(c: Config, s: State, e: Event, s1: State, s': State)
    requires Step(c, s, e, s1) && Leads(c, s1, s')
    ensures Leads(c, s, s')
  {
    hide Step;
    var states, events :| Path(c, states, events) && states[0] == s1 && states[|events|] == s';
    var states', events' := [s] + states, [e] + events;
    forall k | 0 <= k < |events'| ensures Step(c, states'[k], events'[k], states'[k + 1]) {
      if k > 0 {
        assert Step(c, states[k - 1], events[k - 1], states[k]);
      }
    }
    assert Path(c, states', events') && states'[0] == s && states'[|events'|] == s';
  }

  lemma LeadsOn(c: Config, s: State, s1: State, s2: State)
    requires Leads(c, s, s1) && Leads(c, s1, s2)
    ensures Leads(c, s, s2)
  {
    hide Step;
    var states, events :| Path(c, states, events) && states[0] == s && states[|events|] == s1;
    var more, further :| Path(c, more, further) && more[0] == s1 && more[|further|] == s2;
    var states', events' := states + more[1..], events + further;
    forall k | 0 <= k < |events'| ensures Step(c, states'[k], events'[k], states'[k + 1]) {
      if k < |events| {
        assert Step(c, states[k], events[k], states[k + 1]);
      } else {
        assert Step(c, more[k - |events|], further[k - |events|], more[k - |events| + 1]);
      }
    }
    assert Path(c, states', events') && states'[0] == s && states'[|events'|] == s2;
  }

  /** A run goes on with the steps of (more, further), which start where it ends. */
  lemma RunContinues(c: Config, states: seq<State>, events: seq<Event>, more: seq<State>, further: seq<Event>)
    requires Run(c, states, events) && |more| == |further| + 1 && more[0] == states[|events|]
    requires forall k :: 0 <= k < |further| ==> Step(c, more[k], further[k], more[k + 1])
    ensures Run(c, states + more[1..], events + further)
  {
    hide Step, Init, GoodConfig;
    var states', events' := states + more[1..], events + further;
    forall k | 0 <= k < |events'| ensures Step(c, states'[k], events'[k], states'[k + 1]) {
      if k < |events| {
        assert Step(c, states[k], events[k], states[k + 1]);
      } else {
        assert Step(c, more[k - |events|], further[k - |events|], more[k - |events| + 1]);
      }
    }
  }

  lemma PathExtendsRun(c: Config, states: seq<State>, events: seq<Event>, s': State)
    returns (states': seq<State>, events': seq<Event>)
    requires Run(c, states, events) && Leads(c, states[|events|], s')
    ensures Run(c, states', events') && states <= states' && events <= events' && states'[|events'|] == s'
  {
    hide Step, Init, GoodConfig;
    var more, further :| Path(c, more, further) && more[0] == states[|events|] && more[|further|] == s';
    states', events' := states + more[1..], events + further;
    RunContinues(c, states, events, more, further);
  }

  lemma OneStep(c: Config, s: State, e: Event, s': State)
    requires Step(c, s, e, s')
    ensures Leads(c, s, s')
  {
    hide Step, Leads;
    NoStep(c, s');
    FirstStep(c, s, e, s', s');
  }

  lemma {:induction false} InvOverPaths(c: Config, states: seq<State>, events: seq<Event>, m: nat)
    requires Path(c, states, events) && m < |states| && Inv(c, states[0])
    ensures Inv(c, states[m])
  {
    hide Step, Inv;
    if m > 0 {
      InvOverPaths(c, states, events, m - 1);
      StepKeepsInv(c, states[m - 1], events[m - 1], states[m]);
    }
  }

  lemma InvStays(c: Config, s: State, s': State)
    requires Inv(c, s) && Leads(c, s, s')
    ensures Inv(c, s')
  {
    hide Inv, Step;
    var states, events :| Path(c, states, events) && states[0] == s && states[|events|] == s';
    InvOverPaths(c, states, events, |events|);
  }

  // ----- the outside world is there in every state -----

  lemma {:induction false} OutsideStaysOutside(c: Config, states: seq<State>, events: seq<Event>, k: nat)
    requires Run(c, states, events) && k < |states|
    ensures |states[k].threads| > 0 && states[k].threads[0].Outside?
  {
    hide Run, Step, Init;
    RunUnfolds(c, states, events, if k == 0 then 0 else k - 1);
    if k == 0 {
      OutsideAtFirst(c, states[0]);
    } else {
      OutsideStaysOutside(c, states, events, k - 1);
      OutsideStep(c, states[k - 1], events[k - 1], states[k]);
    }
  }

  lemma OutsideAtFirst(c: Config, s: State)
    requires Init(c, s)
    ensures |s.threads| > 0 && s.threads[0].Outside?
  {
  }

  lemma OutsideStep(c: Config, s: State, e: Event, s': State)
    requires Step(c, s, e, s') && |s.threads| > 0 && s.threads[0].Outside?
    ensures |s'.threads| > 0 && s'.threads[0].Outside?
  {
    hide PcOk, CoreOk;
  }

  // ----- a purge runs through -----

  lemma PurgePutsBack(c: Config, s: State, u: nat) returns (s': State)
    requires Ok(s) && u < |s.threads| && s.threads[u].PurgeLoop? && s.threads[u].left > 0 && s.core.idle != []
    requires ValidRef(s.core, s.core.idle[0]) && ValidRef(s.core, s.threads[u].target)
    requires !SameWorker(s.core, s.core.idle[0], s.threads[u].target)
    ensures Leads(c, s, s') && Ok(s')
    ensures var pc := s.threads[u];
            && s'.threads == s.threads[u := PurgeLoop(pc.target, pc.left - 1, pc.next)]
            && s' == s.(core := s.core.(idle := s'.core.idle), threads := s'.threads)
    ensures |s.core.idle| <= c.idleCap ==> s'.core.idle == s.core.idle[1..] + [s.core.idle[0]]
  {
    hide Leads, PcOk, CoreOk, SameWorker;
    var pc, p := s.threads[u], s.core;
    var after := PurgeLoop(pc.target, pc.left - 1, pc.next);
    var s1 := Moves(c, s, u, Go, Write1(TakeIdle, PurgeHand(pc.target, p.idle[0], pc.left, pc.next)));
    s' := Moves(c, s1, u, Go, Write1(Push(c, s1.core, p.idle[0]), after));
    assert s'.threads == s.threads[u := after];
    hide Step;
    OneStep(c, s1, Event(u, Go), s');
    FirstStep(c, s, Event(u, Go), s1, s');
  }

  /** One turn of the purge: the oldest worker of the channel goes out, or in again at the other end. */
  lemma PurgeTurns(c: Config, s: State, u: nat) returns (s': State)
    requires Ok(s) && u < |s.threads| && s.threads[u].PurgeLoop? && s.threads[u].left > 0 && s.core.idle != []
    ensures Leads(c, s, s') && Ok(s')
    ensures var pc := s.threads[u];
            && s'.threads == s.threads[u := PurgeLoop(pc.target, pc.left - 1, pc.next)]
            && s' == s.(core := s.core.(idle := s'.core.idle), threads := s'.threads)
    ensures ValidRef(s.core, s.core.idle[0]) && ValidRef(s.core, s.threads[u].target)
    ensures |s.core.idle| <= c.idleCap ==>
              s'.core.idle == s.core.idle[1..] + (if SameWorker(s.core, s.core.idle[0], s.threads[u].target) then []
                                                  else [s.core.idle[0]])
  {
    var pc, p := s.threads[u], s.core;
    assert PcOk(p, pc);
    if SameWorker(p, p.idle[0], pc.target) {
      hide Leads, PcOk, CoreOk, SameWorker;
      s' := Moves(c, s, u, Go, Write1(TakeIdle, PurgeLoop(pc.target, pc.left - 1, pc.next)));
      hide Step;
      OneStep(c, s, Event(u, Go), s');
    } else {
      hide *;
      s' := PurgePutsBack(c, s, u);
    }
  }

  /** A purge goes through the channel and lets go of p.mu; nothing but the channel changes. */
  lemma {:induction false} PurgeEnds(c: Config, s: State, u: nat) returns (s': State)
    requires Ok(s) && u < |s.threads| && s.threads[u].PurgeLoop?
    ensures Leads(c, s, s') && Ok(s')
    ensures s'.threads == s.threads[u := Resume(s.threads[u].next)] + ResumeSpawns(s.threads[u].next)
    ensures s' == s.(core := s.core.(idle := s'.core.idle), threads := s'.threads, locked := false)
    ensures s.threads[u].left == 0 ==> s'.core.idle == s.core.idle
    decreases s.threads[u].left
  {
    hide Leads, PcOk, CoreOk;
    var pc := s.threads[u];
    if pc.left == 0 || s.core.idle == [] {
      s' := Moves(c, s, u, Go, Effect(Keep, Resume(pc.next), ResumeSpawns(pc.next), UnlockMu));
      hide Step;
      OneStep(c, s, Event(u, Go), s');
    } else {
      var s1 := PurgeTurns(c, s, u);
      s' := PurgeEnds(c, s1, u);
      assert s.threads[u := s1.threads[u]][u := Resume(pc.next)] == s.threads[u := Resume(pc.next)];
      LeadsOn(c, s, s1, s');
    }
  }

  /** Of what was in the channel when the purge began, `done` workers have gone round. */
  ghost predicate GoneRound(p: Core, before: seq<Ref>, done: nat, target: Ref) {
    && done <= |before| && ValidRef(p, target)
    && (forall k :: 0 <= k < |before| ==> ValidRef(p, before[k]))
    && p.idle == before[done..] + Without(p, before[..done], target)
  }

  lemma OneMoreRound(p: Core, q: Core, before: seq<Ref>, done: nat, target: Ref)
    requires GoneRound(p, before, done, target) && done < |before| && p.idle != [] && ValidRef(p, p.idle[0])
    requires q == p.(idle := p.idle[1..] + (if SameWorker(p, p.idle[0], target) then [] else [p.idle[0]]))
    ensures GoneRound(q, before, done + 1, target)
  {
    hide SameWorker, Without;
    WithoutSnoc(p, before, done, target);
    Turn(before, done, Without(p, before[..done], target));
    SameList(p, q, before[..done + 1], target);
  }

  lemma {:induction false} SameList(p: Core, q: Core, s: seq<Ref>, w: Ref)
    requires q.workers == p.workers && ValidRef(p, w) && forall k :: 0 <= k < |s| ==> ValidRef(p, s[k])
    ensures ValidRef(q, w) && forall k :: 0 <= k < |s| ==> ValidRef(q, s[k])
    ensures Without(q, s, w) == Without(p, s, w)
  {
    if s != [] {
      SameList(p, q, s[..|s| - 1], w);
    }
  }

  lemma {:induction false} PurgeLeavesTheOthers(c: Config, s: State, u: nat, before: seq<Ref>, done: nat)
    returns (s': State)
    requires Ok(s) && u < |s.threads| && s.threads[u].PurgeLoop? && |before| <= c.idleCap
    requires GoneRound(s.core, before, done, s.threads[u].target) && s.threads[u].left == |before| - done
    ensures Leads(c, s, s') && Ok(s')
    ensures s'.threads == s.threads[u := Resume(s.threads[u].next)] + ResumeSpawns(s.threads[u].next)
    ensures s' == s.(core := s.core.(idle := Without(s.core, before, s.threads[u].target)), threads := s'.threads,
                     locked := false)
    decreases s.threads[u].left
  {
    hide Leads, PcOk, CoreOk, Without, SameWorker;
    var pc := s.threads[u];
    if pc.left == 0 {
      assert before[..done] == before && before[done..] == [];
      s' := PurgeEnds(c, s, u);
    } else {
      var s1 := PurgeTurns(c, s, u);
      OneMoreRound(s.core, s1.core, before, done, pc.target);
      SameList(s.core, s1.core, before, pc.target);
      hide GoneRound;
      s' := PurgeLeavesTheOthers(c, s1, u, before, done + 1);
      assert s.threads[u := s1.threads[u]][u := Resume(pc.next)] == s.threads[u := Resume(pc.next)];
      LeadsOn(c, s, s1, s');
    }
  }

  /** A purge can run through; if the channel was not overfull, it leaves everybody but the target, in order. */
  lemma Purged(c: Config, s: State, u: nat) returns (s': State)
    requires Ok(s) && !s.locked && u < |s.threads| && s.threads[u].PurgeStart?
    ensures Leads(c, s, s') && Ok(s')
    ensures s'.threads == s.threads[u := Resume(s.threads[u].next)] + ResumeSpawns(s.threads[u].next)
    ensures s' == s.(core := s.core.(idle := s'.core.idle), threads := s'.threads)
    ensures ValidRef(s.core, s.threads[u].target)
    ensures forall k :: 0 <= k < |s.core.idle| ==> ValidRef(s.core, s.core.idle[k])
    ensures |s.core.idle| <= c.idleCap ==> s'.core.idle == Without(s.core, s.core.idle, s.threads[u].target)
  {
    var pc := s.threads[u];
    assert PcOk(s.core, pc);
    hide Leads, PcOk, CoreOk, Without;
    var after := PurgeLoop(pc.target, |s.core.idle|, pc.next);
    var s1 := Moves(c, s, u, Go, Effect(Keep, after, [], LockMu));
    hide Step;
    if |s.core.idle| <= c.idleCap {
      BeforeTheRound(s.core, pc.target);
      s' := PurgeLeavesTheOthers(c, s1, u, s.core.idle, 0);
    } else {
      s' := PurgeEnds(c, s1, u);
    }
    assert s.threads[u := after][u := Resume(pc.next)] == s.threads[u := Resume(pc.next)];
    FirstStep(c, s, Event(u, Go), s1, s');
  }

  lemma BeforeTheRound(p: Core, target: Ref)
    requires ValidRef(p, target) && forall k :: 0 <= k < |p.idle| ==> ValidRef(p, p.idle[k])
    ensures GoneRound(p, p.idle, 0, target)
  {
  }
}
