/**
 SetDesired and Shutdown can come through (internal/worker/pool.go:464-560, 824-893): everybody on SetDesired's list is
 taken out of the channel and terminated and every slot on its other list gets a boot; Shutdown empties the channel,
 marks what is left and terminates it.
 */
module PoolControl {
  import opened Basics
  import opened PoolModel
  import opened PoolMachine
  import opened PoolIdentity
  import opened PoolPurging
  import opened Continuations

  // ----- SetDesired after its section -----

  /** The pool after w has been purged and its connection closed. */
  function Sent(p: Core, w: Ref): Core
    requires ValidRef(p, w) && forall k :: 0 <= k < |p.idle| ==> ValidRef(p, p.idle[k])
  {
    p.(workers := p.workers[w := Closed(p.workers[w])], idle := Without(p, p.idle, w))
  }

  lemma Purges(c: Config, s: State, u: nat, drains: seq<Ref>, boots: seq<nat>) returns (s': State)
    requires Ok(s) && !s.locked && u < |s.threads| && s.threads[u] == ResizeNext(drains, boots) && drains != []
    requires |s.core.idle| <= c.idleCap
    ensures Leads(c, s, s') && Ok(s')
    ensures ValidRef(s.core, drains[0]) && forall k :: 0 <= k < |s.core.idle| ==> ValidRef(s.core, s.core.idle[k])
    ensures s' == s.(core := s.core.(idle := Without(s.core, s.core.idle, drains[0])),
                     threads := s.threads[u := ResizeNext(drains[1..], boots)] + [Terminate(drains[0])])
  {
    hide Leads, PcOk, CoreOk, Without;
    var s1 := Moves(c, s, u, Go, Goto(PurgeStart(drains[0], ResizeThen(drains, boots))));
    hide Step;
    s' := Purged(c, s1, u);
    assert s.threads[u := s1.threads[u]][u := ResizeNext(drains[1..], boots)]
           == s.threads[u := ResizeNext(drains[1..], boots)];
    FirstStep(c, s, Event(u, Go), s1, s');
  }

  lemma Terminates(c: Config, s: State, u: nat, w: Ref) returns (s': State)
    requires Ok(s) && u < |s.threads| && s.threads[u] == Terminate(w)
    ensures Step(c, s, Event(u, Go), s') && Ok(s') && ValidRef(s.core, w)
    ensures s' == s.(core := s.core.(workers := s.core.workers[w := Closed(s.core.workers[w])]),
                     threads := s.threads[u := Done])
  {
    assert PcOk(s.core, s.threads[u]);
    hide PcOk, CoreOk;
    s' := Moves(c, s, u, Go, Write1(PutWorker(w, Closed(s.core.workers[w])), Done));
  }

  lemma SendsOne(c: Config, s: State, u: nat, drains: seq<Ref>, boots: seq<nat>) returns (s': State)
    requires Ok(s) && !s.locked && u < |s.threads| && s.threads[u] == ResizeNext(drains, boots) && drains != []
    requires |s.core.idle| <= c.idleCap
    ensures Leads(c, s, s') && Ok(s')
    ensures ValidRef(s.core, drains[0]) && forall k :: 0 <= k < |s.core.idle| ==> ValidRef(s.core, s.core.idle[k])
    ensures s' == s.(core := Sent(s.core, drains[0]),
                     threads := s.threads[u := ResizeNext(drains[1..], boots)] + [Done])
  {
    hide Leads, Step, PcOk, CoreOk, Without;
    var s1 := Purges(c, s, u, drains, boots);
    s' := Terminates(c, s1, |s.threads|, drains[0]);
    assert s'.threads == s.threads[u := ResizeNext(drains[1..], boots)] + [Done];
    OneStep(c, s1, Event(|s.threads|, Go), s');
    LeadsOn(c, s, s1, s');
  }

  /** q is p after the workers of `sent` have gone: closed and out of the channel; the others are as they were. */
  ghost predicate AllSent(p: Core, q: Core, sent: seq<Ref>) {
    && q == p.(workers := q.workers, idle := q.idle) && |q.workers| == |p.workers|
    && (forall r :: 0 <= r < |p.workers| ==>
          q.workers[r] == if r in sent then Closed(p.workers[r]) else p.workers[r])
    && (forall r :: r in q.idle <==> r in p.idle && r !in sent)
    && |q.idle| <= |p.idle|
  }

  lemma SameMeansEqual(p: Core, w: Ref)
    requires CoreOk(p) && WorkersDistinct(p) && ValidRef(p, w)
    ensures forall r :: 0 <= r < |p.workers| ==> (SameWorker(p, r, w) <==> r == w)
  {
    hide BelowCounter, CoreOk;
  }

  lemma LeftInChannel(p: Core, w: Ref)
    requires CoreOk(p) && WorkersDistinct(p) && ValidRef(p, w)
    requires forall k :: 0 <= k < |p.idle| ==> ValidRef(p, p.idle[k])
    ensures var rest := Without(p, p.idle, w);
            |rest| <= |p.idle| && forall r :: r in rest <==> r in p.idle && r != w
  {
    SameMeansEqual(p, w);
    hide CoreOk, WorkersDistinct, SameWorker, Without;
    PurgeRemovesOnlyItsTarget(p, p.idle, w);
    var rest := Without(p, p.idle, w);
    forall r ensures r in rest <==> r in p.idle && r != w {
      assert r in rest <==> multiset(rest)[r] > 0;
      assert r in p.idle <==> multiset(p.idle)[r] > 0;
    }
  }

  lemma StillDistinct(p: Core, q: Core, w: Ref)
    requires CoreOk(p) && WorkersDistinct(p) && ValidRef(p, w) && CoreOk(q)
    requires q == p.(workers := p.workers[w := Closed(p.workers[w])], idle := q.idle)
    ensures WorkersDistinct(q)
  {
    hide CoreOk;
    assert forall r :: 0 <= r < |p.workers| ==> BelowCounter(q, r) == BelowCounter(p, r);
  }

  lemma SentOne(p: Core, w: Ref)
    requires CoreOk(p) && WorkersDistinct(p) && ValidRef(p, w)
    requires forall k :: 0 <= k < |p.idle| ==> ValidRef(p, p.idle[k])
    ensures CoreOk(Sent(p, w)) ==> WorkersDistinct(Sent(p, w))
    ensures AllSent(p, Sent(p, w), [w])
  {
    hide CoreOk, WorkersDistinct, Without;
    LeftInChannel(p, w);
    if CoreOk(Sent(p, w)) {
      StillDistinct(p, Sent(p, w), w);
    }
  }

  lemma SentMore(p: Core, q: Core, q': Core, drains: seq<Ref>)
    requires drains != [] && AllSent(p, q, [drains[0]]) && AllSent(q, q', drains[1..])
    ensures AllSent(p, q', drains)
  {
    assert drains == [drains[0]] + drains[1..];
    assert forall r :: r in drains <==> r == drains[0] || r in drains[1..];
  }

  function Boots(boots: seq<nat>): (pcs: seq<Pc>)
    ensures |pcs| == |boots|
  {
    seq(|boots|, k requires 0 <= k < |boots| => BootStart(boots[k], false, false))
  }

  function Finished(n: nat): seq<Pc> { seq(n, _ => Done) }

  /** Every slot of the list gets a boot, which is not in the wait group. */
  lemma {:induction false} StartsBoots(c: Config, s: State, u: nat, boots: seq<nat>) returns (s': State)
    requires Ok(s) && u < |s.threads| && s.threads[u] == ResizeNext([], boots)
    ensures Leads(c, s, s') && Ok(s')
    ensures s' == s.(threads := s.threads[u := Done] + Boots(boots))
    decreases |boots|
  {
    hide Leads, PcOk, CoreOk;
    if boots == [] {
      s' := Moves(c, s, u, Go, Goto(Done));
      assert s'.threads == s.threads[u := Done] + Boots(boots);
      hide Step;
      OneStep(c, s, Event(u, Go), s');
    } else {
      var s1 := Moves(c, s, u, Go,
                      Effect(Keep, ResizeNext([], boots[1..]), [BootStart(boots[0], false, false)], NoSide));
      hide Step;
      s' := StartsBoots(c, s1, u, boots[1..]);
      assert Boots(boots) == [BootStart(boots[0], false, false)] + Boots(boots[1..]);
      assert s'.threads == s.threads[u := Done] + Boots(boots);
      FirstStep(c, s, Event(u, Go), s1, s');
    }
  }

  /** SetDesired sends away whom it has listed and boots what it has listed. */
  lemma {:induction false} ARescaleComesThrough(c: Config, s: State, u: nat, drains: seq<Ref>, boots: seq<nat>)
    returns (s': State)
    requires Ok(s) && WorkersDistinct(s.core) && !s.locked && |s.core.idle| <= c.idleCap
    requires u < |s.threads| && s.threads[u] == ResizeNext(drains, boots)
    ensures Leads(c, s, s') && Ok(s') && AllSent(s.core, s'.core, drains)
    ensures s' == s.(core := s'.core, threads := s.threads[u := Done] + Finished(|drains|) + Boots(boots))
    decreases |drains|
  {
    hide Leads, Step, PcOk, CoreOk, Without, WorkersDistinct;
    if drains == [] {
      s' := StartsBoots(c, s, u, boots);
      assert s'.threads == s.threads[u := Done] + Finished(0) + Boots(boots);
    } else {
      var s1 := SendsOne(c, s, u, drains, boots);
      SentOne(s.core, drains[0]);
      hide Sent, AllSent;
      s' := ARescaleComesThrough(c, s1, u, drains[1..], boots);
      SentMore(s.core, s1.core, s'.core, drains);
      assert Finished(|drains|) == [Done] + Finished(|drains| - 1);
      assert s'.threads == s.threads[u := Done] + Finished(|drains|) + Boots(boots);
      LeadsOn(c, s, s1, s');
    }
  }

  // ----- Shutdown up to its wait -----

  /** The pool after Shutdown has emptied the channel: everybody who was in it is stopped and cut off. */
  ghost predicate ChannelStopped(p: Core, q: Core) {
    && q == p.(workers := q.workers, idle := []) && |q.workers| == |p.workers|
    && forall r :: 0 <= r < |p.workers| ==>
         q.workers[r] == if r in p.idle then Closed(p.workers[r].(state := Stopped)) else p.workers[r]
  }

  lemma TakesOne(c: Config, s: State, t: nat) returns (s': State)
    requires Ok(s) && t < |s.threads| && s.threads[t] == StopDrain && s.core.idle != []
    ensures Step(c, s, Event(t, Go), s') && Ok(s')
    ensures s' == s.(core := s.core.(idle := s.core.idle[1..]), threads := s.threads[t := StopWorker(s.core.idle[0])])
  {
    hide PcOk, CoreOk;
    s' := Moves(c, s, t, Go, Write1(TakeIdle, StopWorker(s.core.idle[0])));
  }

  lemma CutsOff(c: Config, s: State, t: nat, w: Ref) returns (s': State)
    requires Ok(s) && t < |s.threads| && s.threads[t] == StopWorker(w)
    ensures Step(c, s, Event(t, Go), s') && Ok(s') && ValidRef(s.core, w)
    ensures var p := s.core;
            s' == s.(core := p.(workers := p.workers[w := Closed(p.workers[w].(state := Stopped))]),
                     threads := s.threads[t := StopDrain])
  {
    assert PcOk(s.core, s.threads[t]);
    hide PcOk, CoreOk;
    s' := Moves(c, s, t, Go, Write1(PutWorker(w, Closed(s.core.workers[w].(state := Stopped))), StopDrain));
  }

  lemma StopsOne(c: Config, s: State, t: nat) returns (s': State)
    requires Ok(s) && t < |s.threads| && s.threads[t] == StopDrain && s.core.idle != []
    ensures Leads(c, s, s') && Ok(s') && ValidRef(s.core, s.core.idle[0])
    ensures var p, w := s.core, s.core.idle[0];
            s' == s.(core := p.(workers := p.workers[w := Closed(p.workers[w].(state := Stopped))],
                                idle := p.idle[1..]))
  {
    hide Leads, Step, PcOk, CoreOk;
    var s1 := TakesOne(c, s, t);
    s' := CutsOff(c, s1, t, s.core.idle[0]);
    assert s'.threads == s.threads;
    OneStep(c, s1, Event(t, Go), s');
    FirstStep(c, s, Event(t, Go), s1, s');
  }

  lemma StoppedMore(p: Core, q: Core, q': Core, w: Ref)
    requires p.idle != [] && w == p.idle[0] && ValidRef(p, w) && ChannelStopped(q, q')
    requires q == p.(workers := p.workers[w := Closed(p.workers[w].(state := Stopped))], idle := p.idle[1..])
    ensures ChannelStopped(p, q')
  {
    assert p.idle == [w] + p.idle[1..];
    assert forall r :: r in p.idle <==> r == w || r in p.idle[1..];
  }

  lemma {:induction false} EmptiesChannel(c: Config, s: State, t: nat) returns (s': State)
    requires Ok(s) && t < |s.threads| && s.threads[t] == StopDrain
    ensures Leads(c, s, s') && Ok(s') && ChannelStopped(s.core, s'.core)
    ensures s' == s.(core := s'.core, threads := s.threads[t := StopMark])
    decreases |s.core.idle|
  {
    hide Leads, PcOk, CoreOk;
    if s.core.idle == [] {
      s' := Moves(c, s, t, Go, Goto(StopMark));
      hide Step;
      OneStep(c, s, Event(t, Go), s');
    } else {
      var s1 := StopsOne(c, s, t);
      hide Step, ChannelStopped;
      s' := EmptiesChannel(c, s1, t);
      StoppedMore(s.core, s1.core, s'.core, s.core.idle[0]);
      LeadsOn(c, s, s1, s');
    }
  }

  lemma StopsAccepting(c: Config, s: State, t: nat) returns (s': State)
    requires Ok(s) && !s.locked && t < |s.threads| && s.threads[t] == StopStart
    ensures Step(c, s, Event(t, Go), s') && Ok(s')
    ensures s' == s.(core := s.core.(stopping := true), threads := s.threads[t := StopCancel])
  {
    hide PcOk, CoreOk;
    s' := Moves(c, s, t, Go, Write1(Replace(s.core.(stopping := true)), StopCancel));
  }

  lemma EndsContext(c: Config, s: State, t: nat) returns (s': State)
    requires Ok(s) && t < |s.threads| && s.threads[t] == StopCancel
    ensures Step(c, s, Event(t, Go), s') && Ok(s')
    ensures s' == s.(cancelled := true, threads := s.threads[t := StopDrain])
  {
    hide PcOk, CoreOk;
    s' := Moves(c, s, t, Go, Effect(Keep, StopDrain, [], CancelCtx));
  }

  function Terminations(slots: seq<Slot>): (pcs: seq<Pc>) {
    var doomed := Remaining(slots);
    seq(|doomed|, k requires 0 <= k < |doomed| => Terminate(doomed[k]))
  }

  lemma MarksTheRest(c: Config, s: State, t: nat) returns (s': State)
    requires Ok(s) && !s.locked && t < |s.threads| && s.threads[t] == StopMark
    ensures Step(c, s, Event(t, Go), s') && Ok(s')
    ensures s' == s.(core := MarkAll(s.core), threads := s.threads[t := StopWait] + Terminations(s.core.slots))
  {
    hide PcOk, CoreOk, MarkAll, Remaining;
    var doomed := Remaining(s.core.slots);
    s' := Moves(c, s, t, Go, Effect(Replace(MarkAll(s.core)), StopWait,
                                    seq(|doomed|, k requires 0 <= k < |doomed| => Terminate(doomed[k])), NoSide));
  }

  /** What Shutdown has done to worker r when it comes to its wait. */
  function Doomed(p: Core, r: Ref): Worker
    requires CoreOk(p) && ValidRef(p, r)
  {
    var wk := p.workers[r];
    if r in p.idle then Closed(wk.(state := Stopped))
    else if p.slots[wk.slot - 1].worker == Some(r) && wk.state != Dead && wk.state != Stopped
    then wk.(state := Draining)
    else wk
  }

  lemma MarkedAfterStop(p: Core, q: Core, r: Ref)
    requires CoreOk(p) && CoreOk(q) && ChannelStopped(p, q) && ValidRef(p, r)
    ensures ValidRef(q, r) && MarkAll(q).workers[r] == Doomed(p, r)
  {
  }

  /**
   Shutdown can come to its wait: the pool is stopping and its context ended, the channel is empty and those who were in
   it are stopped and cut off, everybody else who is installed drains, every occupied slot expects the exit, and each
   installed worker is being terminated.
   */
  lemma ShutdownComesToItsWait(c: Config, s: State, t: nat) returns (s': State)
    requires Ok(s) && !s.locked && t < |s.threads| && s.threads[t] == StopStart
    ensures Leads(c, s, s') && Ok(s')
    ensures s' == s.(core := s'.core, cancelled := true,
                     threads := s.threads[t := StopWait] + Terminations(s.core.slots))
    ensures s'.core == s.core.(slots := s'.core.slots, workers := s'.core.workers, idle := [], stopping := true)
    ensures |s'.core.slots| == |s.core.slots| && |s'.core.workers| == |s.core.workers|
    ensures forall i :: 0 <= i < |s.core.slots| ==>
              s'.core.slots[i] == s.core.slots[i].(planned := s.core.slots[i].planned || s.core.slots[i].worker.Some?)
    ensures forall r :: 0 <= r < |s.core.workers| ==> s'.core.workers[r] == Doomed(s.core, r)
  {
    hide Leads, Step, PcOk, CoreOk, Remaining;
    var s0 := StopsAccepting(c, s, t);
    var s1 := EndsContext(c, s0, t);
    var s2 := EmptiesChannel(c, s1, t);
    s' := MarksTheRest(c, s2, t);
    assert s'.threads == s.threads[t := StopWait] + Terminations(s.core.slots);
    forall r | 0 <= r < |s.core.workers| ensures s'.core.workers[r] == Doomed(s.core, r) {
      MarkedAfterStop(s1.core, s2.core, r);
    }
    OneStep(c, s2, Event(t, Go), s');
    LeadsOn(c, s1, s2, s');
    FirstStep(c, s0, Event(t, Go), s1, s');
    FirstStep(c, s, Event(t, Go), s0, s');
  }
}
