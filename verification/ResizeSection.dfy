/**
 The section of SetDesired (internal/worker/pool.go:491-536), slot by slot. When nobody else steps in between, its
 looks and marks add up to the rescale that PoolModel describes as one write.
 */
module ResizeSection {
  import opened Basics
  import opened PoolModel
  import opened PoolMachine
  import opened PoolSizing
  import opened PoolTheorems

  /** The pool p rescaled to n, with the workers of the first i slots looked at. */
  function Partly(c: Config, p: Core, n: int, i: nat): (q: Core)
    requires CoreOk(p)
  {
    p.(slots := seq(|Grown(p.slots, n)|, x requires 0 <= x < |Grown(p.slots, n)| => PartlySlot(c, p, n, i, x)),
       workers := seq(|p.workers|, r requires 0 <= r < |p.workers| => PartlyWorker(c, p, n, i, r)),
       desired := n)
  }

  function PartlySlot(c: Config, p: Core, n: int, i: nat, x: nat): Slot
    requires CoreOk(p) && x < |Grown(p.slots, n)|
  {
    if x < i then ResizedSlot(c, p, n, x) else Grown(p.slots, n)[x].(retired := x + 1 > n)
  }

  function PartlyWorker(c: Config, p: Core, n: int, i: nat, r: Ref): Worker
    requires CoreOk(p) && r < |p.workers|
  {
    if p.workers[r].slot - 1 < i then DrainedWorker(c, p, n, r) else p.workers[r]
  }

  /** What the section knows when it has done the first i slots. */
  ghost predicate Progress(c: Config, p: Core, n: int, q: Core, pc: Pc)
    requires CoreOk(p)
  {
    && Scanning(pc) && pc.n == n && pc.i <= |Grown(p.slots, n)|
    && q == Partly(c, p, n, pc.i)
    && pc.drains == DrainList(c, p, n, Min(pc.i, |p.slots|))
    && pc.boots == BootList(c, ResizedSlots(c, p, n), n, pc.i)
    && (pc.ResizeMark? ==> pc.i < |p.slots| && Drained(c, p, n, pc.i) && p.slots[pc.i].worker == Some(pc.w))
  }

  lemma NothingHappensAt(c: Config, p: Core, n: int, i: nat)
    requires CoreOk(p) && i < |Grown(p.slots, n)| && (i < |p.slots| ==> !Drained(c, p, n, i))
    ensures Partly(c, p, n, i + 1) == Partly(c, p, n, i)
    ensures DrainList(c, p, n, Min(i + 1, |p.slots|)) == DrainList(c, p, n, Min(i, |p.slots|))
  {
    var q, q' := Partly(c, p, n, i), Partly(c, p, n, i + 1);
    assert forall r :: 0 <= r < |p.workers| ==> q'.workers[r] == q.workers[r];
    assert forall x :: 0 <= x < |q.slots| ==> q'.slots[x] == q.slots[x];
    assert q'.slots == q.slots && q'.workers == q.workers;
  }

  lemma MarkedAt(c: Config, p: Core, n: int, i: nat, w: Ref)
    requires CoreOk(p) && i < |p.slots| && Drained(c, p, n, i) && p.slots[i].worker == Some(w)
    ensures w < |p.workers| && p.workers[w].slot == i + 1 && Partly(c, p, n, i).workers[w] == p.workers[w]
    ensures var q := Partly(c, p, n, i);
            Partly(c, p, n, i + 1) ==
            q.(workers := q.workers[w := p.workers[w].(state := Draining)],
               slots := q.slots[i := q.slots[i].(planned := true)])
    ensures DrainList(c, p, n, i + 1) == DrainList(c, p, n, i) + [w]
    ensures |ResizedSlots(c, p, n)| > i && i < |Grown(p.slots, n)|
    ensures BootList(c, ResizedSlots(c, p, n), n, i + 1) == BootList(c, ResizedSlots(c, p, n), n, i)
  {
    assert Installable(p, i + 1, p.slots[i].worker);
    var q, q' := Partly(c, p, n, i), Partly(c, p, n, i + 1);
    assert q'.workers == q.workers[w := p.workers[w].(state := Draining)];
    assert q'.slots == q.slots[i := q.slots[i].(planned := true)];
  }

  lemma RescaledIsPartly(c: Config, p: Core, n: int)
    requires CoreOk(p)
    ensures Rescaled(p, n) == Partly(c, p, n, 0)
  {
    assert Rescaled(p, n).slots == Partly(c, p, n, 0).slots;
    assert p.workers == Partly(c, p, n, 0).workers;
  }

  lemma AllDone(c: Config, p: Core, wanted: int, i: nat)
    requires CoreOk(p) && i == |Grown(p.slots, ClampTarget(c, wanted))|
    ensures Partly(c, p, ClampTarget(c, wanted), i) == Resize(c, p, wanted)
  {
    var n := ClampTarget(c, wanted);
    hide ClampTarget, ResizedSlot, DrainedWorker;
    assert Partly(c, p, n, i).slots == ResizedSlots(c, p, n);
    assert Partly(c, p, n, i).workers == DrainedWorkers(c, p, n);
  }

  /** What a look at slot i sees. */
  lemma LookSees(c: Config, p: Core, n: int, i: nat)
    requires CoreOk(p) && i < |Grown(p.slots, n)|
    ensures var q := Partly(c, p, n, i);
            && |q.slots| == |Grown(p.slots, n)| == |ResizedSlots(c, p, n)|
            && q.slots[i].worker == (if i < |p.slots| then p.slots[i].worker else None)
            && BootList(c, ResizedSlots(c, p, n), n, i + 1)
               == BootList(c, ResizedSlots(c, p, n), n, i) +
                  if i + 1 <= n && Bootable(c, q.slots[i]) then [i + 1] else []
    ensures i < |p.slots| && p.slots[i].worker.Some? ==>
              var w := p.slots[i].worker.value;
              && w < |p.workers| && Partly(c, p, n, i).workers[w] == p.workers[w]
              && (Drained(c, p, n, i) <==> i + 1 > n && !Spared(c, p.workers[w].state))
  {
    hide SlotFailed, Spared;
    if i < |p.slots| {
      assert Installable(p, i + 1, p.slots[i].worker);
    }
  }

  lemma ScanStep(c: Config, s: State, e: Event, s': State)
    requires Step(c, s, e, s') && s.threads[e.t].ResizeScan?
    ensures s'.core == s.core && e.t < |s'.threads|
    ensures var pc := s.threads[e.t];
            var boots :=
              if pc.i < |s.core.slots| && Bootable(c, s.core.slots[pc.i]) then pc.boots + [pc.i + 1] else pc.boots;
            s'.threads[e.t] ==
            if pc.i >= |s.core.slots| then ResizeNext(pc.drains, pc.boots)
            else if pc.i + 1 <= pc.n then ResizeScan(pc.n, pc.i + 1, pc.drains, boots)
            else if s.core.slots[pc.i].worker.None? then ResizeScan(pc.n, pc.i + 1, pc.drains, pc.boots)
            else
              assert Installable(s.core, pc.i + 1, s.core.slots[pc.i].worker);
              var w := s.core.slots[pc.i].worker.value;
              if Spared(c, s.core.workers[w].state) then ResizeScan(pc.n, pc.i + 1, pc.drains, pc.boots)
              else ResizeMark(pc.n, pc.i, w, pc.drains, pc.boots)
  {
    hide Bootable, Spared, PcOk;
  }

  lemma MarkStep(c: Config, s: State, e: Event, s': State)
    requires Step(c, s, e, s') && s.threads[e.t].ResizeMark?
    ensures e.t < |s'.threads|
    ensures var pc := s.threads[e.t];
            && pc.w < |s.core.workers| && pc.i < |s.core.slots|
            && s'.core == s.core.(workers := s.core.workers[pc.w := s.core.workers[pc.w].(state := Draining)],
                                  slots := s.core.slots[pc.i := s.core.slots[pc.i].(planned := true)])
            && s'.threads[e.t] == ResizeScan(pc.n, pc.i + 1, pc.drains + [pc.w], pc.boots)
  {
    assert PcOk(s.core, s.threads[e.t]);
    hide PcOk, CoreOk;
  }

  lemma MarkAdvances(c: Config, p: Core, n: int, q: Core, pc: Pc, q': Core)
    requires CoreOk(p) && pc.ResizeMark? && Progress(c, p, n, q, pc)
    requires pc.w < |q.workers| && pc.i < |q.slots|
    requires q' == q.(workers := q.workers[pc.w := q.workers[pc.w].(state := Draining)],
                      slots := q.slots[pc.i := q.slots[pc.i].(planned := true)])
    ensures Progress(c, p, n, q', ResizeScan(n, pc.i + 1, pc.drains + [pc.w], pc.boots))
  {
    MarkedAt(c, p, n, pc.i, pc.w);
    hide Partly, DrainList, BootList, Drained, ResizedSlots, Grown, CoreOk;
  }

  lemma PassAdvances(c: Config, p: Core, n: int, q: Core, pc: Pc)
    requires CoreOk(p) && pc.ResizeScan? && Progress(c, p, n, q, pc) && pc.i < |Grown(p.slots, n)| == |q.slots|
    requires pc.i < |p.slots| ==> !Drained(c, p, n, pc.i)
    ensures Progress(c, p, n, q, ResizeScan(n, pc.i + 1, pc.drains,
                     if pc.i + 1 <= n && Bootable(c, q.slots[pc.i]) then pc.boots + [pc.i + 1] else pc.boots))
  {
    hide Partly, DrainList, BootList, Drained, ResizedSlots, CoreOk, Bootable;
    LookSees(c, p, n, pc.i);
    NothingHappensAt(c, p, n, pc.i);
    hide Grown;
  }

  lemma FindAdvances(c: Config, p: Core, n: int, q: Core, pc: Pc, w: Ref)
    requires CoreOk(p) && pc.ResizeScan? && Progress(c, p, n, q, pc)
    requires pc.i < |p.slots| && Drained(c, p, n, pc.i) && p.slots[pc.i].worker == Some(w)
    ensures Progress(c, p, n, q, ResizeMark(n, pc.i, w, pc.drains, pc.boots))
  {
    hide Partly, DrainList, BootList, Drained, ResizedSlots, Grown, CoreOk;
  }

  /** In the middle of the section the slots not yet reached look as they did before it. */
  lemma Ahead(c: Config, p: Core, n: int, q: Core, pc: Pc)
    requires CoreOk(p) && Progress(c, p, n, q, pc)
    ensures pc.n == n && pc.i <= |Grown(p.slots, n)| == |q.slots| && |p.slots| <= |Grown(p.slots, n)|
    ensures pc.i < |q.slots| ==> q.slots[pc.i].worker == if pc.i < |p.slots| then p.slots[pc.i].worker else None
    ensures pc.i < |p.slots| && p.slots[pc.i].worker.Some? ==>
              var w := p.slots[pc.i].worker.value;
              && w < |p.workers| && |q.workers| == |p.workers|
              && (Drained(c, p, n, pc.i) <==> pc.i + 1 > n && !Spared(c, q.workers[w].state))
  {
    if pc.i < |Grown(p.slots, n)| {
      LookSees(c, p, n, pc.i);
    }
    hide DrainList, BootList, Spared, Bootable, ResizedSlots;
  }

  lemma LookAdvances(c: Config, p: Core, n: int, s: State, e: Event, s': State)
    requires Step(c, s, e, s') && e.t < |s.threads| && s.threads[e.t].ResizeScan?
    requires CoreOk(p) && Progress(c, p, n, s.core, s.threads[e.t])
    ensures e.t < |s'.threads|
    ensures (Scanning(s'.threads[e.t]) && Progress(c, p, n, s'.core, s'.threads[e.t]))
            || (s'.core == s.core && s.threads[e.t].i == |Grown(p.slots, n)|
                && s'.threads[e.t] == ResizeNext(s.threads[e.t].drains, s.threads[e.t].boots))
  {
    hide Step, CoreOk, DrainList, BootList, ResizedSlots, Bootable, Spared, Progress, Partly, Grown;
    var pc := s.threads[e.t];
    ScanStep(c, s, e, s');
    Ahead(c, p, n, s.core, pc);
    if pc.i < |s.core.slots| {
      if pc.i < |p.slots| && Drained(c, p, n, pc.i) {
        FindAdvances(c, p, n, s.core, pc, p.slots[pc.i].worker.value);
      } else {
        PassAdvances(c, p, n, s.core, pc);
      }
    }
  }

  lemma SectionAdvances(c: Config, p: Core, n: int, s: State, e: Event, s': State)
    requires Step(c, s, e, s') && e.t < |s.threads| && Scanning(s.threads[e.t])
    requires CoreOk(p) && Progress(c, p, n, s.core, s.threads[e.t])
    ensures e.t < |s'.threads|
    ensures (Scanning(s'.threads[e.t]) && Progress(c, p, n, s'.core, s'.threads[e.t]))
            || (s'.core == s.core && s.threads[e.t].i == |Grown(p.slots, n)|
                && s'.threads[e.t] == ResizeNext(s.threads[e.t].drains, s.threads[e.t].boots))
  {
    hide Step, CoreOk, Progress;
    if s.threads[e.t].ResizeMark? {
      MarkStep(c, s, e, s');
      Ahead(c, p, n, s.core, s.threads[e.t]);
      MarkAdvances(c, p, n, s.core, s.threads[e.t], s'.core);
    } else {
      LookAdvances(c, p, n, s, e, s');
    }
  }

  /** Between events j and k thread t is in the section of SetDesired, and nobody else moves. */
  ghost predicate InSection(states: seq<State>, events: seq<Event>, j: nat, k: nat, t: nat) {
    && j < k < |states| && |states| == |events| + 1
    && (forall m :: j <= m <= k ==> t < |states[m].threads|)
    && states[j].threads[t].ResizeStart?
    && (forall m :: j <= m < k ==> events[m].t == t)
    && (forall m :: j < m < k ==> Scanning(states[m].threads[t]))
  }

  lemma SectionStarts(c: Config, s: State, e: Event, s': State, wanted: int)
    requires Step(c, s, e, s') && e.t < |s.threads| && s.threads[e.t] == ResizeStart(wanted)
    requires e.t < |s'.threads| && Scanning(s'.threads[e.t])
    ensures CoreOk(s.core) && Progress(c, s.core, ClampTarget(c, wanted), s'.core, s'.threads[e.t])
  {
    hide NothingToResize, ClampTarget, PcOk;
    var n := ClampTarget(c, wanted);
    RescaledIsPartly(c, s.core, n);
  }

  lemma {:induction false} SectionProgresses(
    c: Config, states: seq<State>, events: seq<Event>, j: nat, k: nat, t: nat, wanted: int, m: nat)
    requires Run(c, states, events) && InSection(states, events, j, k, t) && j < m < k
    requires states[j].threads[t] == ResizeStart(wanted)
    ensures CoreOk(states[j].core)
    ensures Progress(c, states[j].core, ClampTarget(c, wanted), states[m].core, states[m].threads[t])
    decreases m
  {
    hide Run, Step, Progress, ClampTarget, CoreOk;
    RunStep(c, states, events, m - 1);
    if m == j + 1 {
      SectionStarts(c, states[j], events[j], states[m], wanted);
    } else {
      SectionProgresses(c, states, events, j, k, t, wanted, m - 1);
      SectionAdvances(c, states[j].core, ClampTarget(c, wanted), states[m - 1], events[m - 1], states[m]);
    }
  }

  /** A section that nobody interrupts does what Resize, ToDrain and ToBoot say. */
  lemma UninterruptedSection(
    c: Config, states: seq<State>, events: seq<Event>, j: nat, k: nat, t: nat, wanted: int)
    requires Run(c, states, events) && InSection(states, events, j, k, t)
    requires states[j].threads[t] == ResizeStart(wanted) && states[k].threads[t].ResizeNext?
    ensures CoreOk(states[j].core) && states[k].core == Resize(c, states[j].core, wanted)
    ensures states[k].threads[t] == ResizeNext(ToDrain(c, states[j].core, wanted), ToBoot(c, states[j].core, wanted))
  {
    hide Run, Step, ClampTarget, CoreOk, Progress;
    RunStep(c, states, events, k - 1);
    var n := ClampTarget(c, wanted);
    if k == j + 1 {
      StartDoesNotEnd(c, states[j], events[j], states[k], wanted);
    } else {
      SectionProgresses(c, states, events, j, k, t, wanted, k - 1);
      SectionAdvances(c, states[j].core, n, states[k - 1], events[k - 1], states[k]);
      SectionEnds(c, states[j].core, wanted, states[k - 1].core, states[k - 1].threads[t], states[k].core,
                  states[k].threads[t]);
    }
  }

  lemma SectionEnds(c: Config, p: Core, wanted: int, q: Core, pc: Pc, q': Core, next: Pc)
    requires CoreOk(p) && Progress(c, p, ClampTarget(c, wanted), q, pc)
    requires q' == q && pc.i == |Grown(p.slots, ClampTarget(c, wanted))| && next == ResizeNext(pc.drains, pc.boots)
    ensures q' == Resize(c, p, wanted) && next == ResizeNext(ToDrain(c, p, wanted), ToBoot(c, p, wanted))
  {
    hide ClampTarget, Partly, DrainList, BootList;
    AllDone(c, p, wanted, pc.i);
  }

  lemma StartDoesNotEnd(c: Config, s: State, e: Event, s': State, wanted: int)
    requires Step(c, s, e, s') && e.t < |s.threads| && s.threads[e.t] == ResizeStart(wanted)
    ensures e.t < |s'.threads| && !s'.threads[e.t].ResizeNext?
  {
    hide NothingToResize, ClampTarget, Rescaled, PcOk, CoreOk;
  }
}
