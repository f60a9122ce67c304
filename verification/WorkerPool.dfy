/**
 The pool as the object it is: the critical sections of internal/worker/pool.go carried out in place, loop by
 loop, each proved to write exactly what the step system's section writes.
 */
module WorkerPool {
  import opened Basics
  import opened CrashPolicy
  import opened Protocol
  import opened PoolModel
  import opened PoolIdentity
  import opened PoolPurging
  import opened PoolSnapshot

  // ----- the progress of SetDesired's second loop: i slots done -----

  ghost predicate SlotsSorted(c: Config, p: Core, n: int, i: nat, marked: seq<Slot>, slots: seq<Slot>) {
    && CoreOk(p) && |slots| == |marked| == |Grown(p.slots, n)|
    && (forall k :: 0 <= k < |marked| ==> marked[k] == Grown(p.slots, n)[k].(retired := k + 1 > n))
    && (forall k :: 0 <= k < |slots| ==> slots[k] == if k < i then ResizedSlot(c, p, n, k) else marked[k])
  }

  ghost predicate WorkersSorted(c: Config, p: Core, n: int, i: nat, workers: seq<Worker>) {
    && CoreOk(p) && |workers| == |p.workers|
    && (forall r :: 0 <= r < |workers| ==>
          workers[r] == if p.workers[r].slot <= i then DrainedWorker(c, p, n, r) else p.workers[r])
  }

  lemma NothingSorted(c: Config, p: Core, n: int, marked: seq<Slot>)
    requires CoreOk(p) && |marked| == |Grown(p.slots, n)|
    requires forall k :: 0 <= k < |marked| ==> marked[k] == Grown(p.slots, n)[k].(retired := k + 1 > n)
    ensures |ResizedSlots(c, p, n)| == |marked| >= |p.slots|
    ensures SlotsSorted(c, p, n, 0, marked, marked) && WorkersSorted(c, p, n, 0, p.workers)
    ensures DrainList(c, p, n, 0) == [] && BootList(c, ResizedSlots(c, p, n), n, 0) == []
  {
  }

  lemma AllSorted(c: Config, p: Core, n: int, marked: seq<Slot>, slots: seq<Slot>, workers: seq<Worker>)
    requires SlotsSorted(c, p, n, |slots|, marked, slots) && WorkersSorted(c, p, n, |slots|, workers)
    requires |p.slots| <= |slots|
    ensures slots == ResizedSlots(c, p, n) && workers == DrainedWorkers(c, p, n)
  {
  }

  lemma AllMarked(p: Core, slots: seq<Slot>, workers: seq<Worker>)
    requires CoreOk(p) && |slots| == |p.slots| && |workers| == |p.workers|
    requires forall k :: 0 <= k < |slots| ==> slots[k] == MarkedSlot(p.slots[k])
    requires forall r :: 0 <= r < |workers| ==> workers[r] == MarkedWorker(p, r)
    ensures slots == MarkedSlots(p.slots) && workers == MarkedWorkers(p)
  {
  }

  lemma NoneRemaining(slots: seq<Slot>)
    ensures Remaining(slots[..0]) == []
  {
  }

  lemma RemainingSnoc(slots: seq<Slot>, i: nat)
    requires i < |slots|
    ensures Remaining(slots[..i + 1]) ==
            Remaining(slots[..i]) + (if slots[i].worker.Some? then [slots[i].worker.value] else [])
  {
    assert slots[..i + 1][..i] == slots[..i];
  }

  /** What the loop reads at slot i: the slot and the worker SetDesired found there. */
  lemma SeenAt(c: Config, p: Core, n: int, i: nat, marked: seq<Slot>, slots: seq<Slot>, workers: seq<Worker>)
    requires SlotsSorted(c, p, n, i, marked, slots) && WorkersSorted(c, p, n, i, workers) && i < |slots|
    ensures slots[i] == Grown(p.slots, n)[i].(retired := i + 1 > n)
    ensures slots[i].worker.Some? ==>
              && i < |p.slots| && p.slots[i].worker == slots[i].worker && slots[i].worker.value < |workers|
              && workers[slots[i].worker.value] == p.workers[slots[i].worker.value]
  {
    hide ResizedSlot, DrainedWorker;
    if i < |p.slots| {
      assert Installable(p, i + 1, p.slots[i].worker);
    }
  }

  lemma DrainSnoc(c: Config, p: Core, n: int, i: nat)
    requires CoreOk(p)
    ensures DrainList(c, p, n, Min(i + 1, |p.slots|)) ==
            DrainList(c, p, n, Min(i, |p.slots|)) +
            (if i < |p.slots| && Drained(c, p, n, i) then [p.slots[i].worker.value] else [])
  {
    hide Drained, CoreOk;
  }

  lemma BootSnoc(c: Config, p: Core, n: int, i: nat, slot: Slot)
    requires CoreOk(p) && i < |Grown(p.slots, n)| && slot == Grown(p.slots, n)[i].(retired := i + 1 > n)
    ensures |ResizedSlots(c, p, n)| == |Grown(p.slots, n)|
    ensures BootList(c, ResizedSlots(c, p, n), n, i + 1) ==
            BootList(c, ResizedSlots(c, p, n), n, i) +
            (if i + 1 <= n && slot.worker.None? && !SlotFailed(c, slot) then [i + 1] else [])
  {
    hide Drained, CoreOk, Grown, Exceeded;
    assert ResizedSlots(c, p, n)[i] == ResizedSlot(c, p, n, i);
  }

  /** What the loop reads at slot i is what the section decides on. */
  lemma DecisionAt(c: Config, p: Core, n: int, i: nat, marked: seq<Slot>, slots: seq<Slot>, workers: seq<Worker>)
    requires SlotsSorted(c, p, n, i, marked, slots) && WorkersSorted(c, p, n, i, workers) && i < |slots|
    ensures slots[i].worker.Some? ==> i < |p.slots| && p.slots[i].worker == slots[i].worker
                                      && slots[i].worker.value < |workers|
    ensures (i < |p.slots| && Drained(c, p, n, i)) <==>
            (i + 1 > n && slots[i].worker.Some?
             && var st := workers[slots[i].worker.value].state;
                !(st == Busy && c.http) && st != Draining && st != Dead && st != Stopped)
    ensures DrainList(c, p, n, Min(i + 1, |p.slots|)) ==
            DrainList(c, p, n, Min(i, |p.slots|)) +
            (if i < |p.slots| && Drained(c, p, n, i) then [p.slots[i].worker.value] else [])
    ensures BootList(c, ResizedSlots(c, p, n), n, i + 1) ==
            BootList(c, ResizedSlots(c, p, n), n, i) +
            (if i + 1 <= n && slots[i].worker.None? && !SlotFailed(c, slots[i]) then [i + 1] else [])
  {
    SeenAt(c, p, n, i, marked, slots, workers);
    assert CoreOk(p) && |slots| == |Grown(p.slots, n)|;
    hide SlotsSorted, WorkersSorted, CoreOk, SlotFailed, ResizedSlots, DrainList, BootList;
    DrainSnoc(c, p, n, i);
    BootSnoc(c, p, n, i, slots[i]);
  }

  /** One turn of the loop, as what it leaves behind. */
  lemma SortOne(c: Config, p: Core, n: int, i: nat, marked: seq<Slot>, slots: seq<Slot>, workers: seq<Worker>,
                slots': seq<Slot>, workers': seq<Worker>)
    requires SlotsSorted(c, p, n, i, marked, slots) && WorkersSorted(c, p, n, i, workers) && i < |slots|
    requires var leaves := i < |p.slots| && Drained(c, p, n, i);
             && slots' == (if leaves then slots[i := slots[i].(planned := true)] else slots)
             && (leaves ==> p.slots[i].worker.Some? && p.slots[i].worker.value < |workers|)
             && workers' == (if leaves
                             then
                               var w := p.slots[i].worker.value;
                               workers[w := workers[w].(state := Draining)]
                             else workers)
    ensures SlotsSorted(c, p, n, i + 1, marked, slots') && WorkersSorted(c, p, n, i + 1, workers')
  {
    if i < |p.slots| {
      assert Installable(p, i + 1, p.slots[i].worker);
    }
  }

  lemma NextIsAbove(p: Core, i: nat)
    requires CoreOk(p) && WorkersDistinct(p) && ValidSlot(p, i)
    ensures var q := p.(slots := p.slots[i - 1 := NextGeneration(p.slots[i - 1])]);
            && CoreOk(q) && WorkersDistinct(q)
            && forall r :: 0 <= r < |p.workers| && p.workers[r].slot == i ==> p.workers[r].gen < p.slots[i - 1].gen + 1
  {
    var q := p.(slots := p.slots[i - 1 := NextGeneration(p.slots[i - 1])]);
    assert forall k :: 0 <= k < |p.slots| ==> Installable(p, k + 1, p.slots[k].worker);
    assert CoreOk(q);
    forall r | 0 <= r < |p.workers|
      ensures BelowCounter(q, r) && (p.workers[r].slot == i ==> p.workers[r].gen < p.slots[i - 1].gen + 1)
    {
      assert BelowCounter(p, r);
    }
  }

  /** What an acquire accepts: current, and Idle when asked for its state. */
  ghost predicate Usable(p: Core, w: Ref)
    requires CoreOk(p) && ValidRef(p, w)
  {
    CheckAcquired(p, w) == Plausible && p.workers[w].state == Idle
  }

  class Pool {
    const c: Config
    var slots: seq<Slot>
    var workers: seq<Worker>
    var idle: seq<Ref>
    var desired: int
    var stopping: bool

    function View(): Core
      reads this
    {
      Core(slots, workers, idle, desired, stopping)
    }

    ghost predicate Valid()
      reads this
    {
      CoreOk(View())
    }

    /** NewWorkloadPool (122-158): whatever the options say, min <= desired <= max and the channel fits max. */
    constructor (template: Config, wanted: int, min: int, max: int)
      ensures Valid() && slots == [] && workers == [] && idle == [] && !stopping
      ensures c.minWorkers == min <= desired <= c.maxWorkers && c.idleCap == Max(1, c.maxWorkers)
      ensures c.maxWorkers == Max(if max < 1 then wanted else max, min)
      ensures desired == if wanted < min then min else if wanted > c.maxWorkers then c.maxWorkers else wanted
      ensures c == template.(minWorkers := min, maxWorkers := c.maxWorkers, idleCap := c.idleCap)
    {
      var top := max;
      if top < 1 {
        top := wanted;
      }
      if top < min {
        top := min;
      }
      var n := wanted;
      if n < min {
        n := min;
      }
      if n > top {
        n := top;
      }
      var capacity := top;
      if capacity < 1 {
        capacity := 1;
      }
      c := template.(minWorkers := min, maxWorkers := top, idleCap := capacity);
      slots, workers, idle, desired, stopping := [], [], [], n, false;
    }

    /** The slots Start creates (218-227). */
    method Start()
      requires Valid() && slots == [] && workers == [] && 0 <= desired
      modifies this
      ensures Valid() && desired == old(desired) && View() == old(View()).(slots := slots)
      ensures |slots| == desired && forall i :: 0 <= i < |slots| ==> slots[i] == FRESH_SLOT
    {
      var built := [];
      for i := 0 to desired
        invariant |built| == i && forall k :: 0 <= k < i ==> built[k] == FRESH_SLOT
      {
        built := built + [FRESH_SLOT];
      }
      slots := built;
    }

    /** TryAcquire (563-598): the first usable worker of the channel, which loses it and all before it. */
    method TryAcquire() returns (r: Option<Ref>, ghost k: nat)
      requires Valid()
      modifies this
      ensures Valid()
      ensures !c.http || stopping ==> r.None? && View() == old(View())
      ensures r.None? && c.http && !stopping ==>
                && View() == old(View()).(idle := [])
                && forall j :: 0 <= j < |old(idle)| ==> !Usable(old(View()), old(idle)[j])
      ensures r.Some? ==>
                && k < |old(idle)| && r.value == old(idle)[k] && Usable(old(View()), r.value)
                && (forall j :: 0 <= j < k ==> !Usable(old(View()), old(idle)[j]))
                && View() == old(View()).(idle := old(idle)[k + 1..],
                                          workers := old(workers)[r.value := old(workers)[r.value].(state := Busy)])
    {
      k := 0;
      if !c.http || stopping {
        return None, k;
      }
      while idle != []
        invariant k <= |old(idle)| && idle == old(idle)[k..]
        invariant View() == old(View()).(idle := idle)
        invariant forall j :: 0 <= j < k ==> !Usable(old(View()), old(idle)[j])
        decreases |idle|
      {
        var w := idle[0];
        var verdict := CheckAcquired(View(), w);
        idle := idle[1..];
        if verdict == Plausible && workers[w].state == Idle {
          workers := workers[w := workers[w].(state := Busy)];
          return Some(w), k;
        }
        k := k + 1;
      }
      return None, k;
    }

    /** The first section of bootSlot (273-281): a generation no worker of the slot has, if the slot is in use. */
    method Reserve(i: nat) returns (gen: Option<nat>)
      requires Valid() && ValidSlot(View(), i)
      modifies this`slots
      ensures Valid() && |slots| == |old(slots)|
      ensures gen.Some? <==> !stopping && i <= desired && !old(slots)[i - 1].retired
      ensures forall k :: 0 <= k < |slots| && (k != i - 1 || gen.None?) ==> slots[k] == old(slots)[k]
      ensures gen.Some? ==>
                slots[i - 1] == old(slots)[i - 1].(gen := gen.value) && gen.value == old(slots)[i - 1].gen + 1
      ensures old(WorkersDistinct(View())) && gen.Some? ==>
                && WorkersDistinct(View())
                && forall r :: 0 <= r < |workers| && workers[r].slot == i ==> workers[r].gen < gen.value
    {
      var s := slots[i - 1];
      if stopping || s.retired || i > desired {
        return None;
      }
      assert Installable(View(), i - 1 + 1, s.worker);
      ghost var p := View();
      slots := slots[i - 1 := s.(gen := s.gen + 1)];
      gen := Some(s.gen + 1);
      if WorkersDistinct(p) {
        NextIsAbove(p, i);
      }
    }

    /** The second section of bootSlot (299-311): the slot is w's and nobody else's, if it is still in use. */
    method Install(i: nat, w: Ref) returns (installed: bool)
      requires Valid() && ValidSlot(View(), i) && ValidRef(View(), w) && workers[w].slot == i
      modifies this`slots
      ensures Valid() && |slots| == |old(slots)|
      ensures installed <==> !stopping && i <= desired && !old(slots)[i - 1].retired
      ensures forall k :: 0 <= k < |slots| && (k != i - 1 || !installed) ==> slots[k] == old(slots)[k]
      ensures installed ==> slots[i - 1] == old(slots)[i - 1].(worker := Some(w), planned := false)
      ensures installed ==> CheckAcquired(View(), w) == Plausible
      ensures installed && WorkersDistinct(View()) ==>
                forall r :: 0 <= r < |workers| && r != w && workers[r].slot == i ==> CheckAcquired(View(), r) == Stale
    {
      if stopping || slots[i - 1].retired || i > desired {
        return false;
      }
      slots := slots[i - 1 := slots[i - 1].(worker := Some(w), planned := false)];
      installed := true;
    }

    /** Release up to its push (642-718): back to the channel exactly if the pool still wants the worker. */
    method Release(w: Ref, resp: Response) returns (back: bool)
      requires Valid() && ValidRef(View(), w)
      modifies this`slots, this`workers
      ensures Valid() && |workers| == |old(workers)|
      ensures back <==> old(SameGeneration(View(), w)) && !stopping && !old(OutOfService(View(), workers[w].slot))
                        && !resp.meta.recycle
                        && (c.maxRequests > 0 ==> old(workers)[w].handled + 1 < c.maxRequests)
                        && (c.memoryLimitMB > 0 ==> resp.meta.memoryUsage < c.memoryLimitMB * 1024 * 1024)
      ensures workers[w].handled == old(workers)[w].handled + 1
      ensures forall r :: 0 <= r < |workers| && r != w ==> workers[r] == old(workers)[r]
      ensures back ==> slots == old(slots) && workers[w].state == Idle && workers[w].conn == old(workers)[w].conn
      ensures !back && old(SameGeneration(View(), w)) ==>
                var i := old(workers)[w].slot;
                && workers[w].state == Draining && !workers[w].conn.open
                && slots == old(slots)[i - 1 := old(slots)[i - 1].(planned := true)]
      ensures !old(SameGeneration(View(), w)) ==>
                slots == old(slots) && workers[w].(handled := old(workers)[w].handled) == old(workers)[w]
      ensures var (op, b) := ReleaseCommit(c, old(View()), w, resp);
              back == b && View() == ApplyOp(old(View()), op)
    {
      var wk := workers[w].(handled := workers[w].handled + 1);
      var recycle := false;
      if resp.meta.recycle {
        recycle := true;
      }
      if !recycle && c.maxRequests > 0 && wk.handled >= c.maxRequests {
        recycle := true;
      }
      if !recycle && c.memoryLimitMB > 0 && resp.meta.memoryUsage > 0 {
        var limit := c.memoryLimitMB * 1024 * 1024;
        if resp.meta.memoryUsage >= limit {
          recycle := true;
        }
      }
      if !InPool(View(), w) || !SameGeneration(View(), w) {
        workers := workers[w := wk];
        return false;
      }
      var i := wk.slot;
      if stopping || recycle || slots[i - 1].retired || i > desired {
        slots := slots[i - 1 := slots[i - 1].(planned := true)];
        workers := workers[w := Closed(wk.(state := Draining))];
        return false;
      }
      workers := workers[w := wk.(state := Idle)];
      return true;
    }

    /** Discard (734-752): nothing for a worker that has been replaced; otherwise it drains, and not as planned. */
    method Discard(w: Ref)
      requires Valid() && ValidRef(View(), w)
      modifies this`slots, this`workers
      ensures Valid() && |workers| == |old(workers)|
      ensures !old(SameGeneration(View(), w)) ==> View() == old(View())
      ensures old(SameGeneration(View(), w)) ==>
                var i := old(workers)[w].slot;
                && workers[w].state == Draining && !workers[w].conn.open
                && workers[w].handled == old(workers)[w].handled
                && slots == old(slots)[i - 1 := old(slots)[i - 1].(planned := false)]
      ensures forall r :: 0 <= r < |workers| && r != w ==> workers[r] == old(workers)[r]
      ensures View() == ApplyOp(old(View()), DiscardCommit(old(View()), w))
    {
      if !InPool(View(), w) || !SameGeneration(View(), w) {
        return;
      }
      var i := workers[w].slot;
      slots := slots[i - 1 := slots[i - 1].(planned := false)];
      workers := workers[w := Closed(workers[w].(state := Draining))];
    }

    /** The monitor's section (342-374): it clears the slot of its own worker only, and says what is to follow. */
    method ClearExited(i: nat, w: Ref, exitCode: int) returns (plan: Option<ExitPlan>)
      requires Valid() && ValidRef(View(), w) && ValidSlot(View(), i)
      modifies this`slots, this`workers
      ensures Valid() && |workers| == |old(workers)| && |slots| == |old(slots)|
      ensures plan.Some? <==> old(OwnsSlot(View(), i, w))
      ensures plan.None? ==> View() == old(View())
      ensures plan.Some? ==> slots == old(slots)[i - 1 := old(slots)[i - 1].(worker := None)]
      ensures plan.Some? ==> workers[w].state == Dead && !workers[w].conn.open
                             && forall r :: 0 <= r < |workers| && r != w ==> workers[r] == old(workers)[r]
      ensures plan.Some? ==> (plan.value == NoRestart <==> !Accepting(View(), i))
      ensures plan.Some? && Accepting(View(), i) ==>
                (plan.value == PlannedRestart <==>
                   slots[i - 1].planned || (exitCode == 0 && old(workers)[w].state == Draining))
      ensures plan.Some? ==> plan.value == PlanAfterExit(old(View()), i, w, exitCode)
                             && View() == ApplyOp(old(View()), PoolModel.ClearExited(old(View()), i, w))
    {
      if !OwnsSlot(View(), i, w) {
        return None;
      }
      var planned := slots[i - 1].planned || (exitCode == 0 && workers[w].state == Draining);
      workers := workers[w := Closed(workers[w].(state := Dead))];
      slots := slots[i - 1 := slots[i - 1].(worker := None)];
      if stopping || slots[i - 1].retired || i > desired {
        return Some(NoRestart);
      } else if planned {
        return Some(PlannedRestart);
      } else {
        return Some(Crashed);
      }
    }

    /** purgeIdle (393-412): one turn of the channel, which drops w and keeps everybody else in order. */
    method PurgeIdle(w: Ref)
      requires Valid() && ValidRef(View(), w) && |idle| <= c.idleCap
      modifies this`idle
      ensures Valid() && idle == Without(old(View()), old(idle), w)
    {
      ghost var p, before := View(), idle;
      IdleIsValid(p);
      hide Without, CoreOk, SameWorker;
      var n := |idle|;
      for i := 0 to n
        invariant CoreOk(p) && before == p.idle && |before| == n <= c.idleCap
        invariant slots == p.slots && workers == p.workers && desired == p.desired && stopping == p.stopping
        invariant idle == before[i..] + Without(p, before[..i], w)
      {
        WithoutSnoc(p, before, i, w);
        Turn(before, i, Without(p, before[..i], w));
        var cur := idle[0];
        idle := idle[1..];
        SameWorkers(p, View(), cur, w);
        if SameWorker(View(), cur, w) {
          continue;
        }
        if |idle| < c.idleCap {
          idle := idle + [cur];
        }
      }
      assert before[..n] == before;
      StillOk(p, w);
    }

    /** recordCrashLocked (414-426), with its in-place filter. */
    method RecordCrash(i: nat, now: int)
      requires Valid() && ValidSlot(View(), i)
      modifies this`slots
      ensures slots == old(slots)[i - 1 := PoolModel.RecordCrash(c, old(slots)[i - 1], now)]
    {
      var sl := slots[i - 1];
      var times := sl.recent + [now];
      var buf := new int[|times|](k requires 0 <= k < |times| => times[k]);
      assert buf[..] == times;
      var kept := CompactInPlace(buf, now - c.restartWindow);
      var recent := buf[..kept];
      slots := slots[i - 1 := sl.(
        restartCount := sl.restartCount + 1,
        recent := recent,
        crashes := sl.crashes + [Crash(now, !Exceeded(recent, c.restartLimit))])];
    }

    /** The scan of lines 479-485. */
    method FindBootable(n: int) returns (needed: bool)
      ensures needed == NeedsBoot(c, slots, n)
    {
      for i := 0 to |slots|
        invariant forall k :: 0 <= k < i && k + 1 <= n && !slots[k].retired ==> !Bootable(c, slots[k])
      {
        if i + 1 <= n && slots[i].worker.None? && !slots[i].retired && !SlotFailed(c, slots[i]) {
          return true;
        }
      }
      return false;
    }

    /** SetDesired's section (465-536). */
    method SetDesired(target: int) returns (toDrain: seq<Ref>, toBoot: seq<nat>)
      requires Valid()
      modifies this
      ensures var p := old(View());
              if NothingToResize(c, p, target) then View() == p && toDrain == [] && toBoot == []
              else View() == Resize(c, p, target) && toDrain == ToDrain(c, p, target) && toBoot == ToBoot(c, p, target)
    {
      toDrain, toBoot := [], [];
      if stopping {
        return;
      }
      var n := target;
      if n < c.minWorkers {
        n := c.minWorkers;
      }
      if c.maxWorkers > 0 && n > c.maxWorkers {
        n := c.maxWorkers;
      }
      if n == desired && |slots| >= n {
        var needBoot := FindBootable(n);
        if !needBoot {
          return;
        }
      }
      ghost var p := View();
      assert n == ClampTarget(c, target);
      desired := n;
      CoverDesired(n);
      RetireAbove(n);
      toDrain, toBoot := Sort(p, n);
    }

    /** The first section of Shutdown (826-828). */
    method Stop()
      requires Valid()
      modifies this
      ensures Valid() && View() == old(View()).(stopping := true)
    {
      stopping := true;
    }

    /** Lines 500-506. */
    method CoverDesired(n: int)
      modifies this`slots
      ensures slots == Grown(old(slots), n)
    {
      ghost var before := slots;
      while |slots| < n
        invariant |before| <= |slots| && |slots| <= Max(|before|, n)
        invariant slots == before + seq(|slots| - |before|, _ => FRESH_SLOT)
      {
        slots := slots + [FRESH_SLOT];
      }
    }

    /** Lines 507-509. */
    method RetireAbove(n: int)
      modifies this`slots
      ensures |slots| == |old(slots)|
      ensures forall i :: 0 <= i < |slots| ==> slots[i] == old(slots)[i].(retired := i + 1 > n)
    {
      ghost var before := slots;
      for i := 0 to |slots|
        invariant |slots| == |before|
        invariant forall k :: 0 <= k < |slots| ==>
                    slots[k] == if k < i then before[k].(retired := k + 1 > n) else before[k]
      {
        slots := slots[i := slots[i].(retired := i + 1 > n)];
      }
    }

    /** Lines 511-535: who is sent away and who is booted. */
    method Sort(ghost p: Core, n: int) returns (toDrain: seq<Ref>, toBoot: seq<nat>)
      requires CoreOk(p) && workers == p.workers && |slots| == |Grown(p.slots, n)|
      requires forall i :: 0 <= i < |slots| ==> slots[i] == Grown(p.slots, n)[i].(retired := i + 1 > n)
      modifies this`slots, this`workers
      ensures slots == ResizedSlots(c, p, n) && workers == DrainedWorkers(c, p, n)
      ensures toDrain == DrainList(c, p, n, |p.slots|)
      ensures toBoot == BootList(c, slots, n, |slots|)
    {
      hide ResizedSlots, DrainedWorkers, DrainList, BootList, Drained, SlotFailed, SlotsSorted, WorkersSorted;
      toDrain, toBoot := [], [];
      ghost var marked := slots;
      NothingSorted(c, p, n, slots);
      for i := 0 to |slots|
        invariant |slots| == |marked| == |ResizedSlots(c, p, n)| >= |p.slots|
        invariant SlotsSorted(c, p, n, i, marked, slots)
        invariant WorkersSorted(c, p, n, i, workers)
        invariant toDrain == DrainList(c, p, n, Min(i, |p.slots|))
        invariant toBoot == BootList(c, ResizedSlots(c, p, n), n, i)
      {
        var s := slots[i];
        ghost var slotsBefore, workersBefore := slots, workers;
        DecisionAt(c, p, n, i, marked, slots, workers);
        if i + 1 > n {
          if s.worker.Some? {
            var w := s.worker.value;
            var st := workers[w].state;
            if !(st == Busy && c.http) && st != Draining && st != Dead && st != Stopped {
              slots := slots[i := s.(planned := true)];
              workers := workers[w := workers[w].(state := Draining)];
              toDrain := toDrain + [w];
            }
          }
        } else if s.worker.None? {
          if !SlotFailed(c, s) {
            toBoot := toBoot + [i + 1];
          }
        }
        SortOne(c, p, n, i, marked, slotsBefore, workersBefore, slots, workers);
      }
      AllSorted(c, p, n, marked, slots, workers);
    }

    /** Shutdown's marking (846-859). */
    method MarkRemaining() returns (remaining: seq<Ref>)
      requires Valid()
      modifies this`slots, this`workers
      ensures View() == MarkAll(old(View())) && remaining == Remaining(old(slots))
    {
      hide MarkedSlots, MarkedWorkers, Remaining;
      remaining := [];
      ghost var p := View();
      NoneRemaining(p.slots);
      for i := 0 to |slots|
        invariant CoreOk(p) && |slots| == |p.slots| && |workers| == |p.workers|
        invariant idle == p.idle && desired == p.desired && stopping == p.stopping
        invariant forall k :: 0 <= k < |slots| ==> slots[k] == if k < i then MarkedSlot(p.slots[k]) else p.slots[k]
        invariant forall r :: 0 <= r < |workers| ==>
                    workers[r] == if p.workers[r].slot <= i then MarkedWorker(p, r) else p.workers[r]
        invariant remaining == Remaining(p.slots[..i])
      {
        RemainingSnoc(p.slots, i);
        assert Installable(p, i + 1, p.slots[i].worker);
        if slots[i].worker.None? {
          continue;
        }
        var w := slots[i].worker.value;
        slots := slots[i := slots[i].(planned := true)];
        var st := workers[w].state;
        if st != Draining && st != Dead && st != Stopped {
          workers := workers[w := workers[w].(state := Draining)];
        }
        remaining := remaining + [w];
      }
      assert p.slots[..|slots|] == p.slots;
      AllMarked(p, slots, workers);
    }

    /** Snapshot (783-813). */
    method TakeSnapshot() returns (snap: Snapshot)
      requires Valid()
      ensures snap == SnapshotOf(c, View(), |slots|)
    {
      snap := NO_WORKERS;
      for i := 0 to |slots|
        invariant snap == SnapshotOf(c, View(), i)
      {
        var s := slots[i];
        assert Installable(View(), i + 1, s.worker);
        if s.retired && s.worker.None? {
          continue;
        }
        if s.worker.None? {
          if SlotFailed(c, s) {
            snap := snap.(failed := snap.failed + 1);
          } else if i + 1 <= desired {
            snap := snap.(starting := snap.starting + 1);
          }
          continue;
        }
        match workers[s.worker.value].state {
          case Idle => snap := snap.(idle := snap.idle + 1, running := snap.running + 1);
          case Busy => snap := snap.(busy := snap.busy + 1, running := snap.running + 1);
          case Starting => snap := snap.(starting := snap.starting + 1);
          case Draining => snap := snap.(draining := snap.draining + 1, running := snap.running + 1);
          case Failed => snap := snap.(failed := snap.failed + 1);
          case _ => snap := snap.(running := snap.running + 1);
        }
      }
    }
  }
}
