/** What SetDesired (internal/worker/pool.go:464-536) and Shutdown's marking (846-859) do, slot by slot. */
module RescaleMeaning {
  import opened Basics
  import opened PoolModel

  /** The size asked for, moved into the pool's bounds. */
  lemma TargetIsBounded(c: Config, target: int)
    requires c.minWorkers <= c.maxWorkers && 0 < c.maxWorkers
    ensures c.minWorkers <= ClampTarget(c, target) <= c.maxWorkers
    ensures c.minWorkers <= target <= c.maxWorkers ==> ClampTarget(c, target) == target
    ensures target < c.minWorkers ==> ClampTarget(c, target) == c.minWorkers
    ensures c.maxWorkers < target ==> ClampTarget(c, target) == c.maxWorkers
  {
  }

  /** w is installed above the new size and is to go: a busy HTTP worker finishes first, a leaving one is left alone. */
  ghost predicate ToGo(c: Config, p: Core, n: int, w: Ref)
    requires CoreOk(p)
  {
    && ValidRef(p, w) && Current(p, w) && p.workers[w].slot > n
    && var st := p.workers[w].state;
       st == Idle || st == Starting || st == WorkerState.Failed || (st == Busy && !c.http)
  }

  /** Slot i is within the new size, holds no worker and has not crashed out. */
  predicate ToFill(c: Config, p: Core, n: int, i: nat) {
    && 1 <= i <= n
    && (i <= |p.slots| ==>
          && p.slots[i - 1].worker.None?
          && (c.restartLimit <= 0 || |p.slots[i - 1].recent| <= c.restartLimit))
  }

  lemma DrainedIsToGo(c: Config, p: Core, n: int, w: Ref)
    requires CoreOk(p) && ValidRef(p, w)
    ensures Current(p, w) && Drained(c, p, n, p.workers[w].slot - 1) <==> ToGo(c, p, n, w)
  {
  }

  lemma SlotIsValid(p: Core, w: Ref)
    requires CoreOk(p) && ValidRef(p, w)
    ensures 1 <= p.workers[w].slot <= |p.slots|
  {
  }

  lemma {:induction false} DrainListComplete(c: Config, p: Core, n: int, upTo: nat, i: nat)
    requires CoreOk(p) && i < upTo <= |p.slots| && Drained(c, p, n, i)
    ensures p.slots[i].worker.value in DrainList(c, p, n, upTo)
  {
    if i < upTo - 1 {
      DrainListComplete(c, p, n, upTo - 1, i);
    }
  }

  /** SetDesired sends away exactly the workers that are to go. */
  lemma SentAwayExactly(c: Config, p: Core, target: int, w: Ref)
    requires CoreOk(p)
    ensures w in ToDrain(c, p, target) <==> ToGo(c, p, ClampTarget(c, target), w)
  {
    hide ClampTarget, CoreOk;
    var n, list := ClampTarget(c, target), ToDrain(c, p, target);
    if w in list {
      var k :| 0 <= k < |list| && list[k] == w;
      DrainListSound(c, p, n, |p.slots|, k);
      DrainedIsToGo(c, p, n, w);
    }
    if ToGo(c, p, n, w) {
      DrainedIsToGo(c, p, n, w);
      SlotIsValid(p, w);
      DrainListComplete(c, p, n, |p.slots|, p.workers[w].slot - 1);
    }
  }

  lemma {:induction false} BootListComplete(c: Config, slots: seq<Slot>, n: int, upTo: nat, i: nat)
    requires 1 <= i <= upTo <= |slots| && i <= n && Bootable(c, slots[i - 1])
    ensures i in BootList(c, slots, n, upTo)
  {
    if i < upTo {
      BootListComplete(c, slots, n, upTo - 1, i);
    }
  }

  lemma BootableIsToFill(c: Config, p: Core, n: int, i: nat)
    requires CoreOk(p)
    ensures 1 <= i <= |ResizedSlots(c, p, n)| && i <= n && Bootable(c, ResizedSlots(c, p, n)[i - 1]) <==>
            ToFill(c, p, n, i)
  {
    hide ResizedSlots;
  }

  /** And it boots exactly the slots that are to be filled. */
  lemma BootedExactly(c: Config, p: Core, target: int, i: nat)
    requires CoreOk(p)
    ensures i in ToBoot(c, p, target) <==> ToFill(c, p, ClampTarget(c, target), i)
  {
    hide ClampTarget, CoreOk, ResizedSlots, Bootable;
    var n, list := ClampTarget(c, target), ToBoot(c, p, target);
    BootableIsToFill(c, p, n, i);
    if i in list {
      var k :| 0 <= k < |list| && list[k] == i;
      BootListSound(c, ResizedSlots(c, p, n), n, |ResizedSlots(c, p, n)|, k);
    }
    if ToFill(c, p, n, i) {
      BootListComplete(c, ResizedSlots(c, p, n), n, |ResizedSlots(c, p, n)|, i);
    }
  }

  /** Each slot is booted once, lowest first. */
  lemma {:induction false} BootsAscend(c: Config, slots: seq<Slot>, n: int, upTo: nat, j: nat, k: nat)
    requires upTo <= |slots| && j < k < |BootList(c, slots, n, upTo)|
    ensures BootList(c, slots, n, upTo)[j] < BootList(c, slots, n, upTo)[k]
  {
    var front := BootList(c, slots, n, upTo - 1);
    BootListSound(c, slots, n, upTo, k);
    if k < |front| {
      BootsAscend(c, slots, n, upTo - 1, j, k);
    } else {
      BootListSound(c, slots, n, upTo - 1, j);
    }
  }

  /** No worker is sent away twice: they go slot by slot. */
  lemma {:induction false} DrainsAscend(c: Config, p: Core, n: int, upTo: nat, j: nat, k: nat)
    requires CoreOk(p) && upTo <= |p.slots| && j < k < |DrainList(c, p, n, upTo)|
    ensures var list := DrainList(c, p, n, upTo);
            ValidRef(p, list[j]) && ValidRef(p, list[k]) && p.workers[list[j]].slot < p.workers[list[k]].slot
  {
    var front := DrainList(c, p, n, upTo - 1);
    DrainListSound(c, p, n, upTo, j);
    DrainListSound(c, p, n, upTo, k);
    if k < |front| {
      DrainsAscend(c, p, n, upTo - 1, j, k);
    } else {
      DrainListSound(c, p, n, upTo - 1, j);
      assert Installable(p, upTo - 1 + 1, p.slots[upTo - 1].worker);
    }
  }

  /**
   The pool after a rescale: the new size; slots up to it, in service exactly up to it; the slots of the workers that go
   planned, and those workers draining. Nothing else changes.
   */
  lemma ResizedExactly(c: Config, p: Core, target: int)
    requires CoreOk(p)
    ensures var n, q := ClampTarget(c, target), Resize(c, p, target);
            && q.desired == n && q.idle == p.idle && q.stopping == p.stopping
            && |q.slots| == Max(|p.slots|, n) && |q.workers| == |p.workers|
            && (forall i :: 0 <= i < |p.slots| ==>
                  && q.slots[i].(planned := p.slots[i].planned) == p.slots[i].(retired := i + 1 > n)
                  && (q.slots[i].planned <==>
                        p.slots[i].planned
                        || (p.slots[i].worker.Some? && ToGo(c, p, n, p.slots[i].worker.value))))
            && (forall i :: |p.slots| <= i < |q.slots| ==> q.slots[i] == FRESH_SLOT)
            && (forall r :: 0 <= r < |p.workers| ==>
                  q.workers[r] == if ToGo(c, p, n, r) then p.workers[r].(state := Draining) else p.workers[r])
  {
    hide ClampTarget, ToGo;
    var n, q := ClampTarget(c, target), Resize(c, p, target);
    forall i | 0 <= i < |p.slots|
      ensures q.slots[i].(planned := p.slots[i].planned) == p.slots[i].(retired := i + 1 > n)
      ensures q.slots[i].planned <==>
              p.slots[i].planned || (p.slots[i].worker.Some? && ToGo(c, p, n, p.slots[i].worker.value))
    {
      assert Installable(p, i + 1, p.slots[i].worker);
      if p.slots[i].worker.Some? {
        DrainedIsToGo(c, p, n, p.slots[i].worker.value);
      }
    }
    forall r | 0 <= r < |p.workers|
      ensures q.workers[r] == if ToGo(c, p, n, r) then p.workers[r].(state := Draining) else p.workers[r]
    {
      DrainedIsToGo(c, p, n, r);
    }
  }

  /** A rescale that is skipped on a running pool would have changed neither its size nor booted anything. */
  lemma SkippedExactly(c: Config, p: Core, target: int)
    requires CoreOk(p) && !p.stopping
    requires forall i :: 0 <= i < |p.slots| ==> (p.slots[i].retired <==> i + 1 > p.desired)
    ensures NothingToResize(c, p, target) <==>
            ClampTarget(c, target) == p.desired && |p.slots| >= p.desired && ToBoot(c, p, target) == []
  {
    hide ClampTarget, CoreOk;
    var n := ClampTarget(c, target);
    if n == p.desired && |p.slots| >= n {
      var list := ToBoot(c, p, target);
      if list != [] {
        assert list[0] in list;
        BootedExactly(c, p, target, list[0]);
        assert NeedsBoot(c, p.slots, n) by { FillableNeedsBoot(c, p, n, list[0]); }
      }
      if NeedsBoot(c, p.slots, n) {
        var i :| 0 <= i < |p.slots| && i + 1 <= n && !p.slots[i].retired && Bootable(c, p.slots[i]);
        BootedExactly(c, p, target, i + 1);
      }
    }
  }

  lemma FillableNeedsBoot(c: Config, p: Core, n: int, i: nat)
    requires ToFill(c, p, n, i) && i <= |p.slots| && !p.slots[i - 1].retired
    ensures NeedsBoot(c, p.slots, n)
  {
    assert Bootable(c, p.slots[i - 1]);
  }

  /** Shutdown's marking: whoever is installed and not yet leaving drains, and every occupied slot expects its exit. */
  lemma MarkedExactly(p: Core)
    requires CoreOk(p)
    ensures var q := MarkAll(p);
            && q == p.(slots := q.slots, workers := q.workers)
            && |q.slots| == |p.slots| && |q.workers| == |p.workers|
            && (forall i :: 0 <= i < |p.slots| ==>
                  q.slots[i] == p.slots[i].(planned := p.slots[i].planned || p.slots[i].worker.Some?))
            && (forall r :: 0 <= r < |p.workers| ==>
                  var st := p.workers[r].state;
                  q.workers[r] == p.workers[r].(
                    state := if Current(p, r) && st != Dead && st != Stopped then Draining else st))
  {
  }
}
