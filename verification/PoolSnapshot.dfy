/** The counters of Pool.Snapshot (internal/worker/pool.go:771-814) and what they always add up to. */
module PoolSnapshot {
  import opened Basics
  import opened PoolModel
  import opened PoolMachine
  import opened PoolSizing
  import opened PoolRuns

  datatype Snapshot = Snapshot(running: nat, idle: nat, busy: nat, starting: nat, failed: nat, draining: nat)

  const NO_WORKERS := Snapshot(0, 0, 0, 0, 0, 0)

  /** How one slot enters the counters. */
  function Count(c: Config, p: Core, i: nat, n: Snapshot): Snapshot
    requires CoreOk(p) && i < |p.slots|
  {
    var sl := p.slots[i];
    if sl.worker.None? then
      if sl.retired then n
      else if SlotFailed(c, sl) then n.(failed := n.failed + 1)
      else if i + 1 <= p.desired then n.(starting := n.starting + 1)
      else n
    else
      assert Installable(p, i + 1, sl.worker);
      match p.workers[sl.worker.value].state
      case Idle => n.(idle := n.idle + 1, running := n.running + 1)
      case Busy => n.(busy := n.busy + 1, running := n.running + 1)
      case Starting => n.(starting := n.starting + 1)
      case Draining => n.(draining := n.draining + 1, running := n.running + 1)
      case Failed => n.(failed := n.failed + 1)
      case _ => n.(running := n.running + 1)
  }

  function SnapshotOf(c: Config, p: Core, upTo: nat): Snapshot
    requires CoreOk(p) && upTo <= |p.slots|
  {
    if upTo == 0 then NO_WORKERS else Count(c, p, upTo - 1, SnapshotOf(c, p, upTo - 1))
  }

  /** The state of the worker in a slot. */
  ghost function StateIn(p: Core, i: nat): Option<WorkerState>
    requires CoreOk(p) && i < |p.slots|
  {
    if p.slots[i].worker.None? then None
    else
      assert Installable(p, i + 1, p.slots[i].worker);
      Some(p.workers[p.slots[i].worker.value].state)
  }

  /** The slots whose worker is in a given state. */
  ghost function SlotsIn(p: Core, upTo: nat, st: WorkerState): set<nat>
    requires CoreOk(p) && upTo <= |p.slots|
  {
    set i: nat | i < upTo && StateIn(p, i) == Some(st)
  }

  /** The empty slots in service that have exceeded their crash limit, or have not. */
  ghost function EmptySlots(c: Config, p: Core, upTo: nat, failed: bool): set<nat>
    requires CoreOk(p) && upTo <= |p.slots|
  {
    set i: nat | i < upTo && p.slots[i].worker.None? && !OutOfService(p, i + 1) && SlotFailed(c, p.slots[i]) == failed
  }

  /** One more slot, in one more set or none. */
  ghost predicate Extends(s: set<nat>, s': set<nat>, i: nat, more: bool) {
    i !in s && s' == if more then s + {i} else s
  }

  lemma OneMore(s: set<nat>, s': set<nat>, i: nat, more: bool)
    requires Extends(s, s', i, more)
    ensures |s'| == |s| + if more then 1 else 0
  {
  }

  lemma SlotsGrow(p: Core, i: nat, st: WorkerState)
    requires CoreOk(p) && i < |p.slots|
    ensures |SlotsIn(p, i + 1, st)| == |SlotsIn(p, i, st)| + if StateIn(p, i) == Some(st) then 1 else 0
  {
    hide StateIn, CoreOk;
    OneMore(SlotsIn(p, i, st), SlotsIn(p, i + 1, st), i, StateIn(p, i) == Some(st));
  }

  lemma EmptyGrow(c: Config, p: Core, i: nat, failed: bool)
    requires CoreOk(p) && i < |p.slots|
    ensures |EmptySlots(c, p, i + 1, failed)| == |EmptySlots(c, p, i, failed)| +
              if p.slots[i].worker.None? && !OutOfService(p, i + 1) && SlotFailed(c, p.slots[i]) == failed then 1 else 0
  {
    hide SlotFailed, CoreOk;
    OneMore(EmptySlots(c, p, i, failed), EmptySlots(c, p, i + 1, failed), i,
            p.slots[i].worker.None? && !OutOfService(p, i + 1) && SlotFailed(c, p.slots[i]) == failed);
  }

  /** What each counter counts. */
  ghost predicate Tallies(c: Config, p: Core, upTo: nat, n: Snapshot)
    requires CoreOk(p) && upTo <= |p.slots|
  {
    && n.idle == |SlotsIn(p, upTo, Idle)|
    && n.busy == |SlotsIn(p, upTo, Busy)|
    && n.draining == |SlotsIn(p, upTo, Draining)|
    && n.starting == |SlotsIn(p, upTo, Starting)| + |EmptySlots(c, p, upTo, false)|
    && n.failed == |SlotsIn(p, upTo, Failed)| + |EmptySlots(c, p, upTo, true)|
    && n.running == n.idle + n.busy + n.draining + |SlotsIn(p, upTo, Dead)| + |SlotsIn(p, upTo, Stopped)|
  }

  lemma CountTallies(c: Config, p: Core, i: nat, n: Snapshot)
    requires CoreOk(p) && Sized(c, p) && i < |p.slots| && Tallies(c, p, i, n)
    ensures Tallies(c, p, i + 1, Count(c, p, i, n))
  {
    hide SlotFailed, SlotsIn, EmptySlots, CoreOk;
    assert p.slots[i].retired <==> i + 1 > p.desired;
    hide Sized;
    SlotsGrow(p, i, Idle);
    SlotsGrow(p, i, Busy);
    SlotsGrow(p, i, Draining);
    SlotsGrow(p, i, Starting);
    SlotsGrow(p, i, Failed);
    SlotsGrow(p, i, Dead);
    SlotsGrow(p, i, Stopped);
    EmptyGrow(c, p, i, true);
    EmptyGrow(c, p, i, false);
  }

  lemma NothingTallied(c: Config, p: Core)
    requires CoreOk(p)
    ensures Tallies(c, p, 0, NO_WORKERS)
  {
    assert forall st :: SlotsIn(p, 0, st) == {};
    assert forall failed :: EmptySlots(c, p, 0, failed) == {};
  }

  lemma {:induction false} SnapshotCounts(c: Config, p: Core, upTo: nat)
    requires CoreOk(p) && Sized(c, p) && upTo <= |p.slots|
    ensures Tallies(c, p, upTo, SnapshotOf(c, p, upTo))
  {
    hide Tallies, Count, CoreOk, Sized;
    if upTo > 0 {
      SnapshotCounts(c, p, upTo - 1);
      CountTallies(c, p, upTo - 1, SnapshotOf(c, p, upTo - 1));
    } else {
      NothingTallied(c, p);
    }
  }

  /** Retired slots among the first upTo that still have a worker. */
  function RetiredOccupied(p: Core, upTo: nat): nat
    requires upTo <= |p.slots|
  {
    if upTo == 0 then 0
    else RetiredOccupied(p, upTo - 1) +
         (if p.slots[upTo - 1].retired && p.slots[upTo - 1].worker.Some? then 1 else 0)
  }

  lemma {:induction false} SnapshotAddsUpTo(c: Config, p: Core, upTo: nat)
    requires CoreOk(p) && Sized(c, p) && upTo <= |p.slots|
    ensures var n := SnapshotOf(c, p, upTo);
            && n.running + n.starting + n.failed == Min(upTo, p.desired) + RetiredOccupied(p, upTo)
            && n.idle + n.busy + n.draining <= n.running
  {
    if upTo > 0 {
      SnapshotAddsUpTo(c, p, upTo - 1);
      assert p.slots[upTo - 1].retired <==> upTo > p.desired;
    }
  }

  /** Every desired slot is counted once - running, starting or failed - and so is every retired one still occupied. */
  lemma SnapshotConserves(c: Config, states: seq<State>, events: seq<Event>, k: nat)
    requires Run(c, states, events) && k < |states|
    ensures CoreOk(states[k].core)
    ensures var p := states[k].core;
            var n := SnapshotOf(c, p, |p.slots|);
            && n.running + n.starting + n.failed == p.desired + RetiredOccupied(p, |p.slots|)
            && n.idle + n.busy + n.draining <= n.running
            && Tallies(c, p, |p.slots|, n)
  {
    RunInv(c, states, events, k);
    SnapshotCounts(c, states[k].core, |states[k].core.slots|);
    SnapshotAddsUpTo(c, states[k].core, |states[k].core.slots|);
  }
}
