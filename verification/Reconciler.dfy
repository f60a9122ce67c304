/**
 The control loop (internal/reconciler/reconciler.go) over the pools of internal/worker/manager.go: strategy,
 hysteresis and pool agree on the size of every workload after every pass.
 */
module Reconciler {
  import opened Basics
  import opened PoolModel
  import opened PoolSnapshot
  import opened WorkerPool
  import opened Strategy
  import opened ScaleHysteresis

  datatype Workload = Workload(name: string, http: bool, spec: Spec, policy: Policy)

  /** What workload resolution guarantees (internal/workload/resolve.go:87-92), and a pool that may have workers. */
  ghost predicate Resolved(w: Workload) {
    0 <= w.spec.min <= w.spec.max && 0 < w.spec.max
  }

  const FORGOTTEN := Memory(None, None, None)

  class Manager {
    const template: Config
    var pools: map<string, Pool>

    constructor (template: Config)
      ensures pools == map[]
    {
      this.template := template;
      pools := map[];
    }

    /** Ensure (36-88). */
    method Ensure(w: Workload) returns (p: Pool)
      requires Resolved(w)
      modifies this
      ensures pools == old(pools)[w.name := p]
      ensures w.name in old(pools) ==> p == old(pools)[w.name]
      ensures w.name !in old(pools) ==>
                && fresh(p) && !p.stopping && p.desired == w.spec.min && p.slots == []
                && SizedFor(p, w) && Agree(p, FORGOTTEN)
                && p.c == template.(minWorkers := w.spec.min, maxWorkers := w.spec.max, idleCap := w.spec.max,
                                    http := w.http,
                                    memoryLimitMB := if w.spec.memoryMB > 0 then w.spec.memoryMB
                                                     else template.memoryLimitMB)
    {
      if w.name in pools {
        p := pools[w.name];
        assert pools == pools[w.name := p];
        return;
      }
      var desired := w.spec.min;
      if desired == 0 && w.spec.strategy == Fixed && w.spec.max > 0 && w.spec.min == w.spec.max {
        desired := w.spec.max;
      }
      if w.spec.strategy == Fixed && w.spec.min == w.spec.max {
        desired := w.spec.max;
      }
      if desired < w.spec.min {
        desired := w.spec.min;
      }
      var config := template.(http := w.http);
      if w.spec.memoryMB > 0 {
        config := config.(memoryLimitMB := w.spec.memoryMB);
      }
      p := new Pool(config, desired, w.spec.min, w.spec.max);
      pools := pools[w.name := p];
    }

    /** Remove (150-161), which also shuts the pool down. */
    method Remove(name: string)
      requires name in pools ==> pools[name].Valid()
      modifies this, if name in pools then {pools[name]} else {}
      ensures pools == old(pools) - {name}
      ensures name in old(pools) ==>
                var p := old(pools)[name];
                p.Valid() && p.stopping && p.View() == old(pools[name].View()).(stopping := true)
    {
      if name in pools {
        var p := pools[name];
        pools := pools - {name};
        p.Stop();
      }
    }
  }

  ghost predicate WithinBounds(p: Pool)
    reads p
  {
    0 <= p.c.minWorkers <= p.desired <= p.c.maxWorkers && 0 < p.c.maxWorkers
  }

  lemma {:induction false} RunningFitSlots(c: Config, p: Core, upTo: nat)
    requires CoreOk(p) && upTo <= |p.slots|
    ensures SnapshotOf(c, p, upTo).running <= upTo
  {
    if upTo > 0 {
      RunningFitSlots(c, p, upTo - 1);
    }
  }

  /** The answer stays within bounds that hold the demand and the previous answer. */
  lemma AnswerFits(policy: Policy, m: Memory, call: Call, min: int, max: int)
    requires min <= call.demand <= max && min <= Before(m, call) <= max
    ensures min <= Decide(policy, m, call).last.value <= max
    ensures min == max ==> Decide(policy, m, call).last.value == min
  {
  }

  /** Within its bounds a pool takes any new size, unless it is stopping. */
  lemma ResizeObeys(c: Config, p: Core, target: int)
    requires CoreOk(p) && 0 < c.maxWorkers && c.minWorkers <= target <= c.maxWorkers
    ensures p.stopping ==> NothingToResize(c, p, target)
    ensures !p.stopping && target != p.desired ==> !NothingToResize(c, p, target)
    ensures var q := Resize(c, p, target); CoreOk(q) && q.desired == target && q.stopping == p.stopping
  {
  }

  /** The pool of a workload is as large as its hysteresis remembers, within the bounds of the workload. */
  ghost predicate Agree(p: Pool, m: Memory)
    reads p
  {
    && p.Valid() && WithinBounds(p)
    && match m.last
       case Some(last) => p.c.minWorkers <= last <= p.c.maxWorkers && (p.stopping || last == p.desired)
       case None => |p.slots| <= p.desired
  }

  lemma AgreeingIsValid(p: Pool, m: Memory)
    requires Agree(p, m)
    ensures p.Valid()
  {
  }

  /** The size the hysteresis compares a first demand with (hysteresis.go:40-43). */
  ghost function SizeOf(p: Pool): int
    requires p.Valid()
    reads p
  {
    if p.desired == 0 then SnapshotOf(p.c, p.View(), |p.slots|).running else p.desired
  }

  lemma NewPoolSize(p: Pool, w: Workload)
    requires p.Valid() && p.slots == [] && p.desired == w.spec.min
    ensures SizeOf(p) == w.spec.min
  {
  }

  ghost predicate SizedFor(p: Pool, w: Workload) {
    Resolved(w) && p.c.minWorkers == w.spec.min && p.c.maxWorkers == w.spec.max
  }

  /** Lines 72-100: ask the strategy, damp its answer, resize the pool. */
  method Settle(w: Workload, pool: Pool, h: Hysteresis, depth: Option<int>, runtime: Runtime, now: int)
    requires SizedFor(pool, w) && Agree(pool, h.Remembered(w.name))
    modifies pool, h
    ensures Agree(pool, h.Remembered(w.name)) && h.Remembered(w.name).last.Some?
    ensures pool.stopping == old(pool.stopping)
    ensures h.Remembered(w.name) == Decide(w.policy, old(h.Remembered(w.name)),
                                           Call(Demand(w.spec, depth, runtime), old(SizeOf(pool)), now))
    ensures w.spec.min == w.spec.max ==> pool.View() == old(pool.View())
  {
    hide Demand, Decide, SnapshotOf, NothingToResize, Resize, ToDrain, ToBoot, CoreOk;
    var snap := pool.TakeSnapshot();
    RunningFitSlots(pool.c, pool.View(), |pool.slots|);
    var demand := Demand(w.spec, depth, runtime);
    DemandInRange(w.spec, depth, runtime);
    ghost var call := Call(demand, SizeOf(pool), now);
    AnswerFits(w.policy, h.Remembered(w.name), call, w.spec.min, w.spec.max);
    var target := h.DesiredWorkers(w.name, w.policy, demand, pool.desired, snap.running, now);
    if target != pool.desired {
      ResizeObeys(pool.c, pool.View(), target);
      var toDrain, toBoot := pool.SetDesired(target);
    }
  }

  class Reconciler {
    const manager: Manager
    var hysteresis: map<string, Hysteresis>

    constructor (manager: Manager)
      ensures this.manager == manager && hysteresis == map[]
    {
      this.manager := manager;
      hysteresis := map[];
    }

    /** Pools and hysteresis objects belong to one workload each. */
    ghost predicate Separate()
      reads this, manager
    {
      && hysteresis.Keys <= manager.pools.Keys
      && (forall a, b :: a in manager.pools && b in manager.pools && a != b ==> manager.pools[a] != manager.pools[b])
      && (forall a, b :: a in hysteresis && b in hysteresis && a != b ==> hysteresis[a] != hysteresis[b])
    }

    ghost function MemoryOf(name: string): Memory
      reads this, hysteresis.Values
    {
      if name in hysteresis then hysteresis[name].Remembered(name) else FORGOTTEN
    }

    ghost predicate Valid()
      reads this, manager, manager.pools.Values, hysteresis.Values
    {
      Separate() && forall name :: name in manager.pools ==> Agree(manager.pools[name], MemoryOf(name))
    }

    /** The size a decision for w starts from; a pool yet to be made starts at the minimum. */
    ghost function CurrentSize(w: Workload): int
      reads this, manager, manager.pools.Values
    {
      if w.name in manager.pools && manager.pools[w.name].Valid() then SizeOf(manager.pools[w.name]) else w.spec.min
    }

    /** The specs of existing workloads have not changed. */
    ghost predicate Known(w: Workload)
      reads manager
    {
      Resolved(w) && (w.name in manager.pools ==> SizedFor(manager.pools[w.name], w))
    }

    /** Lines 83-89. */
    method FindHysteresis(name: string) returns (h: Hysteresis)
      modifies this
      ensures hysteresis == old(hysteresis)[name := h]
      ensures name in old(hysteresis) ==> h == old(hysteresis)[name]
      ensures name !in old(hysteresis) ==> fresh(h) && h.Remembered(name) == FORGOTTEN
    {
      if name in hysteresis {
        h := hysteresis[name];
        assert hysteresis == hysteresis[name := h];
      } else {
        h := new Hysteresis();
        hysteresis := hysteresis[name := h];
      }
    }

    /** Line 66: the pool of a workload, made when missing, is as large as a decision takes it to be. */
    method ObtainPool(w: Workload) returns (pool: Pool)
      requires Valid() && Known(w)
      modifies manager
      ensures SizedFor(pool, w) && manager.pools == old(manager.pools)[w.name := pool]
      ensures if w.name in old(manager.pools) then pool == old(manager.pools)[w.name] else fresh(pool)
      ensures Agree(pool, MemoryOf(w.name))
      ensures pool.Valid() && SizeOf(pool) == old(CurrentSize(w))
    {
      hide Agree, SizedFor, Hysteresis.Remembered, Pool.View, SizeOf;
      if w.name in manager.pools {
        AgreeingIsValid(manager.pools[w.name], MemoryOf(w.name));
      }
      pool := manager.Ensure(w);
      if w.name !in old(manager.pools) {
        AgreeingIsValid(pool, FORGOTTEN);
        NewPoolSize(pool, w);
      }
    }

    /** Lines 66 and 82-89: the pool and the hysteresis of a workload, made when missing. */
    method Obtain(w: Workload) returns (pool: Pool, h: Hysteresis)
      requires Valid() && Known(w)
      modifies this, manager
      ensures Valid() && SizedFor(pool, w)
      ensures manager.pools == old(manager.pools)[w.name := pool]
      ensures hysteresis == old(hysteresis)[w.name := h]
      ensures if w.name in old(manager.pools) then pool == old(manager.pools)[w.name] else fresh(pool)
      ensures if w.name in old(hysteresis) then h == old(hysteresis)[w.name] else fresh(h)
      ensures forall a :: MemoryOf(a) == old(MemoryOf(a))
      ensures pool.Valid() && SizeOf(pool) == old(CurrentSize(w))
    {
      hide Agree, SizedFor, Hysteresis.Remembered, Pool.View, SizeOf;
      pool := ObtainPool(w);
      h := FindHysteresis(w.name);
      forall a | a in manager.pools ensures Agree(manager.pools[a], MemoryOf(a)) {
        assert a in old(manager.pools) ==> old(Agree(manager.pools[a], MemoryOf(a)));
      }
    }

    /** One turn of the first loop (64-101): depth is the backlog reported for the workload, now the clock. */
    method ReconcileWorkload(w: Workload, depth: Option<int>, runtime: Runtime, now: int)
      requires Valid() && Known(w)
      modifies this, manager
      modifies if w.name in manager.pools then {manager.pools[w.name]} else {}
      modifies if w.name in hysteresis then {hysteresis[w.name]} else {}
      ensures Valid() && Known(w) && w.name in manager.pools && w.name in hysteresis
      ensures manager.pools == old(manager.pools)[w.name := manager.pools[w.name]]
      ensures hysteresis == old(hysteresis)[w.name := hysteresis[w.name]]
      ensures if w.name in old(manager.pools) then manager.pools[w.name] == old(manager.pools)[w.name]
              else fresh(manager.pools[w.name])
      ensures if w.name in old(hysteresis) then hysteresis[w.name] == old(hysteresis)[w.name]
              else fresh(hysteresis[w.name])
      ensures MemoryOf(w.name) == Decide(w.policy, old(MemoryOf(w.name)),
                                         Call(Demand(w.spec, depth, runtime), old(CurrentSize(w)), now))
      ensures forall a :: a != w.name ==> MemoryOf(a) == old(MemoryOf(a))
      ensures forall v: Workload :: v.name != w.name ==> CurrentSize(v) == old(CurrentSize(v))
      ensures w.spec.min == w.spec.max && w.name in old(manager.pools) ==>
                manager.pools[w.name].View() == old(manager.pools[w.name].View())
    {
      hide Demand, Decide, CoreOk, Agree, SizedFor, Hysteresis.Remembered, Pool.View, SizeOf;
      var pool, h := Obtain(w);
      label obtained:
      assert Agree(manager.pools[w.name], MemoryOf(w.name));
      Settle(w, pool, h, depth, runtime, now);
      forall a | a in manager.pools ensures Agree(manager.pools[a], MemoryOf(a)) {
        assert old@obtained(Agree(manager.pools[a], MemoryOf(a)));
        assert a != w.name ==> manager.pools[a] != pool && MemoryOf(a) == old@obtained(MemoryOf(a));
      }
    }

    /** The second loop (103-111): pools that are no longer wanted are stopped and forgotten. */
    method RemoveUnseen(seen: set<string>)
      requires Valid() && seen <= manager.pools.Keys
      modifies this, manager, manager.pools.Values
      ensures Valid() && manager.pools.Keys == seen
      ensures forall a :: a in seen ==>
                manager.pools[a] == old(manager.pools[a]) && MemoryOf(a) == old(MemoryOf(a))
      ensures forall a :: a in old(manager.pools) && a !in seen ==> old(manager.pools)[a].stopping
    {

      hide Agree, Hysteresis.Remembered, CoreOk, Pool.View, Pool.Valid, WithinBounds, MemoryOf;
      var left := manager.pools.Keys - seen;
      ghost var all := manager.pools;
      ghost var memories := map a | a in all :: MemoryOf(a);
      while left != {}
        invariant Valid() && left <= all.Keys
        invariant forall a :: a in manager.pools <==> a in seen || a in left
        invariant forall a :: a in left ==> a !in seen
        invariant forall a :: a in manager.pools ==> manager.pools[a] == all[a]
        invariant forall a :: a in manager.pools ==> MemoryOf(a) == memories[a]
        invariant forall a :: a in all && a !in manager.pools ==> all[a].stopping
        decreases |left|
      {
        var name :| name in left;
        RemovePool(name);
        left := left - {name};
      }
    }

    method RemovePool(name: string)
      requires Valid() && name in manager.pools
      modifies this, manager, manager.pools[name]
      ensures Valid() && manager.pools == old(manager.pools) - {name}
      ensures old(manager.pools[name]).stopping
      ensures forall a :: a in manager.pools ==> MemoryOf(a) == old(MemoryOf(a))
    {
      hide Agree, Hysteresis.Remembered, CoreOk, Pool.View, Pool.Valid, WithinBounds;
      AgreeingIsValid(manager.pools[name], MemoryOf(name));
      manager.Remove(name);
      hysteresis := hysteresis - {name};
      forall a | a in manager.pools ensures Agree(manager.pools[a], MemoryOf(a)) {
        assert old(Agree(manager.pools[a], MemoryOf(a)));
      }
    }

    /** The last decision for w was made on this call, on top of the memory m. */
    ghost predicate Decided(w: Workload, m: Memory, call: Call)
      reads this, manager, hysteresis.Values
    {
      && w.name in manager.pools && w.name in hysteresis && Known(w)
      && MemoryOf(w.name) == Decide(w.policy, m, call)
    }

    ghost function MemoriesOf(workloads: seq<Workload>): (memories: seq<Memory>)
      reads this, hysteresis.Values
      ensures |memories| == |workloads|
      ensures forall i :: 0 <= i < |workloads| ==> memories[i] == MemoryOf(workloads[i].name)
    {
      if workloads == [] then [] else [MemoryOf(workloads[0].name)] + MemoriesOf(workloads[1..])
    }

    /** What a pass asks for every workload now. */
    ghost function CallsFor(
      workloads: seq<Workload>, depths: string -> Option<int>, runtime: Runtime, clock: seq<int>): (calls: seq<Call>)
      requires Valid() && |clock| == |workloads|
      reads this, manager, manager.pools.Values, hysteresis.Values
      ensures |calls| == |workloads|
      ensures forall i :: 0 <= i < |workloads| ==>
                calls[i] == Call(Demand(workloads[i].spec, depths(workloads[i].name), runtime),
                                 CurrentSize(workloads[i]), clock[i])
    {
      if workloads == [] then []
      else
        var w := workloads[0];
        [Call(Demand(w.spec, depths(w.name), runtime), CurrentSize(w), clock[0])]
        + CallsFor(workloads[1..], depths, runtime, clock[1..])
    }

    /** The first i workloads are decided on these calls, and nothing has changed for the others. */
    ghost predicate DoneUpTo(workloads: seq<Workload>, i: nat, memories: seq<Memory>, calls: seq<Call>)
      reads this, manager, manager.pools.Values, hysteresis.Values
    {
      && i <= |workloads| == |memories| == |calls|
      && (forall j :: 0 <= j < i ==> Decided(workloads[j], memories[j], calls[j]))
      && (forall j :: i <= j < |workloads| ==>
            && Known(workloads[j]) && MemoryOf(workloads[j].name) == memories[j]
            && CurrentSize(workloads[j]) == calls[j].current)
    }

    /** One more turn decides the next workload and leaves what is known and decided about the others. */
    twostate lemma OneMoreDone(
      new workloads: seq<Workload>, i: nat, new memories: seq<Memory>, new calls: seq<Call>, new w: Workload)
      requires i < |workloads| == |memories| == |calls| && w == workloads[i]
      requires old(DoneUpTo(workloads, i, memories, calls))
      requires forall j, k :: 0 <= j < k < |workloads| ==> workloads[j].name != workloads[k].name
      requires w.name in manager.pools && w.name in hysteresis && Known(w)
      requires manager.pools == old(manager.pools)[w.name := manager.pools[w.name]]
      requires hysteresis == old(hysteresis)[w.name := hysteresis[w.name]]
      requires MemoryOf(w.name) == Decide(w.policy, memories[i], calls[i])
      requires forall a :: a != w.name ==> MemoryOf(a) == old(MemoryOf(a))
      requires forall v: Workload :: v.name != w.name ==> CurrentSize(v) == old(CurrentSize(v))
      ensures DoneUpTo(workloads, i + 1, memories, calls)
    {
      hide Decide, SizedFor, MemoryOf, CurrentSize, Valid;
      forall j | 0 <= j < |workloads| && j != i ensures workloads[j].name != workloads[i].name {
        assert if j < i then workloads[j].name != workloads[i].name else workloads[i].name != workloads[j].name;
      }
    }

    method ReconcileNext(
      workloads: seq<Workload>, i: nat, depths: string -> Option<int>, runtime: Runtime, clock: seq<int>,
      ghost memories: seq<Memory>, ghost calls: seq<Call>)
      requires Valid() && i < |workloads| == |clock| == |memories| == |calls|
      requires forall j, k :: 0 <= j < k < |workloads| ==> workloads[j].name != workloads[k].name
      requires DoneUpTo(workloads, i, memories, calls)
      requires calls[i] == Call(Demand(workloads[i].spec, depths(workloads[i].name), runtime),
                                CurrentSize(workloads[i]), clock[i])
      modifies this, manager, manager.pools.Values, hysteresis.Values
      ensures Valid() && DoneUpTo(workloads, i + 1, memories, calls)
      ensures fresh(manager.pools.Values - old(manager.pools.Values))
      ensures fresh(hysteresis.Values - old(hysteresis.Values))
    {
      hide Demand, Decide, Valid, MemoryOf, Known, Decided, CurrentSize;
      var w := workloads[i];
      ReconcileWorkload(w, depths(w.name), runtime, clock[i]);
      OneMoreDone(workloads, i, memories, calls, w);
    }

    /** The first loop (64-101). */
    method ReconcileAll(
      workloads: seq<Workload>, depths: string -> Option<int>, runtime: Runtime, clock: seq<int>)
      requires Valid() && |clock| == |workloads|
      requires forall i :: 0 <= i < |workloads| ==> Known(workloads[i])
      requires forall i, j :: 0 <= i < j < |workloads| ==> workloads[i].name != workloads[j].name
      modifies this, manager, manager.pools.Values, hysteresis.Values
      ensures Valid()
      ensures fresh(manager.pools.Values - old(manager.pools.Values))
      ensures fresh(hysteresis.Values - old(hysteresis.Values))
      ensures forall i :: 0 <= i < |workloads| ==>
                Decided(workloads[i], old(MemoryOf(workloads[i].name)),
                        Call(Demand(workloads[i].spec, depths(workloads[i].name), runtime),
                             old(CurrentSize(workloads[i])), clock[i]))
    {
      hide Demand, Decide, Valid, MemoryOf, Known, Decided, CurrentSize, MemoriesOf, CallsFor;
      ghost var memories, calls := MemoriesOf(workloads), CallsFor(workloads, depths, runtime, clock);
      for i := 0 to |workloads|
        invariant Valid() && DoneUpTo(workloads, i, memories, calls)
        invariant fresh(manager.pools.Values - old(manager.pools.Values))
        invariant fresh(hysteresis.Values - old(hysteresis.Values))
      {
        ReconcileNext(workloads, i, depths, runtime, clock, memories, calls);
      }
    }

    /**
     ReconcileOnce (60-112): every workload gets a pool and one decision of its hysteresis, which its pool then
     agrees with; every other pool is gone.
     */
    method ReconcileOnce(
      workloads: seq<Workload>, depths: string -> Option<int>, runtime: Runtime, clock: seq<int>)
      requires Valid() && |clock| == |workloads|
      requires forall i :: 0 <= i < |workloads| ==> Known(workloads[i])
      requires forall i, j :: 0 <= i < j < |workloads| ==> workloads[i].name != workloads[j].name
      modifies this, manager, manager.pools.Values, hysteresis.Values
      ensures Valid()
      ensures manager.pools.Keys == set w | w in workloads :: w.name
      ensures forall i :: 0 <= i < |workloads| ==>
                Decided(workloads[i], old(MemoryOf(workloads[i].name)),
                        Call(Demand(workloads[i].spec, depths(workloads[i].name), runtime),
                             old(CurrentSize(workloads[i])), clock[i]))
    {
      hide Demand, Decide, Agree, SizedFor, Hysteresis.Remembered, Pool.View, Pool.Valid, WithinBounds;
      ReconcileAll(workloads, depths, runtime, clock);
      RemoveUnseen(set w | w in workloads :: w.name);
    }
  }
}
