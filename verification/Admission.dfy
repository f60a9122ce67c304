/**
 Bounded admission (internal/dispatcher/dispatcher.go:59-79, 113-153), at the granularity of single steps:
 the waiting counter is exact, never passes the queue capacity, and the requests that hold a worker in
 service are at most as many as there are slots.
 */
module Admission {
  import opened Basics
  import opened Protocol
  import opened PoolModel
  import opened PoolMachine
  import opened PoolOwnership

  /** Between tryEnterQueue and leaveQueue. */
  predicate InQueue(pc: Pc) {
    match pc
    case Receive(queued) => queued
    case Check(_, queued) => queued
    case Inspect(_, queued) => queued
    case Claim(_, queued) => queued
    case LeaveQueue(_) => true
    case _ => false
  }

  ghost predicate Admitted(c: Config, s: State) {
    && s.waiting == CountIf(s.threads, InQueue)
    && s.waiting <= Max(c.queueCapacity, 0)
  }

  ghost predicate KeepsCount(c: Config, s: State, pc: Pc, f: Effect) {
    && (forall k :: 0 <= k < |f.spawned| ==> !InQueue(f.spawned[k]))
    && (match f.side
        case EnterTheQueue => !InQueue(pc) && InQueue(f.next) && s.waiting < c.queueCapacity
        case LeaveTheQueue => InQueue(pc) && !InQueue(f.next)
        case _ => InQueue(f.next) == InQueue(pc))
  }

  lemma RequestKeepsCount(c: Config, s: State, pc: Pc, ch: Choice)
    requires Ok(s) && PcOk(s.core, pc)
    ensures var f := PlanRequest(c, s, pc, ch); f.Some? ==> KeepsCount(c, s, pc, f.value)
  {
    hide SameGeneration, WantsRecycle, CheckAcquired, OutOfService;
  }

  lemma BootKeepsCount(c: Config, s: State, pc: Pc, ch: Choice)
    requires Ok(s) && PcOk(s.core, pc)
    ensures var f := PlanBoot(c, s, pc, ch); f.Some? ==> KeepsCount(c, s, pc, f.value)
    ensures var f := PlanSender(s, pc, ch); f.Some? ==> KeepsCount(c, s, pc, f.value)
    ensures var f := PlanOutside(c, s, pc, ch); f.Some? ==> KeepsCount(c, s, pc, f.value)
  {
    hide RecordCrash, SlotFailed, ValidResponse, Accepting, MayWrite;
  }

  lemma MonitorKeepsCount(c: Config, s: State, pc: Pc, ch: Choice)
    requires Ok(s) && PcOk(s.core, pc)
    ensures var f := PlanMonitor(c, s, pc, ch); f.Some? ==> KeepsCount(c, s, pc, f.value)
    ensures var f := PlanControl(c, s, pc); f.Some? ==> KeepsCount(c, s, pc, f.value)
  {
    hide RecordCrash, SlotFailed, PlanAfterExit, OwnsSlot, SameWorker, Rescaled;
    hide MarkAll, Remaining, NothingToResize, Bootable, Spared;
  }

  lemma PlanKeepsCount(c: Config, s: State, pc: Pc, ch: Choice)
    requires Ok(s) && PcOk(s.core, pc)
    ensures var f := Plan(c, s, pc, ch); f.Some? ==> KeepsCount(c, s, pc, f.value)
  {
    hide PlanRequest, PlanSender, PlanBoot, PlanMonitor, PlanControl, PlanOutside, PcOk, KeepsCount;
    RequestKeepsCount(c, s, pc, ch);
    BootKeepsCount(c, s, pc, ch);
    MonitorKeepsCount(c, s, pc, ch);
  }

  lemma {:induction false} CountNone(pcs: seq<Pc>)
    requires forall k :: 0 <= k < |pcs| ==> !InQueue(pcs[k])
    ensures CountIf(pcs, InQueue) == 0
  {
    if pcs != [] {
      CountNone(pcs[1..]);
    }
  }

  lemma {:induction false} CountSome(pcs: seq<Pc>, t: nat)
    requires t < |pcs| && InQueue(pcs[t])
    ensures CountIf(pcs, InQueue) > 0
  {
    if t > 0 {
      CountSome(pcs[1..], t - 1);
    }
  }

  lemma CountPreserved(c: Config, s: State, t: nat, f: Effect)
    requires Ok(s) && t < |s.threads| && OpOk(s.core, f.op)
    requires Admitted(c, s) && KeepsCount(c, s, s.threads[t], f)
    ensures Admitted(c, Perform(s, t, f))
  {
    hide PcOk, InQueue, ApplyOp;
    CountIfConcat(s.threads[t := f.next], f.spawned, InQueue);
    CountIfUpdate(s.threads, t, f.next, InQueue);
    CountNone(f.spawned);
    if InQueue(s.threads[t]) {
      CountSome(s.threads, t);
    }
  }

  /** The `if d.waiting > 0` of leaveQueue never matters. */
  lemma LeaveQueueGuardIsIdle(c: Config, s: State, t: nat)
    requires Admitted(c, s) && t < |s.threads| && s.threads[t].LeaveQueue?
    ensures s.waiting > 0
  {
    CountSome(s.threads, t);
  }

  predicate IsRequest(pc: Pc) {
    match pc
    case Check(_, _) | Inspect(_, _) | Claim(_, _) | LeaveQueue(_) | Send(_) | Await(_, _)
      | Release(_, _, _) | Return(_) | Discard(_) => true
    case _ => false
  }

  /** Thread t is a request that holds the worker its slot currently runs. */
  ghost predicate InService(s: State, t: nat)
    requires Ok(s)
  {
    && t < |s.threads| && IsRequest(s.threads[t]) && Held(s.threads[t]).Some?
    && (HeldIsValid(s.core, s.threads[t]); Current(s.core, Held(s.threads[t]).value))
  }

  ghost function ServingSlot(s: State, t: nat): nat
    requires Ok(s) && InService(s, t)
  {
    HeldIsValid(s.core, s.threads[t]);
    s.core.workers[Held(s.threads[t]).value].slot - 1
  }

  /** At most slots + queue capacity are admitted, counting only requests whose worker is still in service. */
  lemma AdmissionBound(c: Config, s: State, serving: set<nat>)
    requires Ok(s) && Exclusive(s) && Admitted(c, s)
    requires forall t :: t in serving ==> InService(s, t)
    ensures |serving| + s.waiting <= |s.core.slots| + Max(c.queueCapacity, 0)
  {
    forall t, u | t in serving && u in serving && t != u ensures ServingSlot(s, t) != ServingSlot(s, u) {
      if t < u {
        assert Held(s.threads[t]) != Held(s.threads[u]);
      } else {
        assert Held(s.threads[u]) != Held(s.threads[t]);
      }
    }
    DistinctSlots(s, serving);
  }

  lemma {:induction false} DistinctSlots(s: State, serving: set<nat>)
    requires Ok(s)
    requires forall t :: t in serving ==> InService(s, t)
    requires forall t, u :: t in serving && u in serving && t != u ==> ServingSlot(s, t) != ServingSlot(s, u)
    ensures |serving| <= |s.core.slots|
  {
    var slots := set t | t in serving :: ServingSlot(s, t);
    SlotsAsMany(s, serving, slots);
    forall i | i in slots ensures i < |s.core.slots| {
      var t :| t in serving && ServingSlot(s, t) == i;
      HeldIsValid(s.core, s.threads[t]);
    }
    BoundedSetSize(slots, |s.core.slots|);
  }

  lemma {:induction false} SlotsAsMany(s: State, serving: set<nat>, slots: set<nat>)
    requires Ok(s)
    requires forall t :: t in serving ==> InService(s, t)
    requires forall t, u :: t in serving && u in serving && t != u ==> ServingSlot(s, t) != ServingSlot(s, u)
    requires slots == set t | t in serving :: ServingSlot(s, t)
    ensures |slots| == |serving|
    decreases |serving|
  {
    hide InService, ServingSlot;
    if serving == {} {
      assert slots == {};
    } else {
      var t :| t in serving;
      var rest := serving - {t};
      var fewer := set u | u in rest :: ServingSlot(s, u);
      SlotsAsMany(s, rest, fewer);
      assert ServingSlot(s, t) !in fewer;
      assert slots == fewer + {ServingSlot(s, t)};
    }
  }
}
