/**
 The data of a worker pool and what each of its critical sections decides to write, as functions on that
 data (internal/worker/pool.go). The step system runs these sections interleaved; the class WorkerPool
 carries them out in place.
 */
module PoolModel {
  import opened Basics
  import opened CrashPolicy
  import opened Protocol

  /** A *Worker pointer: the position of the worker in the list of all workers ever created. */
  type Ref = nat

  datatype WorkerState = Starting | Idle | Busy | Draining | Dead | Failed | Stopped

  /** The two directions of a worker's socket, at the level of whole frames. */
  datatype Conn = Conn(open: bool, toWorker: seq<nat>, fromWorker: seq<Response>)

  datatype Worker = Worker(slot: nat, gen: nat, state: WorkerState, handled: nat, conn: Conn)

  /** `crashes` is the slot's whole crash history; the code keeps only `recent`. */
  datatype Slot = Slot(
    gen: nat,
    worker: Option<Ref>,
    planned: bool,
    retired: bool,
    recent: seq<int>,
    restartCount: nat,
    crashes: seq<Crash>)

  /** The fields guarded by p.mu and the idle channel. Slot number i is slots[i - 1]. */
  datatype Core = Core(slots: seq<Slot>, workers: seq<Worker>, idle: seq<Ref>, desired: int, stopping: bool)

  datatype Config = Config(
    http: bool,
    minWorkers: int,
    maxWorkers: int,
    idleCap: nat,
    queueCapacity: int,
    maxRequests: int,
    memoryLimitMB: int,
    restartLimit: int,
    restartWindow: int,
    fixedSize: bool,   // SetDesired is never called, as on a pool with min == max
    orderly: bool)     // every worker process answers its requests in order

  const FRESH_SLOT := Slot(0, None, false, false, [], 0, [])

  ghost predicate ValidRef(p: Core, w: Ref) { w < |p.workers| }

  ghost predicate ValidSlot(p: Core, i: nat) { 1 <= i <= |p.slots| }

  ghost predicate Installable(p: Core, i: nat, worker: Option<Ref>) {
    worker.Some? ==> worker.value < |p.workers| && p.workers[worker.value].slot == i
  }

  ghost predicate CoreOk(p: Core) {
    && (forall i :: 0 <= i < |p.slots| ==> Installable(p, i + 1, p.slots[i].worker))
    && (forall r :: 0 <= r < |p.workers| ==> 1 <= p.workers[r].slot <= |p.slots|)
    && (forall k :: 0 <= k < |p.idle| ==> p.idle[k] < |p.workers|)
  }

  /** Slots and workers are only ever added, and a worker never changes its slot or generation. */
  ghost predicate Grows(p: Core, q: Core) {
    && |p.slots| <= |q.slots|
    && |p.workers| <= |q.workers|
    && forall r :: 0 <= r < |p.workers| ==>
         q.workers[r].slot == p.workers[r].slot && q.workers[r].gen == p.workers[r].gen
  }

  // ----- what one atomic step may write -----

  datatype Op =
    | Keep
    | TakeIdle                                              // receive from the idle channel
    | PutIdle(w: Ref)                                       // send on the idle channel
    | AddWorker(worker: Worker)                             // allocate a worker
    | PutWorker(w: Ref, worker: Worker)
    | PutSlot(i: nat, slot: Slot)
    | PutBoth(w: Ref, worker: Worker, i: nat, slot: Slot)
    | Replace(core: Core)                                   // a section that writes many slots or a global field

  ghost predicate OpOk(p: Core, op: Op) {
    match op
    case Keep => true
    case TakeIdle => p.idle != []
    case PutIdle(w) => ValidRef(p, w)
    case AddWorker(wk) => 1 <= wk.slot <= |p.slots|
    case PutWorker(w, wk) => WorkerOk(p, w, wk)
    case PutSlot(i, sl) => ValidSlot(p, i) && Installable(p, i, sl.worker)
    case PutBoth(w, wk, i, sl) => WorkerOk(p, w, wk) && ValidSlot(p, i) && Installable(p, i, sl.worker)
    case Replace(q) => CoreOk(q) && Grows(p, q) && Marks(p, q)
  }

  /** Many slots at once: flags may change and workers may become Draining, nothing else. */
  ghost predicate Marks(p: Core, q: Core)
    requires Grows(p, q)
  {
    && |q.workers| == |p.workers| && q.idle == p.idle && (p.stopping ==> q.stopping)
    && (forall i :: 0 <= i < |p.slots| ==>
          q.slots[i] == p.slots[i].(planned := q.slots[i].planned, retired := q.slots[i].retired))
    && (forall i :: |p.slots| <= i < |q.slots| ==> q.slots[i] == FRESH_SLOT.(retired := q.slots[i].retired))
    && (forall r :: 0 <= r < |p.workers| ==>
          q.workers[r] == p.workers[r] || q.workers[r] == p.workers[r].(state := Draining))
  }

  ghost predicate WorkerOk(p: Core, w: Ref, wk: Worker) {
    ValidRef(p, w) && wk.slot == p.workers[w].slot && wk.gen == p.workers[w].gen
  }

  function ApplyOp(p: Core, op: Op): (q: Core)
    requires CoreOk(p) && OpOk(p, op)
    ensures CoreOk(q) && Grows(p, q)
  {
    match op
    case Keep => p
    case TakeIdle => p.(idle := p.idle[1..])
    case PutIdle(w) => p.(idle := p.idle + [w])
    case AddWorker(wk) => p.(workers := p.workers + [wk])
    case PutWorker(w, wk) => p.(workers := p.workers[w := wk])
    case PutSlot(i, sl) => p.(slots := p.slots[i - 1 := sl])
    case PutBoth(w, wk, i, sl) => p.(workers := p.workers[w := wk], slots := p.slots[i - 1 := sl])
    case Replace(core) => core
  }

  // ----- tests the code makes -----

  /** Identity: w is the worker installed in its slot. */
  ghost predicate Current(p: Core, w: Ref)
    requires CoreOk(p) && ValidRef(p, w)
  {
    p.slots[p.workers[w].slot - 1].worker == Some(w)
  }

  predicate InPool(p: Core, w: Ref)
    requires ValidRef(p, w)
  {
    1 <= p.workers[w].slot <= |p.slots|
  }

  /** The code's own test of whether w is current: it compares generations, not pointers. */
  predicate SameGeneration(p: Core, w: Ref)
    requires CoreOk(p) && ValidRef(p, w)
  {
    var current := p.slots[p.workers[w].slot - 1].worker;
    current.Some? &&
    (assert Installable(p, p.workers[w].slot - 1 + 1, current); p.workers[current.value].gen == p.workers[w].gen)
  }

  predicate OutOfService(p: Core, i: nat)
    requires ValidSlot(p, i)
  {
    p.slots[i - 1].retired || i > p.desired
  }

  /** A non-blocking send on the idle channel; a full channel drops the worker. */
  function Push(c: Config, p: Core, w: Ref): Op {
    if |p.idle| < c.idleCap then PutIdle(w) else Keep
  }

  function Closed(wk: Worker): Worker { wk.(conn := wk.conn.(open := false)) }

  // ----- acquire (577-591, 614-631) -----

  datatype Verdict = Foreign | Closing | Stale | Plausible

  function CheckAcquired(p: Core, w: Ref): Verdict
    requires CoreOk(p) && ValidRef(p, w)
  {
    if !InPool(p, w) then Foreign
    else if p.stopping then Closing
    else if !SameGeneration(p, w) then Stale
    else Plausible
  }

  // ----- Release and Discard (637-757) -----

  predicate WantsRecycle(c: Config, handled: nat, resp: Response) {
    || resp.meta.recycle
    || (c.maxRequests > 0 && handled >= c.maxRequests)
    || (c.memoryLimitMB > 0 && resp.meta.memoryUsage > 0 && resp.meta.memoryUsage >= c.memoryLimitMB * 1024 * 1024)
  }

  /** The second result says whether the worker goes back to the idle channel. */
  function ReleaseCommit(c: Config, p: Core, w: Ref, resp: Response): (Op, bool)
    requires CoreOk(p) && ValidRef(p, w)
  {
    var wk := p.workers[w].(handled := p.workers[w].handled + 1);
    if !InPool(p, w) || !SameGeneration(p, w) then (PutWorker(w, wk), false)
    else if p.stopping || WantsRecycle(c, wk.handled, resp) || OutOfService(p, wk.slot) then
      (PutBoth(w, Closed(wk.(state := Draining)), wk.slot, p.slots[wk.slot - 1].(planned := true)), false)
    else (PutWorker(w, wk.(state := Idle)), true)
  }

  function DiscardCommit(p: Core, w: Ref): Op
    requires CoreOk(p) && ValidRef(p, w)
  {
    var wk := p.workers[w];
    if !InPool(p, w) || !SameGeneration(p, w) then Keep
    else PutBoth(w, Closed(wk.(state := Draining)), wk.slot, p.slots[wk.slot - 1].(planned := false))
  }

  // ----- bootSlot (272-325) -----

  predicate Accepting(p: Core, i: nat)
    requires ValidSlot(p, i)
  {
    !p.stopping && !OutOfService(p, i)
  }

  function NextGeneration(sl: Slot): Slot { sl.(gen := sl.gen + 1) }

  /** The worker a successful Starter.Start returns: already Idle, with an open connection. */
  function NewWorker(i: nat, gen: nat): Worker {
    Worker(i, gen, Idle, 0, Conn(true, [], []))
  }

  function Installed(sl: Slot, w: Ref): Slot { sl.(worker := Some(w), planned := false) }

  function RecordCrash(c: Config, sl: Slot, now: int): (after: Slot)
    ensures after == sl.(restartCount := after.restartCount, recent := after.recent, crashes := after.crashes)
  {
    var recent := Recorded(sl.recent, now, c.restartWindow);
    sl.(restartCount := sl.restartCount + 1,
        recent := recent,
        crashes := sl.crashes + [Crash(now, !Exceeded(recent, c.restartLimit))])
  }

  predicate SlotFailed(c: Config, sl: Slot) {
    Exceeded(sl.recent, c.restartLimit)
  }

  function BootFailed(c: Config, sl: Slot, afterCrash: bool, now: int): Slot {
    var cleared := sl.(worker := None);
    if afterCrash then RecordCrash(c, cleared, now) else cleared
  }

  // ----- monitor (327-391) -----

  datatype ExitPlan = NoRestart | PlannedRestart | Crashed

  /** False when a newer generation already owns the slot, or nobody does (344). */
  predicate OwnsSlot(p: Core, i: nat, w: Ref)
    requires CoreOk(p) && ValidRef(p, w) && ValidSlot(p, i)
  {
    var current := p.slots[i - 1].worker;
    current.Some? && (assert Installable(p, i - 1 + 1, current); p.workers[current.value].gen == p.workers[w].gen)
  }

  function ClearExited(p: Core, i: nat, w: Ref): Op
    requires ValidRef(p, w) && ValidSlot(p, i)
  {
    PutBoth(w, Closed(p.workers[w].(state := Dead)), i, p.slots[i - 1].(worker := None))
  }

  function PlanAfterExit(p: Core, i: nat, w: Ref, exitCode: int): ExitPlan
    requires ValidRef(p, w) && ValidSlot(p, i)
  {
    if p.stopping || OutOfService(p, i) then NoRestart
    else if p.slots[i - 1].planned || (exitCode == 0 && p.workers[w].state == Draining) then PlannedRestart
    else Crashed
  }

  /** purgeIdle's test (401): same pointer, or same id and generation. */
  predicate SameWorker(p: Core, a: Ref, b: Ref)
    requires ValidRef(p, a) && ValidRef(p, b)
  {
    a == b || (p.workers[a].slot == p.workers[b].slot && p.workers[a].gen == p.workers[b].gen)
  }

  // ----- SetDesired (464-536) -----

  function ClampTarget(c: Config, n: int): int {
    var raised := if n < c.minWorkers then c.minWorkers else n;
    if c.maxWorkers > 0 && raised > c.maxWorkers then c.maxWorkers else raised
  }

  predicate Bootable(c: Config, sl: Slot) {
    sl.worker.None? && !SlotFailed(c, sl)
  }

  predicate NeedsBoot(c: Config, slots: seq<Slot>, n: int) {
    exists i :: 0 <= i < |slots| && i + 1 <= n && !slots[i].retired && Bootable(c, slots[i])
  }

  function Grown(slots: seq<Slot>, n: int): seq<Slot> {
    slots + seq(if n > |slots| then n - |slots| else 0, _ => FRESH_SLOT)
  }

  /** Whether a scale-down to n sends the worker of this slot away. */
  predicate Drained(c: Config, p: Core, n: int, i: nat)
    requires CoreOk(p) && i < |p.slots|
  {
    && i + 1 > n && p.slots[i].worker.Some?
    && (assert Installable(p, i + 1, p.slots[i].worker);
        !Spared(c, p.workers[p.slots[i].worker.value].state))
  }

  function DrainList(c: Config, p: Core, n: int, upTo: nat): seq<Ref>
    requires CoreOk(p) && upTo <= |p.slots|
  {
    if upTo == 0 then []
    else DrainList(c, p, n, upTo - 1) +
         (if Drained(c, p, n, upTo - 1) then [p.slots[upTo - 1].worker.value] else [])
  }

  function BootList(c: Config, slots: seq<Slot>, n: int, upTo: nat): seq<nat>
    requires upTo <= |slots|
  {
    if upTo == 0 then []
    else BootList(c, slots, n, upTo - 1) +
         (if upTo <= n && Bootable(c, slots[upTo - 1]) then [upTo] else [])
  }

  function ResizedSlots(c: Config, p: Core, n: int): (slots: seq<Slot>)
    requires CoreOk(p)
    ensures |slots| == Max(|p.slots|, n)
    ensures forall i :: 0 <= i < |p.slots| ==>
              slots[i] == p.slots[i].(planned := slots[i].planned, retired := slots[i].retired)
    ensures forall i :: |p.slots| <= i < |slots| ==> slots[i] == FRESH_SLOT.(retired := slots[i].retired)
  {
    seq(|Grown(p.slots, n)|, i requires 0 <= i < |Grown(p.slots, n)| => ResizedSlot(c, p, n, i))
  }

  function ResizedSlot(c: Config, p: Core, n: int, i: nat): Slot
    requires CoreOk(p) && i < |Grown(p.slots, n)|
  {
    var sl := Grown(p.slots, n)[i];
    sl.(retired := i + 1 > n, planned := sl.planned || (i < |p.slots| && Drained(c, p, n, i)))
  }

  function DrainedWorkers(c: Config, p: Core, n: int): (workers: seq<Worker>)
    requires CoreOk(p)
    ensures |workers| == |p.workers|
    ensures forall r :: 0 <= r < |workers| ==>
              workers[r] == p.workers[r] || workers[r] == p.workers[r].(state := Draining)
  {
    seq(|p.workers|, r requires 0 <= r < |p.workers| => DrainedWorker(c, p, n, r))
  }

  function DrainedWorker(c: Config, p: Core, n: int, r: Ref): Worker
    requires CoreOk(p) && r < |p.workers|
  {
    var wk := p.workers[r];
    if p.slots[wk.slot - 1].worker == Some(r) && Drained(c, p, n, wk.slot - 1) then wk.(state := Draining) else wk
  }

  /** Nothing to do (466-468 and 477-490). */
  predicate NothingToResize(c: Config, p: Core, target: int) {
    var n := ClampTarget(c, target);
    p.stopping || (n == p.desired && |p.slots| >= n && !NeedsBoot(c, p.slots, n))
  }

  /** What the section has written before it looks at the workers (491-510): the size, new slots, retirement. */
  function Rescaled(p: Core, n: int): (q: Core)
    requires CoreOk(p)
    ensures OpOk(p, Replace(q))
  {
    p.(slots := seq(|Grown(p.slots, n)|, i requires 0 <= i < |Grown(p.slots, n)| =>
                 Grown(p.slots, n)[i].(retired := i + 1 > n)),
       desired := n)
  }

  /** A worker in this state is not sent away by a scale-down (516-521). */
  predicate Spared(c: Config, st: WorkerState) {
    (st == Busy && c.http) || st == Draining || st == Dead || st == Stopped
  }

  /** The whole section, when nothing comes between its steps. */
  function Resize(c: Config, p: Core, target: int): (q: Core)
    requires CoreOk(p)
    ensures OpOk(p, Replace(q))
  {
    hide ResizedSlots, DrainedWorkers, ClampTarget;
    var n := ClampTarget(c, target);
    p.(slots := ResizedSlots(c, p, n), workers := DrainedWorkers(c, p, n), desired := n)
  }

  function ToDrain(c: Config, p: Core, target: int): seq<Ref>
    requires CoreOk(p)
  {
    DrainList(c, p, ClampTarget(c, target), |p.slots|)
  }

  function ToBoot(c: Config, p: Core, target: int): seq<nat>
    requires CoreOk(p)
  {
    var n := ClampTarget(c, target);
    BootList(c, ResizedSlots(c, p, n), n, |ResizedSlots(c, p, n)|)
  }

  // ----- Shutdown (846-859) -----

  function MarkedSlots(slots: seq<Slot>): (marked: seq<Slot>)
    ensures |marked| == |slots|
  {
    seq(|slots|, i requires 0 <= i < |slots| => MarkedSlot(slots[i]))
  }

  function MarkedSlot(sl: Slot): Slot {
    if sl.worker.Some? then sl.(planned := true) else sl
  }

  function MarkedWorkers(p: Core): (workers: seq<Worker>)
    requires CoreOk(p)
    ensures |workers| == |p.workers|
  {
    seq(|p.workers|, r requires 0 <= r < |p.workers| => MarkedWorker(p, r))
  }

  function MarkedWorker(p: Core, r: Ref): Worker
    requires CoreOk(p) && r < |p.workers|
  {
    var wk := p.workers[r];
    if p.slots[wk.slot - 1].worker == Some(r) && wk.state != Draining && wk.state != Dead && wk.state != Stopped
    then wk.(state := Draining) else wk
  }

  function Remaining(slots: seq<Slot>): seq<Ref> {
    if slots == [] then []
    else Remaining(slots[..|slots| - 1]) +
         (if slots[|slots| - 1].worker.Some? then [slots[|slots| - 1].worker.value] else [])
  }

  function MarkAll(p: Core): (q: Core)
    requires CoreOk(p)
    ensures OpOk(p, Replace(q))
  {
    p.(slots := MarkedSlots(p.slots), workers := MarkedWorkers(p))
  }

  // ----- the lists the sections hand on -----

  lemma {:induction false} DrainListSound(c: Config, p: Core, n: int, upTo: nat, k: nat)
    requires CoreOk(p) && upTo <= |p.slots| && k < |DrainList(c, p, n, upTo)|
    ensures ValidRef(p, DrainList(c, p, n, upTo)[k])
    ensures var r := DrainList(c, p, n, upTo)[k];
            var i := p.workers[r].slot - 1;
            i < upTo && p.slots[i].worker == Some(r) && Drained(c, p, n, i)
  {
    if k < |DrainList(c, p, n, upTo - 1)| {
      DrainListSound(c, p, n, upTo - 1, k);
    } else {
      assert Installable(p, upTo - 1 + 1, p.slots[upTo - 1].worker);
    }
  }

  lemma {:induction false} BootListSound(c: Config, slots: seq<Slot>, n: int, upTo: nat, k: nat)
    requires upTo <= |slots| && k < |BootList(c, slots, n, upTo)|
    ensures var i := BootList(c, slots, n, upTo)[k];
            1 <= i <= upTo && i <= n && Bootable(c, slots[i - 1])
  {
    if k < |BootList(c, slots, n, upTo - 1)| {
      BootListSound(c, slots, n, upTo - 1, k);
    }
  }

  lemma {:induction false} RemainingSound(slots: seq<Slot>, k: nat) returns (i: nat)
    requires k < |Remaining(slots)|
    ensures i < |slots| && slots[i].worker == Some(Remaining(slots)[k])
  {
    var front := slots[..|slots| - 1];
    if k < |Remaining(front)| {
      i := RemainingSound(front, k);
    } else {
      i := |slots| - 1;
    }
  }

  lemma {:induction false} RemainingComplete(slots: seq<Slot>, i: nat)
    requires i < |slots| && slots[i].worker.Some?
    ensures slots[i].worker.value in Remaining(slots)
  {
    if i < |slots| - 1 {
      RemainingComplete(slots[..|slots| - 1], i);
    }
  }
}
