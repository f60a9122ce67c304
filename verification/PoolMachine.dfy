/**
 The worker pool and its dispatcher as a step system. Every goroutine of the program is a thread with a
 program counter; one step of one thread is one p.mu section, one channel operation, one setState or
 getState, one queueMu section, or one frame written to or read from a worker's socket. Two sections meet others
 while they hold p.mu and take several steps: a purge, whose channel p.mu does not guard, and SetDesired, which looks
 at and marks workers that requests claim under another mutex. Steps of all threads interleave freely, together with
 the arrival of requests, the passing of time and whatever the worker processes write.
 */
module PoolMachine {
  import opened Basics
  import opened Protocol
  import opened PoolModel

  /** What a thread does once its purge of the idle channel is finished. */
  datatype Then =
    | ExitThen(slot: nat, plan: ExitPlan)
    | ResizeThen(drains: seq<Ref>, boots: seq<nat>)

  /** `counted` says that the goroutine is registered with p.wg, which Shutdown waits for. */
  datatype Pc =
    | Done
      // whatever is not the pool: clients, operators, the clock and the worker processes
    | Outside
      // ServeHTTP
    | TryAcquire
    | Receive(queued: bool)
    | Check(w: Ref, queued: bool)
    | Inspect(w: Ref, queued: bool)
    | Claim(w: Ref, queued: bool)
    | EnterQueue
    | LeaveQueue(got: Option<Ref>)
    | Send(w: Ref)
    | Await(w: Ref, id: nat)
    | Release(w: Ref, id: nat, resp: Response)
    | Return(w: Ref)
    | Discard(w: Ref)
      // the goroutine of Client.Send
    | Write(w: Ref, id: nat)
    | Read(w: Ref, id: nat)
      // bootSlot
    | BootStart(slot: nat, afterCrash: bool, counted: bool)
    | BootRun(slot: nat, gen: nat, afterCrash: bool, counted: bool)
    | BootFail(slot: nat, afterCrash: bool, counted: bool)
    | BootInstall(slot: nat, w: Ref, counted: bool)
    | BootWatch(slot: nat, w: Ref, counted: bool)
    | BootPush(w: Ref, counted: bool)
      // monitor
    | Watch(slot: nat, w: Ref)
    | Clear(slot: nat, w: Ref, exitCode: int)
    | AfterExit(slot: nat, plan: ExitPlan)
    | CrashExit(slot: nat)
      // purgeIdle, holding p.mu
    | PurgeStart(target: Ref, next: Then)
    | PurgeLoop(target: Ref, left: nat, next: Then)
    | PurgeHand(target: Ref, hand: Ref, left: nat, next: Then)
      // scheduleRestart
    | RestartWait(slot: nat, useBackoff: bool)
    | RestartCheck(slot: nat, useBackoff: bool)
      // SetDesired
    | ResizeStart(wanted: int)
      // holding p.mu: i slots done, and the worker looked at but not yet marked
    | ResizeScan(n: int, i: nat, drains: seq<Ref>, boots: seq<nat>)
    | ResizeMark(n: int, i: nat, w: Ref, drains: seq<Ref>, boots: seq<nat>)
      // p.mu released
    | ResizeNext(drains: seq<Ref>, boots: seq<nat>)
      // terminateWorker
    | Terminate(w: Ref)
      // Shutdown
    | StopStart
    | StopCancel
    | StopDrain
    | StopWorker(w: Ref)
    | StopMark
    | StopWait
    | StopDone

  /** The buffered channel of Client.Send, by request id. */
  datatype Reply = Answered(resp: Response) | Broken

  datatype State = State(
    core: Core,
    threads: seq<Pc>,
    replies: map<nat, Reply>,
    waiting: nat,
    lastId: nat,
    locked: bool,      // p.mu is held by a section of several steps
    cancelled: bool,   // p.ctx is done
    now: int)

  /** What the scheduler and the world decide about a thread's next step. */
  datatype Choice =
    | Go
    | Fail
    | Exit(code: int)
      // choices of the outside world
    | Tick(elapsed: nat)
    | CancelParent
    | NewRequest
    | NewResize(wanted: int)
    | NewShutdown
    | WorkerWrites(w: Ref, resp: Response)

  /** Thread t makes a step. */
  datatype Event = Event(t: nat, choice: Choice)

  // ----- well-formedness of program counters -----

  ghost predicate ListsOk(p: Core, drains: seq<Ref>, boots: seq<nat>) {
    && (forall k :: 0 <= k < |drains| ==> ValidRef(p, drains[k]))
    && (forall k :: 0 <= k < |boots| ==> ValidSlot(p, boots[k]))
  }

  ghost predicate ThenOk(p: Core, next: Then) {
    match next
    case ExitThen(i, _) => ValidSlot(p, i)
    case ResizeThen(drains, boots) => drains != [] && ListsOk(p, drains, boots)
  }

  ghost predicate PcOk(p: Core, pc: Pc) {
    match pc
    case Check(w, _) => ValidRef(p, w)
    case Inspect(w, _) => ValidRef(p, w)
    case Claim(w, _) => ValidRef(p, w)
    case LeaveQueue(got) => got.Some? ==> ValidRef(p, got.value)
    case Send(w) => ValidRef(p, w)
    case Await(w, _) => ValidRef(p, w)
    case Release(w, _, _) => ValidRef(p, w)
    case Return(w) => ValidRef(p, w)
    case Discard(w) => ValidRef(p, w)
    case Write(w, _) => ValidRef(p, w)
    case Read(w, _) => ValidRef(p, w)
    case BootStart(i, _, _) => ValidSlot(p, i)
    case BootRun(i, _, _, _) => ValidSlot(p, i)
    case BootFail(i, _, _) => ValidSlot(p, i)
    case BootInstall(i, w, _) => ValidSlot(p, i) && ValidRef(p, w) && p.workers[w].slot == i
    case BootWatch(i, w, _) => ValidSlot(p, i) && ValidRef(p, w) && p.workers[w].slot == i
    case BootPush(w, _) => ValidRef(p, w)
    case Watch(i, w) => ValidSlot(p, i) && ValidRef(p, w) && p.workers[w].slot == i
    case Clear(i, w, _) => ValidSlot(p, i) && ValidRef(p, w) && p.workers[w].slot == i
    case AfterExit(i, _) => ValidSlot(p, i)
    case CrashExit(i) => ValidSlot(p, i)
    case PurgeStart(w, next) => ValidRef(p, w) && ThenOk(p, next)
    case PurgeLoop(w, _, next) => ValidRef(p, w) && ThenOk(p, next)
    case PurgeHand(w, cur, left, next) => ValidRef(p, w) && ValidRef(p, cur) && left > 0 && ThenOk(p, next)
    case RestartWait(i, _) => ValidSlot(p, i)
    case RestartCheck(i, _) => ValidSlot(p, i)
    case ResizeNext(drains, boots) => ListsOk(p, drains, boots)
    case ResizeScan(_, i, drains, boots) => i <= |p.slots| && ListsOk(p, drains, boots)
    case ResizeMark(_, i, w, drains, boots) =>
      i < |p.slots| && ValidRef(p, w) && p.workers[w].slot == i + 1 && ListsOk(p, drains, boots)
    case Terminate(w) => ValidRef(p, w)
    case StopWorker(w) => ValidRef(p, w)
    case _ => true
  }

  ghost predicate Ok(s: State) {
    && CoreOk(s.core)
    && (forall t :: 0 <= t < |s.threads| ==> PcOk(s.core, s.threads[t]))
  }

  // ----- steps -----

  /** What else a step does besides writing the pool's data. */
  datatype Side =
    | NoSide
    | EnterTheQueue
    | LeaveTheQueue
    | TakeId
    | Post(id: nat, reply: Reply)
    | LockMu
    | UnlockMu
    | CancelCtx
    | Advance(elapsed: nat)

  /** The effect of one thread's step: what it writes, where it goes next and which goroutines it starts. */
  datatype Effect = Effect(op: Op, next: Pc, spawned: seq<Pc>, side: Side)

  function Goto(next: Pc): Effect { Effect(Keep, next, [], NoSide) }

  function Write1(op: Op, next: Pc): Effect { Effect(op, next, [], NoSide) }

  ghost predicate Fine(s: State, f: Option<Effect>) {
    f.Some? ==> OpOk(s.core, f.value.op)
  }

  predicate Counted(pc: Pc) {
    match pc
    case BootStart(_, _, counted) => counted
    case BootRun(_, _, _, counted) => counted
    case BootFail(_, _, counted) => counted
    case BootInstall(_, _, counted) => counted
    case BootWatch(_, _, counted) => counted
    case BootPush(_, counted) => counted
    case Watch(_, _) => true
    case Clear(_, _, _) => true
    case AfterExit(_, _) => true
    case CrashExit(_) => true
    case PurgeStart(_, next) => next.ExitThen?
    case PurgeLoop(_, _, next) => next.ExitThen?
    case PurgeHand(_, _, _, next) => next.ExitThen?
    case RestartWait(_, _) => true
    case RestartCheck(_, _) => true
    case Terminate(_) => true
    case _ => false
  }

  /** p.wg has drained. */
  predicate AllCountedDone(threads: seq<Pc>) {
    forall u :: 0 <= u < |threads| ==> !Counted(threads[u])
  }

  // ServeHTTP (dispatcher.go:113-206) with TryAcquire, Acquire, Release and Discard (pool.go:563-757)

  function PlanRequest(c: Config, s: State, pc: Pc, ch: Choice): (f: Option<Effect>)
    requires Ok(s) && PcOk(s.core, pc)
    ensures Fine(s, f)
  {
    var p := s.core;
    match pc
    case TryAcquire =>
      if !c.http then Some(Goto(EnterQueue))
      else if s.locked then None
      else Some(Goto(if p.stopping then EnterQueue else Receive(false)))
    case Receive(queued) =>
      if queued && (ch.Fail? || !c.http) then Some(Goto(LeaveQueue(None)))
      else if p.idle == [] then (if queued then None else Some(Goto(EnterQueue)))
      else Some(Write1(TakeIdle, Check(p.idle[0], queued)))
    case Check(w, queued) =>
      if s.locked then None
      else (match CheckAcquired(p, w)
            case Foreign => Some(Goto(Receive(queued)))
            case Closing => Some(Goto(if queued then LeaveQueue(None) else EnterQueue))
            case Stale => Some(Goto(Receive(queued)))
            case Plausible => Some(Goto(Inspect(w, queued))))
    case Inspect(w, queued) =>
      Some(Goto(if p.workers[w].state != Idle then Receive(queued) else Claim(w, queued)))
    case Claim(w, queued) =>
      Some(Write1(PutWorker(w, p.workers[w].(state := Busy)), if queued then LeaveQueue(Some(w)) else Send(w)))
    case EnterQueue =>
      if c.queueCapacity <= 0 || s.waiting >= c.queueCapacity then Some(Goto(Done))
      else Some(Effect(Keep, Receive(true), [], EnterTheQueue))
    case LeaveQueue(got) =>
      Some(Effect(Keep, if got.Some? then Send(got.value) else Done, [], LeaveTheQueue))
    case Send(w) =>
      Some(Effect(Keep, Await(w, s.lastId + 1), [Write(w, s.lastId + 1)], TakeId))
    case Await(w, id) =>
      if ch.Fail? then Some(Write1(PutWorker(w, Closed(p.workers[w])), Discard(w)))
      else if id !in s.replies then None
      else (match s.replies[id]
            case Answered(resp) => Some(Goto(Release(w, id, resp)))
            case Broken => Some(Goto(Discard(w))))
    case Release(w, _, resp) =>
      if s.locked then None
      else
        var (op, back) := ReleaseCommit(c, p, w, resp);
        Some(Write1(op, if back then Return(w) else Done))
    case Return(w) => Some(Write1(Push(c, p, w), Done))
    case Discard(w) => if s.locked then None else Some(Write1(DiscardCommit(p, w), Done))
    case _ => None
  }

  // The goroutine of Client.Send (process.go:173-176) running Conn.SendRequest (conn.go:30-73)

  function PlanSender(s: State, pc: Pc, ch: Choice): (f: Option<Effect>)
    requires Ok(s) && PcOk(s.core, pc)
    ensures Fine(s, f)
  {
    var p := s.core;
    match pc
    case Write(w, id) =>
      var wk := p.workers[w];
      if ch.Fail? || !wk.conn.open then Some(Effect(Keep, Done, [], Post(id, Broken)))
      else Some(Write1(PutWorker(w, wk.(conn := wk.conn.(toWorker := wk.conn.toWorker + [id]))), Read(w, id)))
    case Read(w, id) =>
      var wk := p.workers[w];
      if ch.Fail? || !wk.conn.open then Some(Effect(Keep, Done, [], Post(id, Broken)))
      else if wk.conn.fromWorker == [] then None
      else
        var resp := wk.conn.fromWorker[0];
        Some(Effect(
               PutWorker(w, wk.(conn := wk.conn.(fromWorker := wk.conn.fromWorker[1..]))),
               Done, [], Post(id, if ValidResponse(resp, id) then Answered(resp) else Broken)))
    case _ => None
  }

  // bootSlot (pool.go:272-325) and scheduleRestart (435-460)

  function PlanBoot(c: Config, s: State, pc: Pc, ch: Choice): (f: Option<Effect>)
    requires Ok(s) && PcOk(s.core, pc)
    ensures Fine(s, f)
  {
    var p := s.core;
    match pc
    case BootStart(i, afterCrash, counted) =>
      if s.locked then None
      else if !Accepting(p, i) then Some(Goto(Done))
      else
        var sl := NextGeneration(p.slots[i - 1]);
        assert Installable(p, i - 1 + 1, p.slots[i - 1].worker);
        Some(Write1(PutSlot(i, sl), BootRun(i, sl.gen, afterCrash, counted)))
    case BootRun(i, gen, afterCrash, counted) =>
      if ch.Fail? then Some(Goto(BootFail(i, afterCrash, counted)))
      else Some(Write1(AddWorker(NewWorker(i, gen)), BootInstall(i, |p.workers|, counted)))
    case BootFail(i, afterCrash, counted) =>
      if s.locked then None
      else
        var sl := BootFailed(c, p.slots[i - 1], afterCrash, s.now);
        Some(Effect(PutSlot(i, sl), Done, if SlotFailed(c, sl) then [] else [RestartWait(i, true)], NoSide))
    case BootInstall(i, w, counted) =>
      if s.locked then None
      else if !Accepting(p, i) then Some(Write1(PutWorker(w, Closed(p.workers[w])), Done))
      else Some(Write1(PutSlot(i, Installed(p.slots[i - 1], w)), BootWatch(i, w, counted)))
    case BootWatch(i, w, counted) => Some(Effect(Keep, BootPush(w, counted), [Watch(i, w)], NoSide))
    case BootPush(w, _) => Some(Write1(if c.http then Push(c, p, w) else Keep, Done))
    case RestartWait(i, useBackoff) =>
      if ch.Fail? then (if s.cancelled then Some(Goto(Done)) else None)
      else Some(Goto(RestartCheck(i, useBackoff)))
    case RestartCheck(i, useBackoff) =>
      if s.locked then None
      else Some(Goto(if !Accepting(p, i) then Done else BootStart(i, useBackoff, true)))
    case _ => None
  }

  // monitor (pool.go:327-391) and purgeIdle (393-412)

  function Resume(next: Then): Pc {
    match next
    case ExitThen(i, plan) => AfterExit(i, plan)
    case ResizeThen(drains, boots) => ResizeNext(if drains == [] then [] else drains[1..], boots)
  }

  /** SetDesired starts the terminator of a drained worker right after purging it (540-547). */
  function ResumeSpawns(next: Then): seq<Pc> {
    match next
    case ExitThen(_, _) => []
    case ResizeThen(drains, _) => if drains == [] then [] else [Terminate(drains[0])]
  }

  function PlanMonitor(c: Config, s: State, pc: Pc, ch: Choice): (f: Option<Effect>)
    requires Ok(s) && PcOk(s.core, pc)
    ensures Fine(s, f)
  {
    var p := s.core;
    match pc
    case Watch(i, w) => if ch.Exit? then Some(Goto(Clear(i, w, ch.code))) else None
    case Clear(i, w, code) =>
      if s.locked then None
      else if !OwnsSlot(p, i, w) then Some(Goto(Done))
      else Some(Write1(ClearExited(p, i, w), PurgeStart(w, ExitThen(i, PlanAfterExit(p, i, w, code)))))
    case AfterExit(i, plan) =>
      (match plan
       case NoRestart => Some(Goto(Done))
       case PlannedRestart => Some(Effect(Keep, Done, [RestartWait(i, false)], NoSide))
       case Crashed => Some(Goto(CrashExit(i))))
    case CrashExit(i) =>
      if s.locked then None
      else
        var sl := RecordCrash(c, p.slots[i - 1], s.now);
        assert Installable(p, i - 1 + 1, p.slots[i - 1].worker);
        Some(Effect(PutSlot(i, sl), Done, if SlotFailed(c, sl) then [] else [RestartWait(i, true)], NoSide))
    case PurgeStart(w, next) =>
      if s.locked then None else Some(Effect(Keep, PurgeLoop(w, |p.idle|, next), [], LockMu))
    case PurgeLoop(w, left, next) =>
      if left == 0 || p.idle == [] then Some(Effect(Keep, Resume(next), ResumeSpawns(next), UnlockMu))
      else Some(Write1(TakeIdle,
                       if SameWorker(p, p.idle[0], w) then PurgeLoop(w, left - 1, next)
                       else PurgeHand(w, p.idle[0], left, next)))
    case PurgeHand(w, cur, left, next) => Some(Write1(Push(c, p, cur), PurgeLoop(w, left - 1, next)))
    case _ => None
  }

  // SetDesired (464-560), terminateWorker and Shutdown (824-893)

  function PlanControl(c: Config, s: State, pc: Pc): (f: Option<Effect>)
    requires Ok(s) && PcOk(s.core, pc)
    ensures Fine(s, f)
  {
    var p := s.core;
    match pc
    case ResizeStart(wanted) =>
      if s.locked then None
      else if NothingToResize(c, p, wanted) then Some(Goto(Done))
      else
        var n := ClampTarget(c, wanted);
        Some(Effect(Replace(Rescaled(p, n)), ResizeScan(n, 0, [], []), [], LockMu))
    case ResizeScan(n, i, drains, boots) =>
      if i >= |p.slots| then Some(Effect(Keep, ResizeNext(drains, boots), [], UnlockMu))
      else if i + 1 <= n then
        Some(Goto(ResizeScan(n, i + 1, drains, if Bootable(c, p.slots[i]) then boots + [i + 1] else boots)))
      else if p.slots[i].worker.None? then Some(Goto(ResizeScan(n, i + 1, drains, boots)))
      else
        assert Installable(p, i + 1, p.slots[i].worker);
        var w := p.slots[i].worker.value;
        Some(Goto(if Spared(c, p.workers[w].state) then ResizeScan(n, i + 1, drains, boots)
                  else ResizeMark(n, i, w, drains, boots)))
    case ResizeMark(n, i, w, drains, boots) =>
      assert Installable(p, i + 1, p.slots[i].worker);
      Some(Write1(PutBoth(w, p.workers[w].(state := Draining), i + 1, p.slots[i].(planned := true)),
                  ResizeScan(n, i + 1, drains + [w], boots)))
    case ResizeNext(drains, boots) =>
      if drains != [] then Some(Goto(PurgeStart(drains[0], ResizeThen(drains, boots))))
      else if boots != [] then
        Some(Effect(Keep, ResizeNext([], boots[1..]), [BootStart(boots[0], false, false)], NoSide))
      else Some(Goto(Done))
    case Terminate(w) => Some(Write1(PutWorker(w, Closed(p.workers[w])), Done))
    case StopStart => if s.locked then None else Some(Write1(Replace(p.(stopping := true)), StopCancel))
    case StopCancel => Some(Effect(Keep, StopDrain, [], CancelCtx))
    case StopDrain => Some(if p.idle == [] then Goto(StopMark) else Write1(TakeIdle, StopWorker(p.idle[0])))
    case StopWorker(w) => Some(Write1(PutWorker(w, Closed(p.workers[w].(state := Stopped))), StopDrain))
    case StopMark =>
      if s.locked then None
      else
        var doomed := Remaining(p.slots);
        Some(Effect(Replace(MarkAll(p)), StopWait,
                    seq(|doomed|, k requires 0 <= k < |doomed| => Terminate(doomed[k])), NoSide))
    case StopWait => if AllCountedDone(s.threads) then Some(Goto(StopDone)) else None
    case _ => None
  }

  /** A worker process writes a frame; an orderly one answers the oldest request it has not answered yet. */
  predicate MayWrite(c: Config, p: Core, w: Ref, resp: Response) {
    && w < |p.workers|
    && (c.orderly ==>
          p.workers[w].conn.toWorker != [] && ValidResponse(resp, p.workers[w].conn.toWorker[0]))
  }

  function Written(conn: Conn, resp: Response): Conn {
    Conn(conn.open, if conn.toWorker == [] then [] else conn.toWorker[1..], conn.fromWorker + [resp])
  }

  function PlanOutside(c: Config, s: State, pc: Pc, ch: Choice): (f: Option<Effect>)
    requires Ok(s) && PcOk(s.core, pc)
    ensures Fine(s, f)
  {
    if !pc.Outside? then None
    else match ch
         case Tick(elapsed) => Some(Effect(Keep, Outside, [], Advance(elapsed)))
         case CancelParent => Some(Effect(Keep, Outside, [], CancelCtx))
         case NewRequest => Some(Effect(Keep, Outside, [TryAcquire], NoSide))
         case NewResize(wanted) =>
           if c.fixedSize then None else Some(Effect(Keep, Outside, [ResizeStart(wanted)], NoSide))
         case NewShutdown => Some(Effect(Keep, Outside, [StopStart], NoSide))
         case WorkerWrites(w, resp) =>
           if !MayWrite(c, s.core, w, resp) then None
           else
             var wk := s.core.workers[w];
             Some(Write1(PutWorker(w, wk.(conn := Written(wk.conn, resp))), Outside))
         case _ => None
  }

  /** The next step of a thread at pc, or None while it has to wait. */
  function Plan(c: Config, s: State, pc: Pc, ch: Choice): (f: Option<Effect>)
    requires Ok(s) && PcOk(s.core, pc)
    ensures Fine(s, f)
  {
    match pc
    case TryAcquire | Receive(_) | Check(_, _) | Inspect(_, _) | Claim(_, _) | EnterQueue | LeaveQueue(_) | Send(_)
      | Await(_, _) | Release(_, _, _) | Return(_) | Discard(_) => PlanRequest(c, s, pc, ch)
    case Write(_, _) | Read(_, _) => PlanSender(s, pc, ch)
    case BootStart(_, _, _) | BootRun(_, _, _, _) | BootFail(_, _, _) | BootInstall(_, _, _) | BootWatch(_, _, _)
      | BootPush(_, _) | RestartWait(_, _) | RestartCheck(_, _) => PlanBoot(c, s, pc, ch)
    case Watch(_, _) | Clear(_, _, _) | AfterExit(_, _) | CrashExit(_) | PurgeStart(_, _) | PurgeLoop(_, _, _)
      | PurgeHand(_, _, _, _) => PlanMonitor(c, s, pc, ch)
    case Outside => PlanOutside(c, s, pc, ch)
    case _ => PlanControl(c, s, pc)
  }

  function Perform(s: State, t: nat, f: Effect): State
    requires Ok(s) && t < |s.threads| && OpOk(s.core, f.op)
  {
    State(
      ApplyOp(s.core, f.op),
      s.threads[t := f.next] + f.spawned,
      if f.side.Post? then s.replies[f.side.id := f.side.reply] else s.replies,
      if f.side.EnterTheQueue? then s.waiting + 1
      else if f.side.LeaveTheQueue? && s.waiting > 0 then s.waiting - 1   // the guard of leaveQueue
      else s.waiting,
      if f.side.TakeId? then s.lastId + 1 else s.lastId,
      if f.side.LockMu? then true else if f.side.UnlockMu? then false else s.locked,
      s.cancelled || f.side.CancelCtx?,
      if f.side.Advance? then s.now + f.side.elapsed else s.now)
  }

  /** Start (209-252) has built the slots and is booting every one of them. */
  ghost predicate Init(c: Config, s: State) {
    && c.minWorkers <= s.core.desired <= c.maxWorkers
    && 0 <= s.core.desired
    && s.core.slots == seq(s.core.desired, _ => FRESH_SLOT)
    && s.core.workers == [] && s.core.idle == [] && !s.core.stopping
    && s.threads == [Outside] + seq(s.core.desired, (i: nat) => BootStart(i + 1, false, false))
    && s.replies == map[] && s.waiting == 0 && s.lastId == 0 && !s.locked && !s.cancelled
  }

  /** The bounds NewWorkloadPool leaves behind (129-144) and the preconditions taken from validation. */
  ghost predicate GoodConfig(c: Config) {
    && 0 <= c.minWorkers <= c.maxWorkers
    && 1 <= c.maxWorkers == c.idleCap
    && c.restartWindow > 0
  }

  ghost predicate Step(c: Config, s: State, e: Event, s': State) {
    && Ok(s) && e.t < |s.threads|
    && var f := Plan(c, s, s.threads[e.t], e.choice);
       f.Some? && s' == Perform(s, e.t, f.value)
  }

  /** A run: states[k + 1] is reached from states[k] by events[k]. */
  ghost predicate Run(c: Config, states: seq<State>, events: seq<Event>) {
    && GoodConfig(c)
    && |states| == |events| + 1
    && Init(c, states[0])
    && (forall k :: 0 <= k < |events| ==> Step(c, states[k], events[k], states[k + 1]))
  }
}
