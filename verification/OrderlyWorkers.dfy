/**
 With workers that answer in order, as the request loop of tests/fixtures/lib/worker_base.php:125-155 does,
 no response is ever mismatched: a worker reaches its next request with an empty connection, whatever
 timeouts and failures happened before.
 */
module OrderlyWorkers {
  import opened Protocol
  import opened PoolModel
  import opened PoolMachine
  import opened PoolWellFormed
  import opened PoolOwnership
  import opened ResponseMatching

  predicate Empty(conn: Conn) {
    conn.toWorker == [] && conn.fromWorker == []
  }

  /** Exactly the frame of request id is under way, in one direction or the other. */
  ghost predicate InFlight(conn: Conn, id: nat) {
    || (conn.toWorker == [id] && conn.fromWorker == [])
    || (conn.toWorker == [] && |conn.fromWorker| == 1 && ValidResponse(conn.fromWorker[0], id))
  }

  /** What the connection of the worker a thread deals with carries. */
  ghost predicate PipeOk(s: State, pc: Pc)
    requires Ok(s) && PcOk(s.core, pc)
  {
    if pc.Await? then pc.id in s.replies && s.replies[pc.id].Answered? ==> Empty(s.core.workers[pc.w].conn)
    else if pc.Write? then Empty(s.core.workers[pc.w].conn)
    else if pc.Read? then InFlight(s.core.workers[pc.w].conn, pc.id)
    else if Tidy(pc) then HeldIsValid(s.core, pc); Empty(s.core.workers[Held(pc).value].conn)
    else true
  }

  /** Threads that hold a worker whose connection must be clean. */
  predicate Tidy(pc: Pc) {
    Held(pc).Some? && !pc.Await? && !pc.Discard? && !pc.StopWorker?
  }

  ghost predicate PipesOk(s: State)
    requires Ok(s)
  {
    && (forall t :: 0 <= t < |s.threads| ==> PipeOk(s, s.threads[t]))
    && (forall k :: 0 <= k < |s.core.idle| ==> Empty(s.core.workers[s.core.idle[k]].conn))
  }

  ghost predicate SamePipe(a: Conn, b: Conn) {
    a.toWorker == b.toWorker && a.fromWorker == b.fromWorker
  }

  /** The three ways a frame moves. */
  ghost predicate PipeMove(c: Config, s: State, pc: Pc, f: Effect, w: Ref, before: Conn, after: Conn) {
    || SamePipe(before, after)
    || (&& pc.Write? && pc.w == w && f.next == Read(w, pc.id)
        && after.toWorker == before.toWorker + [pc.id] && after.fromWorker == before.fromWorker)
    || (&& pc.Read? && pc.w == w && f.next.Done?
        && before.fromWorker != [] && after.fromWorker == before.fromWorker[1..] && after.toWorker == before.toWorker)
    || (&& pc.Outside? && f.next.Outside?
        && |after.fromWorker| > 0
        && MayWrite(c, s.core, w, after.fromWorker[|after.fromWorker| - 1])
        && after == Written(before, after.fromWorker[|after.fromWorker| - 1]))
  }

  ghost predicate PipesMove(c: Config, s: State, pc: Pc, f: Effect)
    requires Ok(s) && OpOk(s.core, f.op)
  {
    && (f.op.AddWorker? ==> Empty(f.op.worker.conn))
    && (f.op.PutWorker? ==> PipeMove(c, s, pc, f, f.op.w, s.core.workers[f.op.w].conn, f.op.worker.conn))
    && (f.op.PutBoth? ==> SamePipe(s.core.workers[f.op.w].conn, f.op.worker.conn))
    && (f.op.PutIdle? ==> Tidy(pc))
    && (f.side.Post? && f.side.reply.Answered? ==>
          pc.Read? && f.op.PutWorker? && f.op.w == pc.w
          && s.core.workers[pc.w].conn.fromWorker != []
          && f.op.worker.conn.fromWorker == s.core.workers[pc.w].conn.fromWorker[1..]
          && f.op.worker.conn.toWorker == s.core.workers[pc.w].conn.toWorker)
    && (pc.StopWorker? ==> f.next.StopDrain?)
    && (f.next.Read? ==>
          pc.Write? && f.op.PutWorker? && f.op.w == pc.w
          && f.op.worker.conn.toWorker == s.core.workers[pc.w].conn.toWorker + [pc.id]
          && f.op.worker.conn.fromWorker == s.core.workers[pc.w].conn.fromWorker)
  }

  lemma GiveBackPipesMove(c: Config, s: State, pc: Pc, ch: Choice)
    requires Ok(s) && PcOk(s.core, pc)
    requires pc.Release? || pc.Discard?
    ensures var f := PlanRequest(c, s, pc, ch); f.Some? ==> PipesMove(c, s, pc, f.value)
  {
    hide SameGeneration, WantsRecycle, CheckAcquired, OutOfService;
  }

  lemma RequestPipesMove(c: Config, s: State, pc: Pc, ch: Choice)
    requires Ok(s) && PcOk(s.core, pc)
    ensures var f := PlanRequest(c, s, pc, ch); f.Some? ==> PipesMove(c, s, pc, f.value)
  {
    if pc.Release? || pc.Discard? {
      GiveBackPipesMove(c, s, pc, ch);
    } else {
      hide ReleaseCommit, DiscardCommit;
      hide CheckAcquired, OutOfService;
    }
  }

  lemma BootPipesMove(c: Config, s: State, pc: Pc, ch: Choice)
    requires Ok(s) && PcOk(s.core, pc)
    ensures var f := PlanBoot(c, s, pc, ch); f.Some? ==> PipesMove(c, s, pc, f.value)
    ensures var f := PlanSender(s, pc, ch); f.Some? ==> PipesMove(c, s, pc, f.value)
    ensures var f := PlanOutside(c, s, pc, ch); f.Some? ==> PipesMove(c, s, pc, f.value)
  {
    hide RecordCrash, SlotFailed, ValidResponse, Accepting, MayWrite;
  }

  lemma MonitorPipesMove(c: Config, s: State, pc: Pc, ch: Choice)
    requires Ok(s) && PcOk(s.core, pc)
    ensures var f := PlanMonitor(c, s, pc, ch); f.Some? ==> PipesMove(c, s, pc, f.value)
    ensures var f := PlanControl(c, s, pc); f.Some? ==> PipesMove(c, s, pc, f.value)
  {
    hide RecordCrash, SlotFailed, PlanAfterExit, OwnsSlot, SameWorker, Rescaled;
    hide MarkAll, Remaining, NothingToResize, Bootable, Spared;
  }

  lemma PlanPipesMove(c: Config, s: State, pc: Pc, ch: Choice)
    requires Ok(s) && PcOk(s.core, pc)
    ensures var f := Plan(c, s, pc, ch); f.Some? ==> PipesMove(c, s, pc, f.value)
  {
    hide PlanRequest, PlanSender, PlanBoot, PlanMonitor, PlanControl, PlanOutside, PcOk, PipesMove;
    RequestPipesMove(c, s, pc, ch);
    BootPipesMove(c, s, pc, ch);
    MonitorPipesMove(c, s, pc, ch);
  }

  ghost predicate Quiet(c: Config, s: State)
    requires Ok(s)
  {
    c.orderly && Exclusive(s) && IdsUnique(s) && OneOutstanding(s) && PipesOk(s)
  }

  ghost predicate Talks(c: Config, s: State, pc: Pc, f: Effect)
    requires Ok(s) && OpOk(s.core, f.op)
  {
    HandsOn(s, pc, f) && Converses(s, pc, f) && PipesMove(c, s, pc, f)
  }

  lemma PipesPreserved(c: Config, s: State, t: nat, f: Effect)
    requires Ok(s) && t < |s.threads| && OpOk(s.core, f.op) && EffectOk(s, f)
    requires Quiet(c, s) && Talks(c, s, s.threads[t], f)
    ensures Ok(Perform(s, t, f)) && PipesOk(Perform(s, t, f))
  {
    PerformOk(s, t, f);
    hide PcOk, PipeOk, Talks, Quiet;
    var s' := Perform(s, t, f);
    forall u | 0 <= u < |s'.threads| ensures PipeOk(s', s'.threads[u]) {
      if u == t {
        MoverPipeOk(c, s, t, f);
      } else if u < |s.threads| {
        BystanderPipeOk(c, s, t, f, u);
      } else {
        SpawnedPipeOk(c, s, t, f, u);
      }
    }
    forall k | 0 <= k < |s'.core.idle| ensures Empty(s'.core.workers[s'.core.idle[k]].conn) {
      ChannelPipeOk(c, s, t, f, k);
    }
  }

  lemma MoverPipeOk(c: Config, s: State, t: nat, f: Effect)
    requires Ok(s) && t < |s.threads| && OpOk(s.core, f.op) && EffectOk(s, f)
    requires Quiet(c, s) && Talks(c, s, s.threads[t], f) && Ok(Perform(s, t, f))
    ensures PipeOk(Perform(s, t, f), f.next)
  {
    hide ValidResponse;
    assert PipeOk(s, s.threads[t]);
  }

  lemma BystanderPipeOk(c: Config, s: State, t: nat, f: Effect, u: nat)
    requires Ok(s) && t < |s.threads| && OpOk(s.core, f.op) && EffectOk(s, f)
    requires Quiet(c, s) && Talks(c, s, s.threads[t], f) && Ok(Perform(s, t, f))
    requires u < |s.threads| && u != t
    ensures PipeOk(Perform(s, t, f), s.threads[u])
  {
    hide Quiet, Talks, PipeOk, PcOk;
    if IsSender(s.threads[u]) {
      BystandingSender(c, s, t, f, u);
    } else if s.threads[u].Await? {
      BystandingWaiter(c, s, t, f, u);
    } else {
      BystandingHolder(c, s, t, f, u);
    }
  }

  lemma BystandingSender(c: Config, s: State, t: nat, f: Effect, u: nat)
    requires Ok(s) && t < |s.threads| && OpOk(s.core, f.op) && EffectOk(s, f)
    requires Quiet(c, s) && Talks(c, s, s.threads[t], f) && Ok(Perform(s, t, f))
    requires u < |s.threads| && u != t && IsSender(s.threads[u])
    ensures PipeOk(Perform(s, t, f), s.threads[u])
  {
    hide ValidResponse, Held, HandsOn, Tidy, Exclusive;
    assert PipeOk(s, s.threads[u]);
    assert IsSender(s.threads[t]) ==> !SharesConnection(s.threads[t], s.threads[u]);
  }

  lemma BystandingWaiter(c: Config, s: State, t: nat, f: Effect, u: nat)
    requires Ok(s) && t < |s.threads| && OpOk(s.core, f.op) && EffectOk(s, f)
    requires Quiet(c, s) && Talks(c, s, s.threads[t], f) && Ok(Perform(s, t, f))
    requires u < |s.threads| && u != t && s.threads[u].Await?
    ensures PipeOk(Perform(s, t, f), s.threads[u])
  {
    hide ValidResponse, HandsOn, Exclusive;
    assert PipeOk(s, s.threads[u]) && PipeOk(s, s.threads[t]);
    assert IsSender(s.threads[t]) ==>
      Compatible(s.threads[t], s.threads[u]) && Unanswered(s, s.threads[t]);
  }

  lemma BystandingHolder(c: Config, s: State, t: nat, f: Effect, u: nat)
    requires Ok(s) && t < |s.threads| && OpOk(s.core, f.op) && EffectOk(s, f)
    requires Quiet(c, s) && Talks(c, s, s.threads[t], f) && Ok(Perform(s, t, f))
    requires u < |s.threads| && u != t && !IsSender(s.threads[u]) && !s.threads[u].Await?
    ensures PipeOk(Perform(s, t, f), s.threads[u])
  {
    hide ValidResponse, HandsOn, Exclusive, Unanswered, Held;
    assert PipeOk(s, s.threads[u]);
    assert IsSender(s.threads[t]) ==> Compatible(s.threads[t], s.threads[u]);
    if Held(s.threads[u]).Some? {
      HeldIsValid(s.core, s.threads[u]);
    }
  }

  lemma SpawnedPipeOk(c: Config, s: State, t: nat, f: Effect, u: nat)
    requires Ok(s) && t < |s.threads| && OpOk(s.core, f.op) && EffectOk(s, f)
    requires Quiet(c, s) && Talks(c, s, s.threads[t], f) && Ok(Perform(s, t, f))
    requires |s.threads| <= u < |Perform(s, t, f).threads|
    ensures PipeOk(Perform(s, t, f), Perform(s, t, f).threads[u])
  {
    hide ValidResponse;
    assert PipeOk(s, s.threads[t]);
    var k := u - |s.threads|;
    assert Perform(s, t, f).threads[u] == f.spawned[k];
    assert Held(f.spawned[k]).None?;
  }

  lemma ChannelPipeOk(c: Config, s: State, t: nat, f: Effect, k: nat)
    requires Ok(s) && t < |s.threads| && OpOk(s.core, f.op) && EffectOk(s, f)
    requires Quiet(c, s) && Talks(c, s, s.threads[t], f) && Ok(Perform(s, t, f))
    requires k < |Perform(s, t, f).core.idle|
    ensures var q := Perform(s, t, f).core; Empty(q.workers[q.idle[k]].conn)
  {
    hide ValidResponse;
    assert PipeOk(s, s.threads[t]);
  }

  /** What a sender reads from an orderly worker is always the response to its own request. */
  lemma NoMismatch(c: Config, s: State, t: nat)
    requires Ok(s) && PipesOk(s) && t < |s.threads| && s.threads[t].Read?
    requires s.core.workers[s.threads[t].w].conn.fromWorker != []
    ensures ValidResponse(s.core.workers[s.threads[t].w].conn.fromWorker[0], s.threads[t].id)
  {
    assert PipeOk(s, s.threads[t]);
  }
}
