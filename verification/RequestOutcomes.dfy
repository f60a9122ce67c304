/**
 How a request's exchange with its worker ends (internal/dispatcher/dispatcher.go:171-206, process.go:150-185,
 internal/protocol/conn.go:30-73): what it takes for a worker to be discarded, where a response comes from, and, for
 whole operations, that an answered request gives its worker back.
 */
module RequestOutcomes {
  import opened Basics
  import opened Protocol
  import opened PoolModel
  import opened PoolMachine
  import opened PoolOwnership
  import opened Admission
  import opened OrderlyWorkers
  import opened ResponseMatching
  import opened PoolIdentity
  import opened WholeOperations
  import opened PoolRuns
  import opened PoolTheorems
  import opened Continuations
  import opened RequestService

  // ----- the two ends of a wait -----

  /** Thread t waits for the answer of worker w to request id. */
  ghost predicate Waits(s: State, t: nat, w: Ref, id: nat) {
    t < |s.threads| && s.threads[t] == Await(w, id)
  }

  lemma WaitEnds(c: Config, s: State, e: Event, s': State, w: Ref, id: nat)
    requires Step(c, s, e, s') && Waits(s, e.t, w, id)
    ensures ValidRef(s.core, w) && |s'.threads| == |s.threads|
    ensures e.choice.Fail? ==>
              s'.threads[e.t] == Discard(w)
              && s'.core == s.core.(workers := s.core.workers[w := Closed(s.core.workers[w])])
    ensures !e.choice.Fail? ==>
              && s'.core == s.core && id in s.replies
              && s'.threads[e.t] == (if s.replies[id].Broken? then Discard(w) else Release(w, id, s.replies[id].resp))
  {
    assert PcOk(s.core, s.threads[e.t]);
    hide PcOk, CoreOk;
  }

  // ----- where replies come from -----

  /** In this step the sender of request id gets no valid response out of the connection of w. */
  ghost predicate Breaks(s: State, e: Event, w: Ref, id: nat) {
    && e.t < |s.threads| && w < |s.core.workers|
    && var conn := s.core.workers[w].conn;
       || (s.threads[e.t] == Write(w, id) && (e.choice.Fail? || !conn.open))
       || (&& s.threads[e.t] == Read(w, id)
           && (|| e.choice.Fail? || !conn.open
               || (conn.fromWorker != [] && !ValidResponse(conn.fromWorker[0], id))))
  }

  /** In this step the sender of request id reads a valid response from the connection of w. */
  ghost predicate Reads(s: State, e: Event, w: Ref, id: nat, resp: Response) {
    && e.t < |s.threads| && w < |s.core.workers| && s.threads[e.t] == Read(w, id)
    && var conn := s.core.workers[w].conn;
       conn.open && conn.fromWorker != [] && resp == conn.fromWorker[0] && ValidResponse(resp, id)
  }

  /** A sender's step posts what the connection has given. */
  lemma SenderPosts(c: Config, s: State, e: Event, s': State, id: nat) returns (w: Ref)
    requires Step(c, s, e, s') && id !in s.replies && id in s'.replies
    ensures IsSender(s.threads[e.t]) && s.threads[e.t].w == w && s.threads[e.t].id == id
    ensures s'.replies[id].Broken? ==> Breaks(s, e, w, id)
    ensures s'.replies[id].Answered? ==> Reads(s, e, w, id, s'.replies[id].resp)
  {
    PlanConverses(c, s, s.threads[e.t], e.choice);
    w := s.threads[e.t].w;
    assert PcOk(s.core, s.threads[e.t]);
    SendersPlan(c, s, s.threads[e.t], e.choice);
    hide Plan, PcOk, CoreOk, ValidResponse;
  }

  lemma SendersPlan(c: Config, s: State, pc: Pc, ch: Choice)
    requires Ok(s) && PcOk(s.core, pc) && IsSender(pc)
    ensures Plan(c, s, pc, ch) == PlanSender(s, pc, ch)
  {
    hide PlanSender, PcOk, CoreOk;
  }

  /** Only a sender without a reply posts one. */
  lemma RepliesStay(c: Config, s: State, e: Event, s': State, id: nat)
    requires Step(c, s, e, s') && IdsUnique(s) && id in s.replies
    ensures id in s'.replies && s'.replies[id] == s.replies[id]
  {
    PlanConverses(c, s, s.threads[e.t], e.choice);
    hide Plan, PcOk, CoreOk, ValidResponse;
    if IsSender(s.threads[e.t]) {
      assert Unanswered(s, s.threads[e.t]);
    }
  }

  lemma RunIds(c: Config, states: seq<State>, events: seq<Event>, k: nat)
    requires Run(c, states, events) && k < |states|
    ensures Ok(states[k]) && IdsUnique(states[k]) && OneOutstanding(states[k])
  {
    RunInv(c, states, events, k);
  }

  /** A reply was posted in an earlier step, by a sender of that id. */
  lemma {:induction false} ReplyWasPosted(c: Config, states: seq<State>, events: seq<Event>, k: nat, id: nat)
    returns (j: nat, w: Ref)
    requires Run(c, states, events) && k < |states| && id in states[k].replies
    ensures j < k && events[j].t < |states[j].threads|
    ensures IsSender(states[j].threads[events[j].t])
            && states[j].threads[events[j].t].w == w && states[j].threads[events[j].t].id == id
    ensures states[k].replies[id].Broken? ==> Breaks(states[j], events[j], w, id)
    ensures states[k].replies[id].Answered? ==> Reads(states[j], events[j], w, id, states[k].replies[id].resp)
  {
    hide Run, Step, Init, Breaks, Reads, IdsUnique, OneOutstanding, PcOk, CoreOk;
    RunUnfolds(c, states, events, if k == 0 then 0 else k - 1);
    if k == 0 {
      NoReplyAtFirst(c, states[0]);
    } else if id in states[k - 1].replies {
      RunIds(c, states, events, k - 1);
      RepliesStay(c, states[k - 1], events[k - 1], states[k], id);
      j, w := ReplyWasPosted(c, states, events, k - 1, id);
    } else {
      j := k - 1;
      StepHasThread(c, states[j], events[j], states[k]);
      w := SenderPosts(c, states[j], events[j], states[k], id);
    }
  }

  lemma NoReplyAtFirst(c: Config, s: State)
    requires Init(c, s)
    ensures s.replies == map[] && s.lastId == 0 && s.core.workers == []
    ensures forall t :: 0 <= t < |s.threads| ==> s.threads[t].Outside? || s.threads[t].BootStart?
  {
  }

  // ----- a request waits for one worker all the time -----

  lemma WaitBegan(c: Config, s: State, e: Event, s': State, t: nat, w: Ref, id: nat)
    requires Step(c, s, e, s') && Waits(s', t, w, id)
    ensures s.lastId <= s'.lastId
    ensures id <= s.lastId ==> Waits(s, t, w, id)
  {
    PlanConverses(c, s, s.threads[e.t], e.choice);
    hide Plan, PcOk, CoreOk, ValidResponse;
  }

  lemma LastIdGrows(c: Config, s: State, e: Event, s': State)
    requires Step(c, s, e, s')
    ensures s.lastId <= s'.lastId
  {
    hide Plan, PcOk, CoreOk;
  }

  lemma {:induction false} LastIdOverRuns(c: Config, states: seq<State>, events: seq<Event>, j: nat, k: nat)
    requires Run(c, states, events) && j <= k < |states|
    ensures states[j].lastId <= states[k].lastId
    decreases k
  {
    hide Run, Step;
    if j < k {
      LastIdOverRuns(c, states, events, j, k - 1);
      RunStep(c, states, events, k - 1);
      LastIdGrows(c, states[k - 1], events[k - 1], states[k]);
    }
  }

  lemma {:induction false} WaitedBefore(
    c: Config, states: seq<State>, events: seq<Event>, j: nat, k: nat, t: nat, w: Ref, id: nat)
    requires Run(c, states, events) && j <= k < |states|
    requires Waits(states[k], t, w, id) && id <= states[j].lastId
    ensures Waits(states[j], t, w, id)
    decreases k
  {
    hide Run, Step, Waits;
    if j < k {
      RunStep(c, states, events, k - 1);
      LastIdOverRuns(c, states, events, j, k - 1);
      WaitBegan(c, states[k - 1], events[k - 1], states[k], t, w, id);
      WaitedBefore(c, states, events, j, k - 1, t, w, id);
    }
  }

  /** The reply a request waits for was posted by the sender of its own worker. */
  lemma PostedForTheWaiting(
    c: Config, states: seq<State>, events: seq<Event>, k: nat, t: nat, w: Ref, id: nat) returns (j: nat)
    requires Run(c, states, events) && k < |states| && Waits(states[k], t, w, id) && id in states[k].replies
    ensures j < k
    ensures states[k].replies[id].Broken? ==> Breaks(states[j], events[j], w, id)
    ensures states[k].replies[id].Answered? ==> Reads(states[j], events[j], w, id, states[k].replies[id].resp)
  {
    hide Run, Breaks, Reads;
    RunUnfolds(c, states, events, 0);
    var v: Ref;
    j, v := ReplyWasPosted(c, states, events, k, id);
    RunIds(c, states, events, j);
    var u := events[j].t;
    assert Unanswered(states[j], states[j].threads[u]);
    WaitedBefore(c, states, events, j, k, t, w, id);
    assert Compatible(states[j].threads[u], states[j].threads[t]);
  }

  /**
   A waiting request turns to discarding its worker if and only if it gives up - and then it closes the connection - or
   its reply is a failure; that reply was posted by the sender on the same connection, which had failed, found it closed
   or read something that is not a valid response under the request's id.
   */
  lemma DiscardedExactlyWhen(
    c: Config, states: seq<State>, events: seq<Event>, k: nat, w: Ref, id: nat) returns (j: nat)
    requires Run(c, states, events) && k < |events| && Waits(states[k], events[k].t, w, id)
    ensures events[k].t < |states[k + 1].threads|
    ensures states[k + 1].threads[events[k].t] == Discard(w) <==>
            events[k].choice.Fail? || (id in states[k].replies && states[k].replies[id].Broken?)
    ensures events[k].choice.Fail? ==>
              w < |states[k + 1].core.workers| && !states[k + 1].core.workers[w].conn.open
    ensures states[k + 1].threads[events[k].t] == Discard(w) && !events[k].choice.Fail? ==>
              j < k && Breaks(states[j], events[j], w, id)
  {
    hide Run, Breaks, Reads;
    RunUnfolds(c, states, events, k);
    WaitEnds(c, states[k], events[k], states[k + 1], w, id);
    hide Step;
    j := 0;
    if !events[k].choice.Fail? {
      j := PostedForTheWaiting(c, states, events, k, events[k].t, w, id);
    }
  }

  // ----- where responses come from -----

  /** Thread t has its response and is about to give its worker back. */
  ghost predicate HasResponse(s: State, t: nat, w: Ref, id: nat, resp: Response) {
    t < |s.threads| && s.threads[t] == Release(w, id, resp)
  }

  lemma ResponseTaken(c: Config, s: State, e: Event, s': State, t: nat, w: Ref, id: nat, resp: Response)
    requires Step(c, s, e, s') && HasResponse(s', t, w, id, resp) && !HasResponse(s, t, w, id, resp)
    ensures Waits(s, t, w, id) && id in s.replies && s.replies[id] == Answered(resp)
  {
    PlanConverses(c, s, s.threads[e.t], e.choice);
    hide Plan, PcOk, CoreOk, ValidResponse;
  }

  lemma NoResponseAtFirst(c: Config, s: State, t: nat, w: Ref, id: nat, resp: Response)
    requires Init(c, s)
    ensures !HasResponse(s, t, w, id, resp)
  {
    NoReplyAtFirst(c, s);
  }

  lemma {:induction false} ResponseWasRead(
    c: Config, states: seq<State>, events: seq<Event>, k: nat, t: nat, w: Ref, id: nat, resp: Response)
    returns (j: nat)
    requires Run(c, states, events) && k < |states| && HasResponse(states[k], t, w, id, resp)
    ensures j < k && Reads(states[j], events[j], w, id, resp)
  {
    hide Run, Step, Init, Breaks, Reads, HasResponse, Waits;
    RunUnfolds(c, states, events, if k == 0 then 0 else k - 1);
    if k == 0 {
      NoResponseAtFirst(c, states[0], t, w, id, resp);
    } else if HasResponse(states[k - 1], t, w, id, resp) {
      j := ResponseWasRead(c, states, events, k - 1, t, w, id, resp);
    } else {
      ResponseTaken(c, states[k - 1], events[k - 1], states[k], t, w, id, resp);
      j := PostedForTheWaiting(c, states, events, k - 1, t, w, id);
    }
  }

  /** A frame of worker w that the sender has not read yet. */
  ghost predicate Arrived(p: Core, w: Ref, resp: Response) {
    w < |p.workers| && resp in p.workers[w].conn.fromWorker
  }

  ghost predicate IsWriting(s: State, e: Event, w: Ref, resp: Response) {
    e.t < |s.threads| && s.threads[e.t].Outside? && e.choice == WorkerWrites(w, resp)
  }

  lemma WorkersKeepFrames(p: Core, op: Op, w: Ref, resp: Response)
    requires CoreOk(p) && OpOk(p, op) && Arrived(ApplyOp(p, op), w, resp) && !Arrived(p, w, resp)
    ensures op.AddWorker? || ((op.PutWorker? || op.PutBoth?) && op.w == w)
  {
  }

  lemma FrameWasWritten(c: Config, s: State, e: Event, s': State, w: Ref, resp: Response)
    requires Step(c, s, e, s') && Arrived(s'.core, w, resp) && !Arrived(s.core, w, resp)
    ensures IsWriting(s, e, w, resp)
  {
    var pc := s.threads[e.t];
    var f := Plan(c, s, pc, e.choice).value;
    PlanPipesMove(c, s, pc, e.choice);
    WorkersKeepFrames(s.core, f.op, w, resp);
    if pc.Outside? {
      WorldWrites(c, s, pc, e.choice, w, resp);
    }
    hide Plan, PcOk, CoreOk, ValidResponse, MayWrite;
  }

  lemma WorldWrites(c: Config, s: State, pc: Pc, ch: Choice, w: Ref, resp: Response)
    requires Ok(s) && PcOk(s.core, pc) && pc.Outside? && Plan(c, s, pc, ch).Some?
    requires Arrived(ApplyOp(s.core, Plan(c, s, pc, ch).value.op), w, resp) && !Arrived(s.core, w, resp)
    ensures ch == WorkerWrites(w, resp)
  {
    hide PcOk, CoreOk, MayWrite;
  }

  lemma {:induction false} FrameCameFromWorker(
    c: Config, states: seq<State>, events: seq<Event>, k: nat, w: Ref, resp: Response) returns (i: nat)
    requires Run(c, states, events) && k < |states| && Arrived(states[k].core, w, resp)
    ensures i < k && IsWriting(states[i], events[i], w, resp)
  {
    hide Run, Step, Init, Arrived, IsWriting;
    RunUnfolds(c, states, events, if k == 0 then 0 else k - 1);
    if k == 0 {
      NothingArrivedAtFirst(c, states[0], w, resp);
    } else if Arrived(states[k - 1].core, w, resp) {
      i := FrameCameFromWorker(c, states, events, k - 1, w, resp);
    } else {
      i := k - 1;
      FrameWasWritten(c, states[k - 1], events[k - 1], states[k], w, resp);
    }
  }

  lemma NothingArrivedAtFirst(c: Config, s: State, w: Ref, resp: Response)
    requires Init(c, s)
    ensures !Arrived(s.core, w, resp)
  {
  }

  /**
   The response a request goes on with is a frame its own worker wrote, which the request's own sender read from that
   worker's connection, and it is valid: a response of version 1 with the request's id and a status from 100 to 599.
   */
  lemma ResponseCameFromItsWorker(
    c: Config, states: seq<State>, events: seq<Event>, k: nat, t: nat, w: Ref, id: nat, resp: Response)
    returns (i: nat, j: nat)
    requires Run(c, states, events) && k < |states| && HasResponse(states[k], t, w, id, resp)
    ensures i < j < k
    ensures events[i].choice == WorkerWrites(w, resp)
    ensures events[j].t < |states[j].threads| && states[j].threads[events[j].t] == Read(w, id)
    ensures w < |states[j].core.workers| && states[j].core.workers[w].conn.open
    ensures states[j].core.workers[w].conn.fromWorker != [] && states[j].core.workers[w].conn.fromWorker[0] == resp
    ensures resp.kind == "response" && resp.version == 1 && resp.id == id && 100 <= resp.status <= 599
  {
    hide Run;
    j := ResponseWasRead(c, states, events, k, t, w, id, resp);
    assert Arrived(states[j].core, w, resp);
    i := FrameCameFromWorker(c, states, events, j, w, resp);
  }

  // ----- who has to wait, who is turned away and who gives up -----

  /** A step of a request that has no worker: where it goes, and when. */
  lemma WithoutWorker(c: Config, s: State, e: Event, s': State)
    requires Step(c, s, e, s')
    requires var pc := s.threads[e.t]; pc.TryAcquire? || pc.Receive? || pc.Check? || pc.EnterQueue?
    ensures |s'.threads| == |s.threads|
    ensures s'.threads[e.t].EnterQueue? <==>
            var pc := s.threads[e.t];
            || (pc.TryAcquire? && (!c.http || s.core.stopping))
            || (pc == Receive(false) && s.core.idle == [])
            || (pc.Check? && !pc.queued && s.core.stopping)
    ensures s'.threads[e.t].LeaveQueue? <==>
            var pc := s.threads[e.t];
            || (pc == Receive(true) && (e.choice.Fail? || !c.http))
            || (pc.Check? && pc.queued && s.core.stopping)
    ensures s'.threads[e.t].Done? <==>
            s.threads[e.t].EnterQueue? && (c.queueCapacity <= 0 || s.waiting >= c.queueCapacity)
  {
    assert PcOk(s.core, s.threads[e.t]);
    hide PcOk;
  }

  /**
   A request that finds no worker at once goes to the queue exactly if the pool serves no requests, is stopping or its
   channel is empty. It is turned away exactly if the queue has no capacity or that many requests are inside; and it
   gives up waiting exactly on its deadline, or when the pool stops.
   */
  lemma WaitingRules(c: Config, states: seq<State>, events: seq<Event>, k: nat)
    requires Run(c, states, events) && k < |events| && c.http && events[k].t < |states[k].threads|
    requires var pc := states[k].threads[events[k].t];
             pc.TryAcquire? || pc.Receive? || pc.Check? || pc.EnterQueue?
    ensures |states[k + 1].threads| == |states[k].threads|
    ensures var s, pc, next := states[k], states[k].threads[events[k].t], states[k + 1].threads[events[k].t];
            && (next.EnterQueue? <==>
                  if pc == Receive(false) then s.core.idle == []
                  else s.core.stopping && (pc.TryAcquire? || (pc.Check? && !pc.queued)))
            && (next.Done? <==> pc.EnterQueue? && CountIf(s.threads, InQueue) >= Max(c.queueCapacity, 0))
            && (next.LeaveQueue? <==>
                  if pc == Receive(true) then events[k].choice.Fail?
                  else s.core.stopping && pc.Check? && pc.queued)
  {
    RunInv(c, states, events, k);
    RunStep(c, states, events, k);
    hide Run, Step, Inv, InQueue;
    WithoutWorker(c, states[k], events[k], states[k + 1]);
    AdmittedIsExact(c, states[k]);
  }

  lemma AdmittedIsExact(c: Config, s: State)
    requires Inv(c, s)
    ensures s.waiting == CountIf(s.threads, InQueue)
  {
  }

  // ----- the channel never holds more than it can -----

  lemma RequestFits(c: Config, s: State, pc: Pc, ch: Choice)
    requires Ok(s) && PcOk(s.core, pc)
    ensures var f := PlanRequest(c, s, pc, ch); f.Some? && f.value.op.PutIdle? ==> |s.core.idle| < c.idleCap
    ensures var f := PlanSender(s, pc, ch); f.Some? ==> !f.value.op.PutIdle?
  {
    hide CheckAcquired, WantsRecycle, SameGeneration, OutOfService, ValidResponse, CoreOk;
  }

  lemma BootFits(c: Config, s: State, pc: Pc, ch: Choice)
    requires Ok(s) && PcOk(s.core, pc)
    ensures var f := PlanBoot(c, s, pc, ch); f.Some? && f.value.op.PutIdle? ==> |s.core.idle| < c.idleCap
    ensures var f := PlanMonitor(c, s, pc, ch); f.Some? && f.value.op.PutIdle? ==> |s.core.idle| < c.idleCap
  {
    hide RecordCrash, SlotFailed, PlanAfterExit, OwnsSlot, SameWorker, Accepting, CoreOk;
  }

  lemma ControlFits(c: Config, s: State, pc: Pc, ch: Choice)
    requires Ok(s) && PcOk(s.core, pc)
    ensures var f := PlanOutside(c, s, pc, ch); f.Some? ==> !f.value.op.PutIdle?
    ensures var f := PlanControl(c, s, pc); f.Some? ==> !f.value.op.PutIdle?
  {
    hide Rescaled, MarkAll, Remaining, NothingToResize, Bootable, Spared, MayWrite;
  }

  lemma PushFits(c: Config, s: State, e: Event, s': State)
    requires Step(c, s, e, s') && |s.core.idle| <= c.idleCap
    ensures |s'.core.idle| <= c.idleCap
  {
    hide PlanRequest, PlanSender, PlanBoot, PlanMonitor, PlanControl, PlanOutside, PcOk, CoreOk;
    RequestFits(c, s, s.threads[e.t], e.choice);
    BootFits(c, s, s.threads[e.t], e.choice);
    ControlFits(c, s, s.threads[e.t], e.choice);
  }

  lemma {:induction false} ChannelFits(c: Config, states: seq<State>, events: seq<Event>, k: nat)
    requires Run(c, states, events) && k < |states|
    ensures |states[k].core.idle| <= c.idleCap
  {
    hide Run, Step, Init;
    RunUnfolds(c, states, events, if k == 0 then 0 else k - 1);
    if k == 0 {
      EmptyChannelAtFirst(c, states[0]);
    } else {
      ChannelFits(c, states, events, k - 1);
      PushFits(c, states[k - 1], events[k - 1], states[k]);
    }
  }

  lemma {:induction false} FitsOverPaths(c: Config, states: seq<State>, events: seq<Event>, m: nat)
    requires Path(c, states, events) && m < |states| && |states[0].core.idle| <= c.idleCap
    ensures |states[m].core.idle| <= c.idleCap
  {
    hide Step;
    if m > 0 {
      FitsOverPaths(c, states, events, m - 1);
      PushFits(c, states[m - 1], events[m - 1], states[m]);
    }
  }

  lemma StillFits(c: Config, s: State, s': State)
    requires Leads(c, s, s') && |s.core.idle| <= c.idleCap
    ensures |s'.core.idle| <= c.idleCap
  {
    hide Step;
    var states, events :| Path(c, states, events) && states[0] == s && states[|events|] == s';
    FitsOverPaths(c, states, events, |events|);
  }

  lemma EmptyChannelAtFirst(c: Config, s: State)
    requires Init(c, s)
    ensures s.core.idle == []
  {
  }

  /**
   Whenever p.mu is free and a usable worker is in the channel, the run can go on so that a request that arrives now
   takes the first such worker, sends its frame, gets any valid answer and puts the worker back.
   */
  lemma ARunCanServe(c: Config, states: seq<State>, events: seq<Event>, m: nat, resp: Response)
    returns (states': seq<State>, events': seq<Event>)
    requires Run(c, states, events)
    requires var s := states[|events|];
             && Ok(s) && c.http && !s.locked && m < |s.core.idle| && Available(s.core, s.core.idle[m])
             && (forall k :: 0 <= k < m ==> Useless(s.core, s.core.idle[k]))
             && ValidResponse(resp, s.lastId + 1)
             && KeepsWorker(c, s.core.workers[s.core.idle[m]].handled + 1, resp)
    ensures Run(c, states', events') && states <= states' && events <= events'
    ensures var s := states[|events|];
            states'[|events'|] == s.(core := Turned(s.core, m), threads := s.threads + [Done, Done],
                                     lastId := s.lastId + 1, replies := s.replies[s.lastId + 1 := Answered(resp)])
  {
    hide Run, Leads, Step, Available, Useless, KeepsWorker, ValidResponse;
    RunUnfolds(c, states, events, 0);
    var s := states[|events|];
    assert WorkersDistinct(s.core) by { RunInv(c, states, events, |events|); }
    OutsideStaysOutside(c, states, events, |events|);
    ChannelFits(c, states, events, |events|);
    var s' := ARequestCanBeServed(c, s, m, resp);
    states', events' := PathExtendsRun(c, states, events, s');
  }

  // ----- consumer pools -----

  /** Only a boot has a worker in hand. */
  ghost predicate HandsOff(pc: Pc) {
    Held(pc).Some? ==> pc.BootInstall? || pc.BootWatch? || pc.BootPush?
  }

  ghost predicate NobodyServes(s: State) {
    s.core.idle == [] && forall t :: 0 <= t < |s.threads| ==> HandsOff(s.threads[t])
  }

  ghost predicate StaysIdle(s: State, f: Effect)
    requires Ok(s) && OpOk(s.core, f.op)
  {
    !f.op.PutIdle? && HandsOff(f.next) && forall k :: 0 <= k < |f.spawned| ==> HandsOff(f.spawned[k])
  }

  lemma RequestStaysIdle(c: Config, s: State, pc: Pc, ch: Choice)
    requires Ok(s) && PcOk(s.core, pc) && !c.http && s.core.idle == [] && HandsOff(pc)
    ensures var f := PlanRequest(c, s, pc, ch); f.Some? ==> StaysIdle(s, f.value)
    ensures var f := PlanSender(s, pc, ch); f.Some? ==> StaysIdle(s, f.value)
    ensures var f := PlanOutside(c, s, pc, ch); f.Some? ==> StaysIdle(s, f.value)
  {
    hide ReleaseCommit, DiscardCommit, CheckAcquired, ValidResponse, MayWrite;
  }

  lemma BootStaysIdle(c: Config, s: State, pc: Pc, ch: Choice)
    requires Ok(s) && PcOk(s.core, pc) && !c.http && s.core.idle == [] && HandsOff(pc)
    ensures var f := PlanBoot(c, s, pc, ch); f.Some? ==> StaysIdle(s, f.value)
  {
    hide RecordCrash, SlotFailed, Accepting;
  }

  lemma MonitorStaysIdle(c: Config, s: State, pc: Pc, ch: Choice)
    requires Ok(s) && PcOk(s.core, pc) && !c.http && s.core.idle == [] && HandsOff(pc)
    ensures var f := PlanMonitor(c, s, pc, ch); f.Some? ==> StaysIdle(s, f.value)
  {
    hide RecordCrash, SlotFailed, PlanAfterExit, OwnsSlot, SameWorker;
  }

  lemma ControlStaysIdle(c: Config, s: State, pc: Pc)
    requires Ok(s) && PcOk(s.core, pc) && !c.http && s.core.idle == [] && HandsOff(pc)
    ensures var f := PlanControl(c, s, pc); f.Some? ==> StaysIdle(s, f.value)
  {
    hide Rescaled, MarkAll, Remaining, NothingToResize, Bootable, Spared;
  }

  lemma StepStaysIdle(c: Config, s: State, e: Event, s': State)
    requires Step(c, s, e, s') && !c.http && NobodyServes(s)
    ensures NobodyServes(s')
  {
    hide PlanRequest, PlanSender, PlanBoot, PlanMonitor, PlanControl, PlanOutside, PcOk, CoreOk, HandsOff;
    RequestStaysIdle(c, s, s.threads[e.t], e.choice);
    BootStaysIdle(c, s, s.threads[e.t], e.choice);
    MonitorStaysIdle(c, s, s.threads[e.t], e.choice);
    ControlStaysIdle(c, s, s.threads[e.t]);
  }

  lemma NobodyServesAtFirst(c: Config, s: State)
    requires Init(c, s)
    ensures NobodyServes(s)
  {
    NoReplyAtFirst(c, s);
  }

  /** A pool that is not an HTTP pool has an empty channel, and no request ever holds one of its workers. */
  lemma {:induction false} ConsumersServeNoRequests(c: Config, states: seq<State>, events: seq<Event>, k: nat)
    requires Run(c, states, events) && k < |states| && !c.http
    ensures states[k].core.idle == []
    ensures forall t :: 0 <= t < |states[k].threads| ==> HandsOff(states[k].threads[t])
  {
    hide Run, Step, Init, HandsOff;
    RunUnfolds(c, states, events, if k == 0 then 0 else k - 1);
    if k == 0 {
      NobodyServesAtFirst(c, states[0]);
    } else {
      ConsumersServeNoRequests(c, states, events, k - 1);
      StepStaysIdle(c, states[k - 1], events[k - 1], states[k]);
    }
  }

  // ----- whole operations: an answered request gives its worker back -----

  lemma {:induction false} ResponseIsKept(
    c: Config, states: seq<State>, events: seq<Event>, j: nat, k: nat, t: nat, w: Ref, id: nat, resp: Response)
    requires Run(c, states, events) && j <= k < |states| && HasResponse(states[j], t, w, id, resp)
    requires forall i :: j <= i < k ==> events[i].t != t
    ensures HasResponse(states[k], t, w, id, resp)
    decreases k
  {
    hide Run, Step, HasResponse;
    if j < k {
      ResponseIsKept(c, states, events, j, k - 1, t, w, id, resp);
      RunStep(c, states, events, k - 1);
      OthersKeepResponse(c, states[k - 1], events[k - 1], states[k], t, w, id, resp);
    }
  }

  lemma OthersKeepResponse(c: Config, s: State, e: Event, s': State, t: nat, w: Ref, id: nat, resp: Response)
    requires Step(c, s, e, s') && HasResponse(s, t, w, id, resp) && e.t != t
    ensures HasResponse(s', t, w, id, resp)
  {
    hide Plan, PcOk, CoreOk;
  }

  lemma ReleaseStep(c: Config, s: State, e: Event, s': State, w: Ref, id: nat, resp: Response)
    requires Step(c, s, e, s') && HasResponse(s, e.t, w, id, resp)
    requires InUse(s.core, w) && KeepsWorker(c, s.core.workers[w].handled + 1, resp)
    ensures ValidRef(s.core, w) && s'.threads == s.threads[e.t := Return(w)]
    ensures s'.core == s.core.(workers := s.core.workers[w :=
                        s.core.workers[w].(state := Idle, handled := s.core.workers[w].handled + 1)])
  {
    UsedIsValid(s.core, w);
    GivesBack(c, s.core, w, resp);
    hide PcOk, CoreOk, ReleaseCommit, InUse, KeepsWorker;
  }

  lemma ReturnStep(c: Config, s: State, e: Event, s': State, w: Ref)
    requires Step(c, s, e, s') && e.t < |s.threads| && s.threads[e.t] == Return(w) && |s.core.idle| < c.idleCap
    ensures s'.threads == s.threads[e.t := Done] && s'.core == s.core.(idle := s.core.idle + [w])
  {
    hide PcOk, CoreOk;
  }

  lemma OnlyTheOperatingThreadMoves(c: Config, s: State, e: Event, s': State, t: nat)
    requires WholeStep(c, s, e, s') && t < |s.threads| && InOperation(s.threads[t])
    ensures e.t == t && Step(c, s, e, s')
  {
    hide Step;
  }

  /**
   Between whole operations: the reply of a waiting request is an answer at step j, at step k it makes its next step,
   and then its worker is installed and in service, the pool runs and nobody asks for a recycling. With the step after
   that the worker is Idle, counted, and at the end of the channel, and nothing else has changed in between.
   */
  lemma AnsweredWorkerIsQueued(
    c: Config, states: seq<State>, events: seq<Event>, j: nat, k: nat, w: Ref, id: nat)
    requires WholeRun(c, states, events) && c.http && c.fixedSize
    requires j < k && k + 1 < |events| && events[k].t == events[j].t && !events[j].choice.Fail?
    requires forall i :: j < i < k ==> events[i].t != events[j].t
    requires Waits(states[j], events[j].t, w, id) && id in states[j].replies && states[j].replies[id].Answered?
    requires Ok(states[k]) && InUse(states[k].core, w)
    requires KeepsWorker(c, states[k].core.workers[w].handled + 1, states[j].replies[id].resp)
    ensures events[k + 1].t == events[j].t
    ensures states[k + 2].core == Served(states[k].core, w)
    ensures states[k + 2].threads == states[k].threads[events[j].t := Done]
  {
    hide Run, WholeRun, WholeStep, Step, Init, GoodConfig, Served, KeepsWorker, InUse, PcOk, CoreOk;
    WholeRunStep(c, states, events, j);
    var t, resp := events[j].t, states[j].replies[id].resp;
    WholeIsStep(c, states[j], events[j], states[j + 1]);
    WaitEnds(c, states[j], events[j], states[j + 1], w, id);
    ResponseIsKept(c, states, events, j + 1, k, t, w, id, resp);
    ReleaseReturns(c, states, events, k, w, id, resp);
  }

  lemma WholeIsStep(c: Config, s: State, e: Event, s': State)
    requires WholeStep(c, s, e, s')
    ensures Step(c, s, e, s')
  {
    hide Step;
  }

  lemma ReleaseReturns(
    c: Config, states: seq<State>, events: seq<Event>, k: nat, w: Ref, id: nat, resp: Response)
    requires WholeRun(c, states, events) && c.http && c.fixedSize && k + 1 < |events|
    requires HasResponse(states[k], events[k].t, w, id, resp)
    requires Ok(states[k]) && InUse(states[k].core, w) && KeepsWorker(c, states[k].core.workers[w].handled + 1, resp)
    ensures events[k + 1].t == events[k].t
    ensures states[k + 2].core == Served(states[k].core, w)
    ensures states[k + 2].threads == states[k].threads[events[k].t := Done]
  {
    hide Run, WholeRun, WholeStep, Step, Init, GoodConfig, Served, KeepsWorker, PcOk, CoreOk;
    var t := events[k].t;
    WholeRunStep(c, states, events, k);
    WholeRunStep(c, states, events, k + 1);
    WholeIsStep(c, states[k], events[k], states[k + 1]);
    ReleaseStep(c, states[k], events[k], states[k + 1], w, id, resp);
    OnlyTheOperatingThreadMoves(c, states[k + 1], events[k + 1], states[k + 2], t);
    NeverFull(c, states, events, k + 1, t);
    ReturnStep(c, states[k + 1], events[k + 1], states[k + 2], w);
    AddsUp(states[k].core, states[k + 1].core, states[k + 2].core, w);
    assert states[k].threads[t := Return(w)][t := Done] == states[k].threads[t := Done];
  }

  lemma AddsUp(p: Core, q: Core, r: Core, w: Ref)
    requires ValidRef(p, w) && r == q.(idle := q.idle + [w])
    requires q == p.(workers := p.workers[w := p.workers[w].(state := Idle, handled := p.workers[w].handled + 1)])
    ensures r == Served(p, w)
  {
  }
}
