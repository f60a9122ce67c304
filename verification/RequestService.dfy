/**
 A request can be served. From every state with a usable worker in the channel there are steps in which a request takes
 the first such worker, sends its frame, gets the answer and gives the worker back, and they change nothing else
 (internal/dispatcher/dispatcher.go:113-206, internal/worker/pool.go:563-724, process.go:150-185).
 */
module RequestService {
  import opened Basics
  import opened Protocol
  import opened PoolModel
  import opened PoolMachine
  import opened PoolIdentity
  import opened Continuations

  /** The worker is installed in a slot in service of a running pool. */
  ghost predicate InUse(p: Core, w: Ref)
    requires CoreOk(p)
  {
    ValidRef(p, w) && Current(p, w) && !p.stopping && !OutOfService(p, p.workers[w].slot)
  }

  /** What a request finds when it takes w: idle, with nothing under way on its open connection. */
  ghost predicate Available(p: Core, w: Ref)
    requires CoreOk(p)
  {
    InUse(p, w) && p.workers[w].state == Idle && p.workers[w].conn == Conn(true, [], [])
  }

  /** Nobody asks for a new worker process after this response, the one with which w has answered `handled` requests. */
  ghost predicate KeepsWorker(c: Config, handled: nat, resp: Response) {
    && !resp.meta.recycle
    && (c.maxRequests <= 0 || handled < c.maxRequests)
    && (c.memoryLimitMB <= 0 || resp.meta.memoryUsage < c.memoryLimitMB * 1048576)
  }

  /** The pool after w has served one request: it is idle again, at the end of the channel. */
  function Served(p: Core, w: Ref): Core
    requires ValidRef(p, w)
  {
    p.(workers := p.workers[w := p.workers[w].(state := Idle, handled := p.workers[w].handled + 1)],
       idle := p.idle + [w])
  }

  lemma UsedIsValid(p: Core, w: Ref)
    requires CoreOk(p) && InUse(p, w)
    ensures ValidRef(p, w)
  {
  }

  lemma GivesBack(c: Config, p: Core, w: Ref, resp: Response)
    requires CoreOk(p) && InUse(p, w) && KeepsWorker(c, p.workers[w].handled + 1, resp)
    ensures ReleaseCommit(c, p, w, resp) ==
            (PutWorker(w, p.workers[w].(state := Idle, handled := p.workers[w].handled + 1)), true)
  {
  }

  lemma FromRelease(c: Config, s: State, t: nat, w: Ref, id: nat, resp: Response) returns (s': State)
    requires Ok(s) && !s.locked && t < |s.threads| && s.threads[t] == Release(w, id, resp)
    requires InUse(s.core, w) && KeepsWorker(c, s.core.workers[w].handled + 1, resp) && |s.core.idle| < c.idleCap
    ensures Leads(c, s, s') && Ok(s')
    ensures s' == s.(core := Served(s.core, w), threads := s.threads[t := Done])
  {
    hide Leads, PcOk, CoreOk, InUse, KeepsWorker, ReleaseCommit;
    var p := s.core;
    UsedIsValid(p, w);
    GivesBack(c, p, w, resp);
    var back := p.workers[w].(state := Idle, handled := p.workers[w].handled + 1);
    var s1 := Moves(c, s, t, Go, Write1(PutWorker(w, back), Return(w)));
    s' := Moves(c, s1, t, Go, Write1(PutIdle(w), Done));
    assert s'.threads == s.threads[t := Done];
    hide Step;
    OneStep(c, s1, Event(t, Go), s');
    FirstStep(c, s, Event(t, Go), s1, s');
  }

  /**
   The reply of a waiting request is there: the worker can go back to the end of the channel and the request to its
   end. Nothing else changes.
   */
  lemma AnsweredRequestReturnsItsWorker(c: Config, s: State, t: nat, w: Ref, id: nat, resp: Response)
    returns (s': State)
    requires Ok(s) && !s.locked && t < |s.threads| && s.threads[t] == Await(w, id)
    requires id in s.replies && s.replies[id] == Answered(resp)
    requires InUse(s.core, w) && KeepsWorker(c, s.core.workers[w].handled + 1, resp) && |s.core.idle| < c.idleCap
    ensures Leads(c, s, s') && Ok(s')
    ensures s' == s.(core := Served(s.core, w), threads := s.threads[t := Done])
  {
    hide Leads, PcOk, CoreOk, InUse, KeepsWorker;
    var s1 := Moves(c, s, t, Go, Goto(Release(w, id, resp)));
    hide Step;
    s' := FromRelease(c, s1, t, w, id, resp);
    assert s'.threads == s.threads[t := Done];
    FirstStep(c, s, Event(t, Go), s1, s');
  }

  /** The pool after w has been sent away with its last request counted: it drains, and its exit is planned. */
  ghost function Recycled(p: Core, w: Ref): Core
    requires CoreOk(p) && ValidRef(p, w)
  {
    var i, wk := p.workers[w].slot - 1, p.workers[w];
    p.(workers := p.workers[w := Closed(wk.(state := Draining, handled := wk.handled + 1))],
       slots := p.slots[i := p.slots[i].(planned := true)])
  }

  /** Somebody wants the installed worker w gone: the pool stops, its slot is out of service, or it is used up. */
  ghost predicate Unwanted(c: Config, p: Core, w: Ref, resp: Response)
    requires CoreOk(p) && ValidRef(p, w)
  {
    p.stopping || OutOfService(p, p.workers[w].slot) || !KeepsWorker(c, p.workers[w].handled + 1, resp)
  }

  lemma SendsAway(c: Config, p: Core, w: Ref, resp: Response)
    requires CoreOk(p) && ValidRef(p, w) && Current(p, w) && Unwanted(c, p, w, resp)
    ensures var i, q := p.workers[w].slot, Recycled(p, w);
            ReleaseCommit(c, p, w, resp) == (PutBoth(w, q.workers[w], i, q.slots[i - 1]), false)
  {
  }

  lemma Recycles(c: Config, s: State, t: nat, w: Ref, id: nat, resp: Response) returns (s': State)
    requires Ok(s) && !s.locked && t < |s.threads| && s.threads[t] == Release(w, id, resp)
    requires ValidRef(s.core, w) && Current(s.core, w) && Unwanted(c, s.core, w, resp)
    ensures Step(c, s, Event(t, Go), s') && Ok(s')
    ensures s' == s.(core := Recycled(s.core, w), threads := s.threads[t := Done])
  {
    var p := s.core;
    SendsAway(c, p, w, resp);
    var i := p.workers[w].slot;
    var op := PutBoth(w, Recycled(p, w).workers[w], i, Recycled(p, w).slots[i - 1]);
    assert OpOk(p, op);
    hide PcOk, CoreOk, ReleaseCommit, Unwanted;
    s' := Moves(c, s, t, Go, Write1(op, Done));
  }

  /** The reply of a waiting request is there, but its worker is to go: it drains and does not come back. */
  lemma AnsweredRequestRecyclesItsWorker(c: Config, s: State, t: nat, w: Ref, id: nat, resp: Response)
    returns (s': State)
    requires Ok(s) && !s.locked && t < |s.threads| && s.threads[t] == Await(w, id)
    requires id in s.replies && s.replies[id] == Answered(resp)
    requires ValidRef(s.core, w) && Current(s.core, w) && Unwanted(c, s.core, w, resp)
    ensures Leads(c, s, s') && Ok(s')
    ensures s' == s.(core := Recycled(s.core, w), threads := s.threads[t := Done])
  {
    hide Leads, PcOk, CoreOk, Unwanted, Recycled;
    var s1 := Moves(c, s, t, Go, Goto(Release(w, id, resp)));
    hide Step;
    s' := Recycles(c, s1, t, w, id, resp);
    assert s'.threads == s.threads[t := Done];
    OneStep(c, s1, Event(t, Go), s');
    FirstStep(c, s, Event(t, Go), s1, s');
  }

  function WithConn(p: Core, w: Ref, conn: Conn): Core
    requires ValidRef(p, w)
  {
    p.(workers := p.workers[w := p.workers[w].(conn := conn)])
  }

  /** The frame of request id goes to its worker. */
  lemma Transmits(c: Config, s: State, u: nat, w: Ref, id: nat) returns (s': State)
    requires Ok(s) && u < |s.threads| && s.threads[u] == Write(w, id) && ValidRef(s.core, w)
    requires s.core.workers[w].conn == Conn(true, [], [])
    ensures Step(c, s, Event(u, Go), s') && Ok(s')
    ensures s' == s.(core := WithConn(s.core, w, Conn(true, [id], [])), threads := s.threads[u := Read(w, id)])
  {
    hide PcOk, CoreOk;
    var wk := s.core.workers[w];
    assert wk.conn.toWorker + [id] == [id];
    s' := Moves(c, s, u, Go, Write1(PutWorker(w, wk.(conn := Conn(true, [id], []))), Read(w, id)));
  }

  /** The worker answers it. */
  lemma Answers(c: Config, s: State, w: Ref, id: nat, resp: Response) returns (s': State)
    requires Ok(s) && |s.threads| > 0 && s.threads[0].Outside? && ValidRef(s.core, w) && ValidResponse(resp, id)
    requires s.core.workers[w].conn == Conn(true, [id], [])
    ensures Step(c, s, Event(0, WorkerWrites(w, resp)), s') && Ok(s')
    ensures s' == s.(core := WithConn(s.core, w, Conn(true, [], [resp])))
  {
    hide PcOk, CoreOk, ValidResponse;
    var wk := s.core.workers[w];
    assert Written(wk.conn, resp) == Conn(true, [], [resp]);
    s' := Moves(c, s, 0, WorkerWrites(w, resp), Write1(PutWorker(w, wk.(conn := Conn(true, [], [resp]))), Outside));
    assert s'.threads == s.threads;
  }

  /** And the sender posts the answer. */
  lemma Collects(c: Config, s: State, u: nat, w: Ref, id: nat, resp: Response) returns (s': State)
    requires Ok(s) && u < |s.threads| && s.threads[u] == Read(w, id) && ValidRef(s.core, w) && ValidResponse(resp, id)
    requires s.core.workers[w].conn == Conn(true, [], [resp])
    ensures Step(c, s, Event(u, Go), s') && Ok(s')
    ensures s' == s.(core := WithConn(s.core, w, Conn(true, [], [])), threads := s.threads[u := Done],
                     replies := s.replies[id := Answered(resp)])
  {
    hide PcOk, CoreOk, ValidResponse;
    var wk := s.core.workers[w];
    assert wk.conn.fromWorker[1..] == [];
    s' := Moves(c, s, u, Go, Effect(PutWorker(w, wk.(conn := Conn(true, [], []))), Done, [],
                                    Post(id, Answered(resp))));
  }

  lemma Exchanged(c: Config, s: State, u: nat, w: Ref, id: nat, resp: Response) returns (s': State)
    requires Ok(s) && 0 < u < |s.threads| && s.threads[0].Outside? && s.threads[u] == Write(w, id)
    requires ValidRef(s.core, w) && s.core.workers[w].conn == Conn(true, [], []) && ValidResponse(resp, id)
    ensures Leads(c, s, s') && Ok(s')
    ensures s' == s.(threads := s.threads[u := Done], replies := s.replies[id := Answered(resp)])
  {
    hide Leads, Step, PcOk, CoreOk, ValidResponse;
    var s1 := Transmits(c, s, u, w, id);
    var s2 := Answers(c, s1, w, id, resp);
    s' := Collects(c, s2, u, w, id, resp);
    assert s'.threads == s.threads[u := Done];
    assert s'.core.workers == s.core.workers;
    OneStep(c, s2, Event(u, Go), s');
    FirstStep(c, s1, Event(0, WorkerWrites(w, resp)), s2, s');
    FirstStep(c, s, Event(u, Go), s1, s');
  }

  /** A request that has claimed w is served by it. */
  lemma FromSend(c: Config, s: State, t: nat, w: Ref, resp: Response) returns (s': State)
    requires Ok(s) && !s.locked && 0 < t < |s.threads| && s.threads[0].Outside? && s.threads[t] == Send(w)
    requires InUse(s.core, w) && s.core.workers[w].conn == Conn(true, [], []) && ValidResponse(resp, s.lastId + 1)
    requires KeepsWorker(c, s.core.workers[w].handled + 1, resp) && |s.core.idle| < c.idleCap
    ensures Leads(c, s, s') && Ok(s')
    ensures s' == s.(core := Served(s.core, w), threads := s.threads[t := Done] + [Done], lastId := s.lastId + 1,
                     replies := s.replies[s.lastId + 1 := Answered(resp)])
  {
    hide Leads, PcOk, CoreOk, InUse, KeepsWorker, ValidResponse;
    var id := s.lastId + 1;
    var s1 := Moves(c, s, t, Go, Effect(Keep, Await(w, id), [Write(w, id)], TakeId));
    hide Step;
    assert ValidRef(s.core, w) by { UsedIsValid(s.core, w); }
    var s2 := Exchanged(c, s1, |s.threads|, w, id, resp);
    s' := AnsweredRequestReturnsItsWorker(c, s2, t, w, id, resp);
    assert s'.threads == s.threads[t := Done] + [Done];
    LeadsOn(c, s1, s2, s');
    FirstStep(c, s, Event(t, Go), s1, s');
  }

  /** The pool after w has been taken from the head of the channel and claimed. */
  function Taken(p: Core): Core
    requires CoreOk(p) && p.idle != []
  {
    p.(workers := p.workers[p.idle[0] := p.workers[p.idle[0]].(state := Busy)], idle := p.idle[1..])
  }

  lemma AvailablePasses(p: Core, w: Ref)
    requires CoreOk(p) && Available(p, w)
    ensures ValidRef(p, w) && CheckAcquired(p, w) == Plausible && p.workers[w].state == Idle
  {
  }

  lemma TakesHead(c: Config, s: State, t: nat, queued: bool) returns (s': State)
    requires Ok(s) && t < |s.threads| && s.threads[t] == Receive(queued) && c.http && s.core.idle != []
    ensures Step(c, s, Event(t, Go), s') && Ok(s')
    ensures s' == s.(core := s.core.(idle := s.core.idle[1..]),
                     threads := s.threads[t := Check(s.core.idle[0], queued)])
  {
    hide PcOk, CoreOk;
    s' := Moves(c, s, t, Go, Write1(TakeIdle, Check(s.core.idle[0], queued)));
  }

  /** A request at the channel finds the worker at its head fit for use. */
  lemma Looks(c: Config, s: State, t: nat, queued: bool) returns (s': State)
    requires Ok(s) && !s.locked && t < |s.threads| && s.threads[t] == Receive(queued) && c.http
    requires s.core.idle != [] && Available(s.core, s.core.idle[0])
    ensures Leads(c, s, s') && Ok(s')
    ensures s' == s.(core := s.core.(idle := s.core.idle[1..]),
                     threads := s.threads[t := Claim(s.core.idle[0], queued)])
  {
    hide Leads, PcOk, CoreOk, Available, CheckAcquired;
    var w := s.core.idle[0];
    var s1 := TakesHead(c, s, t, queued);
    assert Available(s1.core, w) by { OthersTaken(s.core, s1.core, w); }
    AvailablePasses(s1.core, w);
    var s2 := Moves(c, s1, t, Go, Goto(Inspect(w, queued)));
    s' := Moves(c, s2, t, Go, Goto(Claim(w, queued)));
    assert s'.threads == s.threads[t := Claim(w, queued)];
    hide Step;
    OneStep(c, s2, Event(t, Go), s');
    FirstStep(c, s1, Event(t, Go), s2, s');
    FirstStep(c, s, Event(t, Go), s1, s');
  }

  /** And takes it. */
  lemma Acquires(c: Config, s: State, t: nat, queued: bool) returns (s': State)
    requires Ok(s) && !s.locked && t < |s.threads| && s.threads[t] == Receive(queued) && c.http
    requires s.core.idle != [] && Available(s.core, s.core.idle[0])
    ensures Leads(c, s, s') && Ok(s')
    ensures var w := s.core.idle[0];
            s' == s.(core := Taken(s.core),
                     threads := s.threads[t := if queued then LeaveQueue(Some(w)) else Send(w)])
  {
    hide Leads, PcOk, CoreOk, Available;
    var p, w := s.core, s.core.idle[0];
    AvailablePasses(p, w);
    var s1 := Looks(c, s, t, queued);
    var next := if queued then LeaveQueue(Some(w)) else Send(w);
    s' := Moves(c, s1, t, Go, Write1(PutWorker(w, p.workers[w].(state := Busy)), next));
    assert s'.threads == s.threads[t := next];
    hide Step;
    OneStep(c, s1, Event(t, Go), s');
    LeadsOn(c, s, s1, s');
  }

  /** The worker at the head of the channel is of no use: it has been replaced, or is not idle. */
  ghost predicate Useless(p: Core, w: Ref)
    requires CoreOk(p)
  {
    ValidRef(p, w) && !p.stopping && !(Current(p, w) && p.workers[w].state == Idle)
  }

  /** A request drops it and looks at the next one. */
  lemma DropsOne(c: Config, s: State, t: nat, queued: bool) returns (s': State)
    requires Ok(s) && WorkersDistinct(s.core) && !s.locked && c.http
    requires t < |s.threads| && s.threads[t] == Receive(queued)
    requires s.core.idle != [] && Useless(s.core, s.core.idle[0])
    ensures Leads(c, s, s') && Ok(s') && s' == s.(core := s.core.(idle := s.core.idle[1..]))
  {
    var w := s.core.idle[0];
    GenerationsDecideIdentity(s.core, w);
    assert InPool(s.core, w);
    hide Leads, Step, PcOk, CoreOk, WorkersDistinct, SameGeneration;
    var s1 := TakesHead(c, s, t, queued);
    assert SameGeneration(s1.core, w) == SameGeneration(s.core, w) by { SameTest(s.core, s1.core, w); }
    s' := PutsAside(c, s1, t, w, queued);
    assert s'.threads == s.threads;
    FirstStep(c, s, Event(t, Go), s1, s');
  }

  lemma PutsAside(c: Config, s: State, t: nat, w: Ref, queued: bool) returns (s': State)
    requires Ok(s) && !s.locked && t < |s.threads| && s.threads[t] == Check(w, queued) && !s.core.stopping
    requires ValidRef(s.core, w) && InPool(s.core, w)
    requires !SameGeneration(s.core, w) || s.core.workers[w].state != Idle
    ensures Leads(c, s, s') && Ok(s') && s' == s.(threads := s.threads[t := Receive(queued)])
  {
    hide Leads, PcOk, CoreOk, SameGeneration;
    if !SameGeneration(s.core, w) {
      s' := Moves(c, s, t, Go, Goto(Receive(queued)));
      hide Step;
      OneStep(c, s, Event(t, Go), s');
    } else {
      var s1 := Moves(c, s, t, Go, Goto(Inspect(w, queued)));
      s' := Moves(c, s1, t, Go, Goto(Receive(queued)));
      assert s'.threads == s.threads[t := Receive(queued)];
      hide Step;
      OneStep(c, s1, Event(t, Go), s');
      FirstStep(c, s, Event(t, Go), s1, s');
    }
  }

  lemma SameTest(p: Core, q: Core, w: Ref)
    requires CoreOk(p) && CoreOk(q) && q == p.(idle := q.idle) && ValidRef(p, w)
    ensures SameGeneration(q, w) == SameGeneration(p, w)
  {
  }

  lemma SameWorkers(p: Core, q: Core)
    requires CoreOk(p) && CoreOk(q) && q == p.(idle := q.idle)
    ensures WorkersDistinct(q) == WorkersDistinct(p)
  {
    assert forall r :: 0 <= r < |p.workers| ==> BelowCounter(q, r) == BelowCounter(p, r);
  }

  lemma OthersTaken(p: Core, q: Core, w: Ref)
    requires CoreOk(p) && CoreOk(q) && q == p.(idle := q.idle) && Available(p, w)
    ensures Available(q, w)
  {
  }

  lemma ClaimedInUse(p: Core, w: Ref)
    requires CoreOk(p) && p.idle != [] && w == p.idle[0] && Available(p, w) && CoreOk(Taken(p))
    ensures InUse(Taken(p), w)
    ensures Taken(p).workers[w] == p.workers[w].(state := Busy) && Taken(p).workers[w].conn == Conn(true, [], [])
    ensures Served(Taken(p), w) == p.(workers := p.workers[w := p.workers[w].(handled := p.workers[w].handled + 1)],
                                      idle := p.idle[1..] + [w])
  {
    assert Served(Taken(p), w).workers == p.workers[w := p.workers[w].(handled := p.workers[w].handled + 1)];
  }

  /** A request comes to the first worker that is of use. */
  lemma {:induction false} DropsUseless(c: Config, s: State, t: nat, queued: bool, m: nat) returns (s': State)
    requires Ok(s) && WorkersDistinct(s.core) && !s.locked && c.http
    requires t < |s.threads| && s.threads[t] == Receive(queued)
    requires m <= |s.core.idle| && forall k :: 0 <= k < m ==> Useless(s.core, s.core.idle[k])
    ensures Leads(c, s, s') && Ok(s') && s' == s.(core := s.core.(idle := s.core.idle[m..]))
    decreases m
  {
    hide Leads, PcOk, CoreOk, Step;
    if m == 0 {
      s' := s;
      NoStep(c, s);
    } else {
      var s1 := DropsOne(c, s, t, queued);
      StillUseless(s.core, s1.core, m);
      assert WorkersDistinct(s1.core) by { SameWorkers(s.core, s1.core); }
      hide Useless, WorkersDistinct;
      s' := DropsUseless(c, s1, t, queued, m - 1);
      assert s.core.idle[1..][m - 1..] == s.core.idle[m..];
      LeadsOn(c, s, s1, s');
    }
  }

  lemma StillUseless(p: Core, q: Core, m: nat)
    requires CoreOk(p) && CoreOk(q) && 0 < m <= |p.idle| && q == p.(idle := p.idle[1..])
    requires forall k :: 0 <= k < m ==> Useless(p, p.idle[k])
    ensures forall k :: 0 <= k < m - 1 ==> Useless(q, q.idle[k])
  {
    forall k | 0 <= k < m - 1 ensures Useless(q, q.idle[k]) {
      assert Useless(p, p.idle[k + 1]);
    }
  }

  /** The pool after worker number m of the channel, the first of use, has served one request. */
  function Turned(p: Core, m: nat): Core
    requires m < |p.idle| && ValidRef(p, p.idle[m])
  {
    var w := p.idle[m];
    p.(workers := p.workers[w := p.workers[w].(handled := p.workers[w].handled + 1)], idle := p.idle[m + 1..] + [w])
  }

  /** What it takes to serve a request now: worker number m of the channel is the first of use and `resp` answers. */
  ghost predicate CanServe(c: Config, s: State, m: nat, resp: Response) {
    && Ok(s) && WorkersDistinct(s.core) && !s.locked && c.http && |s.threads| > 0 && s.threads[0].Outside?
    && m < |s.core.idle| <= c.idleCap && Available(s.core, s.core.idle[m])
    && (forall k :: 0 <= k < m ==> Useless(s.core, s.core.idle[k]))
    && ValidResponse(resp, s.lastId + 1)
    && KeepsWorker(c, s.core.workers[s.core.idle[m]].handled + 1, resp)
  }

  /** A request that has the usable worker before it is served, and leaves the queue if it was in it. */
  lemma FromHead(c: Config, s: State, t: nat, queued: bool, resp: Response) returns (s': State)
    requires CanServe(c, s, 0, resp) && 0 < t < |s.threads| && s.threads[t] == Receive(queued)
    requires queued ==> s.waiting > 0
    ensures Leads(c, s, s') && Ok(s')
    ensures s' == s.(core := Turned(s.core, 0), threads := s.threads[t := Done] + [Done], lastId := s.lastId + 1,
                     replies := s.replies[s.lastId + 1 := Answered(resp)],
                     waiting := if queued then s.waiting - 1 else s.waiting)
  {
    hide Leads, PcOk, CoreOk, Available, KeepsWorker, ValidResponse, WorkersDistinct;
    var w := s.core.idle[0];
    var s1 := Acquires(c, s, t, queued);
    ClaimedInUse(s.core, w);
    if queued {
      var s2 := Moves(c, s1, t, Go, Effect(Keep, Send(w), [], LeaveTheQueue));
      hide Step;
      s' := FromSend(c, s2, t, w, resp);
      FirstStep(c, s1, Event(t, Go), s2, s');
    } else {
      s' := FromSend(c, s1, t, w, resp);
    }
    assert s'.threads == s.threads[t := Done] + [Done];
    LeadsOn(c, s, s1, s');
  }

  lemma WithoutUseless(c: Config, s: State, s1: State, m: nat, resp: Response)
    requires CanServe(c, s, m, resp) && Ok(s1) && s1 == s.(core := s.core.(idle := s.core.idle[m..]))
    ensures CanServe(c, s1, 0, resp) && Turned(s1.core, 0) == Turned(s.core, m)
  {
    assert Available(s1.core, s1.core.idle[0]) by { OthersTaken(s.core, s1.core, s.core.idle[m]); }
    SameWorkers(s.core, s1.core);
    hide Available, KeepsWorker, ValidResponse, WorkersDistinct, PcOk, CoreOk;
    assert s.core.idle[m..][1..] == s.core.idle[m + 1..];
  }

  /** A request that waits in the queue, or has just arrived, can be served by the first worker of use. */
  lemma AWaitingRequestCanBeServed(c: Config, s: State, t: nat, queued: bool, m: nat, resp: Response)
    returns (s': State)
    requires CanServe(c, s, m, resp) && 0 < t < |s.threads| && s.threads[t] == Receive(queued)
    requires queued ==> s.waiting > 0
    ensures Leads(c, s, s') && Ok(s')
    ensures s' == s.(core := Turned(s.core, m), threads := s.threads[t := Done] + [Done], lastId := s.lastId + 1,
                     replies := s.replies[s.lastId + 1 := Answered(resp)],
                     waiting := if queued then s.waiting - 1 else s.waiting)
  {
    hide Leads, PcOk, CoreOk, Available, KeepsWorker, ValidResponse, WorkersDistinct, Useless, Step;
    var s1 := DropsUseless(c, s, t, queued, m);
    WithoutUseless(c, s, s1, m, resp);
    s' := FromHead(c, s1, t, queued, resp);
    LeadsOn(c, s, s1, s');
  }

  lemma Arrives(c: Config, s: State) returns (s': State)
    requires Ok(s) && |s.threads| > 0 && s.threads[0].Outside?
    ensures Step(c, s, Event(0, NewRequest), s') && Ok(s') && s' == s.(threads := s.threads + [TryAcquire])
  {
    hide PcOk, CoreOk;
    s' := Moves(c, s, 0, NewRequest, Effect(Keep, Outside, [TryAcquire], NoSide));
    assert s'.threads == s.threads + [TryAcquire];
  }

  /** A request that arrives now can be served by the first worker of use. */
  lemma ARequestCanBeServed(c: Config, s: State, m: nat, resp: Response) returns (s': State)
    requires CanServe(c, s, m, resp)
    ensures Leads(c, s, s') && Ok(s')
    ensures s' == s.(core := Turned(s.core, m), threads := s.threads + [Done, Done], lastId := s.lastId + 1,
                     replies := s.replies[s.lastId + 1 := Answered(resp)])
  {
    hide Leads, PcOk, CoreOk, Available, KeepsWorker, ValidResponse, WorkersDistinct, Useless;
    var t := |s.threads|;
    assert !s.core.stopping by { NotStopping(s.core, s.core.idle[m]); }
    var s1 := Arrives(c, s);
    var s2 := Moves(c, s1, t, Go, Goto(Receive(false)));
    SoonReady(c, s, s2, m, resp);
    hide Step;
    s' := AWaitingRequestCanBeServed(c, s2, t, false, m, resp);
    assert s'.threads == s.threads + [Done, Done];
    FirstStep(c, s1, Event(t, Go), s2, s');
    FirstStep(c, s, Event(0, NewRequest), s1, s');
  }

  lemma SoonReady(c: Config, s: State, s2: State, m: nat, resp: Response)
    requires CanServe(c, s, m, resp) && Ok(s2) && s2 == s.(threads := s2.threads)
    requires s2.threads == s.threads + [Receive(false)]
    ensures CanServe(c, s2, m, resp)
  {
    hide Available, KeepsWorker, ValidResponse, Useless, PcOk, CoreOk;
  }

  lemma NotStopping(p: Core, w: Ref)
    requires CoreOk(p) && Available(p, w)
    ensures !p.stopping
  {
  }

  /** A request that finds no idle worker queues up while fewer than capacity wait; otherwise it is turned away. */
  lemma ARequestQueuesWhileThereIsRoom(c: Config, s: State) returns (s': State)
    requires Ok(s) && !s.locked && c.http && |s.threads| > 0 && s.threads[0].Outside?
    requires s.core.stopping || s.core.idle == []
    ensures Leads(c, s, s') && Ok(s')
    ensures s' == if s.waiting < c.queueCapacity
                  then s.(threads := s.threads + [Receive(true)], waiting := s.waiting + 1)
                  else s.(threads := s.threads + [Done])
  {
    hide Leads, PcOk, CoreOk;
    var s1 := Arrives(c, s);
    var s2 := FindsNobody(c, s1, |s.threads|);
    assert s2.threads == s.threads + [EnterQueue];
    if s.waiting < c.queueCapacity {
      s' := Moves(c, s2, |s.threads|, Go, Effect(Keep, Receive(true), [], EnterTheQueue));
      assert s'.threads == s.threads + [Receive(true)];
    } else {
      s' := Moves(c, s2, |s.threads|, Go, Goto(Done));
      assert s'.threads == s.threads + [Done];
    }
    hide Step;
    OneStep(c, s2, Event(|s.threads|, Go), s');
    LeadsOn(c, s1, s2, s');
    FirstStep(c, s, Event(0, NewRequest), s1, s');
  }

  lemma FindsNobody(c: Config, s: State, t: nat) returns (s': State)
    requires Ok(s) && !s.locked && c.http && t < |s.threads| && s.threads[t] == TryAcquire
    requires s.core.stopping || s.core.idle == []
    ensures Leads(c, s, s') && Ok(s') && s' == s.(threads := s.threads[t := EnterQueue])
  {
    hide Leads, PcOk, CoreOk;
    if s.core.stopping {
      s' := Moves(c, s, t, Go, Goto(EnterQueue));
      hide Step;
      OneStep(c, s, Event(t, Go), s');
    } else {
      var s1 := Moves(c, s, t, Go, Goto(Receive(false)));
      s' := Moves(c, s1, t, Go, Goto(EnterQueue));
      assert s'.threads == s.threads[t := EnterQueue];
      hide Step;
      OneStep(c, s1, Event(t, Go), s');
      FirstStep(c, s, Event(t, Go), s1, s');
    }
  }

  /** A waiting request can give up at any time; it leaves the queue and changes nothing else. */
  lemma AQueuedRequestCanGiveUp(c: Config, s: State, t: nat) returns (s': State)
    requires Ok(s) && t < |s.threads| && s.threads[t] == Receive(true) && s.waiting > 0
    ensures Leads(c, s, s') && Ok(s')
    ensures s' == s.(threads := s.threads[t := Done], waiting := s.waiting - 1)
  {
    hide Leads, PcOk, CoreOk;
    var s1 := Moves(c, s, t, Fail, Goto(LeaveQueue(None)));
    s' := Moves(c, s1, t, Go, Effect(Keep, Done, [], LeaveTheQueue));
    assert s'.threads == s.threads[t := Done];
    hide Step;
    OneStep(c, s1, Event(t, Go), s');
    FirstStep(c, s, Event(t, Fail), s1, s');
  }

  /** The pool after the worker of a failed request has been cut off. */
  ghost function Discarded(p: Core, w: Ref): Core
    requires CoreOk(p) && ValidRef(p, w)
  {
    var i := p.workers[w].slot - 1;
    p.(workers := p.workers[w := Closed(p.workers[w].(state := Draining))],
       slots := p.slots[i := p.slots[i].(planned := false)])
  }

  lemma FromDiscard(c: Config, s: State, t: nat, w: Ref) returns (s': State)
    requires Ok(s) && !s.locked && t < |s.threads| && s.threads[t] == Discard(w)
    requires ValidRef(s.core, w) && Current(s.core, w)
    ensures Step(c, s, Event(t, Go), s') && Ok(s')
    ensures s' == s.(core := Discarded(s.core, w), threads := s.threads[t := Done])
  {
    hide PcOk;
    var p := s.core;
    var i := p.workers[w].slot;
    s' := Moves(c, s, t, Go, Write1(PutBoth(w, Closed(p.workers[w].(state := Draining)), i,
                                            p.slots[i - 1].(planned := false)), Done));
  }

  lemma TurnsAway(c: Config, s: State, t: nat, w: Ref, id: nat, ch: Choice) returns (s': State)
    requires Ok(s) && t < |s.threads| && s.threads[t] == Await(w, id) && ValidRef(s.core, w)
    requires ch.Fail? || (ch.Go? && id in s.replies && s.replies[id] == Broken)
    ensures Step(c, s, Event(t, ch), s') && Ok(s')
    ensures var p := s.core;
            s' == s.(core := if ch.Fail? then p.(workers := p.workers[w := Closed(p.workers[w])]) else p,
                     threads := s.threads[t := Discard(w)])
  {
    hide PcOk, CoreOk;
    s' := Moves(c, s, t, ch, if ch.Fail? then Write1(PutWorker(w, Closed(s.core.workers[w])), Discard(w))
                             else Goto(Discard(w)));
  }

  /** A request that gives up on its worker, or whose exchange failed, has it replaced: it drains, as after a crash. */
  lemma AFailedRequestDiscardsItsWorker(c: Config, s: State, t: nat, w: Ref, id: nat, ch: Choice) returns (s': State)
    requires Ok(s) && !s.locked && t < |s.threads| && s.threads[t] == Await(w, id)
    requires ch.Fail? || (ch.Go? && id in s.replies && s.replies[id] == Broken)
    requires ValidRef(s.core, w) && Current(s.core, w)
    ensures Leads(c, s, s') && Ok(s')
    ensures s' == s.(core := Discarded(s.core, w), threads := s.threads[t := Done])
  {
    hide Leads, Step, PcOk, CoreOk;
    var s1 := TurnsAway(c, s, t, w, id, ch);
    s' := FromDiscard(c, s1, t, w);
    assert s'.threads == s.threads[t := Done];
    assert s'.core.workers == Discarded(s.core, w).workers;
    OneStep(c, s1, Event(t, Go), s');
    FirstStep(c, s, Event(t, ch), s1, s');
  }
}
