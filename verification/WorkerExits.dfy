/**
 What becomes of a worker that a request has had, across the sections that pass it on: acquire, release or discard, and
 the section of its monitor when its process exits (internal/worker/pool.go:563-757 and 342-388).
 */
module WorkerExits {
  import opened Protocol
  import opened PoolModel

  /** A request that takes the first worker of the channel and gives it back in health. */
  function Served(c: Config, p: Core, resp: Response): (q: Core)
    requires CoreOk(p) && p.idle != []
  {
    var w := p.idle[0];
    var taken := ApplyOp(p, TakeIdle);
    assert ValidRef(taken, w);
    var busy := ApplyOp(taken, PutWorker(w, taken.workers[w].(state := Busy)));
    var (op, back) := ReleaseCommit(c, busy, w, resp);
    var released := ApplyOp(busy, op);
    if back then ApplyOp(released, Push(c, released, w)) else released
  }

  /**
   If the pool takes the worker back, serving a request has moved it to the end of the channel and counted the request;
   nothing else has changed, and nobody was lost.
   */
  lemma ServingKeepsThePool(c: Config, p: Core, resp: Response)
    requires CoreOk(p) && p.idle != [] && |p.idle| <= c.idleCap && p.workers[p.idle[0]].state == Idle
    requires SameGeneration(p, p.idle[0]) && !p.stopping && !OutOfService(p, p.workers[p.idle[0]].slot)
    requires !WantsRecycle(c, p.workers[p.idle[0]].handled + 1, resp)
    ensures var w := p.idle[0];
            Served(c, p, resp) ==
            p.(idle := p.idle[1..] + [w], workers := p.workers[w := p.workers[w].(handled := p.workers[w].handled + 1)])
  {
    hide WantsRecycle;
    var w := p.idle[0];
    var taken := ApplyOp(p, TakeIdle);
    var busy := ApplyOp(taken, PutWorker(w, taken.workers[w].(state := Busy)));
    assert SameGeneration(busy, w);
    var counted := p.workers[w].(handled := p.workers[w].handled + 1);
    assert busy.workers[w := counted] == p.workers[w := counted];
  }

  /** The exit of a worker in service that the pool has sent away at its release is planned, whatever its code. */
  lemma RecycledExitIsPlanned(c: Config, p: Core, w: Ref, resp: Response, exitCode: int)
    requires CoreOk(p) && ValidRef(p, w) && Current(p, w) && Accepting(p, p.workers[w].slot)
    requires WantsRecycle(c, p.workers[w].handled + 1, resp)
    ensures var (op, back) := ReleaseCommit(c, p, w, resp);
            var q := ApplyOp(p, op);
            !back && Current(q, w) && PlanAfterExit(q, p.workers[w].slot, w, exitCode) == PlannedRestart
  {
    hide WantsRecycle;
    assert Installable(p, p.workers[w].slot - 1 + 1, p.slots[p.workers[w].slot - 1].worker);
  }

  /** The exit of a discarded worker counts as a crash, unless the process ends with code 0. */
  lemma DiscardedExitIsACrash(p: Core, w: Ref, exitCode: int)
    requires CoreOk(p) && ValidRef(p, w) && Current(p, w) && Accepting(p, p.workers[w].slot)
    ensures var q := ApplyOp(p, DiscardCommit(p, w));
            Current(q, w)
            && PlanAfterExit(q, p.workers[w].slot, w, exitCode) == if exitCode == 0 then PlannedRestart else Crashed
  {
    assert Installable(p, p.workers[w].slot - 1 + 1, p.slots[p.workers[w].slot - 1].worker);
  }
}
