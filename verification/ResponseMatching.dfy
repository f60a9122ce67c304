/**
 The right response for the right request (internal/worker/process.go:150-185, internal/protocol/conn.go:30-73),
 at the granularity of single steps and over every timeout and failure: request ids are unique, a connection
 never carries two outstanding requests, and a request is only ever completed by a response with its own id.
 */
module ResponseMatching {
  import opened Basics
  import opened Protocol
  import opened PoolModel
  import opened PoolMachine
  import opened PoolWellFormed
  import opened PoolOwnership

  /** The goroutine of Client.Send that uses a connection for one request. */
  ghost predicate IsSender(pc: Pc) { pc.Write? || pc.Read? }

  ghost predicate Awaits(pc: Pc, id: nat) { pc.Await? && pc.id == id }

  /** Ids come from one counter, and each is used by one sender, one waiting request and one reply. */
  ghost predicate IdsUnique(s: State) {
    && (forall id :: id in s.replies ==> id <= s.lastId)
    && (forall t :: 0 <= t < |s.threads| && s.threads[t].Await? ==> s.threads[t].id <= s.lastId)
    && (forall t :: 0 <= t < |s.threads| && IsSender(s.threads[t]) ==> Unanswered(s, s.threads[t]))
    && (forall t, u :: 0 <= t < |s.threads| && 0 <= u < |s.threads| && t != u && s.threads[t].Await? ==>
          !Awaits(s.threads[u], s.threads[t].id))
  }

  ghost predicate Unanswered(s: State, pc: Pc) {
    IsSender(pc) && pc.id <= s.lastId && pc.id !in s.replies
  }

  /** While a sender uses a connection, nobody but its own request (waiting or giving up) has the worker. */
  ghost predicate OneOutstanding(s: State) {
    && (forall t, u :: 0 <= t < |s.threads| && 0 <= u < |s.threads| && t != u && IsSender(s.threads[t]) ==>
          !SharesConnection(s.threads[t], s.threads[u]))
    && (forall t, u :: 0 <= t < |s.threads| && 0 <= u < |s.threads| && IsSender(s.threads[t]) ==>
          Compatible(s.threads[t], s.threads[u]))
    && (forall t, k :: 0 <= t < |s.threads| && 0 <= k < |s.core.idle| && IsSender(s.threads[t]) ==>
          s.threads[t].w != s.core.idle[k])
  }

  ghost predicate SharesConnection(sender: Pc, other: Pc)
    requires IsSender(sender)
  {
    IsSender(other) && (other.w == sender.w || other.id == sender.id)
  }

  ghost predicate Compatible(sender: Pc, other: Pc)
    requires IsSender(sender)
  {
    && (Held(other) == Some(sender.w) ==> other == Await(sender.w, sender.id) || other == Discard(sender.w))
    && (Awaits(other, sender.id) ==> other.w == sender.w)
  }

  /** Whatever a request is completed with has passed validation against the request's own id. */
  ghost predicate Matched(s: State) {
    && (forall id :: id in s.replies && s.replies[id].Answered? ==> ValidResponse(s.replies[id].resp, id))
    && (forall t :: 0 <= t < |s.threads| && s.threads[t].Release? ==>
          ValidResponse(s.threads[t].resp, s.threads[t].id))
  }

  ghost predicate Converses(s: State, pc: Pc, f: Effect)
    requires Ok(s) && OpOk(s.core, f.op)
  {
    // a request starts its sender, and only a request does
    && (forall k :: 0 <= k < |f.spawned| ==> !f.spawned[k].Await? && !f.spawned[k].Release? && !f.spawned[k].Read?)
    && (f.side.TakeId? <==> pc.Send?)
    && (pc.Send? ==> f.next == Await(pc.w, s.lastId + 1) && f.spawned == [Write(pc.w, s.lastId + 1)] && f.op == Keep)
    && (!pc.Send? ==> !f.next.Await? && forall k :: 0 <= k < |f.spawned| ==> !f.spawned[k].Write?)
    // a sender ends by posting its reply
    && !f.next.Write?
    && (f.next.Read? ==> pc == Write(f.next.w, f.next.id) && !f.side.Post?)
    && (IsSender(pc) ==> f.next.Read? || (f.next.Done? && f.side.Post? && f.side.id == pc.id))
    && (f.side.Post? ==> IsSender(pc) && f.side.id == pc.id && f.next.Done?
                         && (f.side.reply.Answered? ==> ValidResponse(f.side.reply.resp, f.side.id)))
    // a waiting request gives up or takes its reply
    && (pc.Await? ==> f.next == Discard(pc.w) || (f.next.Release? && pc.id in s.replies))
    && (pc.Discard? ==> f.next.Done?)
    && (f.op.PutIdle? ==> !pc.Await? && !pc.Discard?)
    && (f.next.Release? ==> pc == Await(f.next.w, f.next.id) && f.next.id in s.replies
                            && s.replies[f.next.id] == Answered(f.next.resp))
  }

  lemma RequestConverses(c: Config, s: State, pc: Pc, ch: Choice)
    requires Ok(s) && PcOk(s.core, pc)
    ensures var f := PlanRequest(c, s, pc, ch); f.Some? ==> Converses(s, pc, f.value)
  {
    hide SameGeneration, WantsRecycle, CheckAcquired, OutOfService;
  }

  lemma BootConverses(c: Config, s: State, pc: Pc, ch: Choice)
    requires Ok(s) && PcOk(s.core, pc)
    ensures var f := PlanBoot(c, s, pc, ch); f.Some? ==> Converses(s, pc, f.value)
    ensures var f := PlanSender(s, pc, ch); f.Some? ==> Converses(s, pc, f.value)
    ensures var f := PlanOutside(c, s, pc, ch); f.Some? ==> Converses(s, pc, f.value)
  {
    hide RecordCrash, SlotFailed, ValidResponse, Accepting, MayWrite;
  }

  lemma MonitorConverses(c: Config, s: State, pc: Pc, ch: Choice)
    requires Ok(s) && PcOk(s.core, pc)
    ensures var f := PlanMonitor(c, s, pc, ch); f.Some? ==> Converses(s, pc, f.value)
    ensures var f := PlanControl(c, s, pc); f.Some? ==> Converses(s, pc, f.value)
  {
    hide RecordCrash, SlotFailed, PlanAfterExit, OwnsSlot, SameWorker, Rescaled;
    hide MarkAll, Remaining, NothingToResize, Bootable, Spared;
  }

  lemma PlanConverses(c: Config, s: State, pc: Pc, ch: Choice)
    requires Ok(s) && PcOk(s.core, pc)
    ensures var f := Plan(c, s, pc, ch); f.Some? ==> Converses(s, pc, f.value)
  {
    hide PlanRequest, PlanSender, PlanBoot, PlanMonitor, PlanControl, PlanOutside, PcOk, Converses;
    RequestConverses(c, s, pc, ch);
    BootConverses(c, s, pc, ch);
    MonitorConverses(c, s, pc, ch);
  }

  lemma IdsStayUnique(s: State, t: nat, f: Effect)
    requires Ok(s) && t < |s.threads| && OpOk(s.core, f.op) && EffectOk(s, f)
    requires IdsUnique(s) && OneOutstanding(s) && Converses(s, s.threads[t], f)
    ensures IdsUnique(Perform(s, t, f))
  {
    hide PcOk, ApplyOp, Held, ValidResponse;
    var s' := Perform(s, t, f);
    forall u | 0 <= u < |s'.threads| && IsSender(s'.threads[u]) ensures Unanswered(s', s'.threads[u]) {
      if u < |s.threads| && u != t {
        assert Unanswered(s, s.threads[u]);
        if f.side.Post? {
          assert !SharesConnection(s.threads[t], s.threads[u]);
        }
      }
    }
    forall u, v | 0 <= u < |s'.threads| && 0 <= v < |s'.threads| && u != v && s'.threads[u].Await?
      ensures !Awaits(s'.threads[v], s'.threads[u].id)
    {
      if s'.threads[v].Await? {
        assert u < |s.threads| && v < |s.threads|;
      }
    }
  }

  lemma StaysMatched(s: State, t: nat, f: Effect)
    requires Ok(s) && t < |s.threads| && OpOk(s.core, f.op) && EffectOk(s, f)
    requires Matched(s) && Converses(s, s.threads[t], f)
    ensures Matched(Perform(s, t, f))
  {
    hide PcOk, ApplyOp, Held, ValidResponse;
  }

  lemma StaysOneOutstanding(s: State, t: nat, f: Effect)
    requires Ok(s) && t < |s.threads| && OpOk(s.core, f.op) && EffectOk(s, f)
    requires Exclusive(s) && HandsOn(s, s.threads[t], f)
    requires IdsUnique(s) && OneOutstanding(s) && Converses(s, s.threads[t], f)
    ensures OneOutstanding(Perform(s, t, f))
  {
    hide PcOk, Held, ValidResponse;
    SendersStayApart(s, t, f);
    HoldersStayCompatible(s, t, f);
    SendersStayOffTheChannel(s, t, f);
  }

  lemma SendersStayApart(s: State, t: nat, f: Effect)
    requires Ok(s) && t < |s.threads| && OpOk(s.core, f.op)
    requires IdsUnique(s) && OneOutstanding(s) && Converses(s, s.threads[t], f)
    ensures var s' := Perform(s, t, f);
            forall u, v :: 0 <= u < |s'.threads| && 0 <= v < |s'.threads| && u != v && IsSender(s'.threads[u]) ==>
              !SharesConnection(s'.threads[u], s'.threads[v])
  {
    hide PcOk, ApplyOp, ValidResponse;
    var s' := Perform(s, t, f);
    forall u, v | 0 <= u < |s'.threads| && 0 <= v < |s'.threads| && u != v && IsSender(s'.threads[u])
      ensures !SharesConnection(s'.threads[u], s'.threads[v])
    {
      if IsSender(s'.threads[v]) {
        if u < |s.threads| && v < |s.threads| {
          assert !SharesConnection(s.threads[u], s.threads[v]);
        } else {
          var other := if u < |s.threads| then u else v;
          assert other < |s.threads| && other != t;
          assert Unanswered(s, s.threads[other]) && Compatible(s.threads[other], s.threads[t]);
        }
      }
    }
  }

  lemma HoldersStayCompatible(s: State, t: nat, f: Effect)
    requires Ok(s) && t < |s.threads| && OpOk(s.core, f.op) && EffectOk(s, f)
    requires Exclusive(s) && HandsOn(s, s.threads[t], f)
    requires IdsUnique(s) && OneOutstanding(s) && Converses(s, s.threads[t], f)
    ensures var s' := Perform(s, t, f);
            forall u, v :: 0 <= u < |s'.threads| && 0 <= v < |s'.threads| && IsSender(s'.threads[u]) ==>
              Compatible(s'.threads[u], s'.threads[v])
  {
    hide PcOk, ApplyOp, ValidResponse;
    var s' := Perform(s, t, f);
    forall u, v | 0 <= u < |s'.threads| && 0 <= v < |s'.threads| && IsSender(s'.threads[u])
      ensures Compatible(s'.threads[u], s'.threads[v])
    {
      if v < |s.threads| {
        CompatibleStep(s, t, f, u, v);
      } else {
        assert Held(s'.threads[v]).None?;
      }
    }
  }

  lemma CompatibleStep(s: State, t: nat, f: Effect, u: nat, v: nat)
    requires Ok(s) && t < |s.threads| && OpOk(s.core, f.op) && EffectOk(s, f)
    requires Exclusive(s) && HandsOn(s, s.threads[t], f)
    requires IdsUnique(s) && OneOutstanding(s) && Converses(s, s.threads[t], f)
    requires u < |Perform(s, t, f).threads| && IsSender(Perform(s, t, f).threads[u])
    requires v < |s.threads|
    ensures Compatible(Perform(s, t, f).threads[u], Perform(s, t, f).threads[v])
  {
    if u < |s.threads| && IsSender(s.threads[u]) {
      assert Compatible(s.threads[u], s.threads[v]);
      assert PcOk(s.core, s.threads[u]) && Unanswered(s, s.threads[u]);
    }
  }

  lemma SendersStayOffTheChannel(s: State, t: nat, f: Effect)
    requires Ok(s) && t < |s.threads| && OpOk(s.core, f.op) && EffectOk(s, f)
    requires Exclusive(s) && HandsOn(s, s.threads[t], f)
    requires IdsUnique(s) && OneOutstanding(s) && Converses(s, s.threads[t], f)
    ensures var s' := Perform(s, t, f);
            forall u, k :: 0 <= u < |s'.threads| && 0 <= k < |s'.core.idle| && IsSender(s'.threads[u]) ==>
              s'.threads[u].w != s'.core.idle[k]
  {
    hide PcOk, ValidResponse;
    var s' := Perform(s, t, f);
    forall u, k | 0 <= u < |s'.threads| && 0 <= k < |s'.core.idle| && IsSender(s'.threads[u])
      ensures s'.threads[u].w != s'.core.idle[k]
    {
      if u < |s.threads| {
        assert Compatible(s.threads[u], s.threads[t]);
      }
    }
  }
}
