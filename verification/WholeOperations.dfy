/**
 No idle worker is lost and none is stale, for a fixed-size HTTP pool that is not stopping, at the
 granularity of whole operations: an acquire (pool.go:577-591), a release with its push (682-724), a boot's
 install with its push (299-322) and a monitor's clear with its purge (342-365) are not interrupted by one
 another. The code takes the parts of such an operation under separate locks, so this is an assumption
 about the schedule, stated by WholeStep.
 */
module WholeOperations {
  import opened Basics
  import opened Protocol
  import opened PoolModel
  import opened PoolMachine
  import opened PoolWellFormed
  import opened PoolOwnership
  import opened PoolIdentity
  import opened PoolLifecycle
  import opened PoolShutdown

  /** The worker a thread has in hand as an idle one: just taken, or about to be pushed. */
  function Carries(pc: Pc): Option<Ref> {
    match pc
    case Check(w, _) => Some(w)
    case Inspect(w, _) => Some(w)
    case Claim(w, _) => Some(w)
    case Return(w) => Some(w)
    case BootWatch(_, w, _) => Some(w)
    case BootPush(w, _) => Some(w)
    case PurgeHand(_, hand, _, _) => Some(hand)
    case _ => None
  }

  /** The dead worker a purge is looking for. */
  function Target(pc: Pc): Option<Ref> {
    match pc
    case PurgeStart(w, _) => Some(w)
    case PurgeLoop(w, _, _) => Some(w)
    case PurgeHand(w, _, _, _) => Some(w)
    case _ => None
  }

  /** In the middle of one of the four operations. */
  predicate InOperation(pc: Pc) { Carries(pc).Some? || Target(pc).Some? }

  ghost predicate Calm(s: State, t: nat) {
    forall u :: 0 <= u < |s.threads| && u != t ==> !InOperation(s.threads[u])
  }

  /** A step that does not cut into another thread's operation. */
  ghost predicate WholeStep(c: Config, s: State, e: Event, s': State) {
    Step(c, s, e, s') && Calm(s, e.t)
  }

  ghost predicate CurrentIdle(p: Core, w: Ref)
    requires CoreOk(p)
  {
    ValidRef(p, w) && Current(p, w) && p.workers[w].state == Idle
  }

  /** The idle channel holds exactly the current idle workers, up to what the operating thread has in hand. */
  ghost predicate Exact(p: Core, pc: Pc)
    requires CoreOk(p)
  {
    && (forall k :: 0 <= k < |p.idle| ==> CurrentIdle(p, p.idle[k]) || Target(pc) == Some(p.idle[k]))
    && (forall w :: CurrentIdle(p, w) ==> w in p.idle || Carries(pc) == Some(w))
    && (Carries(pc).Some? ==> CurrentIdle(p, Carries(pc).value) && |p.idle| < |p.slots|)
    && (Target(pc).Some? ==> !CurrentIdle(p, Target(pc).value))
    && |p.idle| <= |p.slots|
    && (pc.PurgeLoop? ==> forall k :: pc.left <= k < |p.idle| ==> p.idle[k] != pc.target)
    && (pc.PurgeHand? ==> pc.left > 0 && forall k :: pc.left - 1 <= k < |p.idle| ==> p.idle[k] != pc.target)
  }

  ghost predicate ExactAt(s: State, t: nat)
    requires Ok(s)
  {
    t < |s.threads| && Calm(s, t) && Exact(s.core, s.threads[t])
  }

  /** The thread that steps next is the operating one, if any thread is. */
  lemma ExactForStepper(s: State, t: nat, u: nat)
    requires Ok(s) && ExactAt(s, t) && u < |s.threads| && Calm(s, u)
    ensures ExactAt(s, u)
  {
  }

  // ----- pigeonhole -----

  lemma CurrentWorkersFit(p: Core, ws: seq<Ref>)
    requires CoreOk(p) && NoDuplicates(ws)
    requires forall k :: 0 <= k < |ws| ==> ValidRef(p, ws[k]) && Current(p, ws[k])
    ensures |ws| <= |p.slots|
  {
    var numbers: seq<nat> := seq(|ws|, k requires 0 <= k < |ws| => p.workers[ws[k]].slot - 1);
    assert NoDuplicates(numbers) by {
      forall i, j | 0 <= i < j < |numbers| ensures numbers[i] != numbers[j] {
        assert Current(p, ws[i]) && Current(p, ws[j]);
      }
    }
    NoDuplicatesSize(numbers, |p.slots|);
  }

  /** A current worker outside a channel of current workers leaves room in it. */
  lemma RoomForOneMore(p: Core, w: Ref)
    requires CoreOk(p) && NoDuplicates(p.idle) && w !in p.idle && ValidRef(p, w) && Current(p, w)
    requires forall k :: 0 <= k < |p.idle| ==> CurrentIdle(p, p.idle[k])
    ensures |p.idle| < |p.slots|
  {
    CurrentWorkersFit(p, p.idle + [w]);
  }

  // ----- one lemma per kind of step: p and pc before, q and next after -----

  lemma IdleIsValid(p: Core)
    requires CoreOk(p)
    ensures forall w: Ref :: CurrentIdle(p, w) ==> w < |p.workers|
  {
  }

  /** Nothing the invariant speaks about changes. */
  lemma UnrelatedStep(p: Core, pc: Pc, q: Core, next: Pc)
    requires CoreOk(p) && CoreOk(q) && Grows(p, q) && Exact(p, pc)
    requires q.idle == p.idle && |q.slots| == |p.slots|
    requires forall w :: 0 <= w < |q.workers| ==> (CurrentIdle(q, w) <==> CurrentIdle(p, w))
    requires Carries(next) == Carries(pc) && Target(next) == Target(pc)
    requires !next.PurgeHand? && (next.PurgeLoop? ==> next.left == |p.idle|)
    ensures Exact(q, next)
  {
    IdleIsValid(p);
    IdleIsValid(q);
    hide CurrentIdle, CoreOk;
  }

  lemma HeadAndTail(s: seq<Ref>)
    requires s != [] && NoDuplicates(s)
    ensures forall x :: x in s <==> x == s[0] || x in s[1..]
    ensures s[0] !in s[1..] && forall k :: 0 <= k < |s| - 1 ==> s[1..][k] == s[k + 1]
  {
    assert s == [s[0]] + s[1..];
  }

  lemma SameServices(p: Core, q: Core)
    requires CoreOk(p) && CoreOk(q) && q.slots == p.slots && q.workers == p.workers
    ensures forall w :: CurrentIdle(q, w) <==> CurrentIdle(p, w)
  {
  }

  lemma TakeStep(p: Core, pc: Pc, next: Pc)
    requires CoreOk(p) && p.idle != [] && NoDuplicates(p.idle) && Exact(p, pc)
    requires !InOperation(pc) && Carries(next) == Some(p.idle[0]) && Target(next).None?
    ensures Exact(ApplyOp(p, TakeIdle), next)
  {
    HeadAndTail(p.idle);
    SameServices(p, ApplyOp(p, TakeIdle));
    hide CurrentIdle, CoreOk, NoDuplicates;
    assert CurrentIdle(p, p.idle[0]);
  }

  /** A purge takes its target from the head of the channel. */
  lemma PurgeFindsStep(p: Core, pc: Pc)
    requires CoreOk(p) && p.idle != [] && NoDuplicates(p.idle) && Exact(p, pc)
    requires pc.PurgeLoop? && pc.left > 0 && p.idle[0] == pc.target
    ensures Exact(ApplyOp(p, TakeIdle), PurgeLoop(pc.target, pc.left - 1, pc.next))
  {
    HeadAndTail(p.idle);
    SameServices(p, ApplyOp(p, TakeIdle));
    hide CurrentIdle, CoreOk, NoDuplicates;
  }

  /** Or it takes another worker, which it has to put back. */
  lemma PurgePassesStep(p: Core, pc: Pc)
    requires CoreOk(p) && p.idle != [] && NoDuplicates(p.idle) && Exact(p, pc)
    requires pc.PurgeLoop? && pc.left > 0 && p.idle[0] != pc.target
    ensures Exact(ApplyOp(p, TakeIdle), PurgeHand(pc.target, p.idle[0], pc.left, pc.next))
  {
    HeadAndTail(p.idle);
    SameServices(p, ApplyOp(p, TakeIdle));
    hide CurrentIdle, CoreOk, NoDuplicates;
    assert CurrentIdle(p, p.idle[0]);
  }

  lemma PurgeEndStep(p: Core, pc: Pc, next: Pc)
    requires CoreOk(p) && Exact(p, pc)
    requires pc.PurgeLoop? && (pc.left == 0 || p.idle == []) && !InOperation(next)
    ensures Exact(p, next)
  {
  }

  lemma PutStep(p: Core, pc: Pc, next: Pc)
    requires CoreOk(p) && Exact(p, pc)
    requires Carries(pc).Some? && Carries(next).None?
    requires pc.PurgeHand? ==>
               pc.left > 0 && pc.hand != pc.target && next == PurgeLoop(pc.target, pc.left - 1, pc.next)
    requires !pc.PurgeHand? ==> !InOperation(next)
    requires OpOk(p, PutIdle(Carries(pc).value))
    ensures Exact(ApplyOp(p, PutIdle(Carries(pc).value)), next)
  {
    SameServices(p, ApplyOp(p, PutIdle(Carries(pc).value)));
    hide CurrentIdle, CoreOk;
  }

  /** w leaves the set of current idle workers without having been in the channel, or stays out of it. */
  lemma WithdrawStep(p: Core, pc: Pc, q: Core, next: Pc, w: Ref)
    requires CoreOk(p) && CoreOk(q) && Grows(p, q) && Exact(p, pc)
    requires q.idle == p.idle && |q.slots| == |p.slots| && |q.workers| == |p.workers|
    requires w !in p.idle && Target(pc).None? && (Carries(pc).None? || Carries(pc) == Some(w))
    requires forall v :: 0 <= v < |p.workers| && v != w ==> (CurrentIdle(q, v) <==> CurrentIdle(p, v))
    requires !CurrentIdle(q, w) && !InOperation(next)
    ensures Exact(q, next)
  {
  }

  /** w becomes current and idle in the hands of the operating thread. */
  lemma OfferStep(p: Core, pc: Pc, q: Core, next: Pc, w: Ref)
    requires CoreOk(p) && CoreOk(q) && Grows(p, q) && Exact(p, pc)
    requires q.idle == p.idle && |q.slots| == |p.slots| && |q.workers| == |p.workers|
    requires NoDuplicates(p.idle) && w !in p.idle && !InOperation(pc)
    requires forall v :: 0 <= v < |p.workers| && v != w ==> (CurrentIdle(q, v) <==> CurrentIdle(p, v))
    requires CurrentIdle(q, w) && Carries(next) == Some(w) && Target(next).None?
    ensures Exact(q, next)
  {
    forall k | 0 <= k < |q.idle| ensures CurrentIdle(q, q.idle[k]) {
      assert CurrentIdle(p, p.idle[k]);
    }
    RoomForOneMore(q, w);
  }

  /** The monitor clears w from its slot; w may still be in the channel, but the purge is after it. */
  lemma ClearStep(p: Core, pc: Pc, q: Core, next: Pc, w: Ref)
    requires CoreOk(p) && CoreOk(q) && Grows(p, q) && Exact(p, pc)
    requires q.idle == p.idle && |q.slots| == |p.slots| && |q.workers| == |p.workers|
    requires !InOperation(pc) && next.PurgeStart? && next.target == w
    requires forall v :: 0 <= v < |p.workers| && v != w ==> (CurrentIdle(q, v) <==> CurrentIdle(p, v))
    requires !CurrentIdle(q, w)
    ensures Exact(q, next)
  {
  }

  // ----- a worker stays Idle until it is installed -----

  ghost predicate IdleAtInstall(p: Core, pc: Pc)
    requires PcOk(p, pc)
  {
    pc.BootInstall? ==> p.workers[pc.w].state == Idle
  }

  ghost predicate BornIdle(c: Config, s: State)
    requires Ok(s)
  {
    c.fixedSize && !s.core.stopping ==> forall t :: 0 <= t < |s.threads| ==> IdleAtInstall(s.core, s.threads[t])
  }

  ghost predicate LeavesNewborns(s: State, pc: Pc, f: Effect)
    requires Ok(s) && OpOk(s.core, f.op)
  {
    && (f.next.BootInstall? ==> f.op.AddWorker? && f.next.w == |s.core.workers|)
    && (f.op.AddWorker? ==> f.op.worker.state == Idle)
    && (forall k :: 0 <= k < |f.spawned| ==> !f.spawned[k].BootInstall?)
    && (f.op.PutWorker? ==> f.op.worker.state == s.core.workers[f.op.w].state || Held(pc) == Some(f.op.w))
    && (f.op.PutBoth? ==> Held(pc) == Some(f.op.w) || s.core.slots[f.op.i - 1].worker == Some(f.op.w))
    && (f.op.Replace? ==> f.op.core.stopping)
  }

  lemma RequestLeavesNewborns(c: Config, s: State, pc: Pc, ch: Choice)
    requires Ok(s) && PcOk(s.core, pc) && Distinct(s) && !Resizes(pc) && (pc.StopMark? ==> s.core.stopping)
    ensures var f := PlanRequest(c, s, pc, ch); f.Some? ==> LeavesNewborns(s, pc, f.value)
  {
    hide SameGeneration, WantsRecycle, Distinct;
  }

  lemma BootLeavesNewborns(c: Config, s: State, pc: Pc, ch: Choice)
    requires Ok(s) && PcOk(s.core, pc) && Distinct(s) && !Resizes(pc) && (pc.StopMark? ==> s.core.stopping)
    ensures var f := PlanBoot(c, s, pc, ch); f.Some? ==> LeavesNewborns(s, pc, f.value)
    ensures var f := PlanSender(s, pc, ch); f.Some? ==> LeavesNewborns(s, pc, f.value)
    ensures var f := PlanOutside(c, s, pc, ch); f.Some? ==> LeavesNewborns(s, pc, f.value)
  {
    hide RecordCrash, SlotFailed, ValidResponse, Distinct;
  }

  lemma MonitorLeavesNewborns(c: Config, s: State, pc: Pc, ch: Choice)
    requires Ok(s) && PcOk(s.core, pc) && Distinct(s) && !Resizes(pc) && (pc.StopMark? ==> s.core.stopping)
    ensures var f := PlanMonitor(c, s, pc, ch); f.Some? ==> LeavesNewborns(s, pc, f.value)
  {
    hide RecordCrash, SlotFailed, PlanAfterExit, OwnsSlot, Distinct, Remaining, MarkedSlots, MarkedWorkers;
    if pc.Clear? {
      OwnsSlotIsCurrent(s, pc.slot, pc.w);
    }
  }

  lemma ControlLeavesNewborns(c: Config, s: State, pc: Pc)
    requires Ok(s) && PcOk(s.core, pc) && Distinct(s) && !Resizes(pc) && (pc.StopMark? ==> s.core.stopping)
    ensures var f := PlanControl(c, s, pc); f.Some? ==> LeavesNewborns(s, pc, f.value)
  {
    hide RecordCrash, SlotFailed, PlanAfterExit, OwnsSlot, Distinct, Remaining, MarkedSlots, MarkedWorkers;
  }

  lemma PlanLeavesNewborns(c: Config, s: State, pc: Pc, ch: Choice)
    requires Ok(s) && PcOk(s.core, pc) && Distinct(s) && !Resizes(pc) && (pc.StopMark? ==> s.core.stopping)
    ensures var f := Plan(c, s, pc, ch); f.Some? ==> LeavesNewborns(s, pc, f.value)
  {
    hide PlanRequest, PlanSender, PlanBoot, PlanMonitor, PlanControl, PlanOutside, PcOk, LeavesNewborns;
    RequestLeavesNewborns(c, s, pc, ch);
    BootLeavesNewborns(c, s, pc, ch);
    MonitorLeavesNewborns(c, s, pc, ch);
    ControlLeavesNewborns(c, s, pc);
  }

  lemma BornIdlePreserved(c: Config, s: State, t: nat, f: Effect)
    requires Ok(s) && t < |s.threads| && OpOk(s.core, f.op) && EffectOk(s, f)
    requires Exclusive(s) && NotYetInstalled(s) && BornIdle(c, s) && LeavesNewborns(s, s.threads[t], f)
    ensures Ok(Perform(s, t, f)) && BornIdle(c, Perform(s, t, f))
  {
    PerformOk(s, t, f);
    hide PcOk;
    var s' := Perform(s, t, f);
    if c.fixedSize && !s'.core.stopping {
      assert !s.core.stopping;
      forall u | 0 <= u < |s'.threads| ensures IdleAtInstall(s'.core, s'.threads[u]) {
        if u < |s.threads| && u != t && s.threads[u].BootInstall? {
          assert IdleAtInstall(s.core, s.threads[u]) && Pending(s.core, s.threads[u]);
          assert Held(s.threads[u]) != Held(s.threads[t]);
          assert PcOk(s.core, s.threads[u]);
        }
      }
    }
  }

  // ----- every step keeps the channel exact -----

  /** What the whole-operation argument relies on about the state, all of it proved for single steps. */
  ghost predicate Reliable(c: Config, s: State, t: nat)
    requires Ok(s)
  {
    && t < |s.threads| && c.http && c.fixedSize && !s.core.stopping && |s.core.slots| <= c.idleCap
    && Exclusive(s) && Distinct(s) && !Resizes(s.threads[t])
    && InCare(c, s.core, s.threads[t]) && IdleAtInstall(s.core, s.threads[t])
    && !PastStopStart(s.threads[t])
  }

  lemma HeldIsNotQueued(s: State, t: nat)
    requires Ok(s) && Exclusive(s) && t < |s.threads| && Held(s.threads[t]).Some?
    ensures Held(s.threads[t]).value !in s.core.idle
  {
  }

  predicate Acquiring(pc: Pc) {
    pc.TryAcquire? || pc.Receive? || pc.Check? || pc.Inspect? || pc.Claim? || pc.EnterQueue?
  }

  lemma AcquireKeepsExact(c: Config, s: State, t: nat, ch: Choice)
    requires Ok(s) && Reliable(c, s, t) && Exact(s.core, s.threads[t]) && Acquiring(s.threads[t])
    ensures var f := PlanRequest(c, s, s.threads[t], ch);
            f.Some? ==> Exact(ApplyOp(s.core, f.value.op), f.value.next)
  {
    hide Exact, Exclusive, InCare, Distinct;
    var pc := s.threads[t];
    var f := PlanRequest(c, s, pc, ch);
    if f.Some? {
      var p, q, next := s.core, ApplyOp(s.core, f.value.op), f.value.next;
      CarriedIsCurrentIdle(p, pc);
      if f.value.op.TakeIdle? {
        assert NoDuplicates(p.idle) by { IdleIsDuplicateFree(s); }
        TakeStep(p, pc, next);
      } else if pc.Claim? {
        HeldIsNotQueued(s, t);
        WithdrawStep(p, pc, q, next, pc.w);
      } else {
        UnrelatedStep(p, pc, q, next);
      }
    }
  }

  lemma ServeKeepsExact(c: Config, s: State, t: nat, ch: Choice)
    requires Ok(s) && Reliable(c, s, t) && Exact(s.core, s.threads[t]) && !Acquiring(s.threads[t])
    ensures var f := PlanRequest(c, s, s.threads[t], ch);
            f.Some? ==> Exact(ApplyOp(s.core, f.value.op), f.value.next)
  {
    hide Exact, Exclusive, InCare, ReleaseCommit, DiscardCommit, Distinct;
    var pc := s.threads[t];
    var f := PlanRequest(c, s, pc, ch);
    if f.Some? {
      var p, q, next := s.core, ApplyOp(s.core, f.value.op), f.value.next;
      CarriedIsCurrentIdle(p, pc);
      if pc.Release? || pc.Discard? {
        GiveBackKeepsExact(c, s, t, ch);
      } else if f.value.op.PutIdle? {
        PutStep(p, pc, next);
      } else {
        UnrelatedStep(p, pc, q, next);
      }
    }
  }

  lemma GiveBackKeepsExact(c: Config, s: State, t: nat, ch: Choice)
    requires Ok(s) && Reliable(c, s, t) && Exact(s.core, s.threads[t])
    requires s.threads[t].Release? || s.threads[t].Discard?
    ensures var f := PlanRequest(c, s, s.threads[t], ch);
            f.Some? ==> Exact(ApplyOp(s.core, f.value.op), f.value.next)
  {
    hide Exact, Exclusive, InCare, WantsRecycle, Distinct;
    var pc := s.threads[t];
    var f := PlanRequest(c, s, pc, ch);
    if f.Some? {
      var p, q, next := s.core, ApplyOp(s.core, f.value.op), f.value.next;
      HeldIsNotQueued(s, t);
      InstalledByGeneration(s, pc.w);
      if next.Return? {
        assert NoDuplicates(p.idle) by { IdleIsDuplicateFree(s); }
        OfferStep(p, pc, q, next, pc.w);
      } else if f.value.op.PutBoth? {
        WithdrawStep(p, pc, q, next, pc.w);
      } else {
        UnrelatedStep(p, pc, q, next);
      }
    }
  }

  lemma RequestKeepsExact(c: Config, s: State, t: nat, ch: Choice)
    requires Ok(s) && Reliable(c, s, t) && Exact(s.core, s.threads[t])
    ensures var f := PlanRequest(c, s, s.threads[t], ch);
            f.Some? ==> Exact(ApplyOp(s.core, f.value.op), f.value.next)
  {
    hide PlanRequest, Exact, PcOk, CoreOk;
    if Acquiring(s.threads[t]) {
      AcquireKeepsExact(c, s, t, ch);
    } else {
      ServeKeepsExact(c, s, t, ch);
    }
  }

  lemma IdleIsDuplicateFree(s: State)
    requires Exclusive(s)
    ensures NoDuplicates(s.core.idle)
  {
  }

  lemma CarriedIsCurrentIdle(p: Core, pc: Pc)
    requires CoreOk(p) && Exact(p, pc)
    ensures Carries(pc).Some? ==> CurrentIdle(p, Carries(pc).value) && |p.idle| < |p.slots|
    ensures Target(pc).Some? ==> !CurrentIdle(p, Target(pc).value)
  {
  }

  lemma InstallKeepsExact(c: Config, s: State, t: nat, ch: Choice)
    requires Ok(s) && Reliable(c, s, t) && Exact(s.core, s.threads[t]) && s.threads[t].BootInstall?
    ensures var f := PlanBoot(c, s, s.threads[t], ch);
            f.Some? ==> Exact(ApplyOp(s.core, f.value.op), f.value.next)
  {
    hide Exact, Exclusive, Distinct, SlotFailed, Resizes, PastStopStart, Accepting;
    var pc := s.threads[t];
    var f := PlanBoot(c, s, pc, ch);
    if f.Some? {
      var p, q, next := s.core, ApplyOp(s.core, f.value.op), f.value.next;
      if next.BootWatch? {
        HeldIsNotQueued(s, t);
        assert NoDuplicates(p.idle) by { IdleIsDuplicateFree(s); }
        OfferStep(p, pc, q, next, pc.w);
      } else {
        UnrelatedStep(p, pc, q, next);
      }
    }
  }

  lemma FailKeepsExact(c: Config, s: State, t: nat, ch: Choice)
    requires Ok(s) && Reliable(c, s, t) && Exact(s.core, s.threads[t]) && s.threads[t].BootFail?
    ensures var f := PlanBoot(c, s, s.threads[t], ch);
            f.Some? ==> Exact(ApplyOp(s.core, f.value.op), f.value.next)
  {
    hide Exact, Exclusive, RecordCrash, SlotFailed, Distinct, Resizes, PastStopStart, Accepting;
    var pc := s.threads[t];
    var f := PlanBoot(c, s, pc, ch);
    if f.Some? {
      UnrelatedStep(s.core, pc, ApplyOp(s.core, f.value.op), f.value.next);
    }
  }

  lemma BootKeepsExact(c: Config, s: State, t: nat, ch: Choice)
    requires Ok(s) && Reliable(c, s, t) && Exact(s.core, s.threads[t])
    ensures var f := PlanBoot(c, s, s.threads[t], ch);
            f.Some? ==> Exact(ApplyOp(s.core, f.value.op), f.value.next)
  {
    hide Exact, Exclusive, RecordCrash, SlotFailed, Distinct, Resizes, PastStopStart, Accepting, InCare;
    var pc := s.threads[t];
    var f := PlanBoot(c, s, pc, ch);
    if pc.BootInstall? {
      hide PlanBoot;
      InstallKeepsExact(c, s, t, ch);
    } else if pc.BootFail? {
      hide PlanBoot;
      FailKeepsExact(c, s, t, ch);
    } else if f.Some? {
      var p, q, next := s.core, ApplyOp(s.core, f.value.op), f.value.next;
      CarriedIsCurrentIdle(p, pc);
      if f.value.op.PutIdle? {
        PutStep(p, pc, next);
      } else {
        UnrelatedStep(p, pc, q, next);
      }
    }
  }

  lemma PurgeKeepsExact(c: Config, s: State, t: nat, ch: Choice)
    requires Ok(s) && Reliable(c, s, t) && Exact(s.core, s.threads[t]) && Target(s.threads[t]).Some?
    ensures var f := PlanMonitor(c, s, s.threads[t], ch);
            f.Some? ==> Exact(ApplyOp(s.core, f.value.op), f.value.next)
  {
    hide Exact, Exclusive, Distinct, InCare, PastStopStart, SameWorker;
    var pc := s.threads[t];
    var f := PlanMonitor(c, s, pc, ch);
    if f.Some? {
      var p, q, next := s.core, ApplyOp(s.core, f.value.op), f.value.next;
      CarriedIsCurrentIdle(p, pc);
      if f.value.op.TakeIdle? {
        assert NoDuplicates(p.idle) by { IdleIsDuplicateFree(s); }
        SameWorkerIsIdentity(s, p.idle[0], pc.target);
        if p.idle[0] == pc.target {
          PurgeFindsStep(p, pc);
        } else {
          PurgePassesStep(p, pc);
        }
      } else if f.value.op.PutIdle? {
        PutStep(p, pc, next);
      } else if pc.PurgeLoop? {
        PurgeEndStep(p, pc, next);
      } else {
        UnrelatedStep(p, pc, q, next);
      }
    }
  }

  lemma MonitorKeepsExact(c: Config, s: State, t: nat, ch: Choice)
    requires Ok(s) && Reliable(c, s, t) && Exact(s.core, s.threads[t])
    ensures var f := PlanMonitor(c, s, s.threads[t], ch);
            f.Some? ==> Exact(ApplyOp(s.core, f.value.op), f.value.next)
  {
    hide Exact, Exclusive, RecordCrash, SlotFailed, Distinct, OwnsSlot, PlanAfterExit, InCare, PastStopStart;
    var pc := s.threads[t];
    var f := PlanMonitor(c, s, pc, ch);
    if Target(pc).Some? {
      hide PlanMonitor;
      PurgeKeepsExact(c, s, t, ch);
    } else if f.Some? {
      var p, q, next := s.core, ApplyOp(s.core, f.value.op), f.value.next;
      CarriedIsCurrentIdle(p, pc);
      if next.PurgeStart? {
        OwnsSlotIsCurrent(s, pc.slot, pc.w);
        ClearStep(p, pc, q, next, pc.w);
      } else {
        UnrelatedStep(p, pc, q, next);
      }
    }
  }

  lemma SameWorkerIsIdentity(s: State, a: Ref, b: Ref)
    requires Ok(s) && Distinct(s) && ValidRef(s.core, a) && ValidRef(s.core, b)
    ensures SameWorker(s.core, a, b) <==> a == b
  {
  }

  lemma WireKeepsExact(c: Config, s: State, t: nat, ch: Choice)
    requires Ok(s) && Reliable(c, s, t) && Exact(s.core, s.threads[t])
    ensures var f := PlanSender(s, s.threads[t], ch);
            f.Some? ==> Exact(ApplyOp(s.core, f.value.op), f.value.next)
    ensures var f := PlanOutside(c, s, s.threads[t], ch);
            f.Some? ==> Exact(ApplyOp(s.core, f.value.op), f.value.next)
  {
    hide Exact, Exclusive, Distinct, InCare, ValidResponse, MayWrite, Written;
    var pc := s.threads[t];
    var f := if PlanSender(s, pc, ch).Some? then PlanSender(s, pc, ch) else PlanOutside(c, s, pc, ch);
    if f.Some? {
      UnrelatedStep(s.core, pc, ApplyOp(s.core, f.value.op), f.value.next);
    }
  }

  lemma ControlKeepsExact(c: Config, s: State, t: nat)
    requires Ok(s) && Reliable(c, s, t) && Exact(s.core, s.threads[t])
    ensures var f := PlanControl(c, s, s.threads[t]);
            f.Some? && !ApplyOp(s.core, f.value.op).stopping ==> Exact(ApplyOp(s.core, f.value.op), f.value.next)
  {
    hide Exact, Exclusive, Distinct, InCare, AllCountedDone;
    var pc := s.threads[t];
    var f := PlanControl(c, s, pc);
    if f.Some? && !f.value.op.Replace? {
      UnrelatedStep(s.core, pc, ApplyOp(s.core, f.value.op), f.value.next);
    }
  }
}
