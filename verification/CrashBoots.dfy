/**
 The crash-loop limit as the boots that follow crashes. Every boot of a slot draws a generation
 (internal/worker/pool.go:278). In a fixed-size pool no boot follows a crash that the policy has refused; on a
 resizable pool one can, exactly if somebody else was already on the way to boot the slot.
 */
module CrashBoots {
  import opened CrashPolicy
  import opened PoolModel
  import opened PoolMachine
  import opened CrashHistory
  import opened PoolLifecycle
  import opened PoolRuns
  import opened PoolTheorems

  /** Crash number x of slot i is among the slot's crashes, and the slot draws a generation between then and now. */
  ghost predicate FollowedByBoot(states: seq<State>, i: nat, x: nat, now: nat)
    requires now < |states|
  {
    exists a, b :: 0 <= a <= b <= now && RecordedBy(states[a], i, x) && DrawsSince(states[a], states[b], i)
  }

  ghost predicate RecordedBy(s: State, i: nat, x: nat) {
    i < |s.core.slots| && x < |s.core.slots[i].crashes|
  }

  ghost predicate DrawsSince(s: State, s': State, i: nat) {
    i < |s.core.slots| && i < |s'.core.slots| && s'.core.slots[i].gen > s.core.slots[i].gen
  }

  // ----- histories only grow -----

  /** A step leaves the crash list of a slot alone or adds the verdict on one crash. */
  lemma CrashesGrow(c: Config, s: State, e: Event, s': State, i: nat)
    requires Step(c, s, e, s') && i < |s.core.slots|
    ensures i < |s'.core.slots|
    ensures var before, after := s.core.slots[i], s'.core.slots[i];
            || (after.crashes == before.crashes && after.recent == before.recent)
            || after.crashes == before.crashes + [Crash(s.now, !SlotFailed(c, after))]
  {
    hide Plan, PcOk, CoreOk, SlotFailed, Recorded;
    PlanLogs(c, s, s.threads[e.t], e.choice);
  }

  lemma {:induction false} CrashesGrowOverRuns(
    c: Config, states: seq<State>, events: seq<Event>, k: nat, m: nat, i: nat)
    requires Run(c, states, events) && k <= m < |states| && i < |states[k].core.slots|
    ensures i < |states[m].core.slots| && states[k].core.slots[i].crashes <= states[m].core.slots[i].crashes
    decreases m
  {
    hide Run, Step;
    if k < m {
      CrashesGrowOverRuns(c, states, events, k, m - 1, i);
      RunStep(c, states, events, m - 1);
      CrashesGrow(c, states[m - 1], events[m - 1], states[m], i);
    }
  }

  // ----- fixed-size pools -----

  ghost predicate RefusedMeansFailed(c: Config, sl: Slot) {
    forall x :: 0 <= x < |sl.crashes| && !sl.crashes[x].allowed ==> SlotFailed(c, sl)
  }

  lemma RefusalFails(c: Config, s: State, e: Event, s': State, i: nat)
    requires Step(c, s, e, s') && c.fixedSize && Cared(c, s) && i < |s'.core.slots|
    requires i < |s.core.slots| ==> RefusedMeansFailed(c, s.core.slots[i])
    ensures RefusedMeansFailed(c, s'.core.slots[i])
  {
    hide Exceeded, Cared;
    if i < |s.core.slots| {
      hide Step;
      CrashesGrow(c, s, e, s', i);
      if SlotFailed(c, s.core.slots[i]) {
        FailedStaysFailed(c, s, e, s', i);
      }
    } else {
      NewSlotsAreFresh(c, s, e, s', i);
    }
  }

  lemma NewSlotsAreFresh(c: Config, s: State, e: Event, s': State, i: nat)
    requires Step(c, s, e, s') && |s.core.slots| <= i < |s'.core.slots|
    ensures s'.core.slots[i].crashes == []
  {
    hide Plan, PcOk, CoreOk;
  }

  /** In a fixed-size pool a slot with a refused crash is a failed slot. */
  lemma {:induction false} RefusalFailsOverRuns(c: Config, states: seq<State>, events: seq<Event>, k: nat, i: nat)
    requires Run(c, states, events) && k < |states| && c.fixedSize && i < |states[k].core.slots|
    ensures RefusedMeansFailed(c, states[k].core.slots[i])
  {
    hide Run, Step, Init, Cared, RefusedMeansFailed;
    if k == 0 {
      RunUnfolds(c, states, events, 0);
      FreshMeansNothingRefused(c, states[0], i);
    } else {
      if i < |states[k - 1].core.slots| {
        RefusalFailsOverRuns(c, states, events, k - 1, i);
      }
      RunCared(c, states, events, k - 1);
      RunStep(c, states, events, k - 1);
      RefusalFails(c, states[k - 1], events[k - 1], states[k], i);
    }
  }

  lemma FreshMeansNothingRefused(c: Config, s: State, i: nat)
    requires Init(c, s) && i < |s.core.slots|
    ensures RefusedMeansFailed(c, s.core.slots[i])
  {
  }

  /** A fixed-size pool boots a slot after a crash only if the policy has allowed it. */
  lemma BootsFollowAllowedCrashes(c: Config, states: seq<State>, events: seq<Event>, k: nat, i: nat, x: nat)
    requires Run(c, states, events) && k < |states| && c.fixedSize
    requires RecordedBy(states[k], i, x) && FollowedByBoot(states, i, x, k)
    ensures states[k].core.slots[i].crashes[x].allowed
  {
    hide Run, SlotFailed;
    var a, b :| 0 <= a <= b <= k && RecordedBy(states[a], i, x) && DrawsSince(states[a], states[b], i);
    CrashesGrowOverRuns(c, states, events, a, k, i);
    RefusalFailsOverRuns(c, states, events, a, i);
    if SlotFailed(c, states[a].core.slots[i]) {
      FailedForever(c, states, events, a, b, i);
    }
  }

  /** Allowed crashes in the window, counted one by one. */
  lemma {:induction false} CountAllowed(history: seq<Crash>, X: set<nat>, lo: int, hi: int)
    requires forall x :: x in X ==> x < |history| && history[x].allowed && lo < history[x].time <= hi
    ensures |X| <= AllowedWithin(history, lo, hi)
  {
    if history == [] {
      assert X == {};
    } else {
      var n := |history| - 1;
      CountAllowed(history[..n], X - {n}, lo, hi);
      assert |X| <= |X - {n}| + if n in X then 1 else 0;
    }
  }

  /**
   The promise of restart_limit, kept by every fixed-size pool: in any window of restart_window at most restart_limit
   crashes of a slot are followed by another boot.
   */
  lemma CrashLoopsAreStopped(
    c: Config, states: seq<State>, events: seq<Event>, k: nat, i: nat, lo: int, X: set<nat>)
    requires Run(c, states, events) && k < |states| && c.fixedSize && c.restartLimit > 0 && i < |states[k].core.slots|
    requires forall x :: x in X ==>
               && x < |states[k].core.slots[i].crashes|
               && lo < states[k].core.slots[i].crashes[x].time <= lo + c.restartWindow
               && FollowedByBoot(states, i, x, k)
    ensures |X| <= c.restartLimit
  {
    hide Run, FollowedByBoot;
    var history := states[k].core.slots[i].crashes;
    forall x | x in X ensures history[x].allowed {
      BootsFollowAllowedCrashes(c, states, events, k, i, x);
    }
    CountAllowed(history, X, lo, lo + c.restartWindow);
    VerdictsAreLimited(c, states, events, k, i, lo);
  }
}
