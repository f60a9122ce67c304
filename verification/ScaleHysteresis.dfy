/**
 Scale-up cooldown and scale-down delay (internal/scaling/hysteresis.go): what one call does to the memory of a
 workload, and what that means over every run of calls. Times are integers of nanoseconds.
 */
module ScaleHysteresis {
  import opened Basics

  /** The zero time, a missing map entry: None. */
  datatype Memory = Memory(lastUp: Option<int>, since: Option<int>, last: Option<int>)

  datatype Policy = Policy(scaleUpCooldown: int, scaleDownIdleFor: int)

  const SECOND := 1_000_000_000

  function Cooldown(p: Policy): (d: int)
    ensures d > 0 && (p.scaleUpCooldown > 0 ==> d == p.scaleUpCooldown)
    ensures p.scaleUpCooldown <= 0 ==> d == 1_000_000_000
  {
    if p.scaleUpCooldown <= 0 then SECOND else p.scaleUpCooldown
  }

  function IdleFor(p: Policy): (d: int)
    ensures d > 0 && (p.scaleDownIdleFor > 0 ==> d == p.scaleDownIdleFor)
    ensures p.scaleDownIdleFor <= 0 ==> d == 30_000_000_000
  {
    if p.scaleDownIdleFor <= 0 then 30 * SECOND else p.scaleDownIdleFor
  }

  /** One call: the answer of the inner strategy, the size of the pool, the clock. */
  datatype Call = Call(demand: int, current: int, now: int)

  /** The previous answer, or on the first call the size of the pool. */
  function Before(m: Memory, c: Call): int { if m.last.Some? then m.last.value else c.current }

  predicate CoolingDown(p: Policy, m: Memory, now: int) {
    m.lastUp.Some? && now - m.lastUp.value < Cooldown(p)
  }

  /** The memory after a call; its last is the answer. */
  function Decide(p: Policy, m: Memory, c: Call): (m': Memory)
    ensures m'.last.Some?
  {
    var prev := Before(m, c);
    if c.demand > prev then
      if CoolingDown(p, m, c.now) then m.(last := Some(prev)) else Memory(Some(c.now), None, Some(c.demand))
    else if c.demand < prev then
      if m.since.None? then m.(since := Some(c.now), last := Some(prev))
      else if c.now - m.since.value < IdleFor(p) then m.(last := Some(prev))
      else m.(since := None, last := Some(c.demand))
    else m.(since := None, last := Some(c.demand))
  }

  class Hysteresis {
    var lastScaleUp: Option<int>
    var scaleDownSince: map<string, int>
    var lastDesired: map<string, int>

    constructor ()
      ensures forall name :: Remembered(name) == Memory(None, None, None)
    {
      lastScaleUp := None;
      scaleDownSince := map[];
      lastDesired := map[];
    }

    function Remembered(name: string): Memory
      reads this
    {
      Memory(lastScaleUp,
             if name in scaleDownSince then Some(scaleDownSince[name]) else None,
             if name in lastDesired then Some(lastDesired[name]) else None)
    }

    /** DesiredWorkers (31-84): demand is what the inner strategy answered. */
    method DesiredWorkers(name: string, p: Policy, demand: int, desired: int, running: int, now: int)
      returns (answer: int)
      modifies this
      ensures var c := Call(demand, if desired == 0 then running else desired, now);
              Remembered(name) == Decide(p, old(Remembered(name)), c) && Remembered(name).last == Some(answer)
      ensures forall other :: other != name ==>
                Remembered(other).since == old(Remembered(other)).since
                && Remembered(other).last == old(Remembered(other)).last
    {
      var raw := demand;
      var current := desired;
      if current == 0 {
        current := running;
      }
      var prev := if name in lastDesired then lastDesired[name] else current;
      var upCooldown := p.scaleUpCooldown;
      if upCooldown <= 0 {
        upCooldown := SECOND;
      }
      var downIdle := p.scaleDownIdleFor;
      if downIdle <= 0 {
        downIdle := 30 * SECOND;
      }
      if raw > prev {
        if lastScaleUp.Some? && now - lastScaleUp.value < upCooldown {
          raw := prev;
        } else {
          lastScaleUp := Some(now);
          scaleDownSince := scaleDownSince - {name};
        }
      } else if raw < prev {
        if name !in scaleDownSince {
          scaleDownSince := scaleDownSince[name := now];
          raw := prev;
        } else if now - scaleDownSince[name] < downIdle {
          raw := prev;
        } else {
          scaleDownSince := scaleDownSince - {name};
        }
      } else {
        scaleDownSince := scaleDownSince - {name};
      }
      lastDesired := lastDesired[name := raw];
      answer := raw;
    }
  }

  // ----- runs of calls -----

  /** The memory after the first n calls to a new Hysteresis. */
  function After(p: Policy, calls: seq<Call>, n: nat): Memory
    requires n <= |calls|
  {
    if n == 0 then Memory(None, None, None) else Decide(p, After(p, calls, n - 1), calls[n - 1])
  }

  function Answer(p: Policy, calls: seq<Call>, i: nat): int
    requires i < |calls|
  {
    After(p, calls, i + 1).last.value
  }

  /** What call i is compared with: the answer before it, or for the first call the size of the pool. */
  function Prior(p: Policy, calls: seq<Call>, i: nat): int
    requires i < |calls|
  {
    if i == 0 then calls[0].current else Answer(p, calls, i - 1)
  }

  lemma PriorIsRemembered(p: Policy, calls: seq<Call>, i: nat)
    requires i < |calls|
    ensures Prior(p, calls, i) == Before(After(p, calls, i), calls[i])
    ensures After(p, calls, i + 1) == Decide(p, After(p, calls, i), calls[i])
    ensures Answer(p, calls, i) == Decide(p, After(p, calls, i), calls[i]).last.value
  {
  }

  ghost predicate Clocked(calls: seq<Call>) {
    forall i, j :: 0 <= i <= j < |calls| ==> calls[i].now <= calls[j].now
  }

  ghost predicate ScaledUp(p: Policy, calls: seq<Call>, i: nat)
    requires i < |calls|
  {
    Answer(p, calls, i) > Prior(p, calls, i)
  }

  ghost predicate ScaledDown(p: Policy, calls: seq<Call>, i: nat)
    requires i < |calls|
  {
    Answer(p, calls, i) < Prior(p, calls, i)
  }

  /** An answer is the demand or the answer before. */
  lemma AnswerIsDemandOrPrior(p: Policy, calls: seq<Call>, i: nat)
    requires i < |calls|
    ensures Answer(p, calls, i) == calls[i].demand || Answer(p, calls, i) == Prior(p, calls, i)
  {
    PriorIsRemembered(p, calls, i);
  }

  /** Nothing remembered lies in the future. */
  lemma {:induction false} MemoryIsPast(p: Policy, calls: seq<Call>, n: nat)
    requires Clocked(calls) && n < |calls|
    ensures var m := After(p, calls, n);
            && (m.lastUp.Some? ==> m.lastUp.value <= calls[n].now)
            && (m.since.Some? ==> m.since.value <= calls[n].now)
  {
    if n > 0 {
      MemoryIsPast(p, calls, n - 1);
    }
  }

  /** The last scale-up remembered is not before any scale-up of the run. */
  lemma {:induction false} LastUpIsLatest(p: Policy, calls: seq<Call>, i: nat, n: nat)
    requires Clocked(calls) && i < n <= |calls| && ScaledUp(p, calls, i)
    ensures var m := After(p, calls, n); m.lastUp.Some? && calls[i].now <= m.lastUp.value <= calls[n - 1].now
  {
    if i < n - 1 {
      LastUpIsLatest(p, calls, i, n - 1);
    }
  }

  /** Scale-ups are at least the cooldown apart. */
  lemma ScaleUpPace(p: Policy, calls: seq<Call>, i: nat, j: nat)
    requires Clocked(calls) && i < j < |calls| && ScaledUp(p, calls, i) && ScaledUp(p, calls, j)
    ensures calls[j].now - calls[i].now >= Cooldown(p)
  {
    LastUpIsLatest(p, calls, i, j);
  }

  lemma {:induction false} LastUpHappened(p: Policy, calls: seq<Call>, n: nat) returns (i: nat)
    requires n <= |calls| && After(p, calls, n).lastUp.Some?
    ensures i < n && ScaledUp(p, calls, i) && After(p, calls, n).lastUp.value == calls[i].now
  {
    if After(p, calls, n).lastUp == After(p, calls, n - 1).lastUp && !ScaledUp(p, calls, n - 1) {
      i := LastUpHappened(p, calls, n - 1);
    } else {
      i := n - 1;
    }
  }

  /** A higher demand is granted exactly when no scale-up lies less than the cooldown back. */
  lemma ScaleUpExactly(p: Policy, calls: seq<Call>, j: nat)
    requires Clocked(calls) && j < |calls| && calls[j].demand > Prior(p, calls, j)
    ensures ScaledUp(p, calls, j) <==>
            forall i :: 0 <= i < j && ScaledUp(p, calls, i) ==> calls[j].now - calls[i].now >= Cooldown(p)
    ensures Answer(p, calls, j) == if ScaledUp(p, calls, j) then calls[j].demand else Prior(p, calls, j)
  {
    PriorIsRemembered(p, calls, j);
    if ScaledUp(p, calls, j) {
      forall i | 0 <= i < j && ScaledUp(p, calls, i) ensures calls[j].now - calls[i].now >= Cooldown(p) {
        ScaleUpPace(p, calls, i, j);
      }
    } else {
      var i := LastUpHappened(p, calls, j);
      assert calls[j].now - calls[i].now < Cooldown(p);
    }
  }

  // ----- the first call of a workload -----

  /** A first demand below the size of the pool waits: the answer is that size, until the idle period has passed. */
  lemma {:induction false} FirstDropWaits(p: Policy, calls: seq<Call>, i: nat)
    requires Clocked(calls) && i < |calls|
    requires forall k :: 0 <= k <= i ==> calls[k].demand < calls[0].current
    requires calls[i].now - calls[0].now < IdleFor(p)
    ensures Answer(p, calls, i) == calls[0].current
    ensures var m := After(p, calls, i + 1); m.since == Some(calls[0].now)
  {
    PriorIsRemembered(p, calls, i);
    if i > 0 {
      FirstDropWaits(p, calls, i - 1);
    }
  }

  /** A first demand above the size of the pool is granted, and counts as a scale-up for those that follow. */
  lemma {:induction false} FirstRiseCounts(p: Policy, calls: seq<Call>, i: nat)
    requires Clocked(calls) && i < |calls| && calls[0].demand > calls[0].current
    requires forall k :: 0 < k <= i ==> calls[k].demand > calls[0].demand
    requires calls[i].now - calls[0].now < Cooldown(p)
    ensures Answer(p, calls, i) == calls[0].demand && After(p, calls, i + 1).lastUp == Some(calls[0].now)
  {
    PriorIsRemembered(p, calls, i);
    if i > 0 {
      FirstRiseCounts(p, calls, i - 1);
    }
  }

  /** A first demand equal to the size of the pool is the answer, and starts neither period. */
  lemma FirstMatchIsQuiet(p: Policy, calls: seq<Call>)
    requires |calls| > 0 && calls[0].demand == calls[0].current
    ensures Answer(p, calls, 0) == calls[0].current
    ensures After(p, calls, 1).lastUp.None? && After(p, calls, 1).since.None?
  {
    PriorIsRemembered(p, calls, 0);
  }

  // ----- the scale-down timer -----

  /** Where the timer running after n calls was started. */
  function TimerStart(p: Policy, calls: seq<Call>, n: nat): (s: nat)
    requires n <= |calls| && After(p, calls, n).since.Some?
    ensures s < n
  {
    if After(p, calls, n - 1).since.Some? then TimerStart(p, calls, n - 1) else n - 1
  }

  /** Call k left the answer alone: a lower demand, or a higher one that the cooldown refused. */
  ghost predicate Held(p: Policy, calls: seq<Call>, k: nat, answer: int)
    requires k < |calls|
  {
    && Prior(p, calls, k) == answer == Answer(p, calls, k)
    && (calls[k].demand < answer
        || (calls[k].demand > answer && CoolingDown(p, After(p, calls, k), calls[k].now)))
  }

  /** While the timer runs, the answer is constant, and no call asked for it or was granted more. */
  lemma {:induction false} TimerHolds(p: Policy, calls: seq<Call>, n: nat, k: nat)
    requires n <= |calls| && After(p, calls, n).since.Some? && TimerStart(p, calls, n) <= k < n
    ensures var s := TimerStart(p, calls, n); var m := After(p, calls, n);
            m.since.value == calls[s].now && Held(p, calls, k, m.last.value)
  {
    if After(p, calls, n - 1).since.Some? {
      if k < n - 1 {
        TimerHolds(p, calls, n - 1, k);
      } else {
        TimerHolds(p, calls, n - 1, n - 2);
      }
    }
  }

  /** Calls s to n - 1 held the answer, and s, which asked for less, started the timer or found it running. */
  ghost predicate IdleStretch(p: Policy, calls: seq<Call>, s: nat, n: nat, answer: int)
    requires n <= |calls|
  {
    s < n && calls[s].demand < answer && forall k :: s <= k < n ==> Held(p, calls, k, answer)
  }

  lemma {:induction false} StretchKeepsTimer(p: Policy, calls: seq<Call>, s: nat, n: nat, answer: int)
    requires Clocked(calls) && n <= |calls| && IdleStretch(p, calls, s, n, answer)
    ensures var m := After(p, calls, n); m.last == Some(answer) && m.since.Some? && m.since.value <= calls[s].now
  {
    assert Held(p, calls, n - 1, answer);
    if s < n - 1 {
      StretchKeepsTimer(p, calls, s, n - 1, answer);
    } else {
      MemoryIsPast(p, calls, s);
    }
  }

  /** The stretch behind a scale-down. */
  lemma ScaleDownNeedsIdle(p: Policy, calls: seq<Call>, j: nat) returns (s: nat)
    requires Clocked(calls) && j < |calls| && ScaledDown(p, calls, j)
    ensures IdleStretch(p, calls, s, j, Prior(p, calls, j)) && calls[j].now - calls[s].now >= IdleFor(p)
  {
    s := TimerStart(p, calls, j);
    forall k | s <= k < j ensures Held(p, calls, k, Prior(p, calls, j)) {
      TimerHolds(p, calls, j, k);
    }
    TimerHolds(p, calls, j, s);
    TimerStartsLow(p, calls, j);
  }

  lemma {:induction false} TimerStartsLow(p: Policy, calls: seq<Call>, n: nat)
    requires n <= |calls| && After(p, calls, n).since.Some?
    ensures var s := TimerStart(p, calls, n); calls[s].demand < Prior(p, calls, s)
  {
    if After(p, calls, n - 1).since.Some? {
      TimerStartsLow(p, calls, n - 1);
    }
  }

  /**
   A lower demand is granted exactly when it ends a stretch of calls, at least the idle period long, that began
   with a lower demand, in which the answer did not change and every demand was lower or was refused.
   */
  lemma ScaleDownExactly(p: Policy, calls: seq<Call>, j: nat)
    requires Clocked(calls) && j < |calls| && calls[j].demand < Prior(p, calls, j)
    ensures ScaledDown(p, calls, j) <==>
            exists s :: 0 <= s < j && IdleStretch(p, calls, s, j, Prior(p, calls, j))
                        && calls[j].now - calls[s].now >= IdleFor(p)
    ensures Answer(p, calls, j) == if ScaledDown(p, calls, j) then calls[j].demand else Prior(p, calls, j)
  {
    if ScaledDown(p, calls, j) {
      var s := ScaleDownNeedsIdle(p, calls, j);
    } else {
      forall s | 0 <= s < j && IdleStretch(p, calls, s, j, Prior(p, calls, j))
        ensures calls[j].now - calls[s].now < IdleFor(p)
      {
        StretchKeepsTimer(p, calls, s, j, Prior(p, calls, j));
      }
    }
  }

  /** So it comes at least the idle period after every change of the answer. */
  lemma ScaleDownPace(p: Policy, calls: seq<Call>, i: nat, j: nat)
    requires Clocked(calls) && i < j < |calls| && ScaledDown(p, calls, j)
    requires Answer(p, calls, i) != Prior(p, calls, i)
    ensures calls[j].now - calls[i].now >= IdleFor(p)
  {
    var s := ScaleDownNeedsIdle(p, calls, j);
    assert i >= s ==> Held(p, calls, i, Prior(p, calls, j));
  }

  // ----- convergence -----

  /** Demand d in every call from a on: the state until d is reached, with the clocks that will let it through. */
  ghost predicate Approaching(p: Policy, m: Memory, d: int, start: int) {
    && m.last.Some?
    && (d > m.last.value ==> m.lastUp.Some? && m.lastUp.value <= start)
    && (d < m.last.value ==> m.since.Some? && m.since.value <= start)
  }

  lemma {:induction false} StaysApproaching(p: Policy, calls: seq<Call>, a: nat, n: nat, d: int)
    requires Clocked(calls) && a < n <= |calls|
    requires forall k :: a <= k < n ==> calls[k].demand == d
    ensures Approaching(p, After(p, calls, n), d, calls[a].now)
  {
    if n == a + 1 {
      MemoryIsPast(p, calls, a);
    } else {
      StaysApproaching(p, calls, a, n - 1, d);
    }
  }

  /** A constant demand is the answer once both periods have passed. */
  lemma Converges(p: Policy, calls: seq<Call>, a: nat, k: nat, d: int)
    requires Clocked(calls) && a <= k < |calls|
    requires forall i :: a <= i <= k ==> calls[i].demand == d
    requires calls[k].now - calls[a].now >= Max(Cooldown(p), IdleFor(p))
    ensures Answer(p, calls, k) == d
  {
    StaysApproaching(p, calls, a, k, d);
  }

  /** Answers stay within any bounds that hold the demands and the size of the pool at the first call. */
  lemma {:induction false} AnswersStayWithin(p: Policy, calls: seq<Call>, i: nat, lo: int, hi: int)
    requires i < |calls| && lo <= calls[0].current <= hi
    requires forall k :: 0 <= k <= i ==> lo <= calls[k].demand <= hi
    ensures lo <= Answer(p, calls, i) <= hi
  {
    AnswerIsDemandOrPrior(p, calls, i);
    if i > 0 {
      AnswersStayWithin(p, calls, i - 1, lo, hi);
    }
  }
}
