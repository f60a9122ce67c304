/**
 The crash-loop policy of a slot (internal/worker/pool.go:414-433): a list of crash times that is
 pruned to a window on every crash, and the limit that decides whether the slot may restart.
 */
module CrashPolicy {

  /** One crash of a slot's whole history and whether the policy allowed a restart after it. */
  datatype Crash = Crash(time: int, allowed: bool)

  /** The times strictly after windowStart, in order. */
  function Pruned(times: seq<int>, windowStart: int): seq<int> {
    if times == [] then []
    else (if times[0] > windowStart then [times[0]] else []) + Pruned(times[1..], windowStart)
  }

  /** The crash list after a crash at `now`. */
  function Recorded(recent: seq<int>, now: int, window: int): seq<int> {
    Pruned(recent + [now], now - window)
  }

  /** A limit of zero or less switches the policy off. */
  predicate Exceeded(recent: seq<int>, limit: int) {
    limit > 0 && |recent| > limit
  }

  function Times(history: seq<Crash>): seq<int> {
    seq(|history|, i requires 0 <= i < |history| => history[i].time)
  }

  /** What the list has to equal: the whole history, cut to the window that ends at its last crash. */
  function WindowOf(history: seq<Crash>, window: int): seq<int> {
    if history == [] then [] else Pruned(Times(history), history[|history| - 1].time - window)
  }

  ghost predicate Ordered(history: seq<Crash>) {
    forall i, j :: 0 <= i < j < |history| ==> history[i].time <= history[j].time
  }

  /** The policy allowed a restart after a crash exactly when the window ending at it was within the limit. */
  ghost predicate Judged(history: seq<Crash>, limit: int, window: int) {
    forall j :: 0 <= j < |history| ==>
      (history[j].allowed <==> !Exceeded(WindowOf(history[..j + 1], window), limit))
  }

  lemma {:induction false} PrunedConcat(a: seq<int>, b: seq<int>, after: int)
    ensures Pruned(a + b, after) == Pruned(a, after) + Pruned(b, after)
  {
    if a == [] {
      assert a + b == b;
    } else {
      assert (a + b)[1..] == a[1..] + b;
      PrunedConcat(a[1..], b, after);
    }
  }

  lemma {:induction false} PrunedTwice(times: seq<int>, early: int, late: int)
    requires early <= late
    ensures Pruned(Pruned(times, early), late) == Pruned(times, late)
  {
    if times != [] {
      PrunedTwice(times[1..], early, late);
      var head := if times[0] > early then [times[0]] else [];
      PrunedConcat(head, Pruned(times[1..], early), late);
    }
  }

  /** Forgetting crashes early loses nothing: the pruned list keeps answering what the whole history would. */
  lemma WindowIsExact(history: seq<Crash>, now: int, allowed: bool, window: int)
    requires history != [] ==> history[|history| - 1].time <= now
    ensures Recorded(WindowOf(history, window), now, window) == WindowOf(history + [Crash(now, allowed)], window)
  {
    var all := history + [Crash(now, allowed)];
    assert Times(all) == Times(history) + [now];
    assert history == [] ==> Times(history) == [] && Pruned([], now - window) == [];
    hide Times, Pruned;
    PrunedConcat(Times(history), [now], now - window);
    PrunedConcat(WindowOf(history, window), [now], now - window);
    if history != [] {
      PrunedTwice(Times(history), history[|history| - 1].time - window, now - window);
    }
  }

  lemma JudgedExtends(history: seq<Crash>, next: Crash, limit: int, window: int)
    requires Ordered(history) && Judged(history, limit, window)
    requires history != [] ==> history[|history| - 1].time <= next.time
    requires next.allowed <==> !Exceeded(WindowOf(history + [next], window), limit)
    ensures Ordered(history + [next]) && Judged(history + [next], limit, window)
  {
    hide WindowOf, Exceeded;
    var all := history + [next];
    forall j | 0 <= j < |all|
      ensures all[j].allowed <==> !Exceeded(WindowOf(all[..j + 1], window), limit)
    {
      if j < |history| {
        assert all[..j + 1] == history[..j + 1];
      } else {
        assert all[..j + 1] == all;
      }
    }
  }

  /** Crashes with lo < time <= hi after which the policy allowed a restart. */
  function AllowedWithin(history: seq<Crash>, lo: int, hi: int): nat {
    if history == [] then 0
    else
      var last := history[|history| - 1];
      AllowedWithin(history[..|history| - 1], lo, hi) + (if last.allowed && lo < last.time <= hi then 1 else 0)
  }

  lemma {:induction false} AllowedFitThePrunedTimes(history: seq<Crash>, lo: int, hi: int, windowStart: int)
    requires windowStart <= lo
    ensures AllowedWithin(history, lo, hi) <= |Pruned(Times(history), windowStart)|
  {
    if history == [] {
    } else {
      var front, last := history[..|history| - 1], history[|history| - 1];
      AllowedFitThePrunedTimes(front, lo, hi, windowStart);
      assert Times(history) == Times(front) + [last.time];
      PrunedConcat(Times(front), [last.time], windowStart);
    }
  }

  lemma JudgedLast(history: seq<Crash>, limit: int, window: int)
    requires Judged(history, limit, window) && history != []
    ensures history[|history| - 1].allowed <==> !Exceeded(WindowOf(history, window), limit)
  {
    hide WindowOf, Exceeded;
    var n := |history|;
    assert history[n - 1].allowed <==> !Exceeded(WindowOf(history[..n - 1 + 1], window), limit);
    assert history[..n - 1 + 1] == history;
  }

  lemma JudgedFront(history: seq<Crash>, limit: int, window: int)
    requires Ordered(history) && Judged(history, limit, window) && history != []
    ensures Ordered(history[..|history| - 1]) && Judged(history[..|history| - 1], limit, window)
  {
    hide WindowOf, Exceeded;
    var front := history[..|history| - 1];
    forall j | 0 <= j < |front|
      ensures front[j].allowed <==> !Exceeded(WindowOf(front[..j + 1], window), limit)
    {
      assert front[..j + 1] == history[..j + 1];
      assert history[j].allowed <==> !Exceeded(WindowOf(history[..j + 1], window), limit);
    }
  }

  /**
   The promise of restart_limit over a slot's whole life: in any window of the configured length,
   the policy allowed a restart after at most `limit` crashes.
   */
  lemma {:induction false} CrashLoopLimit(history: seq<Crash>, limit: int, window: int, lo: int)
    requires limit > 0
    requires Ordered(history) && Judged(history, limit, window)
    ensures AllowedWithin(history, lo, lo + window) <= limit
  {
    hide Judged, Ordered, Times, Pruned;
    if history == [] {
    } else {
      var last := history[|history| - 1];
      if last.allowed && lo < last.time <= lo + window {
        JudgedLast(history, limit, window);
        AllowedFitThePrunedTimes(history, lo, lo + window, last.time - window);
      } else {
        JudgedFront(history, limit, window);
        CrashLoopLimit(history[..|history| - 1], limit, window, lo);
      }
    }
  }

  /** Crashes with lo < time <= hi. */
  function CrashesWithin(history: seq<Crash>, lo: int, hi: int): nat {
    if history == [] then 0
    else
      CrashesWithin(history[..|history| - 1], lo, hi) + (if lo < history[|history| - 1].time <= hi then 1 else 0)
  }

  lemma {:induction false} PrunedCounts(history: seq<Crash>, lo: int, hi: int)
    requires forall j :: 0 <= j < |history| ==> history[j].time <= hi
    ensures |Pruned(Times(history), lo)| == CrashesWithin(history, lo, hi)
  {
    if history != [] {
      var front, last := history[..|history| - 1], history[|history| - 1];
      PrunedCounts(front, lo, hi);
      assert Times(history) == Times(front) + [last.time];
      PrunedConcat(Times(front), [last.time], lo);
    }
  }

  /**
   What the verdicts mean: a restart after crash j is allowed if and only if the limit is switched off or the window
   that ends with crash j, itself included, holds at most `limit` crashes of the whole history up to then.
   */
  lemma VerdictsCount(history: seq<Crash>, limit: int, window: int, j: nat)
    requires Ordered(history) && Judged(history, limit, window) && j < |history|
    ensures history[j].allowed <==>
            limit <= 0 || CrashesWithin(history[..j + 1], history[j].time - window, history[j].time) <= limit
  {
    var upTo := history[..j + 1];
    PrunedCounts(upTo, history[j].time - window, history[j].time);
    assert history[j].allowed <==> !Exceeded(WindowOf(upTo, window), limit);
  }

  /** The filter of lines 419-425: survivors are written over the front of the same buffer while it is still read. */
  method CompactInPlace(buf: array<int>, windowStart: int) returns (kept: nat)
    modifies buf
    ensures kept <= buf.Length
    ensures buf[..kept] == Pruned(old(buf[..]), windowStart)
  {
    kept := 0;
    ghost var original := buf[..];
    for i := 0 to buf.Length
      invariant kept <= i
      invariant buf[i..] == original[i..]
      invariant buf[..kept] == Pruned(original[..i], windowStart)
    {
      var t := buf[i];
      assert t == buf[i..][0] == original[i];
      assert original[..i + 1] == original[..i] + [t];
      PrunedConcat(original[..i], [t], windowStart);
      ghost var before := buf[..kept];
      ghost var rest := buf[i..][1..];
      assert rest == original[i + 1..];
      if t > windowStart {
        buf[kept] := t;
        kept := kept + 1;
        assert buf[..kept] == before + [t];
      }
      assert buf[i + 1..] == rest;
    }
    assert original[..buf.Length] == original;
  }
}
