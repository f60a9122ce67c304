/** What a purge of the idle channel leaves in it (internal/worker/pool.go:393-412). */
module PoolPurging {
  import opened PoolModel

  /** The workers of s other than w, in order. */
  function Without(p: Core, s: seq<Ref>, w: Ref): (rest: seq<Ref>)
    requires ValidRef(p, w) && forall k :: 0 <= k < |s| ==> ValidRef(p, s[k])
    ensures |rest| <= |s| && forall k :: 0 <= k < |rest| ==> ValidRef(p, rest[k])
  {
    if s == [] then []
    else Without(p, s[..|s| - 1], w) + (if SameWorker(p, s[|s| - 1], w) then [] else [s[|s| - 1]])
  }

  lemma WithoutSnoc(p: Core, s: seq<Ref>, i: nat, w: Ref)
    requires ValidRef(p, w) && i < |s| && forall k :: 0 <= k < |s| ==> ValidRef(p, s[k])
    ensures Without(p, s[..i + 1], w) == Without(p, s[..i], w) + (if SameWorker(p, s[i], w) then [] else [s[i]])
  {
    assert s[..i + 1][..i] == s[..i];
  }

  /** One turn of the channel, of which done has already gone round. */
  lemma Turn(before: seq<Ref>, i: nat, done: seq<Ref>)
    requires i < |before|
    ensures var q := before[i..] + done;
            && q[0] == before[i] && q[1..] == before[i + 1..] + done
            && q[1..] + [q[0]] == before[i + 1..] + (done + [before[i]])
            && q[1..] == before[i + 1..] + (done + [])
  {
  }

  lemma IdleIsValid(p: Core)
    requires CoreOk(p)
    ensures forall k :: 0 <= k < |p.idle| ==> ValidRef(p, p.idle[k])
  {
  }

  lemma SameWorkers(p: Core, q: Core, a: Ref, b: Ref)
    requires q.workers == p.workers && ValidRef(p, a) && ValidRef(p, b)
    ensures SameWorker(q, a, b) == SameWorker(p, a, b)
  {
  }

  lemma StillOk(p: Core, w: Ref)
    requires CoreOk(p) && ValidRef(p, w) && forall k :: 0 <= k < |p.idle| ==> ValidRef(p, p.idle[k])
    ensures CoreOk(p.(idle := Without(p, p.idle, w)))
  {
    hide Without;
  }

  /** A finished purge has removed w and nothing else, and changed nobody's place in line. */
  lemma {:induction false} PurgeRemovesOnlyItsTarget(p: Core, s: seq<Ref>, w: Ref)
    requires ValidRef(p, w) && forall k :: 0 <= k < |s| ==> ValidRef(p, s[k])
    requires forall r :: 0 <= r < |p.workers| ==> (SameWorker(p, r, w) <==> r == w)
    ensures w !in Without(p, s, w)
    ensures multiset(Without(p, s, w)) == multiset(s)[w := 0]
    ensures w !in s ==> Without(p, s, w) == s
  {
    if s != [] {
      var n := |s|;
      assert s == s[..n - 1] + [s[n - 1]];
      PurgeRemovesOnlyItsTarget(p, s[..n - 1], w);
    }
  }
}
