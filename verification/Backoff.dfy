/** Restart delays (internal/worker/backoff.go), over reals instead of floats. */
module Backoff {

  datatype Settings = Settings(initial: real, maximum: real, multiplier: real, jitter: real)

  /** What validation guarantees (internal/config/validation.go:64-73). */
  ghost predicate Checked(c: Settings) {
    c.initial > 0.0 && c.maximum > 0.0 && c.multiplier >= 1.0 && 0.0 <= c.jitter <= 1.0
  }

  function Power(x: real, n: nat): real { if n == 0 then 1.0 else x * Power(x, n - 1) }

  function Least(a: real, b: real): real { if a <= b then a else b }

  function Grown(c: Settings, n: nat): real { c.initial * Power(c.multiplier, n) }

  /** The n-th delay since the last reset, before jitter. */
  function Base(c: Settings, n: nat): real { Least(c.maximum, Grown(c, n)) }

  /** A delay moved by that share of itself. */
  function Spread(d: real, share: real): real { d * (1.0 + share) }

  /** Of the jitter, the share that the random number u picks. */
  function Share(u: real, jitter: real): real { (u * 2.0 - 1.0) * jitter }

  class Backoff {
    const c: Settings
    var n: nat

    constructor (c: Settings)
      ensures this.c == c && n == 0
    {
      this.c := c;
      n := 0;
    }

    /** Next (25-44); u stands for rand.Float64. */
    method Next(u: real) returns (delay: real)
      requires Checked(c) && 0.0 <= u < 1.0
      modifies this
      ensures n == old(n) + 1
      ensures 0.0 <= delay <= c.maximum
      ensures c.jitter == 0.0 ==> delay == Base(c, old(n))
      ensures Spread(Base(c, old(n)), -c.jitter) <= delay <= Least(c.maximum, Spread(Base(c, old(n)), c.jitter))
      ensures delay == Least(c.maximum, Base(c, old(n)) * (1.0 + c.jitter * (2.0 * u - 1.0)))
    {
      hide Spread, Share, Power, Grown;
      var d := Grown(c, n);
      if d > c.maximum {
        d := c.maximum;
      }
      BaseIsPositive(c, n);
      assert d == Base(c, n);
      JitterIsBounded(u, c.jitter, d);
      n := n + 1;
      SharePicks(u, c.jitter, d);
      if c.jitter > 0.0 {
        d := Spread(d, Share(u, c.jitter));
        if d < 0.0 {
          d := 0.0;
        }
        if d > c.maximum {
          d := c.maximum;
        }
      }
      delay := d;
    }

    /** Reset (47-51). */
    method Reset()
      modifies this
      ensures n == 0
    {
      n := 0;
    }
  }

  lemma NonNegative(a: real, b: real)
    requires a >= 0.0 && b >= 0.0
    ensures a * b >= 0.0
  {
  }

  lemma JitterIsBounded(u: real, jitter: real, d: real)
    requires 0.0 <= u < 1.0 && 0.0 <= jitter <= 1.0 && d > 0.0
    ensures 0.0 <= Spread(d, -jitter) <= Spread(d, Share(u, jitter)) <= Spread(d, jitter)
    ensures Spread(d, -jitter) <= d <= Spread(d, jitter)
  {
    var k := u * 2.0 - 1.0;
    var j := k * jitter;
    NonNegative(k + 1.0, jitter);
    NonNegative(1.0 - k, jitter);
    NonNegative(d, j + jitter);
    NonNegative(d, jitter - j);
    NonNegative(d, 1.0 - jitter);
    NonNegative(d, jitter);
  }

  lemma SharePicks(u: real, jitter: real, d: real)
    ensures Spread(d, Share(u, jitter)) == d * (1.0 + jitter * (2.0 * u - 1.0))
    ensures jitter == 0.0 ==> d * (1.0 + jitter * (2.0 * u - 1.0)) == d
  {
    assert Share(u, jitter) == jitter * (2.0 * u - 1.0);
  }

  lemma {:induction false} PowerGrows(x: real, m: nat, n: nat)
    requires x >= 1.0 && m <= n
    ensures 1.0 <= Power(x, m) <= Power(x, n)
  {
    if n > 0 {
      PowerGrows(x, if m < n then m else m - 1, n - 1);
      hide Power;
      Times(x, n);
      if m == n {
        Times(x, m);
      }
    }
  }

  lemma Times(x: real, n: nat)
    requires n > 0 && x >= 1.0 && Power(x, n - 1) >= 1.0
    ensures Power(x, n) >= Power(x, n - 1)
  {
    assert (x - 1.0) * Power(x, n - 1) >= 0.0;
  }

  lemma BaseIsPositive(c: Settings, n: nat)
    requires Checked(c)
    ensures 0.0 < Base(c, n) <= c.maximum
  {
    PowerGrows(c.multiplier, n, n);
    assert c.initial * Power(c.multiplier, n) >= c.initial * 1.0;
  }

  /** The first delay after a reset is the initial one. */
  lemma FirstDelay(c: Settings)
    ensures Base(c, 0) == if c.initial <= c.maximum then c.initial else c.maximum
  {
    assert Power(c.multiplier, 0) == 1.0;
  }

  /** Each delay is the one before times the multiplier, up to the maximum. */
  lemma NextDelay(c: Settings, n: nat)
    requires Checked(c)
    ensures Base(c, n + 1) == if Base(c, n) * c.multiplier <= c.maximum then Base(c, n) * c.multiplier else c.maximum
  {
    var g, m := Grown(c, n), c.multiplier;
    assert Grown(c, n + 1) == g * m by {
      var p := Power(m, n);
      assert Power(m, n + 1) == m * p;
      assert c.initial * (m * p) == c.initial * p * m;
    }
    PowerGrows(m, n, n);
    NonNegative(c.initial, Power(m, n));
    hide Power, Grown;
    NonNegative(g, m - 1.0);
    NonNegative(c.maximum, m - 1.0);
    if g > c.maximum {
      NonNegative(g - c.maximum, m);
    }
  }

  /** Delays do not shrink between resets. */
  lemma DelaysDoNotShrink(c: Settings, m: nat, n: nat)
    requires Checked(c) && m <= n
    ensures Base(c, m) <= Base(c, n)
  {
    PowerGrows(c.multiplier, m, n);
    hide Power;
    assert c.initial * (Power(c.multiplier, n) - Power(c.multiplier, m)) >= 0.0;
  }

  /** Bernoulli: powers outgrow any line. */
  lemma {:induction false} PowerOutgrows(x: real, n: nat)
    requires x >= 1.0
    ensures Power(x, n) >= 1.0 + n as real * (x - 1.0)
  {
    if n > 0 {
      PowerOutgrows(x, n - 1);
      var e := x - 1.0;
      var p := Power(x, n - 1);
      PowerGrows(x, n - 1, n - 1);
      assert Power(x, n) == x * p == p + e * p;
      assert e * (p - 1.0) >= 0.0;
      assert n as real == (n - 1) as real + 1.0;
    }
  }

  /** With a multiplier above one the maximum is reached, and kept, after finitely many delays. */
  lemma MaximumIsReached(c: Settings) returns (n: nat)
    requires Checked(c) && c.multiplier > 1.0
    ensures forall m :: m >= n ==> Base(c, m) == c.maximum
  {
    var e := c.multiplier - 1.0;
    var steps := c.maximum / (c.initial * e);
    n := if steps <= 0.0 then 0 else steps.Floor + 1;
    assert n as real >= steps;
    forall m: nat | m >= n ensures Base(c, m) == c.maximum {
      Reached(c, e, steps, m);
    }
  }

  lemma Reached(c: Settings, e: real, steps: real, m: nat)
    requires Checked(c) && e == c.multiplier - 1.0 > 0.0
    requires steps == c.maximum / (c.initial * e) && m as real >= steps
    ensures Base(c, m) == c.maximum
  {
    PowerOutgrows(c.multiplier, m);
    var unit, k, p := c.initial * e, m as real, Power(c.multiplier, m);
    hide Power;
    assert unit > 0.0;
    DividedBy(c.maximum, unit);
    NonNegative(k - steps, unit);
    NonNegative(c.initial, p - 1.0 - k * e);
    assert c.initial * (k * e) == k * unit;
  }

  lemma DividedBy(a: real, d: real)
    requires d > 0.0
    ensures a / d * d == a
  {
  }
}
