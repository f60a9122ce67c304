/** How many workers a workload should have (internal/scaling/strategy.go), over reals instead of floats. */
module Strategy {
  import opened Basics

  datatype Class = Cpu | Io | Balanced

  datatype StrategyName = Fixed | Backlog | Resources

  datatype Spec = Spec(
    min: int,
    max: int,
    strategy: StrategyName,
    memoryMB: int,
    class_: Class,
    avgJob: real,           // seconds
    drain: real)

  datatype Runtime = Runtime(
    memoryKnown: bool,
    memoryBytes: nat,
    cpus: real,
    logicalCpus: int)

  function Ceil(x: real): (n: int)
    ensures n as real >= x && n as real < x + 1.0
  {
    -((-x).Floor)
  }

  function PerCpu(c: Class): real {
    match c
    case Cpu => 1.0
    case Io => 4.0
    case Balanced => 2.0
  }

  // ----- clamps -----

  const MIB := 1024 * 1024

  function Divided(total: nat, per: nat): (n: nat)
    requires per > 0
  {
    total / per
  }

  /** Workers the memory limit holds, if there is such a limit (75-79). */
  function MemoryCap(spec: Spec, runtime: Runtime): (cap: Option<int>)
    ensures cap.Some? ==> cap.value >= 0
  {
    if spec.memoryMB > 0 && runtime.memoryKnown && runtime.memoryBytes > 0
    then Some(Divided(runtime.memoryBytes, spec.memoryMB * MIB)) else None
  }

  /** Workers for so many processors (85-94 and 151-167). */
  function WorkersFor(cpus: real, c: Class): int { Ceil(cpus * PerCpu(c)) }

  /** Workers the processors hold, at least one (84-101). */
  function CpuCap(spec: Spec, runtime: Runtime): (cap: Option<int>)
    ensures cap.Some? ==> cap.value >= 1
  {
    if runtime.cpus > 0.0 then Some(Max(1, WorkersFor(runtime.cpus, spec.class_))) else None
  }

  function AtMost(n: int, cap: Option<int>): int { if cap.Some? && cap.value < n then cap.value else n }

  function ApplyResourceClamp(n: int, spec: Spec, runtime: Runtime): int {
    if n <= 0 then n else AtMost(AtMost(n, MemoryCap(spec, runtime)), CpuCap(spec, runtime))
  }

  function Clamp(n: int, min: int, max: int): int {
    var m := if n < min then min else n;
    if max > 0 && m > max then max else m
  }

  function ClampDesired(n: int, spec: Spec, runtime: Runtime): int {
    Clamp(ApplyResourceClamp(Clamp(n, spec.min, spec.max), spec, runtime), spec.min, spec.max)
  }

  /** k workers are enough for so many processors: one each, two each or four each. */
  ghost predicate Covers(k: int, cpus: real, c: Class) {
    match c
    case Cpu => k as real >= cpus
    case Io => k as real >= 4.0 * cpus
    case Balanced => k as real >= 2.0 * cpus
  }

  /** The machine holds k workers: their memory fits a known limit, and one fewer would not cover its processors. */
  ghost predicate Holds(k: int, spec: Spec, runtime: Runtime) {
    && (spec.memoryMB > 0 && runtime.memoryKnown && runtime.memoryBytes > 0 ==>
          k * (spec.memoryMB * 1_048_576) <= runtime.memoryBytes)
    && (runtime.cpus > 0.0 ==> k <= 1 || !Covers(k - 1, runtime.cpus, spec.class_))
  }

  /** A size within the maximum and within what the machine holds. */
  ghost predicate Allowed(k: int, spec: Spec, runtime: Runtime) {
    (spec.max > 0 ==> k <= spec.max) && (k > 0 ==> Holds(k, spec, runtime))
  }

  /** A size that is allowed and no more than asked for. */
  ghost predicate Affordable(k: int, n: int, spec: Spec, runtime: Runtime) {
    k <= n && Allowed(k, spec, runtime)
  }

  lemma DividedIsMost(total: nat, per: nat, k: int)
    requires per > 0
    ensures k <= Divided(total, per) <==> k * per <= total
  {
    var q := Divided(total, per);
    assert total == q * per + total % per;
    if k <= q {
      assert (q - k) * per >= 0;
    } else {
      assert (k - q - 1) * per >= 0;
    }
  }

  lemma CeilIsLeast(x: real, k: int)
    ensures k >= Ceil(x) <==> k as real >= x
  {
    var n := Ceil(x);
    if k < n {
      assert k as real <= (n - 1) as real;
    } else {
      assert k as real >= n as real;
    }
  }

  lemma WorkersForIsLeast(k: int, cpus: real, c: Class)
    ensures k >= WorkersFor(cpus, c) <==> Covers(k, cpus, c)
  {
    CeilIsLeast(cpus * PerCpu(c), k);
    hide Ceil;
  }

  /** The two caps together are what the machine holds. */
  lemma CapsHold(k: int, spec: Spec, runtime: Runtime)
    requires k > 0
    ensures Holds(k, spec, runtime) <==>
            (MemoryCap(spec, runtime).Some? ==> k <= MemoryCap(spec, runtime).value)
            && (CpuCap(spec, runtime).Some? ==> k <= CpuCap(spec, runtime).value)
  {
    if spec.memoryMB > 0 {
      DividedIsMost(runtime.memoryBytes, spec.memoryMB * MIB, k);
    }
    WorkersForIsLeast(k - 1, runtime.cpus, spec.class_);
    hide WorkersFor, Divided, Covers;
  }

  lemma AllowedBelow(j: int, k: int, spec: Spec, runtime: Runtime)
    requires j <= k
    ensures Allowed(k, spec, runtime) ==> Allowed(j, spec, runtime)
  {
    if j > 0 {
      CapsHold(j, spec, runtime);
      CapsHold(k, spec, runtime);
    }
    hide Holds, MemoryCap, CpuCap;
  }

  /** ClampDesired is the largest affordable size, or the minimum if that is larger. */
  lemma ClampIsBest(n: int, spec: Spec, runtime: Runtime)
    requires spec.min >= 0 && (spec.max > 0 ==> spec.min <= spec.max)
    ensures var r := ClampDesired(n, spec, runtime);
            && r >= spec.min && (r == spec.min || Affordable(r, n, spec, runtime))
            && (forall k :: Affordable(k, n, spec, runtime) ==> k <= r)
  {
    forall k | k > 0
      ensures Holds(k, spec, runtime) <==>
              (MemoryCap(spec, runtime).Some? ==> k <= MemoryCap(spec, runtime).value)
              && (CpuCap(spec, runtime).Some? ==> k <= CpuCap(spec, runtime).value)
    {
      CapsHold(k, spec, runtime);
    }
    hide MemoryCap, CpuCap, Holds;
  }

  lemma ClampInRange(n: int, spec: Spec, runtime: Runtime)
    requires spec.min <= spec.max && spec.max > 0
    ensures spec.min <= ClampDesired(n, spec, runtime) <= spec.max
  {
    hide MemoryCap, CpuCap, ApplyResourceClamp;
  }

  lemma ClampIsMonotone(m: int, n: int, spec: Spec, runtime: Runtime)
    requires m <= n
    ensures ClampDesired(m, spec, runtime) <= ClampDesired(n, spec, runtime)
  {
    hide MemoryCap, CpuCap;
    assert MemoryCap(spec, runtime).Some? ==> MemoryCap(spec, runtime).value >= 0;
    assert CpuCap(spec, runtime).Some? ==> CpuCap(spec, runtime).value >= 1;
  }

  lemma ClampIsIdempotent(n: int, spec: Spec, runtime: Runtime)
    ensures ClampDesired(ClampDesired(n, spec, runtime), spec, runtime) == ClampDesired(n, spec, runtime)
  {
    hide MemoryCap, CpuCap;
  }

  // ----- strategies -----

  function FixedWorkers(spec: Spec, runtime: Runtime): int {
    ClampDesired(if spec.max < spec.min then spec.min else spec.max, spec, runtime)
  }

  function AvgJob(spec: Spec): (d: real)
    ensures d > 0.0 && (spec.avgJob > 0.0 ==> d == spec.avgJob)
    ensures spec.avgJob <= 0.0 ==> d == 1.0
  {
    if spec.avgJob <= 0.0 then 1.0 else spec.avgJob
  }

  function DrainTime(spec: Spec): (d: real)
    ensures d > 0.0 && (spec.drain > 0.0 ==> d == spec.drain)
    ensures spec.drain <= 0.0 ==> d == 10.0
  {
    if spec.drain <= 0.0 then 10.0 else spec.drain
  }

  /** Seconds of work in the backlog. */
  function Work(spec: Spec, depth: int): real { depth as real * AvgJob(spec) }

  function Needed(spec: Spec, depth: int): int { Ceil(Work(spec, depth) / DrainTime(spec)) }

  /** depth is what the provider answered, None without a provider or without data. */
  function BacklogWorkers(spec: Spec, depth: Option<int>, runtime: Runtime): int {
    if depth.None? then ClampDesired(spec.min, spec, runtime)
    else ClampDesired(Needed(spec, depth.value), spec, runtime)
  }

  /** The processors to cover: what is available, or else what there is, or else one. */
  function Processors(runtime: Runtime): (cpus: real)
    ensures cpus > 0.0 && (runtime.cpus > 0.0 ==> cpus == runtime.cpus)
    ensures runtime.cpus <= 0.0 && runtime.logicalCpus > 0 ==> cpus == runtime.logicalCpus as real
    ensures runtime.cpus <= 0.0 && runtime.logicalCpus <= 0 ==> cpus == 1.0
  {
    var cpus := if runtime.cpus <= 0.0 then runtime.logicalCpus as real else runtime.cpus;
    if cpus <= 0.0 then 1.0 else cpus
  }

  function ResourcesWorkers(spec: Spec, runtime: Runtime): int {
    ClampDesired(WorkersFor(Processors(runtime), spec.class_), spec, runtime)
  }

  function Demand(spec: Spec, depth: Option<int>, runtime: Runtime): int {
    match spec.strategy
    case Fixed => FixedWorkers(spec, runtime)
    case Backlog => BacklogWorkers(spec, depth, runtime)
    case Resources => ResourcesWorkers(spec, runtime)
  }

  lemma DemandInRange(spec: Spec, depth: Option<int>, runtime: Runtime)
    requires spec.min <= spec.max && spec.max > 0
    ensures spec.min <= Demand(spec, depth, runtime) <= spec.max
  {
    forall n {
      ClampInRange(n, spec, runtime);
    }
    hide ClampDesired;
  }

  /** A workload of constant size gets that size, whatever the strategy and the machine. */
  lemma ConstantSize(spec: Spec, depth: Option<int>, runtime: Runtime)
    requires spec.min == spec.max && spec.max > 0
    ensures Demand(spec, depth, runtime) == spec.max
  {
    DemandInRange(spec, depth, runtime);
  }

  /** Without backlog data the answer is the minimum. */
  lemma NoDataMeansMinimum(spec: Spec, runtime: Runtime)
    requires spec.min <= spec.max && spec.max > 0
    requires spec.strategy == Backlog
    ensures Demand(spec, None, runtime) == spec.min
  {
    hide MemoryCap, CpuCap;
  }

  lemma DividedBy(k: real, a: real, d: real)
    requires d > 0.0
    ensures k >= a / d <==> k * d >= a
  {
    var q := a / d;
    assert q * d == a;
    assert k >= q ==> k * d >= q * d;
    assert k < q ==> k * d < q * d;
  }

  /** k workers get through depth jobs of average length in the drain time. */
  ghost predicate Drains(k: int, depth: int, spec: Spec) {
    k as real * DrainTime(spec) >= Work(spec, depth)
  }

  lemma NeededIsLeast(spec: Spec, depth: int, k: int)
    ensures k >= Needed(spec, depth) <==> Drains(k, depth, spec)
  {
    hide Ceil, AvgJob, DrainTime, Work;
    DividedBy(k as real, Work(spec, depth), DrainTime(spec));
    CeilIsLeast(Work(spec, depth) / DrainTime(spec), k);
  }

  /**
   The backlog strategy drains the backlog in time unless no larger size is allowed, and above the minimum it asks for
   no worker too many.
   */
  lemma BacklogDrainsInTime(spec: Spec, depth: int, runtime: Runtime)
    requires spec.strategy == Backlog && 0 <= spec.min && (spec.max > 0 ==> spec.min <= spec.max)
    ensures var r := Demand(spec, Some(depth), runtime);
            && r >= spec.min
            && (Drains(r, depth, spec) || forall k :: k > r ==> !Allowed(k, spec, runtime))
            && (r > spec.min ==> Allowed(r, spec, runtime) && !Drains(r - 1, depth, spec))
  {
    hide ClampDesired, Drains, Needed, Allowed;
    var n := Needed(spec, depth);
    var r := ClampDesired(n, spec, runtime);
    NeededIsLeast(spec, depth, r);
    NeededIsLeast(spec, depth, r - 1);
    ClampIsBest(n, spec, runtime);
    if r < n {
      forall k | k > r ensures !Allowed(k, spec, runtime) {
        AllowedBelow(r + 1, k, spec, runtime);
        assert Allowed(r + 1, spec, runtime) ==> Affordable(r + 1, n, spec, runtime);
      }
    }
  }

  /** The default strategy keeps the largest size that is allowed, or the minimum. */
  lemma FixedKeepsTheMost(spec: Spec, depth: Option<int>, runtime: Runtime)
    requires spec.strategy == Fixed && 0 <= spec.min <= spec.max && 0 < spec.max
    ensures var r := Demand(spec, depth, runtime);
            && spec.min <= r <= spec.max && (r == spec.min || Holds(r, spec, runtime))
            && (forall k :: spec.min <= k <= spec.max && Holds(k, spec, runtime) ==> k <= r)
            && (Holds(spec.max, spec, runtime) ==> r == spec.max)
  {
    ClampIsBest(spec.max, spec, runtime);
    ClampInRange(spec.max, spec, runtime);
    hide ClampDesired, Holds;
    forall k | spec.min <= k <= spec.max && Holds(k, spec, runtime)
      ensures Affordable(k, spec.max, spec, runtime)
    {
    }
  }

  /**
   Sizing by resources gives the largest allowed size of which one worker fewer would not cover the processors, or the
   minimum.
   */
  lemma ResourcesCoverTheProcessors(spec: Spec, depth: Option<int>, runtime: Runtime)
    requires spec.strategy == Resources && 0 <= spec.min <= spec.max && 0 < spec.max
    ensures var r := Demand(spec, depth, runtime); var cpus := Processors(runtime);
            && spec.min <= r <= spec.max
            && (r == spec.min || (Holds(r, spec, runtime) && !Covers(r - 1, cpus, spec.class_)))
            && forall k :: spec.min <= k <= spec.max && Holds(k, spec, runtime) && k > r ==>
                 Covers(k - 1, cpus, spec.class_)
  {
    hide WorkersFor, ClampDesired, Holds, Covers, Processors;
    var cpus := Processors(runtime);
    var n := WorkersFor(cpus, spec.class_);
    ClampIsBest(n, spec, runtime);
    ClampInRange(n, spec, runtime);
    WorkersForIsLeast(ClampDesired(n, spec, runtime) - 1, cpus, spec.class_);
    forall k | spec.min <= k <= spec.max && Holds(k, spec, runtime) && k > ClampDesired(n, spec, runtime)
      ensures Covers(k - 1, cpus, spec.class_)
    {
      WorkersForIsLeast(k - 1, cpus, spec.class_);
      assert k <= n ==> Affordable(k, n, spec, runtime);
    }
  }

  /** A deeper backlog never gets fewer workers. */
  lemma DeeperBacklogNeedsNoFewer(spec: Spec, a: int, b: int, runtime: Runtime)
    requires spec.strategy == Backlog && a <= b
    ensures Demand(spec, Some(a), runtime) <= Demand(spec, Some(b), runtime)
  {
    var n := Needed(spec, b);
    NeededIsLeast(spec, b, n);
    Product(a as real, b as real, AvgJob(spec));
    NeededIsLeast(spec, a, n);
    ClampIsMonotone(Needed(spec, a), n, spec, runtime);
    hide ClampDesired;
  }

  lemma Product(a: real, b: real, c: real)
    requires a <= b && c > 0.0
    ensures a * c <= b * c
  {
  }
}
