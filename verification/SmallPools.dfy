/** Small pools for following a single run step by step. */
module SmallPools {
  import opened Basics
  import opened PoolModel
  import opened PoolMachine
  import opened PoolWellFormed
  import opened Continuations

  /** A fixed-size HTTP pool of one slot, without crash limit. */
  const ONE_WORKER := Config(true, 1, 1, 1, 0, 0, 0, 0, 60, true, true)

  /** An HTTP pool that starts empty and may grow to one worker. */
  const UP_TO_ONE := Config(true, 0, 1, 1, 0, 0, 0, 0, 60, false, true)

  /** A resizable consumer pool of one slot that may crash once a minute. */
  const ONE_CRASH := Config(false, 1, 2, 2, 0, 0, 0, 1, 60, false, true)

  function Bare(core: Core, threads: seq<Pc>): State {
    State(core, threads, map[], 0, 0, false, false, 0)
  }

  lemma Takes(c: Config, s: State, e: Event, f: Effect, s': State)
    requires Ok(s) && e.t < |s.threads| && PlanOf(c, s, e) == Some(f)
    requires s'.threads == s.threads[e.t := f.next] + f.spawned
    requires s' == Perform(s, e.t, f).(threads := s'.threads)
    ensures Step(c, s, e, s') && Ok(s')
  {
    hide Plan, PcOk, CoreOk;
    assert s' == Perform(s, e.t, f);
    StepKeepsOk(c, s, e, s');
  }
}
