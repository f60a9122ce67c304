# Eregion worker supervision: a verified model

Eregion supervises pools of worker processes, hands them HTTP requests over length-prefixed MessagePack frames,
restarts them when they crash and resizes the pools as demand changes. This project models the parts of it in which
things can go wrong and proves what they promise. `dafny verify dfyconfig.toml` checks everything.

## What is modelled

**The pool and the dispatcher as a step system** (`PoolModel`, `PoolMachine`). Every goroutine is a thread with a
program counter: the requests of ServeHTTP, the sending goroutine of each request, boots, monitors, purges of the idle
channel, restart timers, rescaling and shutdown. One step of one thread is one section under `p.mu`, one channel
operation, one `setState` or `getState`, one section of the queue mutex, or one frame written to or read from a worker.
`PoolModel` says what each critical section writes; `PoolMachine` interleaves the sections with arriving requests, the
clock and arbitrary frames from worker processes. The invariants live in `PoolWellFormed`, `PoolLocking`,
`PoolOwnership`, `PoolIdentity`, `PoolSizing`, `Admission`, `Recycling`, `ResponseMatching`, `OrderlyWorkers`,
`CrashHistory`, `PoolDraining`, `PoolShutdown` and `PoolLifecycle`; `PoolRuns` proves all of them inductive.
`PoolTheorems`, `PoolTending`, `PoolSnapshot`, `LostWorkers`, `PoolScaleDown`, `ResizeSection`, `CrashBoots`,
`RequestOutcomes` and `ShutdownCompleteness` draw the conclusions for every run. `Continuations` speaks of what can
still happen after a state; with it `FailedSlots`, `SlotRevival`, `ShutdownOvertaken` and `ShutdownExactly` prove exact
conditions in both directions, and `RequestService`, `SlotService` and `PoolControl` prove what requests, boots, exits,
rescales and Shutdown can bring about, down to the whole resulting state. `PoolPurging` and `RescaleMeaning` say what a
purge and a rescale leave. `SmallPools`, `GrownPool`, `ScaleDownRace`, `CrashLoopRun`, `ShutdownRace` and
`LostWorkerRun` follow particular runs step by step.

**The same sections as an object** (`WorkerPool`, `WorkerExits`, `Dispatcher`, `CrashPolicy.CompactInPlace`). The loops
of the pool update its fields in place; each method says what its caller gets and is tied to the step system's section.

**The wire** (`Bytes`, `Msgpack`, `MsgpackRoundTrip`, `MsgpackFormats`, `MsgpackShortest`, `MsgpackCursor`, `Framing`,
`Connection`, `PhpWorker`, `EchoedIds`). The MessagePack printer and parser of the PHP worker as functions, the same
code as loops over a cursor, frames over a stream that takes and gives bytes in pieces of any size, one request over a
connection, the request loop of a worker, and the way of a request id through all of them.

**Autoscaling** (`Strategy`, `ScaleHysteresis`, `Reconciler`). The strategies as functions; the hysteresis and the
control loop as objects; the hysteresis over every run of calls.

**Restart delays** (`Backoff`).

## Granularity

Theorems over runs hold for every interleaving of single steps (*fine*), with one exception. `ChannelIsExact`,
`NoIdleWorkerLost`, `NeverFull`, `AcquireNeverRejects` and `AnsweredWorkerIsQueued` speak of `WholeRun`: runs in which
an acquire (577-591), a release with its push (682-724), a boot's install with its push (299-322) and a monitor's clear
with its purge (342-365) run uncut, that is, no other goroutine makes any step from their first to their last, and
neither does the clock, a worker process or a sender. The code takes the parts of those operations under separate locks,
so this is an assumption. What holds without it is `LostExactlyWhenDropped`.

Most sections under `p.mu` are one step, because everything they touch is guarded by it. Two are not. A purge works on
the channel, which requests receive from without the mutex, so each of its channel operations is a step. SetDesired
looks at a worker (516) and marks it (523), and a request claims a worker (591, 629) without `p.mu`, so each look and
each mark is a step. Two more sections read and set worker states in one step all the same: Shutdown's marking
(846-859) drains a worker whether it is Idle or Busy, and the monitor (349-350) sets it Dead, so a claim between the two
lines has the effect of one before them. Release counts the request (642-645, under the worker's own mutex) in the step
of its section: only the request that holds the worker reads or writes that counter.

Theorems that need it name what they are about: `c.http` (an HTTP pool), `c.fixedSize` (SetDesired is never called;
`Reconciler.Settle` proves that the control loop leaves every pool with min = max alone), `c.orderly` (worker processes
answer in order and under the request's id, as `EchoedIds.RequestsFindTheirOwnIds` proves of the PHP loop).

## What is false, and when

- *Shutdown leaves no worker behind.* A boot of SetDesired is not in the wait group until it starts the monitor
  (311-313), so Shutdown can overtake one that has just installed its worker: `ShutdownRace.ShutdownCanLeaveAWorker`.
  `ShutdownExactly.ShutdownCanLeaveExactlyWhen` gives the exact condition at the moment the pool starts to stop. A
  fixed-size pool is always shut down completely once Start has returned
  (`ShutdownCompleteness.FixedSizeShutdownIsComplete`).
- *Scale-down does not touch a worker that a request holds.* A request that stands between its check (586) and its claim
  (591) while SetDesired looks at its worker can claim it before the mark, and is cut off:
  `ScaleDownRace.AHeldWorkerCanBeSentAway`. `PoolScaleDown.MarkedWhileHeldExactlyWhen` says that nothing else can go
  wrong; a request that already holds its worker keeps it.
- *A slot that has exceeded its crash limit is not booted again.* On a resizable pool SetDesired boots a slot whose
  restart is still pending (529-534), and neither boot nor restart asks for the limit again:
  `CrashLoopRun.ARefusedSlotCanBootAgain`. `SlotRevival.RefusalIsFinalExactlyWhen` gives the exact condition. Fixed-size
  pools keep the limit: `CrashBoots.CrashLoopsAreStopped`.
- *No idle worker is lost.* A boot that is delayed before its push can queue a worker that is already dead, and the
  push of its replacement then finds the channel full: `LostWorkerRun.AnIdleWorkerCanBeLost`. Exactly the pushes that
  meet a full channel lose their worker: `LostWorkers.LostExactlyWhenDropped`.
- *pack writes the shortest encoding.* The parser casts map keys to strings, so a key such as "5" has a shorter
  encoding as an integer, and the key "Array" one as an empty array; a binary of at most 31 bytes is shorter as the
  string it is read back as. `MsgpackShortest.ShortestExactlyWhenTight` says that nothing else stands in the way;
  `DecimalKeysAreNotShortest` is the smallest example.
- *unpack refuses cut data.* A number or length of several bytes cannot be read when one is missing (217-263), but a
  string is taken with substr (265-270), so one that is cut short is read as far as it goes:
  `MsgpackFormats.CutStringsPass`. `MsgpackFormats.HeadFailsExactly` says which first bytes are refused.

## Conventions

Workers are positions in the list of all workers ever created, which stands for pointers. Request ids are the numbers
of "req-N". Closing a connection or signalling a process is part of the step that decides on it. Times are integers,
durations of the backoff and sizes of the strategies are reals with exact ceilings. A value of PHP's arrays is tagged
as a list or a map; map keys are byte strings. Preconditions taken from configuration checks: positive restart window,
positive delays, multiplier at least one, jitter in [0, 1], minimum at most maximum, and a maximum of at least one.

## Model

| member | source | states |
|---|---|---|
| PoolMachine.Plan | internal/worker/pool.go:272-460 | every step of every goroutine writes only what its section may write: no dangling worker, no slot out of range |
| PoolModel.ApplyOp | internal/worker/pool.go:278-310 | a write keeps slots and workers consistent and never changes the slot or generation of a worker |
| PoolModel.Resize | internal/worker/pool.go:464-536 | the whole of a rescale may only add slots, set flags and drain workers |
| ResizeSection.UninterruptedSection | internal/worker/pool.go:491-536 | the looks and marks of the section, slot by slot, add up to that rescale and to its two lists, when nobody steps in between |
| RescaleMeaning.ResizedExactly | internal/worker/pool.go:491-536 | that rescale slot by slot and worker by worker: in service up to the new size, new slots fresh, and draining exactly the workers above it that are Idle, Starting or Failed, or Busy on a pool that is not an HTTP pool |
| RescaleMeaning.SentAwayExactly | internal/worker/pool.go:511-527 | the first list names exactly those workers |
| RescaleMeaning.BootedExactly | internal/worker/pool.go:529-534 | the second exactly the slots within the new size that are empty and have not crashed out |
| RescaleMeaning.SkippedExactly | internal/worker/pool.go:477-490 | a rescale of a running pool is skipped if and only if it would change neither its size nor its slots nor boot anything |
| RescaleMeaning.MarkedExactly | internal/worker/pool.go:846-859 | Shutdown's marking: occupied slots expect the exit, and installed workers that are neither Dead nor Stopped drain |
| PoolControl.ARescaleComesThrough | internal/worker/pool.go:538-560 | SetDesired can take everybody on its first list out of the channel, cut them off, and start a boot for every slot on its second, changing nothing else (fine) |
| PoolControl.ShutdownComesToItsWait | internal/worker/pool.go:824-876 | Shutdown can come to its wait with the channel empty, those who were in it stopped and cut off, everybody else who is installed draining, and a termination under way for each (fine) |
| PoolModel.DrainListSound | internal/worker/pool.go:514-527 | whoever SetDesired sends away is installed above the new size and was not already leaving |
| PoolModel.BootListSound | internal/worker/pool.go:529-534 | whatever SetDesired boots is an empty slot within the new size that has not crashed out |
| PoolModel.RemainingComplete | internal/worker/pool.go:847-859 | Shutdown's list of workers to terminate misses no occupied slot |
| PoolModel.RemainingSound | internal/worker/pool.go:847-859 | and names only workers that occupy one |
| PoolRuns.StepKeepsInv | internal/worker/pool.go:272-893 | one step of any thread keeps every invariant of the pool |
| PoolRuns.RunInv | internal/worker/pool.go:272-893 | so every state of every run satisfies them |
| PoolWellFormed.StepKeepsOk | internal/worker/pool.go:272-460 | references and slot numbers in the hands of goroutines stay meaningful |
| PoolLocking.PlanKeepsLock | internal/worker/pool.go:272-893 | a section of several steps is entered and left with the mutex, and nobody else writes slots meanwhile |
| PoolLocking.LockPreserved | internal/worker/pool.go:393-536 | so at most one goroutine is ever inside one |
| PoolOwnership.HandsOnKeepsExclusive | internal/worker/pool.go:393-412 | passing a worker from hand to hand keeps it in one place |
| PoolTheorems.ExclusiveOwnership | internal/worker/pool.go:563-634 | no two goroutines hold the same worker, none holds a queued one, and none is queued twice (fine) |
| PoolTheorems.ConsumedForever | internal/worker/pool.go:693-757 | a worker consumed by Discard or a recycling Release is never queued or held again (fine) |
| PoolIdentity.GenerationsDecideIdentity | internal/worker/pool.go:586-588 | comparing generations decides whether a worker is the one installed |
| PoolIdentity.OwnsSlotIsCurrent | internal/worker/pool.go:342-348 | the monitor's generation test recognises exactly its own worker |
| PoolIdentity.DepartedStaysDeparted | internal/worker/pool.go:278-310 | a worker that has left its slot is never installed again |
| PoolIdentity.DepartedIsRejected | internal/worker/pool.go:621-745 | no acquire accepts it, and releasing or discarding it changes neither slots nor queue |
| PoolTheorems.DepartedForever | internal/worker/pool.go:583-745 | both over whole runs: once gone, rejected at every later step (fine) |
| PoolTheorems.RightResponse | internal/protocol/conn.go:62-72 | a request goes on only with a response that carries its own id, and nobody else is using that worker (fine) |
| RequestOutcomes.ResponseCameFromItsWorker | internal/worker/process.go:150-185 | the response a request goes on with is a frame that its own worker wrote and its own sender read from that worker's connection: kind "response", version 1, the request's id, a status from 100 to 599 (fine) |
| RequestOutcomes.DiscardedExactlyWhen | internal/dispatcher/dispatcher.go:171-174 | a waiting request turns to discarding its worker if and only if it gives up, which closes the connection, or its reply is a failure; and that reply came from the sender on the same connection, which had failed, found it closed or read an invalid response (fine) |
| RequestOutcomes.AnsweredWorkerIsQueued | internal/worker/pool.go:637-724 | when a waiting request has an answer, its worker is installed and in service, the pool runs and nobody asks for recycling, two of its steps later that worker is Idle, counted and at the end of the channel, and nothing else has changed (whole operations) |
| RequestService.AnsweredRequestReturnsItsWorker | internal/dispatcher/dispatcher.go:171-206 | the same without the assumption on the schedule, as a continuation of any state with room in the channel (fine) |
| RequestService.AnsweredRequestRecyclesItsWorker | internal/worker/pool.go:692-716 | if the pool is stopping, the slot out of service or the worker used up, it drains instead, cut off, counted and with its exit planned, and stays out of the channel (fine) |
| RequestService.AFailedRequestDiscardsItsWorker | internal/dispatcher/dispatcher.go:171-174 | a request that gives up or has failed leaves its worker draining, cut off and with its exit unplanned, and nothing else changed (fine) |
| RequestService.ARequestCanBeServed | internal/dispatcher/dispatcher.go:113-206 | from any state with a usable worker in the channel, a request that arrives can take the first such worker, send its frame, read any valid answer and give the worker back; the whole resulting state is stated (fine) |
| RequestService.AWaitingRequestCanBeServed | internal/worker/pool.go:601-634 | so can one that waits in the queue, which it then leaves (fine) |
| RequestOutcomes.ARunCanServe | internal/dispatcher/dispatcher.go:113-206 | and so every run with a usable worker in the channel can go on (fine) |
| RequestService.ARequestQueuesWhileThereIsRoom | internal/dispatcher/dispatcher.go:113-136 | a request that finds no worker queues up if fewer than capacity wait, and is turned away otherwise (fine) |
| RequestOutcomes.WaitingRules | internal/dispatcher/dispatcher.go:59-153 | in every run a request looks for a place in the queue exactly if the pool is stopping or the channel is empty, is turned away exactly if as many as the capacity are inside, and gives up waiting exactly on its deadline or when the pool stops (fine) |
| RequestOutcomes.ChannelFits | internal/worker/pool.go:129-153 | the channel never holds more than it was made for (fine) |
| RequestOutcomes.ConsumersServeNoRequests | internal/worker/pool.go:315-634 | the channel of a pool that is not an HTTP pool stays empty, and no request ever holds one of its workers (fine) |
| PoolTheorems.OneRequestPerConnection | internal/worker/process.go:150-185 | a connection carries one request at a time, and ids are not shared (fine) |
| ResponseMatching.IdsStayUnique | internal/dispatcher/dispatcher.go:155-176 | ids handed out by the counter stay unique among the requests in flight |
| PoolTheorems.OrderlyNeverMismatches | internal/protocol/messages.go:137-151 | with workers that answer in order no response is rejected for its id (fine) |
| OrderlyWorkers.NoMismatch | internal/protocol/conn.go:62-72 | the next frame of an orderly worker answers the request that is reading |
| PoolTheorems.MaxRequestsHonoured | internal/worker/pool.go:642-669 | no worker ever answers more than max_requests requests (fine) |
| CrashBoots.CrashLoopsAreStopped | internal/worker/pool.go:272-460 | in a fixed-size pool, in any window of restart_window, at most restart_limit crashes of a slot are followed by another boot of it (fine) |
| CrashBoots.BootsFollowAllowedCrashes | internal/worker/pool.go:376-460 | in a fixed-size pool a boot follows a crash only if the policy allowed it (fine) |
| SlotService.ABootComesThrough | internal/worker/pool.go:272-325 | a boot of a slot in service can draw the next generation, install its worker and bring it to the end of the channel, watched; the whole resulting state is stated (fine) |
| SlotService.ABootFails | internal/worker/pool.go:285-297 | or fail: the generation is used up, the failure is recorded as a crash exactly if the boot followed one, and a restart with backoff is scheduled unless the slot has failed (fine) |
| SlotService.ALateWorkerIsTerminated | internal/worker/pool.go:299-306 | a worker that comes up when its slot is no longer in use is terminated, not installed (fine) |
| SlotService.AnExitedWorkerIsReplaced | internal/worker/pool.go:327-460 | an installed worker that exits leaves slot and channel, an unplanned exit is recorded as a crash, and the slot gets a worker of the next generation unless the policy refuses, in which case nothing follows (fine) |
| SlotService.ARestartFails | internal/worker/pool.go:435-460 | a restart after a crash boots as such and a planned one does not (fine) |
| SlotService.CalledOffExactlyWhen | internal/worker/pool.go:435-460 | a restart that waits is called off only when the pool's context has ended, and otherwise goes on (fine) |
| SlotService.ARestartCanBeCalledOff | internal/worker/pool.go:435-460 | and the end of the context can call it off at any time (fine) |
| SlotService.EverySlotCanServe | internal/worker/pool.go:272-460 | on a running HTTP pool a slot can come to hold a new idle worker in the channel, whenever somebody is on the way to it, and in a fixed-size pool whose context has not ended whenever it has not failed (fine) |
| SlotRevival.FailedSlotBootsExactlyWhen | internal/worker/pool.go:272-460 | on any pool, a failed slot boots again in some continuation if and only if the pool is not stopping and somebody is on the way to the slot: a boot, a restart, a monitor of its worker that may restart it, or a SetDesired that has listed it (fine) |
| SlotRevival.RefusalIsFinalExactlyWhen | internal/worker/pool.go:376-460 | a refused crash is the end of the slot if and only if, when it is recorded, the pool is stopping or nobody else is on the way to it (fine) |
| FailedSlots.NeverBootsAgain | internal/worker/pool.go:272-460 | the half that is a safety promise: no continuation boots a failed slot that nobody is on the way to, or any slot of a stopping pool (fine) |
| CrashLoopRun.ARefusedSlotCanBootAgain | internal/worker/pool.go:529-534 | a run of 24 steps in which both of two crashes in one window are followed by a boot, with a limit of one |
| PoolTheorems.VerdictsAreLimited | internal/worker/pool.go:414-433 | on any pool, in any window the policy allows a restart after at most restart_limit crashes of a slot, and the pruned list equals the windowed history (fine) |
| PoolTheorems.VerdictsAreExact | internal/worker/pool.go:414-433 | the verdict on each crash allows a restart if and only if the policy is off or the window that ends with the crash holds at most restart_limit of all the crashes the slot ever had (fine) |
| CrashPolicy.WindowIsExact | internal/worker/pool.go:414-426 | pruning the crash list early loses nothing the window would ever need |
| CrashPolicy.JudgedExtends | internal/worker/pool.go:428-433 | a further crash keeps every earlier verdict equal to that of the whole history |
| CrashPolicy.VerdictsCount | internal/worker/pool.go:428-433 | the same count for a whole crash history |
| CrashPolicy.CrashLoopLimit | internal/worker/pool.go:428-433 | in any window at most restart_limit verdicts of the policy allow a restart, for a whole crash history |
| CrashPolicy.CompactInPlace | internal/worker/pool.go:418-425 | filtering over the front of the same buffer keeps exactly the times inside the window, in order |
| CrashHistory.AllowedAreLimited | internal/worker/pool.go:414-433 | the same limit on verdicts for every slot of every state that satisfies the invariants |
| PoolTheorems.FailedForever | internal/worker/pool.go:283-460 | in a fixed-size pool a failed slot stays failed and never draws another generation (fine) |
| PoolTheorems.OneProcess | internal/worker/pool.go:272-460 | a fixed-size pool never runs two processes for one slot (fine) |
| PoolTending.NoSlotForgotten | internal/worker/pool.go:272-460 | while a fixed-size pool serves, exactly one goroutine boots, watches, clears or waits to restart every slot that has not failed (fine) |
| PoolTending.StepKeepsTending | internal/worker/pool.go:327-460 | no step leaves a slot alone, unless it has failed or the pool stops serving |
| PoolLifecycle.OneProcessPerSlot | internal/worker/pool.go:272-460 | the invariant behind it: one boot, monitor or restart looks after each slot |
| PoolTheorems.BoundedAdmission | internal/dispatcher/dispatcher.go:59-153 | the waiting counter is exact and within the capacity; waiting requests and those served by a worker in service never exceed slots plus capacity (fine) |
| Admission.LeaveQueueGuardIsIdle | internal/dispatcher/dispatcher.go:73-79 | the guard of leaveQueue is never needed |
| Admission.AdmissionBound | internal/dispatcher/dispatcher.go:113-153 | the bound for every state that satisfies the invariants |
| PoolTheorems.SafeScaleDown | internal/worker/pool.go:464-536 | retired means above desired, no worker there is Idle except one that a SetDesired at work has not reached yet, and desired stays within its bounds (fine) |
| PoolSizing.NothingInstalledAboveDesired | internal/worker/pool.go:299-306 | no step installs a worker in a retired slot |
| PoolScaleDown.HeldExactlyIfClaimedSince | internal/worker/pool.go:513-523 | between look and mark a request holds the worker if and only if it has claimed it since the look (fine) |
| PoolScaleDown.MarkedWhileHeldExactlyWhen | internal/worker/pool.go:513-591 | after a look, some continuation marks the worker in the hands of a request if and only if an acquire stands between its check and its claim of it at that moment (fine) |
| PoolScaleDown.SentAwayUnheld | internal/worker/pool.go:513-527 | otherwise no request holds the worker when it is marked, or ever after (fine) |
| PoolScaleDown.SparedWorkersDrainAtRelease | internal/worker/pool.go:692-716 | a held worker of a retired slot drains at its own release: connection closed, exit planned, never queued or held again (fine) |
| ScaleDownRace.AHeldWorkerCanBeSentAway | internal/worker/pool.go:513-527 | a run of 25 steps in which a request loses its worker to a SetDesired |
| PoolSnapshot.SnapshotConserves | internal/worker/pool.go:771-814 | in every state of every run each counter is the number of slots it stands for; running + starting + failed is desired plus the retired slots still occupied, and idle + busy + draining is at most running |
| PoolSnapshot.SnapshotCounts | internal/worker/pool.go:783-813 | idle is the number of slots whose worker is Idle, and so on for the other states and for empty slots |
| PoolTheorems.OccupiedSlotsOnlyShrink | internal/worker/pool.go:299-306 | from the moment the pool is stopping a slot keeps its worker or becomes empty for good (fine) |
| PoolShutdown.NothingInstalledWhileStopping | internal/worker/pool.go:273-306 | no step of a stopping pool installs a worker |
| ShutdownExactly.ShutdownCanLeaveExactlyWhen | internal/worker/pool.go:824-893 | Shutdown can return with a slot filled if and only if, when the pool starts to stop, a boot outside the wait group stands between lines 311 and 313 with its worker in the slot, and no boot in the wait group is about to empty it (fine) |
| ShutdownCompleteness.ShutdownLeavesExactly | internal/worker/pool.go:824-893 | it does return so exactly if such a boot has stood there all the time (fine) |
| ShutdownCompleteness.ShutdownSuffices | internal/worker/pool.go:824-893 | if no boot outside the wait group stands between lines 311 and 313 when Shutdown begins, every slot is empty for good when it returns (fine) |
| ShutdownCompleteness.FixedSizeShutdownIsComplete | internal/worker/pool.go:824-893 | a fixed-size pool whose Start has returned is always shut down completely (fine) |
| ShutdownOvertaken.EndCounted | internal/worker/pool.go:272-460 | every goroutine in the wait group of a stopping pool can come to its end, whatever it is doing, unless that would empty the slot in question |
| ShutdownRace.ShutdownCanLeaveAWorker | internal/worker/pool.go:299-313 | a run of fifteen steps, from an empty resizable pool, in which a boot of SetDesired is overtaken |
| PoolTheorems.ChannelIsExact | internal/worker/pool.go:316-724 | the idle channel holds exactly the current Idle workers, up to what the operation in progress has in hand (whole operations) |
| PoolTheorems.NoIdleWorkerLost | internal/worker/pool.go:129-153 | between operations it is a permutation of them and fits slots and capacity (whole operations) |
| PoolTheorems.NeverFull | internal/worker/pool.go:316-322 | a push never meets a full channel (whole operations) |
| PoolTheorems.AcquireNeverRejects | internal/worker/pool.go:576-591 | what an acquire receives it claims (whole operations) |
| LostWorkers.InPlayUnlessDropped | internal/worker/pool.go:316-412 | a current Idle worker that no full channel has dropped is queued or in hand (fine) |
| LostWorkers.DroppedIsLost | internal/worker/pool.go:720-724 | a dropped one is never queued or held again (fine) |
| LostWorkers.LostExactlyWhenDropped | internal/worker/pool.go:316-724 | it is out of reach if and only if a push of it met a full channel (fine) |
| LostWorkerRun.AnIdleWorkerCanBeLost | internal/worker/pool.go:311-322 | a run of eighteen steps in which that happens |
| WorkerPool.Pool.constructor | internal/worker/pool.go:122-158 | bounds, size and channel for all options: a maximum below one gives way to the size, one below the minimum to the minimum, and the size is moved into the bounds |
| WorkerPool.Pool.Start | internal/worker/pool.go:218-227 | as many fresh slots as desired |
| WorkerPool.Pool.TryAcquire | internal/worker/pool.go:563-598 | uninterrupted, the first usable worker of the channel becomes Busy; it and the unusable ones before it leave the channel |
| WorkerPool.Pool.Reserve | internal/worker/pool.go:273-281 | exactly if the slot is in use, a generation above that of every worker the slot has had; all generations stay distinct |
| WorkerPool.Pool.Install | internal/worker/pool.go:299-310 | exactly if the slot is still in use, every acquire now accepts the worker as current and finds every other worker of the slot stale |
| WorkerPool.Pool.Release | internal/worker/pool.go:637-718 | back exactly if the worker is current, the pool runs, the slot is in service and neither response, request limit nor memory limit asks for recycling; then it is Idle, otherwise a current worker drains and a replaced one changes nothing but its count |
| WorkerExits.ServingKeepsThePool | internal/worker/pool.go:563-724 | taking a worker, serving and giving it back moves it to the end of the channel, counts the request and changes nothing else |
| WorkerPool.Pool.Discard | internal/worker/pool.go:729-748 | nothing happens unless the worker is current; then it drains, its connection is closed and its exit is not planned |
| WorkerExits.DiscardedExitIsACrash | internal/worker/pool.go:342-388 | the exit of a discarded worker in service counts as a crash exactly if its code is not zero |
| WorkerExits.RecycledExitIsPlanned | internal/worker/pool.go:342-388 | that of a recycled one never does |
| WorkerPool.Pool.ClearExited | internal/worker/pool.go:342-374 | the slot is cleared exactly if it holds a worker of this generation; no restart follows exactly if the slot is out of use, and a planned one exactly if the exit was announced or the worker drained and left with code 0 |
| WorkerPool.Pool.PurgeIdle | internal/worker/pool.go:393-412 | one turn of the channel removes the target and keeps everybody else in order |
| Continuations.PurgeLeavesTheOthers | internal/worker/pool.go:393-412 | so does a purge of the step system, worker by worker |
| PoolPurging.PurgeRemovesOnlyItsTarget | internal/worker/pool.go:393-412 | the others are all still there, each as often as before |
| WorkerPool.Pool.RecordCrash | internal/worker/pool.go:414-426 | the crash list after its in-place filter |
| WorkerPool.Pool.SetDesired | internal/worker/pool.go:464-536 | clamps, grows, retires, and returns exactly the workers to drain and the slots to boot |
| WorkerPool.Pool.MarkRemaining | internal/worker/pool.go:846-859 | marks every occupied slot and lists its workers |
| WorkerPool.Pool.TakeSnapshot | internal/worker/pool.go:783-813 | counts what the specification counts |
| Dispatcher.Dispatcher.TryEnterQueue | internal/dispatcher/dispatcher.go:59-71 | admits while fewer than capacity are inside, and the counter is their number |
| Dispatcher.Dispatcher.LeaveQueue | internal/dispatcher/dispatcher.go:73-79 | one leaves, one is subtracted |
| Dispatcher.Dispatcher.NextId | internal/dispatcher/dispatcher.go:155 | each id is one more than the last |
| MsgpackRoundTrip.RoundTrip | tests/fixtures/lib/msgpack.php:8-275 | unpackAt on pack(v), anywhere in any data, returns v with binaries as strings and stops exactly behind it |
| MsgpackRoundTrip.PackIsPrefixFree | tests/fixtures/lib/msgpack.php:8-135 | pack is self-delimiting and injective up to binaries |
| MsgpackRoundTrip.EncodingReads | tests/fixtures/lib/msgpack.php:137-208 | the same for an encoder that also abbreviates |
| MsgpackRoundTrip.IntReads | tests/fixtures/lib/msgpack.php:45-75 | every width of every 64-bit integer reads back |
| MsgpackFormats.IntFormats | tests/fixtures/lib/msgpack.php:45-75 | the ten integer formats of MessagePack, each in its own range, with big-endian fields |
| MsgpackFormats.LengthFormats | tests/fixtures/lib/msgpack.php:8-135 | the formats of nil, booleans, and of the lengths of strings, binaries, arrays and maps |
| MsgpackFormats.HeadFailsExactly | tests/fixtures/lib/msgpack.php:137-188 | a value fails at its first byte exactly if the parser has no case for it or a length or number it needs is cut short |
| MsgpackFormats.CutStringsPass | tests/fixtures/lib/msgpack.php:265-270 | a string that is cut short is read as far as it goes |
| MsgpackFormats.KeyCasts | tests/fixtures/lib/msgpack.php:120-135 | keys are cast to strings as PHP does, numbers to their decimal digits |
| MsgpackFormats.SetEntryKeepsPlaces | tests/fixtures/lib/msgpack.php:199-208 | setting a key keeps all keys in their places, and a new one comes last |
| Msgpack.UnpackAt | tests/fixtures/lib/msgpack.php:137-188 | a successful parse advances, yields no binary, and only 64-bit integers |
| MsgpackShortest.ShortestExactlyWhenTight | tests/fixtures/lib/msgpack.php:45-208 | no shorter bytes decode to v, exactly when no key is the cast of an integer or array and no binary is short |
| MsgpackShortest.PlainIsShortest | tests/fixtures/lib/msgpack.php:45-118 | so pack is shortest on every value without maps and binaries |
| MsgpackShortest.ValueCost | tests/fixtures/lib/msgpack.php:137-197 | whatever the parser consumes for a tight value is at least as long as pack's encoding |
| MsgpackShortest.DecimalKeysAreNotShortest | tests/fixtures/lib/msgpack.php:130-205 | three bytes that decode to a map which pack writes in four |
| MsgpackCursor.PackArray | tests/fixtures/lib/msgpack.php:104-118 | the appending loop writes the recursive encoding |
| MsgpackCursor.PackMap | tests/fixtures/lib/msgpack.php:120-135 | the appending loop writes the recursive encoding |
| MsgpackCursor.PackValue | tests/fixtures/lib/msgpack.php:8-36 | the dispatch on types writes the recursive encoding |
| MsgpackCursor.Cursor.ReadValue | tests/fixtures/lib/msgpack.php:137-162 | the cursor-driven parser returns the recursive parse and leaves the offset behind it |
| MsgpackCursor.Cursor.ReadMarked | tests/fixtures/lib/msgpack.php:164-187 | the match on the type byte does |
| MsgpackCursor.Cursor.ReadNumber | tests/fixtures/lib/msgpack.php:210-263 | the fixed-width readers, with their signs, do |
| MsgpackCursor.Cursor.ReadArray | tests/fixtures/lib/msgpack.php:190-197 | the loop collects the items of the recursive parse |
| MsgpackCursor.Cursor.ReadMap | tests/fixtures/lib/msgpack.php:199-208 | the loop collects the entries of the recursive parse, later keys overwriting earlier ones in place |
| MsgpackCursor.Unpack | tests/fixtures/lib/msgpack.php:38-43 | the first value of the data, whatever follows |
| Framing.FramesRoundTrip | internal/protocol/frame.go:16-57 | a sequence of payloads within the limit comes back as sent, and no byte is left over |
| Framing.WireReads | internal/protocol/frame.go:16-33 | also with anything behind it |
| MsgpackFormats.HeaderIsBigEndian | internal/protocol/frame.go:36-46 | a frame is the payload behind its length in four bytes, most significant first |
| MsgpackFormats.FramesReadExactly | internal/protocol/frame.go:16-33 | a payload is read exactly if the stream begins with its frame, which is neither empty nor above the limit; a length of zero or above the limit is refused with the header gone |
| Framing.CutWire | internal/protocol/frame.go:16-33 | a stream cut anywhere yields the completed payloads and no others |
| Framing.EndsAgree | tests/fixtures/lib/worker_base.php:39-47 | the Go and the PHP reader agree exactly when the announced length is not between their limits |
| Framing.WriteFull | internal/protocol/frame.go:48-57 | through arbitrary partial writes all of the bytes, or an error and a prefix; it terminates |
| Framing.WriteFrame | internal/protocol/frame.go:36-46 | exactly the frame, or an error and a part of it; an empty payload is refused untouched |
| Framing.ReadFrame | internal/protocol/frame.go:16-33 | the next frame, its refusal, or a closed stream, from arbitrary partial reads |
| Framing.ReadExact | tests/fixtures/lib/worker_base.php:64-75 | exactly n bytes from arbitrary partial reads, or an error |
| Framing.WriteFramePhp | tests/fixtures/lib/worker_base.php:49-62 | the same bytes as the Go end, except that an empty payload is written |
| Framing.ReadFramePhp | tests/fixtures/lib/worker_base.php:39-47 | the next frame up to 16 MiB, or an error |
| Connection.SendRequest | internal/protocol/conn.go:30-73 | a response is returned only after the whole request was written, and only if it is the next frame and passes validation; on a healthy connection a payload within the limit is written and the answer waiting there returned, and one above the limit is refused untouched |
| Connection.AnswersFindTheirRequests | internal/protocol/conn.go:50-73 | if answers come in order, each request finds its own |
| PhpWorker.Serve | tests/fixtures/lib/worker_base.php:124-155 | the loop writes the framed answers to the framed requests, up to where the connection breaks |
| PhpWorker.AnswersInOrder | tests/fixtures/lib/worker_base.php:131-154 | request i gets answer i, which reports its number, and only the last answer recycles |
| PhpWorker.AnswersWithinLimit | tests/fixtures/lib/worker_base.php:147-154 | at most max_requests answers, and the last of them announces the end |
| PhpWorker.AnswersAreComplete | tests/fixtures/lib/worker_base.php:124-155 | unless an answer asks for recycling, every request is answered |
| PhpWorker.MetaReports | tests/fixtures/lib/worker_base.php:134-150 | the count of requests is the loop's own, and at the limit the flag and the reason are |
| PhpWorker.MemoryReports | tests/fixtures/lib/worker_base.php:138-143 | memory_usage and memory_peak are the figures of the process, unless the handler has set them |
| PhpWorker.MetaKeepsTheRest | tests/fixtures/lib/worker_base.php:134-150 | every other key of the meta array is as the handler left it |
| PhpWorker.FlagsBelowTheLimit | tests/fixtures/lib/worker_base.php:144-150 | below the limit the reason is the handler's, and the flag is false unless the handler has set it |
| PhpWorker.Exchange | tests/fixtures/lib/worker_base.php:124-155 | requests sent in frames are answered in frames, and each end reads all of the other's |
| EchoedIds.AnswerEchoes | tests/fixtures/lib/worker_base.php:163-179 | what eregion_ok_response returns for a request, packed, unpacked and read as an envelope, is the response with the request's own id, the handler's status, the process's memory usage and the recycling wish, and passes validation |
| EchoedIds.MetaArrives | tests/fixtures/lib/worker_base.php:134-150 | the pool sees the memory_usage of the process, and recycling asked for exactly at the limit |
| EchoedIds.HeadersHaveAType | tests/fixtures/lib/worker_base.php:165-167 | the headers are the handler's, with a Content-Type added if there was none |
| EchoedIds.Send | internal/worker/process.go:150-185 | the method itself: on a healthy connection of such a worker request i goes out whole, its own answer is returned, and the stream stands at the next one |
| EchoedIds.RequestsFindTheirOwnIds | tests/fixtures/lib/worker_base.php:124-179 | over a whole connection of such a worker, each request that is answered reads exactly that response to itself |
| EchoedIds.IdsAreInjective | internal/dispatcher/dispatcher.go:155 | different numbers give different ids |
| ScaleHysteresis.Hysteresis.DesiredWorkers | internal/scaling/hysteresis.go:31-84 | updates the memory of one workload as the specification does and leaves the others' alone |
| ScaleHysteresis.ScaleUpPace | internal/scaling/hysteresis.go:59-66 | scale-ups are at least the cooldown apart, over every run |
| ScaleHysteresis.ScaleUpExactly | internal/scaling/hysteresis.go:59-66 | a higher demand is granted if and only if no scale-up lies less than the cooldown back |
| ScaleHysteresis.FirstDropWaits | internal/scaling/hysteresis.go:40-77 | as long as demands are below the size the pool had at the first call, that size is the answer until the idle period has passed |
| ScaleHysteresis.FirstRiseCounts | internal/scaling/hysteresis.go:40-66 | a first demand above that size is granted and starts the cooldown |
| ScaleHysteresis.FirstMatchIsQuiet | internal/scaling/hysteresis.go:40-80 | a first demand equal to it starts neither period |
| ScaleHysteresis.TimerHolds | internal/scaling/hysteresis.go:67-75 | while the timer runs the answer is constant and every demand was lower or refused |
| ScaleHysteresis.ScaleDownPace | internal/scaling/hysteresis.go:67-77 | a scale-down comes at least the idle period after every change of the answer |
| ScaleHysteresis.ScaleDownExactly | internal/scaling/hysteresis.go:67-80 | a lower demand is granted if and only if it ends a quiet stretch of the idle period that began with a lower demand |
| ScaleHysteresis.Converges | internal/scaling/hysteresis.go:44-83 | a constant demand is the answer once both periods have passed, from any reachable memory |
| ScaleHysteresis.AnswersStayWithin | internal/scaling/hysteresis.go:59-83 | answers stay within bounds that hold the demands |
| Strategy.ClampIsBest | internal/scaling/strategy.go:53-104 | the clamp is the largest size that is wanted, allowed and affordable, or the minimum |
| Strategy.ClampInRange | internal/scaling/strategy.go:53-68 | it lies in [min, max] |
| Strategy.ClampIsMonotone | internal/scaling/strategy.go:53-104 | it is monotone, for any bounds |
| Strategy.ClampIsIdempotent | internal/scaling/strategy.go:53-104 | and idempotent, for any bounds |
| Strategy.DemandInRange | internal/scaling/strategy.go:106-169 | so every strategy answers within [min, max] |
| Strategy.ConstantSize | internal/scaling/strategy.go:106-169 | with min = max every strategy answers max |
| Strategy.FixedKeepsTheMost | internal/scaling/strategy.go:106-115 | the default strategy answers the largest size up to the maximum that memory and processors hold, or the minimum |
| Strategy.ResourcesCoverTheProcessors | internal/scaling/strategy.go:147-169 | sizing by resources answers the largest such size of which one worker fewer would not cover 1, 4 or 2 workers per processor by class, or the minimum |
| Strategy.NoDataMeansMinimum | internal/scaling/strategy.go:122-133 | without backlog data the answer is the minimum |
| Strategy.BacklogDrainsInTime | internal/scaling/strategy.go:122-145 | the answer drains the backlog in the target time unless no larger size is allowed, and one worker fewer would not |
| Strategy.DeeperBacklogNeedsNoFewer | internal/scaling/strategy.go:122-145 | a deeper backlog never gets fewer workers |
| Reconciler.Manager.Ensure | internal/worker/manager.go:36-88 | one pool per name, which starts at the minimum, has the bounds, mode and memory limit of its workload, and agrees with it |
| Reconciler.Manager.Remove | internal/worker/manager.go:150-161 | forgets one pool and stops it |
| Reconciler.Settle | internal/reconciler/reconciler.go:72-100 | one decision of the hysteresis, on the strategy's demand and the pool's size, is remembered, and the pool ends as large as that; with min = max it is not touched |
| Reconciler.Reconciler.ReconcileWorkload | internal/reconciler/reconciler.go:64-101 | the same with the other workloads unaffected |
| Reconciler.Reconciler.ReconcileOnce | internal/reconciler/reconciler.go:60-112 | after a pass every workload has a pool that agrees with one more decision of its hysteresis, made on the demand of its strategy and the size its pool had before the pass, within [min, max], and no other pool is left |
| Reconciler.Reconciler.RemoveUnseen | internal/reconciler/reconciler.go:103-111 | pools that are no longer wanted are stopped and forgotten |
| Backoff.Backoff.Next | internal/worker/backoff.go:25-44 | the delay is min(maximum, initial * multiplier^n), spread by the jitter's share of a random number and cut at the maximum; within [0, maximum] |
| Backoff.FirstDelay | internal/worker/backoff.go:28-32 | the first delay is the initial one, or the maximum |
| Backoff.NextDelay | internal/worker/backoff.go:28-32 | each further one is the multiplier times the last, or the maximum |
| Backoff.DelaysDoNotShrink | internal/worker/backoff.go:28-32 | delays do not shrink between resets |
| Backoff.MaximumIsReached | internal/worker/backoff.go:28-31 | with a multiplier above one the maximum is reached after finitely many delays, and kept |

## Left out

- Process spawning, signals, socket files, dialling and log draining: a boot succeeds or fails, a process exits with a
  code at any time, and a closed connection stays closed.
- The Go MessagePack and YAML libraries: their source is not part of this model, so decoding on the Go side is a
  parameter, and the codec proofs are about the PHP code. EchoedIds reads envelopes with the PHP parser instead.
- Floats in MessagePack: pack writes them (19-21) but the parser has no case for them.
- PHP's storing of decimal string keys as integer keys: pack casts every key back to a string, so it shows only in maps
  whose keys are "0", "1", ... in order, and in the empty map, which PHP takes for lists. The round trip is about the
  other maps; the parser's model keeps the tag of a map.
- The deadlines of Send and SendRequest: a request may give up and a read or write may fail at any step.
- Aborting an interrupted Shutdown by killing processes (877-885): a process may exit at any step anyway.
- Consumer pools beyond their idle channel: they share all sections of the model, with requests that are never served.
- Floating-point rounding in strategies and delays, and the conversion of a float to a duration.
- HTTP parsing, header copying, metrics, logging, configuration loading and validation, cgroup detection, the sizing
  advisor and templates: they would only add easy members.
- The length of restart delays in the pool: its timers fire at any time; `Backoff` is proved on its own.
- SetDesired before Start, and specs that change after their pool exists: outside the running system's normal path.
- PoolTheorems.OneProcess: says nothing about resizable pools, where SetDesired can boot a slot whose restart is
  pending.
- Two Shutdowns at once: one may mark a worker Draining that the other has just stopped; only the label differs.
- WorkerPool.Pool.TryAcquire: states the loop without interference; the interleaved loop is part of the step system.
- Reconciler.Reconciler.ReconcileOnce: takes the backlog and the clock as parameters, and leaves what Shutdown waits for
  to the step system.
