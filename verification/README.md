# Benchmark runner: a verified model

This project models the core of a browser-automation benchmark runner and proves what its design promises. The
runner drives a closed loop of logical tasks over a smaller set of physical workers, records what each task did,
attributes the memory of the machine's processes to the benchmark, and summarises the series it has collected.
`dafny verify dfyconfig.toml` checks everything.

## What is modelled

**The scheduler** (`Protocol.dfy`, from `internal/scheduler/driver.go` and `internal/scheduler/pool.go`). A state
machine with one program counter for each client goroutine, each worker goroutine, the driver and the caller of `Close`.
Every access to shared state is one step: the token channel, the unbuffered `jobs` channel, each task's `done` channel,
the `pending` WaitGroup, the `closed` flag, the clock passing the deadline, the user cancelling. A recorder call is a
step too, with two exceptions: what a workflow's steps record goes into one step with the outcome of the workflow, and
the calls of a context's creation into one step with the opening of its page. A schedule names who moves next; the
theorems are about every legal schedule of every program of levels, for any number of clients and workers. A task has a
`done` flag for its channel and, as history that no step reads, the level that built it, its place and its events.
`Ledger.dfy` holds the sums that every step balances, `Custody.dfy` says who has each task, `Invariant.dfy` puts them
together and proves that every step keeps them. `Safety.dfy`, `Progress.dfy` and `EarlyClose.dfy` hold the results;
`Driver.dfy` gives the programs the experiment modes run and says what they are, `Levels.dfy` how many clients each
level has and what a cancellation makes of them, `Timing.dfy` when the measured time is recorded, `Warmup.dfy` when the
measurement holds warmup data, `TaskMemory.dfy` what memory a task is charged with. `Schedules.dfy` builds runs step by
step. `Results.dfy` builds the summary of a run and proves what it says.

**The recorder** (`Metrics.dfy`). A value with one function per call, and a class that updates its fields in place and
is proved against that value. The scheduler's steps make the same calls on the value, and keep a log of them.

**The context pool and the workers** (`Contexts.dfy`, `ContextRuns.dfy`, `Workers.dfy`). The pool as a class, its
operations as functions of its value, every interleaving of workers with those operations and with `Close`, and the
`Run` methods of the HTTP, browser, context, CDP and hybrid workers, with every recorder call they make. In the
scheduler a `Run` is a few worker steps: the launch of its browser, the announcement of it, the opening of a context and
a page, the workflow, the escalations one by one, the latency. Which of them a task goes through, and what they may
record, depends on the kind of worker; what the workflow's steps record is a free list of such calls. The scheduler's
state has every worker's pool. Nobody else uses it, so the release at the end of a `Run` is part of the opening step.
`Workers.RunBooks` proves of one whole `Run` what those steps assume of it, `RunRecords.dfy` what it leaves in every
series and counter, told from its results alone, and `Refinement.dfy` that for each of the five kinds of worker the
steps can carry out every `Run`, call by call, with what it does to the pool. `Workflow.dfy` has the steps of a
workflow, the kinds of worker and the escalation policy.

**Process trees** (`ProcessTree.dfy`, `Ownership.dfy`, `Accounting.dfy`, `ChromiumTrees.dfy`). The two parent walks, the
in-place classification, the role totals, and the forest of Chromium-named processes.

**Series arithmetic** (`Percentiles.dfy`, `Summaries.dfy`, `Sampler.dfy`, on the division of `Quotients.dfy`). Both
percentile algorithms, both summaries, and the streaming means.

**The sweep** (`Sweep.dfy`). The nested loops over scenarios, levels and repetitions, with the memory stop.

`Counting.dfy` holds sums over sequences and cardinality facts that the rest shares.

## Assumptions

- The pool has as many workers as worker loops; the controller passes the same limit to both.
- A worker's `Run` returns. Its result, the durations it measures, the memory readings around it, and what it records of
  steps, requests and failures are free choices.
- The browser's `NewContext` returns a context it has not returned before, or an error.
- Process ids in a snapshot are unique, the controller's id is not 0, and a process with id 0 has parent 0. The walks
  that are made end: that is exactly when no cycle of parents misses the controller (`ProcessTree.WalksEndIff`,
  `Ownership.WalksMadeIff`). A cycle through the controller, from a reused id, is allowed.
- Reals stand for floating-point numbers. Memory sums wrap at 64 bits where the code's do.
- Go's library sort is an insertion sort here; the results do not depend on which sorted arrangement is used.

## Where the code departs from its own documentation

The model follows the code in each case, proves when the promise holds, and exhibits an input on which it does not.

- `internal/scheduler/driver.go:72-74` says that warmup data never enters the primary measurements. When a run is
  cancelled during the warmup, lines 81-83, 192 or 212 return before `Reset`, and
  `internal/controller/controller.go:236-262` still writes the results and builds the summary from that recorder.
  `Warmup.WarmRecordsIff` gives the exact condition in every mode; `Warmup.CancelledWarmupStays` is such a run, in every
  mode.
- `internal/contexts/worker.go:28-30` says that a context whose workflow failed never serves another task. Lines 60-61
  close it and then release it, and `internal/contexts/pool.go:103` puts it back. `ContextRuns.NextPoisonedIff` says
  exactly when the next `Acquire` hands out such a context; `ContextRuns.PoisonedExample` is a run in which a second
  task has been handed one. With one worker to a pool, as the controller sets them up, and closed contexts opening no
  page, that worker never completes another workflow: `ContextRuns.StuckIff` has the exact condition.
- `internal/metrics/metrics.go:77-94` keeps the set-up series and the lifecycle counts over `Reset` because they hold no
  warmup samples. In the headed and headless scenarios every task launches its own browser, announces it and tells of a
  page (`internal/browser/worker.go:93-100`), and in the persistent-context scenario every task tells of a page
  (`internal/contexts/worker.go:42`). `Warmup.WarmSetupIff` gives the exact condition, in every reachable state and for
  each of the three: the launch series, the count of browsers, the count of pages. `Warmup.WarmSetupByKind` says which
  kinds can break it, and `Warmup.WarmupSetupKept` is a run that does, for each of those kinds. The promise holds in
  full in the HTTP scenario, and in the CDP and hybrid scenarios when every pool has a context to spare:
  `Safety.SetupUntouched`. A task that finds no context available creates one, in the warmup or later; where every pool
  has one to spare that never happens (`Safety.ContextsOfSetup`).
- `internal/accounting/accounting.go:72-76` adds processes of unknown role to the auxiliary total, so the benchmark
  total is the memory of every process in the snapshot: `Accounting.BenchmarkIsEverything`. It is the memory of the
  controller's tree exactly when no process outside the tree uses memory:
  `Accounting.BenchmarkIsTreeIffNoStrangers`, and `Accounting.StrangerExample` for a snapshot.
- `cmd/bench/commands.go:413-420` finds the first level spelt like the one the sweep stopped at. If that is an earlier
  one, levels that ran are reported as not run: `Sweep.RepeatedLevelReportedTwice`, with a concrete case in
  `Sweep.RepeatedLevelExample`. `Sweep.CoverageIff` gives the exact condition for the rows to be right.
- `internal/scheduler/pool.go:183` says that `Close` drains the queue. A `Close` that overlaps a running driver can
  close the channel under a sender; `EarlyClose.CloseSafeIffAfterDriver` says that waiting for the driver, as the
  controller does, is both needed and enough.

## Model

| member | source | states |
|---|---|---|
| Invariant.StepKeepsInv | internal/scheduler/driver.go:107-177 | every step of every goroutine, of the clock and of the user keeps the whole invariant |
| Invariant.ScheduleKeepsInv | internal/scheduler/driver.go:48-177 | the invariant survives every legal schedule |
| Safety.TokensConserved | internal/scheduler/driver.go:119-169 | buffered tokens plus token-holding clients equals the worker count in every reachable state; a release is never blocked; all tokens are back when the clients have returned |
| Safety.ActiveBound | internal/scheduler/pool.go:95-150 | the recorder's active count lies between 0 and the number of workers, cancelled or not |
| Safety.LifeInOrder | internal/scheduler/pool.go:95-176 | accepted, received, measured, settled, done closed and pending released each happen at most once per task, in that order; a completed task has recorded a latency |
| Safety.ExactlyOnce | internal/scheduler/pool.go:142-181 | when a level has drained, pending is 0 and every accepted task, abandoned or not, was received, measured, settled, closed and released exactly once; a rejected one left no trace |
| Safety.PendingExact | internal/scheduler/pool.go:142-181 | pending is the number of accepted tasks not yet past `pending.Done` |
| Safety.BoundedFlight | internal/scheduler/driver.go:101-169 | before cancellation at most as many accepted tasks have an open `done` channel as there are workers |
| Safety.SenderFindsWorker | internal/scheduler/pool.go:166-176 | before cancellation a sender on `jobs` always has a worker that is idle or past `markFinished` |
| Safety.TaskAccounting | internal/scheduler/pool.go:98-176 | created = complete + failed + active + accepted tasks not yet marked active, in every reachable state |
| Safety.DrainedAccounting | internal/scheduler/pool.go:98-181 | after a drain, for every kind of worker: active 0, created = queued = complete + failed, one memory delta per settled task, one latency per completed task, and in the hybrid scenario escalations = completed tasks times the browser-only steps of the workflow, else none |
| Safety.ResetWhenQuiet | internal/scheduler/driver.go:75-93 | the recorder is reset only while nothing is pending, active or inside a worker |
| Safety.WarmupIsolation | internal/scheduler/driver.go:75-93 | when the driver has returned: every task accepted since the last reset has one delta and one outcome in the window, a latency exactly when it completed; earlier and rejected tasks have none; the series lengths and counters are those tallies |
| Warmup.WarmRecordsIff | internal/scheduler/driver.go:72-93 | in every mode, when the driver has returned: the window holds a record of a warmup task if and only if a context check of the warmup saw a cancellation and a warmup task had been accepted |
| Warmup.MeasuredOnly | internal/scheduler/driver.go:75-93 | in every mode: a run without an error holds records of accepted measured tasks only; every accepted measured task has its records in full, whatever the run returned |
| Warmup.CancelledWarmupStays | internal/scheduler/driver.go:81-83 | in every mode, for any number of clients and workers, a run cancelled in its first warmup level returns with a warmup task's record in the window |
| Safety.SetupPassesThrough | internal/metrics/metrics.go:77-108 | over a whole run: set-up series and lifecycle counts are those of every recorder call since before the warmup, the window is exactly that of the calls since the last reset |
| Safety.OpenedOnce | internal/browser/worker.go:84-100 | a task launches at most one browser and announces only a launched one, in the per-task-browser kind alone; it tells of at most one page, in that kind and in persistent contexts alone |
| Safety.LaunchesStay | internal/browser/worker.go:84-96 | whatever its outcome and however often the recorder was reset, a task has as many samples in the launch series as browsers it launched; a completed one has exactly one, in the kind that launches, and none elsewhere |
| Safety.SetupSeries | internal/metrics/metrics.go:77-94 | in every reachable state the launch series, the count of browsers and the count of pages are those of set-up plus one for each task that launched, announced or told of a page; CDP connects are those of set-up |
| Warmup.WarmSetupIff | internal/metrics/metrics.go:77-94 | in every reachable state each of the three holds entries of set-up and of measured tasks alone if and only if no warmup task launched a browser, announced one, or told of a page |
| Warmup.WarmSetupByKind | internal/metrics/metrics.go:77-94 | warmup launches and announcements occur only where tasks launch their own browser, warmup pages only there and in persistent contexts |
| Warmup.WarmupSetupKept | internal/contexts/worker.go:31-42 | for each kind that tells of pages, a run in which a warmup task completes, the recorder is reset, and its page, and its browser if it has one, is still counted |
| Safety.ContextsOfSetup | internal/controller/controller.go:117-127 | where every worker's pool has a context to spare, the context counts and series after any run are those of set-up, and the pools are as set up |
| Safety.SetupUntouched | internal/metrics/metrics.go:77-94 | in the HTTP kind, and in the CDP and hybrid kinds with a context to spare, no run changes anything of the set-up data |
| Safety.LaunchSeriesLength | internal/browser/worker.go:84-96 | the launch series holds the set-up launches and one sample per launch by a task, no more |
| Safety.DeadlineOvershoot | internal/scheduler/driver.go:129-156 | whatever the number of clients, at most one task per worker is accepted after a level's deadline |
| Safety.CancellationOvershoot | internal/scheduler/driver.go:129-169 | after cancellation each client submits at most one more task and records at most one cancellation, and before it neither |
| Levels.LevelStarts | internal/scheduler/driver.go:107-126 | a level starts with its deadline ahead, all tokens back and as many clients as it asks for, all at the top of the loop |
| Levels.LevelClients | internal/scheduler/driver.go:107-127 | in every reachable state a level that runs or drains has exactly as many clients as its instruction says |
| Levels.FixedClients | internal/scheduler/driver.go:48-56 | in fixed, steady and spike modes every level that runs has as many clients as the configured concurrency |
| Levels.LadderClients | internal/scheduler/driver.go:181-218 | in ramp and step modes it has as many clients as the listed level within the maximum that its instruction stands for |
| Levels.ClosedLoop | internal/scheduler/driver.go:126-172 | before the deadline, a cancellation or a close, no client has left the loop or is on its way out |
| Levels.CancelRecorded | internal/scheduler/driver.go:131-169 | a client that has left its level on time, with the pool open, has recorded its cancellation exactly once |
| Levels.CanceledCount | internal/scheduler/driver.go:131-169 | the recorder's count of cancellations is the number of clients, of all levels since the last reset, that have recorded one |
| Levels.CutLevelCounts | internal/scheduler/driver.go:131-177 | a level cut short by a cancellation adds one for each of its clients |
| Levels.CancelledModeStops | internal/scheduler/driver.go:181-218 | in every mode, once the run is cancelled inside a level the driver starts no other |
| Timing.MeasuredTime | internal/scheduler/driver.go:75-93 | in every mode, when the driver has returned: the measured time is recorded if and only if the run did not fail in the warmup, whether or not it failed later |
| Timing.LastStepTimes | internal/scheduler/driver.go:86-92 | what is recorded is the time given at the last instruction |
| Safety.DeltaOfTask | internal/scheduler/pool.go:105-140 | a task's memory delta is the rise from the reading before it to the highest reading while it ran, 0 if there was none |
| TaskMemory.Measure | internal/scheduler/pool.go:105-140 | the polling loop and the difference after it give that rise |
| TaskMemory.RiseMeans | internal/scheduler/pool.go:105-140 | no reading is higher by more than the rise, and a rise above 0 is that of some reading |
| Safety.NoPanic | internal/scheduler/pool.go:166-193 | with an orderly shutdown there is no send on or second close of a channel and no negative WaitGroup; the channel closes only after the driver and all clients have returned |
| Safety.ShutdownComplete | internal/scheduler/pool.go:184-193 | at rest every worker loop has exited and every worker was closed exactly once |
| Safety.CloseAgain | internal/scheduler/pool.go:184-187 | a further `Close` changes nothing |
| Progress.NoDeadlock | internal/scheduler/driver.go:107-177 | in every reachable state short of the end some goroutine can move, without help from the clock or the user |
| Progress.StepDecreases | internal/scheduler/driver.go:126-175 | once time is up, every step of any kind decreases an explicit measure over all program counters |
| Progress.ScheduleBounded | internal/scheduler/driver.go:126-175 | so no schedule is longer than the measure |
| Progress.LevelTerminates | internal/scheduler/driver.go:107-177 | after the deadline or cancellation, schedules inside a level are bounded and can always be continued, and a step out of it leads to the next instruction with all clients returned, all workers idle and nothing pending |
| Progress.CancelledRunFinishes | internal/scheduler/driver.go:48-177 | after cancellation every schedule is finite, and one that cannot be continued has the driver returned, nothing pending, all loops exited and all workers closed once |
| Progress.RunBounded | internal/scheduler/driver.go:126-175 | no run is longer than its measure plus a fixed amount for each step taken before the time of a level was up |
| Progress.RunFinishes | internal/scheduler/driver.go:48-177 | so a run whose deadlines pass is finite, cancelled or not, and when it cannot be continued the driver has returned, nothing is pending and the pool is shut down |
| EarlyClose.CloseSafeIffAfterDriver | internal/scheduler/pool.go:166-193 | no schedule panics if and only if `Close` starts after the driver has returned |
| EarlyClose.NoLevelsNoPanic | internal/scheduler/driver.go:107-110 | a run that starts no client never panics, whenever `Close` is called |
| EarlyClose.ClosedAcceptsNoMore | internal/scheduler/pool.go:166-176 | however early `Close` starts, once the pool is closed the only tasks still accepted are those of clients already past the check in `Submit` |
| EarlyClose.ClosedReceivesNone | internal/scheduler/pool.go:97-99 | once the jobs channel is closed no task is received from it, whatever the schedule |
| Driver.RampLevels | internal/scheduler/driver.go:228-241 | the loop that stops at the first level above the maximum collects all levels within it, or level 1 alone |
| Driver.LevelsAreListed | internal/scheduler/driver.go:228-241 | those are the first of the ten listed levels, all that lie within the maximum, or level 1 alone |
| Driver.ListedLevels | internal/scheduler/driver.go:229 | the ten levels, in ascending order |
| Driver.OneLevelModes | internal/scheduler/driver.go:48-93 | fixed, steady and spike modes run, instruction by instruction, one level of the configured concurrency per phase |
| Driver.LadderModes | internal/scheduler/driver.go:181-218 | ramp and step modes run, in each phase, the listed levels in order, each followed by a check of the context, with one more check and the reset after a warmup and the measured time last |
| Driver.ResetSeparates | internal/scheduler/driver.go:48-93 | in every mode there is one reset exactly if there is a warmup; every level before it is a warmup level and every later one is measured |
| Driver.EveryModeNeedsOrderlyClose | internal/controller/controller.go:67-71 | in every mode and at every concurrency, no schedule panics if and only if `Close` waits for the driver or the run starts no client |
| Metrics.Recorder.constructor | internal/metrics/metrics.go:55-57 | a new recorder is empty |
| Metrics.Recorder.Reset | internal/metrics/metrics.go:77-108 | the measurement window is emptied field by field and the set-up series stay |
| Metrics.Recorder.RecordLifecycle | internal/metrics/metrics.go:155-167 | the event is logged and one of the three counts goes up, or none, by its type |
| Metrics.Recorder.RecordRequest | internal/metrics/metrics.go:212-221 | the duration joins its series and the counter of its outcome goes up |
| Metrics.Recorder.RecordHTTPStep | internal/metrics/metrics.go:198-202 | the duration joins the HTTP series and no other |
| Metrics.Recorder.RecordBrowserStep | internal/metrics/metrics.go:205-209 | the duration joins the browser series and no other |
| Metrics.Recorder.RecordFailure | internal/metrics/metrics.go:60-64 | the count of this reason goes up, from 0 if it is new |
| Metrics.Recorder.TaskComplete | internal/metrics/metrics.go:227 | one more complete, one fewer active |
| Contexts.ContextPool.NewContext | internal/contexts/pool.go:57-66 | a start event is recorded whether or not a context is made; `open` counts only those made |
| Contexts.ContextPool.Acquire | internal/contexts/pool.go:70-90 | the last available context, else a new one, else an error; a closed pool gives none; exactly the recorder calls of a creation are made when one is asked for |
| Contexts.ContextPool.Release | internal/contexts/pool.go:94-104 | back on top of the available ones, or closed if the pool is closed |
| Contexts.ContextPool.Close | internal/contexts/pool.go:108-130 | the first call closes every known context and the browser; later calls change nothing |
| Contexts.NewPoolWithBrowser | internal/contexts/pool.go:43-55 | n contexts in order of creation, or, at the first that cannot be made, a closed pool with exactly the earlier ones closed; the recorder has the calls of every creation asked for, in order |
| Contexts.CreationsRecord | internal/contexts/pool.go:43-66 | the recorder counts every context asked for, and the series of creations gains the times of those made, in order |
| ContextRuns.StepKeepsSound | internal/contexts/pool.go:70-130 | every step of every worker and of `Close` keeps partition, custody, growth and close progress |
| ContextRuns.PoolPartition | internal/contexts/pool.go:70-104 | until close: no duplicates, available and in use are disjoint and together are the contexts created, their sizes add up to `open`, and in use is what the workers hold |
| ContextRuns.NoContextShared | internal/contexts/worker.go:31-67 | no context is held by two tasks, before or after close |
| ContextRuns.ExactGrowth | internal/contexts/pool.go:57-104 | `open` is the larger of the initial size and the peak number in use at once |
| ContextRuns.NoGrowthNeeded | internal/controller/controller.go:117-127 | with no more workers than initial contexts nothing is created after construction |
| ContextRuns.CloseCoversAll | internal/contexts/pool.go:108-130 | once `Close` has finished, every context ever created has been closed |
| ContextRuns.PoisonedServedNext | internal/contexts/worker.go:58-64 | the steps after a failed workflow: its context is closed, released, and the one the next `Acquire` returns |
| ContextRuns.NextPoisonedIff | internal/contexts/worker.go:28-64 | in an open pool the next `Acquire` of a spare context returns a closed one if and only if a workflow has failed in the context on top |
| ContextRuns.PoisonedExample | internal/contexts/worker.go:28-64 | a run with one context and one worker in which the second task has been handed a closed context |
| ContextRuns.PoisonedIffFailed | internal/contexts/worker.go:58-64 | the closed contexts of an open pool are those in which a workflow has failed, and there is one if and only if some workflow has |
| ContextRuns.StuckIff | internal/contexts/worker.go:31-67 | one worker to a pool, closed contexts opening no page: before `Close` the worker never completes another workflow, whatever lies below in the pool, if and only if a workflow has failed in the context it holds or would get next |
| Workers.Execute | internal/hybrid/executor.go:57-82 | results up to and including the first failing step; the escalation count is the number of browser-only steps before it, all of them when none fails |
| Workers.ContextWorker.Run | internal/contexts/worker.go:31-67 | on every path: the exact recorder calls in order, the pool after an acquire and one release, the context closed exactly when its workflow failed, and the result |
| Workers.HybridWorker.Run | internal/hybrid/worker.go:39-86 | the same across two transports, with the workflow's browser-only steps as escalations on success only |
| Workers.HTTPWorker.Run | internal/httpworker/worker.go:29-54 | the exact recorder calls in order, requests included, and the result |
| Workers.BrowserWorker.Run | internal/browser/worker.go:84-121 | on every path the exact recorder calls, the launch of the task's own browser among them, and the result |
| Workers.CDPWorker.Run | internal/cdp/worker.go:66-101 | as for the context worker, without the page event |
| Workers.Finish | internal/hybrid/worker.go:71-86 | the end of a run with a pool: on failure close, release and count the failure; on success release, escalations, latency |
| Refinement.RunRefines | internal/scheduler/pool.go:132-147 | for every kind of worker, every pool and every outcome of its foreign calls, steps of that worker in the scheduler make exactly the calls of that `Run`, in order, leave its pool as that `Run` does, and end with its result |
| Workers.RunBooks | internal/hybrid/worker.go:53-85 | for every kind: a successful run adds exactly one latency and its escalations to the books, a failing run neither; a launch sample exactly when a browser was launched; no run touches task counters or memory deltas |
| RunRecords.ResultsRecorded | internal/hybrid/worker.go:56-69 | told from the results alone: in the hybrid kind the times of the steps that went well go, in order, to the series of the transport each ran on, in the others to the one series of steps |
| RunRecords.RunTold | internal/httpworker/worker.go:34-46 | of a whole run of any kind: exactly these times, in the HTTP kind every request with its outcome, and every failure under its reason; nothing of a run that gets to no workflow |
| RunRecords.RunSetup | internal/browser/worker.go:84-100 | what a run of each kind adds to the set-up data: its launch and announcement, the context made for it, its page |
| RunRecords.RunFailure | internal/browser/worker.go:114-117 | a failed workflow is counted exactly when the run got to it and it failed |
| RunRecords.SucceedsIff | internal/browser/worker.go:84-121 | a run succeeds if and only if it gets its browser, context and page, as its kind needs them, and its workflow goes well |
| Workflow.BrowserOnlyIff | internal/hybrid/executor.go:27-38 | which operations escalate: the six browser ones under the workflow policy, none under another |
| Workflow.BrowserStepsCount | internal/hybrid/executor.go:57-82 | the escalations of a workflow are the number of its positions with such an operation |
| Results.BuildSummary | internal/results/results.go:312-354 | the counters, the distribution of every series, throughput times time equal to the completed tasks, and the transport totals |
| Results.ThroughputMeans | internal/results/results.go:324-334 | throughput times the measured time, or the configured time if none was measured, is the number of completed tasks; 0 for no time |
| Results.SummaryAgrees | internal/results/results.go:312-354 | the summary of a drained run of any kind: as many latencies as completed tasks, as many memory deltas as tasks, every task completed or failed, escalations as in the books, and launches, context creations and CDP connects as counted from set-up and the tasks |
| Contexts.RunGivesBack | internal/contexts/worker.go:31-67 | a run on its own leaves the pool as it was, but for one context more when it was exhausted |
| ProcessTree.WalksEndIff | internal/system/collector_windows.go:93-103 | the walks up from all processes end if and only if no cycle of parents misses the root |
| ProcessTree.MeetsRoot | internal/system/collector_windows.go:93-103 | from wherever the walk ends, it decides membership in the root's descendant closure |
| ProcessTree.BelowItselfMeans | internal/system/collector_windows.go:90-105 | the root's own walk meets the root exactly when a cycle of parents passes through it |
| ProcessTree.TreeRSS | internal/system/collector_windows.go:90-105 | the sum, modulo 2^64, of the memory of the root and all its descendants, the root counted twice exactly when it is below itself, whatever the order of the map |
| Ownership.BuildIndex | internal/process/ownership.go:54-62 | the index finds every process at its position |
| Ownership.WalksMadeIff | internal/process/ownership.go:62-75 | without a target, every walk that is made ends if and only if no cycle of parents misses the controller |
| Ownership.WalkUp | internal/process/ownership.go:62-75 | from wherever the walk ends, it decides exactly descent from the controller |
| Ownership.RoleFor | internal/process/ownership.go:76-115 | one entry's role as told by descent, its name and its parent's name; only an entry that is neither controller nor target is walked from |
| Ownership.RoleIff | internal/process/ownership.go:76-115 | for each of the eight roles, exactly which processes have it |
| Ownership.Classify | internal/process/ownership.go:54-116 | every entry gets that role in place and nothing else of it changes |
| Accounting.Aggregate | internal/accounting/accounting.go:41-79 | each total is the sum, modulo 2^64 for memory, over the entries of its roles |
| Accounting.BenchmarkIsEverything | internal/accounting/accounting.go:41-79 | the four memory totals together are the memory of every entry, owned or not |
| Accounting.CountsSplit | internal/accounting/accounting.go:41-79 | the counts cover every process once, and the browser count is browsers, renderers, utilities and GPU processes |
| Accounting.WhereIsSum | internal/accounting/accounting.go:41-79 | a total takes the memory, or the load, of each entry of its roles once |
| Accounting.ClassifyEstablishes | internal/process/ownership.go:54-116 | the snapshot `Classify` leaves is the one the next results are about |
| Accounting.TreeWalksAgree | internal/system/collector_windows.go:90-105 | without a target, the memory of all entries with a known role is what the tree walk sums on the same table |
| Accounting.WalksAgreeIff | internal/system/collector_windows.go:90-105 | what the tree walk sums is the memory of all entries with a known role if and only if the controller is not below itself, or uses no memory |
| Accounting.BenchmarkIsTreeIffNoStrangers | internal/accounting/accounting.go:72-76 | the benchmark total is the tree's memory if and only if processes outside it use none |
| Accounting.StrangerExample | internal/accounting/accounting.go:72-76 | a classified snapshot with one unowned process, whose benchmark total is 15 where the tree has 10 |
| ChromiumTrees.UniqueBrowser | internal/process/ownership.go:76-103 | every owned Chromium-named process climbs, through Chromium-named parents only, to a process classified browser, and can reach no other one |
| ChromiumTrees.BrowsersCountTrees | internal/process/ownership.go:76-103 | there are as many browsers as connected components of owned Chromium-named processes |
| Percentiles.NearestRank | internal/accounting/accounting.go:115-132 | 0 for no values, else the value at the nearest-rank position |
| Percentiles.NearestRankIsPercentile | internal/accounting/accounting.go:115-132 | at least p percent of the values are at most the result and fewer than p percent are below it |
| Percentiles.PercentileUnique | internal/accounting/accounting.go:115-132 | no other value of the list has those two counts |
| Percentiles.NearestRankOrdered | internal/accounting/accounting.go:97-113 | P50, P95 and the peak are in order |
| Percentiles.Stats | internal/accounting/accounting.go:97-113 | the figures are those of every sorted arrangement of the series, with the sum modulo 2^64, and in order |
| Percentiles.StatsOfMultiset | internal/accounting/accounting.go:97-113 | reordering the series changes none of the figures |
| Percentiles.MeanMeaningful | internal/accounting/accounting.go:97-113 | when the sum is below 2^64, the mean lies between the smallest value and the peak |
| Percentiles.PercentileMonotone | internal/stats/stats.go:11-27 | a higher percentile is never a smaller value |
| Percentiles.PercentileEnds | internal/stats/stats.go:11-27 | percentile 0 is the smallest value and 100 the largest |
| Percentiles.PercentileInterpolates | internal/stats/stats.go:20-26 | between two values it is their mean weighted by the distances of the rank |
| Percentiles.PercentileOfFew | internal/stats/stats.go:12-19 | 0 for no values, the value itself for one |
| Percentiles.MedianIsMiddle | internal/stats/stats.go:11-27 | the 50th percentile is the middle value, or the mean of the two middle ones |
| Percentiles.EvenlySpaced | internal/stats/stats.go:11-27 | on evenly spaced values it is where its rank falls on their line |
| Percentiles.IndicesBracket | internal/accounting/accounting.go:115-132 | the nearest-rank index lies between the floor and the ceiling of the interpolation rank |
| Percentiles.PercentilesBracket | internal/stats/stats.go:11-27 | both algorithms answer inside one closed interval between two equal or adjacent values of the list |
| Summaries.SummaryInOrder | internal/stats/stats.go:43-75 | min, median, P90, P95, P99 and max are in order, and the mean lies between min and max |
| Summaries.Summarize | internal/stats/stats.go:43-75 | the figures, with the variance for the standard deviation, are those of every sorted arrangement of the values, and in order |
| Summaries.SumIsSum | internal/stats/stats.go:51-54 | the sum under the mean: a value's is the value, a list's the sum of its parts' |
| Summaries.MeanTimes | internal/stats/stats.go:55-62 | the mean times the number of values is what was divided |
| Summaries.SquaresExpanded | internal/stats/stats.go:57-61 | the squared distances under the variance add up to the squares of the values, less twice the mean times each, plus its square for each |
| Summaries.VarianceZeroIff | internal/stats/stats.go:57-62 | the variance is never negative, and 0 exactly when all values are equal |
| Sampling.Sampler.constructor | internal/metrics/sampler.go:37-42 | no samples and zero aggregates |
| Sampling.Sampler.Record | internal/metrics/sampler.go:69-82 | one more sample, and the aggregates are those of the whole list |
| Sampling.DriftBounded | internal/metrics/sampler.go:80-81 | n times the truncated mean is at most the sum and short of it by at most n(n-1)/2 |
| Sampling.DriftTight | internal/metrics/sampler.go:80-81 | on samples 0, 1, ..., n-1 the bound is reached |
| Sampling.AverageInRange | internal/metrics/sampler.go:80-81 | the truncated mean stays within any range that holds every sample |
| Sampling.AverageBelowPeak | internal/metrics/sampler.go:69-82 | it never exceeds the peak |
| Sampling.PeaksAreMaxima | internal/metrics/sampler.go:73-78 | the peaks are the largest samples, and never below 0 |
| Sampling.CpuMeanExact | internal/metrics/sampler.go:79-80 | the running CPU mean is the batch mean |
| Sweep.LevelIdx | cmd/bench/commands.go:413-420 | the first level with that text, or the last position |
| Sweep.RunBaseline | cmd/bench/commands.go:167-183 | every accumulated figure averaged over the repetitions, or the failure of one |
| Sweep.BaselineMeans | cmd/bench/commands.go:167-183 | figure by figure, the baseline is the mean of what its repetitions report: exact for the real ones, truncated for the others, of a 64-bit sum for the memory |
| Sweep.OneRepetition | cmd/bench/commands.go:167-183 | with one repetition the baseline is what that one reports |
| Sweep.ViolationsIff | internal/saturation/saturation.go:43-78 | for each of the four thresholds, exactly when a run is charged with it |
| Sweep.ExceedsIff | cmd/bench/commands.go:206 | a peak stops the sweep exactly when a ceiling is set and the peak has more bytes than its gigabytes |
| Sweep.RunLevel | cmd/bench/commands.go:222-255 | one row per repetition in order, with its resource figures and the thresholds it violates against the baseline, and the largest peak, or the failure of one |
| Sweep.RowOfRepetition | cmd/bench/commands.go:232-255 | a repetition's row has its own number, figures, violations and resource figures |
| Sweep.RunScenario | cmd/bench/commands.go:159-258 | rows if and only if at least one repetition is asked for, the levels read parse and the cells started succeed; otherwise which of the three went wrong, and where |
| Sweep.RunSweep | cmd/bench/commands.go:156-259 | the rows of all scenarios in order, or the first scenario's error |
| Sweep.CoverageIff | cmd/bench/commands.go:208-220 | each level from the stop on is reported once if and only if the level stopped at is spelt like none before it |
| Sweep.DistinctLevelsCovered | cmd/bench/commands.go:156-259 | for distinct levels: one baseline row, the repetitions of each level before the stop, one not-run row for each level from the stop on |
| Sweep.RanRowsAt | cmd/bench/commands.go:222-255 | repetition r of level li has its own place among the rows |
| Sweep.RanRowsOnly | cmd/bench/commands.go:222-255 | no other rows of runs exist; no level from the stop on ran |
| Sweep.StopIsFirst | cmd/bench/commands.go:208-220 | the stop falls on the first level whose predecessor, other than the baseline, exceeded the ceiling; without a ceiling there is none |
| Sweep.PeakIsLargest | cmd/bench/commands.go:223-231 | the peak compared with the ceiling is the largest of the level's repetitions |
| Sweep.RepeatedLevelReportedTwice | cmd/bench/commands.go:208-220 | if the text of the stop level occurs earlier, a level that ran is also reported as not run |
| Sweep.RepeatedLevelExample | cmd/bench/commands.go:413-420 | levels 1, 5, 5 show it |

## Left out

- The scheduler's pool and driver are a state machine and not classes: a method body cannot be interleaved with
  another one, and the interleavings are what the results are about.
- Deadlines and cancellation are flags that switch on once. How long a level lasts, the 120-second timeout of a task
  and when memory is polled become free choices of outcome and readings.
- `runFixed` falls back to one token per client when the pool has no workers yet; the controller never runs it so.
- The closing of a worker's pool by the worker's `Close` is in `ContextRuns.dfy` and not in the scheduler, where no task
  is left by then.
- Metrics.Recorder.Reset: the recorder's fields are grouped in four records, and its mutex is left out because every
  method is one step.
- Summaries.Summarize: the standard deviation is given by its square, and rounding is not modelled.
- Sampling.Sampler.Record: the truncation is taken of the exact quotient; rounding before it is not modelled.
- Workers.Finish: page closing and task results are left out.
- The retry and WebSocket counters, `SetActive` and the recorder's getters: single assignments.
- `FStats` and the baseline delta of the aggregator: the same shapes as `Stats` and `Aggregate`.
- Names of processes: whether a name is Chromium's and what role it hints at are two facts of an entry.
- Cooldown, which the driver never executes, and the warmup length in ramp, step and spike modes, which those modes
  ignore.
- Reports, files, flags, configuration, the Prometheus exporter and all operating-system and browser calls.
