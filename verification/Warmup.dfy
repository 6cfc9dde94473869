/** Warmup isolation in every mode: which tasks belong to the warmup, when the window or the set-up data holds a record
    of one, and runs in which they do (internal/scheduler/driver.go, runWithWarmup, and internal/metrics/metrics.go,
    Reset). */
module Warmup {
  import opened Counting
  import opened Metrics
  import opened Protocol
  import opened Workflow
  import opened Ledger
  import opened Custody
  import opened Invariant
  import opened Safety
  import opened Schedules
  import opened Progress
  import opened Driver

  // ----- how far the driver has got -----

  // The last instruction is SetElapsed, where a failing measurement goes.
  predicate Framed(p: seq<Instr>) { p != [] && p[|p| - 1].SetElapsed? }

  predicate Runs(i: Instr) { i.RunLevel? && i.n >= 1 }

  predicate Failing(i: Instr, cancelled: bool) { (i.RunLevel? && i.n < 1) || (i.CheckCtx? && cancelled) }

  // Instructions before this one have been carried out, or are being so; no other ever will if the run failed.
  function Frontier(p: seq<Instr>, main: MainPc, failedAt: Option<nat>): nat {
    if failedAt.Some? then failedAt.value
    else
      match main
      case Next(ip, _) => ip
      case Level(ip) => ip + 1
      case Draining(ip) => ip + 1
      case MainReturned(_) => |p|
  }

  ghost predicate OnTrack(p: seq<Instr>, main: MainPc, failedAt: Option<nat>, cancelled: bool) {
    match failedAt
    case Some(f) =>
      f < |p| && Failing(p[f], cancelled)
      && (main == Next(|p| - 1, true) || main == Next(|p|, true) || main == MainReturned(true))
    case None =>
      match main
      case Next(ip, err) => !err && ip <= |p|
      case Level(ip) => ip < |p| && Runs(p[ip])
      case Draining(ip) => ip < |p| && Runs(p[ip])
      case MainReturned(err) => !err
  }

  // One past the last reset among the first k instructions.
  function Cut(p: seq<Instr>, k: nat): nat
    requires k <= |p|
  {
    if k == 0 then 0 else if p[k - 1].ResetRecorder? then k else Cut(p, k - 1)
  }

  // Every task was built by a level before the frontier; the first `base` of them by levels before the cut.
  ghost predicate Origins(p: seq<Instr>, tasks: seq<Task>, base: nat, frontier: nat)
    requires frontier <= |p|
  {
    forall t | 0 <= t < |tasks| ::
      && tasks[t].level < frontier && Runs(p[tasks[t].level])
      && (t < base <==> tasks[t].level < Cut(p, frontier))
  }

  ghost predicate Traced(c: Config, s: State) {
    && OnTrack(c.program, s.main, s.failedAt, s.cancelled)
    && Frontier(c.program, s.main, s.failedAt) <= |c.program|
    && Origins(c.program, s.tasks, s.base, Frontier(c.program, s.main, s.failedAt))
  }

  // ----- kept by every step -----

  lemma {:induction false} CutBelow(p: seq<Instr>, k: nat)
    requires k <= |p|
    ensures Cut(p, k) <= k
  {
    if k > 0 {
      CutBelow(p, k - 1);
    }
  }

  lemma SameOrigins(p: seq<Instr>, tasks: seq<Task>, tasks': seq<Task>, base: nat, frontier: nat)
    requires frontier <= |p| && Origins(p, tasks, base, frontier)
    requires |tasks'| == |tasks| && forall t | 0 <= t < |tasks| :: tasks'[t].level == tasks[t].level
    ensures Origins(p, tasks', base, frontier)
  {
  }

  lemma ChangeKeepsOrigins(p: seq<Instr>, tasks: seq<Task>, base: nat, ip: nat, i: nat, change: TaskChange)
    requires ip < |p| && Runs(p[ip]) && base <= |tasks| && Origins(p, tasks, base, ip + 1)
    ensures Origins(p, TasksAfter(tasks, i, ip, change), base, ip + 1)
  {
    CutBelow(p, ip);
  }

  lemma ClientKeepsTraced(c: Config, s: State, i: nat, viaCtx: bool)
    requires Traced(c, s) && PhaseOk(s) && s.base <= |s.tasks| && ClientEnabled(c, s, i, viaCtx)
    ensures Traced(c, ClientApply(s, i, viaCtx))
  {
    assert s.main.Level?;
    ChangeKeepsOrigins(c.program, s.tasks, s.base, s.main.ip, i, EffectOf(s, i, viaCtx).change);
  }

  lemma EventKeepsLevels(tasks: seq<Task>, pc: WorkerPc, e: TaskEvent)
    ensures var tasks' := Happened(tasks, pc, e);
            |tasks'| == |tasks| && forall t | 0 <= t < |tasks| :: tasks'[t].level == tasks[t].level
  {
  }

  lemma WorkerKeepsTraced(c: Config, s: State, j: nat, w: WorkChoice)
    requires Traced(c, s) && WorkerEnabled(s, j)
    ensures Traced(c, WorkerApply(c, s, j, w))
  {
    var s' := WorkerApply(c, s, j, w);
    EventKeepsLevels(s.tasks, s.workers[j], WorkOf(c, s, j, w).event);
    SameOrigins(c.program, s.tasks, s'.tasks, s.base, Frontier(c.program, s.main, s.failedAt));
  }

  lemma RendezvousKeepsTraced(c: Config, s: State, i: nat, j: nat)
    requires Traced(c, s) && RendezvousEnabled(s, i, j)
    ensures Traced(c, RendezvousApply(s, i, j))
  {
    SameOrigins(c.program, s.tasks, RendezvousApply(s, i, j).tasks, s.base,
                Frontier(c.program, s.main, s.failedAt));
  }

  lemma MainStaysOnTrack(p: seq<Instr>, s: State)
    requires Framed(p) && OnTrack(p, s.main, s.failedAt, s.cancelled) && MainEnabled(s)
    ensures var e := MainStepEffect(p, s.main, s.cancelled);
            var failed := if e.change.Fails? then Some(e.change.ip) else s.failedAt;
            && OnTrack(p, e.main, failed, s.cancelled)
            && Frontier(p, e.main, failed) <= |p|
            && (e.change.Resets? ==>
                  failed.None? && s.main.Next? && e.main == Next(s.main.ip + 1, false)
                  && s.main.ip < |p| && p[s.main.ip].ResetRecorder?)
            && (!e.change.Resets? ==> SameCut(p, Frontier(p, s.main, s.failedAt), Frontier(p, e.main, failed)))
  {
  }

  // The frontier stays, or passes one instruction that is not a reset.
  predicate SameCut(p: seq<Instr>, from: nat, to: nat) {
    to == from || (to == from + 1 && from < |p| && !p[from].ResetRecorder?)
  }

  lemma LaterFrontier(p: seq<Instr>, tasks: seq<Task>, base: nat, from: nat, to: nat)
    requires from <= |p| && to <= |p| && SameCut(p, from, to) && Origins(p, tasks, base, from)
    ensures Origins(p, tasks, base, to)
  {
  }

  lemma ResetOrigins(p: seq<Instr>, tasks: seq<Task>, base: nat, ip: nat)
    requires ip < |p| && p[ip].ResetRecorder? && Origins(p, tasks, base, ip)
    ensures Origins(p, tasks, |tasks|, ip + 1)
  {
  }

  lemma MainKeepsTraced(c: Config, s: State, elapsed: real)
    requires Framed(c.program) && Traced(c, s) && MainEnabled(s)
    ensures Traced(c, MainApply(c, s, elapsed))
  {
    var p := c.program;
    var e := MainStepEffect(p, s.main, s.cancelled);
    MainStaysOnTrack(p, s);
    MainFields(c, s, e, elapsed);
    if e.change.Resets? {
      ResetOrigins(p, s.tasks, s.base, s.main.ip);
    } else {
      var failed := if e.change.Fails? then Some(e.change.ip) else s.failedAt;
      LaterFrontier(p, s.tasks, s.base, Frontier(p, s.main, s.failedAt), Frontier(p, e.main, failed));
    }
  }

  lemma MainFields(c: Config, s: State, e: MainEffect, elapsed: real)
    ensures var s' := MainTo(c, s, e, elapsed);
            && s'.main == e.main && s'.cancelled == s.cancelled && s'.tasks == s.tasks
            && s'.failedAt == (if e.change.Fails? then Some(e.change.ip) else s.failedAt)
            && s'.base == if e.change.Resets? then |s.tasks| else s.base
  {
    match e.change
    case OnlyMoves =>
    case Starts(_) =>
    case Resets =>
    case Measures =>
    case Fails(_) =>
  }

  lemma StepKeepsTraced(c: Config, s: State, a: Action)
    requires Framed(c.program) && Inv(c, s) && Traced(c, s) && Enabled(c, s, a)
    ensures Traced(c, Apply(c, s, a))
  {
    match a
    case ClientStep(i, viaCtx) => ClientKeepsTraced(c, s, i, viaCtx);
    case Rendezvous(i, j) => RendezvousKeepsTraced(c, s, i, j);
    case WorkerStep(j, w) => WorkerKeepsTraced(c, s, j, w);
    case MainStep(elapsed) => MainKeepsTraced(c, s, elapsed);
    case _ =>
  }

  lemma {:induction false} RunKeepsTraced(c: Config, s: State, acts: seq<Action>)
    requires Orderly(c) && Framed(c.program) && Inv(c, s) && Traced(c, s) && Legal(c, s, acts)
    ensures Traced(c, Exec(c, s, acts))
    decreases |acts|
  {
    if acts != [] {
      StepKeepsInv(c, s, acts[0]);
      StepKeepsTraced(c, s, acts[0]);
      RunKeepsTraced(c, Apply(c, s, acts[0]), acts[1..]);
    }
  }

  lemma ReachableTraced(c: Config, s: State)
    requires Orderly(c) && Framed(c.program) && Reachable(c, s)
    ensures Traced(c, s)
  {
    InitInv(c);
    var acts :| Legal(c, Init(c), acts) && Exec(c, Init(c), acts) == s;
    RunKeepsTraced(c, Init(c), acts);
  }

  // ----- warmup tasks and their records -----

  /** Task t was built by a warmup level. */
  predicate WarmTask(c: Config, s: State, t: nat) {
    t < |s.tasks| && s.tasks[t].level < |c.program|
    && c.program[s.tasks[t].level].RunLevel? && c.program[s.tasks[t].level].warm
  }

  /** Some warmup task was accepted. */
  ghost predicate WarmAccepted(c: Config, s: State) {
    exists t: nat :: WarmTask(c, s, t) && s.tasks[t].ev.accepted == 1
  }

  /** The measurement window holds something that task t recorded. */
  predicate HasRecord(s: State, t: nat) {
    s.tags.delta[t] > 0 || s.tags.latency[t] > 0 || s.tags.complete[t] > 0 || s.tags.failed[t] > 0
  }

  /** The run ended at a context check of the warmup, which saw the cancellation. */
  predicate WarmupCut(c: Config, s: State) {
    s.failedAt.Some? && s.failedAt.value < |c.program| && c.program[s.failedAt.value] == CheckCtx(true)
  }

  ghost predicate ModeRun(c: Config, mode: Mode, concurrency: int, warmup: bool) {
    !mode.UnknownMode? && c.program == Program(mode, concurrency, warmup).value
  }

  function Boundary(mode: Mode, concurrency: int, warmup: bool): int {
    if warmup then |Body(mode, concurrency, true)| + 1 else -1
  }

  lemma {:induction false} CutAtBoundary(p: seq<Instr>, k: nat, b: int)
    requires k <= |p| && forall i | 0 <= i < |p| :: p[i].ResetRecorder? <==> i == b
    ensures Cut(p, k) == if 0 <= b < k then b + 1 else 0
  {
    if k > 0 {
      CutAtBoundary(p, k - 1, b);
    }
  }

  // A run that did not fail at a warmup check got past the reset, if it has one, or built no task.
  lemma PastReset(c: Config, s: State, mode: Mode, concurrency: int, warmup: bool)
    requires ModeRun(c, mode, concurrency, warmup) && Framed(c.program) && Traced(c, s)
    requires s.main.MainReturned? && !WarmupCut(c, s)
    ensures s.tasks == [] || Frontier(c.program, s.main, s.failedAt) > Boundary(mode, concurrency, warmup)
  {
    ResetSeparates(mode, concurrency, warmup);
    LevelsOfMode(mode, concurrency, warmup);
    if s.tasks != [] {
      assert Runs(c.program[s.tasks[0].level]);
    }
  }

  lemma WarmIffOld(c: Config, s: State, mode: Mode, concurrency: int, warmup: bool, t: nat)
    requires ModeRun(c, mode, concurrency, warmup) && Framed(c.program) && Traced(c, s)
    requires s.main.MainReturned? && !WarmupCut(c, s) && t < |s.tasks|
    ensures WarmTask(c, s, t) <==> t < s.base
  {
    PastReset(c, s, mode, concurrency, warmup);
    ResetSeparates(mode, concurrency, warmup);
    CutAtBoundary(c.program, Frontier(c.program, s.main, s.failedAt), Boundary(mode, concurrency, warmup));
    assert Runs(c.program[s.tasks[t].level]);
  }

  lemma CutKeepsAll(c: Config, s: State, mode: Mode, concurrency: int, warmup: bool, t: nat)
    requires ModeRun(c, mode, concurrency, warmup) && Traced(c, s)
    requires s.main.MainReturned? && WarmupCut(c, s) && t < |s.tasks|
    ensures WarmTask(c, s, t) && t >= s.base
  {
    ResetSeparates(mode, concurrency, warmup);
    CutAtBoundary(c.program, Frontier(c.program, s.main, s.failedAt), Boundary(mode, concurrency, warmup));
    assert Runs(c.program[s.tasks[t].level]);
  }

  lemma ModeTraced(c: Config, s: State, mode: Mode, concurrency: int, warmup: bool)
    requires Orderly(c) && Reachable(c, s) && ModeRun(c, mode, concurrency, warmup)
    ensures Framed(c.program) && Traced(c, s)
  {
    LevelsOfMode(mode, concurrency, warmup);
    ReachableTraced(c, s);
  }

  /** In every mode, when the driver has returned: the window holds a record of a warmup task if and only if a context
      check of the warmup saw a cancellation and a warmup task had been accepted. */
  lemma WarmRecordsIff(c: Config, s: State, mode: Mode, concurrency: int, warmup: bool)
    requires Orderly(c) && Reachable(c, s) && ModeRun(c, mode, concurrency, warmup) && s.main.MainReturned?
    ensures (exists t: nat :: WarmTask(c, s, t) && HasRecord(s, t)) <==> WarmupCut(c, s) && WarmAccepted(c, s)
  {
    ModeTraced(c, s, mode, concurrency, warmup);
    if t: nat :| WarmTask(c, s, t) && HasRecord(s, t) {
      WarmupIsolation(c, s, t);
      if !WarmupCut(c, s) {
        WarmIffOld(c, s, mode, concurrency, warmup, t);
      }
      RecordedAccepted(c, s, t);
    }
    if WarmupCut(c, s) && WarmAccepted(c, s) {
      var t: nat :| WarmTask(c, s, t) && s.tasks[t].ev.accepted == 1;
      CutKeepsAll(c, s, mode, concurrency, warmup, t);
      WarmupIsolation(c, s, t);
      assert HasRecord(s, t);
    }
  }

  // Only accepted tasks have records.
  lemma RecordedAccepted(c: Config, s: State, t: nat)
    requires Orderly(c) && Reachable(c, s) && s.main.MainReturned? && t < |s.tasks| && HasRecord(s, t)
    ensures s.tasks[t].ev.accepted == 1
  {
    ExactlyOnce(c, s, t);
    ReachableInv(c, s);
    assert TagsMatch(s.tags, s.tasks, s.base, t);
  }

  /** In every mode: a run that returned no error holds records of measured tasks only, and of every accepted one of
      them its delta, its outcome, and its latency if it completed; the latter is so whatever the run returned. */
  lemma MeasuredOnly(c: Config, s: State, mode: Mode, concurrency: int, warmup: bool, t: nat)
    requires Orderly(c) && Reachable(c, s) && ModeRun(c, mode, concurrency, warmup) && s.main.MainReturned?
    ensures !s.main.err && HasRecord(s, t) ==> t < |s.tasks| && !WarmTask(c, s, t) && s.tasks[t].ev.accepted == 1
    ensures t < |s.tasks| && !WarmTask(c, s, t) && s.tasks[t].ev.accepted == 1 ==>
              s.tags.delta[t] == 1 && s.tags.complete[t] + s.tags.failed[t] == 1
              && s.tags.latency[t] == s.tags.complete[t]
  {
    ModeTraced(c, s, mode, concurrency, warmup);
    WarmupIsolation(c, s, t);
    if t < |s.tasks| {
      if WarmupCut(c, s) {
        CutKeepsAll(c, s, mode, concurrency, warmup, t);
      } else {
        WarmIffOld(c, s, mode, concurrency, warmup, t);
      }
      if HasRecord(s, t) {
        RecordedAccepted(c, s, t);
      }
    }
  }

  // ----- a run that keeps its warmup data -----

  // The first task of the run is accepted.
  lemma FirstTaskAccepted(c: Config) returns (s: State)
    requires BeginsLevel(c)
    ensures Reachable(c, s) && !s.panicked && s.main == Level(0) && !s.cancelled && !s.deadline && s.failedAt.None?
    ensures |s.tasks| == 1 && s.tasks[0].level == 0 && s.tasks[0].ev.accepted == 1
    ensures |s.clients| >= 1 && s.clients[0].pc == SubmitCreated(0) && !s.jobsClosed && s.workers == Init(c).workers
    ensures s.pools == c.pools
  {
    var before := ClientPassesCheck(c);
    StepReachable(c, before, ClientStep(0, false));
    s := Apply(c, before, ClientStep(0, false));
  }

  // Two steps of the driver after a level: the warmup's check sees the cancellation, and the run returns.
  lemma CheckEndsRun(c: Config, s: State) returns (s': State)
    requires Reachable(c, s) && s.main == Next(1, false) && s.cancelled && !s.panicked
    requires |c.program| >= 2 && c.program[1] == CheckCtx(true)
    ensures Reachable(c, s') && s'.main == MainReturned(true) && s'.tasks == s.tasks && WarmupCut(c, s')
  {
    StepReachable(c, s, MainStep(0.0));
    var failed := Apply(c, s, MainStep(0.0));
    StepReachable(c, failed, MainStep(0.0));
    s' := Apply(c, failed, MainStep(0.0));
  }

  /** The input that breaks the promise, in every mode, for any number of clients and workers: cancel while the first
      warmup level runs and one of its tasks is accepted. The run comes to an end, never having reset the recorder,
      with that task's record in the window. */
  lemma CancelledWarmupStays(c: Config, mode: Mode, concurrency: int) returns (s: State, t: nat)
    requires Orderly(c) && ModeRun(c, mode, concurrency, true) && StartsClient(mode, concurrency)
    ensures Reachable(c, s) && s.main == MainReturned(true)
    ensures WarmTask(c, s, t) && HasRecord(s, t)
  {
    LevelsOfMode(mode, concurrency, true);
    s := FirstTaskAccepted(c);
    StepReachable(c, s, Cancel);
    s := Apply(c, s, Cancel);
    s := LevelReturns(c, s, 0);
    ReachableInv(c, s);
    s := CheckEndsRun(c, s);
    t := 0;
    LifeInOrder(c, s, t);
    ModeTraced(c, s, mode, concurrency, true);
    CutKeepsAll(c, s, mode, concurrency, true, t);
    WarmupIsolation(c, s, t);
  }

  // ----- warmup entries in the set-up data -----

  /** The warmup tasks, and the others, that have done something once. */
  ghost function WarmOnes(c: Config, s: State, f: Task -> int): set<nat> {
    set t | t in Marked(s.tasks, f) && WarmTask(c, s, t)
  }

  ghost function MeasuredOnes(c: Config, s: State, f: Task -> int): set<nat> {
    set t | t in Marked(s.tasks, f) && !WarmTask(c, s, t)
  }

  lemma OnesSplit(c: Config, s: State, f: Task -> int)
    ensures |Marked(s.tasks, f)| == |WarmOnes(c, s, f)| + |MeasuredOnes(c, s, f)|
    ensures |WarmOnes(c, s, f)| == 0 <==> forall t | 0 <= t < |s.tasks| && WarmTask(c, s, t) :: f(s.tasks[t]) != 1
  {
    var warm, rest := WarmOnes(c, s, f), MeasuredOnes(c, s, f);
    assert Marked(s.tasks, f) == warm + rest && warm !! rest;
    if |warm| == 0 {
      forall t | 0 <= t < |s.tasks| && WarmTask(c, s, t) ensures f(s.tasks[t]) != 1 {
        assert t !in warm;
      }
    } else {
      var t :| t in warm;
    }
  }

  /** Some warmup task launched a browser, announced one, told of a page. */
  ghost predicate WarmLaunch(c: Config, s: State) {
    exists t | 0 <= t < |s.tasks| && WarmTask(c, s, t) :: LaunchesOf(s.tasks[t]) == 1
  }

  ghost predicate WarmAnnounce(c: Config, s: State) {
    exists t | 0 <= t < |s.tasks| && WarmTask(c, s, t) :: AnnouncesOf(s.tasks[t]) == 1
  }

  ghost predicate WarmPage(c: Config, s: State) {
    exists t | 0 <= t < |s.tasks| && WarmTask(c, s, t) :: PagesOf(s.tasks[t]) == 1
  }

  /** When the promise about set-up data holds, in any reachable state: the launch series, the count of browsers and the
      count of pages are those of set-up and of measured tasks alone if and only if no warmup task launched a browser,
      announced one, or told of a page. */
  lemma WarmSetupIff(c: Config, s: State)
    requires Orderly(c) && Reachable(c, s)
    ensures |s.rec.setup.browserLaunches| == |c.setup.browserLaunches| + |MeasuredOnes(c, s, LaunchesOf)|
            <==> !WarmLaunch(c, s)
    ensures s.rec.setup.browsersCreated == c.setup.browsersCreated + |MeasuredOnes(c, s, AnnouncesOf)|
            <==> !WarmAnnounce(c, s)
    ensures s.rec.setup.pagesCreated == c.setup.pagesCreated + |MeasuredOnes(c, s, PagesOf)|
            <==> !WarmPage(c, s)
  {
    SetupSeries(c, s);
    OnesSplit(c, s, LaunchesOf);
    OnesSplit(c, s, AnnouncesOf);
    OnesSplit(c, s, PagesOf);
  }

  /** By kind of worker: warmup tasks launch and announce browsers only where each task has its own, and tell of pages
      only there and in persistent contexts. */
  lemma WarmSetupByKind(c: Config, s: State)
    requires Orderly(c) && Reachable(c, s)
    ensures WarmAnnounce(c, s) ==> WarmLaunch(c, s)
    ensures WarmLaunch(c, s) ==> c.launches
    ensures WarmPage(c, s) ==> TellsPages(c.kind)
  {
    forall t | 0 <= t < |s.tasks|
      ensures AnnouncesOf(s.tasks[t]) <= LaunchesOf(s.tasks[t]) <= One(c.launches)
      ensures PagesOf(s.tasks[t]) <= One(TellsPages(c.kind))
    {
      OpenedOnce(c, s, t);
    }
  }

  // ----- a run whose warmup entries survive the reset -----

  // Worker 0 has task 0, and the level is still on time.
  predicate Serving(s: State, pc: WorkerPc) {
    && s.main == Level(0) && !s.panicked && !s.cancelled && !s.deadline && s.failedAt.None?
    && |s.workers| >= 1 && s.workers[0] == pc && |s.tasks| == 1 && s.tasks[0].level == 0
  }

  lemma FirstTaskSent(c: Config) returns (s: State)
    requires BeginsLevel(c)
    ensures Reachable(c, s) && Serving(s, Begin(0)) && s.pools == c.pools
  {
    s := FirstTaskAccepted(c);
    StepReachable(c, s, ClientStep(0, false));
    s := Apply(c, s, ClientStep(0, false));
    StepReachable(c, s, ClientStep(0, false));
    s := Apply(c, s, ClientStep(0, false));
    StepReachable(c, s, Rendezvous(0, 0));
    s := Apply(c, s, Rendezvous(0, 0));
  }

  // One step of worker 0 in which every foreign call succeeds.
  const FINE := WorkChoice(true, [], 0.0, NO_READINGS, Some(0))

  lemma Serve(c: Config, s: State, pc: WorkerPc) returns (s': State)
    requires Reachable(c, s) && Serving(s, pc) && TaskOf(pc) == Some(0) && !pc.PendingDone?
    requires pc.Opening? && UsesPool(c.kind) ==> !PoolAt(s, 0).closed
    ensures Reachable(c, s') && Serving(s', WorkerEffect(c, pc, FINE).pc)
    ensures s'.tasks[0].ev.completes == s.tasks[0].ev.completes + One(pc.Outcome? && pc.ok)
    ensures !pc.Opening? ==> s'.pools == s.pools
  {
    StepReachable(c, s, WorkerStep(0, FINE));
    s' := Apply(c, s, WorkerStep(0, FINE));
    ServeFields(c, s, pc);
  }

  lemma ServeFields(c: Config, s: State, pc: WorkerPc)
    requires Serving(s, pc) && TaskOf(pc) == Some(0)
    ensures var s', e := WorkerApply(c, s, 0, FINE), WorkOf(c, s, 0, FINE);
            && s'.main == s.main && s'.cancelled == s.cancelled && s'.deadline == s.deadline
            && s'.failedAt == s.failedAt && s'.workers == s.workers[0 := e.pc]
            && s'.tasks == Happened(s.tasks, pc, e.event)
            && (!e.event.Released? ==> s'.panicked == s.panicked) && (!pc.Opening? ==> s'.pools == s.pools)
  {
  }

  // Through whatever the kind has to open.
  lemma FirstTaskRuns(c: Config) returns (s: State)
    requires BeginsLevel(c) && TellsPages(c.kind) && !c.pools[0].closed
    ensures Reachable(c, s) && Serving(s, Running(0))
  {
    s := FirstTaskSent(c);
    s := Serve(c, s, Begin(0));
    if c.kind.BrowserKind? {
      s := Serve(c, s, Launch(0));
      s := Serve(c, s, Announce(0));
    }
    s := Serve(c, s, Opening(0));
  }

  lemma FirstTaskRan(c: Config) returns (s: State)
    requires BeginsLevel(c) && TellsPages(c.kind) && !c.pools[0].closed
    ensures Reachable(c, s) && Serving(s, Delta(0, true))
  {
    s := FirstTaskRuns(c);
    s := Serve(c, s, Running(0));
    s := Serve(c, s, Escalating(0, 0));
  }

  lemma FirstTaskCompletes(c: Config) returns (s: State)
    requires BeginsLevel(c) && TellsPages(c.kind) && !c.pools[0].closed
    ensures Reachable(c, s) && Serving(s, Mark(0)) && s.tasks[0].ev.completes >= 1
  {
    s := FirstTaskRan(c);
    s := Serve(c, s, Delta(0, true));
    s := Serve(c, s, Outcome(0, true));
  }

  // The driver goes on through the check, and resets the recorder.
  lemma CheckThenReset(c: Config, s: State) returns (s': State)
    requires Reachable(c, s) && s.main == Next(1, false) && !s.cancelled && !s.panicked
    requires |c.program| >= 3 && c.program[1].CheckCtx? && c.program[2].ResetRecorder?
    ensures Reachable(c, s') && s'.tasks == s.tasks && s'.base == |s.tasks|
  {
    StepReachable(c, s, MainStep(0.0));
    s' := Apply(c, s, MainStep(0.0));
    StepReachable(c, s', MainStep(0.0));
    s' := Apply(c, s', MainStep(0.0));
  }

  // The deadline passes, and the level comes to its end.
  lemma DeadlinePasses(c: Config, s: State) returns (s': State)
    requires Orderly(c) && Reachable(c, s) && Serving(s, Mark(0))
    ensures Reachable(c, s') && s'.main == Next(1, false) && !s'.cancelled && !s'.panicked
    ensures HistoryKept(s.tasks, s'.tasks)
  {
    StepReachable(c, s, PassDeadline);
    s' := LevelReturns(c, s.(deadline := true), 0);
    NoPanic(c, s');
  }

  /** Where each task launches its own browser, and in persistent contexts: a warmup task completes and the recorder is
      reset, and the page it told of, with the browser it launched and announced if it did, is still counted. */
  lemma WarmupSetupKept(c: Config, mode: Mode, concurrency: int) returns (s: State, t: nat)
    requires Orderly(c) && ModeRun(c, mode, concurrency, true) && concurrency >= 1
    requires TellsPages(c.kind) && !c.pools[0].closed
    requires mode.Fixed? || mode.Steady? || mode.Spike?
    ensures Reachable(c, s) && WarmTask(c, s, t) && t < s.base && s.tasks[t].ev.completes == 1
    ensures PagesOf(s.tasks[t]) == 1 && WarmPage(c, s)
    ensures c.launches ==> LaunchesOf(s.tasks[t]) == AnnouncesOf(s.tasks[t]) == 1
    ensures c.launches ==> WarmLaunch(c, s) && WarmAnnounce(c, s)
  {
    s := FirstTaskCompletes(c);
    s := DeadlinePasses(c, s);
    s := CheckThenReset(c, s);
    t := 0;
    LifeInOrder(c, s, t);
    CompletedOpened(c, s, t);
  }

  lemma CompletedOpened(c: Config, s: State, t: nat)
    requires Orderly(c) && Reachable(c, s) && t < |s.tasks| && s.tasks[t].ev.completes == 1
    ensures FullyOpened(c.kind, s.tasks[t].ev)
  {
    ReachableInv(c, s);
    assert PlaceOk(c.kind, s.clients, s.workers, t, s.tasks[t]);
  }
}
