/** The invariant of the whole scheduler, kept by every step of every goroutine. */
module Invariant {
  import opened Counting
  import opened Metrics
  import opened Protocol
  import opened Ledger
  import opened Custody
  import opened Workflow
  import opened Contexts

  // ----- phases of the main goroutine and of Close -----

  ghost predicate AllReturned(clients: seq<Client>) {
    forall i | 0 <= i < |clients| :: clients[i].pc == ClientReturned
  }

  ghost predicate AllExited(workers: seq<WorkerPc>) {
    forall j | 0 <= j < |workers| :: workers[j] == WorkerExited
  }

  ghost predicate PhaseOk(s: State) {
    && !s.panicked
    && (s.main.Draining? ==> AllReturned(s.clients))
    && (s.main.Next? || s.main.MainReturned? ==> Quiet(s))
    && (forall j | 0 <= j < |s.workers| :: s.workers[j] == WorkerExited ==> s.jobsClosed)
  }

  ghost predicate ClosedSoFar(closes: seq<nat>, k: nat) {
    forall m | 0 <= m < |closes| :: closes[m] == if m < k then 1 else 0
  }

  ghost predicate ShutdownOk(c: Config, s: State) {
    && |s.workerCloses| == c.workers
    && (s.closed || s.jobsClosed || !s.closer.CallsLeft? ==> s.main.MainReturned?)
    && match s.closer
       case CallsLeft(n) =>
         if s.closed then s.jobsClosed && AllExited(s.workers) && ClosedSoFar(s.workerCloses, c.workers)
         else n == c.closeCalls && !s.jobsClosed && ClosedSoFar(s.workerCloses, 0)
       case ClosingJobs(_) => s.closed && !s.jobsClosed && ClosedSoFar(s.workerCloses, 0)
       case Joining(_) => s.closed && s.jobsClosed && ClosedSoFar(s.workerCloses, 0)
       case ClosingWorkers(k, _) =>
         s.closed && s.jobsClosed && AllExited(s.workers) && k <= c.workers && ClosedSoFar(s.workerCloses, k)
  }

  // ----- what a client does after cancellation -----

  predicate ClientTimely(cancelled: bool, k: Client) {
    && k.lateSubmits <= One(cancelled)
    && k.cancelsRecorded <= One(cancelled)
    && (k.pc.FirstDeadline? || k.pc.Acquire? || k.pc.SecondDeadline? || k.pc.SubmitLoad? || k.pc.SubmitAdd?
        ==> k.lateSubmits == 0)
    && (k.cancelsRecorded == 1 ==> k.pc.ReleaseExit? || k.pc.ClientReturned?)
    && (k.pc.Cancelling? ==> cancelled)
  }

  ghost predicate Timely(s: State) {
    forall i | 0 <= i < |s.clients| :: ClientTimely(s.cancelled, s.clients[i])
  }

  // ----- which task recorded what since the last Reset -----

  ghost predicate TagsCount(s: State) {
    && |s.tags.latency| == |s.rec.window.series.workflowLatencies|
    && |s.tags.delta| == |s.rec.window.series.taskRSSDeltas|
    && |s.tags.complete| == s.rec.window.counters.complete
    && |s.tags.failed| == s.rec.window.counters.failed
  }

  predicate TagsMatch(tags: Tags, tasks: seq<Task>, base: nat, t: nat) {
    && tags.launch[t] == (if t < |tasks| then tasks[t].ev.launches else 0)
    && tags.latency[t] == (if base <= t < |tasks| then tasks[t].ev.latencies else 0)
    && tags.delta[t] == (if base <= t < |tasks| then tasks[t].ev.deltas else 0)
    && tags.complete[t] == (if base <= t < |tasks| then tasks[t].ev.completes else 0)
    && tags.failed[t] == (if base <= t < |tasks| then tasks[t].ev.failures else 0)
  }

  ghost predicate WindowOk(s: State) {
    && s.base <= |s.tasks|
    && (forall t | 0 <= t < s.base :: s.tasks[t].place.Gone? || s.tasks[t].place.Rejected?)
    && (forall t: nat :: TagsMatch(s.tags, s.tasks, s.base, t))
  }

  // How often a task has launched a browser, announced it, and opened a page.
  function LaunchesOf(k: Task): int { k.ev.launches }
  function AnnouncesOf(k: Task): int { k.ev.announces }
  function PagesOf(k: Task): int { k.ev.pages }

  // Set-up data is never cleared; what tasks add to it is counted by the tasks.
  ghost predicate SetupOk(c: Config, s: State) {
    && |s.rec.setup.browserLaunches| == |c.setup.browserLaunches| + |s.tags.launch|
    && (!c.launches ==> s.tags.launch == multiset{} && s.rec.setup.browserLaunches == c.setup.browserLaunches)
    && SetupCounts(c.setup, s.rec.setup, s.tasks)
  }

  ghost predicate SetupCounts(before: Setup, now: Setup, tasks: seq<Task>) {
    && |now.browserLaunches| == |before.browserLaunches| + Sum(tasks, LaunchesOf)
    && now.browsersCreated == before.browsersCreated + Sum(tasks, AnnouncesOf)
    && now.pagesCreated == before.pagesCreated + Sum(tasks, PagesOf)
    && now.cdpConnects == before.cdpConnects
  }

  // Pools from which no run takes the last context.
  predicate Spared(pools: seq<Pool>) {
    forall j | 0 <= j < |pools| ::
      !pools[j].closed && pools[j].available != [] && forall x | x in pools[j].available :: x !in pools[j].inUse
  }

  // No task asks for a context to be made.
  predicate NoCreation(c: Config) { !UsesPool(c.kind) || Spared(c.pools) }

  ghost predicate ContextsOk(c: Config, s: State) {
    && |s.pools| == c.workers
    && (NoCreation(c) ==>
          && s.pools == c.pools
          && s.rec.setup.contextCreations == c.setup.contextCreations
          && s.rec.setup.contextsCreated == c.setup.contextsCreated)
  }

  // The recorder when the driver starts.
  function Before(c: Config): Tally { EMPTY_TALLY.(setup := c.setup) }

  /** The recorder is what its log says: set-up data from the whole of it, the window from the last Reset on. */
  ghost predicate LogSays(start: Tally, rec: Tally, log: seq<Call>, mark: nat) {
    && mark <= |log|
    && rec.setup == Replay(start, log).setup
    && rec.window == Replay(start, log[mark..]).window
  }

  ghost predicate LogOk(c: Config, s: State) { LogSays(Before(c), s.rec, s.log, s.mark) }

  // The WaitGroup counter, told from the tasks' side.
  function Outstanding(k: Task): int { k.ev.accepted - k.ev.releases }

  ghost predicate PendingByTask(s: State) { s.pending == Sum(s.tasks, Outstanding) }

  ghost predicate Inv(c: Config, s: State) {
    && LedgerOk(c, s)
    && CustodyOk(c, s)
    && SetupOk(c, s)
    && ContextsOk(c, s)
    && LogOk(c, s)
    && PendingByTask(s)
    && PhaseOk(s)
    && ShutdownOk(c, s)
    && Timely(s)
    && TagsCount(s)
    && WindowOk(s)
  }

  // A configuration in which Close is called only once the driver has returned.
  predicate Orderly(c: Config) { ValidConfig(c) && !c.earlyClose }

  // ----- consequences used while stepping -----

  lemma BusyMeansPending(s: State, j: nat)
    requires PendingLedger(s) && j < |s.workers| && Occupied(s.workers[j]) == 1
    ensures s.pending >= 1
  {
    SumCovers(s.workers, j, Occupied);
    SumNonNegative(s.clients, Offering);
  }

  lemma DrainedMeansIdle(s: State)
    requires PendingLedger(s) && s.pending == 0
    ensures forall j | 0 <= j < |s.workers| :: s.workers[j] == Receive || s.workers[j] == WorkerExited
  {
    forall j | 0 <= j < |s.workers|
      ensures s.workers[j] == Receive || s.workers[j] == WorkerExited
    {
      if Occupied(s.workers[j]) == 1 {
        BusyMeansPending(s, j);
      }
    }
  }

  // ----- client steps -----

  lemma ClientKeepsPhase(c: Config, s: State, i: nat, viaCtx: bool)
    requires PhaseOk(s) && ShutdownOk(c, s) && ClientEnabled(c, s, i, viaCtx)
    ensures PhaseOk(ClientApply(s, i, viaCtx)) && ShutdownOk(c, ClientApply(s, i, viaCtx))
  {
  }

  lemma ClientKeepsTimely(c: Config, s: State, i: nat, viaCtx: bool)
    requires Timely(s) && ClientEnabled(c, s, i, viaCtx)
    ensures Timely(ClientApply(s, i, viaCtx))
  {
  }

  lemma ClientKeepsWindow(c: Config, s: State, i: nat, viaCtx: bool)
    requires CustodyOk(c, s) && TagsCount(s) && WindowOk(s) && ClientEnabled(c, s, i, viaCtx)
    ensures TagsCount(ClientApply(s, i, viaCtx)) && WindowOk(ClientApply(s, i, viaCtx))
  {
    var s' := ClientApply(s, i, viaCtx);
    forall t: nat ensures TagsMatch(s'.tags, s'.tasks, s'.base, t) {
      assert TagsMatch(s.tags, s.tasks, s.base, t);
    }
  }

  lemma ChangeCounts(tasks: seq<Task>, i: nat, level: nat, change: TaskChange)
    requires change.Accepted? || change.Refused? ==> change.task < |tasks|
    ensures Sum(TasksAfter(tasks, i, level, change), Outstanding) == Sum(tasks, Outstanding) + One(change.Accepted?)
  {
    match change
    case Unchanged =>
    case Built => SumSnoc(tasks, Task(i, false, level, Carried(i), NO_EVENTS), Outstanding);
    case Accepted(t) => SumUpdate(tasks, t, TasksAfter(tasks, i, level, change)[t], Outstanding);
    case Refused(t) => SumUpdate(tasks, t, TasksAfter(tasks, i, level, change)[t], Outstanding);
  }

  lemma ClientKeepsPendingByTask(c: Config, s: State, i: nat, viaCtx: bool)
    requires PendingByTask(s) && ClientEnabled(c, s, i, viaCtx)
    ensures PendingByTask(ClientApply(s, i, viaCtx))
  {
    ChangeCounts(s.tasks, i, LevelOf(s.main), EffectOf(s, i, viaCtx).change);
  }

  lemma RendezvousKeepsPendingByTask(s: State, i: nat, j: nat)
    requires PendingByTask(s) && RendezvousEnabled(s, i, j)
    ensures PendingByTask(RendezvousApply(s, i, j))
  {
    var t := s.clients[i].pc.task;
    SumUpdate(s.tasks, t, RendezvousApply(s, i, j).tasks[t], Outstanding);
  }

  lemma EventCounts(tasks: seq<Task>, pc: WorkerPc, e: TaskEvent)
    requires TaskOf(pc).Some? && pc.task < |tasks|
    ensures Sum(Happened(tasks, pc, e), Outstanding) == Sum(tasks, Outstanding) - One(e.Released?)
  {
    var tasks' := Happened(tasks, pc, e);
    if tasks' != tasks {
      assert tasks' == tasks[pc.task := tasks'[pc.task]];
      SumUpdate(tasks, pc.task, tasks'[pc.task], Outstanding);
    }
  }

  lemma WorkerKeepsPendingByTask(c: Config, s: State, j: nat, w: WorkChoice)
    requires PendingByTask(s) && WorkerEnabled(s, j)
    ensures PendingByTask(WorkerApply(c, s, j, w))
  {
    if TaskOf(s.workers[j]).Some? {
      EventCounts(s.tasks, s.workers[j], WorkOf(c, s, j, w).event);
    }
  }

  // ----- set-up data -----

  // What one call adds to the set-up data.
  lemma CallAdds(s: Setup, call: Call)
    ensures var s' := SetUp(s, call);
            && |s'.browserLaunches| == |s.browserLaunches| + One(call.RecordBrowserLaunch?)
            && (call.RecordCDPConnect? || s'.cdpConnects == s.cdpConnects)
            && (call.RecordLifecycle? || (s'.browsersCreated == s.browsersCreated && s'.pagesCreated == s.pagesCreated
                                          && s'.contextsCreated == s.contextsCreated))
            && (call.RecordContextCreation? || s'.contextCreations == s.contextCreations)
  {
  }

  // The same of the call of one worker step, told by its event.
  lemma WorkAdds(c: Config, pc: WorkerPc, w: WorkChoice, s: Setup)
    ensures var e := WorkerEffect(c, pc, w);
            var s' := SetUp(s, e.call);
            && |s'.browserLaunches| == |s.browserLaunches| + One(e.event.Launched?)
            && s'.browsersCreated == s.browsersCreated + One(e.event.Announced?)
            && s'.pagesCreated == s.pagesCreated + One(e.event.PageOpened?)
            && s'.cdpConnects == s.cdpConnects
            && s'.contextsCreated == s.contextsCreated && s'.contextCreations == s.contextCreations
  {
    CallAdds(s, WorkerEffect(c, pc, w).call);
  }

  lemma {:induction false} ResultsLeaveSetup(t: Tally, kind: Kind, calls: seq<Call>)
    requires AllResults(kind, calls)
    ensures Replay(t, calls).setup == t.setup
    decreases |calls|
  {
    if calls != [] {
      assert ResultNote(kind, calls[0]);
      assert forall c | c in calls[1..] :: c in calls;
      ResultsLeaveSetup(t.After(calls[0]), kind, calls[1..]);
    }
  }

  lemma AcquireLeavesSetup(t: Tally, pool: Pool, made: Option<Context>, seconds: real)
    ensures var s' := Replay(t, AcquireCalls(pool, made, seconds)).setup;
            && s'.browserLaunches == t.setup.browserLaunches && s'.browsersCreated == t.setup.browsersCreated
            && s'.pagesCreated == t.setup.pagesCreated && s'.cdpConnects == t.setup.cdpConnects
    ensures pool.available != [] ==> AcquireCalls(pool, made, seconds) == []
  {
    var start := Call.RecordLifecycle(ContextCreateStarted);
    ReplayOne(t, start);
    ReplayTwo(t, start, Call.RecordContextCreation(seconds));
  }

  // Notes add contexts only, and none where every pool has one to spare.
  lemma NotesAdd(t: Tally, kind: Kind, pool: Pool, pc: WorkerPc, w: WorkChoice)
    ensures var s' := Noted(t, Notes(kind, pool, pc, w)).setup;
            && s'.browserLaunches == t.setup.browserLaunches && s'.browsersCreated == t.setup.browsersCreated
            && s'.pagesCreated == t.setup.pagesCreated && s'.cdpConnects == t.setup.cdpConnects
            && (!UsesPool(kind) || pool.available != [] ==> s' == t.setup)
  {
    AcquireLeavesSetup(t, pool, w.made, w.seconds);
    if pc.Running? && AllResults(kind, w.notes) {
      ResultsLeaveSetup(t, kind, w.notes);
    }
  }

  lemma ChangeAdds(tasks: seq<Task>, i: nat, level: nat, change: TaskChange)
    ensures var tasks' := TasksAfter(tasks, i, level, change);
            && Sum(tasks', LaunchesOf) == Sum(tasks, LaunchesOf)
            && Sum(tasks', AnnouncesOf) == Sum(tasks, AnnouncesOf) && Sum(tasks', PagesOf) == Sum(tasks, PagesOf)
  {
    match change
    case Unchanged =>
    case Built =>
      var k := Task(i, false, level, Carried(i), NO_EVENTS);
      SumSnoc(tasks, k, LaunchesOf);
      SumSnoc(tasks, k, AnnouncesOf);
      SumSnoc(tasks, k, PagesOf);
    case Accepted(t) => OneTaskAdds(tasks, t, TasksAfter(tasks, i, level, change));
    case Refused(t) => OneTaskAdds(tasks, t, TasksAfter(tasks, i, level, change));
  }

  lemma OneTaskAdds(tasks: seq<Task>, t: nat, tasks': seq<Task>)
    requires tasks' == tasks || (t < |tasks| == |tasks'| && tasks' == tasks[t := tasks'[t]])
    ensures tasks' != tasks ==>
              && Sum(tasks', LaunchesOf) == Sum(tasks, LaunchesOf) - tasks[t].ev.launches + tasks'[t].ev.launches
              && Sum(tasks', AnnouncesOf) == Sum(tasks, AnnouncesOf) - tasks[t].ev.announces + tasks'[t].ev.announces
              && Sum(tasks', PagesOf) == Sum(tasks, PagesOf) - tasks[t].ev.pages + tasks'[t].ev.pages
  {
    if tasks' != tasks {
      SumUpdate(tasks, t, tasks'[t], LaunchesOf);
      SumUpdate(tasks, t, tasks'[t], AnnouncesOf);
      SumUpdate(tasks, t, tasks'[t], PagesOf);
    }
  }

  lemma EventAdds(tasks: seq<Task>, pc: WorkerPc, e: TaskEvent)
    requires TaskOf(pc).Some? && pc.task < |tasks|
    ensures var tasks' := Happened(tasks, pc, e);
            && Sum(tasks', LaunchesOf) == Sum(tasks, LaunchesOf) + One(e.Launched?)
            && Sum(tasks', AnnouncesOf) == Sum(tasks, AnnouncesOf) + One(e.Announced?)
            && Sum(tasks', PagesOf) == Sum(tasks, PagesOf) + One(e.PageOpened?)
  {
    var tasks' := Happened(tasks, pc, e);
    OneTaskAdds(tasks, pc.task, tasks');
  }

  lemma ClientKeepsSetup(c: Config, s: State, i: nat, viaCtx: bool)
    requires SetupOk(c, s) && ContextsOk(c, s) && ClientEnabled(c, s, i, viaCtx)
    ensures SetupOk(c, ClientApply(s, i, viaCtx)) && ContextsOk(c, ClientApply(s, i, viaCtx))
  {
    ChangeAdds(s.tasks, i, LevelOf(s.main), EffectOf(s, i, viaCtx).change);
  }

  lemma RendezvousKeepsSetup(c: Config, s: State, i: nat, j: nat)
    requires SetupOk(c, s) && ContextsOk(c, s) && RendezvousEnabled(s, i, j)
    ensures SetupOk(c, RendezvousApply(s, i, j)) && ContextsOk(c, RendezvousApply(s, i, j))
  {
    OneTaskAdds(s.tasks, s.clients[i].pc.task, RendezvousApply(s, i, j).tasks);
  }

  // The set-up data after a worker step.
  lemma WorkerSetup(c: Config, s: State, j: nat, w: WorkChoice)
    requires j < |s.workers|
    ensures var e := WorkOf(c, s, j, w);
            var now := WorkerApply(c, s, j, w).rec.setup;
            && |now.browserLaunches| == |s.rec.setup.browserLaunches| + One(e.event.Launched?)
            && now.browsersCreated == s.rec.setup.browsersCreated + One(e.event.Announced?)
            && now.pagesCreated == s.rec.setup.pagesCreated + One(e.event.PageOpened?)
            && now.cdpConnects == s.rec.setup.cdpConnects
            && (!UsesPool(c.kind) || PoolAt(s, j).available != [] ==>
                  now.contextsCreated == s.rec.setup.contextsCreated
                  && now.contextCreations == s.rec.setup.contextCreations)
  {
    var noted := Noted(s.rec, Notes(c.kind, PoolAt(s, j), s.workers[j], w));
    NotesAdd(s.rec, c.kind, PoolAt(s, j), s.workers[j], w);
    WorkAdds(c, s.workers[j], Resolved(c.kind, PoolAt(s, j), s.workers[j], w), noted.setup);
  }

  lemma WorkerKeepsCounts(c: Config, s: State, j: nat, w: WorkChoice)
    requires SetupCounts(c.setup, s.rec.setup, s.tasks) && WorkerEnabled(s, j)
    ensures SetupCounts(c.setup, WorkerApply(c, s, j, w).rec.setup, WorkerApply(c, s, j, w).tasks)
  {
    WorkerSetup(c, s, j, w);
    if TaskOf(s.workers[j]).Some? {
      EventAdds(s.tasks, s.workers[j], WorkOf(c, s, j, w).event);
    }
  }

  lemma WorkerKeepsContexts(c: Config, s: State, j: nat, w: WorkChoice)
    requires ContextsOk(c, s) && WorkerEnabled(s, j) && |s.workers| == c.workers == |c.pools|
    ensures ContextsOk(c, WorkerApply(c, s, j, w))
  {
    WorkerSetup(c, s, j, w);
    if NoCreation(c) && UsesPool(c.kind) {
      SpareGivenBack(s.pools[j], w.made);
    }
  }

  // A launch enters the series and the tags together.
  lemma WorkerKeepsLaunches(c: Config, s: State, j: nat, w: WorkChoice)
    requires WorkersOk(c.kind, s.workers, s.tasks) && WorkerEnabled(s, j)
    ensures var s', e := WorkerApply(c, s, j, w), WorkOf(c, s, j, w);
            && |s'.tags.launch| == |s.tags.launch| + One(e.event.Launched?)
            && (e.event.Launched? ==> c.launches)
            && (!e.event.Launched? ==>
                  s'.tags.launch == s.tags.launch && s'.rec.setup.browserLaunches == s.rec.setup.browserLaunches)
  {
    NotesAdd(s.rec, c.kind, PoolAt(s, j), s.workers[j], w);
  }

  lemma WorkerKeepsSetup(c: Config, s: State, j: nat, w: WorkChoice)
    requires SetupOk(c, s) && CustodyOk(c, s) && WorkerEnabled(s, j)
    ensures SetupOk(c, WorkerApply(c, s, j, w))
  {
    WorkerSetup(c, s, j, w);
    WorkerKeepsCounts(c, s, j, w);
    WorkerKeepsLaunches(c, s, j, w);
  }

  lemma LogGrows(start: Tally, rec: Tally, log: seq<Call>, mark: nat, more: seq<Call>)
    requires LogSays(start, rec, log, mark)
    ensures LogSays(start, Replay(rec, more), log + more, mark)
  {
    ReplayConcat(start, log, more);
    ReplayParts(rec, Replay(start, log), more);
    assert (log + more)[mark..] == log[mark..] + more;
    ReplayConcat(start, log[mark..], more);
    ReplayParts(rec, Replay(start, log[mark..]), more);
  }

  lemma ClientKeepsLog(c: Config, s: State, i: nat, viaCtx: bool)
    requires LogOk(c, s) && ClientEnabled(c, s, i, viaCtx)
    ensures LogOk(c, ClientApply(s, i, viaCtx))
  {
    var call := EffectOf(s, i, viaCtx).call;
    LogGrows(Before(c), s.rec, s.log, s.mark, [call]);
    ReplayOne(s.rec, call);
  }

  lemma WorkerKeepsLog(c: Config, s: State, j: nat, w: WorkChoice)
    requires LogOk(c, s) && WorkerEnabled(s, j)
    ensures LogOk(c, WorkerApply(c, s, j, w))
  {
    var notes, call := Notes(c.kind, PoolAt(s, j), s.workers[j], w), WorkOf(c, s, j, w).call;
    LogGrows(Before(c), s.rec, s.log, s.mark, notes);
    LogGrows(Before(c), Replay(s.rec, notes), s.log + notes, s.mark, [call]);
    ReplayOne(Replay(s.rec, notes), call);
  }

  lemma MainKeepsLog(c: Config, s: State, elapsed: real)
    requires LogOk(c, s)
    ensures LogOk(c, MainApply(c, s, elapsed))
  {
    match MainStepEffect(c.program, s.main, s.cancelled).change
    case OnlyMoves =>
    case Starts(_) =>
    case Resets => assert s.log[|s.log|..] == [];
    case Measures =>
    case Fails(_) =>
  }

  lemma RendezvousKeepsPhase(c: Config, s: State, i: nat, j: nat)
    requires PhaseOk(s) && ShutdownOk(c, s) && Timely(s) && RendezvousEnabled(s, i, j)
    ensures var s' := RendezvousApply(s, i, j); PhaseOk(s') && ShutdownOk(c, s') && Timely(s')
  {
  }

  lemma RendezvousKeepsWindow(c: Config, s: State, i: nat, j: nat)
    requires CustodyOk(c, s) && TagsCount(s) && WindowOk(s) && RendezvousEnabled(s, i, j)
    ensures var s' := RendezvousApply(s, i, j); TagsCount(s') && WindowOk(s')
  {
    var s' := RendezvousApply(s, i, j);
    forall t: nat ensures TagsMatch(s'.tags, s'.tasks, s'.base, t) {
      assert TagsMatch(s.tags, s.tasks, s.base, t);
    }
  }

  // ----- worker steps -----

  lemma WorkerKeepsPhase(c: Config, s: State, j: nat, w: WorkChoice)
    requires PendingLedger(s) && PhaseOk(s) && ShutdownOk(c, s) && WorkerEnabled(s, j)
    ensures PhaseOk(WorkerApply(c, s, j, w)) && ShutdownOk(c, WorkerApply(c, s, j, w))
  {
    if Occupied(s.workers[j]) == 1 {
      BusyMeansPending(s, j);
    }
  }

  // A step's call and its event tell the same.
  lemma WorkTagsSeries(c: Config, pc: WorkerPc, w: WorkChoice, tags: Tags)
    ensures var e := WorkerEffect(c, pc, w);
            var tags' := TagsAfter(tags, pc, e.event);
            && |tags'.latency| == |tags.latency| + One(e.call.RecordWorkflow?)
            && |tags'.delta| == |tags.delta| + One(e.call.RecordTaskRSSDelta?)
  {
    var e := WorkerEffect(c, pc, w);
    assert e.call.RecordWorkflow? <==> e.event.LatencyRecorded?;
    assert e.call.RecordTaskRSSDelta? <==> e.event.DeltaRecorded?;
  }

  lemma WorkTagsOutcome(c: Config, pc: WorkerPc, w: WorkChoice, tags: Tags, k: Counters)
    ensures var e := WorkerEffect(c, pc, w);
            var tags', k' := TagsAfter(tags, pc, e.event), Count(k, e.call);
            && |tags'.complete| - |tags.complete| == k'.complete - k.complete
            && |tags'.failed| - |tags.failed| == k'.failed - k.failed
  {
    var e := WorkerEffect(c, pc, w);
    if pc.Outcome? {
      assert e.call == if pc.ok then Call.TaskComplete else Call.TaskFailed;
    } else {
      assert !e.event.Completed? && !e.event.FailedRun? && !e.call.TaskComplete? && !e.call.TaskFailed?;
    }
  }

  lemma WorkerKeepsTagCounts(c: Config, s: State, j: nat, w: WorkChoice)
    requires TagsCount(s) && WorkerEnabled(s, j)
    ensures TagsCount(WorkerApply(c, s, j, w))
  {
    StepWorked(c, s, j, w);
    var r := Resolved(c.kind, PoolAt(s, j), s.workers[j], w);
    WorkTagsSeries(c, s.workers[j], r, s.tags);
    WorkTagsOutcome(c, s.workers[j], r, s.tags, s.rec.window.counters);
  }

  lemma EventKeepsTags(tags: Tags, tasks: seq<Task>, base: nat, pc: WorkerPc, e: TaskEvent, t: nat)
    requires TaskOf(pc).Some? && base <= pc.task < |tasks|
    requires TagsMatch(tags, tasks, base, t)
    ensures TagsMatch(TagsAfter(tags, pc, e), Happened(tasks, pc, e), base, t)
  {
  }

  lemma WorkerKeepsWindow(c: Config, s: State, j: nat, w: WorkChoice)
    requires CustodyOk(c, s) && WindowOk(s) && WorkerEnabled(s, j)
    ensures WindowOk(WorkerApply(c, s, j, w))
  {
    var e := WorkOf(c, s, j, w);
    var s' := WorkerApply(c, s, j, w);
    forall t: nat ensures TagsMatch(s'.tags, s'.tasks, s'.base, t) {
      assert TagsMatch(s.tags, s.tasks, s.base, t);
      if TaskOf(s.workers[j]).Some? {
        EventKeepsTags(s.tags, s.tasks, s.base, s.workers[j], e.event, t);
      }
    }
  }

  // ----- main and Close -----

  lemma MainLeavesPool(c: Config, s: State, e: MainEffect, elapsed: real)
    ensures var s' := MainTo(c, s, e, elapsed);
            && s'.workers == s.workers && s'.closer == s.closer && s'.closed == s.closed
            && s'.jobsClosed == s.jobsClosed && s'.workerCloses == s.workerCloses
  {
    match e.change
    case OnlyMoves =>
    case Starts(_) =>
    case Resets =>
    case Measures =>
    case Fails(_) =>
  }

  lemma MainClients(c: Config, s: State, e: MainEffect, elapsed: real)
    ensures var s' := MainTo(c, s, e, elapsed);
            && s'.main == e.main && s'.panicked == s.panicked
            && (!e.change.Starts? && !e.change.Resets? ==> s'.clients == s.clients)
            && (e.change.Resets? ==> s'.clients == [])
  {
    match e.change
    case OnlyMoves =>
    case Starts(_) =>
    case Resets =>
    case Measures =>
    case Fails(_) =>
  }

  lemma MainKeepsPhase(c: Config, s: State, elapsed: real)
    requires PendingLedger(s) && PhaseOk(s) && ShutdownOk(c, s) && MainEnabled(s)
    ensures PhaseOk(MainApply(c, s, elapsed)) && ShutdownOk(c, MainApply(c, s, elapsed))
  {
    MainLeavesPool(c, s, MainStepEffect(c.program, s.main, s.cancelled), elapsed);
    MainClients(c, s, MainStepEffect(c.program, s.main, s.cancelled), elapsed);
    match s.main
    case Next(_, _) =>
    case Level(_) =>
    case Draining(_) => DrainedMeansIdle(s);
  }

  lemma StartKeepsCustody(c: Config, s: State, main: MainPc, n: nat)
    requires CustodyOk(c, s) && Quiet(s)
    ensures CustodyOk(c, StartLevel(c, s, main, n))
  {
  }

  lemma StartKeepsWindow(c: Config, s: State, main: MainPc, n: nat)
    requires TagsCount(s) && WindowOk(s)
    ensures var s' := StartLevel(c, s, main, n); Timely(s') && TagsCount(s') && WindowOk(s')
  {
  }

  lemma ResetKeepsCustody(c: Config, s: State, main: MainPc)
    requires CustodyOk(c, s) && Quiet(s)
    ensures CustodyOk(c, ResetAt(s, main)) && Timely(ResetAt(s, main))
  {
  }

  lemma ResetKeepsWindow(c: Config, s: State, main: MainPc)
    requires CustodyOk(c, s) && Quiet(s) && TagsCount(s) && WindowOk(s)
    ensures TagsCount(ResetAt(s, main)) && WindowOk(ResetAt(s, main))
  {
    var s' := ResetAt(s, main);
    forall t | 0 <= t < |s.tasks| ensures s.tasks[t].place.Gone? || s.tasks[t].place.Rejected? {
      assert PlaceOk(c.kind, s.clients, s.workers, t, s.tasks[t]);
    }
    forall t: nat ensures TagsMatch(s'.tags, s'.tasks, s'.base, t) {
      assert TagsMatch(s.tags, s.tasks, s.base, t);
    }
  }

  lemma MoveLeavesRest(c: Config, s: State, e: MainEffect, elapsed: real)
    requires !e.change.Starts? && !e.change.Resets?
    ensures var s' := MainTo(c, s, e, elapsed);
            && s'.clients == s.clients && s'.workers == s.workers && s'.tasks == s.tasks && s'.base == s.base
            && s'.tags == s.tags && s'.rec.window == s.rec.window && s'.cancelled == s.cancelled
  {
    match e.change
    case OnlyMoves =>
    case Measures =>
    case Fails(_) =>
  }

  lemma SameRest(c: Config, s: State, s': State)
    requires CustodyOk(c, s) && Timely(s) && TagsCount(s) && WindowOk(s)
    requires s'.clients == s.clients && s'.workers == s.workers && s'.tasks == s.tasks && s'.base == s.base
    requires s'.tags == s.tags && s'.rec.window == s.rec.window && s'.cancelled == s.cancelled
    ensures CustodyOk(c, s') && Timely(s') && TagsCount(s') && WindowOk(s')
  {
  }

  lemma MainKeepsRest(c: Config, s: State, elapsed: real)
    requires Inv(c, s) && MainEnabled(s)
    ensures CustodyOk(c, MainApply(c, s, elapsed)) && Timely(MainApply(c, s, elapsed))
    ensures TagsCount(MainApply(c, s, elapsed)) && WindowOk(MainApply(c, s, elapsed))
  {
    var e := MainStepEffect(c.program, s.main, s.cancelled);
    match e.change {
      case Starts(n) =>
        StartKeepsCustody(c, s, e.main, n);
        StartKeepsWindow(c, s, e.main, n);
      case Resets =>
        ResetKeepsWindow(c, s, e.main);
        ResetKeepsCustody(c, s, e.main);
      case _ =>
        MoveLeavesRest(c, s, e, elapsed);
        SameRest(c, s, MainApply(c, s, elapsed));
    }
  }

  lemma MainKeepsSetup(c: Config, s: State, elapsed: real)
    requires SetupOk(c, s) && ContextsOk(c, s) && PendingByTask(s)
    ensures SetupOk(c, MainApply(c, s, elapsed)) && PendingByTask(MainApply(c, s, elapsed))
    ensures ContextsOk(c, MainApply(c, s, elapsed))
  {
    MainLeaves(c, s, MainStepEffect(c.program, s.main, s.cancelled), elapsed);
  }

  lemma MainLeaves(c: Config, s: State, e: MainEffect, elapsed: real)
    ensures var s' := MainTo(c, s, e, elapsed);
            s'.tasks == s.tasks && s'.pending == s.pending && s'.rec.setup == s.rec.setup
            && s'.tags.launch == s.tags.launch && s'.pools == s.pools
  {
    match e.change
    case OnlyMoves =>
    case Starts(_) =>
    case Resets =>
    case Measures =>
    case Fails(_) =>
  }

  lemma MainKeepsInv(c: Config, s: State, elapsed: real)
    requires Inv(c, s) && MainEnabled(s)
    ensures Inv(c, MainApply(c, s, elapsed))
  {
    MainKeepsLedger(c, s, elapsed);
    MainKeepsPhase(c, s, elapsed);
    MainKeepsRest(c, s, elapsed);
    MainKeepsSetup(c, s, elapsed);
    MainKeepsLog(c, s, elapsed);
  }

  lemma CloserKeepsShutdown(c: Config, s: State)
    requires ShutdownOk(c, s) && PhaseOk(s) && |s.workers| == c.workers && CloserEnabled(c, s) && Orderly(c)
    ensures ShutdownOk(c, CloserApply(s)) && PhaseOk(CloserApply(s))
  {
  }

  lemma CloserKeepsInv(c: Config, s: State)
    requires Inv(c, s) && CloserEnabled(c, s) && Orderly(c)
    ensures Inv(c, CloserApply(s))
  {
    CloserKeepsShutdown(c, s);
  }

  // ----- the invariant over every schedule -----

  lemma ClientKeepsInv(c: Config, s: State, i: nat, viaCtx: bool)
    requires Inv(c, s) && ClientEnabled(c, s, i, viaCtx)
    ensures Inv(c, ClientApply(s, i, viaCtx))
  {
    ClientKeepsLedger(c, s, i, viaCtx);
    ClientKeepsCustody(c, s, i, viaCtx);
    ClientKeepsPhase(c, s, i, viaCtx);
    ClientKeepsTimely(c, s, i, viaCtx);
    ClientKeepsWindow(c, s, i, viaCtx);
    ClientKeepsPendingByTask(c, s, i, viaCtx);
    ClientKeepsLog(c, s, i, viaCtx);
    ClientKeepsSetup(c, s, i, viaCtx);
  }

  lemma RendezvousKeepsInv(c: Config, s: State, i: nat, j: nat)
    requires Inv(c, s) && RendezvousEnabled(s, i, j)
    ensures Inv(c, RendezvousApply(s, i, j))
  {
    RendezvousKeepsLedger(c, s, i, j);
    RendezvousKeepsCustody(c, s, i, j);
    RendezvousKeepsPhase(c, s, i, j);
    RendezvousKeepsWindow(c, s, i, j);
    RendezvousKeepsPendingByTask(s, i, j);
    RendezvousKeepsSetup(c, s, i, j);
  }

  lemma WorkerKeepsInv(c: Config, s: State, j: nat, w: WorkChoice)
    requires ValidConfig(c) && Inv(c, s) && WorkerEnabled(s, j)
    ensures Inv(c, WorkerApply(c, s, j, w))
  {
    WorkerKeepsLedger(c, s, j, w);
    WorkerKeepsCustody(c, s, j, w);
    WorkerKeepsPhase(c, s, j, w);
    WorkerKeepsTagCounts(c, s, j, w);
    WorkerKeepsWindow(c, s, j, w);
    WorkerKeepsPendingByTask(c, s, j, w);
    WorkerKeepsSetup(c, s, j, w);
    WorkerKeepsContexts(c, s, j, w);
    WorkerKeepsLog(c, s, j, w);
  }

  lemma CancelKeepsInv(c: Config, s: State)
    requires Inv(c, s)
    ensures Inv(c, s.(cancelled := true))
  {
    SameLedger(c, s, s.(cancelled := true));
  }

  lemma DeadlineKeepsInv(c: Config, s: State)
    requires Inv(c, s) && !s.deadline
    ensures Inv(c, s.(deadline := true))
  {
    PassDeadlineKeepsLedger(c, s);
  }

  lemma StepKeepsInv(c: Config, s: State, a: Action)
    requires Orderly(c) && Inv(c, s) && Enabled(c, s, a)
    ensures Inv(c, Apply(c, s, a))
  {
    match a
    case Cancel => CancelKeepsInv(c, s);
    case PassDeadline => DeadlineKeepsInv(c, s);
    case MainStep(elapsed) => MainKeepsInv(c, s, elapsed);
    case CloserStep => CloserKeepsInv(c, s);
    case ClientStep(i, viaCtx) => ClientKeepsInv(c, s, i, viaCtx);
    case Rendezvous(i, j) => RendezvousKeepsInv(c, s, i, j);
    case WorkerStep(j, w) => WorkerKeepsInv(c, s, j, w);
  }

  lemma InitInv(c: Config)
    requires Orderly(c)
    ensures Inv(c, Init(c))
  {
    InitLedger(c);
  }

  lemma {:induction false} ScheduleKeepsInv(c: Config, s: State, acts: seq<Action>)
    requires Orderly(c) && Inv(c, s) && Legal(c, s, acts)
    ensures Inv(c, Exec(c, s, acts))
    decreases |acts|
  {
    if acts != [] {
      StepKeepsInv(c, s, acts[0]);
      ScheduleKeepsInv(c, Apply(c, s, acts[0]), acts[1..]);
    }
  }

  lemma ReachableInv(c: Config, s: State)
    requires Orderly(c) && Reachable(c, s)
    ensures Inv(c, s)
  {
    InitInv(c);
    var acts :| Legal(c, Init(c), acts) && Exec(c, Init(c), acts) == s;
    ScheduleKeepsInv(c, Init(c), acts);
  }
}
