/** What holds in every reachable state of the scheduler, whatever the schedule. */
module Safety {
  import opened Counting
  import opened Metrics
  import opened TaskMemory
  import opened Workflow
  import opened Protocol
  import opened Ledger
  import opened Custody
  import opened Invariant

  // ----- tokens -----

  /** Tokens are conserved, a release never blocks, and a finished level has them all back. */
  lemma TokensConserved(c: Config, s: State)
    requires Orderly(c) && Reachable(c, s)
    ensures s.tokens >= 0 && s.tokens + |Marked(s.clients, Holds)| == c.workers
    ensures forall i | 0 <= i < |s.clients| && (s.clients[i].pc.ReleaseLoop? || s.clients[i].pc.ReleaseExit?) ::
              ClientEnabled(c, s, i, false)
    ensures AllReturned(s.clients) ==> s.tokens == c.workers
  {
    ReachableInv(c, s);
    SumCountsMarked(s.clients, Holds);
    forall i | 0 <= i < |s.clients| && (s.clients[i].pc.ReleaseLoop? || s.clients[i].pc.ReleaseExit?)
      ensures ClientEnabled(c, s, i, false)
    {
      ReleaseEnabled(c, s, i);
    }
    if AllReturned(s.clients) {
      AllTokensBack(c, s);
    }
  }

  lemma AllTokensBack(c: Config, s: State)
    requires TokenLedger(c, s) && AllReturned(s.clients)
    ensures s.tokens == c.workers
  {
    SumConstant(s.clients, Holds, 0);
  }

  // Whoever holds a token finds room to give it back.
  lemma ReleaseEnabled(c: Config, s: State, i: nat)
    requires TokenLedger(c, s) && i < |s.clients| && (s.clients[i].pc.ReleaseLoop? || s.clients[i].pc.ReleaseExit?)
    ensures ClientEnabled(c, s, i, false)
  {
    SumCovers(s.clients, i, Holds);
  }

  /** Never more tasks active than workers, and never fewer than none, cancelled or not. */
  lemma ActiveBound(c: Config, s: State)
    requires Orderly(c) && Reachable(c, s)
    ensures 0 <= s.rec.window.counters.active <= c.workers
  {
    ReachableInv(c, s);
    SumNonNegative(s.workers, Active);
    SumBetween(s.workers, Active, Always);
    SumConstant(s.workers, Always, 1);
  }

  function Always(w: WorkerPc): int { 1 }

  // ----- exactly once -----

  /** At any moment each stage of a task's life has happened at most once, in order. */
  lemma LifeInOrder(c: Config, s: State, t: nat)
    requires Orderly(c) && Reachable(c, s) && t < |s.tasks|
    ensures InOrder(s.tasks[t].ev)
  {
    ReachableInv(c, s);
    PlaceInOrder(c.kind, s.clients, s.workers, s.tasks, t);
  }

  lemma PlaceInOrder(kind: Kind, clients: seq<Client>, workers: seq<WorkerPc>, tasks: seq<Task>, t: nat)
    requires CarriersOk(clients, tasks) && WorkersOk(kind, workers, tasks)
    requires PlacesOk(kind, clients, workers, tasks) && t < |tasks|
    ensures InOrder(tasks[t].ev)
  {
    assert PlaceOk(kind, clients, workers, t, tasks[t]);
    match tasks[t].place
    case Carried(i) => assert ClientEvents(clients[i].pc, tasks[t].ev);
    case AtWorker(j) => WorkerInOrder(kind, workers[j], tasks[t].ev);
    case Gone =>
    case Rejected =>
  }

  /** Accepted, received, measured, settled, closed, released: each at most once, none before the one ahead of it. */
  predicate InOrder(ev: Events) {
    && ev.releases <= ev.closes <= ev.completes + ev.failures <= ev.deltas <= ev.received <= ev.accepted <= 1
    && ev.latencies <= ev.received && ev.completes <= ev.latencies
  }

  lemma WorkerInOrder(kind: Kind, w: WorkerPc, ev: Events)
    requires WorkerEvents(kind, w, ev)
    ensures InOrder(ev)
  {
  }

  /** Once runFixed has drained, every accepted task, abandoned by its client or not, was received,
      measured, settled, closed and released exactly once. */
  lemma ExactlyOnce(c: Config, s: State, t: nat)
    requires Orderly(c) && Reachable(c, s) && t < |s.tasks|
    requires s.main.Next? || s.main.MainReturned?
    ensures s.pending == 0
    ensures s.tasks[t].ev.accepted == 1 ==>
              s.tasks[t].place == Gone && DoneEvents(c.kind, s.tasks[t].ev)
    ensures s.tasks[t].ev.accepted != 1 ==> s.tasks[t].ev == NO_EVENTS
  {
    ReachableInv(c, s);
    QuietPending(c, s);
    QuietPlace(c, s, t);
  }

  lemma QuietPending(c: Config, s: State)
    requires PendingLedger(s) && Quiet(s)
    ensures s.pending == 0
  {
    QuietSums(c, s);
  }

  lemma QuietPlace(c: Config, s: State, t: nat)
    requires PlacesOk(c.kind, s.clients, s.workers, s.tasks) && Quiet(s) && t < |s.tasks|
    ensures if s.tasks[t].place.Gone? then DoneEvents(c.kind, s.tasks[t].ev) else s.tasks[t].ev == NO_EVENTS
  {
    assert PlaceOk(c.kind, s.clients, s.workers, t, s.tasks[t]);
  }

  /** The WaitGroup counter is the number of accepted tasks not yet past pending.Done. */
  lemma PendingExact(c: Config, s: State)
    requires Orderly(c) && Reachable(c, s)
    ensures s.pending == |set t: nat | t < |s.tasks| && s.tasks[t].ev.accepted == 1 && s.tasks[t].ev.releases == 0|
  {
    ReachableInv(c, s);
    forall t | 0 <= t < |s.tasks|
      ensures Outstanding(s.tasks[t]) == One(s.tasks[t].ev.accepted == 1 && s.tasks[t].ev.releases == 0)
    {
      LifeInOrder(c, s, t);
    }
    SumCountsMarked(s.tasks, Outstanding);
    assert Marked(s.tasks, Outstanding)
        == set t: nat | t < |s.tasks| && s.tasks[t].ev.accepted == 1 && s.tasks[t].ev.releases == 0;
  }

  // ----- bounded flight -----

  /** Accepted tasks whose done channel is still open. */
  function OpenTasks(tasks: seq<Task>): set<nat> {
    set t: nat | t < |tasks| && tasks[t].ev.accepted == 1 && !tasks[t].done
  }

  // The owner of an open task holds a token, and holds it for that task alone.
  ghost predicate OwnersHold(clients: seq<Client>, tasks: seq<Task>) {
    forall t | t in OpenTasks(tasks) ::
      var o := tasks[t].owner;
      o in Marked(clients, Holds) && (clients[o].pc == Await(t) || CarriedTask(clients[o].pc) == Some(t))
  }

  lemma WatchedMeansHeld(c: Config, s: State)
    requires CustodyOk(c, s) && !s.cancelled
    ensures OwnersHold(s.clients, s.tasks)
  {
    forall t | t in OpenTasks(s.tasks)
      ensures var o := s.tasks[t].owner;
              o in Marked(s.clients, Holds)
              && (s.clients[o].pc == Await(t) || CarriedTask(s.clients[o].pc) == Some(t))
    {
      assert PlaceOk(c.kind, s.clients, s.workers, t, s.tasks[t]);
    }
  }

  lemma OpenBound(clients: seq<Client>, tasks: seq<Task>)
    requires OwnersHold(clients, tasks)
    ensures |OpenTasks(tasks)| <= Sum(clients, Holds)
  {
    var owner := map t | t in OpenTasks(tasks) :: tasks[t].owner;
    InjectionBound(OpenTasks(tasks), Marked(clients, Holds), owner);
    SumCountsMarked(clients, Holds);
  }

  /** Before cancellation at most as many tasks are open as there are workers. */
  lemma BoundedFlight(c: Config, s: State)
    requires Orderly(c) && Reachable(c, s) && !s.cancelled
    ensures |OpenTasks(s.tasks)| <= c.workers
  {
    ReachableInv(c, s);
    WatchedMeansHeld(c, s);
    OpenBound(s.clients, s.tasks);
  }

  // When every worker holds its own open task and task t is open elsewhere, the open tasks outnumber the workers.
  lemma BusyWorkersOutnumber(kind: Kind, workers: seq<WorkerPc>, tasks: seq<Task>, t: nat)
    requires DoneOk(tasks) && WorkersOk(kind, workers, tasks)
    requires forall j | 0 <= j < |workers| :: TaskOf(workers[j]).Some? && !workers[j].PendingDone?
    requires t in OpenTasks(tasks) && !tasks[t].place.AtWorker?
    ensures |OpenTasks(tasks)| > |workers|
  {
    var slots := Marked(workers, Always);
    var held := map j | j in slots :: workers[j].task;
    InjectionBound(slots, OpenTasks(tasks) - {t}, held);
    SumCountsMarked(workers, Always);
    SumConstant(workers, Always, 1);
  }

  /** Before cancellation a client blocked on `jobs` always has a worker that is idle or past markFinished. */
  lemma SenderFindsWorker(c: Config, s: State, i: nat)
    requires Orderly(c) && Reachable(c, s) && !s.cancelled
    requires i < |s.clients| && s.clients[i].pc.Send?
    ensures exists j :: 0 <= j < |s.workers| && (s.workers[j] == Receive || s.workers[j].PendingDone?)
  {
    BoundedFlight(c, s);
    ReachableInv(c, s);
    NoneExited(c, s, i);
    IdleOrDone(c, s, i);
  }

  lemma NoneExited(c: Config, s: State, i: nat)
    requires PhaseOk(s) && ShutdownOk(c, s) && i < |s.clients| && s.clients[i].pc.Send?
    ensures forall j | 0 <= j < |s.workers| :: s.workers[j] != WorkerExited
  {
  }

  lemma IdleOrDone(c: Config, s: State, i: nat)
    requires CustodyOk(c, s) && |s.workers| == c.workers && |OpenTasks(s.tasks)| <= c.workers
    requires i < |s.clients| && s.clients[i].pc.Send?
    requires forall j | 0 <= j < |s.workers| :: s.workers[j] != WorkerExited
    ensures exists j :: 0 <= j < |s.workers| && (s.workers[j] == Receive || s.workers[j].PendingDone?)
  {
    if forall j | 0 <= j < |s.workers| :: TaskOf(s.workers[j]).Some? && !s.workers[j].PendingDone? {
      BusyWorkersOutnumber(c.kind, s.workers, s.tasks, s.clients[i].pc.task);
    } else {
      var j :| 0 <= j < |s.workers| && !(TaskOf(s.workers[j]).Some? && !s.workers[j].PendingDone?);
      assert s.workers[j] == Receive || s.workers[j].PendingDone?;
    }
  }

  // ----- task accounting -----

  function Starting(w: WorkerPc): int { One(w.Begin?) }

  lemma {:induction false} UnsettledSplits(ws: seq<WorkerPc>)
    ensures Sum(ws, Unsettled) == Sum(ws, Active) + Sum(ws, Starting)
  {
    if ws != [] {
      UnsettledSplits(ws[1..]);
    }
  }

  /** Created tasks are complete, failed, active, or accepted and not yet marked active. */
  lemma TaskAccounting(c: Config, s: State)
    requires Orderly(c) && Reachable(c, s)
    ensures var n := s.rec.window.counters;
            n.created == n.complete + n.failed + n.active
                         + |Marked(s.clients, CreatedOnly)| + |Marked(s.workers, Starting)|
  {
    ReachableInv(c, s);
    UnsettledSplits(s.workers);
    SumCountsMarked(s.clients, CreatedOnly);
    SumCountsMarked(s.workers, Starting);
  }

  /** The books at the end of a drain. */
  lemma DrainedAccounting(c: Config, s: State)
    requires Orderly(c) && Reachable(c, s)
    requires s.main.Next? || s.main.MainReturned?
    ensures var n := s.rec.window.counters;
            && n.active == 0
            && n.created == n.queued == n.complete + n.failed
            && |s.rec.window.series.taskRSSDeltas| == n.complete + n.failed
            && |s.rec.window.series.workflowLatencies| == n.complete
            && n.escalations == n.complete * match c.kind case HybridKind(p) => BrowserSteps(p, c.workflow) case _ => 0
  {
    ReachableInv(c, s);
    QuietSums(c, s);
  }

  // ----- warmup isolation -----

  /** The recorder is reset only while nothing is pending, active or inside a worker. */
  lemma ResetWhenQuiet(c: Config, s: State)
    requires Orderly(c) && Reachable(c, s)
    requires s.main.Next? && s.main.ip < |c.program| && c.program[s.main.ip].ResetRecorder?
    ensures Quiet(s) && s.pending == 0 && s.rec.window.counters.active == 0
  {
    ReachableInv(c, s);
    QuietSums(c, s);
  }

  /** When the driver has returned, every task accepted since the last reset has exactly one memory delta
      and one outcome in the window, a latency exactly when it completed; no earlier and no rejected task has any. */
  lemma WarmupIsolation(c: Config, s: State, t: nat)
    requires Orderly(c) && Reachable(c, s) && s.main.MainReturned?
    ensures t < s.base ==>
              s.tags.delta[t] == s.tags.latency[t] == s.tags.complete[t] == s.tags.failed[t] == 0
    ensures s.base <= t < |s.tasks| && s.tasks[t].ev.accepted == 1 ==>
              s.tags.delta[t] == 1 && s.tags.complete[t] + s.tags.failed[t] == 1
              && s.tags.latency[t] == s.tags.complete[t]
    ensures t >= |s.tasks| || s.tasks[t].ev.accepted != 1 ==>
              s.tags.delta[t] == s.tags.latency[t] == s.tags.complete[t] == s.tags.failed[t] == 0
    ensures |s.tags.delta| == |s.rec.window.series.taskRSSDeltas|
    ensures |s.tags.latency| == |s.rec.window.series.workflowLatencies|
    ensures |s.tags.complete| == s.rec.window.counters.complete && |s.tags.failed| == s.rec.window.counters.failed
  {
    ReachableInv(c, s);
    assert TagsMatch(s.tags, s.tasks, s.base, t);
    if t < |s.tasks| {
      ExactlyOnce(c, s, t);
    }
  }

  /** Resets cut the window and nothing else: the set-up series and lifecycle counts are those of every call made
      since before the warmup, the window is that of the calls since the last reset. */
  lemma SetupPassesThrough(c: Config, s: State)
    requires Orderly(c) && Reachable(c, s)
    ensures s.mark <= |s.log|
    ensures s.rec.setup == Replay(Before(c), s.log).setup
    ensures s.rec.window == Replay(Before(c), s.log[s.mark..]).window
    ensures !c.launches ==> s.rec.setup.browserLaunches == c.setup.browserLaunches
  {
    ReachableInv(c, s);
  }

  /** A task launches and announces a browser at most once, and only in the kinds that do; the same of its page. */
  lemma OpenedOnce(c: Config, s: State, t: nat)
    requires Orderly(c) && Reachable(c, s) && t < |s.tasks|
    ensures s.tasks[t].ev.announces <= s.tasks[t].ev.launches <= One(c.launches)
    ensures s.tasks[t].ev.pages <= One(TellsPages(c.kind))
  {
    ReachableInv(c, s);
    PlaceOpened(c.kind, s.clients, s.workers, s.tasks, t);
  }

  lemma PlaceOpened(kind: Kind, clients: seq<Client>, workers: seq<WorkerPc>, tasks: seq<Task>, t: nat)
    requires CarriersOk(clients, tasks) && WorkersOk(kind, workers, tasks)
    requires PlacesOk(kind, clients, workers, tasks) && t < |tasks|
    ensures tasks[t].ev.announces <= tasks[t].ev.launches <= One(kind.BrowserKind?)
    ensures tasks[t].ev.pages <= One(TellsPages(kind))
  {
    assert PlaceOk(kind, clients, workers, t, tasks[t]);
    match tasks[t].place
    case Carried(i) => assert ClientEvents(clients[i].pc, tasks[t].ev);
    case AtWorker(j) => WorkerOpened(kind, workers[j], tasks[t].ev);
    case Gone =>
    case Rejected =>
  }

  lemma WorkerOpened(kind: Kind, w: WorkerPc, ev: Events)
    requires TaskOf(w).Some? && WorkerEvents(kind, w, ev)
    ensures ev.announces <= ev.launches <= One(kind.BrowserKind?) && ev.pages <= One(TellsPages(kind))
  {
  }

  /** No reset takes a launch out of the series: every task, completed or not, of the warmup or not, has as many samples
      in it as browsers it launched. */
  lemma LaunchesStay(c: Config, s: State, t: nat)
    requires Orderly(c) && Reachable(c, s) && t < |s.tasks|
    ensures s.tags.launch[t] == s.tasks[t].ev.launches <= One(c.launches)
    ensures s.tasks[t].ev.completes == 1 ==> s.tags.launch[t] == One(c.launches)
  {
    ReachableInv(c, s);
    OpenedOnce(c, s, t);
    assert PlaceOk(c.kind, s.clients, s.workers, t, s.tasks[t]);
    assert TagsMatch(s.tags, s.tasks, s.base, t);
  }

  /** The set-up data is that of set-up, plus one entry for every task that launched a browser, announced one, or
      told of a page. */
  lemma SetupSeries(c: Config, s: State)
    requires Orderly(c) && Reachable(c, s)
    ensures |s.rec.setup.browserLaunches| == |c.setup.browserLaunches| + |Marked(s.tasks, LaunchesOf)|
    ensures s.rec.setup.browsersCreated == c.setup.browsersCreated + |Marked(s.tasks, AnnouncesOf)|
    ensures s.rec.setup.pagesCreated == c.setup.pagesCreated + |Marked(s.tasks, PagesOf)|
    ensures s.rec.setup.cdpConnects == c.setup.cdpConnects
  {
    ReachableInv(c, s);
    forall x | x in s.tasks ensures LaunchesOf(x) <= 1 && AnnouncesOf(x) <= 1 && PagesOf(x) <= 1 {
      var t :| 0 <= t < |s.tasks| && s.tasks[t] == x;
      OpenedOnce(c, s, t);
    }
    SumCountsMarked(s.tasks, LaunchesOf);
    SumCountsMarked(s.tasks, AnnouncesOf);
    SumCountsMarked(s.tasks, PagesOf);
  }

  /** Where every worker's pool has a context to spare, or the kind has no pool, all contexts are those of set-up. */
  lemma ContextsOfSetup(c: Config, s: State)
    requires Orderly(c) && Reachable(c, s) && NoCreation(c)
    ensures s.rec.setup.contextCreations == c.setup.contextCreations
    ensures s.rec.setup.contextsCreated == c.setup.contextsCreated
    ensures s.pools == c.pools
  {
    ReachableInv(c, s);
  }

  /** In the HTTP, CDP and hybrid kinds, the latter two with a context to spare in every pool, no task touches the
      set-up data at all. */
  lemma SetupUntouched(c: Config, s: State)
    requires Orderly(c) && Reachable(c, s) && NoCreation(c) && !TellsPages(c.kind)
    ensures s.rec.setup == c.setup
  {
    ContextsOfSetup(c, s);
    SetupSeries(c, s);
    SetupPassesThrough(c, s);
    forall t: nat | t < |s.tasks| ensures AnnouncesOf(s.tasks[t]) == PagesOf(s.tasks[t]) == 0 {
      OpenedOnce(c, s, t);
    }
    assert Marked(s.tasks, AnnouncesOf) == {} && Marked(s.tasks, PagesOf) == {};
  }

  /** How many launch samples there are: those of set-up plus one per tagged task entry. */
  lemma LaunchSeriesLength(c: Config, s: State)
    requires Orderly(c) && Reachable(c, s)
    ensures |s.rec.setup.browserLaunches| == |c.setup.browserLaunches| + |s.tags.launch|
  {
    ReachableInv(c, s);
  }

  /** A task's memory delta is how far the highest reading taken while it ran lay above the one before it, and 0 if none
      did. */
  lemma DeltaOfTask(c: Config, s: State, j: nat, w: WorkChoice) returns (d: nat)
    requires WorkerEnabled(s, j) && s.workers[j].Delta?
    ensures WorkerApply(c, s, j, w).rec.window.series.taskRSSDeltas == s.rec.window.series.taskRSSDeltas + [d]
    ensures forall q | q in w.memory.polls :: q <= w.memory.before + d
    ensures d > 0 ==> w.memory.before + d in w.memory.polls
  {
    d := Rise(w.memory);
    RiseMeans(w.memory);
  }

  // ----- overshoot -----

  /** After the deadline of a level at most one task per worker is still accepted. */
  lemma DeadlineOvershoot(c: Config, s: State)
    requires Orderly(c) && Reachable(c, s)
    ensures s.late <= c.workers
  {
    ReachableInv(c, s);
    SumNonNegative(s.clients, MayAccept);
  }

  /** After cancellation a client submits at most one more task and records at most one cancellation. */
  lemma CancellationOvershoot(c: Config, s: State, i: nat)
    requires Orderly(c) && Reachable(c, s) && i < |s.clients|
    ensures s.clients[i].lateSubmits <= 1 && s.clients[i].cancelsRecorded <= 1
    ensures !s.cancelled ==> s.clients[i].lateSubmits == 0 && s.clients[i].cancelsRecorded == 0
  {
    ReachableInv(c, s);
  }

  // ----- shutdown -----

  /** No channel is closed twice or sent on after closing, no WaitGroup counter goes negative, and a closed
      jobs channel has no sender. */
  lemma NoPanic(c: Config, s: State)
    requires Orderly(c) && Reachable(c, s)
    ensures !s.panicked
    ensures s.jobsClosed ==> AllReturned(s.clients) && s.main.MainReturned?
    ensures forall i | 0 <= i < |s.clients| && s.clients[i].pc.SubmitLoad? :: !s.closed
  {
    ReachableInv(c, s);
  }

  /** At rest every worker loop has exited and every worker was closed exactly once. */
  lemma ShutdownComplete(c: Config, s: State)
    requires Orderly(c) && Reachable(c, s) && Final(s)
    ensures AllExited(s.workers)
    ensures |s.workerCloses| == c.workers && forall j | 0 <= j < |s.workerCloses| :: s.workerCloses[j] == 1
  {
    ReachableInv(c, s);
  }

  /** Once Close has finished, a further call changes nothing but the count of calls left. */
  lemma CloseAgain(c: Config, s: State)
    requires Orderly(c) && Reachable(c, s) && s.closed && s.closer.CallsLeft? && s.closer.n > 0
    ensures CloserEnabled(c, s) && CloserApply(s) == s.(closer := CallsLeft(s.closer.n - 1))
  {
    ReachableInv(c, s);
  }
}
