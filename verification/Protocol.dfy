/** The closed-loop scheduler as a state machine (internal/scheduler/driver.go and pool.go).
    One program counter per goroutine; every access to shared state is one atomic step,
    and a step is chosen by naming the goroutine that moves. */
module Protocol {
  import opened Counting
  import opened Metrics
  import opened TaskMemory
  import opened Workflow
  import Contexts

  /** One instruction of the main goroutine. `warm` is true inside the warmup phase. */
  datatype Instr =
    | RunLevel(n: int, warm: bool)   // runFixed with n clients
    | CheckCtx(warm: bool)           // if err := ctx.Err(); err != nil { return err }
    | ResetRecorder
    | SetElapsed

  /** The fixed facts of one run. */
  datatype Config = Config(
    workers: nat,         // physical worker slots, equal to len(p.workers)
    kind: Kind,           // the scenario's kind of worker
    workflow: seq<Op>,    // the steps of every task
    pools: seq<Contexts.Pool>,  // each worker's context pool as set up, for kinds that have one
    program: seq<Instr>,
    setup: Setup,         // what was recorded while setting up, before the driver runs
    closeCalls: nat,      // how often Pool.Close is called
    earlyClose: bool)     // Close may start before the driver has returned
  {
    // Each task launches its own browser.
    const launches: bool := kind.BrowserKind?

    // Recorded by one successful run.
    const escalations: nat := Escalations(kind, workflow)
  }

  predicate ValidConfig(c: Config) { c.workers >= 1 && c.closeCalls >= 1 && |c.pools| == c.workers }

  datatype ClientPc =
    | Top                    // select on ctx.Done with default
    | FirstDeadline          // first deadline check
    | Acquire                // select on tokens and ctx.Done
    | SecondDeadline         // deadline check with a token in hand
    | SubmitLoad(task: nat)  // Submit: p.closed.Load()
    | SubmitAdd(task: nat)   // p.pending.Add(1)
    | SubmitCreated(task: nat)
    | SubmitQueued(task: nat)
    | Send(task: nat)        // p.jobs <- t
    | Await(task: nat)       // select on t.Done and ctx.Done
    | ReleaseLoop            // tokens <- struct{}{}, then the next iteration
    | ReleaseExit            // tokens <- struct{}{}, then return
    | Cancelling(token: bool)  // d.rec.TaskCancelled() on the way out
    | ClientReturned

  /** A client goroutine, with a history of what it did after cancellation. */
  datatype Client = Client(pc: ClientPc, lateSubmits: nat, cancelsRecorded: nat)

  datatype WorkerPc =
    | Receive                       // for t := range p.jobs
    | Begin(task: nat)              // p.rec.TaskActive()
    | Launch(task: nat)             // Run: StartBrowser (per-task browsers only)
    | Announce(task: nat)           // Run: the lifecycle event of that browser
    | Opening(task: nat)            // Run: a context from the pool, if there is one, and a page
    | Running(task: nat)            // Run: the workflow
    | Escalating(task: nat, left: nat)  // Run succeeded: escalations, then the workflow latency
    | Delta(task: nat, ok: bool)    // p.rec.RecordTaskRSSDelta
    | Outcome(task: nat, ok: bool)  // p.rec.TaskComplete or p.rec.TaskFailed
    | Mark(task: nat)               // t.markFinished()
    | PendingDone(task: nat)        // p.pending.Done()
    | WorkerExited

  datatype MainPc =
    | Next(ip: nat, err: bool)
    | Level(ip: nat)        // wg.Wait() in runFixed
    | Draining(ip: nat)     // p.pending.Wait()
    | MainReturned(err: bool)

  datatype CloserPc =
    | CallsLeft(n: nat)
    | ClosingJobs(n: nat)             // close(p.jobs)
    | Joining(n: nat)                 // p.wg.Wait()
    | ClosingWorkers(k: nat, n: nat)  // workers[k].Close()

  /** Where a task is. Carried: its client is still inside Submit. */
  datatype Place = Carried(client: nat) | AtWorker(worker: nat) | Gone | Rejected

  /** What has happened to one task so far (history only). */
  datatype Events = Events(
    accepted: nat, received: nat, launches: nat, announces: nat, pages: nat, latencies: nat, deltas: nat,
    completes: nat, failures: nat, closes: nat, releases: nat)

  const NO_EVENTS := Events(0, 0, 0, 0, 0, 0, 0, 0, 0, 0, 0)

  /** A task: its client, whether its done channel is closed, and, as history, the instruction whose level
      built it, its place and its events. */
  datatype Task = Task(owner: nat, done: bool, level: nat, place: Place, ev: Events)

  /** For each recorded series, which task recorded how many entries (history only). */
  datatype Tags = Tags(
    launch: multiset<nat>, latency: multiset<nat>, delta: multiset<nat>,
    complete: multiset<nat>, failed: multiset<nat>)

  const NO_TAGS := Tags(multiset{}, multiset{}, multiset{}, multiset{}, multiset{})

  datatype State = State(
    main: MainPc,
    closer: CloserPc,
    clients: seq<Client>,
    workers: seq<WorkerPc>,
    tokens: int,          // buffered tokens
    pending: int,         // the WaitGroup counter
    cancelled: bool,
    deadline: bool,       // the deadline of the current level has passed
    closed: bool,
    jobsClosed: bool,
    panicked: bool,
    rec: Tally,
    workerCloses: seq<nat>,
    tasks: seq<Task>,     // every task ever built, in order
    base: nat,            // the first task built after the last Reset
    late: nat,            // tasks accepted after the deadline of the current level
    tags: Tags,
    log: seq<Call>,       // every call made on the recorder since the start
    mark: nat,            // how long the log was at the last Reset
    failedAt: Option<nat>,  // the instruction that ended the run with an error
    timed: Option<real>,  // what SetMeasurementElapsed was last given
    gone: seq<Client>,    // the clients of the levels before this one, since the last Reset
    pools: seq<Contexts.Pool>)

  function Init(c: Config): State {
    State(Next(0, false), CallsLeft(c.closeCalls), [], seq(c.workers, _ => Receive), c.workers, 0,
          false, false, false, false, false, EMPTY_TALLY.(setup := c.setup), seq(c.workers, _ => 0),
          [], 0, 0, NO_TAGS, [], 0, None, None, [], c.pools)
  }

  /** Who moves, and how a free choice inside the step falls. */
  datatype Action =
    | Cancel
    | PassDeadline
    | MainStep(elapsed: real)
    | CloserStep
    | ClientStep(i: nat, viaCtx: bool)
    | Rendezvous(i: nat, j: nat)
    | WorkerStep(j: nat, choice: WorkChoice)

  /** Outcome of a foreign call, what the workflow's steps told the recorder, a measured duration, the memory readings
      around a task, and what the browser returns if asked for a context. */
  datatype WorkChoice = WorkChoice(
    ok: bool, notes: seq<Call>, seconds: real, memory: Readings, made: Option<Contexts.Context>)

  const NO_READINGS := Readings(0, [])

  // ----- clients -----

  predicate ClientEnabled(c: Config, s: State, i: nat, viaCtx: bool) {
    i < |s.clients| &&
    match s.clients[i].pc
    case Acquire => if viaCtx then s.cancelled else s.tokens > 0
    case Send(t) => s.jobsClosed
    case Await(t) =>
      t < |s.tasks| && if viaCtx then s.cancelled else s.tasks[t].done
    case ReleaseLoop => s.tokens < c.workers
    case ReleaseExit => s.tokens < c.workers
    case SubmitLoad(t) => t < |s.tasks|
    case SubmitAdd(t) => t < |s.tasks|
    case ClientReturned => false
    case _ => true
  }

  datatype TaskChange = Unchanged | Built | Accepted(task: nat) | Refused(task: nat)

  /** What one client step does: the next program counter, tokens taken or given back,
      tasks accepted, the recorder call, and the change to the task table. */
  datatype Effect = Effect(pc: ClientPc, tokens: int, call: Call, change: TaskChange, panics: bool)

  function Move(pc: ClientPc): Effect { Effect(pc, 0, NoCall, Unchanged, false) }

  function ClientEffect(pc: ClientPc, viaCtx: bool, cancelled: bool, deadline: bool, closed: bool, nextTask: nat)
    : Effect
  {
    match pc
    case Top => Move(if cancelled then Cancelling(false) else FirstDeadline)
    case FirstDeadline => Move(if deadline then ClientReturned else Acquire)
    case Acquire => if viaCtx then Move(Cancelling(false)) else Effect(SecondDeadline, -1, NoCall, Unchanged, false)
    case SecondDeadline =>
      if deadline then Move(ReleaseExit) else Effect(SubmitLoad(nextTask), 0, NoCall, Built, false)
    case SubmitLoad(t) =>
      if closed then Effect(ReleaseExit, 0, NoCall, Refused(t), false) else Move(SubmitAdd(t))
    case SubmitAdd(t) => Effect(SubmitCreated(t), 0, NoCall, Accepted(t), false)
    case SubmitCreated(t) => Effect(SubmitQueued(t), 0, Call.TaskCreated, Unchanged, false)
    case SubmitQueued(t) => Effect(Send(t), 0, Call.TaskQueued, Unchanged, false)
    case Send(t) => Effect(Send(t), 0, NoCall, Unchanged, true)  // send on a closed channel
    case Await(t) => Move(if viaCtx then Cancelling(true) else ReleaseLoop)
    case ReleaseLoop => Effect(Top, 1, NoCall, Unchanged, false)
    case ReleaseExit => Effect(ClientReturned, 1, NoCall, Unchanged, false)
    case Cancelling(token) =>
      Effect(if token then ReleaseExit else ClientReturned, 0, Call.TaskCancelled, Unchanged, false)
    case ClientReturned => Move(ClientReturned)
  }

  // The histories kept beside a client.
  function ClientAfter(k: Client, e: Effect, cancelled: bool): Client {
    Client(e.pc,
           if cancelled && e.change.Accepted? then k.lateSubmits + 1 else k.lateSubmits,
           if e.call.TaskCancelled? then k.cancelsRecorded + 1 else k.cancelsRecorded)
  }

  function TasksAfter(tasks: seq<Task>, i: nat, level: nat, change: TaskChange): seq<Task> {
    match change
    case Unchanged => tasks
    case Built => tasks + [Task(i, false, level, Carried(i), NO_EVENTS)]
    case Accepted(t) =>
      if t < |tasks| then tasks[t := tasks[t].(ev := tasks[t].ev.(accepted := tasks[t].ev.accepted + 1))] else tasks
    case Refused(t) =>
      if t < |tasks| then tasks[t := tasks[t].(place := Rejected)] else tasks
  }

  // The instruction of the level that is running.
  function LevelOf(main: MainPc): nat { if main.Level? || main.Draining? then main.ip else 0 }

  function EffectOf(s: State, i: nat, viaCtx: bool): Effect
    requires i < |s.clients|
  {
    ClientEffect(s.clients[i].pc, viaCtx, s.cancelled, s.deadline, s.closed, |s.tasks|)
  }

  function ClientApply(s: State, i: nat, viaCtx: bool): State
    requires i < |s.clients|
  {
    var e := EffectOf(s, i, viaCtx);
    s.(clients := s.clients[i := ClientAfter(s.clients[i], e, s.cancelled)],
       tokens := s.tokens + e.tokens,
       pending := if e.change.Accepted? then s.pending + 1 else s.pending,
       late := if e.change.Accepted? && s.deadline then s.late + 1 else s.late,
       rec := s.rec.After(e.call),
       log := s.log + [e.call],
       tasks := TasksAfter(s.tasks, i, LevelOf(s.main), e.change),
       panicked := s.panicked || e.panics)
  }

  // ----- the unbuffered jobs channel -----

  predicate RendezvousEnabled(s: State, i: nat, j: nat) {
    i < |s.clients| && s.clients[i].pc.Send? && s.clients[i].pc.task < |s.tasks| &&
    j < |s.workers| && s.workers[j] == Receive && !s.jobsClosed
  }

  function RendezvousApply(s: State, i: nat, j: nat): State
    requires RendezvousEnabled(s, i, j)
  {
    var t := s.clients[i].pc.task;
    var k := s.tasks[t];
    s.(clients := s.clients[i := s.clients[i].(pc := Await(t))],
       workers := s.workers[j := Begin(t)],
       tasks := s.tasks[t := k.(place := AtWorker(j), ev := k.ev.(received := k.ev.received + 1))])
  }

  // ----- workers -----

  function TaskOf(w: WorkerPc): Option<nat> {
    if w.Receive? || w.WorkerExited? then None else Some(w.task)
  }

  predicate WorkerEnabled(s: State, j: nat) {
    j < |s.workers| &&
    match s.workers[j]
    case Receive => s.jobsClosed
    case WorkerExited => false
    case w => w.task < |s.tasks|
  }

  datatype TaskEvent =
    | NoEvent | Launched | Announced | PageOpened | LatencyRecorded | DeltaRecorded | Completed | FailedRun
    | DoneClosed | Released

  /** What one worker step does: the next program counter, the recorder call, and the event
      that happens to the worker's task. */
  datatype Work = Work(pc: WorkerPc, call: Call, event: TaskEvent)

  // What a workflow's step may tell the recorder, by the kind of worker that runs it.
  predicate ResultNote(kind: Kind, call: Call) {
    match call
    case RecordFailure(_) => true
    case RecordStep(_) => !kind.HybridKind?
    case RecordHTTPStep(_) => kind.HybridKind?
    case RecordBrowserStep(_) => kind.HybridKind?
    case RecordRequest(_, _) => kind.HTTPKind?
    case _ => false
  }

  predicate AllResults(kind: Kind, calls: seq<Call>) { forall c | c in calls :: ResultNote(kind, c) }

  // Calls made along with a step: those of a context's creation, or those of the workflow's steps.
  function Notes(kind: Kind, pool: Contexts.Pool, pc: WorkerPc, w: WorkChoice): (notes: seq<Call>)
    ensures AllNeutral(notes)
  {
    if pc.Opening? && UsesPool(kind) then Contexts.AcquireCalls(pool, w.made, w.seconds)
    else if pc.Running? && AllResults(kind, w.notes) then w.notes
    else []
  }

  function Noted(t: Tally, notes: seq<Call>): (r: Tally)
    ensures AllNeutral(notes) ==> BooksOf(r) == BooksOf(t)
    ensures notes == [] ==> r == t
  {
    assert AllNeutral(notes) ==> BooksOf(Replay(t, notes)) == BooksOf(t) by {
      if AllNeutral(notes) {
        NeutralCalls(t, notes);
      }
    }
    Replay(t, notes)
  }

  // Where Run begins.
  function Entry(kind: Kind, t: nat): WorkerPc {
    match kind
    case HTTPKind => Running(t)
    case BrowserKind => Launch(t)
    case _ => Opening(t)
  }

  function WorkerEffect(c: Config, pc: WorkerPc, w: WorkChoice): Work {
    match pc
    case Receive => Work(WorkerExited, NoCall, NoEvent)
    case Begin(t) => Work(Entry(c.kind, t), Call.TaskActive, NoEvent)
    case Launch(t) =>
      if w.ok then Work(Announce(t), Call.RecordBrowserLaunch(w.seconds), Launched)
      else Work(Delta(t, false), NoCall, NoEvent)
    case Announce(t) => Work(Opening(t), Call.RecordLifecycle(BrowserLaunchCompleted), Announced)
    case Opening(t) =>
      if !w.ok then Work(Delta(t, false), NoCall, NoEvent)
      else if TellsPages(c.kind) then Work(Running(t), Call.RecordLifecycle(PageCreateCompleted), PageOpened)
      else Work(Running(t), NoCall, NoEvent)
    case Running(t) =>
      if w.ok then Work(Escalating(t, c.escalations), NoCall, NoEvent)
      else Work(Delta(t, false), Call.WorkflowFailed, NoEvent)
    case Escalating(t, left) =>
      if left > 0 then Work(Escalating(t, left - 1), Call.RecordEscalation, NoEvent)
      else Work(Delta(t, true), Call.RecordWorkflow(w.seconds), LatencyRecorded)
    case Delta(t, ok) => Work(Outcome(t, ok), Call.RecordTaskRSSDelta(Rise(w.memory)), DeltaRecorded)
    case Outcome(t, ok) =>
      if ok then Work(Mark(t), Call.TaskComplete, Completed) else Work(Mark(t), Call.TaskFailed, FailedRun)
    case Mark(t) => Work(PendingDone(t), NoCall, DoneClosed)
    case PendingDone(t) => Work(Receive, NoCall, Released)
    case WorkerExited => Work(WorkerExited, NoCall, NoEvent)
  }

  // Without a context there is no page.
  function Resolved(kind: Kind, pool: Contexts.Pool, pc: WorkerPc, w: WorkChoice): WorkChoice {
    if pc.Opening? && UsesPool(kind) && Contexts.Acquired(pool, w.made).context.None? then w.(ok := false) else w
  }

  function PoolAt(s: State, j: nat): Contexts.Pool { if j < |s.pools| then s.pools[j] else Contexts.EMPTY_POOL }

  // Nobody else uses a worker's pool, so the release at the end of Run may as well follow the acquire.
  function PoolsAfter(kind: Kind, pools: seq<Contexts.Pool>, j: nat, pc: WorkerPc, w: WorkChoice): seq<Contexts.Pool> {
    if pc.Opening? && UsesPool(kind) && j < |pools| then pools[j := Contexts.Borrowed(pools[j], w.made)] else pools
  }

  function WorkOf(c: Config, s: State, j: nat, w: WorkChoice): Work
    requires j < |s.workers|
  {
    WorkerEffect(c, s.workers[j], Resolved(c.kind, PoolAt(s, j), s.workers[j], w))
  }

  function EventsAfter(ev: Events, e: TaskEvent): Events {
    match e
    case NoEvent => ev
    case Launched => ev.(launches := ev.launches + 1)
    case Announced => ev.(announces := ev.announces + 1)
    case PageOpened => ev.(pages := ev.pages + 1)
    case LatencyRecorded => ev.(latencies := ev.latencies + 1)
    case DeltaRecorded => ev.(deltas := ev.deltas + 1)
    case Completed => ev.(completes := ev.completes + 1)
    case FailedRun => ev.(failures := ev.failures + 1)
    case DoneClosed => ev.(closes := ev.closes + 1)
    case Released => ev.(releases := ev.releases + 1)
  }

  function TagsAfter(tags: Tags, pc: WorkerPc, e: TaskEvent): Tags {
    if TaskOf(pc).None? then tags
    else
      match e
      case Launched => tags.(launch := tags.launch + multiset{pc.task})
      case LatencyRecorded => tags.(latency := tags.latency + multiset{pc.task})
      case DeltaRecorded => tags.(delta := tags.delta + multiset{pc.task})
      case Completed => tags.(complete := tags.complete + multiset{pc.task})
      case FailedRun => tags.(failed := tags.failed + multiset{pc.task})
      case _ => tags
  }

  function Happened(tasks: seq<Task>, pc: WorkerPc, e: TaskEvent): seq<Task> {
    if TaskOf(pc).None? || pc.task >= |tasks| then tasks
    else
      var k := tasks[pc.task];
      if e.DoneClosed? && k.done then tasks  // markFinished's guard
      else
        tasks[pc.task := Task(k.owner, k.done || e.DoneClosed?, k.level, if e.Released? then Gone else k.place,
                              EventsAfter(k.ev, e))]
  }

  function WorkerApply(c: Config, s: State, j: nat, w: WorkChoice): State
    requires j < |s.workers|
  {
    var e := WorkOf(c, s, j, w);
    var notes := Notes(c.kind, PoolAt(s, j), s.workers[j], w);
    s.(pools := PoolsAfter(c.kind, s.pools, j, s.workers[j], w),
       workers := s.workers[j := e.pc],
       rec := Noted(s.rec, notes).After(e.call),
       log := s.log + notes + [e.call],
       pending := if e.event.Released? then s.pending - 1 else s.pending,
       panicked := s.panicked || (e.event.Released? && s.pending <= 0),
       tags := TagsAfter(s.tags, s.workers[j], e.event),
       tasks := Happened(s.tasks, s.workers[j], e.event))
  }

  // ----- the main goroutine: Driver.Run over its program -----

  // A failing call in the warmup phase ends the run; in the measurement phase the elapsed
  // time is recorded first.
  function FailTarget(p: seq<Instr>, ip: nat, warm: bool): nat
    requires ip < |p|
  {
    if warm || ip + 1 >= |p| then |p| else |p| - 1
  }

  predicate MainEnabled(s: State) {
    match s.main
    case Next(_, _) => true
    case Level(_) => forall i | 0 <= i < |s.clients| :: s.clients[i].pc == ClientReturned
    case Draining(_) => s.pending == 0
    case MainReturned(_) => false
  }

  datatype MainChange = OnlyMoves | Starts(n: nat) | Resets | Measures | Fails(ip: nat)

  /** One step of the main goroutine: where it goes and what it does to the rest. */
  datatype MainEffect = MainEffect(main: MainPc, change: MainChange)

  function MainStepEffect(p: seq<Instr>, main: MainPc, cancelled: bool): MainEffect {
    match main
    case Level(ip) => MainEffect(Draining(ip), OnlyMoves)
    case Draining(ip) => MainEffect(Next(ip + 1, false), OnlyMoves)
    case MainReturned(err) => MainEffect(main, OnlyMoves)
    case Next(ip, err) =>
      if ip >= |p| then MainEffect(MainReturned(err), OnlyMoves)
      else
        match p[ip]
        case RunLevel(n, warm) =>
          if n < 1 then MainEffect(Next(FailTarget(p, ip, warm), true), Fails(ip))
          else MainEffect(Level(ip), Starts(n))
        case CheckCtx(warm) =>
          if cancelled then MainEffect(Next(FailTarget(p, ip, warm), true), Fails(ip))
          else MainEffect(Next(ip + 1, err), OnlyMoves)
        case ResetRecorder => MainEffect(Next(ip + 1, err), Resets)
        case SetElapsed => MainEffect(Next(ip + 1, err), Measures)
  }

  // runFixed spawns n clients and fills a new token channel.
  function StartLevel(c: Config, s: State, main: MainPc, n: nat): State {
    s.(main := main, tokens := c.workers, deadline := false, late := 0,
       clients := seq(n, _ => Client(Top, 0, 0)), gone := s.gone + s.clients)
  }

  // rec.Reset(), with the histories that say which tasks and clients belong to the new window. The clients of the
  // level before it have returned.
  function ResetAt(s: State, main: MainPc): State {
    s.(main := main, rec := s.rec.Reset(), base := |s.tasks|, mark := |s.log|, clients := [], gone := [],
       tags := NO_TAGS.(launch := s.tags.launch))
  }

  function MainTo(c: Config, s: State, e: MainEffect, elapsed: real): State {
    match e.change
    case OnlyMoves => s.(main := e.main)
    case Starts(n) => StartLevel(c, s, e.main, n)
    case Resets => ResetAt(s, e.main)
    case Measures => s.(main := e.main, rec := s.rec.SetMeasurementElapsed(elapsed), timed := Some(elapsed))
    case Fails(ip) => s.(main := e.main, failedAt := Some(ip))
  }

  function MainApply(c: Config, s: State, elapsed: real): State {
    MainTo(c, s, MainStepEffect(c.program, s.main, s.cancelled), elapsed)
  }

  // ----- Pool.Close -----

  predicate CloserEnabled(c: Config, s: State) {
    match s.closer
    case CallsLeft(n) => n > 0 && (c.earlyClose || s.main.MainReturned?)
    case ClosingJobs(_) => true
    case Joining(_) => forall j | 0 <= j < |s.workers| :: s.workers[j] == WorkerExited
    case ClosingWorkers(_, _) => true
  }

  function NextCloser(closer: CloserPc, closed: bool, workers: nat): CloserPc {
    match closer
    case CallsLeft(n) =>
      if n == 0 then closer
      else if closed then CallsLeft(n - 1)  // the compare-and-swap fails: return at once
      else ClosingJobs(n - 1)
    case ClosingJobs(n) => Joining(n)
    case Joining(n) => ClosingWorkers(0, n)
    case ClosingWorkers(k, n) => if k < workers then ClosingWorkers(k + 1, n) else CallsLeft(n)
  }

  function WorkerClosed(closes: seq<nat>, closer: CloserPc): seq<nat> {
    if closer.ClosingWorkers? && closer.k < |closes| then closes[closer.k := closes[closer.k] + 1] else closes
  }

  function CloserApply(s: State): State {
    s.(closer := NextCloser(s.closer, s.closed, |s.workerCloses|),
       closed := s.closed || s.closer.CallsLeft?,
       jobsClosed := s.jobsClosed || s.closer.ClosingJobs?,
       panicked := s.panicked || (s.closer.ClosingJobs? && s.jobsClosed),
       workerCloses := WorkerClosed(s.workerCloses, s.closer))
  }

  // ----- the whole system -----

  predicate Enabled(c: Config, s: State, a: Action) {
    !s.panicked &&
    match a
    case Cancel => !s.cancelled
    case PassDeadline => s.main.Level? && !s.deadline
    case MainStep(_) => MainEnabled(s)
    case CloserStep => CloserEnabled(c, s)
    case ClientStep(i, viaCtx) => ClientEnabled(c, s, i, viaCtx)
    case Rendezvous(i, j) => RendezvousEnabled(s, i, j)
    case WorkerStep(j, _) => WorkerEnabled(s, j)
  }

  function Apply(c: Config, s: State, a: Action): State
    requires Enabled(c, s, a)
  {
    match a
    case Cancel => s.(cancelled := true)
    case PassDeadline => s.(deadline := true)
    case MainStep(elapsed) => MainApply(c, s, elapsed)
    case CloserStep => CloserApply(s)
    case ClientStep(i, viaCtx) => ClientApply(s, i, viaCtx)
    case Rendezvous(i, j) => RendezvousApply(s, i, j)
    case WorkerStep(j, w) => WorkerApply(c, s, j, w)
  }

  /** The system has come to rest: driver returned and no Close call left. */
  predicate Final(s: State) { s.main.MainReturned? && s.closer == CallsLeft(0) }

  /** A schedule is a sequence of actions; it is legal when each is enabled in turn. */
  ghost predicate Legal(c: Config, s: State, acts: seq<Action>)
    decreases |acts|
  {
    acts == [] || (Enabled(c, s, acts[0]) && Legal(c, Apply(c, s, acts[0]), acts[1..]))
  }

  ghost function Exec(c: Config, s: State, acts: seq<Action>): State
    requires Legal(c, s, acts)
    decreases |acts|
  {
    if acts == [] then s else Exec(c, Apply(c, s, acts[0]), acts[1..])
  }

  /** States some schedule leads to. */
  ghost predicate Reachable(c: Config, s: State) {
    exists acts :: Legal(c, Init(c), acts) && Exec(c, Init(c), acts) == s
  }
}
