/** Custody of tasks: every task is in exactly one place, the goroutine at that place holds it,
    and what has happened to it so far is determined by that goroutine's program counter. */
module Custody {
  import opened Counting
  import opened Protocol
  import opened Workflow

  // The task a client carries through Submit.
  function CarriedTask(pc: ClientPc): Option<nat> {
    match pc
    case SubmitLoad(t) => Some(t)
    case SubmitAdd(t) => Some(t)
    case SubmitCreated(t) => Some(t)
    case SubmitQueued(t) => Some(t)
    case Send(t) => Some(t)
    case _ => None
  }

  predicate ClientEvents(pc: ClientPc, ev: Events) {
    ev == NO_EVENTS.(accepted := One(!pc.SubmitLoad? && !pc.SubmitAdd?))
  }

  // A run that has got to its workflow has launched, announced and opened what its kind asks for.
  predicate FullyOpened(kind: Kind, ev: Events) {
    ev.launches == ev.announces == One(kind.BrowserKind?) && ev.pages == One(TellsPages(kind))
  }

  // One that has ended may have failed on the way there.
  predicate PartlyOpened(kind: Kind, ev: Events) {
    && ev.announces == ev.launches <= One(kind.BrowserKind?) && ev.pages <= One(TellsPages(kind))
    && (ev.pages == 1 ==> FullyOpened(kind, ev))
  }

  predicate OpenedAt(kind: Kind, w: WorkerPc, ev: Events) {
    && (w.Begin? || w.Launch? ==> ev.launches == ev.announces == ev.pages == 0)
    && (w.Launch? || w.Announce? ==> kind.BrowserKind?)
    && (w.Announce? ==> ev.launches == 1 && ev.announces == ev.pages == 0)
    && (w.Opening? ==> ev.launches == ev.announces == One(kind.BrowserKind?) && ev.pages == 0)
    && (w.Running? || w.Escalating? ==> FullyOpened(kind, ev))
    && ((w.Delta? || w.Outcome?) && w.ok ==> FullyOpened(kind, ev))
    && (w.Delta? || w.Outcome? || w.Mark? || w.PendingDone? ==> PartlyOpened(kind, ev))
    && (ev.completes == 1 ==> FullyOpened(kind, ev))
  }

  predicate WorkerEvents(kind: Kind, w: WorkerPc, ev: Events) {
    && ev.accepted == 1 && ev.received == 1 && ev.releases == 0
    && ev.closes == One(w.PendingDone?)
    && ev.completes + ev.failures == One(w.Mark? || w.PendingDone?)
    && ev.deltas == One(w.Outcome? || w.Mark? || w.PendingDone?)
    && ev.latencies == (if w.Delta? || w.Outcome? then One(w.ok) else ev.completes)
    && OpenedAt(kind, w, ev)
  }

  // A finished task: each step of its life happened exactly once.
  predicate DoneEvents(kind: Kind, ev: Events) {
    && ev.accepted == ev.received == ev.deltas == ev.closes == ev.releases == 1
    && ev.completes + ev.failures == 1
    && ev.latencies == ev.completes
    && PartlyOpened(kind, ev)
    && (ev.completes == 1 ==> FullyOpened(kind, ev))
  }

  ghost predicate CarriersOk(clients: seq<Client>, tasks: seq<Task>) {
    forall i | 0 <= i < |clients| && CarriedTask(clients[i].pc).Some? ::
      var t := CarriedTask(clients[i].pc).value;
      t < |tasks| && tasks[t].place == Carried(i) && ClientEvents(clients[i].pc, tasks[t].ev)
  }

  ghost predicate WorkersOk(kind: Kind, workers: seq<WorkerPc>, tasks: seq<Task>) {
    forall j | 0 <= j < |workers| && TaskOf(workers[j]).Some? ::
      var t := TaskOf(workers[j]).value;
      t < |tasks| && tasks[t].place == AtWorker(j) && WorkerEvents(kind, workers[j], tasks[t].ev)
  }

  predicate PlaceOk(kind: Kind, clients: seq<Client>, workers: seq<WorkerPc>, t: nat, k: Task) {
    match k.place
    case Carried(i) => i < |clients| && CarriedTask(clients[i].pc) == Some(t) && k.owner == i
    case AtWorker(j) => j < |workers| && TaskOf(workers[j]) == Some(t)
    case Gone => DoneEvents(kind, k.ev)
    case Rejected => k.ev == NO_EVENTS
  }

  ghost predicate PlacesOk(kind: Kind, clients: seq<Client>, workers: seq<WorkerPc>, tasks: seq<Task>) {
    forall t | 0 <= t < |tasks| :: PlaceOk(kind, clients, workers, t, tasks[t])
  }

  ghost predicate WaitersOk(clients: seq<Client>, tasks: seq<Task>) {
    forall i | 0 <= i < |clients| && clients[i].pc.Await? ::
      var t := clients[i].pc.task;
      t < |tasks| && tasks[t].owner == i && (tasks[t].place.AtWorker? || tasks[t].place.Gone?)
  }

  // Before cancellation the client of an unfinished task is still waiting for it.
  ghost predicate Watched(clients: seq<Client>, tasks: seq<Task>) {
    forall t | 0 <= t < |tasks| && tasks[t].place.AtWorker? && !tasks[t].done ::
      tasks[t].owner < |clients| && clients[tasks[t].owner].pc == Await(t)
  }

  // The done channel is closed exactly when it has been closed once or more.
  ghost predicate DoneOk(tasks: seq<Task>) {
    forall t | 0 <= t < |tasks| :: tasks[t].done <==> tasks[t].ev.closes > 0
  }

  ghost predicate CustodyOk(c: Config, s: State) {
    && DoneOk(s.tasks)
    && CarriersOk(s.clients, s.tasks)
    && WorkersOk(c.kind, s.workers, s.tasks)
    && PlacesOk(c.kind, s.clients, s.workers, s.tasks)
    && WaitersOk(s.clients, s.tasks)
    && (!s.cancelled ==> Watched(s.clients, s.tasks))
  }

  // ----- kept by every step -----

  /** The part of a client step that concerns custody. */
  ghost predicate ClientMoves(clients: seq<Client>, tasks: seq<Task>, i: nat, e: Effect,
                              clients': seq<Client>, tasks': seq<Task>)
  {
    && i < |clients|
    && (exists viaCtx, cancelled, deadline, closed ::
          e == ClientEffect(clients[i].pc, viaCtx, cancelled, deadline, closed, |tasks|)
          && (clients[i].pc.Await? ==>
                viaCtx || (clients[i].pc.task < |tasks| && tasks[clients[i].pc.task].done)))
    && (exists k: Client :: k.pc == e.pc && clients' == clients[i := k])
    && (exists level :: tasks' == TasksAfter(tasks, i, level, e.change))
  }

  lemma ClientKeepsCarriers(clients: seq<Client>, tasks: seq<Task>, i: nat, e: Effect,
                            clients': seq<Client>, tasks': seq<Task>)
    requires CarriersOk(clients, tasks) && ClientMoves(clients, tasks, i, e, clients', tasks')
    ensures CarriersOk(clients', tasks')
  {
    forall k | 0 <= k < |clients'| && CarriedTask(clients'[k].pc).Some?
      ensures CarriedTask(clients'[k].pc).value < |tasks'|
      ensures var t := CarriedTask(clients'[k].pc).value;
              tasks'[t].place == Carried(k) && ClientEvents(clients'[k].pc, tasks'[t].ev)
    {
      if k == i {
        MoverCarries(clients, tasks, i, e, clients', tasks');
      }
    }
  }

  lemma MoverCarries(clients: seq<Client>, tasks: seq<Task>, i: nat, e: Effect,
                     clients': seq<Client>, tasks': seq<Task>)
    requires CarriersOk(clients, tasks) && ClientMoves(clients, tasks, i, e, clients', tasks')
    requires CarriedTask(e.pc).Some?
    ensures CarriedTask(e.pc).value < |tasks'|
    ensures tasks'[CarriedTask(e.pc).value].place == Carried(i)
    ensures ClientEvents(e.pc, tasks'[CarriedTask(e.pc).value].ev)
  {
  }

  lemma ClientKeepsWorkers(kind: Kind, clients: seq<Client>, workers: seq<WorkerPc>, tasks: seq<Task>,
                           i: nat, e: Effect, clients': seq<Client>, tasks': seq<Task>)
    requires CarriersOk(clients, tasks) && WorkersOk(kind, workers, tasks)
    requires ClientMoves(clients, tasks, i, e, clients', tasks')
    ensures WorkersOk(kind, workers, tasks')
  {
  }

  lemma ClientKeepsPlaces(kind: Kind, clients: seq<Client>, workers: seq<WorkerPc>, tasks: seq<Task>,
                          i: nat, e: Effect, clients': seq<Client>, tasks': seq<Task>)
    requires CarriersOk(clients, tasks) && PlacesOk(kind, clients, workers, tasks)
    requires ClientMoves(clients, tasks, i, e, clients', tasks')
    ensures PlacesOk(kind, clients', workers, tasks')
  {
    forall t | 0 <= t < |tasks'| ensures PlaceOk(kind, clients', workers, t, tasks'[t]) {
      ClientKeepsPlace(kind, clients, workers, tasks, i, e, clients', tasks', t);
    }
  }

  // How a step of a client bears on the task it carries.
  predicate Hands(pc: ClientPc, e: Effect, next: nat) {
    match e.change
    case Unchanged => CarriedTask(e.pc) == CarriedTask(pc)
    case Built => CarriedTask(pc) == None && CarriedTask(e.pc) == Some(next)
    case Accepted(t) => CarriedTask(e.pc) == CarriedTask(pc) == Some(t)
    case Refused(t) => CarriedTask(pc) == Some(t) && CarriedTask(e.pc) == None && pc.SubmitLoad?
  }

  lemma EffectHands(pc: ClientPc, viaCtx: bool, cancelled: bool, deadline: bool, closed: bool, next: nat)
    ensures Hands(pc, ClientEffect(pc, viaCtx, cancelled, deadline, closed, next), next)
  {
  }

  lemma MoveHands(clients: seq<Client>, tasks: seq<Task>, i: nat, e: Effect, clients': seq<Client>, tasks': seq<Task>)
    requires ClientMoves(clients, tasks, i, e, clients', tasks')
    ensures Hands(clients[i].pc, e, |tasks|)
    ensures |clients'| == |clients| && clients'[i].pc == e.pc
    ensures forall m | 0 <= m < |clients| && m != i :: clients'[m] == clients[m]
    ensures exists level :: tasks' == TasksAfter(tasks, i, level, e.change)
  {
    var viaCtx, cancelled, deadline, closed :|
      e == ClientEffect(clients[i].pc, viaCtx, cancelled, deadline, closed, |tasks|);
    EffectHands(clients[i].pc, viaCtx, cancelled, deadline, closed, |tasks|);
  }

  lemma ClientKeepsPlace(kind: Kind, clients: seq<Client>, workers: seq<WorkerPc>, tasks: seq<Task>,
                         i: nat, e: Effect, clients': seq<Client>, tasks': seq<Task>, t: nat)
    requires CarriersOk(clients, tasks) && (t < |tasks| ==> PlaceOk(kind, clients, workers, t, tasks[t]))
    requires ClientMoves(clients, tasks, i, e, clients', tasks') && t < |tasks'|
    ensures PlaceOk(kind, clients', workers, t, tasks'[t])
  {
    MoveHands(clients, tasks, i, e, clients', tasks');
    var level :| tasks' == TasksAfter(tasks, i, level, e.change);
    HandedPlace(kind, clients, workers, tasks, i, e, clients', level, t);
  }

  lemma HandedPlace(kind: Kind, clients: seq<Client>, workers: seq<WorkerPc>, tasks: seq<Task>,
                    i: nat, e: Effect, clients': seq<Client>, level: nat, t: nat)
    requires CarriersOk(clients, tasks) && (t < |tasks| ==> PlaceOk(kind, clients, workers, t, tasks[t]))
    requires i < |clients| == |clients'| && clients'[i].pc == e.pc && Hands(clients[i].pc, e, |tasks|)
    requires forall m | 0 <= m < |clients| && m != i :: clients'[m] == clients[m]
    requires t < |TasksAfter(tasks, i, level, e.change)|
    ensures PlaceOk(kind, clients', workers, t, TasksAfter(tasks, i, level, e.change)[t])
  {
    match e.change
    case Unchanged =>
    case Built =>
    case Accepted(k) => assert CarriedTask(clients[i].pc) == Some(k);
    case Refused(k) => assert CarriedTask(clients[i].pc) == Some(k);
  }

  lemma ClientKeepsWaiters(clients: seq<Client>, tasks: seq<Task>, i: nat, e: Effect,
                           clients': seq<Client>, tasks': seq<Task>)
    requires CarriersOk(clients, tasks) && WaitersOk(clients, tasks)
    requires ClientMoves(clients, tasks, i, e, clients', tasks')
    ensures WaitersOk(clients', tasks')
  {
    forall k | 0 <= k < |clients'| && clients'[k].pc.Await?
      ensures var t := clients'[k].pc.task;
              t < |tasks'| && tasks'[t].owner == k && (tasks'[t].place.AtWorker? || tasks'[t].place.Gone?)
    {
      WaiterStays(clients, tasks, i, e, clients', tasks', k);
    }
  }

  lemma WaiterStays(clients: seq<Client>, tasks: seq<Task>, i: nat, e: Effect,
                    clients': seq<Client>, tasks': seq<Task>, k: nat)
    requires CarriersOk(clients, tasks) && WaitersOk(clients, tasks)
    requires ClientMoves(clients, tasks, i, e, clients', tasks')
    requires k < |clients'| && clients'[k].pc.Await?
    ensures var t := clients'[k].pc.task;
            t < |tasks'| && tasks'[t].owner == k && (tasks'[t].place.AtWorker? || tasks'[t].place.Gone?)
  {
    assert k != i && clients[k] == clients'[k];
    match e.change
    case Unchanged =>
    case Built =>
    case Accepted(m) => assert CarriedTask(clients[i].pc) == Some(m);
    case Refused(m) => assert CarriedTask(clients[i].pc) == Some(m);
  }

  lemma ClientKeepsWatch(c: Config, s: State, i: nat, viaCtx: bool)
    requires CustodyOk(c, s) && ClientEnabled(c, s, i, viaCtx) && !s.cancelled
    ensures Watched(ClientApply(s, i, viaCtx).clients, ClientApply(s, i, viaCtx).tasks)
  {
  }

  lemma StepMoves(c: Config, s: State, i: nat, viaCtx: bool)
    requires ClientEnabled(c, s, i, viaCtx)
    ensures ClientMoves(s.clients, s.tasks, i, EffectOf(s, i, viaCtx),
                        ClientApply(s, i, viaCtx).clients, ClientApply(s, i, viaCtx).tasks)
  {
  }

  lemma ClientKeepsDone(tasks: seq<Task>, i: nat, level: nat, change: TaskChange)
    requires DoneOk(tasks)
    ensures DoneOk(TasksAfter(tasks, i, level, change))
  {
  }

  lemma ClientKeepsCustody(c: Config, s: State, i: nat, viaCtx: bool)
    requires CustodyOk(c, s) && ClientEnabled(c, s, i, viaCtx)
    ensures CustodyOk(c, ClientApply(s, i, viaCtx))
  {
    var e := EffectOf(s, i, viaCtx);
    var clients', tasks' := ClientApply(s, i, viaCtx).clients, ClientApply(s, i, viaCtx).tasks;
    StepMoves(c, s, i, viaCtx);
    ClientKeepsDone(s.tasks, i, LevelOf(s.main), e.change);
    ClientKeepsCarriers(s.clients, s.tasks, i, e, clients', tasks');
    ClientKeepsWorkers(c.kind, s.clients, s.workers, s.tasks, i, e, clients', tasks');
    ClientKeepsPlaces(c.kind, s.clients, s.workers, s.tasks, i, e, clients', tasks');
    ClientKeepsWaiters(s.clients, s.tasks, i, e, clients', tasks');
    if !s.cancelled {
      ClientKeepsWatch(c, s, i, viaCtx);
    }
  }

  lemma RendezvousKeepsCarriers(c: Config, s: State, i: nat, j: nat)
    requires CarriersOk(s.clients, s.tasks) && RendezvousEnabled(s, i, j)
    ensures CarriersOk(RendezvousApply(s, i, j).clients, RendezvousApply(s, i, j).tasks)
  {
    assert CarriedTask(s.clients[i].pc) == Some(s.clients[i].pc.task);
  }

  lemma RendezvousKeepsWorkers(c: Config, s: State, i: nat, j: nat)
    requires CarriersOk(s.clients, s.tasks) && WorkersOk(c.kind, s.workers, s.tasks) && RendezvousEnabled(s, i, j)
    ensures WorkersOk(c.kind, RendezvousApply(s, i, j).workers, RendezvousApply(s, i, j).tasks)
  {
    var t := s.clients[i].pc.task;
    assert CarriedTask(s.clients[i].pc) == Some(t);
    assert s.tasks[t].place == Carried(i) && s.tasks[t].ev == NO_EVENTS.(accepted := 1);
    assert WorkerEvents(c.kind, Begin(t), s.tasks[t].ev.(received := 1));
  }

  lemma RendezvousKeepsCustody(c: Config, s: State, i: nat, j: nat)
    requires CustodyOk(c, s) && RendezvousEnabled(s, i, j)
    ensures CustodyOk(c, RendezvousApply(s, i, j))
  {
    RendezvousKeepsCarriers(c, s, i, j);
    RendezvousKeepsWorkers(c, s, i, j);
    RendezvousKeepsPlaces(c, s, i, j);
    RendezvousKeepsWaiters(c, s, i, j);
  }

  lemma RendezvousKeepsPlaces(c: Config, s: State, i: nat, j: nat)
    requires CustodyOk(c, s) && RendezvousEnabled(s, i, j)
    ensures var s' := RendezvousApply(s, i, j);
            DoneOk(s'.tasks) && PlacesOk(c.kind, s'.clients, s'.workers, s'.tasks)
  {
    var s' := RendezvousApply(s, i, j);
    forall t | 0 <= t < |s'.tasks| ensures PlaceOk(c.kind, s'.clients, s'.workers, t, s'.tasks[t]) {
      assert PlaceOk(c.kind, s.clients, s.workers, t, s.tasks[t]);
    }
  }

  lemma RendezvousKeepsWaiters(c: Config, s: State, i: nat, j: nat)
    requires CustodyOk(c, s) && RendezvousEnabled(s, i, j)
    ensures var s' := RendezvousApply(s, i, j);
            WaitersOk(s'.clients, s'.tasks) && (!s'.cancelled ==> Watched(s'.clients, s'.tasks))
  {
    assert CarriedTask(s.clients[i].pc) == Some(s.clients[i].pc.task);
    assert PlaceOk(c.kind, s.clients, s.workers, s.clients[i].pc.task, s.tasks[s.clients[i].pc.task]);
  }

  /** A worker step moves its task's life on by one stage. */
  ghost predicate Advances(kind: Kind, pc: WorkerPc, ev: Events, e: Work) {
    if e.event.Released? then e.pc == Receive && DoneEvents(kind, EventsAfter(ev, e.event))
    else TaskOf(e.pc) == TaskOf(pc) && WorkerEvents(kind, e.pc, EventsAfter(ev, e.event))
  }

  lemma OpeningAdvances(c: Config, pc: WorkerPc, w: WorkChoice, ev: Events)
    requires pc.Begin? || pc.Launch? || pc.Announce? || pc.Opening?
    requires WorkerEvents(c.kind, pc, ev)
    ensures Advances(c.kind, pc, ev, WorkerEffect(c, pc, w))
  {
    match pc
    case Begin(_) =>
    case Launch(_) =>
    case Announce(_) =>
    case Opening(_) =>
  }

  lemma WorkflowAdvances(c: Config, pc: WorkerPc, w: WorkChoice, ev: Events)
    requires (pc.Running? || pc.Escalating?) && WorkerEvents(c.kind, pc, ev)
    ensures Advances(c.kind, pc, ev, WorkerEffect(c, pc, w))
  {
  }

  lemma DeltaAdvances(c: Config, pc: WorkerPc, w: WorkChoice, ev: Events)
    requires pc.Delta? && WorkerEvents(c.kind, pc, ev)
    ensures Advances(c.kind, pc, ev, WorkerEffect(c, pc, w))
  {
    assert ev.completes == ev.failures == ev.deltas == 0;
    assert WorkerEvents(c.kind, Outcome(pc.task, pc.ok), ev.(deltas := 1));
  }

  lemma OutcomeAdvances(c: Config, pc: WorkerPc, w: WorkChoice, ev: Events)
    requires pc.Outcome? && WorkerEvents(c.kind, pc, ev)
    ensures Advances(c.kind, pc, ev, WorkerEffect(c, pc, w))
  {
    assert ev.completes == ev.failures == 0;
    if pc.ok {
      assert WorkerEvents(c.kind, Mark(pc.task), ev.(completes := 1));
    } else {
      assert WorkerEvents(c.kind, Mark(pc.task), ev.(failures := 1));
    }
  }

  lemma FinishAdvances(c: Config, pc: WorkerPc, w: WorkChoice, ev: Events)
    requires (pc.Mark? || pc.PendingDone?) && WorkerEvents(c.kind, pc, ev)
    ensures Advances(c.kind, pc, ev, WorkerEffect(c, pc, w))
  {
  }

  lemma LifeAdvances(c: Config, pc: WorkerPc, w: WorkChoice, ev: Events)
    requires TaskOf(pc).Some? && WorkerEvents(c.kind, pc, ev)
    ensures Advances(c.kind, pc, ev, WorkerEffect(c, pc, w))
  {
    if pc.Begin? || pc.Launch? || pc.Announce? || pc.Opening? {
      OpeningAdvances(c, pc, w, ev);
    } else if pc.Running? || pc.Escalating? {
      WorkflowAdvances(c, pc, w, ev);
    } else if pc.Delta? {
      DeltaAdvances(c, pc, w, ev);
    } else if pc.Outcome? {
      OutcomeAdvances(c, pc, w, ev);
    } else {
      FinishAdvances(c, pc, w, ev);
    }
  }

  lemma AdvanceKeepsWorkers(kind: Kind, workers: seq<WorkerPc>, tasks: seq<Task>, j: nat, e: Work)
    requires DoneOk(tasks) && WorkersOk(kind, workers, tasks)
    requires j < |workers| && TaskOf(workers[j]).Some?
    requires Advances(kind, workers[j], tasks[workers[j].task].ev, e)
    ensures WorkersOk(kind, workers[j := e.pc], Happened(tasks, workers[j], e.event))
  {
  }

  lemma AdvanceKeepsPlaces(kind: Kind, clients: seq<Client>, workers: seq<WorkerPc>, tasks: seq<Task>,
                           j: nat, e: Work)
    requires DoneOk(tasks) && WorkersOk(kind, workers, tasks) && PlacesOk(kind, clients, workers, tasks)
    requires j < |workers| && TaskOf(workers[j]).Some?
    requires Advances(kind, workers[j], tasks[workers[j].task].ev, e)
    ensures PlacesOk(kind, clients, workers[j := e.pc], Happened(tasks, workers[j], e.event))
  {
    var tasks' := Happened(tasks, workers[j], e.event);
    forall t | 0 <= t < |tasks'| ensures PlaceOk(kind, clients, workers[j := e.pc], t, tasks'[t]) {
      assert PlaceOk(kind, clients, workers, t, tasks[t]);
      if t == workers[j].task {
        ServedTaskPlace(kind, clients, workers, tasks, j, e);
      }
    }
  }

  lemma ServedTaskPlace(kind: Kind, clients: seq<Client>, workers: seq<WorkerPc>, tasks: seq<Task>, j: nat, e: Work)
    requires DoneOk(tasks) && WorkersOk(kind, workers, tasks)
    requires j < |workers| && TaskOf(workers[j]).Some?
    requires Advances(kind, workers[j], tasks[workers[j].task].ev, e)
    ensures var t, tasks' := workers[j].task, Happened(tasks, workers[j], e.event);
            t < |tasks'| && PlaceOk(kind, clients, workers[j := e.pc], t, tasks'[t])
  {
    var t, tasks' := workers[j].task, Happened(tasks, workers[j], e.event);
    assert t < |tasks| && tasks[t].place == AtWorker(j);
    if e.event.Released? {
      assert tasks'[t].place == Gone && tasks'[t].ev == EventsAfter(tasks[t].ev, e.event);
    } else {
      assert tasks'[t].place == AtWorker(j) && TaskOf(e.pc) == Some(t);
    }
  }

  lemma WorkerKeepsCarriers(c: Config, s: State, j: nat, w: WorkChoice)
    requires CustodyOk(c, s) && WorkerEnabled(s, j)
    ensures CarriersOk(s.clients, WorkerApply(c, s, j, w).tasks)
  {
  }

  lemma WorkerKeepsWaiters(c: Config, s: State, j: nat, w: WorkChoice)
    requires CustodyOk(c, s) && WorkerEnabled(s, j)
    ensures WaitersOk(s.clients, WorkerApply(c, s, j, w).tasks)
    ensures !s.cancelled ==> Watched(s.clients, WorkerApply(c, s, j, w).tasks)
  {
  }

  lemma WorkerKeepsHolders(c: Config, s: State, j: nat, w: WorkChoice)
    requires DoneOk(s.tasks) && WorkersOk(c.kind, s.workers, s.tasks) && WorkerEnabled(s, j)
    requires PlacesOk(c.kind, s.clients, s.workers, s.tasks) && TaskOf(s.workers[j]).Some?
    ensures var s' := WorkerApply(c, s, j, w);
            WorkersOk(c.kind, s'.workers, s'.tasks) && PlacesOk(c.kind, s.clients, s'.workers, s'.tasks)
  {
    LifeAdvances(c, s.workers[j], Resolved(c.kind, PoolAt(s, j), s.workers[j], w), s.tasks[s.workers[j].task].ev);
    AdvanceKeepsWorkers(c.kind, s.workers, s.tasks, j, WorkOf(c, s, j, w));
    AdvanceKeepsPlaces(c.kind, s.clients, s.workers, s.tasks, j, WorkOf(c, s, j, w));
  }

  lemma WorkerKeepsCustody(c: Config, s: State, j: nat, w: WorkChoice)
    requires CustodyOk(c, s) && WorkerEnabled(s, j)
    ensures CustodyOk(c, WorkerApply(c, s, j, w))
  {
    if TaskOf(s.workers[j]).Some? {
      WorkerKeepsHolders(c, s, j, w);
    }
    WorkerKeepsCarriers(c, s, j, w);
    WorkerKeepsWaiters(c, s, j, w);
    EventKeepsDone(s.tasks, s.workers[j], WorkOf(c, s, j, w).event);
  }

  lemma EventKeepsDone(tasks: seq<Task>, pc: WorkerPc, e: TaskEvent)
    requires DoneOk(tasks)
    ensures DoneOk(Happened(tasks, pc, e))
  {
  }
}
