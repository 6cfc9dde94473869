/** Closing the pool is safe exactly when Close starts after the driver has returned. */
module EarlyClose {
  import opened Counting
  import opened Protocol
  import opened Schedules
  import opened Safety
  import opened Invariant
  import opened Ledger

  // Close slips in between the check and the send.
  lemma CloseSlipsIn(c: Config, s: State) returns (s': State)
    requires c.earlyClose && Reachable(c, s) && !s.panicked
    requires |s.clients| >= 1 && |s.tasks| == 1 && s.clients[0].pc == SubmitAdd(0)
    requires !s.closed && !s.jobsClosed && s.closer.CallsLeft? && s.closer.n > 0
    ensures Reachable(c, s') && !s'.panicked && s'.jobsClosed
    ensures s'.clients == s.clients && s'.tasks == s.tasks
  {
    StepReachable(c, s, CloserStep);
    var s1 := Apply(c, s, CloserStep);
    StepReachable(c, s1, CloserStep);
    s' := Apply(c, s1, CloserStep);
  }

  lemma SendPanics(c: Config, s: State) returns (s': State)
    requires Reachable(c, s) && !s.panicked && s.jobsClosed
    requires |s.clients| >= 1 && |s.tasks| == 1 && s.clients[0].pc == SubmitAdd(0)
    ensures Reachable(c, s') && s'.panicked
  {
    s' := ReachesSend(c, s);
    StepReachable(c, s', ClientStep(0, false));
    s' := Apply(c, s', ClientStep(0, false));
  }

  lemma ReachesSend(c: Config, s: State) returns (s': State)
    requires Reachable(c, s) && !s.panicked && s.jobsClosed
    requires |s.clients| >= 1 && |s.tasks| == 1 && s.clients[0].pc == SubmitAdd(0)
    ensures Reachable(c, s') && !s'.panicked && s'.jobsClosed && |s'.clients| >= 1 && s'.clients[0].pc == Send(0)
  {
    StepReachable(c, s, ClientStep(0, false));
    s' := Apply(c, s, ClientStep(0, false));
    StepReachable(c, s', ClientStep(0, false));
    s' := Apply(c, s', ClientStep(0, false));
    StepReachable(c, s', ClientStep(0, false));
    s' := Apply(c, s', ClientStep(0, false));
  }

  /** For a run that starts at least one client: no schedule panics if and only if Close waits for the driver. */
  lemma CloseSafeIffAfterDriver(c: Config)
    requires BeginsLevel(c)
    ensures (forall s :: Reachable(c, s) ==> !s.panicked) <==> !c.earlyClose
  {
    if c.earlyClose {
      var s := ClientPassesCheck(c);
      s := CloseSlipsIn(c, s);
      s := SendPanics(c, s);
    } else {
      forall s | Reachable(c, s) ensures !s.panicked {
        NoPanic(c, s);
      }
    }
  }

  // ----- programs that never start a client -----

  predicate NoLevels(p: seq<Instr>) { forall k | 0 <= k < |p| && p[k].RunLevel? :: p[k].n < 1 }

  // No client was ever started, and no worker has ever had a task.
  ghost predicate Idle(s: State) {
    && s.clients == [] && !s.panicked && (s.main.Next? || s.main.MainReturned?)
    && (forall j | 0 <= j < |s.workers| :: s.workers[j] == Receive || s.workers[j] == WorkerExited)
    && (s.jobsClosed ==> s.closed)
    && (!s.closed ==> s.closer.CallsLeft?)
    && (s.closer.ClosingJobs? ==> !s.jobsClosed)
  }

  lemma MainStaysIdle(c: Config, s: State, elapsed: real)
    requires NoLevels(c.program) && Idle(s) && MainEnabled(s)
    ensures Idle(MainApply(c, s, elapsed))
  {
    MainLeavesPool(c, s, MainStepEffect(c.program, s.main, s.cancelled), elapsed);
    MainClients(c, s, MainStepEffect(c.program, s.main, s.cancelled), elapsed);
  }

  lemma StaysIdle(c: Config, s: State, a: Action)
    requires NoLevels(c.program) && Idle(s) && Enabled(c, s, a)
    ensures Idle(Apply(c, s, a))
  {
    match a
    case MainStep(elapsed) => MainStaysIdle(c, s, elapsed);
    case _ =>
  }

  lemma {:induction false} RunStaysIdle(c: Config, s: State, acts: seq<Action>)
    requires NoLevels(c.program) && Idle(s) && Legal(c, s, acts)
    ensures Idle(Exec(c, s, acts))
    decreases |acts|
  {
    if acts != [] {
      StaysIdle(c, s, acts[0]);
      RunStaysIdle(c, Apply(c, s, acts[0]), acts[1..]);
    }
  }

  /** A run that starts no client never panics, whenever Close is called. */
  lemma NoLevelsNoPanic(c: Config, s: State)
    requires NoLevels(c.program) && Reachable(c, s)
    ensures !s.panicked
  {
    var acts :| Legal(c, Init(c), acts) && Exec(c, Init(c), acts) == s;
    RunStaysIdle(c, Init(c), acts);
  }

  // ----- Submit on a closed pool -----

  function AcceptedOf(k: Task): int { k.ev.accepted }

  // Past the check of the closed flag, not yet counted as pending.
  function AtAdd(k: Client): int { One(k.pc.SubmitAdd?) }

  lemma ChangeAccepts(tasks: seq<Task>, i: nat, level: nat, change: TaskChange)
    requires change.Accepted? || change.Refused? ==> change.task < |tasks|
    ensures Sum(TasksAfter(tasks, i, level, change), AcceptedOf) == Sum(tasks, AcceptedOf) + One(change.Accepted?)
  {
    match change
    case Unchanged =>
    case Built => SumSnoc(tasks, Task(i, false, level, Carried(i), NO_EVENTS), AcceptedOf);
    case Accepted(t) => SumUpdate(tasks, t, TasksAfter(tasks, i, level, change)[t], AcceptedOf);
    case Refused(t) => SumUpdate(tasks, t, TasksAfter(tasks, i, level, change)[t], AcceptedOf);
  }

  lemma EventAccepts(tasks: seq<Task>, pc: WorkerPc, e: TaskEvent)
    ensures Sum(Happened(tasks, pc, e), AcceptedOf) == Sum(tasks, AcceptedOf)
  {
    var tasks' := Happened(tasks, pc, e);
    if tasks' != tasks {
      SumUpdate(tasks, pc.task, tasks'[pc.task], AcceptedOf);
    }
  }

  lemma LateClientStep(c: Config, s: State, i: nat, viaCtx: bool)
    requires s.closed && ClientEnabled(c, s, i, viaCtx)
    ensures var s' := ClientApply(s, i, viaCtx);
            s'.closed && Sum(s'.tasks, AcceptedOf) + Sum(s'.clients, AtAdd)
                         <= Sum(s.tasks, AcceptedOf) + Sum(s.clients, AtAdd)
  {
    var e := EffectOf(s, i, viaCtx);
    ChangeAccepts(s.tasks, i, LevelOf(s.main), e.change);
    SumUpdate(s.clients, i, ClientAfter(s.clients[i], e, s.cancelled), AtAdd);
  }

  lemma LateRendezvous(c: Config, s: State, i: nat, j: nat)
    requires s.closed && RendezvousEnabled(s, i, j)
    ensures var s' := RendezvousApply(s, i, j);
            s'.closed && Sum(s'.tasks, AcceptedOf) + Sum(s'.clients, AtAdd)
                         == Sum(s.tasks, AcceptedOf) + Sum(s.clients, AtAdd)
  {
    var s' := RendezvousApply(s, i, j);
    SumUpdate(s.clients, i, s'.clients[i], AtAdd);
    SumUpdate(s.tasks, s.clients[i].pc.task, s'.tasks[s.clients[i].pc.task], AcceptedOf);
  }

  lemma LateMainStep(c: Config, s: State, elapsed: real)
    requires s.closed
    ensures var s' := MainApply(c, s, elapsed);
            s'.closed && s'.tasks == s.tasks && Sum(s'.clients, AtAdd) <= Sum(s.clients, AtAdd)
  {
    var e := MainStepEffect(c.program, s.main, s.cancelled);
    MainLeavesPool(c, s, e, elapsed);
    MainLeaves(c, s, e, elapsed);
    MainClients(c, s, e, elapsed);
    SumNonNegative(s.clients, AtAdd);
    if e.change.Starts? {
      SumConstant(seq(e.change.n, _ => Client(Top, 0, 0)), AtAdd, 0);
    }
  }

  lemma LateStep(c: Config, s: State, a: Action)
    requires s.closed && Enabled(c, s, a)
    ensures var s' := Apply(c, s, a);
            s'.closed && Sum(s'.tasks, AcceptedOf) + Sum(s'.clients, AtAdd)
                         <= Sum(s.tasks, AcceptedOf) + Sum(s.clients, AtAdd)
  {
    match a
    case ClientStep(i, viaCtx) => LateClientStep(c, s, i, viaCtx);
    case Rendezvous(i, j) => LateRendezvous(c, s, i, j);
    case WorkerStep(j, w) => EventAccepts(s.tasks, s.workers[j], WorkOf(c, s, j, w).event);
    case MainStep(elapsed) => LateMainStep(c, s, elapsed);
    case _ =>
  }

  /** However early Close starts and whatever runs on beside it: once the pool is closed, no task is accepted but those
      of the clients that were already past Submit's check. */
  lemma {:induction false} ClosedAcceptsNoMore(c: Config, s: State, acts: seq<Action>)
    requires s.closed && Legal(c, s, acts)
    ensures Sum(Exec(c, s, acts).tasks, AcceptedOf) <= Sum(s.tasks, AcceptedOf) + Sum(s.clients, AtAdd)
    decreases |acts|
  {
    SumNonNegative(s.clients, AtAdd);
    if acts != [] {
      LateStep(c, s, acts[0]);
      ClosedAcceptsNoMore(c, Apply(c, s, acts[0]), acts[1..]);
    }
  }

  function ReceivedOf(k: Task): int { k.ev.received }

  lemma EventReceives(tasks: seq<Task>, pc: WorkerPc, e: TaskEvent)
    ensures Sum(Happened(tasks, pc, e), ReceivedOf) == Sum(tasks, ReceivedOf)
  {
    var tasks' := Happened(tasks, pc, e);
    if tasks' != tasks {
      SumUpdate(tasks, pc.task, tasks'[pc.task], ReceivedOf);
    }
  }

  lemma ChangeReceives(tasks: seq<Task>, i: nat, level: nat, change: TaskChange)
    ensures Sum(TasksAfter(tasks, i, level, change), ReceivedOf) == Sum(tasks, ReceivedOf)
  {
    match change
    case Unchanged =>
    case Built => SumSnoc(tasks, Task(i, false, level, Carried(i), NO_EVENTS), ReceivedOf);
    case Accepted(t) =>
      if t < |tasks| {
        SumUpdate(tasks, t, TasksAfter(tasks, i, level, change)[t], ReceivedOf);
      }
    case Refused(t) =>
      if t < |tasks| {
        SumUpdate(tasks, t, TasksAfter(tasks, i, level, change)[t], ReceivedOf);
      }
  }

  lemma ClosedStep(c: Config, s: State, a: Action)
    requires s.jobsClosed && Enabled(c, s, a)
    ensures Apply(c, s, a).jobsClosed && Sum(Apply(c, s, a).tasks, ReceivedOf) == Sum(s.tasks, ReceivedOf)
  {
    match a
    case ClientStep(i, viaCtx) => ChangeReceives(s.tasks, i, LevelOf(s.main), EffectOf(s, i, viaCtx).change);
    case WorkerStep(j, w) => EventReceives(s.tasks, s.workers[j], WorkOf(c, s, j, w).event);
    case MainStep(elapsed) =>
      MainLeaves(c, s, MainStepEffect(c.program, s.main, s.cancelled), elapsed);
      MainLeavesPool(c, s, MainStepEffect(c.program, s.main, s.cancelled), elapsed);
    case _ =>
  }

  /** Nobody receives a task from the jobs channel once it is closed, whatever the schedule. */
  lemma {:induction false} ClosedReceivesNone(c: Config, s: State, acts: seq<Action>)
    requires s.jobsClosed && Legal(c, s, acts)
    ensures Sum(Exec(c, s, acts).tasks, ReceivedOf) == Sum(s.tasks, ReceivedOf)
    decreases |acts|
  {
    if acts != [] {
      ClosedStep(c, s, acts[0]);
      ClosedReceivesNone(c, Apply(c, s, acts[0]), acts[1..]);
    }
  }
}
