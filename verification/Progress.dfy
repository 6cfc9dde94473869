/** The scheduler never deadlocks, and once the clock has run out every schedule is finite. */
module Progress {
  import opened Counting
  import opened Metrics
  import opened Protocol
  import opened Ledger
  import opened Custody
  import opened Invariant
  import opened Schedules

  // ----- no deadlock -----

  /** Some goroutine (not the clock and not the user) can take a step. */
  ghost predicate CanMove(c: Config, s: State) {
    exists a: Action :: !a.Cancel? && !a.PassDeadline? && Enabled(c, s, a)
  }

  lemma BusyWorkerMoves(c: Config, s: State, j: nat)
    requires Inv(c, s) && j < |s.workers| && TaskOf(s.workers[j]).Some?
    ensures CanMove(c, s)
  {
    assert Enabled(c, s, WorkerStep(j, WorkChoice(true, [], 0.0, NO_READINGS, None)));
  }

  lemma WaiterMoves(c: Config, s: State, i: nat)
    requires Inv(c, s) && i < |s.clients| && s.clients[i].pc.Await?
    ensures CanMove(c, s)
  {
    var t := s.clients[i].pc.task;
    assert PlaceOk(c.kind, s.clients, s.workers, t, s.tasks[t]);
    if s.tasks[t].done {
      assert Enabled(c, s, ClientStep(i, false));
    } else {
      BusyWorkerMoves(c, s, s.tasks[t].place.worker);
    }
  }

  lemma SenderMoves(c: Config, s: State, i: nat)
    requires ValidConfig(c) && Inv(c, s) && i < |s.clients| && s.clients[i].pc.Send?
    ensures CanMove(c, s)
  {
    assert !s.jobsClosed;
    if s.workers[0] == Receive {
      assert CarriedTask(s.clients[i].pc) == Some(s.clients[i].pc.task);
      assert Enabled(c, s, Rendezvous(i, 0));
    } else {
      BusyWorkerMoves(c, s, 0);
    }
  }

  // A client that holds a token, or is not waiting for one, can move or is waiting for a worker that can.
  lemma ClientMoves(c: Config, s: State, i: nat)
    requires ValidConfig(c) && Inv(c, s) && i < |s.clients|
    requires !s.clients[i].pc.ClientReturned? && !s.clients[i].pc.Acquire?
    ensures CanMove(c, s)
  {
    var pc := s.clients[i].pc;
    if pc.Await? {
      WaiterMoves(c, s, i);
    } else if pc.Send? {
      SenderMoves(c, s, i);
    } else {
      if pc.ReleaseLoop? || pc.ReleaseExit? {
        SumCovers(s.clients, i, Holds);
      }
      assert CarriedTask(pc).Some? ==> CarriedTask(pc).value < |s.tasks|;
      assert Enabled(c, s, ClientStep(i, false));
    }
  }

  lemma AcquirerMoves(c: Config, s: State, i: nat)
    requires ValidConfig(c) && Inv(c, s) && i < |s.clients| && s.clients[i].pc.Acquire?
    ensures CanMove(c, s)
  {
    if s.tokens > 0 {
      assert Enabled(c, s, ClientStep(i, false));
    } else {
      // all tokens are out, so somebody holds one
      var k := SumWitness(s.clients, Holds);
      ClientMoves(c, s, k);
    }
  }

  lemma LevelMoves(c: Config, s: State)
    requires ValidConfig(c) && Inv(c, s) && s.main.Level?
    ensures CanMove(c, s)
  {
    if AllReturned(s.clients) {
      assert Enabled(c, s, MainStep(0.0));
    } else {
      var i :| 0 <= i < |s.clients| && s.clients[i].pc != ClientReturned;
      if !s.clients[i].pc.Acquire? {
        ClientMoves(c, s, i);
      } else {
        AcquirerMoves(c, s, i);
      }
    }
  }

  lemma DrainMoves(c: Config, s: State)
    requires Inv(c, s) && s.main.Draining?
    ensures CanMove(c, s)
  {
    if s.pending == 0 {
      assert Enabled(c, s, MainStep(0.0));
    } else {
      SumConstant(s.clients, Offering, 0);
      SumNonNegative(s.workers, Occupied);
      var j := SumWitness(s.workers, Occupied);
      BusyWorkerMoves(c, s, j);
    }
  }

  lemma CloseMoves(c: Config, s: State)
    requires Inv(c, s) && s.main.MainReturned? && s.closer != CallsLeft(0)
    ensures CanMove(c, s)
  {
    if s.closer.Joining? && !AllExited(s.workers) {
      var j :| 0 <= j < |s.workers| && s.workers[j] != WorkerExited;
      assert Enabled(c, s, WorkerStep(j, WorkChoice(true, [], 0.0, NO_READINGS, None)));
    } else {
      assert Enabled(c, s, CloserStep);
    }
  }

  /** In every reachable state short of the end, some goroutine can move. */
  lemma NoDeadlock(c: Config, s: State)
    requires Orderly(c) && Reachable(c, s) && !Final(s)
    ensures CanMove(c, s)
  {
    ReachableInv(c, s);
    InvMoves(c, s);
  }

  lemma InvMoves(c: Config, s: State)
    requires Orderly(c) && Inv(c, s) && !Final(s)
    ensures CanMove(c, s)
  {
    match s.main
    case Next(_, _) => assert Enabled(c, s, MainStep(0.0));
    case Level(_) => LevelMoves(c, s);
    case Draining(_) => DrainMoves(c, s);
    case MainReturned(_) => CloseMoves(c, s);
  }

  // ----- the measure -----

  function WorkerRank(e: nat, w: WorkerPc): int {
    match w
    case WorkerExited => 0
    case Receive => 1
    case PendingDone(_) => 2
    case Mark(_) => 3
    case Outcome(_, _) => 4
    case Delta(_, _) => 5
    case Escalating(_, left) => 6 + left
    case Running(_) => 7 + e
    case Opening(_) => 8 + e
    case Announce(_) => 9 + e
    case Launch(_) => 10 + e
    case Begin(_) => 11 + e
  }

  // After cancellation nobody passes Top; after the deadline nobody passes FirstDeadline.
  function ClientRank(e: nat, cancelled: bool, k: Client): int {
    match k.pc
    case ClientReturned => 0
    case ReleaseExit => 1
    case Cancelling(token) => 1 + One(token)
    case Top => 2
    case ReleaseLoop => 3
    case Await(_) => 4
    case Send(_) => 16 + e
    case SubmitQueued(_) => 17 + e
    case SubmitCreated(_) => 18 + e
    case SubmitAdd(_) => 19 + e
    case SubmitLoad(_) => 20 + e
    case SecondDeadline => 21 + e
    case Acquire => 22 + e
    case FirstDeadline => if cancelled then 23 + e else 1
  }

  function WorkerRankOf(e: nat): WorkerPc -> int { w => WorkerRank(e, w) }
  function ClientRankOf(e: nat, cancelled: bool): Client -> int { k => ClientRank(e, cancelled, k) }

  function Times(n: nat, x: nat): nat { if n == 0 then 0 else x + Times(n - 1, x) }

  // What cancelling may add to the ranks of n clients.
  function CancelBudget(e: nat, cancelled: bool, n: nat): nat {
    if cancelled then 0 else Times(n, 23 + e) + 1
  }

  function InstrCost(e: nat, i: Instr): nat {
    if i.RunLevel? && i.n >= 1 then Times(i.n, 23 + e) + Times(i.n, 2) + 4 else 1
  }

  function ProgramCost(e: nat, p: seq<Instr>, ip: nat): nat
    decreases |p| - ip
  {
    if ip >= |p| then 1 else InstrCost(e, p[ip]) + ProgramCost(e, p, ip + 1)
  }

  function MainRank(c: Config, main: MainPc): nat {
    match main
    case Next(ip, _) => ProgramCost(c.escalations, c.program, ip)
    case Level(ip) => ProgramCost(c.escalations, c.program, ip + 1) + 2
    case Draining(ip) => ProgramCost(c.escalations, c.program, ip + 1) + 1
    case MainReturned(_) => 0
  }

  function CloserRank(workers: nat, closer: CloserPc): int {
    match closer
    case CallsLeft(n) => Times(n, workers + 5)
    case ClosingJobs(n) => Times(n, workers + 5) + workers + 3
    case Joining(n) => Times(n, workers + 5) + workers + 2
    case ClosingWorkers(k, n) => Times(n, workers + 5) + workers - k + 1
  }

  function Goroutines(c: Config, s: State): int {
    Sum(s.clients, ClientRankOf(c.escalations, s.cancelled)) + Sum(s.workers, WorkerRankOf(c.escalations))
  }

  /** Bounds the number of steps still to come. */
  function Measure(c: Config, s: State): int {
    Goroutines(c, s) + CancelBudget(c.escalations, s.cancelled, |s.clients|)
    + One(s.main.Level? && !s.deadline) + MainRank(c, s.main) + CloserRank(c.workers, s.closer)
  }

  /** A level that is running has reached its deadline or been cancelled. */
  predicate TimeUp(s: State) { s.main.Level? ==> s.cancelled || s.deadline }

  // ----- every step decreases the measure -----

  lemma RankDrops(e: nat, k: Client, viaCtx: bool, cancelled: bool, deadline: bool, closed: bool, next: nat)
    requires cancelled || deadline
    requires !k.pc.Send? && !k.pc.ClientReturned?
    ensures var to := ClientAfter(k, ClientEffect(k.pc, viaCtx, cancelled, deadline, closed, next), cancelled);
            ClientRank(e, cancelled, to) < ClientRank(e, cancelled, k)
  {
  }

  lemma ClientDecreases(c: Config, s: State, i: nat, viaCtx: bool)
    requires PhaseOk(s) && ShutdownOk(c, s)
    requires ClientEnabled(c, s, i, viaCtx) && (s.cancelled || s.deadline)
    ensures Goroutines(c, ClientApply(s, i, viaCtx)) < Goroutines(c, s)
  {
    RankDrops(c.escalations, s.clients[i], viaCtx, s.cancelled, s.deadline, s.closed, |s.tasks|);
    SumUpdate(s.clients, i, ClientApply(s, i, viaCtx).clients[i], ClientRankOf(c.escalations, s.cancelled));
  }

  lemma RendezvousDecreases(c: Config, s: State, i: nat, j: nat)
    requires RendezvousEnabled(s, i, j)
    ensures Goroutines(c, RendezvousApply(s, i, j)) < Goroutines(c, s)
  {
    var s' := RendezvousApply(s, i, j);
    SumUpdate(s.clients, i, s'.clients[i], ClientRankOf(c.escalations, s.cancelled));
    SumUpdate(s.workers, j, s'.workers[j], WorkerRankOf(c.escalations));
  }

  lemma WorkDrops(c: Config, pc: WorkerPc, w: WorkChoice)
    requires !pc.WorkerExited?
    ensures WorkerRank(c.escalations, WorkerEffect(c, pc, w).pc) < WorkerRank(c.escalations, pc)
  {
  }

  lemma DropDecreases(c: Config, s: State, s': State, j: nat, e: Work)
    requires Worked(s, s', j, e)
    requires WorkerRank(c.escalations, e.pc) < WorkerRank(c.escalations, s.workers[j])
    ensures Goroutines(c, s') < Goroutines(c, s)
  {
    SumUpdate(s.workers, j, e.pc, WorkerRankOf(c.escalations));
  }

  lemma WorkerDecreases(c: Config, s: State, j: nat, w: WorkChoice)
    requires WorkerEnabled(s, j)
    ensures Goroutines(c, WorkerApply(c, s, j, w)) < Goroutines(c, s)
  {
    StepWorked(c, s, j, w);
    WorkDrops(c, s.workers[j], Resolved(c.kind, PoolAt(s, j), s.workers[j], w));
    DropDecreases(c, s, WorkerApply(c, s, j, w), j, WorkOf(c, s, j, w));
  }

  lemma {:induction false} CancelRaises(e: nat, clients: seq<Client>)
    ensures Sum(clients, ClientRankOf(e, true)) <= Sum(clients, ClientRankOf(e, false)) + Times(|clients|, 23 + e)
  {
    if clients != [] {
      CancelRaises(e, clients[1..]);
    }
  }

  lemma {:induction false} ProgramCostDrops(e: nat, p: seq<Instr>, ip: nat, later: nat)
    requires ip < later <= |p|
    ensures ProgramCost(e, p, later) < ProgramCost(e, p, ip)
    decreases later - ip
  {
    if ip + 1 < later {
      ProgramCostDrops(e, p, ip + 1, later);
    }
  }

  lemma {:induction false} FreshRank(e: nat, cancelled: bool, n: nat)
    ensures Sum(seq(n, _ => Client(Top, 0, 0)), ClientRankOf(e, cancelled)) == Times(n, 2)
  {
    var k := seq(n, _ => Client(Top, 0, 0));
    if n > 0 {
      assert k[1..] == seq(n - 1, _ => Client(Top, 0, 0));
      FreshRank(e, cancelled, n - 1);
    }
  }

  lemma StartDecreases(c: Config, s: State)
    requires Quiet(s) && s.main.Next? && s.main.ip < |c.program|
    requires c.program[s.main.ip].RunLevel? && c.program[s.main.ip].n >= 1
    ensures Measure(c, StartLevel(c, s, Level(s.main.ip), c.program[s.main.ip].n)) < Measure(c, s)
  {
    FreshRank(c.escalations, s.cancelled, c.program[s.main.ip].n);
    SumConstant(s.clients, ClientRankOf(c.escalations, s.cancelled), 0);
  }

  lemma MoveDecreases(c: Config, main: MainPc, cancelled: bool)
    requires !main.MainReturned?
    requires !MainStepEffect(c.program, main, cancelled).change.Starts?
    ensures MainRank(c, MainStepEffect(c.program, main, cancelled).main) < MainRank(c, main)
  {
    var to := MainStepEffect(c.program, main, cancelled).main;
    if main.Next? && main.ip < |c.program| {
      ProgramCostDrops(c.escalations, c.program, main.ip, to.ip);
    }
  }

  lemma MainDecreases(c: Config, s: State, elapsed: real)
    requires PhaseOk(s) && MainEnabled(s)
    ensures Measure(c, MainApply(c, s, elapsed)) < Measure(c, s)
  {
    var e := MainStepEffect(c.program, s.main, s.cancelled);
    if e.change.Starts? {
      StartDecreases(c, s);
    } else if e.change.Resets? {
      ResetDecreases(c, s);
    } else {
      MoveDecreases(c, s.main, s.cancelled);
      MoveLeaves(c, s, e, elapsed);
      SameGoroutines(c, s, MainApply(c, s, elapsed));
    }
  }

  lemma ResetDecreases(c: Config, s: State)
    requires Quiet(s) && s.main.Next? && s.main.ip < |c.program| && c.program[s.main.ip].ResetRecorder?
    ensures Measure(c, ResetAt(s, Next(s.main.ip + 1, s.main.err))) < Measure(c, s)
  {
    SumConstant(s.clients, ClientRankOf(c.escalations, s.cancelled), 0);
    MoveDecreases(c, s.main, s.cancelled);
  }

  lemma MoveLeaves(c: Config, s: State, e: MainEffect, elapsed: real)
    requires !e.change.Starts? && !e.change.Resets?
    ensures var s' := MainTo(c, s, e, elapsed);
            && s'.main == e.main
            && s'.clients == s.clients && s'.workers == s.workers && s'.closer == s.closer
            && s'.cancelled == s.cancelled && s'.deadline == s.deadline
  {
    match e.change
    case OnlyMoves =>
    case Measures =>
    case Fails(_) =>
  }

  lemma SameGoroutines(c: Config, s: State, s': State)
    requires s'.clients == s.clients && s'.workers == s.workers && s'.closer == s.closer
    requires s'.cancelled == s.cancelled && s'.deadline == s.deadline && (s'.main.Level? ==> s.main.Level?)
    requires MainRank(c, s'.main) < MainRank(c, s.main)
    ensures Measure(c, s') < Measure(c, s)
  {
  }

  lemma CloserDecreases(c: Config, s: State)
    requires ShutdownOk(c, s) && CloserEnabled(c, s)
    ensures CloserRank(c.workers, CloserApply(s).closer) < CloserRank(c.workers, s.closer)
  {
  }

  lemma CloserStepDecreases(c: Config, s: State)
    requires ShutdownOk(c, s) && CloserEnabled(c, s)
    ensures Measure(c, CloserApply(s)) < Measure(c, s)
  {
    CloserDecreases(c, s);
  }

  lemma CancelDecreases(c: Config, s: State)
    requires !s.cancelled
    ensures Measure(c, s.(cancelled := true)) < Measure(c, s)
  {
    CancelRaises(c.escalations, s.clients);
  }

  lemma DeadlineDecreases(c: Config, s: State)
    requires s.main.Level? && !s.deadline
    ensures Measure(c, s.(deadline := true)) < Measure(c, s)
  {
  }

  lemma ControlDecreases(c: Config, s: State, a: Action)
    requires Inv(c, s) && Enabled(c, s, a) && (a.Cancel? || a.PassDeadline? || a.MainStep? || a.CloserStep?)
    ensures Measure(c, Apply(c, s, a)) < Measure(c, s)
  {
    match a
    case Cancel => CancelDecreases(c, s);
    case PassDeadline => DeadlineDecreases(c, s);
    case MainStep(elapsed) => MainDecreases(c, s, elapsed);
    case CloserStep => CloserStepDecreases(c, s);
    case _ =>
  }

  // What a step of a client or a worker leaves of the measure.
  lemma OnlyGoroutines(c: Config, s: State, a: Action)
    requires Enabled(c, s, a) && (a.ClientStep? || a.Rendezvous? || a.WorkerStep?)
    ensures var s' := Apply(c, s, a);
            Measure(c, s') - Goroutines(c, s') == Measure(c, s) - Goroutines(c, s)
  {
    var s' := Apply(c, s, a);
    assert s'.main == s.main && s'.closer == s.closer && s'.cancelled == s.cancelled && s'.deadline == s.deadline
           && |s'.clients| == |s.clients| by {
      match a
      case ClientStep(i, viaCtx) =>
      case Rendezvous(i, j) =>
      case WorkerStep(j, w) =>
    }
  }

  lemma GoroutinesDecrease(c: Config, s: State, a: Action)
    requires PhaseOk(s) && ShutdownOk(c, s) && Enabled(c, s, a) && TimeUp(s)
    requires a.ClientStep? || a.Rendezvous? || a.WorkerStep?
    ensures Goroutines(c, Apply(c, s, a)) < Goroutines(c, s)
  {
    match a
    case ClientStep(i, viaCtx) => ClientDecreases(c, s, i, viaCtx);
    case Rendezvous(i, j) => RendezvousDecreases(c, s, i, j);
    case WorkerStep(j, w) => WorkerDecreases(c, s, j, w);
  }

  lemma StepDecreases(c: Config, s: State, a: Action)
    requires Inv(c, s) && Enabled(c, s, a) && TimeUp(s)
    ensures Measure(c, Apply(c, s, a)) < Measure(c, s)
  {
    if a.ClientStep? || a.Rendezvous? || a.WorkerStep? {
      OnlyGoroutines(c, s, a);
      GoroutinesDecrease(c, s, a);
    } else {
      ControlDecreases(c, s, a);
    }
  }

  lemma MeasureNonNegative(c: Config, s: State)
    requires Inv(c, s)
    ensures Measure(c, s) >= 0
  {
    RanksNonNegative(c, s);
    CloserNonNegative(c, s);
  }

  lemma RanksNonNegative(c: Config, s: State)
    requires EscalationLedger(c, s)
    ensures Goroutines(c, s) >= 0
  {
    SumNonNegative(s.clients, ClientRankOf(c.escalations, s.cancelled));
    SumNonNegative(s.workers, WorkerRankOf(c.escalations));
  }

  lemma CloserNonNegative(c: Config, s: State)
    requires ShutdownOk(c, s)
    ensures CloserRank(c.workers, s.closer) >= 0
  {
  }

  // ----- whole schedules -----

  /** The clock has run out in every state the schedule passes through. */
  ghost predicate TimeUpAlong(c: Config, s: State, acts: seq<Action>)
    requires Legal(c, s, acts)
    decreases |acts|
  {
    TimeUp(s) && (acts != [] ==> TimeUpAlong(c, Apply(c, s, acts[0]), acts[1..]))
  }

  lemma {:induction false} ScheduleBounded(c: Config, s: State, acts: seq<Action>)
    requires Orderly(c) && Inv(c, s) && Legal(c, s, acts) && TimeUpAlong(c, s, acts)
    ensures |acts| <= Measure(c, s)
    decreases |acts|
  {
    MeasureNonNegative(c, s);
    if acts != [] {
      StepKeepsInv(c, s, acts[0]);
      StepDecreases(c, s, acts[0]);
      ScheduleBounded(c, Apply(c, s, acts[0]), acts[1..]);
    }
  }

  predicate InLevel(s: State, ip: nat) { s.main == Level(ip) || s.main == Draining(ip) }

  /** runFixed has returned without an error, and nothing of the level is left. */
  ghost predicate LevelOver(s: State, ip: nat) { s.main == Next(ip + 1, false) && Quiet(s) && s.pending == 0 }

  lemma LevelEnds(c: Config, s: State, a: Action, ip: nat)
    requires Orderly(c) && Inv(c, s) && Enabled(c, s, a) && InLevel(s, ip)
    ensures InLevel(Apply(c, s, a), ip) || LevelOver(Apply(c, s, a), ip)
  {
    StepKeepsInv(c, s, a);
    LevelGoes(c, s, a, ip);
    if Apply(c, s, a).main.Next? {
      QuietSums(c, Apply(c, s, a));
    }
  }

  lemma LevelGoes(c: Config, s: State, a: Action, ip: nat)
    requires Enabled(c, s, a) && InLevel(s, ip)
    ensures InLevel(Apply(c, s, a), ip) || Apply(c, s, a).main == Next(ip + 1, false)
    ensures !a.Cancel? ==> Apply(c, s, a).cancelled == s.cancelled
    ensures Apply(c, s, a).failedAt == s.failedAt
  {
  }

  /** Main stays inside one level, waiting or draining. */
  ghost predicate StaysInLevel(c: Config, s: State, acts: seq<Action>, ip: nat)
    requires Legal(c, s, acts)
    decreases |acts|
  {
    InLevel(s, ip)
    && (acts != [] ==> StaysInLevel(c, Apply(c, s, acts[0]), acts[1..], ip))
  }

  lemma {:induction false} LevelStaysTimeUp(c: Config, s: State, acts: seq<Action>, ip: nat)
    requires Legal(c, s, acts) && StaysInLevel(c, s, acts, ip) && (s.deadline || s.cancelled)
    ensures TimeUpAlong(c, s, acts)
    decreases |acts|
  {
    if acts != [] {
      FlagsStay(c, s, acts[0]);
      LevelStaysTimeUp(c, Apply(c, s, acts[0]), acts[1..], ip);
    }
  }

  lemma FlagsStay(c: Config, s: State, a: Action)
    requires Enabled(c, s, a)
    ensures s.cancelled ==> Apply(c, s, a).cancelled
    ensures s.deadline && !s.main.Next? ==> Apply(c, s, a).deadline
  {
  }

  /** Once the deadline has passed, or after cancellation, a schedule that stays in the level is bounded, yet can
      always be continued; a step that leaves the level goes to the next instruction, with every client returned,
      every worker idle and nothing pending. So every schedule makes runFixed return. */
  lemma LevelTerminates(c: Config, s: State, acts: seq<Action>, ip: nat)
    requires Orderly(c) && Reachable(c, s) && (s.deadline || s.cancelled)
    requires Legal(c, s, acts) && StaysInLevel(c, s, acts, ip)
    ensures |acts| <= Measure(c, s)
    ensures CanMove(c, Exec(c, s, acts))
    ensures forall a | Enabled(c, Exec(c, s, acts), a) ::
              var s' := Apply(c, Exec(c, s, acts), a); InLevel(s', ip) || LevelOver(s', ip)
  {
    ReachableInv(c, s);
    LevelStaysTimeUp(c, s, acts, ip);
    ScheduleBounded(c, s, acts);
    ScheduleKeepsInv(c, s, acts);
    StillInLevel(c, s, acts, ip);
    var end := Exec(c, s, acts);
    InvMoves(c, end);
    forall a | Enabled(c, end, a)
      ensures var s' := Apply(c, end, a); InLevel(s', ip) || LevelOver(s', ip)
    {
      LevelEnds(c, end, a, ip);
    }
  }

  lemma {:induction false} StillInLevel(c: Config, s: State, acts: seq<Action>, ip: nat)
    requires Legal(c, s, acts) && StaysInLevel(c, s, acts, ip)
    ensures InLevel(Exec(c, s, acts), ip)
    decreases |acts|
  {
    if acts != [] {
      StillInLevel(c, Apply(c, s, acts[0]), acts[1..], ip);
    }
  }

  lemma {:induction false} CancelledStaysTimeUp(c: Config, s: State, acts: seq<Action>)
    requires Legal(c, s, acts) && s.cancelled
    ensures TimeUpAlong(c, s, acts)
    decreases |acts|
  {
    if acts != [] {
      FlagsStay(c, s, acts[0]);
      CancelledStaysTimeUp(c, Apply(c, s, acts[0]), acts[1..]);
    }
  }

  /** After cancellation every schedule is finite, and one that cannot be continued has brought the driver
      home with nothing pending and shut the pool down completely. */
  lemma CancelledRunFinishes(c: Config, s: State, acts: seq<Action>)
    requires Orderly(c) && Reachable(c, s) && s.cancelled && Legal(c, s, acts)
    ensures |acts| <= Measure(c, s)
    ensures !CanMove(c, Exec(c, s, acts)) ==>
              var end := Exec(c, s, acts);
              Final(end) && end.pending == 0 && AllExited(end.workers) && ClosedSoFar(end.workerCloses, c.workers)
  {
    ReachableInv(c, s);
    CancelledStaysTimeUp(c, s, acts);
    ScheduleBounded(c, s, acts);
    ScheduleKeepsInv(c, s, acts);
    var end := Exec(c, s, acts);
    if !CanMove(c, end) {
      if !Final(end) {
        InvMoves(c, end);
      }
      AtRest(c, end);
    }
  }

  lemma AtRest(c: Config, s: State)
    requires Orderly(c) && Inv(c, s) && Final(s)
    ensures s.pending == 0 && AllExited(s.workers) && ClosedSoFar(s.workerCloses, c.workers)
  {
    QuietSums(c, s);
  }

  // ----- whole runs in which every level's deadline passes -----

  /** How many steps are taken while a level runs whose time is not up. */
  ghost function EarlySteps(c: Config, s: State, acts: seq<Action>): nat
    requires Legal(c, s, acts)
    decreases |acts|
  {
    if acts == [] then 0 else One(!TimeUp(s)) + EarlySteps(c, Apply(c, s, acts[0]), acts[1..])
  }

  lemma RankRises(e: nat, k: Client, viaCtx: bool, cancelled: bool, deadline: bool, closed: bool, next: nat)
    ensures var to := ClientAfter(k, ClientEffect(k.pc, viaCtx, cancelled, deadline, closed, next), cancelled);
            ClientRank(e, cancelled, to) <= ClientRank(e, cancelled, k) + 22 + e
  {
  }

  lemma ClientRises(c: Config, s: State, i: nat, viaCtx: bool)
    requires ClientEnabled(c, s, i, viaCtx)
    ensures Goroutines(c, ClientApply(s, i, viaCtx)) <= Goroutines(c, s) + 22 + c.escalations
  {
    RankRises(c.escalations, s.clients[i], viaCtx, s.cancelled, s.deadline, s.closed, |s.tasks|);
    SumUpdate(s.clients, i, ClientApply(s, i, viaCtx).clients[i], ClientRankOf(c.escalations, s.cancelled));
  }

  lemma GoroutinesRise(c: Config, s: State, a: Action)
    requires Enabled(c, s, a) && (a.ClientStep? || a.Rendezvous? || a.WorkerStep?)
    ensures Goroutines(c, Apply(c, s, a)) <= Goroutines(c, s) + 22 + c.escalations
  {
    match a
    case ClientStep(i, viaCtx) => ClientRises(c, s, i, viaCtx);
    case Rendezvous(i, j) => RendezvousDecreases(c, s, i, j);
    case WorkerStep(j, w) => WorkerDecreases(c, s, j, w);
  }

  lemma StepRises(c: Config, s: State, a: Action)
    requires Inv(c, s) && Enabled(c, s, a)
    ensures Measure(c, Apply(c, s, a)) <= Measure(c, s) + 22 + c.escalations
  {
    if a.ClientStep? || a.Rendezvous? || a.WorkerStep? {
      OnlyGoroutines(c, s, a);
      GoroutinesRise(c, s, a);
    } else {
      ControlDecreases(c, s, a);
    }
  }

  lemma StepBudget(c: Config, s: State, a: Action)
    requires Inv(c, s) && Enabled(c, s, a)
    ensures Measure(c, Apply(c, s, a)) < Measure(c, s) + if TimeUp(s) then 0 else 23 + c.escalations
  {
    if TimeUp(s) {
      StepDecreases(c, s, a);
    } else {
      StepRises(c, s, a);
    }
  }

  /** No run is longer than its first measure allows, plus a fixed amount for every step taken before the time
      of the level was up. */
  lemma {:induction false} RunBounded(c: Config, s: State, acts: seq<Action>)
    requires Orderly(c) && Inv(c, s) && Legal(c, s, acts)
    ensures |acts| <= Measure(c, s) + Times(EarlySteps(c, s, acts), 23 + c.escalations)
    decreases |acts|
  {
    MeasureNonNegative(c, s);
    if acts != [] {
      StepKeepsInv(c, s, acts[0]);
      RunBounded(c, Apply(c, s, acts[0]), acts[1..]);
      StepBudget(c, s, acts[0]);
    }
  }

  /** A whole run, cancelled or not: it is finite when the deadlines of its levels pass after finitely many steps,
      and when it cannot be continued the driver has returned, nothing is pending and the pool is shut down. */
  lemma RunFinishes(c: Config, acts: seq<Action>)
    requires Orderly(c) && Legal(c, Init(c), acts)
    ensures |acts| <= Measure(c, Init(c)) + Times(EarlySteps(c, Init(c), acts), 23 + c.escalations)
    ensures !CanMove(c, Exec(c, Init(c), acts)) ==>
              var end := Exec(c, Init(c), acts);
              Final(end) && end.pending == 0 && AllExited(end.workers) && ClosedSoFar(end.workerCloses, c.workers)
  {
    InitInv(c);
    RunBounded(c, Init(c), acts);
    ScheduleKeepsInv(c, Init(c), acts);
    var end := Exec(c, Init(c), acts);
    if !CanMove(c, end) {
      if !Final(end) {
        InvMoves(c, end);
      }
      AtRest(c, end);
    }
  }

  // ----- a level can be brought to its end -----

  /** What has happened to a task stays so. */
  predicate HistoryKept(tasks: seq<Task>, tasks': seq<Task>) {
    && |tasks| <= |tasks'|
    && forall t | 0 <= t < |tasks| ::
         && tasks'[t].level == tasks[t].level
         && tasks'[t].ev.accepted >= tasks[t].ev.accepted && tasks'[t].ev.completes >= tasks[t].ev.completes
  }

  lemma ChangeKeepsHistory(tasks: seq<Task>, i: nat, level: nat, change: TaskChange)
    ensures HistoryKept(tasks, TasksAfter(tasks, i, level, change))
  {
  }

  lemma EventKeepsHistory(tasks: seq<Task>, pc: WorkerPc, e: TaskEvent)
    ensures HistoryKept(tasks, Happened(tasks, pc, e))
  {
  }

  lemma StepKeepsHistory(c: Config, s: State, a: Action)
    requires Enabled(c, s, a)
    ensures HistoryKept(s.tasks, Apply(c, s, a).tasks)
  {
    match a
    case ClientStep(i, viaCtx) => ChangeKeepsHistory(s.tasks, i, LevelOf(s.main), EffectOf(s, i, viaCtx).change);
    case WorkerStep(j, w) => EventKeepsHistory(s.tasks, s.workers[j], WorkOf(c, s, j, w).event);
    case Rendezvous(i, j) =>
    case MainStep(elapsed) => MainLeaves(c, s, MainStepEffect(c.program, s.main, s.cancelled), elapsed);
    case _ =>
  }

  /** From a level whose time is up, goroutine steps alone lead to its end. */
  lemma {:induction false} LevelReturns(c: Config, s: State, ip: nat) returns (s': State)
    requires Orderly(c) && Reachable(c, s) && InLevel(s, ip) && (s.cancelled || s.deadline)
    ensures Reachable(c, s') && LevelOver(s', ip) && s'.cancelled == s.cancelled && s'.failedAt == s.failedAt
    ensures HistoryKept(s.tasks, s'.tasks)
    decreases Measure(c, s)
  {
    ReachableInv(c, s);
    MeasureNonNegative(c, s);
    InvMoves(c, s);
    var a: Action :| !a.Cancel? && !a.PassDeadline? && Enabled(c, s, a);
    var next := Apply(c, s, a);
    StepReachable(c, s, a);
    StepDecreases(c, s, a);
    StepKeepsHistory(c, s, a);
    LevelEnds(c, s, a, ip);
    FlagsStay(c, s, a);
    LevelGoes(c, s, a, ip);
    if InLevel(next, ip) {
      s' := LevelReturns(c, next, ip);
    } else {
      s' := next;
    }
  }
}
