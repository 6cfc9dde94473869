/** The clients of a level (internal/scheduler/driver.go, runFixed): how many there are, when they leave the loop, what
    they record of a cancellation, and what a cancellation does to the levels after. */
module Levels {
  import opened Counting
  import opened Metrics
  import opened Protocol
  import opened Ledger
  import opened Custody
  import opened Invariant
  import opened Driver

  // Out of the loop, or giving its token back on the way out.
  predicate Left(k: Client) { k.pc.ReleaseExit? || k.pc.ClientReturned? }

  function Cancels(k: Client): int { k.cancelsRecorded }

  // ----- the invariant -----

  ghost predicate LeaversRecorded(clients: seq<Client>) {
    forall i | 0 <= i < |clients| && Left(clients[i]) :: clients[i].cancelsRecorded >= 1
  }

  ghost predicate CancelsOk(s: State) {
    && s.rec.window.counters.canceled == Sum(s.clients, Cancels) + Sum(s.gone, Cancels)
    && forall k | k in s.gone :: k.cancelsRecorded <= 1
  }

  predicate SizeOk(p: seq<Instr>, s: State) {
    s.main.Level? || s.main.Draining? ==>
      s.main.ip < |p| && p[s.main.ip].RunLevel? && |s.clients| == p[s.main.ip].n
  }

  ghost predicate Counted(c: Config, s: State) {
    && (!s.deadline && !s.closed ==> LeaversRecorded(s.clients))
    && CancelsOk(s)
    && SizeOk(c.program, s)
  }

  // ----- kept by every step -----

  // While the level is on time and the pool open, a client leaves by recording its cancellation.
  lemma LeavesByCancel(k: Client, viaCtx: bool, cancelled: bool, next: nat)
    requires Left(k) ==> k.cancelsRecorded >= 1
    ensures var to := ClientAfter(k, ClientEffect(k.pc, viaCtx, cancelled, false, false, next), cancelled);
            Left(to) ==> to.cancelsRecorded >= 1
  {
  }

  lemma CancelCounts(k: Client, e: Effect, cancelled: bool, n: Counters)
    ensures Count(n, e.call).canceled - n.canceled == Cancels(ClientAfter(k, e, cancelled)) - Cancels(k)
  {
  }

  lemma ClientKeepsCounted(c: Config, s: State, i: nat, viaCtx: bool)
    requires Counted(c, s) && ClientEnabled(c, s, i, viaCtx)
    ensures Counted(c, ClientApply(s, i, viaCtx))
  {
    var e := EffectOf(s, i, viaCtx);
    var k := ClientAfter(s.clients[i], e, s.cancelled);
    assert ClientApply(s, i, viaCtx).clients == s.clients[i := k];
    SumUpdate(s.clients, i, k, Cancels);
    CancelCounts(s.clients[i], e, s.cancelled, s.rec.window.counters);
    if !s.deadline && !s.closed {
      LeavesByCancel(s.clients[i], viaCtx, s.cancelled, |s.tasks|);
    }
  }

  lemma RendezvousKeepsCounted(c: Config, s: State, i: nat, j: nat)
    requires Counted(c, s) && RendezvousEnabled(s, i, j)
    ensures Counted(c, RendezvousApply(s, i, j))
  {
    SumUpdate(s.clients, i, RendezvousApply(s, i, j).clients[i], Cancels);
  }

  lemma WorkRecordsNoCancel(c: Config, pc: WorkerPc, w: WorkChoice, n: Counters)
    ensures Count(n, WorkerEffect(c, pc, w).call).canceled == n.canceled
  {
  }

  lemma WorkerLeavesLevel(c: Config, s: State, j: nat, w: WorkChoice)
    requires j < |s.workers|
    ensures var s' := WorkerApply(c, s, j, w);
            s'.main == s.main && s'.gone == s.gone && s'.closed == s.closed && s'.timed == s.timed
            && s'.rec.measurementElapsed == s.rec.measurementElapsed
  {
    NotesLeaveElapsed(s.rec, Notes(c.kind, PoolAt(s, j), s.workers[j], w));
  }

  lemma {:induction false} NotesLeaveElapsed(t: Tally, calls: seq<Call>)
    ensures Replay(t, calls).measurementElapsed == t.measurementElapsed
    decreases |calls|
  {
    if calls != [] {
      NotesLeaveElapsed(t.After(calls[0]), calls[1..]);
    }
  }

  lemma WorkerKeepsCounted(c: Config, s: State, j: nat, w: WorkChoice)
    requires Counted(c, s) && WorkerEnabled(s, j)
    ensures Counted(c, WorkerApply(c, s, j, w))
  {
    StepWorked(c, s, j, w);
    WorkerLeavesLevel(c, s, j, w);
    WorkRecordsNoCancel(c, s.workers[j], Resolved(c.kind, PoolAt(s, j), s.workers[j], w), s.rec.window.counters);
  }

  lemma StartKeepsCounted(c: Config, s: State, ip: nat)
    requires CancelsOk(s) && Timely(s) && ip < |c.program| && c.program[ip].RunLevel? && c.program[ip].n >= 1
    ensures Counted(c, StartLevel(c, s, Level(ip), c.program[ip].n))
  {
    SumConcat(s.gone, s.clients, Cancels);
    SumConstant(seq(c.program[ip].n, _ => Client(Top, 0, 0)), Cancels, 0);
    forall k | k in s.gone + s.clients ensures k.cancelsRecorded <= 1 {
      if k in s.clients {
        var i :| 0 <= i < |s.clients| && s.clients[i] == k;
        assert ClientTimely(s.cancelled, s.clients[i]);
      }
    }
  }

  lemma MoveLeavesLevel(c: Config, s: State, e: MainEffect, elapsed: real)
    requires !e.change.Starts? && !e.change.Resets?
    ensures var s' := MainTo(c, s, e, elapsed);
            s'.gone == s.gone && s'.rec.window == s.rec.window && s'.deadline == s.deadline
  {
    match e.change
    case OnlyMoves =>
    case Measures =>
    case Fails(_) =>
  }

  lemma MainKeepsCounted(c: Config, s: State, elapsed: real)
    requires Counted(c, s) && Timely(s) && MainEnabled(s)
    ensures Counted(c, MainApply(c, s, elapsed))
  {
    var e := MainStepEffect(c.program, s.main, s.cancelled);
    if e.change.Starts? {
      StartKeepsCounted(c, s, s.main.ip);
    } else if !e.change.Resets? {
      MoveLeavesLevel(c, s, e, elapsed);
      MainLeavesPool(c, s, e, elapsed);
      MainClients(c, s, e, elapsed);
    }
  }

  lemma StepKeepsCounted(c: Config, s: State, a: Action)
    requires Timely(s) && Counted(c, s) && Enabled(c, s, a)
    ensures Counted(c, Apply(c, s, a))
  {
    match a
    case ClientStep(i, viaCtx) => ClientKeepsCounted(c, s, i, viaCtx);
    case Rendezvous(i, j) => RendezvousKeepsCounted(c, s, i, j);
    case WorkerStep(j, w) => WorkerKeepsCounted(c, s, j, w);
    case MainStep(elapsed) => MainKeepsCounted(c, s, elapsed);
    case _ =>
  }

  lemma {:induction false} RunKeepsCounted(c: Config, s: State, acts: seq<Action>)
    requires Orderly(c) && Inv(c, s) && Counted(c, s) && Legal(c, s, acts)
    ensures Counted(c, Exec(c, s, acts))
    decreases |acts|
  {
    if acts != [] {
      StepKeepsInv(c, s, acts[0]);
      StepKeepsCounted(c, s, acts[0]);
      RunKeepsCounted(c, Apply(c, s, acts[0]), acts[1..]);
    }
  }

  lemma ReachableCounted(c: Config, s: State)
    requires Orderly(c) && Reachable(c, s)
    ensures Counted(c, s)
  {
    InitInv(c);
    var acts :| Legal(c, Init(c), acts) && Exec(c, Init(c), acts) == s;
    RunKeepsCounted(c, Init(c), acts);
  }

  // ----- how many clients, and when they leave -----

  /** A level starts with its own deadline ahead, all tokens in the buffer and its clients at the top of the loop. */
  lemma LevelStarts(c: Config, s: State, elapsed: real)
    requires s.main.Next? && s.main.ip < |c.program|
    requires c.program[s.main.ip].RunLevel? && c.program[s.main.ip].n >= 1
    ensures var s' := MainApply(c, s, elapsed);
            && s'.main == Level(s.main.ip) && !s'.deadline && s'.tokens == c.workers
            && |s'.clients| == c.program[s.main.ip].n
            && forall i | 0 <= i < |s'.clients| :: s'.clients[i] == Client(Top, 0, 0)
  {
  }

  /** A level that runs, or drains, has as many clients as its instruction says. */
  lemma LevelClients(c: Config, s: State)
    requires Orderly(c) && Reachable(c, s) && (s.main.Level? || s.main.Draining?)
    ensures s.main.ip < |c.program| && c.program[s.main.ip].RunLevel? && |s.clients| == c.program[s.main.ip].n
  {
    ReachableCounted(c, s);
  }

  /** The loop is closed: before the deadline and any cancellation, with the pool open, no client has left it or is on
      its way out. */
  lemma ClosedLoop(c: Config, s: State, i: nat)
    requires Orderly(c) && Reachable(c, s) && i < |s.clients|
    requires !s.cancelled && !s.deadline && !s.closed
    ensures !s.clients[i].pc.ReleaseExit? && !s.clients[i].pc.ClientReturned? && !s.clients[i].pc.Cancelling?
  {
    ReachableCounted(c, s);
    ReachableInv(c, s);
    assert ClientTimely(s.cancelled, s.clients[i]);
  }

  /** A client that has left a level on time, with the pool open, has recorded its cancellation, exactly once. */
  lemma CancelRecorded(c: Config, s: State, i: nat)
    requires Orderly(c) && Reachable(c, s) && i < |s.clients|
    requires s.clients[i].pc.ReleaseExit? || s.clients[i].pc.ClientReturned?
    requires !s.deadline && !s.closed
    ensures s.cancelled && s.clients[i].cancelsRecorded == 1
  {
    ReachableCounted(c, s);
    ReachableInv(c, s);
    assert ClientTimely(s.cancelled, s.clients[i]);
  }

  /** The recorder's count of cancellations is the number of clients, of all levels since the last reset, that have
      recorded one. */
  lemma CanceledCount(c: Config, s: State)
    requires Orderly(c) && Reachable(c, s)
    ensures s.rec.window.counters.canceled == |Marked(s.clients, Cancels)| + |Marked(s.gone, Cancels)|
  {
    ReachableCounted(c, s);
    ReachableInv(c, s);
    forall k | k in s.clients ensures Cancels(k) <= 1 {
      var i :| 0 <= i < |s.clients| && s.clients[i] == k;
      assert ClientTimely(s.cancelled, s.clients[i]);
    }
    SumCountsMarked(s.clients, Cancels);
    SumCountsMarked(s.gone, Cancels);
  }

  /** A level cut short by a cancellation adds one recorded cancellation for each of its clients. */
  lemma CutLevelCounts(c: Config, s: State)
    requires Orderly(c) && Reachable(c, s) && !s.deadline && !s.closed && !s.main.Level?
    ensures s.rec.window.counters.canceled == |s.clients| + |Marked(s.gone, Cancels)|
  {
    CanceledCount(c, s);
    ReachableInv(c, s);
    forall i: nat | i < |s.clients| ensures Cancels(s.clients[i]) == 1 {
      assert s.clients[i].pc.ClientReturned?;
      CancelRecorded(c, s, i);
    }
    forall k | k in s.clients ensures Cancels(k) == 1 {
      var i :| 0 <= i < |s.clients| && s.clients[i] == k;
    }
    SumConstant(s.clients, Cancels, 1);
    SumCountsMarked(s.clients, Cancels);
  }

  // ----- what a cancellation does to the levels after -----

  // The driver runs level ip, or is past it and will start no other.
  predicate Stopping(p: seq<Instr>, main: MainPc, ip: nat) {
    match main
    case Level(k) => k == ip
    case Draining(k) => k == ip
    case Next(k, _) => k == ip + 1 || k >= |p| - 1
    case MainReturned(_) => true
  }

  lemma StepKeepsStopping(c: Config, s: State, a: Action, ip: nat)
    requires Checked(c.program) && ip < |c.program| && c.program[ip].RunLevel?
    requires Enabled(c, s, a) && s.cancelled && Stopping(c.program, s.main, ip)
    ensures Apply(c, s, a).cancelled && Stopping(c.program, Apply(c, s, a).main, ip)
  {
    if a.MainStep? {
      MainClients(c, s, MainStepEffect(c.program, s.main, true), a.elapsed);
      CancelStays(c, s, MainStepEffect(c.program, s.main, true), a.elapsed);
    }
  }

  lemma CancelStays(c: Config, s: State, e: MainEffect, elapsed: real)
    ensures MainTo(c, s, e, elapsed).cancelled == s.cancelled
  {
  }

  /** Once cancelled, the driver starts no level after the one it is in. */
  lemma {:induction false} CancelEndsLevels(c: Config, s: State, acts: seq<Action>, ip: nat)
    requires Checked(c.program) && ip < |c.program| && c.program[ip].RunLevel?
    requires Legal(c, s, acts) && s.cancelled && Stopping(c.program, s.main, ip)
    ensures var end := Exec(c, s, acts).main; end.Level? || end.Draining? ==> end.ip == ip
    decreases |acts|
  {
    if acts != [] {
      StepKeepsStopping(c, s, acts[0], ip);
      CancelEndsLevels(c, Apply(c, s, acts[0]), acts[1..], ip);
    }
  }

  /** In every mode: once the run is cancelled inside a level, the driver starts no other. */
  lemma CancelledModeStops(c: Config, s: State, acts: seq<Action>, mode: Mode, concurrency: int, warmup: bool)
    requires Orderly(c) && Reachable(c, s) && s.cancelled && (s.main.Level? || s.main.Draining?) && Legal(c, s, acts)
    requires !mode.UnknownMode? && c.program == Program(mode, concurrency, warmup).value
    ensures var end := Exec(c, s, acts).main; end.Level? || end.Draining? ==> end.ip == s.main.ip
  {
    ModeChecked(mode, concurrency, warmup);
    LevelClients(c, s);
    CancelEndsLevels(c, s, acts, s.main.ip);
  }

  /** In fixed, steady and spike modes every level that runs has as many clients as the concurrency asks for. */
  lemma FixedClients(c: Config, s: State, mode: Mode, concurrency: int, warmup: bool)
    requires Orderly(c) && Reachable(c, s) && (s.main.Level? || s.main.Draining?)
    requires mode.Fixed? || mode.Steady? || mode.Spike?
    requires c.program == Program(mode, concurrency, warmup).value
    ensures |s.clients| == concurrency
  {
    OneLevelModes(mode, concurrency, warmup);
    LevelClients(c, s);
  }

  /** In ramp and step modes it has as many clients as one of the listed levels within the maximum, the one its
      instruction stands for. */
  lemma LadderClients(c: Config, s: State, mode: Mode, max: int, warmup: bool)
    returns (levels: seq<int>, m: nat, k: nat)
    requires Orderly(c) && Reachable(c, s) && (s.main.Level? || s.main.Draining?)
    requires mode.Ramp? || mode.Stepped?
    requires c.program == Program(mode, max, warmup).value
    ensures Listed(levels, max, m) && k < |levels| && |s.clients| == levels[k]
    ensures s.main.ip == 2 * k || (warmup && s.main.ip == 2 * |levels| + 2 + 2 * k)
  {
    levels, m := LadderModes(mode, max, warmup);
    LevelClients(c, s);
    k := LadderPlace(c.program, levels, warmup, s.main.ip);
  }

  lemma LadderPlace(p: seq<Instr>, levels: seq<int>, warmup: bool, ip: nat) returns (k: nat)
    requires Ladder(p, levels, warmup) && ip < |p| && p[ip].RunLevel?
    ensures k < |levels| && p[ip].n == levels[k]
    ensures ip == 2 * k || (warmup && ip == 2 * |levels| + 2 + 2 * k)
  {
    var n := 2 * |levels|;
    var at := if warmup then n + 2 else 0;
    if ip >= at {
      k := LevelPlace(p, at, levels, false, ip);
    } else {
      k := LevelPlace(p, 0, levels, true, ip);
    }
  }

  lemma LevelPlace(p: seq<Instr>, at: nat, levels: seq<int>, warm: bool, ip: nat) returns (k: nat)
    requires RunsLevels(p, at, levels, warm) && at <= ip < at + 2 * |levels| && p[ip].RunLevel?
    ensures k < |levels| && ip == at + 2 * k && p[ip].n == levels[k]
  {
    k := (ip - at) / 2;
    assert p[at + 2 * k] == RunLevel(levels[k], warm) && p[at + 2 * k + 1] == CheckCtx(warm);
  }
}
