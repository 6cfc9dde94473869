/** When the driver records the measured time (internal/scheduler/driver.go, runWithWarmup). */
module Timing {
  import opened Counting
  import opened Metrics
  import opened Protocol
  import opened Invariant
  import opened Driver
  import opened Levels

  // The measured time is recorded by the last instruction and by no other.
  predicate TimedLast(p: seq<Instr>) {
    p != [] && forall k | 0 <= k < |p| :: p[k].SetElapsed? <==> k == |p| - 1
  }

  /** The instruction belongs to the warmup. */
  predicate Warm(i: Instr) { (i.RunLevel? || i.CheckCtx?) && i.warm }

  // Where the driver is, and whether the measured time has been recorded by then.
  predicate Timed(p: seq<Instr>, main: MainPc, failedAt: Option<nat>, timed: bool) {
    match main
    case Level(ip) => ip + 1 < |p| && failedAt.None? && !timed
    case Draining(ip) => ip + 1 < |p| && failedAt.None? && !timed
    case Next(ip, _) =>
      if failedAt.None? then ip <= |p| && (timed <==> ip == |p|)
      else
        && failedAt.value < |p| && (timed ==> ip == |p|)
        && if Warm(p[failedAt.value]) then ip == |p| && !timed else ip == |p| - 1 || (ip == |p| && timed)
    case MainReturned(_) =>
      if failedAt.None? then timed else failedAt.value < |p| && (timed <==> !Warm(p[failedAt.value]))
  }

  predicate Recorded(s: State) {
    s.rec.measurementElapsed == if s.timed.Some? then s.timed.value else 0.0
  }

  ghost predicate Kept(c: Config, s: State) {
    Timed(c.program, s.main, s.failedAt, s.timed.Some?) && Recorded(s)
  }

  // ----- kept by every step -----

  lemma EffectKeepsTimed(p: seq<Instr>, main: MainPc, cancelled: bool, failedAt: Option<nat>, timed: bool)
    requires TimedLast(p) && Timed(p, main, failedAt, timed) && !main.MainReturned?
    ensures var e := MainStepEffect(p, main, cancelled);
            Timed(p, e.main, if e.change.Fails? then Some(e.change.ip) else failedAt, timed || e.change.Measures?)
  {
    match main
    case Level(_) =>
    case Draining(_) =>
    case Next(ip, _) =>
      if ip < |p| {
        match p[ip]
        case RunLevel(_, _) =>
        case CheckCtx(_) =>
        case ResetRecorder =>
        case SetElapsed =>
      }
  }

  lemma MainTimes(c: Config, s: State, e: MainEffect, elapsed: real)
    ensures var s' := MainTo(c, s, e, elapsed);
            && s'.main == e.main && s'.failedAt == (if e.change.Fails? then Some(e.change.ip) else s.failedAt)
            && s'.timed == (if e.change.Measures? then Some(elapsed) else s.timed)
            && s'.rec.measurementElapsed == if e.change.Measures? then elapsed else s.rec.measurementElapsed
  {
    match e.change
    case OnlyMoves =>
    case Starts(_) =>
    case Resets =>
    case Measures =>
    case Fails(_) =>
  }

  lemma OthersLeaveTime(c: Config, s: State, a: Action)
    requires Enabled(c, s, a) && !a.MainStep?
    ensures var s' := Apply(c, s, a);
            s'.main == s.main && s'.failedAt == s.failedAt && s'.timed == s.timed
            && s'.rec.measurementElapsed == s.rec.measurementElapsed
  {
    match a
    case WorkerStep(j, w) => WorkerLeavesLevel(c, s, j, w);
    case ClientStep(i, viaCtx) =>
    case Rendezvous(i, j) =>
    case _ =>
  }

  lemma StepKeepsTime(c: Config, s: State, a: Action)
    requires TimedLast(c.program) && Kept(c, s) && Enabled(c, s, a)
    ensures Kept(c, Apply(c, s, a))
  {
    if a.MainStep? {
      EffectKeepsTimed(c.program, s.main, s.cancelled, s.failedAt, s.timed.Some?);
      MainTimes(c, s, MainStepEffect(c.program, s.main, s.cancelled), a.elapsed);
    } else {
      OthersLeaveTime(c, s, a);
    }
  }

  lemma {:induction false} RunKeepsTime(c: Config, s: State, acts: seq<Action>)
    requires TimedLast(c.program) && Kept(c, s) && Legal(c, s, acts)
    ensures Kept(c, Exec(c, s, acts))
    decreases |acts|
  {
    if acts != [] {
      StepKeepsTime(c, s, acts[0]);
      RunKeepsTime(c, Apply(c, s, acts[0]), acts[1..]);
    }
  }

  // ----- when it is recorded -----

  /** The step at the last instruction records the time that has passed, as given. */
  lemma LastStepTimes(c: Config, s: State, elapsed: real)
    requires TimedLast(c.program) && s.main.Next? && s.main.ip == |c.program| - 1
    ensures var s' := MainApply(c, s, elapsed); s'.timed == Some(elapsed) && s'.rec.measurementElapsed == elapsed
  {
    MainTimes(c, s, MainStepEffect(c.program, s.main, s.cancelled), elapsed);
  }

  /** In every mode, when the driver has returned: the measured time is recorded if and only if the run did not fail in
      the warmup, whether or not it failed later. */
  lemma MeasuredTime(c: Config, s: State, mode: Mode, concurrency: int, warmup: bool)
    requires Reachable(c, s) && s.main.MainReturned?
    requires !mode.UnknownMode? && c.program == Program(mode, concurrency, warmup).value
    ensures s.failedAt.Some? ==> s.failedAt.value < |c.program|
    ensures s.timed.Some? <==> s.failedAt.None? || !Warm(c.program[s.failedAt.value])
    ensures s.rec.measurementElapsed == if s.timed.Some? then s.timed.value else 0.0
  {
    ResetSeparates(mode, concurrency, warmup);
    LevelsOfMode(mode, concurrency, warmup);
    var acts :| Legal(c, Init(c), acts) && Exec(c, Init(c), acts) == s;
    RunKeepsTime(c, Init(c), acts);
  }
}
