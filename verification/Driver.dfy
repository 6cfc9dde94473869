/** The experiment modes (internal/scheduler/driver.go): which levels the driver runs, and where the
    recorder is reset. */
module Driver {
  import opened Counting
  import opened Protocol
  import opened EarlyClose
  import opened Schedules

  datatype Mode = Fixed | Steady | Ramp | Stepped | Spike | UnknownMode

  const LEVELS: seq<int> := [1, 5, 10, 25, 50, 100, 250, 500, 750, 1000]

  ghost predicate Ascending(xs: seq<int>) {
    forall i, j | 0 <= i < j < |xs| :: xs[i] <= xs[j]
  }

  // The elements that do not exceed max, in order.
  function UpTo(xs: seq<int>, max: int): seq<int> {
    if xs == [] then [] else (if xs[0] <= max then [xs[0]] else []) + UpTo(xs[1..], max)
  }

  lemma {:induction false} UpToSnoc(xs: seq<int>, x: int, max: int)
    ensures UpTo(xs + [x], max) == UpTo(xs, max) + if x <= max then [x] else []
  {
    if xs == [] {
      assert xs + [x] == [x];
    } else {
      assert (xs + [x])[1..] == xs[1..] + [x] && (xs + [x])[0] == xs[0];
      UpToSnoc(xs[1..], x, max);
      var first, last := if xs[0] <= max then [xs[0]] else [], if x <= max then [x] else [];
      assert first + (UpTo(xs[1..], max) + last) == first + UpTo(xs[1..], max) + last;
    }
  }

  lemma {:induction false} UpToCuts(xs: seq<int>, k: nat, max: int)
    requires k < |xs| && Ascending(xs) && xs[k] > max
    ensures UpTo(xs, max) == UpTo(xs[..k], max)
    decreases |xs|
  {
    var last := |xs| - 1;
    assert xs == xs[..last] + [xs[last]];
    UpToSnoc(xs[..last], xs[last], max);
    if k < last {
      assert xs[..last][..k] == xs[..k];
      UpToCuts(xs[..last], k, max);
    }
  }

  function LevelsUpTo(max: int): seq<int> {
    if UpTo(LEVELS, max) == [] then [1] else UpTo(LEVELS, max)
  }

  /** The loop that stops at the first level above max collects every level within max. */
  method RampLevels(max: int) returns (out: seq<int>)
    ensures out == LevelsUpTo(max)
  {
    out := [];
    var all := LEVELS;
    var k := 0;
    while k < |all|
      invariant 0 <= k <= |all| && out == UpTo(all[..k], max)
    {
      if all[k] > max {
        UpToCuts(all, k, max);
        break;
      }
      UpToSnoc(all[..k], all[k], max);
      assert all[..k + 1] == all[..k] + [all[k]];
      out := out + [all[k]];
      k := k + 1;
    }
    assert k == |all| ==> all[..k] == all;
    if |out| == 0 {
      out := [1];
    }
  }

  // runRamp and runStep: every level, then a check of the context.
  function LevelSteps(levels: seq<int>, warm: bool): seq<Instr> {
    if levels == [] then [] else [RunLevel(levels[0], warm), CheckCtx(warm)] + LevelSteps(levels[1..], warm)
  }

  function Body(mode: Mode, concurrency: int, warm: bool): seq<Instr> {
    match mode
    case Ramp => LevelSteps(LevelsUpTo(concurrency), warm)
    case Stepped => LevelSteps(LevelsUpTo(concurrency), warm)
    case _ => [RunLevel(concurrency, warm)]
  }

  /** Driver.Run with runWithWarmup; an unknown mode is an error before anything runs. */
  function Program(mode: Mode, concurrency: int, warmup: bool): Option<seq<Instr>> {
    if mode.UnknownMode? then None
    else
      Some((if warmup then Body(mode, concurrency, true) + [CheckCtx(true), ResetRecorder] else [])
           + Body(mode, concurrency, false) + [SetElapsed])
  }

  predicate PhaseInstr(i: Instr, warm: bool) {
    (i.RunLevel? && i.warm == warm) || (i.CheckCtx? && i.warm == warm)
  }

  lemma {:induction false} LevelStepsPhase(levels: seq<int>, warm: bool)
    ensures forall k | 0 <= k < |LevelSteps(levels, warm)| :: PhaseInstr(LevelSteps(levels, warm)[k], warm)
  {
    if levels != [] {
      LevelStepsPhase(levels[1..], warm);
    }
  }

  lemma BodyPhase(mode: Mode, concurrency: int, warm: bool)
    ensures var b := Body(mode, concurrency, warm);
            |b| >= 1 && b[0].RunLevel? && forall k | 0 <= k < |b| :: PhaseInstr(b[k], warm)
  {
    if mode.Ramp? || mode.Stepped? {
      LevelStepsPhase(LevelsUpTo(concurrency), warm);
    }
  }

  /** In every mode the recorder is reset exactly once if there is a warmup and never otherwise; every level
      before the reset belongs to the warmup, and every level after it to the measurement. */
  lemma ResetSeparates(mode: Mode, concurrency: int, warmup: bool)
    requires !mode.UnknownMode?
    ensures var p := Program(mode, concurrency, warmup).value;
            var boundary := if warmup then |Body(mode, concurrency, true)| + 1 else -1;
            && (forall k | 0 <= k < |p| :: p[k].ResetRecorder? <==> k == boundary)
            && (forall k | 0 <= k < |p| && (p[k].RunLevel? || p[k].CheckCtx?) :: p[k].warm <==> k < boundary)
            && (forall k | 0 <= k < |p| :: p[k].SetElapsed? <==> k == |p| - 1)
  {
    BodyPhase(mode, concurrency, true);
    BodyPhase(mode, concurrency, false);
  }

  /** Whether a run starts any client: ramp and step modes run level 1 even below concurrency 1. */
  predicate StartsClient(mode: Mode, concurrency: int) { mode.Ramp? || mode.Stepped? || concurrency >= 1 }

  // Where the levels of a program are, and how many clients they have.
  lemma LevelsOfMode(mode: Mode, concurrency: int, warmup: bool)
    requires !mode.UnknownMode?
    ensures var p := Program(mode, concurrency, warmup).value;
            && |p| >= 2 && p[0].RunLevel? && p[|p| - 1].SetElapsed?
            && (warmup ==> p[1] == CheckCtx(true) && p[0].warm)
            && (StartsClient(mode, concurrency) ==> forall k | 0 <= k < |p| && p[k].RunLevel? :: p[k].n >= 1)
            && (!StartsClient(mode, concurrency) ==> forall k | 0 <= k < |p| && p[k].RunLevel? :: p[k].n < 1)
  {
    BodyLevels(mode, concurrency, true);
    BodyLevels(mode, concurrency, false);
  }

  lemma BodyLevels(mode: Mode, concurrency: int, warm: bool)
    ensures var b := Body(mode, concurrency, warm);
            && |b| >= 1 && b[0].RunLevel? && b[0].warm == warm && (|b| > 1 ==> b[1] == CheckCtx(warm))
            && forall k | 0 <= k < |b| && b[k].RunLevel? :: b[k].n >= 1 <==> StartsClient(mode, concurrency)
  {
    if mode.Ramp? || mode.Stepped? {
      UpToPositive(LEVELS, concurrency);
      LevelStepsPositive(LevelsUpTo(concurrency), warm);
    }
  }

  lemma {:induction false} LevelStepsPositive(levels: seq<int>, warm: bool)
    requires forall x :: x in levels ==> x >= 1
    ensures forall k | 0 <= k < |LevelSteps(levels, warm)| && LevelSteps(levels, warm)[k].RunLevel? ::
              LevelSteps(levels, warm)[k].n >= 1
  {
    if levels != [] {
      assert levels[0] in levels;
      assert forall x :: x in levels[1..] ==> x in levels;
      LevelStepsPositive(levels[1..], warm);
    }
  }

  // ----- what each mode runs, instruction by instruction -----

  /** The levels that are listed, in ascending order. */
  lemma ListedLevels()
    ensures LEVELS == [1, 5, 10, 25, 50, 100, 250, 500, 750, 1000] && Ascending(LEVELS)
  {
  }

  // xs is the listed levels within max, m of them; none means level 1 alone.
  ghost predicate Listed(xs: seq<int>, max: int, m: nat) {
    && m <= |LEVELS| && (forall k | 0 <= k < |LEVELS| :: LEVELS[k] <= max <==> k < m)
    && xs == if m == 0 then [1] else LEVELS[..m]
  }

  lemma {:induction false} UpToIsPrefix(xs: seq<int>, max: int) returns (m: nat)
    requires Ascending(xs)
    ensures m <= |xs| && UpTo(xs, max) == xs[..m] && forall k | 0 <= k < |xs| :: xs[k] <= max <==> k < m
  {
    if xs == [] {
      m := 0;
    } else if xs[0] <= max {
      var rest := UpToIsPrefix(xs[1..], max);
      m := rest + 1;
      assert xs[..m] == [xs[0]] + xs[1..][..rest];
      forall k | 0 <= k < |xs| ensures xs[k] <= max <==> k < m {
        assert k > 0 ==> xs[k] == xs[1..][k - 1];
      }
    } else {
      m := 0;
      UpToCuts(xs, 0, max);
    }
  }

  /** RampLevels returns the listed levels within max, in order, or level 1 alone when none is. */
  lemma LevelsAreListed(max: int) returns (m: nat)
    ensures Listed(LevelsUpTo(max), max, m)
  {
    ListedLevels();
    m := LongestPrefix(LEVELS, max);
  }

  // The same of any ascending list, with level 1 for none.
  lemma LongestPrefix(xs: seq<int>, max: int) returns (m: nat)
    requires Ascending(xs)
    ensures m <= |xs| && forall k | 0 <= k < |xs| :: xs[k] <= max <==> k < m
    ensures (if UpTo(xs, max) == [] then [1] else UpTo(xs, max)) == if m == 0 then [1] else xs[..m]
  {
    m := UpToIsPrefix(xs, max);
    assert |xs[..m]| == m;
  }

  // From position at on, the program runs these levels, each followed by its check.
  predicate RunsLevels(p: seq<Instr>, at: nat, levels: seq<int>, warm: bool) {
    && at + 2 * |levels| <= |p|
    && forall k | 0 <= k < |levels| ::
         p[at + 2 * k] == RunLevel(levels[k], warm) && p[at + 2 * k + 1] == CheckCtx(warm)
  }

  /** The program of these levels, each followed by a check of the context: once more before them if there is a warmup,
      with one further check and the reset in between, and the measured time last. */
  ghost predicate Ladder(p: seq<Instr>, levels: seq<int>, warmup: bool) {
    var n := 2 * |levels|;
    var at := if warmup then n + 2 else 0;
    && |p| == at + n + 1 && p[|p| - 1] == SetElapsed
    && RunsLevels(p, at, levels, false)
    && (warmup ==> RunsLevels(p, 0, levels, true) && p[n] == CheckCtx(true) && p[n + 1] == ResetRecorder)
  }

  lemma {:induction false} LevelStepsRun(levels: seq<int>, warm: bool)
    ensures |LevelSteps(levels, warm)| == 2 * |levels| && RunsLevels(LevelSteps(levels, warm), 0, levels, warm)
  {
    if levels != [] {
      var rest := LevelSteps(levels[1..], warm);
      LevelStepsRun(levels[1..], warm);
      forall k | 0 <= k < |levels|
        ensures LevelSteps(levels, warm)[2 * k] == RunLevel(levels[k], warm)
        ensures LevelSteps(levels, warm)[2 * k + 1] == CheckCtx(warm)
      {
        if k > 0 {
          assert rest[0 + 2 * (k - 1)] == RunLevel(levels[1..][k - 1], warm);
          assert rest[0 + 2 * (k - 1) + 1] == CheckCtx(warm);
        }
      }
    }
  }

  lemma RunsShifted(p: seq<Instr>, a: seq<Instr>, z: seq<Instr>, levels: seq<int>, warm: bool)
    requires RunsLevels(p, 0, levels, warm)
    ensures RunsLevels(a + p + z, |a|, levels, warm)
  {
    forall k | 0 <= k < |levels|
      ensures (a + p + z)[|a| + 2 * k] == RunLevel(levels[k], warm)
      ensures (a + p + z)[|a| + 2 * k + 1] == CheckCtx(warm)
    {
      assert p[0 + 2 * k] == RunLevel(levels[k], warm) && p[0 + 2 * k + 1] == CheckCtx(warm);
    }
  }

  /** Fixed, steady and spike modes: each phase has one level, of as many clients as the concurrency. */
  lemma OneLevelModes(mode: Mode, concurrency: int, warmup: bool)
    requires mode.Fixed? || mode.Steady? || mode.Spike?
    ensures Program(mode, concurrency, warmup).Some?
    ensures Program(mode, concurrency, warmup).value
         == if warmup then
              [RunLevel(concurrency, true), CheckCtx(true), ResetRecorder, RunLevel(concurrency, false), SetElapsed]
            else [RunLevel(concurrency, false), SetElapsed]
  {
    var warm, rest := RunLevel(concurrency, true), RunLevel(concurrency, false);
    assert [warm] + [CheckCtx(true), ResetRecorder] + [rest] + [SetElapsed]
        == [warm, CheckCtx(true), ResetRecorder, rest, SetElapsed];
    assert [] + [rest] + [SetElapsed] == [rest, SetElapsed];
  }

  // Where the parts of a program with a warmup are.
  lemma LadderEnds(warm: seq<Instr>, rest: seq<Instr>)
    requires |warm| == |rest|
    ensures var p, n := warm + [CheckCtx(true), ResetRecorder] + rest + [SetElapsed], |warm|;
            |p| == n + 2 + n + 1 && p[|p| - 1] == SetElapsed && p[n] == CheckCtx(true) && p[n + 1] == ResetRecorder
  {
  }

  lemma LadderWarms(warm: seq<Instr>, rest: seq<Instr>, levels: seq<int>)
    requires RunsLevels(warm, 0, levels, true)
    ensures RunsLevels(warm + [CheckCtx(true), ResetRecorder] + rest + [SetElapsed], 0, levels, true)
  {
    var between := [CheckCtx(true), ResetRecorder];
    RunsShifted(warm, [], between + rest + [SetElapsed], levels, true);
    assert warm + between + rest + [SetElapsed] == [] + warm + (between + rest + [SetElapsed]);
  }

  lemma LadderMeasures(warm: seq<Instr>, rest: seq<Instr>, levels: seq<int>)
    requires RunsLevels(rest, 0, levels, false)
    ensures RunsLevels(warm + [CheckCtx(true), ResetRecorder] + rest + [SetElapsed], |warm| + 2, levels, false)
  {
    RunsShifted(rest, warm + [CheckCtx(true), ResetRecorder], [SetElapsed], levels, false);
  }

  lemma WarmLadder(levels: seq<int>)
    ensures var p := LevelSteps(levels, true) + [CheckCtx(true), ResetRecorder] + LevelSteps(levels, false)
                     + [SetElapsed];
            Ladder(p, levels, true)
  {
    var warm, rest := LevelSteps(levels, true), LevelSteps(levels, false);
    LevelStepsRun(levels, true);
    LevelStepsRun(levels, false);
    LadderEnds(warm, rest);
    LadderWarms(warm, rest, levels);
    LadderMeasures(warm, rest, levels);
  }

  lemma PlainLadder(levels: seq<int>)
    ensures Ladder(LevelSteps(levels, false) + [SetElapsed], levels, false)
  {
    LevelStepsRun(levels, false);
    assert LevelSteps(levels, false) + [SetElapsed] == [] + LevelSteps(levels, false) + [SetElapsed];
    RunsShifted(LevelSteps(levels, false), [], [SetElapsed], levels, false);
  }

  /** Ramp and step modes run the listed levels within the maximum, in order, or level 1 alone when none is. */
  lemma LadderModes(mode: Mode, max: int, warmup: bool) returns (levels: seq<int>, m: nat)
    requires mode.Ramp? || mode.Stepped?
    ensures Listed(levels, max, m) && Program(mode, max, warmup).Some?
    ensures Ladder(Program(mode, max, warmup).value, levels, warmup)
  {
    levels := LevelsUpTo(max);
    m := LevelsAreListed(max);
    ProgramOfLevels(mode, max, warmup);
  }

  lemma ProgramOfLevels(mode: Mode, max: int, warmup: bool)
    requires mode.Ramp? || mode.Stepped?
    ensures Program(mode, max, warmup).Some?
    ensures Ladder(Program(mode, max, warmup).value, LevelsUpTo(max), warmup)
  {
    var levels := LevelsUpTo(max);
    assert Body(mode, max, true) == LevelSteps(levels, true) && Body(mode, max, false) == LevelSteps(levels, false);
    if warmup {
      WarmLadder(levels);
    } else {
      PlainLadder(levels);
      assert [] + LevelSteps(levels, false) == LevelSteps(levels, false);
    }
  }

  /** Every level of the program is followed by a check of the context or by the end. */
  predicate Checked(p: seq<Instr>) {
    && p != [] && p[|p| - 1].SetElapsed?
    && forall k | 0 <= k < |p| && p[k].RunLevel? :: k + 1 < |p| && (p[k + 1].CheckCtx? || k + 1 == |p| - 1)
  }

  lemma CheckFollows(p: seq<Instr>, at: nat, levels: seq<int>, warm: bool, k: nat)
    requires RunsLevels(p, at, levels, warm) && at <= k < at + 2 * |levels| && p[k].RunLevel?
    ensures k + 1 < |p| && p[k + 1].CheckCtx?
  {
    var j := (k - at) / 2;
    assert p[at + 2 * j] == RunLevel(levels[j], warm) && p[at + 2 * j + 1] == CheckCtx(warm);
  }

  lemma LadderChecked(p: seq<Instr>, levels: seq<int>, warmup: bool)
    requires Ladder(p, levels, warmup)
    ensures Checked(p)
  {
    var n := 2 * |levels|;
    var at := if warmup then n + 2 else 0;
    forall k | 0 <= k < |p| && p[k].RunLevel? ensures k + 1 < |p| && (p[k + 1].CheckCtx? || k + 1 == |p| - 1) {
      if k >= at {
        CheckFollows(p, at, levels, false, k);
      } else {
        CheckFollows(p, 0, levels, true, k);
      }
    }
  }

  lemma ModeChecked(mode: Mode, concurrency: int, warmup: bool)
    requires !mode.UnknownMode?
    ensures Checked(Program(mode, concurrency, warmup).value)
  {
    if mode.Ramp? || mode.Stepped? {
      var levels, m := LadderModes(mode, concurrency, warmup);
      LadderChecked(Program(mode, concurrency, warmup).value, levels, warmup);
    } else {
      OneLevelModes(mode, concurrency, warmup);
    }
  }

  /** In every mode and at every concurrency: no schedule panics if and only if Close waits for the driver, or the
      run starts no client at all. */
  lemma EveryModeNeedsOrderlyClose(c: Config, mode: Mode, concurrency: int, warmup: bool)
    requires ValidConfig(c) && !mode.UnknownMode?
    requires c.program == Program(mode, concurrency, warmup).value
    ensures (forall s :: Reachable(c, s) ==> !s.panicked) <==> !c.earlyClose || !StartsClient(mode, concurrency)
  {
    LevelsOfMode(mode, concurrency, warmup);
    if StartsClient(mode, concurrency) {
      CloseSafeIffAfterDriver(c);
    } else {
      forall s | Reachable(c, s) ensures !s.panicked {
        NoLevelsNoPanic(c, s);
      }
    }
  }

  lemma {:induction false} UpToPositive(xs: seq<int>, max: int)
    requires forall x :: x in xs ==> x >= 1
    ensures forall x :: x in UpTo(xs, max) ==> x >= 1
  {
    if xs != [] {
      assert forall x :: x in xs[1..] ==> x in xs;
      UpToPositive(xs[1..], max);
      assert xs[0] in xs;
    }
  }
}
