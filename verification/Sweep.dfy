/** The scenario x concurrency x repetitions sweep with its adaptive memory stop (cmd/bench/commands.go). */
module Sweep {
  import opened Counting
  import opened ProcessTree
  import opened Quotients
  import Percentiles
  import Summaries

  /** What a cell's run reports. */
  datatype Cell = Cell(
    peakRam: nat, failed: nat, total: nat, p50: real, p95: real, p99: real, cpu: real, avgRam: nat,
    rssMean: real, rssP95: real, throughput: real)

  /** Sums of reported figures over repetitions, and then their averages. */
  datatype Averages = Averages(
    failed: nat, total: nat, p50: real, p95: real, p99: real, cpu: real, avgRam: nat, rssMean: real)

  const NO_SUMS := Averages(0, 0, 0.0, 0.0, 0.0, 0.0, 0, 0.0)

  function Accumulate(a: Averages, c: Cell): Averages {
    Averages(a.failed + c.failed, a.total + c.total, a.p50 + c.p50, a.p95 + c.p95, a.p99 + c.p99, a.cpu + c.cpu,
             Wrap(a.avgRam + c.avgRam), a.rssMean + c.rssMean)
  }

  // Division by the number of repetitions.
  function Over(x: real, n: nat): (q: real)
    requires n > 0
    ensures q * n as real == x
  {
    x / n as real
  }

  function Averaged(a: Averages, n: nat): Averages
    requires n > 0
  {
    Averages(Quotient(a.failed, n), Quotient(a.total, n), Over(a.p50, n), Over(a.p95, n), Over(a.p99, n),
             Over(a.cpu, n), Quotient(a.avgRam, n), Over(a.rssMean, n))
  }

  datatype Thresholds = Thresholds(cpuMax: real, p95Factor: real, p99Factor: real, failureRateMax: real)

  function FailureRate(failed: nat, total: nat): real { if total == 0 then 0.0 else failed as real / total as real }

  // Which thresholds a run exceeds, against the baseline (internal/saturation/saturation.go).
  function Violations(c: Cell, base: Averages, t: Thresholds): seq<string> {
    (if t.cpuMax > 0.0 && c.cpu > t.cpuMax then ["cpu"] else [])
    + (if t.p95Factor > 0.0 && base.p95 > 0.0 && c.p95 > t.p95Factor * base.p95 then ["p95"] else [])
    + (if t.p99Factor > 0.0 && base.p99 > 0.0 && c.p99 > t.p99Factor * base.p99 then ["p99"] else [])
    + if t.failureRateMax > 0.0 && FailureRate(c.failed, c.total) > t.failureRateMax then ["failure_rate"] else []
  }

  lemma RateOver(failed: nat, total: nat, max: real)
    requires max > 0.0
    ensures FailureRate(failed, total) > max <==> total > 0 && failed as real > max * total as real
  {
    if total > 0 {
      var rate := FailureRate(failed, total);
      assert rate * total as real == failed as real;
      if rate > max {
        assert (rate - max) * total as real > 0.0;
      } else {
        assert (max - rate) * total as real >= 0.0;
      }
    }
  }

  /** A run is charged with a violation exactly when it is over that threshold, each set above 0: its load, its two high
      percentiles against the baseline's times a factor, the share of its tasks that failed. */
  lemma ViolationsIff(c: Cell, base: Averages, t: Thresholds)
    ensures var v := Violations(c, base, t);
            && ("cpu" in v <==> t.cpuMax > 0.0 && c.cpu > t.cpuMax)
            && ("p95" in v <==> t.p95Factor > 0.0 && base.p95 > 0.0 && c.p95 > t.p95Factor * base.p95)
            && ("p99" in v <==> t.p99Factor > 0.0 && base.p99 > 0.0 && c.p99 > t.p99Factor * base.p99)
            && ("failure_rate" in v <==>
                  t.failureRateMax > 0.0 && c.total > 0 && c.failed as real > t.failureRateMax * c.total as real)
            && forall x | x in v :: x in {"cpu", "p95", "p99", "failure_rate"}
  {
    if t.failureRateMax > 0.0 {
      RateOver(c.failed, c.total, t.failureRateMax);
    }
    assert |"cpu"| == |"p95"| == |"p99"| == 3 && |"failure_rate"| == 12;
    assert "cpu"[0] == 'c' && "p95"[2] == '5' && "p99"[2] == '9' && "p95"[0] == "p99"[0] == 'p';
  }

  /** What a run's resource summary, read back from its file, puts into its row. */
  datatype Resource = Resource(
    browserRssMean: real, browserRssP95: real, benchmarkCpu: real, browserCpu: real,
    processMean: real, processPeak: real, browserProcessMean: real, browserProcessPeak: real)

  /** A row of the sweep. One is saturated when it has violations. */
  datatype Row =
    | Baseline(scenario: string, concurrency: int, averages: Averages)
    | Ran(scenario: string, concurrency: int, rep: nat, cell: Cell, violations: seq<string>, resource: Resource)
    | NotRun(scenario: string, concurrency: int)

  datatype Outcome = Rows(rows: seq<Row>) | BadLevel(text: string) | CellFailed | DividedByZero

  /** A level's number, and whether its text parses; the number is what the parser leaves behind either way. */
  datatype Parsed = Parsed(value: int, ok: bool)

  /** The command's arguments with the two foreign calls: number parsing, and the run of one cell (scenario and
      level by position, repetition from 1), which may fail. maxRssGb 0 turns the memory stop off. */
  datatype Plan = Plan(
    scenarios: seq<string>,
    levels: seq<string>,
    reps: int,
    maxRssGb: real,
    thresholds: Thresholds,
    parse: string -> Parsed,
    run: (nat, nat, nat) -> Option<Cell>,
    resource: (nat, nat, nat) -> Resource)

  const GIB: real := 1073741824.0

  /** Neither list is empty: the configured scenario and ten default levels stand in for missing arguments. */
  predicate Usable(p: Plan) { p.scenarios != [] && p.levels != [] }

  // ----- positions -----

  function FirstOf(levels: seq<string>, s: string): (k: nat)
    requires s in levels
    ensures k < |levels| && levels[k] == s
    ensures forall j | 0 <= j < k :: levels[j] != s
  {
    if levels[0] == s then 0 else 1 + FirstOf(levels[1..], s)
  }

  method LevelIdx(levels: seq<string>, s: string) returns (k: int)
    ensures s in levels ==> k == FirstOf(levels, s)
    ensures s !in levels ==> k == |levels| - 1
  {
    var i := 0;
    while i < |levels|
      invariant 0 <= i <= |levels| && s !in levels[..i]
    {
      if levels[i] == s {
        return i;
      }
      i := i + 1;
    }
    return |levels| - 1;
  }

  // ----- what a complete run of one scenario means -----

  function Level(p: Plan, li: nat): int
    requires li < |p.levels|
  {
    p.parse(p.levels[li]).value
  }

  predicate Parses(p: Plan, li: nat)
    requires li < |p.levels|
  {
    p.parse(p.levels[li]).ok
  }

  predicate RepsRun(p: Plan, si: nat, li: nat, upTo: nat) {
    forall r: nat | 1 <= r <= upTo :: p.run(si, li, r).Some?
  }

  function Reps(p: Plan): nat { if p.reps < 0 then 0 else p.reps }

  predicate AllRepsRun(p: Plan, si: nat, li: nat) { RepsRun(p, si, li, Reps(p)) }

  // The largest peak among a level's first upTo repetitions.
  function Peak(p: Plan, si: nat, li: nat, upTo: nat): nat {
    if upTo == 0 then 0
    else
      var before := Peak(p, si, li, upTo - 1);
      match p.run(si, li, upTo)
      case Some(c) => if c.peakRam > before then c.peakRam else before
      case None => before
  }

  predicate Exceeds(maxRssGb: real, peak: nat) {
    maxRssGb > 0.0 && peak > 0 && peak as real > maxRssGb * GIB
  }

  /** A peak is over the ceiling when there is one and the peak has more bytes than its gigabytes. */
  lemma ExceedsIff(maxRssGb: real, peak: nat)
    ensures Exceeds(maxRssGb, peak) <==> maxRssGb > 0.0 && peak as real > maxRssGb * 1073741824.0
  {
  }

  /** Level li must not be started: the level before it, not the baseline, went over the ceiling. */
  predicate Unsafe(p: Plan, si: nat, li: nat) {
    li >= 2 && Exceeds(p.maxRssGb, Peak(p, si, li - 1, Reps(p)))
  }

  // The first unsafe level from position li on, or the number of levels.
  function StopFrom(p: Plan, si: nat, li: nat): (k: nat)
    requires li <= |p.levels|
    ensures li <= k <= |p.levels|
    ensures k < |p.levels| ==> Unsafe(p, si, k)
    ensures forall j | li <= j < k :: !Unsafe(p, si, j)
    decreases |p.levels| - li
  {
    if li == |p.levels| || Unsafe(p, si, li) then li else StopFrom(p, si, li + 1)
  }

  function Stop(p: Plan, si: nat): nat
    requires p.levels != []
  {
    StopFrom(p, si, 1)
  }

  // ----- rows -----

  // The baseline's figures summed over its first upTo repetitions.
  function Sums(p: Plan, si: nat, upTo: nat): Averages {
    if upTo == 0 then NO_SUMS
    else
      match p.run(si, 0, upTo)
      case Some(c) => Accumulate(Sums(p, si, upTo - 1), c)
      case None => Sums(p, si, upTo - 1)
  }

  // The baseline a scenario's runs are held against.
  function Base(p: Plan, si: nat): Averages {
    if p.reps < 1 then NO_SUMS else Averaged(Sums(p, si, p.reps), p.reps)
  }

  /** What the baseline's repetitions report, one list for each figure that is averaged. */
  datatype Reported = Reported(
    failed: seq<nat>, total: seq<nat>, p50: seq<real>, p95: seq<real>, p99: seq<real>, cpu: seq<real>,
    avgRam: seq<nat>, rssMean: seq<real>)

  predicate Repeated(f: Reported, n: nat) {
    && |f.failed| == |f.total| == |f.avgRam| == n
    && |f.p50| == |f.p95| == |f.p99| == |f.cpu| == |f.rssMean| == n
  }

  /** f holds what the first n repetitions of scenario si's baseline report, in order. */
  predicate Reports(p: Plan, si: nat, n: nat, f: Reported) {
    && Repeated(f, n)
    && forall r: nat | 1 <= r <= n ::
         && p.run(si, 0, r).Some?
         && var c := p.run(si, 0, r).value;
            && c.failed == f.failed[r - 1] && c.total == f.total[r - 1] && c.avgRam == f.avgRam[r - 1]
            && c.p50 == f.p50[r - 1] && c.p95 == f.p95[r - 1] && c.p99 == f.p99[r - 1]
            && c.cpu == f.cpu[r - 1] && c.rssMean == f.rssMean[r - 1]
  }

  function Front(f: Reported, n: nat): Reported
    requires Repeated(f, n + 1)
  {
    Reported(f.failed[..n], f.total[..n], f.p50[..n], f.p95[..n], f.p99[..n], f.cpu[..n], f.avgRam[..n], f.rssMean[..n])
  }

  lemma {:induction false} SumsAre(p: Plan, si: nat, n: nat, f: Reported)
    requires Reports(p, si, n, f)
    ensures var s := Sums(p, si, n);
            && s.failed == Percentiles.SumInts(f.failed) && s.total == Percentiles.SumInts(f.total)
            && s.p50 == Summaries.SumReals(f.p50) && s.p95 == Summaries.SumReals(f.p95)
            && s.p99 == Summaries.SumReals(f.p99) && s.cpu == Summaries.SumReals(f.cpu)
            && s.rssMean == Summaries.SumReals(f.rssMean)
  {
    if n > 0 {
      SumsAre(p, si, n - 1, Front(f, n - 1));
    }
  }

  lemma {:induction false} RamSumIs(p: Plan, si: nat, n: nat, f: Reported)
    requires Reports(p, si, n, f)
    ensures Sums(p, si, n).avgRam == Wrap(Percentiles.SumInts(f.avgRam))
  {
    if n > 0 {
      RamSumIs(p, si, n - 1, Front(f, n - 1));
      WrapAdd(Percentiles.SumInts(f.avgRam[..n - 1]), f.avgRam[n - 1]);
    }
  }

  /** The baseline's figures are the means of what its repetitions report, figure by figure: exact for the real ones,
      with the fraction dropped for the others, and of a sum taken in 64 bits for the memory. */
  lemma BaselineMeans(p: Plan, si: nat, f: Reported)
    requires p.reps >= 1 && Reports(p, si, p.reps, f)
    ensures var b, n := Base(p, si), p.reps;
            && b.p50 == Over(Summaries.SumReals(f.p50), n) && b.p95 == Over(Summaries.SumReals(f.p95), n)
            && b.p99 == Over(Summaries.SumReals(f.p99), n) && b.cpu == Over(Summaries.SumReals(f.cpu), n)
            && b.rssMean == Over(Summaries.SumReals(f.rssMean), n)
            && b.failed == Quotient(Percentiles.SumInts(f.failed), n)
            && b.total == Quotient(Percentiles.SumInts(f.total), n)
            && b.avgRam == Quotient(Wrap(Percentiles.SumInts(f.avgRam)), n)
  {
    SumsAre(p, si, p.reps, f);
    RamSumIs(p, si, p.reps, f);
  }

  /** With one repetition the baseline is what that repetition reports. */
  lemma OneRepetition(p: Plan, si: nat, c: Cell)
    requires p.reps == 1 && p.run(si, 0, 1) == Some(c) && c.avgRam < WORD
    ensures Base(p, si) == Averages(c.failed, c.total, c.p50, c.p95, c.p99, c.cpu, c.avgRam, c.rssMean)
  {
    assert Sums(p, si, 1) == Accumulate(Sums(p, si, 0), c);
  }

  function BaselineRow(p: Plan, si: nat): Row
    requires si < |p.scenarios| && p.levels != []
  {
    Baseline(p.scenarios[si], Level(p, 0), Base(p, si))
  }

  // The row of one run.
  function RanRow(p: Plan, si: nat, li: nat, r: nat, c: Cell): Row
    requires si < |p.scenarios| && li < |p.levels|
  {
    Ran(p.scenarios[si], Level(p, li), r, c, Violations(c, Base(p, si), p.thresholds), p.resource(si, li, r))
  }

  // A level's rows: one for each of its first upTo repetitions, in order.
  function LevelRows(p: Plan, si: nat, li: nat, upTo: nat): (rows: seq<Row>)
    requires si < |p.scenarios| && li < |p.levels| && RepsRun(p, si, li, upTo)
    ensures |rows| == upTo
    ensures forall r | 1 <= r <= upTo :: rows[r - 1] == RanRow(p, si, li, r, p.run(si, li, r).value)
  {
    if upTo == 0 then [] else
      LevelRows(p, si, li, upTo - 1) + [RanRow(p, si, li, upTo, p.run(si, li, upTo).value)]
  }

  /** A repetition's row: its scenario, level and number, what it reports, the thresholds it violates against the
      baseline, and its own resource figures. */
  lemma RowOfRepetition(p: Plan, si: nat, li: nat, r: nat, c: Cell)
    requires si < |p.scenarios| && li < |p.levels| && AllRepsRun(p, si, li)
    requires 1 <= r <= Reps(p) && p.run(si, li, r) == Some(c)
    ensures LevelRows(p, si, li, Reps(p))[r - 1]
         == Ran(p.scenarios[si], Level(p, li), r, c, Violations(c, Base(p, si), p.thresholds), p.resource(si, li, r))
  {
  }

  // Every repetition of every level before upTo reports a result.
  predicate LevelsRun(p: Plan, si: nat, upTo: nat) {
    upTo == 0 || (LevelsRun(p, si, upTo - 1) && AllRepsRun(p, si, upTo - 1))
  }

  lemma {:induction false} LevelsRunMeaning(p: Plan, si: nat, upTo: nat)
    ensures LevelsRun(p, si, upTo) <==> forall li: nat | li < upTo :: AllRepsRun(p, si, li)
  {
    if upTo > 0 {
      LevelsRunMeaning(p, si, upTo - 1);
    }
  }

  // All repetitions of every level from position 1 up to, not including, upTo.
  function RanRows(p: Plan, si: nat, upTo: nat): seq<Row>
    requires si < |p.scenarios| && 1 <= upTo <= |p.levels| && LevelsRun(p, si, upTo)
  {
    if upTo == 1 then []
    else
      assert AllRepsRun(p, si, upTo - 1);
      RanRows(p, si, upTo - 1) + LevelRows(p, si, upTo - 1, Reps(p))
  }

  // One row marked not-run for each level from position li on.
  function SkippedRows(p: Plan, si: nat, li: nat): (rows: seq<Row>)
    requires si < |p.scenarios| && li <= |p.levels|
    ensures |rows| == |p.levels| - li
    ensures forall i | li <= i < |p.levels| :: rows[i - li] == NotRun(p.scenarios[si], Level(p, i))
    decreases |p.levels| - li
  {
    if li == |p.levels| then [] else [NotRun(p.scenarios[si], Level(p, li))] + SkippedRows(p, si, li + 1)
  }

  // Where the not-run rows start: at the first level spelt like the one the stop fell on.
  function SkipFrom(p: Plan, si: nat): (k: nat)
    requires p.levels != []
    ensures k <= Stop(p, si) <= |p.levels|
  {
    var stop := Stop(p, si);
    if stop == |p.levels| then stop
    else
      FirstOf(p.levels, p.levels[stop])
  }

  /** Scenario si meets no error: its levels parse as far as the loop reads them and every cell that is
      started reports a result. */
  predicate Clean(p: Plan, si: nat)
    requires p.levels != []
  {
    && LevelsRun(p, si, Stop(p, si))
    && forall li: nat | li < |p.levels| && li <= Stop(p, si) :: Parses(p, li)
  }

  function ScenarioRows(p: Plan, si: nat): seq<Row>
    requires si < |p.scenarios| && p.levels != [] && p.reps >= 1 && Clean(p, si)
  {
    [BaselineRow(p, si)] + RanRows(p, si, Stop(p, si)) + SkippedRows(p, si, SkipFrom(p, si))
  }

  predicate AllClean(p: Plan, upTo: nat)
    requires p.levels != []
  {
    upTo == 0 || (AllClean(p, upTo - 1) && Clean(p, upTo - 1))
  }

  lemma {:induction false} AllCleanMeaning(p: Plan, upTo: nat)
    requires p.levels != []
    ensures AllClean(p, upTo) <==> forall si: nat | si < upTo :: Clean(p, si)
  {
    if upTo > 0 {
      AllCleanMeaning(p, upTo - 1);
    }
  }

  function SweepRows(p: Plan, upTo: nat): seq<Row>
    requires upTo <= |p.scenarios| && p.levels != [] && p.reps >= 1 && AllClean(p, upTo)
  {
    if upTo == 0 then [] else SweepRows(p, upTo - 1) + ScenarioRows(p, upTo - 1)
  }

  // ----- the loops -----

  method RunBaseline(p: Plan, si: nat) returns (base: Option<Averages>)
    requires si < |p.scenarios| && p.levels != [] && p.reps >= 1
    ensures base.Some? <==> AllRepsRun(p, si, 0)
    ensures base.Some? ==> base.value == Base(p, si)
  {
    var acc := NO_SUMS;
    var r := 1;
    while r <= p.reps
      invariant 1 <= r <= p.reps + 1 && RepsRun(p, si, 0, r - 1) && acc == Sums(p, si, r - 1)
    {
      match p.run(si, 0, r) {
        case None => return None;
        case Some(c) => acc := Accumulate(acc, c);
      }
      r := r + 1;
    }
    return Some(Averaged(acc, p.reps));
  }

  method RunLevel(p: Plan, si: nat, li: nat, base: Averages) returns (rows: Option<seq<Row>>, peak: nat)
    requires si < |p.scenarios| && li < |p.levels| && base == Base(p, si)
    ensures rows.Some? <==> AllRepsRun(p, si, li)
    ensures rows.Some? ==> rows.value == LevelRows(p, si, li, Reps(p)) && peak == Peak(p, si, li, Reps(p))
  {
    var done: seq<Row> := [];
    peak := 0;
    var r := 1;
    while r <= p.reps
      invariant 1 <= r && r - 1 <= Reps(p) && RepsRun(p, si, li, r - 1)
      invariant done == LevelRows(p, si, li, r - 1) && peak == Peak(p, si, li, r - 1)
    {
      match p.run(si, li, r) {
        case None => return None, peak;
        case Some(c) =>
          if c.peakRam > peak {
            peak := c.peakRam;
          }
          var violations := Violations(c, base, p.thresholds);
          done := done + [Ran(p.scenarios[si], Level(p, li), r, c, violations, p.resource(si, li, r))];
      }
      r := r + 1;
    }
    return Some(done), peak;
  }

  method Skip(p: Plan, si: nat, from: nat) returns (rows: seq<Row>)
    requires si < |p.scenarios| && from <= |p.levels|
    ensures rows == SkippedRows(p, si, from)
  {
    rows := [];
    var i := from;
    while i < |p.levels|
      invariant from <= i <= |p.levels| && |rows| == i - from
      invariant forall j | from <= j < i :: rows[j - from] == NotRun(p.scenarios[si], Level(p, j))
    {
      rows := rows + [NotRun(p.scenarios[si], Level(p, i))];
      i := i + 1;
    }
    forall k | 0 <= k < |rows| ensures rows[k] == SkippedRows(p, si, from)[k] {
      assert rows[(from + k) - from] == NotRun(p.scenarios[si], Level(p, from + k));
      assert SkippedRows(p, si, from)[(from + k) - from] == NotRun(p.scenarios[si], Level(p, from + k));
    }
  }

  // The not-run rows once the ceiling is met at level li.
  method SkipRest(p: Plan, si: nat, li: nat) returns (rows: seq<Row>)
    requires si < |p.scenarios| && li < |p.levels|
    ensures rows == SkippedRows(p, si, FirstOf(p.levels, p.levels[li]))
  {
    var k := LevelIdx(p.levels, p.levels[li]);
    rows := Skip(p, si, k);
  }

  /** Level li is the first thing to go wrong in scenario si: all before it ran and parsed. */
  predicate Reached(p: Plan, si: nat, li: nat)
    requires li < |p.levels|
  {
    li <= Stop(p, si) && LevelsRun(p, si, li) && ParsedBefore(p, li)
  }

  /** What an outcome other than rows tells of scenario si. */
  ghost predicate Explains(o: Outcome, p: Plan, si: nat)
    requires p.levels != []
  {
    match o
    case Rows(_) => true
    case BadLevel(text) =>
      exists li: nat | li < |p.levels| :: Reached(p, si, li) && !Parses(p, li) && text == p.levels[li]
    case CellFailed =>
      exists li: nat | li < |p.levels| && li < Stop(p, si) ::
        Reached(p, si, li) && Parses(p, li) && !AllRepsRun(p, si, li)
    case DividedByZero => p.reps < 1 && Parses(p, 0)
  }

  predicate ParsedBefore(p: Plan, li: nat)
    requires li <= |p.levels|
  {
    forall j: nat | j < li :: Parses(p, j)
  }

  /** The level loop of scenario si has got as far as level li. */
  ghost predicate At(p: Plan, si: nat, li: nat, prevPeak: nat)
    requires p.levels != []
  {
    && 1 <= li <= |p.levels| && StopFrom(p, si, li) == Stop(p, si)
    && LevelsRun(p, si, li)
    && ParsedBefore(p, li)
    && prevPeak == if li == 1 then 0 else Peak(p, si, li - 1, Reps(p))
  }

  function RowsAt(p: Plan, si: nat, li: nat): seq<Row>
    requires si < |p.scenarios| && 1 <= li <= |p.levels| && p.reps >= 1 && LevelsRun(p, si, li)
  {
    [BaselineRow(p, si)] + RanRows(p, si, li)
  }

  lemma RanRowsNext(p: Plan, si: nat, li: nat)
    requires si < |p.scenarios| && 1 <= li < |p.levels| && LevelsRun(p, si, li) && AllRepsRun(p, si, li)
    ensures LevelsRun(p, si, li + 1)
    ensures RanRows(p, si, li + 1) == RanRows(p, si, li) + LevelRows(p, si, li, Reps(p))
  {}

  lemma StopLater(p: Plan, si: nat, li: nat)
    requires 1 <= li < |p.levels| && StopFrom(p, si, li) == Stop(p, si) && !Unsafe(p, si, li)
    ensures StopFrom(p, si, li + 1) == Stop(p, si)
  {}

  lemma Regroup(first: Row, a: seq<Row>, b: seq<Row>)
    ensures [first] + a + b == [first] + (a + b)
  {}

  lemma LevelDone(p: Plan, si: nat, li: nat, prevPeak: nat)
    requires 1 <= li < |p.levels| && At(p, si, li, prevPeak)
    requires Parses(p, li) && !Exceeds(p.maxRssGb, prevPeak) && AllRepsRun(p, si, li)
    ensures At(p, si, li + 1, Peak(p, si, li, Reps(p)))
  {
    SafeToStart(p, si, li, prevPeak);
    StopLater(p, si, li);
    ParsedNext(p, li);
  }

  lemma SafeToStart(p: Plan, si: nat, li: nat, prevPeak: nat)
    requires 1 <= li && prevPeak == (if li == 1 then 0 else Peak(p, si, li - 1, Reps(p)))
    requires !Exceeds(p.maxRssGb, prevPeak)
    ensures !Unsafe(p, si, li)
  {
  }

  lemma ParsedNext(p: Plan, li: nat)
    requires li < |p.levels| && ParsedBefore(p, li) && Parses(p, li)
    ensures ParsedBefore(p, li + 1)
  {
  }

  lemma RowsNext(p: Plan, si: nat, li: nat)
    requires si < |p.scenarios| && 1 <= li < |p.levels| && p.reps >= 1 && LevelsRun(p, si, li) && AllRepsRun(p, si, li)
    ensures LevelsRun(p, si, li + 1)
    ensures RowsAt(p, si, li + 1) == RowsAt(p, si, li) + LevelRows(p, si, li, Reps(p))
  {
    RanRowsNext(p, si, li);
    Regroup(BaselineRow(p, si), RanRows(p, si, li), LevelRows(p, si, li, Reps(p)));
  }

  lemma Stopped(p: Plan, si: nat, li: nat, prevPeak: nat)
    requires si < |p.scenarios| && p.reps >= 1 && 1 <= li < |p.levels| && At(p, si, li, prevPeak)
    requires Parses(p, li) && Exceeds(p.maxRssGb, prevPeak)
    ensures Stop(p, si) == li && Clean(p, si)
    ensures RowsAt(p, si, li) + SkippedRows(p, si, FirstOf(p.levels, p.levels[li])) == ScenarioRows(p, si)
  {
    assert Unsafe(p, si, li);
  }

  lemma Finished(p: Plan, si: nat, prevPeak: nat)
    requires si < |p.scenarios| && p.reps >= 1 && p.levels != [] && At(p, si, |p.levels|, prevPeak)
    ensures Clean(p, si) && RowsAt(p, si, |p.levels|) == ScenarioRows(p, si)
  {
    assert SkippedRows(p, si, |p.levels|) == [];
  }

  lemma Unparsed(p: Plan, si: nat, li: nat, prevPeak: nat)
    requires 1 <= li < |p.levels| && At(p, si, li, prevPeak) && !Parses(p, li)
    ensures !Clean(p, si) && Explains(BadLevel(p.levels[li]), p, si)
  {
    assert Reached(p, si, li);
  }

  lemma CellMissing(p: Plan, si: nat, li: nat, prevPeak: nat)
    requires 1 <= li < |p.levels| && At(p, si, li, prevPeak)
    requires Parses(p, li) && !Exceeds(p.maxRssGb, prevPeak) && !AllRepsRun(p, si, li)
    ensures !Clean(p, si) && Explains(CellFailed, p, si)
  {
    SafeToStart(p, si, li, prevPeak);
    assert Reached(p, si, li);
    LevelsRunMeaning(p, si, Stop(p, si));
  }

  /** The level loop has got as far as level li, with these rows. */
  ghost predicate SoFarIn(p: Plan, si: nat, li: nat, prevPeak: nat, rows: seq<Row>) {
    && si < |p.scenarios| && p.levels != [] && p.reps >= 1 && At(p, si, li, prevPeak)
    && rows == RowsAt(p, si, li)
  }

  lemma LoopBegins(p: Plan, si: nat, rows: seq<Row>)
    requires si < |p.scenarios| && p.levels != [] && p.reps >= 1 && Parses(p, 0) && AllRepsRun(p, si, 0)
    requires rows == [BaselineRow(p, si)]
    ensures SoFarIn(p, si, 1, 0, rows)
  {
    assert LevelsRun(p, si, 1) by {
      assert LevelsRun(p, si, 0);
    }
  }

  lemma LoopStops(p: Plan, si: nat, li: nat, prevPeak: nat, rows: seq<Row>, skipped: seq<Row>)
    requires SoFarIn(p, si, li, prevPeak, rows) && li < |p.levels|
    requires Parses(p, li) && Exceeds(p.maxRssGb, prevPeak)
    requires skipped == SkippedRows(p, si, FirstOf(p.levels, p.levels[li]))
    ensures Clean(p, si) && rows + skipped == ScenarioRows(p, si)
  {
    Stopped(p, si, li, prevPeak);
  }

  lemma LoopGoesOn(p: Plan, si: nat, li: nat, prevPeak: nat, rows: seq<Row>, done: seq<Row>)
    requires SoFarIn(p, si, li, prevPeak, rows) && li < |p.levels|
    requires Parses(p, li) && !Exceeds(p.maxRssGb, prevPeak) && AllRepsRun(p, si, li)
    requires done == LevelRows(p, si, li, Reps(p))
    ensures SoFarIn(p, si, li + 1, Peak(p, si, li, Reps(p)), rows + done)
  {
    LevelDone(p, si, li, prevPeak);
    RowsNext(p, si, li);
  }

  // The level loop, entered after the baseline.
  method RunLevels(p: Plan, si: nat, base: Averages) returns (o: Outcome)
    requires Usable(p) && si < |p.scenarios| && p.reps >= 1 && Parses(p, 0) && AllRepsRun(p, si, 0)
    requires base == Base(p, si)
    ensures o.Rows? <==> Clean(p, si)
    ensures o.Rows? ==> o.rows == ScenarioRows(p, si)
    ensures Explains(o, p, si)
  {
    var rows := [Baseline(p.scenarios[si], Level(p, 0), base)];
    var prevPeak := 0;
    var li := 1;
    LoopBegins(p, si, rows);
    while li < |p.levels|
      invariant 1 <= li <= |p.levels| && SoFarIn(p, si, li, prevPeak, rows)
    {
      if !Parses(p, li) {
        Unparsed(p, si, li, prevPeak);
        return BadLevel(p.levels[li]);
      }
      if Exceeds(p.maxRssGb, prevPeak) {
        var skipped := SkipRest(p, si, li);
        LoopStops(p, si, li, prevPeak, rows, skipped);
        return Rows(rows + skipped);
      }
      var done, peak := RunLevel(p, si, li, base);
      if done.None? {
        CellMissing(p, si, li, prevPeak);
        return CellFailed;
      }
      LoopGoesOn(p, si, li, prevPeak, rows, done.value);
      rows := rows + done.value;
      prevPeak := peak;
      li := li + 1;
    }
    Finished(p, si, prevPeak);
    return Rows(rows);
  }

  method RunScenario(p: Plan, si: nat) returns (o: Outcome)
    requires Usable(p) && si < |p.scenarios|
    ensures o.Rows? <==> p.reps >= 1 && Clean(p, si)
    ensures o.Rows? ==> o.rows == ScenarioRows(p, si)
    ensures Explains(o, p, si)
  {
    if !Parses(p, 0) {
      assert Reached(p, si, 0);
      return BadLevel(p.levels[0]);
    }
    if p.reps < 1 {
      return DividedByZero;
    }
    var base := RunBaseline(p, si);
    if base.None? {
      assert Reached(p, si, 0);
      LevelsRunMeaning(p, si, Stop(p, si));
      return CellFailed;
    }
    o := RunLevels(p, si, base.value);
  }

  lemma {:induction false} NotAllClean(p: Plan, k: nat, upTo: nat)
    requires p.levels != [] && k <= upTo && !AllClean(p, k)
    ensures !AllClean(p, upTo)
  {
    if k < upTo {
      NotAllClean(p, k, upTo - 1);
    }
  }

  /** Some scenario met the error, and those before it met none. */
  ghost predicate FailedSomewhere(o: Outcome, p: Plan)
    requires p.levels != []
  {
    exists si: nat | si < |p.scenarios| :: Explains(o, p, si) && AllClean(p, si)
  }

  /** The sweep has done its first upTo scenarios. */
  ghost predicate SoFar(p: Plan, upTo: nat, rows: seq<Row>)
    requires p.levels != []
  {
    && upTo <= |p.scenarios| && AllClean(p, upTo)
    && if upTo == 0 then rows == [] else p.reps >= 1 && rows == SweepRows(p, upTo)
  }

  lemma CutShort(p: Plan, o: Outcome, si: nat, rows: seq<Row>)
    requires Usable(p) && si < |p.scenarios| && !o.Rows? && Explains(o, p, si)
    requires SoFar(p, si, rows) && !(p.reps >= 1 && Clean(p, si))
    ensures !(p.reps >= 1 && AllClean(p, |p.scenarios|)) && FailedSomewhere(o, p)
  {
    if p.reps >= 1 {
      NotAllClean(p, si + 1, |p.scenarios|);
    }
  }

  lemma ScenarioDone(p: Plan, si: nat, rows: seq<Row>)
    requires Usable(p) && si < |p.scenarios| && p.reps >= 1 && SoFar(p, si, rows) && Clean(p, si)
    ensures SoFar(p, si + 1, rows + ScenarioRows(p, si))
  {
    assert rows == SweepRows(p, si);
  }

  /** The whole sweep: its rows, or the error of the first scenario that meets one. */
  method RunSweep(p: Plan) returns (o: Outcome)
    requires Usable(p)
    ensures o.Rows? <==> p.reps >= 1 && AllClean(p, |p.scenarios|)
    ensures o.Rows? ==> o.rows == SweepRows(p, |p.scenarios|)
    ensures !o.Rows? ==> FailedSomewhere(o, p)
  {
    var rows: seq<Row> := [];
    var si := 0;
    while si < |p.scenarios|
      invariant SoFar(p, si, rows)
    {
      o := RunScenario(p, si);
      if !o.Rows? {
        CutShort(p, o, si, rows);
        return;
      }
      ScenarioDone(p, si, rows);
      rows := rows + o.rows;
      si := si + 1;
    }
    return Rows(rows);
  }

  // ----- what the rows amount to -----

  /** The coverage the not-run rows are for: from the stop on, each level is reported once. */
  function IdealRows(p: Plan, si: nat): seq<Row>
    requires si < |p.scenarios| && p.levels != [] && p.reps >= 1 && Clean(p, si)
  {
    [BaselineRow(p, si)] + RanRows(p, si, Stop(p, si)) + SkippedRows(p, si, Stop(p, si))
  }

  /** A scenario's rows cover its levels exactly when the level the stop fell on is spelt like none before it. */
  lemma CoverageIff(p: Plan, si: nat)
    requires si < |p.scenarios| && p.levels != [] && p.reps >= 1 && Clean(p, si)
    ensures ScenarioRows(p, si) == IdealRows(p, si)
            <==> Stop(p, si) == |p.levels| || p.levels[Stop(p, si)] !in p.levels[..Stop(p, si)]
  {
    var stop, from := Stop(p, si), SkipFrom(p, si);
    assert |ScenarioRows(p, si)| == |IdealRows(p, si)| + (stop - from);
    if stop < |p.levels| && p.levels[stop] in p.levels[..stop] {
      var j :| 0 <= j < stop && p.levels[..stop][j] == p.levels[stop];
      assert p.levels[j] == p.levels[stop];
    }
    if from < stop {
      assert p.levels[..stop][from] == p.levels[stop];
    }
  }

  lemma RowAfter(a: seq<Row>, b: seq<Row>, k: nat, n: nat)
    requires k < |b| && n == |a|
    ensures n + k < |a + b| && (a + b)[n + k] == b[k]
  {}

  lemma {:induction false} RanRowsLength(p: Plan, si: nat, upTo: nat)
    requires si < |p.scenarios| && 1 <= upTo <= |p.levels| && LevelsRun(p, si, upTo)
    ensures |RanRows(p, si, upTo)| == (upTo - 1) * Reps(p)
  {
    if upTo > 1 {
      assert AllRepsRun(p, si, upTo - 1);
      RanRowsLength(p, si, upTo - 1);
      OneMore(upTo - 2, Reps(p));
    }
  }

  lemma OneMore(a: nat, b: nat)
    ensures (a + 1) * b == a * b + b
  {}

  predicate Distinct(levels: seq<string>) { forall i, j | 0 <= i < j < |levels| :: levels[i] != levels[j] }

  /** With distinct levels every level is accounted for: one baseline row, then the repetitions of each level
      before the stop in order, then one not-run row for each level from the stop on. */
  lemma DistinctLevelsCovered(p: Plan, si: nat)
    requires si < |p.scenarios| && p.levels != [] && p.reps >= 1 && Clean(p, si) && Distinct(p.levels)
    ensures ScenarioRows(p, si) == IdealRows(p, si)
    ensures |ScenarioRows(p, si)| == 1 + (Stop(p, si) - 1) * p.reps + (|p.levels| - Stop(p, si))
  {
    CoverageIff(p, si);
    RanRowsLength(p, si, Stop(p, si));
  }

  // A repetition's row comes after those of the levels before it.
  lemma RowInPlace(p: Plan, si: nat, li: nat, r: nat, k: int)
    requires si < |p.scenarios| && 1 <= li < |p.levels| && LevelsRun(p, si, li) && AllRepsRun(p, si, li)
    requires 1 <= r <= Reps(p) && k == |RanRows(p, si, li)| + r - 1
    ensures LevelsRun(p, si, li + 1) && 0 <= k < |RanRows(p, si, li + 1)|
    ensures RanRows(p, si, li + 1)[k] == RanRow(p, si, li, r, p.run(si, li, r).value)
  {
    RanRowsNext(p, si, li);
    RowAfter(RanRows(p, si, li), LevelRows(p, si, li, Reps(p)), r - 1, |RanRows(p, si, li)|);
  }

  // And later levels leave it there.
  lemma {:induction false} RowStays(p: Plan, si: nat, from: nat, upTo: nat, k: nat, row: Row)
    requires si < |p.scenarios| && 1 <= from <= upTo <= |p.levels| && LevelsRun(p, si, upTo) && LevelsRun(p, si, from)
    requires k < |RanRows(p, si, from)| && RanRows(p, si, from)[k] == row
    ensures k < |RanRows(p, si, upTo)| && RanRows(p, si, upTo)[k] == row
  {
    if from < upTo {
      assert AllRepsRun(p, si, upTo - 1);
      RowStays(p, si, from, upTo - 1, k, row);
      RowBefore(RanRows(p, si, upTo - 1), LevelRows(p, si, upTo - 1, Reps(p)), k);
    }
  }

  lemma RowFound(p: Plan, si: nat, upTo: nat, li: nat, r: nat, k: int)
    requires si < |p.scenarios| && 1 <= li < upTo <= |p.levels| && LevelsRun(p, si, upTo) && 1 <= r <= Reps(p)
    requires LevelsRun(p, si, li) && AllRepsRun(p, si, li) && k == |RanRows(p, si, li)| + r - 1
    ensures 0 <= k < |RanRows(p, si, upTo)|
    ensures RanRows(p, si, upTo)[k] == RanRow(p, si, li, r, p.run(si, li, r).value)
  {
    RowInPlace(p, si, li, r, k);
    RowStays(p, si, li + 1, upTo, k, RanRow(p, si, li, r, p.run(si, li, r).value));
  }

  /** Repetition r of level li stands at its own place among the rows. */
  lemma RanRowsAt(p: Plan, si: nat, upTo: nat, li: nat, r: nat, k: int)
    requires si < |p.scenarios| && 1 <= li < upTo <= |p.levels| && LevelsRun(p, si, upTo) && 1 <= r <= Reps(p)
    requires k == (li - 1) * Reps(p) + r - 1
    ensures AllRepsRun(p, si, li) && 0 <= k < |RanRows(p, si, upTo)|
    ensures RanRows(p, si, upTo)[k] == RanRow(p, si, li, r, p.run(si, li, r).value)
  {
    LevelsRunDown(p, si, li, upTo);
    RanRowsLength(p, si, li);
    RowFound(p, si, upTo, li, r, k);
  }

  lemma LevelsRunDown(p: Plan, si: nat, li: nat, upTo: nat)
    requires li < upTo && LevelsRun(p, si, upTo)
    ensures LevelsRun(p, si, li) && AllRepsRun(p, si, li)
  {
    LevelsRunMeaning(p, si, upTo);
    LevelsRunMeaning(p, si, li);
  }

  lemma RowBefore(a: seq<Row>, b: seq<Row>, k: int)
    requires 0 <= k < |a|
    ensures k < |a + b| && (a + b)[k] == a[k]
  {}

  /** A row of a level that ran belongs to a level before the stop, and to none that was unsafe to start. */
  lemma {:induction false} RanRowsOnly(p: Plan, si: nat, upTo: nat, row: Row)
    requires si < |p.scenarios| && 1 <= upTo <= |p.levels| && LevelsRun(p, si, upTo) && row in RanRows(p, si, upTo)
    ensures exists li: nat, r: nat | 1 <= li < upTo && 1 <= r <= Reps(p) ::
              p.run(si, li, r).Some? && row == RanRow(p, si, li, r, p.run(si, li, r).value)
  {
    assert upTo > 1 ==> AllRepsRun(p, si, upTo - 1);
    var last := LevelRows(p, si, upTo - 1, Reps(p));
    if row in last {
      var k :| 0 <= k < |last| && last[k] == row;
      assert last[(k + 1) - 1] == row;
      assert p.run(si, upTo - 1, k + 1).Some?;
    } else {
      RanRowsOnly(p, si, upTo - 1, row);
    }
  }

  /** The stop falls on the first level whose predecessor, other than the baseline, went over the ceiling; there
      is none without a ceiling, and the first level after the baseline always runs. */
  lemma StopIsFirst(p: Plan, si: nat, k: nat)
    requires p.levels != [] && 1 <= k <= |p.levels|
    ensures Stop(p, si) == k
            <==> (k < |p.levels| ==> Unsafe(p, si, k)) && forall j | 1 <= j < k :: !Unsafe(p, si, j)
    ensures p.maxRssGb <= 0.0 ==> Stop(p, si) == |p.levels|
    ensures |p.levels| >= 2 ==> Stop(p, si) >= 2
  {
  }

  /** A level's peak is the largest its repetitions reported. */
  lemma {:induction false} PeakIsLargest(p: Plan, si: nat, li: nat, upTo: nat)
    requires RepsRun(p, si, li, upTo)
    ensures forall r: nat | 1 <= r <= upTo :: p.run(si, li, r).value.peakRam <= Peak(p, si, li, upTo)
    ensures upTo >= 1 ==> exists r: nat | 1 <= r <= upTo :: p.run(si, li, r).value.peakRam == Peak(p, si, li, upTo)
  {
    if upTo > 0 {
      PeakIsLargest(p, si, li, upTo - 1);
      assert p.run(si, li, upTo).Some?;
    }
  }

  /** When the stop falls on a level spelt like an earlier one, the earlier one is reported as not run although
      its rows say it was: as the baseline if it is the first level, else by every repetition. */
  lemma RepeatedLevelReportedTwice(p: Plan, si: nat)
    requires si < |p.scenarios| && p.levels != [] && p.reps >= 1 && Clean(p, si) && SkipFrom(p, si) < Stop(p, si)
    ensures var k := SkipFrom(p, si);
            var rows := ScenarioRows(p, si);
            && NotRun(p.scenarios[si], Level(p, k)) in rows
            && (k == 0 ==> BaselineRow(p, si) in rows)
            && (k >= 1 ==> exists c :: RanRow(p, si, k, 1, c) in rows)
  {
    var k, stop := SkipFrom(p, si), Stop(p, si);
    assert SkippedRows(p, si, k)[k - k] == NotRun(p.scenarios[si], Level(p, k));
    if k >= 1 {
      RanRowsAt(p, si, stop, k, 1, (k - 1) * Reps(p));
      var row := RanRows(p, si, stop)[(k - 1) * Reps(p) + 1 - 1];
      assert row in ScenarioRows(p, si);
    }
  }

  function Digit(s: string): Parsed {
    if s == "1" then Parsed(1, true) else if s == "5" then Parsed(5, true) else Parsed(0, false)
  }

  // Two GiB whatever the cell.
  const GREEDY := Cell(2147483648, 0, 1, 1.0, 1.0, 1.0, 1.0, 1, 1.0, 1.0, 1.0)

  function Greedy(si: nat, li: nat, r: nat): Option<Cell> { Some(GREEDY) }

  const IDLE := Resource(0.0, 0.0, 0.0, 0.0, 0.0, 0.0, 0.0, 0.0)

  function Idle(si: nat, li: nat, r: nat): Resource { IDLE }

  const EXAMPLE := Plan(["http"], ["1", "5", "5"], 1, 1.0, Thresholds(0.0, 0.0, 0.0, 0.0), Digit, Greedy, Idle)

  /** Levels 1,5,5 with runs over a 1 GiB ceiling: level 5 ran, and is then reported as not run twice. */
  lemma RepeatedLevelExample()
    ensures Clean(EXAMPLE, 0) && Stop(EXAMPLE, 0) == 2
    ensures ScenarioRows(EXAMPLE, 0)
            == [BaselineRow(EXAMPLE, 0), Ran("http", 5, 1, GREEDY, [], IDLE), NotRun("http", 5), NotRun("http", 5)]
  {
    var p := EXAMPLE;
    assert Peak(p, 0, 1, 1) == 2147483648;
    assert Unsafe(p, 0, 2);
    StopIsFirst(p, 0, 2);
    assert Parses(p, 0) && Parses(p, 1) && Parses(p, 2);
    assert AllRepsRun(p, 0, 0) && AllRepsRun(p, 0, 1);
    LevelsRunMeaning(p, 0, 2);
    assert Clean(p, 0);
    assert FirstOf(p.levels, "5") == 1;
    assert RanRows(p, 0, 2) == LevelRows(p, 0, 1, 1);
    assert LevelRows(p, 0, 1, 1) == [RanRow(p, 0, 1, 1, GREEDY)];
    assert Violations(GREEDY, Base(p, 0), p.thresholds) == [];
    assert SkippedRows(p, 0, 1) == [NotRun("http", 5), NotRun("http", 5)];
  }
}
