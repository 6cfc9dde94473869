/** The run's summary (internal/results/results.go, BuildSummary), and what it says about a drained run. */
module Results {
  import opened Counting
  import opened Metrics
  import opened Workflow
  import opened Protocol
  import opened Invariant
  import opened Safety
  import opened Percentiles
  import opened Summaries

  datatype RunSummary = RunSummary(
    total: int, completed: int, failed: int, throughput: real,
    latency: Summary, browserLaunch: Summary, contextCreation: Summary, cdpConnect: Summary, taskRSS: Summary,
    escalations: int, httpStepTotal: real, browserStepTotal: real, failures: map<string, nat>)

  // The measured time if there is one, else the configured one.
  function Seconds(t: Tally, configured: real): real {
    if t.measurementElapsed > 0.0 then t.measurementElapsed else configured
  }

  ghost predicate Distributions(r: RunSummary, t: Tally) {
    && SummaryOf(r.latency, t.window.series.workflowLatencies)
    && SummaryOf(r.browserLaunch, t.setup.browserLaunches)
    && SummaryOf(r.contextCreation, t.setup.contextCreations)
    && SummaryOf(r.cdpConnect, t.setup.cdpConnects)
    && SummaryOf(r.taskRSS, Reals(t.window.series.taskRSSDeltas))
  }

  /** Throughput times time is the number of completed tasks, unless the time is 0. */
  function Throughput(completed: int, seconds: real): (q: real)
    ensures seconds != 0.0 ==> q * seconds == completed as real
    ensures seconds == 0.0 ==> q == 0.0
  {
    if seconds == 0.0 then 0.0 else completed as real / seconds
  }

  /** What BuildSummary reports of a recorder. */
  ghost predicate Reports(r: RunSummary, t: Tally, configured: real) {
    && r.total == t.window.counters.created
    && r.completed == t.window.counters.complete && r.failed == t.window.counters.failed
    && r.escalations == t.window.counters.escalations
    && r.throughput == Throughput(r.completed, Seconds(t, configured))
    && r.httpStepTotal == SumReals(t.window.series.httpStepLatencies)
    && r.browserStepTotal == SumReals(t.window.series.browserStepLatencies)
    && r.failures == t.window.others.failures
    && Distributions(r, t)
  }

  /** The throughput is the completed tasks over the measured time if one was recorded, else the configured time. */
  lemma ThroughputMeans(t: Tally, configured: real, throughput: real)
    requires throughput == Throughput(t.window.counters.complete, Seconds(t, configured))
    ensures t.measurementElapsed > 0.0 ==> throughput * t.measurementElapsed == t.window.counters.complete as real
    ensures t.measurementElapsed <= 0.0 && configured != 0.0 ==>
              throughput * configured == t.window.counters.complete as real
    ensures t.measurementElapsed <= 0.0 && configured == 0.0 ==> throughput == 0.0
  {
    if t.measurementElapsed > 0.0 {
      assert Seconds(t, configured) == t.measurementElapsed;
    } else {
      assert Seconds(t, configured) == configured;
    }
  }

  method BuildSummary(t: Tally, configured: real) returns (r: RunSummary)
    ensures Reports(r, t, configured)
  {
    var latency := Summarize(t.window.series.workflowLatencies);
    var launch := Summarize(t.setup.browserLaunches);
    var creation := Summarize(t.setup.contextCreations);
    var connect := Summarize(t.setup.cdpConnects);
    var rss := Summarize(Reals(t.window.series.taskRSSDeltas));
    var throughput := Throughput(t.window.counters.complete, Seconds(t, configured));
    var http := SumOf(t.window.series.httpStepLatencies);
    var browser := SumOf(t.window.series.browserStepLatencies);
    r := RunSummary(t.window.counters.created, t.window.counters.complete, t.window.counters.failed, throughput,
      latency, launch, creation, connect, rss, t.window.counters.escalations, http, browser, t.window.others.failures);
  }

  /** The summary of a run, of any kind of worker, written when nothing is pending: as many latencies as completed
      tasks, as many memory deltas as tasks, every task completed or failed, and, in the hybrid scenario, the workflow's
      browser-only steps as escalations for every completed task. The launches are those
      of set-up and of the tasks that launched a browser; CDP connects are those of set-up, and context creations too
      where every pool has a context to spare. */
  lemma SummaryAgrees(c: Config, s: State, r: RunSummary, configured: real)
    requires Orderly(c) && Reachable(c, s) && (s.main.Next? || s.main.MainReturned?)
    requires Reports(r, s.rec, configured)
    ensures r.latency.count == r.completed
    ensures r.taskRSS.count == r.total == r.completed + r.failed
    ensures r.escalations == r.completed * match c.kind case HybridKind(p) => BrowserSteps(p, c.workflow) case _ => 0
    ensures r.browserLaunch.count == |c.setup.browserLaunches| + |Marked(s.tasks, LaunchesOf)|
    ensures !c.launches ==> r.browserLaunch.count == |c.setup.browserLaunches|
    ensures NoCreation(c) ==> r.contextCreation.count == |c.setup.contextCreations|
    ensures r.cdpConnect.count == |c.setup.cdpConnects|
  {
    DrainedAccounting(c, s);
    SetupPassesThrough(c, s);
    SetupSeries(c, s);
    if NoCreation(c) {
      ContextsOfSetup(c, s);
    }
  }
}
