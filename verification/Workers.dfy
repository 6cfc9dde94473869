/** What one task does to the context pool and the recorder, for the five kinds of worker (internal/httpworker,
    internal/browser, internal/contexts, internal/cdp and internal/hybrid, each worker.go). */
module Workers {
  import opened Counting
  import opened Metrics
  import opened Contexts
  import opened Workflow

  datatype Status = StatusOk | StatusSkipped | StatusError

  /** The outcome of one workflow step; `request` is the time of the HTTP request behind it, if there was one, and
      `error` the classified error. */
  datatype StepResult = StepResult(
    op: Op, seconds: real, status: Status, request: Option<real>, error: Option<string>)

  /** A step as the foreign executor returns it: the result, and whether it returned an error. */
  datatype StepOutcome = StepOutcome(result: StepResult, err: bool)

  // ----- the hybrid executor -----

  // The first failing step, or the number of steps.
  function FirstFailure(outcomes: seq<StepOutcome>): nat {
    if outcomes == [] || outcomes[0].err then 0 else 1 + FirstFailure(outcomes[1..])
  }

  lemma {:induction false} FirstFailureAt(outcomes: seq<StepOutcome>, k: nat)
    requires k <= |outcomes| && forall i | 0 <= i < k :: !outcomes[i].err
    requires k < |outcomes| ==> outcomes[k].err
    ensures FirstFailure(outcomes) == k
  {
    if k > 0 {
      FirstFailureAt(outcomes[1..], k - 1);
    }
  }

  /** The results of the steps up to and including the first failing one. */
  function ResultsOf(outcomes: seq<StepOutcome>): seq<StepResult> {
    if outcomes == [] then []
    else if outcomes[0].err then [outcomes[0].result]
    else [outcomes[0].result] + ResultsOf(outcomes[1..])
  }

  lemma {:induction false} ResultsOfAt(outcomes: seq<StepOutcome>, results: seq<StepResult>, k: nat)
    requires k <= |outcomes| && forall i | 0 <= i < k :: !outcomes[i].err
    requires k < |outcomes| ==> outcomes[k].err
    requires |results| == if k < |outcomes| then k + 1 else k
    requires forall i | 0 <= i < |results| :: results[i] == outcomes[i].result
    ensures ResultsOf(outcomes) == results
  {
    if k > 0 {
      ResultsOfAt(outcomes[1..], results[1..], k - 1);
    }
  }

  /** Runs the steps in order until one fails, and counts the browser-only steps that succeeded. */
  method Execute(p: Policy, steps: seq<Op>, outcomes: seq<StepOutcome>)
    returns (results: seq<StepResult>, escalations: nat, failed: bool)
    requires |outcomes| == |steps|
    ensures var k := FirstFailure(outcomes);
            && failed == (k < |steps|)
            && k <= |steps| && escalations == BrowserSteps(p, steps[..k])
    ensures results == ResultsOf(outcomes)
  {
    results, escalations := [], 0;
    var i := 0;
    while i < |steps|
      invariant 0 <= i <= |steps| && |results| == i
      invariant forall k | 0 <= k < i :: !outcomes[k].err
      invariant forall k | 0 <= k < i :: results[k] == outcomes[k].result
      invariant escalations == BrowserSteps(p, steps[..i])
    {
      var o := outcomes[i];
      BrowserStepsSnoc(p, steps[..i], steps[i]);
      assert steps[..i + 1] == steps[..i] + [steps[i]];
      results := results + [o.result];
      if o.err {
        FirstFailureAt(outcomes, i);
        ResultsOfAt(outcomes, results, i);
        return results, escalations, true;
      }
      if BrowserOnly(p, steps[i]) {
        escalations := escalations + 1;
      }
      i := i + 1;
    }
    FirstFailureAt(outcomes, i);
    ResultsOfAt(outcomes, results, i);
    assert steps[..i] == steps;
    failed := false;
  }

  // ----- what a run of one task does -----

  /** The foreign calls of one run: the browser launch, the new context if one is asked for, the page, and the
      workflow. A worker makes only those of its kind. */
  datatype Foreign = Foreign(
    launch: Option<real>, made: Option<Context>, createSeconds: real, pageOk: bool,
    results: seq<StepResult>, failed: bool, seconds: real)

  // Which recorder call a measured step makes: the hybrid worker keeps two series, the others one.
  function StepCall(kind: Kind, r: StepResult): Call {
    match kind
    case HybridKind(p) =>
      if BrowserOnly(p, r.op) then Call.RecordBrowserStep(r.seconds) else Call.RecordHTTPStep(r.seconds)
    case _ => Call.RecordStep(r.seconds)
  }

  function RequestCalls(kind: Kind, r: StepResult): seq<Call> {
    if kind.HTTPKind? && r.request.Some? then [Call.RecordRequest(r.request.value, r.status.StatusOk?)] else []
  }

  function ResultCalls(kind: Kind, r: StepResult): seq<Call> {
    (if r.status.StatusOk? && r.seconds > 0.0 then [StepCall(kind, r)] else [])
    + RequestCalls(kind, r)
    + if r.error.Some? then [Call.RecordFailure(r.error.value)] else []
  }

  function AllResultCalls(kind: Kind, rs: seq<StepResult>): seq<Call> {
    if rs == [] then [] else AllResultCalls(kind, rs[..|rs| - 1]) + ResultCalls(kind, rs[|rs| - 1])
  }

  function Repeated(call: Call, n: nat): seq<Call> {
    if n == 0 then [] else Repeated(call, n - 1) + [call]
  }

  // The browser launch of a task that launches one.
  function LaunchCalls(kind: Kind, f: Foreign): seq<Call> {
    if kind.BrowserKind? && f.launch.Some? then [Call.RecordBrowserLaunch(f.launch.value)] else []
  }

  // What a task has to open before its page.
  function OpeningCalls(kind: Kind, p: Pool, f: Foreign): seq<Call> {
    if UsesPool(kind) then AcquireCalls(p, f.made, f.createSeconds)
    else if kind.BrowserKind? && f.launch.Some? then [Call.RecordLifecycle(BrowserLaunchCompleted)]
    else []
  }

  /** The run got as far as its workflow. */
  predicate Started(kind: Kind, p: Pool, f: Foreign) {
    match kind
    case HTTPKind => true
    case BrowserKind => f.launch.Some? && f.pageOk
    case _ => Acquired(p, f.made).context.Some? && f.pageOk
  }

  function PageCalls(kind: Kind): seq<Call> {
    if TellsPages(kind) then [Call.RecordLifecycle(PageCreateCompleted)] else []
  }

  function EndCalls(f: Foreign, escalations: nat): seq<Call> {
    if f.failed then [Call.WorkflowFailed]
    else Repeated(Call.RecordEscalation, escalations) + [Call.RecordWorkflow(f.seconds)]
  }

  /** Every recorder call of one run, in order. */
  function RunCalls(kind: Kind, p: Pool, f: Foreign, escalations: nat): seq<Call> {
    LaunchCalls(kind, f) + OpeningCalls(kind, p, f)
    + if Started(kind, p, f) then PageCalls(kind) + AllResultCalls(kind, f.results) + EndCalls(f, escalations) else []
  }

  predicate RunSucceeds(kind: Kind, p: Pool, f: Foreign) { Started(kind, p, f) && !f.failed }

  /** Contexts a run closes: the one it used, if its workflow failed. */
  function RunShuts(p: Pool, f: Foreign): set<Context> {
    var c := Acquired(p, f.made).context;
    if c.Some? && f.pageOk && f.failed then {c.value} else {}
  }

  lemma MoreResultCalls(kind: Kind, rs: seq<StepResult>, i: nat)
    requires i < |rs|
    ensures AllResultCalls(kind, rs[..i + 1]) == AllResultCalls(kind, rs[..i]) + ResultCalls(kind, rs[i])
  {
    assert rs[..i + 1][..i] == rs[..i];
  }

  method RecordResults(kind: Kind, rec: Recorder, results: seq<StepResult>)
    modifies rec
    ensures rec.View() == Replay(old(rec.View()), AllResultCalls(kind, results))
  {
    var i := 0;
    while i < |results|
      invariant 0 <= i <= |results|
      invariant rec.View() == Replay(old(rec.View()), AllResultCalls(kind, results[..i]))
    {
      ghost var before := AllResultCalls(kind, results[..i]);
      MoreResultCalls(kind, results, i);
      RecordResult(kind, rec, results[i]);
      ReplayConcat(old(rec.View()), before, ResultCalls(kind, results[i]));
      i := i + 1;
    }
    assert results[..i] == results;
  }

  method RecordResult(kind: Kind, rec: Recorder, r: StepResult)
    modifies rec
    ensures rec.View() == Replay(old(rec.View()), ResultCalls(kind, r))
  {
    ghost var t0 := rec.View();
    ghost var step := if r.status.StatusOk? && r.seconds > 0.0 then [StepCall(kind, r)] else [];
    if r.status.StatusOk? && r.seconds > 0.0 {
      RecordStep(kind, rec, r);
    }
    ghost var t1 := rec.View();
    if kind.HTTPKind? && r.request.Some? {
      rec.RecordRequest(r.request.value, r.status.StatusOk?);
      ReplayOne(t1, Call.RecordRequest(r.request.value, r.status.StatusOk?));
    }
    ReplayConcat(t0, step, RequestCalls(kind, r));
    ghost var t2 := rec.View();
    if r.error.Some? {
      rec.RecordFailure(r.error.value);
      ReplayOne(t2, Call.RecordFailure(r.error.value));
    }
    ReplayConcat(t0, step + RequestCalls(kind, r), if r.error.Some? then [Call.RecordFailure(r.error.value)] else []);
  }

  method RecordStep(kind: Kind, rec: Recorder, r: StepResult)
    modifies rec
    ensures rec.View() == Replay(old(rec.View()), [StepCall(kind, r)])
  {
    match kind {
      case HybridKind(p) =>
        if BrowserOnly(p, r.op) {
          rec.RecordBrowserStep(r.seconds);
        } else {
          rec.RecordHTTPStep(r.seconds);
        }
      case _ => rec.RecordStep(r.seconds);
    }
    ReplayOne(old(rec.View()), StepCall(kind, r));
  }

  // ----- the worker methods -----

  /** What the Run of a worker with a pool has done to the pool and the recorder when it returns. */
  twostate predicate RunDone(kind: Kind, pool: ContextPool, rec: Recorder, f: Foreign, escalations: nat, ok: bool)
    reads pool, rec
  {
    && pool.View() == Borrowed(old(pool.View()), f.made)
    && pool.shut == old(pool.shut) + RunShuts(old(pool.View()), f)
    && rec.View() == Replay(old(rec.View()), RunCalls(kind, old(pool.View()), f, escalations))
    && ok == RunSucceeds(kind, old(pool.View()), f)
  }

  /** The same of a worker without one. */
  twostate predicate RunRecorded(kind: Kind, rec: Recorder, f: Foreign, ok: bool)
    requires !UsesPool(kind)
    reads rec
  {
    && rec.View() == Replay(old(rec.View()), RunCalls(kind, EMPTY_POOL, f, 0))
    && ok == RunSucceeds(kind, EMPTY_POOL, f)
  }

  class HTTPWorker {
    const rec: Recorder

    constructor (rec: Recorder)
      ensures this.rec == rec
    {
      this.rec := rec;
    }

    method Run(f: Foreign) returns (ok: bool)
      modifies rec
      ensures RunRecorded(HTTPKind, rec, f, ok)
    {
      ghost var t0 := rec.View();
      RecordResults(HTTPKind, rec, f.results);
      ok := Settle(rec, f, 0);
      ReplayRun(t0, HTTPKind, EMPTY_POOL, f, 0);
    }
  }

  class BrowserWorker {
    const rec: Recorder

    constructor (rec: Recorder)
      ensures this.rec == rec
    {
      this.rec := rec;
    }

    /** Launches a browser for this task alone. */
    method Run(f: Foreign) returns (ok: bool)
      modifies rec
      ensures RunRecorded(BrowserKind, rec, f, ok)
    {
      ghost var t0 := rec.View();
      if f.launch.None? {
        assert RunCalls(BrowserKind, EMPTY_POOL, f, 0) == [];
        return false;
      }
      rec.RecordBrowserLaunch(f.launch.value);
      rec.RecordLifecycle(BrowserLaunchCompleted);
      ReplayTwo(t0, Call.RecordBrowserLaunch(f.launch.value), Call.RecordLifecycle(BrowserLaunchCompleted));
      ghost var opening := LaunchCalls(BrowserKind, f) + OpeningCalls(BrowserKind, EMPTY_POOL, f);
      assert opening == [Call.RecordBrowserLaunch(f.launch.value), Call.RecordLifecycle(BrowserLaunchCompleted)];
      if !f.pageOk {
        assert RunCalls(BrowserKind, EMPTY_POOL, f, 0) == opening;
        return false;
      }
      rec.RecordLifecycle(PageCreateCompleted);
      RecordResults(BrowserKind, rec, f.results);
      ok := Settle(rec, f, 0);
      ReplayRun(t0, BrowserKind, EMPTY_POOL, f, 0);
    }
  }

  class ContextWorker {
    const pool: ContextPool
    const rec: Recorder

    constructor (pool: ContextPool, rec: Recorder)
      ensures this.pool == pool && this.rec == rec
    {
      this.pool, this.rec := pool, rec;
    }

    /** Acquires a context, runs the workflow in a page, and releases the context on every path. */
    method Run(f: Foreign) returns (ok: bool)
      requires pool.rec == rec
      modifies pool, rec
      ensures RunDone(ContextKind, pool, rec, f, 0, ok)
    {
      ghost var t0, p0 := rec.View(), pool.View();
      var c := pool.Acquire(f.made, f.createSeconds);
      if c.None? {
        NotStarted(ContextKind, p0, f, 0);
        return false;
      }
      if !f.pageOk {
        pool.Release(c.value);
        NotStarted(ContextKind, p0, f, 0);
        return false;
      }
      rec.RecordLifecycle(PageCreateCompleted);
      RecordResults(ContextKind, rec, f.results);
      ok := Finish(pool, rec, c.value, f, 0);
      ReplayRun(t0, ContextKind, p0, f, 0);
    }
  }

  class CDPWorker {
    const pool: ContextPool
    const rec: Recorder

    constructor (pool: ContextPool, rec: Recorder)
      ensures this.pool == pool && this.rec == rec
    {
      this.pool, this.rec := pool, rec;
    }

    /** As the context worker, without the page event. */
    method Run(f: Foreign) returns (ok: bool)
      requires pool.rec == rec
      modifies pool, rec
      ensures RunDone(CDPKind, pool, rec, f, 0, ok)
    {
      ghost var t0, p0 := rec.View(), pool.View();
      var c := pool.Acquire(f.made, f.createSeconds);
      if c.None? {
        NotStarted(CDPKind, p0, f, 0);
        return false;
      }
      if !f.pageOk {
        pool.Release(c.value);
        NotStarted(CDPKind, p0, f, 0);
        return false;
      }
      RecordResults(CDPKind, rec, f.results);
      ok := Finish(pool, rec, c.value, f, 0);
      ReplayRun(t0, CDPKind, p0, f, 0);
    }
  }

  class HybridWorker {
    const pool: ContextPool
    const rec: Recorder
    const policy: Policy

    constructor (pool: ContextPool, rec: Recorder, policy: Policy)
      ensures this.pool == pool && this.rec == rec && this.policy == policy
    {
      this.pool, this.rec, this.policy := pool, rec, policy;
    }

    /** Runs the workflow across both transports; `f.results` and `f.failed` are those of the executor. */
    method Run(steps: seq<Op>, outcomes: seq<StepOutcome>, f: Foreign) returns (ok: bool)
      requires pool.rec == rec && |outcomes| == |steps|
      requires f.results == ResultsOf(outcomes) && f.failed == (FirstFailure(outcomes) < |steps|)
      modifies pool, rec
      ensures RunDone(HybridKind(policy), pool, rec, f, BrowserSteps(policy, steps), ok)
    {
      ghost var t0, p0, e0 := rec.View(), pool.View(), BrowserSteps(policy, steps);
      var c := pool.Acquire(f.made, f.createSeconds);
      if c.None? {
        NotStarted(HybridKind(policy), p0, f, e0);
        return false;
      }
      if !f.pageOk {
        pool.Release(c.value);
        NotStarted(HybridKind(policy), p0, f, e0);
        return false;
      }
      var results, escalations, failed := Execute(policy, steps, outcomes);
      if !failed {
        assert steps[..FirstFailure(outcomes)] == steps;
      }
      RecordResults(HybridKind(policy), rec, results);
      ok := Finish(pool, rec, c.value, f, escalations);
      assert EndCalls(f, escalations) == EndCalls(f, e0);
      ReplayRun(t0, HybridKind(policy), p0, f, e0);
    }
  }

  lemma NotStarted(kind: Kind, p: Pool, f: Foreign, e: nat)
    requires UsesPool(kind) && !Started(kind, p, f)
    ensures RunCalls(kind, p, f, e) == AcquireCalls(p, f.made, f.createSeconds)
  {
  }

  // The recorder calls of a run that got to its workflow, one part after another.
  lemma ReplayRun(t: Tally, kind: Kind, p: Pool, f: Foreign, e: nat)
    requires Started(kind, p, f)
    ensures var t1 := Replay(t, LaunchCalls(kind, f) + OpeningCalls(kind, p, f));
            var t2 := if PageCalls(kind) == [] then t1 else t1.After(Call.RecordLifecycle(PageCreateCompleted));
            Replay(t, RunCalls(kind, p, f, e)) == Replay(Replay(t2, AllResultCalls(kind, f.results)), EndCalls(f, e))
    ensures UsesPool(kind) ==>
              LaunchCalls(kind, f) + OpeningCalls(kind, p, f) == AcquireCalls(p, f.made, f.createSeconds)
    ensures kind.HTTPKind? ==> LaunchCalls(kind, f) + OpeningCalls(kind, p, f) == []
  {
    var a, b, r, z := LaunchCalls(kind, f) + OpeningCalls(kind, p, f), PageCalls(kind),
                      AllResultCalls(kind, f.results), EndCalls(f, e);
    ReplayConcat(t, a, b + r + z);
    ReplayConcat(Replay(t, a), b + r, z);
    ReplayConcat(Replay(t, a), b, r);
    if b != [] {
      ReplayOne(Replay(t, a), Call.RecordLifecycle(PageCreateCompleted));
    }
  }

  // The common end of the Run methods with a pool, once the results are recorded.
  method Finish(pool: ContextPool, rec: Recorder, c: Context, f: Foreign, escalations: nat) returns (ok: bool)
    requires pool.rec == rec
    modifies pool, rec
    ensures pool.View() == Released(old(pool.View()), c)
    ensures pool.shut == old(pool.shut) + (if f.failed || old(pool.closed) then {c} else {})
    ensures rec.View() == Replay(old(rec.View()), EndCalls(f, escalations))
    ensures ok == !f.failed
  {
    if f.failed {
      pool.CloseContext(c);
    }
    pool.Release(c);
    ok := Settle(rec, f, escalations);
  }

  // What every Run tells the recorder last. Recorder and pool are apart, so the release may come before it all.
  method Settle(rec: Recorder, f: Foreign, escalations: nat) returns (ok: bool)
    modifies rec
    ensures rec.View() == Replay(old(rec.View()), EndCalls(f, escalations))
    ensures ok == !f.failed
  {
    if f.failed {
      rec.WorkflowFailed();
      ReplayOne(old(rec.View()), Call.WorkflowFailed);
      return false;
    }
    var i := 0;
    while i < escalations
      invariant 0 <= i <= escalations
      invariant rec.View() == Replay(old(rec.View()), Repeated(Call.RecordEscalation, i))
    {
      ghost var before := rec.View();
      rec.RecordEscalation();
      ReplayConcat(old(rec.View()), Repeated(Call.RecordEscalation, i), [Call.RecordEscalation]);
      ReplayOne(before, Call.RecordEscalation);
      i := i + 1;
    }
    ghost var before := rec.View();
    rec.RecordWorkflow(f.seconds);
    ReplayConcat(old(rec.View()), Repeated(Call.RecordEscalation, escalations), [Call.RecordWorkflow(f.seconds)]);
    ReplayOne(before, Call.RecordWorkflow(f.seconds));
    return true;
  }

  // ----- what every run promises the scheduler -----

  lemma {:induction false} ResultCallsNeutral(kind: Kind, rs: seq<StepResult>)
    ensures forall c | c in AllResultCalls(kind, rs) :: Neutral(c)
  {
    if rs != [] {
      ResultCallsNeutral(kind, rs[..|rs| - 1]);
    }
  }

  lemma {:induction false} EscalationCalls(t: Tally, n: nat)
    ensures BooksOf(Replay(t, Repeated(Call.RecordEscalation, n)))
         == BooksOf(t).(counters := t.window.counters.(escalations := t.window.counters.escalations + n))
  {
    if n > 0 {
      EscalationCalls(t, n - 1);
      ReplayConcat(t, Repeated(Call.RecordEscalation, n - 1), [Call.RecordEscalation]);
      ReplayOne(Replay(t, Repeated(Call.RecordEscalation, n - 1)), Call.RecordEscalation);
    }
  }

  lemma EndBooks(t: Tally, f: Foreign, e: nat)
    ensures BooksOf(Replay(t, EndCalls(f, e))) == WithRun(BooksOf(t), !f.failed, f.seconds, e)
  {
    if f.failed {
      ReplayOne(t, Call.WorkflowFailed);
    } else {
      EscalationCalls(t, e);
      ReplayConcat(t, Repeated(Call.RecordEscalation, e), [Call.RecordWorkflow(f.seconds)]);
      ReplayOne(Replay(t, Repeated(Call.RecordEscalation, e)), Call.RecordWorkflow(f.seconds));
    }
  }

  /** A successful run adds exactly one workflow latency and its escalations; a failing run adds neither. A run adds
      a launch sample exactly if it launched a browser, and no run touches the task counters or the memory deltas. */
  lemma RunBooks(t: Tally, kind: Kind, p: Pool, f: Foreign, e: nat)
    ensures BooksOf(Replay(t, RunCalls(kind, p, f, e)))
         == WithRun(WithLaunch(BooksOf(t), kind, f), RunSucceeds(kind, p, f), f.seconds, e)
  {
    var t1 := Replay(t, LaunchCalls(kind, f));
    LaunchBooks(t, kind, f);
    RunParts(t, kind, p, f, e);
    FrontBooks(t1, kind, p, f);
    EndBooks(Replay(t1, FrontCalls(kind, p, f)), f, e);
  }

  function WithLaunch(b: Books, kind: Kind, f: Foreign): Books {
    if kind.BrowserKind? && f.launch.Some? then b.(launches := b.launches + [f.launch.value]) else b
  }

  function WithRun(b: Books, ok: bool, seconds: real, e: nat): Books {
    if !ok then b
    else
      b.(counters := b.counters.(escalations := b.counters.escalations + e), latencies := b.latencies + [seconds])
  }

  lemma LaunchBooks(t: Tally, kind: Kind, f: Foreign)
    ensures BooksOf(Replay(t, LaunchCalls(kind, f))) == WithLaunch(BooksOf(t), kind, f)
  {
    if LaunchCalls(kind, f) != [] {
      ReplayOne(t, Call.RecordBrowserLaunch(f.launch.value));
    }
  }

  lemma RunParts(t: Tally, kind: Kind, p: Pool, f: Foreign, e: nat)
    ensures var z := if Started(kind, p, f) then EndCalls(f, e) else [];
            Replay(Replay(Replay(t, LaunchCalls(kind, f)), FrontCalls(kind, p, f)), z)
              == Replay(t, RunCalls(kind, p, f, e))
  {
    CallsSplit(kind, p, f, e);
    ReplayThree(t, LaunchCalls(kind, f), FrontCalls(kind, p, f), if Started(kind, p, f) then EndCalls(f, e) else []);
  }

  lemma ReplayThree(t: Tally, a: seq<Call>, b: seq<Call>, z: seq<Call>)
    ensures Replay(Replay(Replay(t, a), b), z) == Replay(t, a + (b + z))
  {
    ReplayConcat(t, a, b + z);
    ReplayConcat(Replay(t, a), b, z);
  }

  lemma CallsSplit(kind: Kind, p: Pool, f: Foreign, e: nat)
    ensures RunCalls(kind, p, f, e)
         == LaunchCalls(kind, f) + (FrontCalls(kind, p, f) + if Started(kind, p, f) then EndCalls(f, e) else [])
  {
    var a, b := LaunchCalls(kind, f), OpeningCalls(kind, p, f);
    if Started(kind, p, f) {
      Reassociate(a, b, PageCalls(kind) + AllResultCalls(kind, f.results), EndCalls(f, e));
    }
  }

  lemma Reassociate(a: seq<Call>, b: seq<Call>, x: seq<Call>, z: seq<Call>)
    ensures a + b + (x + z) == a + (b + x + z)
  {
  }

  lemma FrontBooks(t: Tally, kind: Kind, p: Pool, f: Foreign)
    ensures BooksOf(Replay(t, FrontCalls(kind, p, f))) == BooksOf(t)
  {
    FrontNeutral(kind, p, f);
    NeutralCalls(t, FrontCalls(kind, p, f));
  }

  // Between the launch and the end of a run.
  function FrontCalls(kind: Kind, p: Pool, f: Foreign): seq<Call> {
    OpeningCalls(kind, p, f) + if Started(kind, p, f) then PageCalls(kind) + AllResultCalls(kind, f.results) else []
  }

  lemma FrontNeutral(kind: Kind, p: Pool, f: Foreign)
    ensures AllNeutral(FrontCalls(kind, p, f))
  {
    ResultCallsNeutral(kind, f.results);
  }
}
