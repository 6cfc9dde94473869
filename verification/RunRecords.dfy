/** What one task's run leaves in each series and counter of the recorder, told from the results of its steps alone
    (the loops over results in each worker.go). */
module RunRecords {
  import opened Counting
  import opened Metrics
  import opened Contexts
  import opened Workflow
  import opened Workers

  // ----- told from the results -----

  /** The times of the steps that went well and took time, in order. */
  function StepSeconds(rs: seq<StepResult>): seq<real> {
    if rs == [] then []
    else
      var r := rs[|rs| - 1];
      StepSeconds(rs[..|rs| - 1]) + if r.status == StatusOk && r.seconds > 0.0 then [r.seconds] else []
  }

  /** Those of the steps that run in the browser, and of those that do not. */
  function BrowserSeconds(p: Policy, rs: seq<StepResult>): seq<real> {
    if rs == [] then []
    else
      var r := rs[|rs| - 1];
      BrowserSeconds(p, rs[..|rs| - 1])
      + if r.status == StatusOk && r.seconds > 0.0 && BrowserOnly(p, r.op) then [r.seconds] else []
  }

  function HTTPSeconds(p: Policy, rs: seq<StepResult>): seq<real> {
    if rs == [] then []
    else
      var r := rs[|rs| - 1];
      HTTPSeconds(p, rs[..|rs| - 1])
      + if r.status == StatusOk && r.seconds > 0.0 && !BrowserOnly(p, r.op) then [r.seconds] else []
  }

  /** The times of the requests behind the steps, and how many of these steps went well, or did not. */
  function RequestSeconds(rs: seq<StepResult>): seq<real> {
    if rs == [] then []
    else
      var r := rs[|rs| - 1];
      RequestSeconds(rs[..|rs| - 1]) + if r.request.Some? then [r.request.value] else []
  }

  function Requests(rs: seq<StepResult>, ok: bool): nat {
    if rs == [] then 0
    else
      var r := rs[|rs| - 1];
      Requests(rs[..|rs| - 1], ok) + if r.request.Some? && (r.status == StatusOk) == ok then 1 else 0
  }

  /** How many steps failed for this reason. */
  function Failures(rs: seq<StepResult>, reason: string): nat {
    if rs == [] then 0
    else
      Failures(rs[..|rs| - 1], reason) + if rs[|rs| - 1].error == Some(reason) then 1 else 0
  }

  function FailureCount(t: Tally, reason: string): nat {
    if reason in t.window.others.failures then t.window.others.failures[reason] else 0
  }

  // ----- told from the recorder -----

  ghost predicate StepsTold(kind: Kind, t: Tally, u: Tally, rs: seq<StepResult>) {
    var s, s' := t.window.series, u.window.series;
    match kind
    case HybridKind(p) =>
      && s'.httpStepLatencies == s.httpStepLatencies + HTTPSeconds(p, rs)
      && s'.browserStepLatencies == s.browserStepLatencies + BrowserSeconds(p, rs)
      && s'.stepLatencies == s.stepLatencies
    case _ =>
      && s'.stepLatencies == s.stepLatencies + StepSeconds(rs)
      && s'.httpStepLatencies == s.httpStepLatencies && s'.browserStepLatencies == s.browserStepLatencies
  }

  ghost predicate RequestsTold(kind: Kind, t: Tally, u: Tally, rs: seq<StepResult>) {
    var o, o' := t.window.others, u.window.others;
    if kind.HTTPKind? then
      && u.window.series.requestLatencies == t.window.series.requestLatencies + RequestSeconds(rs)
      && o'.requestsOK == o.requestsOK + Requests(rs, true)
      && o'.requestsFailed == o.requestsFailed + Requests(rs, false)
    else
      && u.window.series.requestLatencies == t.window.series.requestLatencies
      && o'.requestsOK == o.requestsOK && o'.requestsFailed == o.requestsFailed
  }

  ghost predicate FailuresTold(t: Tally, u: Tally, rs: seq<StepResult>) {
    forall reason: string :: FailureCount(u, reason) == FailureCount(t, reason) + Failures(rs, reason)
  }

  /** u is t with what these results have to tell. */
  ghost predicate ResultsTold(kind: Kind, t: Tally, u: Tally, rs: seq<StepResult>) {
    StepsTold(kind, t, u, rs) && RequestsTold(kind, t, u, rs) && FailuresTold(t, u, rs)
  }

  // ----- one result, then all -----

  lemma StepTold(kind: Kind, t: Tally, r: StepResult)
    ensures var calls := if r.status.StatusOk? && r.seconds > 0.0 then [StepCall(kind, r)] else [];
            var u := Replay(t, calls);
            StepsTold(kind, t, u, [r]) && u.window.series.requestLatencies == t.window.series.requestLatencies
            && u.window.others == t.window.others
  {
    ReplayOne(t, StepCall(kind, r));
    assert [r][..0] == [];
  }

  lemma RequestTold(kind: Kind, t: Tally, r: StepResult)
    ensures var u := Replay(t, RequestCalls(kind, r));
            RequestsTold(kind, t, u, [r]) && StepsTold(kind, t, u, [])
            && u.window.others.failures == t.window.others.failures
  {
    if kind.HTTPKind? && r.request.Some? {
      ReplayOne(t, Call.RecordRequest(r.request.value, r.status.StatusOk?));
    }
    assert [r][..0] == [];
  }

  lemma ErrorTold(kind: Kind, t: Tally, r: StepResult)
    ensures var u := Replay(t, if r.error.Some? then [Call.RecordFailure(r.error.value)] else []);
            FailuresTold(t, u, [r]) && StepsTold(kind, t, u, []) && RequestsTold(kind, t, u, [])
  {
    if r.error.Some? {
      ReplayOne(t, Call.RecordFailure(r.error.value));
    }
    assert [r][..0] == [];
  }

  lemma ResultTold(kind: Kind, t: Tally, r: StepResult)
    ensures ResultsTold(kind, t, Replay(t, ResultCalls(kind, r)), [r])
  {
    var step := if r.status.StatusOk? && r.seconds > 0.0 then [StepCall(kind, r)] else [];
    var request := RequestCalls(kind, r);
    var error := if r.error.Some? then [Call.RecordFailure(r.error.value)] else [];
    ReplayConcat(t, step + request, error);
    ReplayConcat(t, step, request);
    StepTold(kind, t, r);
    RequestTold(kind, Replay(t, step), r);
    ErrorTold(kind, Replay(Replay(t, step), request), r);
  }

  lemma Grouped(a: seq<real>, b: seq<real>, z: seq<real>)
    ensures a + b + z == a + (b + z)
  {
  }

  // One more result adds what it has alone.
  lemma OneMore(p: Policy, front: seq<StepResult>, r: StepResult)
    ensures StepSeconds(front + [r]) == StepSeconds(front) + StepSeconds([r])
    ensures HTTPSeconds(p, front + [r]) == HTTPSeconds(p, front) + HTTPSeconds(p, [r])
    ensures BrowserSeconds(p, front + [r]) == BrowserSeconds(p, front) + BrowserSeconds(p, [r])
    ensures RequestSeconds(front + [r]) == RequestSeconds(front) + RequestSeconds([r])
  {
    assert (front + [r])[..|front + [r]| - 1] == front && [r][..0] == [];
    Unit([r.seconds]);
    if r.request.Some? {
      Unit([r.request.value]);
    }
  }

  lemma OneMoreRequest(front: seq<StepResult>, r: StepResult, ok: bool)
    ensures Requests(front + [r], ok) == Requests(front, ok) + Requests([r], ok)
  {
    assert (front + [r])[..|front + [r]| - 1] == front && [r][..0] == [];
  }

  lemma Unit(a: seq<real>)
    ensures [] + a == a
  {
  }

  lemma MoreSteps(kind: Kind, t: Tally, m: Tally, u: Tally, front: seq<StepResult>, r: StepResult)
    requires StepsTold(kind, t, m, front) && StepsTold(kind, m, u, [r])
    ensures StepsTold(kind, t, u, front + [r])
  {
    match kind
    case HybridKind(p) =>
      OneMore(p, front, r);
      Grouped(t.window.series.httpStepLatencies, HTTPSeconds(p, front), HTTPSeconds(p, [r]));
      Grouped(t.window.series.browserStepLatencies, BrowserSeconds(p, front), BrowserSeconds(p, [r]));
    case _ =>
      OneMore(OtherPolicy, front, r);
      Grouped(t.window.series.stepLatencies, StepSeconds(front), StepSeconds([r]));
  }

  lemma MoreRequests(kind: Kind, t: Tally, m: Tally, u: Tally, front: seq<StepResult>, r: StepResult)
    requires RequestsTold(kind, t, m, front) && RequestsTold(kind, m, u, [r])
    ensures RequestsTold(kind, t, u, front + [r])
  {
    OneMoreRequest(front, r, true);
    OneMoreRequest(front, r, false);
    OneMore(OtherPolicy, front, r);
    Grouped(t.window.series.requestLatencies, RequestSeconds(front), RequestSeconds([r]));
  }

  lemma MoreFailures(t: Tally, m: Tally, u: Tally, front: seq<StepResult>, r: StepResult)
    requires FailuresTold(t, m, front) && FailuresTold(m, u, [r])
    ensures FailuresTold(t, u, front + [r])
  {
    assert (front + [r])[..|front|] == front && [r][..0] == [];
    forall reason: string
      ensures FailureCount(u, reason) == FailureCount(t, reason) + Failures(front + [r], reason)
    {
      assert FailureCount(m, reason) == FailureCount(t, reason) + Failures(front, reason);
      assert FailureCount(u, reason) == FailureCount(m, reason) + Failures([r], reason);
    }
  }

  lemma MoreTold(kind: Kind, t: Tally, m: Tally, u: Tally, front: seq<StepResult>, r: StepResult)
    requires ResultsTold(kind, t, m, front) && ResultsTold(kind, m, u, [r])
    ensures ResultsTold(kind, t, u, front + [r])
  {
    MoreSteps(kind, t, m, u, front, r);
    MoreRequests(kind, t, m, u, front, r);
    MoreFailures(t, m, u, front, r);
  }

  /** Recording a list of results adds exactly this: in the hybrid kind each measured step's time to the series of its
      transport, in the others to the one series of steps; in the HTTP kind every request with its outcome; in all kinds
      every failure under its reason. */
  lemma {:induction false} ResultsRecorded(kind: Kind, t: Tally, rs: seq<StepResult>)
    ensures ResultsTold(kind, t, Replay(t, AllResultCalls(kind, rs)), rs)
  {
    if rs != [] {
      var front, last := rs[..|rs| - 1], rs[|rs| - 1];
      assert front + [last] == rs;
      ResultsRecorded(kind, t, front);
      OneMoreRecorded(kind, t, front, last);
    }
  }

  lemma OneMoreRecorded(kind: Kind, t: Tally, front: seq<StepResult>, last: StepResult)
    requires ResultsTold(kind, t, Replay(t, AllResultCalls(kind, front)), front)
    ensures ResultsTold(kind, t, Replay(t, AllResultCalls(kind, front + [last])), front + [last])
  {
    var m := Replay(t, AllResultCalls(kind, front));
    MoreResultCalls(kind, front + [last], |front|);
    assert (front + [last])[..|front|] == front && (front + [last])[..|front| + 1] == front + [last];
    ReplayConcat(t, AllResultCalls(kind, front), ResultCalls(kind, last));
    ResultTold(kind, m, last);
    MoreTold(kind, t, m, Replay(m, ResultCalls(kind, last)), front, last);
  }

  // ----- a whole run -----

  // The calls that tell nothing of single steps.
  predicate Aside(c: Call) {
    c.RecordBrowserLaunch? || c.RecordLifecycle? || c.RecordContextCreation? || c.RecordEscalation? || c.RecordWorkflow?
    || c.WorkflowFailed?
  }

  lemma {:induction false} AsidesTellNothing(kind: Kind, t: Tally, calls: seq<Call>)
    requires forall c | c in calls :: Aside(c)
    ensures ResultsTold(kind, t, Replay(t, calls), [])
    decreases |calls|
  {
    if calls != [] {
      assert Aside(calls[0]);
      assert forall c | c in calls[1..] :: c in calls;
      AsidesTellNothing(kind, t.After(calls[0]), calls[1..]);
    }
  }

  lemma {:induction false} RepeatedAside(call: Call, n: nat)
    requires Aside(call)
    ensures forall c | c in Repeated(call, n) :: Aside(c)
  {
    if n > 0 {
      RepeatedAside(call, n - 1);
    }
  }

  lemma Around(kind: Kind, t: Tally, a: Tally, b: Tally, u: Tally, rs: seq<StepResult>)
    requires ResultsTold(kind, t, a, []) && ResultsTold(kind, a, b, rs) && ResultsTold(kind, b, u, [])
    ensures ResultsTold(kind, t, u, rs)
  {
    forall reason: string ensures FailureCount(u, reason) == FailureCount(t, reason) + Failures(rs, reason) {
      assert FailureCount(a, reason) == FailureCount(t, reason) + Failures([], reason);
      assert FailureCount(b, reason) == FailureCount(a, reason) + Failures(rs, reason);
      assert FailureCount(u, reason) == FailureCount(b, reason) + Failures([], reason);
    }
  }

  lemma OpeningAside(kind: Kind, p: Pool, f: Foreign)
    ensures forall c | c in LaunchCalls(kind, f) + OpeningCalls(kind, p, f) + PageCalls(kind) :: Aside(c)
  {
  }

  lemma EndAside(f: Foreign, e: nat)
    ensures forall c | c in EndCalls(f, e) :: Aside(c)
  {
    RepeatedAside(Call.RecordEscalation, e);
  }

  // What a run has to open before its workflow, and that it has it.
  predicate GetsToWorkflow(kind: Kind, p: Pool, f: Foreign) {
    && (kind.BrowserKind? ==> f.launch.Some?)
    && (kind.ContextKind? || kind.CDPKind? || kind.HybridKind? ==> Acquired(p, f.made).context.Some?)
    && (kind.HTTPKind? || f.pageOk)
  }

  /** Of a run's steps, in any kind, the recorder is told exactly the results; of a run that gets to no workflow it is
      told of none. */
  lemma RunTold(t: Tally, kind: Kind, p: Pool, f: Foreign, e: nat)
    ensures ResultsTold(kind, t, Replay(t, RunCalls(kind, p, f, e)),
                        if GetsToWorkflow(kind, p, f) then f.results else [])
  {
    OpeningAside(kind, p, f);
    if Started(kind, p, f) {
      StartedTold(t, kind, p, f, e);
    } else {
      var a := LaunchCalls(kind, f) + OpeningCalls(kind, p, f);
      AsidesTellNothing(kind, t, a);
      assert a + [] == a;
    }
  }

  lemma StartedTold(t: Tally, kind: Kind, p: Pool, f: Foreign, e: nat)
    requires Started(kind, p, f)
    ensures ResultsTold(kind, t, Replay(t, RunCalls(kind, p, f, e)), f.results)
  {
    var a, b := LaunchCalls(kind, f) + OpeningCalls(kind, p, f), PageCalls(kind);
    var r, z := AllResultCalls(kind, f.results), EndCalls(f, e);
    OpeningAside(kind, p, f);
    EndAside(f, e);
    InParts(t, a, b, r, z);
    AsidesTellNothing(kind, t, a + b);
    ResultsRecorded(kind, Replay(t, a + b), f.results);
    AsidesTellNothing(kind, Replay(Replay(t, a + b), r), z);
    Around(kind, t, Replay(t, a + b), Replay(Replay(t, a + b), r), Replay(t, RunCalls(kind, p, f, e)), f.results);
  }

  lemma InParts(t: Tally, a: seq<Call>, b: seq<Call>, r: seq<Call>, z: seq<Call>)
    ensures Replay(t, a + (b + r + z)) == Replay(Replay(Replay(t, a + b), r), z)
  {
    Regrouped(a, b, r, z);
    ReplayThree(t, a + b, r, z);
  }

  lemma Regrouped(a: seq<Call>, b: seq<Call>, r: seq<Call>, z: seq<Call>)
    ensures a + (b + r + z) == (a + b) + (r + z)
  {
  }

  // ----- what a run leaves besides -----

  predicate TellsEnd(c: Call) { c.WorkflowFailed? }

  predicate TellsSetup(c: Call) {
    c.RecordBrowserLaunch? || c.RecordContextCreation? || c.RecordCDPConnect? || c.RecordLifecycle?
  }

  lemma {:induction false} LeavesAlone(t: Tally, calls: seq<Call>)
    ensures (forall c | c in calls :: !TellsEnd(c)) ==>
              Replay(t, calls).window.others.workflowFailed == t.window.others.workflowFailed
    ensures (forall c | c in calls :: !TellsSetup(c)) ==> Replay(t, calls).setup == t.setup
    decreases |calls|
  {
    if calls != [] {
      assert calls[0] in calls && forall c | c in calls[1..] :: c in calls;
      LeavesAlone(t.After(calls[0]), calls[1..]);
    }
  }

  lemma {:induction false} ResultsLeaveBoth(kind: Kind, rs: seq<StepResult>)
    ensures forall c | c in AllResultCalls(kind, rs) :: !TellsEnd(c) && !TellsSetup(c)
  {
    if rs != [] {
      ResultsLeaveBoth(kind, rs[..|rs| - 1]);
    }
  }

  lemma {:induction false} RepeatedOnly(call: Call, n: nat)
    ensures forall c | c in Repeated(call, n) :: c == call
  {
    if n > 0 {
      RepeatedOnly(call, n - 1);
    }
  }

  lemma EndTold(t: Tally, f: Foreign, e: nat)
    ensures var u := Replay(t, EndCalls(f, e));
            u.setup == t.setup && u.window.others.workflowFailed == t.window.others.workflowFailed + One(f.failed)
  {
    if f.failed {
      ReplayOne(t, Call.WorkflowFailed);
    } else {
      RepeatedOnly(Call.RecordEscalation, e);
      LeavesAlone(t, EndCalls(f, e));
    }
  }

  /** A run asks its pool for a context that has to be made first. */
  predicate AsksForContext(kind: Kind, p: Pool) {
    (kind.ContextKind? || kind.CDPKind? || kind.HybridKind?) && !p.closed && p.available == []
  }

  // What a run adds to the set-up data before its page.
  ghost predicate Opened(kind: Kind, p: Pool, f: Foreign, s: Setup, s': Setup) {
    && s'.browserLaunches
       == s.browserLaunches + (if kind.BrowserKind? && f.launch.Some? then [f.launch.value] else [])
    && s'.browsersCreated == s.browsersCreated + One(kind.BrowserKind? && f.launch.Some?)
    && s'.contextsCreated == s.contextsCreated + One(AsksForContext(kind, p))
    && s'.contextCreations
       == s.contextCreations + (if AsksForContext(kind, p) && f.made.Some? then [f.createSeconds] else [])
    && s'.pagesCreated == s.pagesCreated && s'.cdpConnects == s.cdpConnects
  }

  lemma LaunchTold(t: Tally, p: Pool, f: Foreign)
    requires f.launch.Some?
    ensures var calls := LaunchCalls(BrowserKind, f) + OpeningCalls(BrowserKind, p, f);
            Opened(BrowserKind, p, f, t.setup, Replay(t, calls).setup)
  {
    var a, b := Call.RecordBrowserLaunch(f.launch.value), Call.RecordLifecycle(BrowserLaunchCompleted);
    ReplayTwo(t, a, b);
    assert LaunchCalls(BrowserKind, f) + OpeningCalls(BrowserKind, p, f) == [a, b];
  }

  lemma AskTold(t: Tally, kind: Kind, p: Pool, f: Foreign)
    requires AsksForContext(kind, p)
    ensures Opened(kind, p, f, t.setup, Replay(t, LaunchCalls(kind, f) + OpeningCalls(kind, p, f)).setup)
  {
    CreationRecord(t, f.made, f.createSeconds);
    assert LaunchCalls(kind, f) + OpeningCalls(kind, p, f) == CreationCalls(f.made, f.createSeconds);
  }

  lemma OpeningTold(t: Tally, kind: Kind, p: Pool, f: Foreign)
    ensures Opened(kind, p, f, t.setup, Replay(t, LaunchCalls(kind, f) + OpeningCalls(kind, p, f)).setup)
  {
    if kind.BrowserKind? && f.launch.Some? {
      LaunchTold(t, p, f);
    } else if AsksForContext(kind, p) {
      AskTold(t, kind, p, f);
    } else {
      assert LaunchCalls(kind, f) + OpeningCalls(kind, p, f) == [];
    }
  }

  lemma PageTold(t: Tally, kind: Kind)
    ensures Replay(t, PageCalls(kind)).setup == t.setup.(pagesCreated := t.setup.pagesCreated + One(TellsPages(kind)))
  {
    ReplayOne(t, Call.RecordLifecycle(PageCreateCompleted));
  }

  /** The set-up data after a run: its browser's launch and announcement if it launched one, the context made for it if
      one was, its page if it got one and is of one of the two kinds that tell of theirs. */
  lemma RunSetup(t: Tally, kind: Kind, p: Pool, f: Foreign, e: nat)
    ensures var s, s' := t.setup, Replay(t, RunCalls(kind, p, f, e)).setup;
            && s'.browserLaunches
               == s.browserLaunches + (if kind.BrowserKind? && f.launch.Some? then [f.launch.value] else [])
            && s'.browsersCreated == s.browsersCreated + One(kind.BrowserKind? && f.launch.Some?)
            && s'.contextsCreated == s.contextsCreated + One(AsksForContext(kind, p))
            && s'.contextCreations
               == s.contextCreations + (if AsksForContext(kind, p) && f.made.Some? then [f.createSeconds] else [])
            && s'.pagesCreated
               == s.pagesCreated + One((kind.BrowserKind? || kind.ContextKind?) && GetsToWorkflow(kind, p, f))
            && s'.cdpConnects == s.cdpConnects
  {
    var a := LaunchCalls(kind, f) + OpeningCalls(kind, p, f);
    OpeningTold(t, kind, p, f);
    if Started(kind, p, f) {
      AfterOpening(t, kind, p, f, e);
    } else {
      assert a + [] == a;
    }
  }

  lemma AfterOpening(t: Tally, kind: Kind, p: Pool, f: Foreign, e: nat)
    requires Started(kind, p, f)
    ensures var t1, u := Replay(t, LaunchCalls(kind, f) + OpeningCalls(kind, p, f)), Replay(t, RunCalls(kind, p, f, e));
            && u.setup == t1.setup.(pagesCreated := t1.setup.pagesCreated + One(TellsPages(kind)))
            && u.window.others.workflowFailed == t1.window.others.workflowFailed + One(f.failed)
  {
    var a, b := LaunchCalls(kind, f) + OpeningCalls(kind, p, f), PageCalls(kind);
    var r, z := AllResultCalls(kind, f.results), EndCalls(f, e);
    InParts(t, a, b, r, z);
    ReplayConcat(t, a, b);
    PageTold(Replay(t, a), kind);
    LeavesAlone(Replay(t, a), b);
    ResultsLeaveBoth(kind, f.results);
    LeavesAlone(Replay(t, a + b), r);
    EndTold(Replay(Replay(t, a + b), r), f, e);
  }

  /** A failed workflow is counted exactly when the run got to its workflow and that failed. */
  lemma RunFailure(t: Tally, kind: Kind, p: Pool, f: Foreign, e: nat)
    ensures Replay(t, RunCalls(kind, p, f, e)).window.others.workflowFailed
         == t.window.others.workflowFailed + One(GetsToWorkflow(kind, p, f) && f.failed)
  {
    var a := LaunchCalls(kind, f) + OpeningCalls(kind, p, f);
    LeavesAlone(t, a);
    if Started(kind, p, f) {
      AfterOpening(t, kind, p, f, e);
    } else {
      assert a + [] == a;
    }
  }

  /** A run succeeds if and only if it gets to its workflow and that goes well. */
  lemma SucceedsIff(kind: Kind, p: Pool, f: Foreign)
    ensures RunSucceeds(kind, p, f) <==> GetsToWorkflow(kind, p, f) && !f.failed
  {
  }
}
