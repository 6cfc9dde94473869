/** The recorder (internal/metrics/metrics.go): a plain value, and the class that
    updates its fields in place and is proved against that value. */
module Metrics {

  /** Recorded once per set-up event and kept by Reset. */
  datatype Setup = Setup(
    browserLaunches: seq<real>,
    contextCreations: seq<real>,
    cdpConnects: seq<real>,
    browsersCreated: nat,
    contextsCreated: nat,
    pagesCreated: nat)

  datatype Series = Series(
    workflowLatencies: seq<real>,
    stepLatencies: seq<real>,
    requestLatencies: seq<real>,
    httpStepLatencies: seq<real>,
    browserStepLatencies: seq<real>,
    taskRSSDeltas: seq<nat>)

  datatype Counters = Counters(
    created: int, queued: int, active: int, complete: int, failed: int, canceled: int, escalations: int)

  datatype Others = Others(
    lifecycle: seq<LifecycleEvent>, failures: map<string, nat>,
    retries: int, requestsOK: int, requestsFailed: int, wsEvents: int, workflowFailed: int)

  /** Everything that belongs to one measurement window. */
  datatype Window = Window(series: Series, counters: Counters, others: Others)

  datatype LifecycleEvent =
    | BrowserLaunchStarted | BrowserLaunchCompleted | BrowserConnected
    | ContextCreateStarted | ContextCreateCompleted
    | PageCreateStarted | PageCreateCompleted
    | OtherEvent

  const EMPTY_WINDOW :=
    Window(Series([], [], [], [], [], []), Counters(0, 0, 0, 0, 0, 0, 0), Others([], map[], 0, 0, 0, 0, 0))

  const EMPTY_SETUP := Setup([], [], [], 0, 0, 0)

  /** One call on the recorder. */
  datatype Call =
    | NoCall
    | TaskCreated | TaskQueued | TaskActive | TaskCancelled
    | TaskComplete | TaskFailed
    | RecordTaskRSSDelta(bytes: nat)
    | RecordWorkflow(seconds: real)
    | RecordStep(seconds: real)
    | RecordHTTPStep(seconds: real)
    | RecordBrowserStep(seconds: real)
    | RecordRequest(seconds: real, ok: bool)
    | RecordEscalation
    | WorkflowFailed
    | RecordFailure(reason: string)
    | RecordBrowserLaunch(seconds: real)
    | RecordContextCreation(seconds: real)
    | RecordCDPConnect(seconds: real)
    | RecordLifecycle(event: LifecycleEvent)

  function Count(c: Counters, call: Call): Counters {
    match call
    case TaskCreated => c.(created := c.created + 1)
    case TaskQueued => c.(queued := c.queued + 1)
    case TaskActive => c.(active := c.active + 1)
    case TaskCancelled => c.(canceled := c.canceled + 1)
    case TaskComplete => c.(complete := c.complete + 1, active := c.active - 1)
    case TaskFailed => c.(failed := c.failed + 1, active := c.active - 1)
    case RecordEscalation => c.(escalations := c.escalations + 1)
    case _ => c
  }

  function Append(s: Series, call: Call): Series {
    match call
    case RecordTaskRSSDelta(d) => s.(taskRSSDeltas := s.taskRSSDeltas + [d])
    case RecordWorkflow(d) => s.(workflowLatencies := s.workflowLatencies + [d])
    case RecordStep(d) => s.(stepLatencies := s.stepLatencies + [d])
    case RecordHTTPStep(d) => s.(httpStepLatencies := s.httpStepLatencies + [d])
    case RecordBrowserStep(d) => s.(browserStepLatencies := s.browserStepLatencies + [d])
    case RecordRequest(d, _) => s.(requestLatencies := s.requestLatencies + [d])
    case _ => s
  }

  function Observe(o: Others, call: Call): Others {
    match call
    case RecordRequest(_, true) => o.(requestsOK := o.requestsOK + 1)
    case RecordRequest(_, false) => o.(requestsFailed := o.requestsFailed + 1)
    case WorkflowFailed => o.(workflowFailed := o.workflowFailed + 1)
    case RecordFailure(reason) => o.(failures := Bumped(o.failures, reason))
    case RecordLifecycle(ev) => o.(lifecycle := o.lifecycle + [ev])
    case _ => o
  }

  function SetUp(s: Setup, call: Call): Setup {
    match call
    case RecordBrowserLaunch(d) => s.(browserLaunches := s.browserLaunches + [d])
    case RecordContextCreation(d) => s.(contextCreations := s.contextCreations + [d])
    case RecordCDPConnect(d) => s.(cdpConnects := s.cdpConnects + [d])
    case RecordLifecycle(ev) =>
      if ev.BrowserLaunchStarted? || ev.BrowserLaunchCompleted? || ev.BrowserConnected? then
        s.(browsersCreated := s.browsersCreated + 1)
      else if ev.ContextCreateStarted? || ev.ContextCreateCompleted? then
        s.(contextsCreated := s.contextsCreated + 1)
      else if ev.PageCreateStarted? || ev.PageCreateCompleted? then
        s.(pagesCreated := s.pagesCreated + 1)
      else s
    case _ => s
  }

  datatype Tally = Tally(setup: Setup, window: Window, measurementElapsed: real)
  {
    /** The recorder after one call. */
    function After(call: Call): Tally {
      this.(setup := SetUp(setup, call),
            window := Window(Append(window.series, call), Count(window.counters, call), Observe(window.others, call)))
    }

    /** Clears the measurement window and keeps the set-up series. */
    function Reset(): Tally { this.(window := EMPTY_WINDOW) }

    function SetMeasurementElapsed(d: real): Tally { this.(measurementElapsed := d) }
  }

  const EMPTY_TALLY := Tally(EMPTY_SETUP, EMPTY_WINDOW, 0.0)

  function Bumped(m: map<string, nat>, k: string): map<string, nat> {
    m[k := (if k in m then m[k] else 0) + 1]
  }

  /** The recorder after a list of calls. */
  function Replay(t: Tally, calls: seq<Call>): Tally
    decreases |calls|
  {
    if calls == [] then t else Replay(t.After(calls[0]), calls[1..])
  }

  lemma {:induction false} ReplayConcat(t: Tally, xs: seq<Call>, ys: seq<Call>)
    ensures Replay(t, xs + ys) == Replay(Replay(t, xs), ys)
    decreases |xs|
  {
    if xs == [] {
      assert xs + ys == ys;
    } else {
      assert (xs + ys)[1..] == xs[1..] + ys;
      ReplayConcat(t.After(xs[0]), xs[1..], ys);
    }
  }

  lemma ReplayOne(t: Tally, a: Call)
    ensures Replay(t, [a]) == t.After(a)
  {
    assert [a][1..] == [];
  }

  lemma ReplayTwo(t: Tally, a: Call, b: Call)
    ensures Replay(t, [a, b]) == t.After(a).After(b)
  {
    assert [a, b][1..] == [b];
    ReplayOne(t.After(a), b);
  }

  /** The part of the recorder that the scheduler's accounting is about. */
  datatype Books = Books(counters: Counters, latencies: seq<real>, deltas: seq<nat>, launches: seq<real>)

  function BooksOf(t: Tally): Books {
    Books(t.window.counters, t.window.series.workflowLatencies, t.window.series.taskRSSDeltas, t.setup.browserLaunches)
  }

  // The calls that leave the books alone.
  predicate Neutral(call: Call) {
    call.RecordStep? || call.RecordHTTPStep? || call.RecordBrowserStep? || call.RecordRequest? || call.RecordFailure? ||
    call.RecordLifecycle? || call.RecordContextCreation? || call.RecordCDPConnect? || call.WorkflowFailed?
  }

  predicate AllNeutral(calls: seq<Call>) { forall c | c in calls :: Neutral(c) }

  lemma {:induction false} NeutralCalls(t: Tally, calls: seq<Call>)
    requires AllNeutral(calls)
    ensures BooksOf(Replay(t, calls)) == BooksOf(t)
    decreases |calls|
  {
    if calls != [] {
      assert calls[0] in calls;
      assert forall c | c in calls[1..] :: c in calls;
      NeutralCalls(t.After(calls[0]), calls[1..]);
    }
  }

  // The set-up part depends on the set-up part alone, and the window on the window.
  lemma {:induction false} ReplayParts(t: Tally, u: Tally, calls: seq<Call>)
    ensures t.setup == u.setup ==> Replay(t, calls).setup == Replay(u, calls).setup
    ensures t.window == u.window ==> Replay(t, calls).window == Replay(u, calls).window
    decreases |calls|
  {
    if calls != [] {
      ReplayParts(t.After(calls[0]), u.After(calls[0]), calls[1..]);
    }
  }

  /** The recorder object. Its fields are grouped as the records above. */
  class Recorder {
    var setup: Setup
    var series: Series
    var counters: Counters
    var others: Others
    var measurementElapsed: real

    /** The value of the recorder. */
    ghost function View(): Tally
      reads this
    {
      Tally(setup, Window(series, counters, others), measurementElapsed)
    }

    /** Nothing of a measurement window is recorded. */
    predicate Cleared()
      reads this
    {
      && series.workflowLatencies == series.stepLatencies == series.requestLatencies == []
      && series.httpStepLatencies == series.browserStepLatencies == [] && series.taskRSSDeltas == []
      && counters.created == counters.queued == counters.active == counters.complete == counters.failed == 0
      && counters.canceled == counters.escalations == 0
      && others.lifecycle == [] && others.failures == map[]
      && others.retries == others.requestsOK == others.requestsFailed == others.wsEvents == others.workflowFailed == 0
    }

    constructor ()
      ensures View() == EMPTY_TALLY
      ensures Cleared() && measurementElapsed == 0.0
      ensures setup.browserLaunches == setup.contextCreations == setup.cdpConnects == []
      ensures setup.browsersCreated == setup.contextsCreated == setup.pagesCreated == 0
    {
      setup := EMPTY_SETUP;
      series, counters, others := EMPTY_WINDOW.series, EMPTY_WINDOW.counters, EMPTY_WINDOW.others;
      measurementElapsed := 0.0;
    }

    /** Clears the measurement data field by field and keeps the set-up series. */
    method Reset()
      modifies this
      ensures View() == old(View()).Reset()
      ensures setup == old(setup) && measurementElapsed == old(measurementElapsed) && Cleared()
    {
      series := series.(workflowLatencies := [], stepLatencies := [], requestLatencies := [],
                        httpStepLatencies := [], browserStepLatencies := [], taskRSSDeltas := []);
      counters := counters.(created := 0, queued := 0, active := 0, complete := 0, failed := 0, canceled := 0,
                            escalations := 0);
      others := others.(lifecycle := [], failures := map[], retries := 0, requestsOK := 0, requestsFailed := 0,
                        wsEvents := 0, workflowFailed := 0);
    }

    method TaskCreated()
      modifies this
      ensures View() == old(View()).After(Call.TaskCreated)
      ensures counters.created == old(counters.created) + 1
    {
      counters := counters.(created := counters.created + 1);
    }

    method TaskQueued()
      modifies this
      ensures View() == old(View()).After(Call.TaskQueued)
      ensures counters.queued == old(counters.queued) + 1
    {
      counters := counters.(queued := counters.queued + 1);
    }

    method TaskActive()
      modifies this
      ensures View() == old(View()).After(Call.TaskActive)
      ensures counters.active == old(counters.active) + 1
    {
      counters := counters.(active := counters.active + 1);
    }

    method TaskComplete()
      modifies this
      ensures View() == old(View()).After(Call.TaskComplete)
      ensures counters.complete == old(counters.complete) + 1 && counters.active == old(counters.active) - 1
    {
      counters := counters.(complete := counters.complete + 1, active := counters.active - 1);
    }

    method TaskFailed()
      modifies this
      ensures View() == old(View()).After(Call.TaskFailed)
      ensures counters.failed == old(counters.failed) + 1 && counters.active == old(counters.active) - 1
    {
      counters := counters.(failed := counters.failed + 1, active := counters.active - 1);
    }

    method TaskCancelled()
      modifies this
      ensures View() == old(View()).After(Call.TaskCancelled)
      ensures counters.canceled == old(counters.canceled) + 1
    {
      counters := counters.(canceled := counters.canceled + 1);
    }

    method RecordEscalation()
      modifies this
      ensures View() == old(View()).After(Call.RecordEscalation)
      ensures counters.escalations == old(counters.escalations) + 1
    {
      counters := counters.(escalations := counters.escalations + 1);
    }

    method RecordTaskRSSDelta(bytes: nat)
      modifies this
      ensures View() == old(View()).After(Call.RecordTaskRSSDelta(bytes))
      ensures series.taskRSSDeltas == old(series.taskRSSDeltas) + [bytes]
    {
      series := series.(taskRSSDeltas := series.taskRSSDeltas + [bytes]);
    }

    method RecordWorkflow(seconds: real)
      modifies this
      ensures View() == old(View()).After(Call.RecordWorkflow(seconds))
      ensures series.workflowLatencies == old(series.workflowLatencies) + [seconds]
    {
      series := series.(workflowLatencies := series.workflowLatencies + [seconds]);
    }

    method RecordStep(seconds: real)
      modifies this
      ensures View() == old(View()).After(Call.RecordStep(seconds))
      ensures series.stepLatencies == old(series.stepLatencies) + [seconds]
    {
      series := series.(stepLatencies := series.stepLatencies + [seconds]);
    }

    method RecordHTTPStep(seconds: real)
      modifies this
      ensures View() == old(View()).After(Call.RecordHTTPStep(seconds))
      ensures series.httpStepLatencies == old(series.httpStepLatencies) + [seconds]
    {
      series := series.(httpStepLatencies := series.httpStepLatencies + [seconds]);
    }

    method RecordBrowserStep(seconds: real)
      modifies this
      ensures View() == old(View()).After(Call.RecordBrowserStep(seconds))
      ensures series.browserStepLatencies == old(series.browserStepLatencies) + [seconds]
    {
      series := series.(browserStepLatencies := series.browserStepLatencies + [seconds]);
    }

    method WorkflowFailed()
      modifies this
      ensures View() == old(View()).After(Call.WorkflowFailed)
      ensures others.workflowFailed == old(others.workflowFailed) + 1
    {
      others := others.(workflowFailed := others.workflowFailed + 1);
    }

    method RecordFailure(reason: string)
      modifies this
      ensures View() == old(View()).After(Call.RecordFailure(reason))
      ensures others.failures.Keys == old(others.failures.Keys) + {reason}
      ensures others.failures[reason] == 1 + if reason in old(others.failures) then old(others.failures[reason]) else 0
      ensures forall r | r in old(others.failures) && r != reason :: others.failures[r] == old(others.failures[r])
    {
      others := others.(failures := Bumped(others.failures, reason));
    }

    method RecordBrowserLaunch(seconds: real)
      modifies this
      ensures View() == old(View()).After(Call.RecordBrowserLaunch(seconds))
      ensures setup.browserLaunches == old(setup.browserLaunches) + [seconds]
    {
      setup := setup.(browserLaunches := setup.browserLaunches + [seconds]);
    }

    method RecordContextCreation(seconds: real)
      modifies this
      ensures View() == old(View()).After(Call.RecordContextCreation(seconds))
      ensures setup.contextCreations == old(setup.contextCreations) + [seconds]
    {
      setup := setup.(contextCreations := setup.contextCreations + [seconds]);
    }

    method RecordCDPConnect(seconds: real)
      modifies this
      ensures View() == old(View()).After(Call.RecordCDPConnect(seconds))
      ensures setup.cdpConnects == old(setup.cdpConnects) + [seconds]
    {
      setup := setup.(cdpConnects := setup.cdpConnects + [seconds]);
    }

    method RecordRequest(seconds: real, ok: bool)
      modifies this
      ensures View() == old(View()).After(Call.RecordRequest(seconds, ok))
      ensures series.requestLatencies == old(series.requestLatencies) + [seconds]
      ensures others.requestsOK == old(others.requestsOK) + (if ok then 1 else 0)
      ensures others.requestsFailed == old(others.requestsFailed) + (if ok then 0 else 1)
    {
      series := series.(requestLatencies := series.requestLatencies + [seconds]);
      if ok {
        others := others.(requestsOK := others.requestsOK + 1);
      } else {
        others := others.(requestsFailed := others.requestsFailed + 1);
      }
    }

    method RecordLifecycle(event: LifecycleEvent)
      modifies this
      ensures View() == old(View()).After(Call.RecordLifecycle(event))
      ensures others.lifecycle == old(others.lifecycle) + [event]
      ensures event.BrowserLaunchStarted? || event.BrowserLaunchCompleted? || event.BrowserConnected? ==>
                setup == old(setup).(browsersCreated := old(setup.browsersCreated) + 1)
      ensures event.ContextCreateStarted? || event.ContextCreateCompleted? ==>
                setup == old(setup).(contextsCreated := old(setup.contextsCreated) + 1)
      ensures event.PageCreateStarted? || event.PageCreateCompleted? ==>
                setup == old(setup).(pagesCreated := old(setup.pagesCreated) + 1)
      ensures event.OtherEvent? ==> setup == old(setup)
    {
      others := others.(lifecycle := others.lifecycle + [event]);
      match event {
        case BrowserLaunchStarted | BrowserLaunchCompleted | BrowserConnected =>
          setup := setup.(browsersCreated := setup.browsersCreated + 1);
        case ContextCreateStarted | ContextCreateCompleted =>
          setup := setup.(contextsCreated := setup.contextsCreated + 1);
        case PageCreateStarted | PageCreateCompleted =>
          setup := setup.(pagesCreated := setup.pagesCreated + 1);
        case OtherEvent =>
      }
    }

    method SetMeasurementElapsed(d: real)
      modifies this
      ensures View() == old(View()).SetMeasurementElapsed(d)
      ensures measurementElapsed == d
    {
      measurementElapsed := d;
    }
  }
}
