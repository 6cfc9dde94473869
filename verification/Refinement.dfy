/** The scheduler's worker steps carry out the workers' Run: whatever a Run of any kind does, some sequence of steps of
    that worker makes exactly its recorder calls and comes to the same result. */
module Refinement {
  import opened Counting
  import opened Metrics
  import opened Workflow
  import opened Contexts
  import opened Workers
  import opened Protocol

  /** The calls of a log; a step that calls nothing is no call. */
  function Told(log: seq<Call>): seq<Call> {
    if log == [] then [] else Told(log[..|log| - 1]) + if log[|log| - 1].NoCall? then [] else [log[|log| - 1]]
  }

  lemma {:induction false} ToldConcat(xs: seq<Call>, ys: seq<Call>)
    ensures Told(xs + ys) == Told(xs) + Told(ys)
    decreases |ys|
  {
    if ys == [] {
      assert xs + ys == xs;
    } else {
      var front := ys[..|ys| - 1];
      assert (xs + ys)[..|xs + ys| - 1] == xs + front;
      ToldConcat(xs, front);
      var last := if ys[|ys| - 1].NoCall? then [] else [ys[|ys| - 1]];
      assert Told(xs) + (Told(front) + last) == Told(xs) + Told(front) + last;
    }
  }

  lemma {:induction false} ToldNeutral(calls: seq<Call>)
    requires AllNeutral(calls)
    ensures Told(calls) == calls
  {
    if calls != [] {
      NeutralParts(calls);
      ToldNeutral(calls[..|calls| - 1]);
      assert calls == calls[..|calls| - 1] + [calls[|calls| - 1]];
    }
  }

  lemma NeutralParts(calls: seq<Call>)
    requires calls != [] && AllNeutral(calls)
    ensures AllNeutral(calls[..|calls| - 1]) && !calls[|calls| - 1].NoCall?
  {
    assert calls[|calls| - 1] in calls;
    forall c | c in calls[..|calls| - 1] ensures Neutral(c) {
      assert c in calls;
    }
  }

  // Worker j is inside Run, at pc.
  predicate Inside(s: State, j: nat, pc: WorkerPc) {
    && !s.panicked && j < |s.workers| && |s.pools| == |s.workers| && s.workers[j] == pc
    && (pc.Launch? || pc.Announce? || pc.Opening? || pc.Running? || pc.Escalating?) && pc.task < |s.tasks|
  }

  /** The worker has got from s to s' by these actions, telling the recorder these calls. */
  ghost predicate Carries(c: Config, s: State, j: nat, acts: seq<Action>, s': State, pc: WorkerPc, calls: seq<Call>) {
    && (forall a | a in acts :: a.WorkerStep? && a.j == j)
    && Legal(c, s, acts) && Exec(c, s, acts) == s'
    && j < |s.workers| && s'.workers == s.workers[j := pc]
    && Told(s'.log) == Told(s.log) + calls
    && s'.rec == Replay(s.rec, calls)
  }

  // One step inside Run.
  lemma WorkStep(c: Config, s: State, j: nat, pc: WorkerPc, w: WorkChoice) returns (s': State)
    requires Inside(s, j, pc)
    ensures Enabled(c, s, WorkerStep(j, w)) && s' == Apply(c, s, WorkerStep(j, w))
    ensures var e := WorkOf(c, s, j, w);
            var notes := Notes(c.kind, s.pools[j], pc, w);
            && s'.workers == s.workers[j := e.pc]
            && s'.log == s.log + notes + [e.call]
            && s'.rec == Replay(s.rec, notes).After(e.call)
    ensures !s'.panicked && |s'.tasks| == |s.tasks| && |s'.pools| == |s.pools|
    ensures s'.pools == PoolsAfter(c.kind, s.pools, j, pc, w)
  {
    s' := Apply(c, s, WorkerStep(j, w));
  }

  lemma LogOfStep(log: seq<Call>, notes: seq<Call>, call: Call)
    requires AllNeutral(notes)
    ensures Told(log + notes + [call]) == Told(log) + (notes + if call.NoCall? then [] else [call])
  {
    ToldConcat(log + notes, [call]);
    ToldConcat(log, notes);
    ToldNeutral(notes);
    ToldOne(call);
    Regroup(Told(log), notes, Told([call]));
  }

  lemma ToldOne(call: Call)
    ensures Told([call]) == if call.NoCall? then [] else [call]
  {
    assert [call][..0] == [];
  }

  lemma TallyOfStep(t: Tally, notes: seq<Call>, call: Call)
    ensures Replay(t, notes).After(call) == Replay(t, notes + if call.NoCall? then [] else [call])
  {
    if call.NoCall? {
      assert notes + [] == notes;
    } else {
      ReplayConcat(t, notes, [call]);
      ReplayOne(Replay(t, notes), call);
    }
  }

  lemma LogThen(log: seq<Call>, t: Tally, own: seq<Call>, calls: seq<Call>)
    ensures Told(log) + own + calls == Told(log) + (own + calls)
    ensures Replay(Replay(t, own), calls) == Replay(t, own + calls)
  {
    ReplayConcat(t, own, calls);
  }

  lemma LegalThen(c: Config, s: State, a: Action, rest: seq<Action>)
    requires Enabled(c, s, a) && Legal(c, Apply(c, s, a), rest)
    ensures Legal(c, s, [a] + rest) && Exec(c, s, [a] + rest) == Exec(c, Apply(c, s, a), rest)
  {
    assert ([a] + rest)[1..] == rest;
  }

  // What one step tells the recorder.
  function Own(c: Config, s: State, j: nat, w: WorkChoice): seq<Call>
    requires j < |s.workers| == |s.pools|
  {
    Notes(c.kind, s.pools[j], s.workers[j], w)
    + if WorkOf(c, s, j, w).call.NoCall? then [] else [WorkOf(c, s, j, w).call]
  }

  // A step, then what the worker goes on to do.
  lemma StepThen(c: Config, s: State, j: nat, pc: WorkerPc, w: WorkChoice, mid: State,
                 rest: seq<Action>, s': State, to: WorkerPc, calls: seq<Call>)
    requires Inside(s, j, pc) && mid == Apply(c, s, WorkerStep(j, w)) && Carries(c, mid, j, rest, s', to, calls)
    ensures Carries(c, s, j, [WorkerStep(j, w)] + rest, s', to, Own(c, s, j, w) + calls)
  {
    var again := WorkStep(c, s, j, pc, w);
    var notes, call := Notes(c.kind, s.pools[j], pc, w), WorkOf(c, s, j, w).call;
    LogOfStep(s.log, notes, call);
    TallyOfStep(s.rec, notes, call);
    LogThen(s.log, s.rec, Own(c, s, j, w), calls);
    LegalThen(c, s, WorkerStep(j, w), rest);
  }

  lemma StepOnly(c: Config, s: State, j: nat, pc: WorkerPc, w: WorkChoice, mid: State)
    requires Inside(s, j, pc) && mid == Apply(c, s, WorkerStep(j, w))
    ensures Carries(c, s, j, [WorkerStep(j, w)], mid, WorkOf(c, s, j, w).pc, Own(c, s, j, w))
  {
    var again := WorkStep(c, s, j, pc, w);
    Stays(c, mid, j);
    StepThen(c, s, j, pc, w, mid, [], mid, WorkOf(c, s, j, w).pc, []);
    assert [WorkerStep(j, w)] + [] == [WorkerStep(j, w)];
    assert Own(c, s, j, w) + [] == Own(c, s, j, w);
  }

  lemma Stays(c: Config, s: State, j: nat)
    requires j < |s.workers|
    ensures Carries(c, s, j, [], s, s.workers[j], [])
  {
    assert Told(s.log) + [] == Told(s.log);
  }

  lemma {:induction false} RepeatedFront(call: Call, n: nat)
    ensures Repeated(call, n + 1) == [call] + Repeated(call, n)
  {
    if n > 0 {
      RepeatedFront(call, n - 1);
    }
  }

  lemma EscalationCalls(left: nat, seconds: real)
    requires left > 0
    ensures [Call.RecordEscalation] + (Repeated(Call.RecordEscalation, left - 1) + [Call.RecordWorkflow(seconds)])
         == Repeated(Call.RecordEscalation, left) + [Call.RecordWorkflow(seconds)]
  {
    RepeatedFront(Call.RecordEscalation, left - 1);
  }

  lemma TellLatency(c: Config, s: State, j: nat, t: nat, seconds: real) returns (acts: seq<Action>, s': State)
    requires Inside(s, j, Escalating(t, 0))
    ensures Carries(c, s, j, acts, s', Delta(t, true), [Call.RecordWorkflow(seconds)]) && s'.pools == s.pools
  {
    var w := WorkChoice(true, [], seconds, NO_READINGS, None);
    s' := WorkStep(c, s, j, Escalating(t, 0), w);
    acts := [WorkerStep(j, w)];
    StepOnly(c, s, j, Escalating(t, 0), w, s');
    assert Own(c, s, j, w) == [Call.RecordWorkflow(seconds)];
  }

  /** After a successful workflow: the escalations one by one, then the latency. */
  lemma {:induction false} Escalate(c: Config, s: State, j: nat, t: nat, left: nat, seconds: real)
    returns (acts: seq<Action>, s': State)
    requires Inside(s, j, Escalating(t, left))
    ensures Carries(c, s, j, acts, s', Delta(t, true),
                    Repeated(Call.RecordEscalation, left) + [Call.RecordWorkflow(seconds)])
    ensures s'.pools == s.pools
    decreases left
  {
    var pc, w := Escalating(t, left), WorkChoice(true, [], seconds, NO_READINGS, None);
    if left == 0 {
      acts, s' := TellLatency(c, s, j, t, seconds);
      assert Repeated(Call.RecordEscalation, 0) + [Call.RecordWorkflow(seconds)] == [Call.RecordWorkflow(seconds)];
    } else {
      var mid := WorkStep(c, s, j, pc, w);
      var rest, end := Escalate(c, mid, j, t, left - 1, seconds);
      acts, s' := [WorkerStep(j, w)] + rest, end;
      var calls := Repeated(Call.RecordEscalation, left - 1) + [Call.RecordWorkflow(seconds)];
      StepThen(c, s, j, pc, w, mid, rest, end, Delta(t, true), calls);
      EscalationCalls(left, seconds);
      assert Own(c, s, j, w) == [Call.RecordEscalation];
    }
  }

  lemma ResultFits(kind: Kind, r: StepResult)
    ensures AllResults(kind, ResultCalls(kind, r))
  {
    forall c | c in ResultCalls(kind, r) ensures ResultNote(kind, c) {
      if c == StepCall(kind, r) {
      } else if c in RequestCalls(kind, r) {
      } else {
        assert c.RecordFailure?;
      }
    }
  }

  lemma {:induction false} ResultsFit(kind: Kind, rs: seq<StepResult>)
    ensures AllResults(kind, AllResultCalls(kind, rs))
  {
    if rs != [] {
      var front, last := AllResultCalls(kind, rs[..|rs| - 1]), ResultCalls(kind, rs[|rs| - 1]);
      ResultsFit(kind, rs[..|rs| - 1]);
      ResultFits(kind, rs[|rs| - 1]);
      assert forall c | c in front + last :: c in front || c in last;
    }
  }

  // From the workflow on.
  function EndingCalls(kind: Kind, f: Foreign, e: nat): seq<Call> { AllResultCalls(kind, f.results) + EndCalls(f, e) }

  lemma RunningRefines(c: Config, s: State, j: nat, t: nat, f: Foreign) returns (acts: seq<Action>, s': State)
    requires Inside(s, j, Running(t))
    ensures Carries(c, s, j, acts, s', Delta(t, !f.failed), EndingCalls(c.kind, f, c.escalations))
    ensures s'.pools == s.pools
  {
    var w := WorkChoice(!f.failed, AllResultCalls(c.kind, f.results), f.seconds, NO_READINGS, None);
    ResultsFit(c.kind, f.results);
    var mid := WorkStep(c, s, j, Running(t), w);
    var results := AllResultCalls(c.kind, f.results);
    assert results + [] == results;
    if f.failed {
      acts, s' := [WorkerStep(j, w)], mid;
      StepOnly(c, s, j, Running(t), w, mid);
    } else {
      var rest, end := Escalate(c, mid, j, t, c.escalations, f.seconds);
      acts, s' := [WorkerStep(j, w)] + rest, end;
      StepThen(c, s, j, Running(t), w, mid, rest, end, Delta(t, true), EndCalls(f, c.escalations));
    }
  }

  // The run gets its page, and its context before that if the kind has a pool.
  predicate Opens(kind: Kind, p: Pool, f: Foreign) {
    f.pageOk && (UsesPool(kind) ==> Acquired(p, f.made).context.Some?)
  }

  // What the opening itself records.
  function OpeningCalls(kind: Kind, p: Pool, f: Foreign): seq<Call> {
    (if UsesPool(kind) then AcquireCalls(p, f.made, f.createSeconds) else [])
    + if Opens(kind, p, f) then PageCalls(kind) else []
  }

  // What a Run with a page to open records from there on.
  function FromOpening(kind: Kind, p: Pool, f: Foreign, e: nat): seq<Call> {
    OpeningCalls(kind, p, f) + if Opens(kind, p, f) then EndingCalls(kind, f, e) else []
  }

  function OpeningChoice(f: Foreign): WorkChoice { WorkChoice(f.pageOk, [], f.createSeconds, NO_READINGS, f.made) }

  lemma OpeningStep(c: Config, s: State, j: nat, t: nat, f: Foreign)
    requires Inside(s, j, Opening(t))
    ensures Own(c, s, j, OpeningChoice(f)) == OpeningCalls(c.kind, s.pools[j], f)
    ensures WorkOf(c, s, j, OpeningChoice(f)).pc
            == if Opens(c.kind, s.pools[j], f) then Running(t) else Delta(t, false)
    ensures PoolsAfter(c.kind, s.pools, j, Opening(t), OpeningChoice(f))
            == if UsesPool(c.kind) then s.pools[j := Borrowed(s.pools[j], f.made)] else s.pools
  {
  }

  lemma OpeningRefines(c: Config, s: State, j: nat, t: nat, f: Foreign) returns (acts: seq<Action>, s': State)
    requires Inside(s, j, Opening(t))
    ensures Carries(c, s, j, acts, s', Delta(t, Opens(c.kind, s.pools[j], f) && !f.failed),
                    FromOpening(c.kind, s.pools[j], f, c.escalations))
    ensures s'.pools == if UsesPool(c.kind) then s.pools[j := Borrowed(s.pools[j], f.made)] else s.pools
  {
    var w := OpeningChoice(f);
    var mid := WorkStep(c, s, j, Opening(t), w);
    OpeningStep(c, s, j, t, f);
    if Opens(c.kind, s.pools[j], f) {
      var rest, end := RunningRefines(c, mid, j, t, f);
      acts, s' := [WorkerStep(j, w)] + rest, end;
      StepThen(c, s, j, Opening(t), w, mid, rest, end, Delta(t, !f.failed), EndingCalls(c.kind, f, c.escalations));
    } else {
      acts, s' := [WorkerStep(j, w)], mid;
      StepOnly(c, s, j, Opening(t), w, mid);
      assert OpeningCalls(c.kind, s.pools[j], f) + [] == OpeningCalls(c.kind, s.pools[j], f);
    }
  }

  // A browser that starts is announced, and the run goes on to its page.
  lemma AnnounceRefines(c: Config, s: State, j: nat, t: nat, f: Foreign) returns (acts: seq<Action>, s': State)
    requires Inside(s, j, Announce(t)) && c.kind.BrowserKind?
    ensures Carries(c, s, j, acts, s', Delta(t, Opens(c.kind, s.pools[j], f) && !f.failed),
                    [Call.RecordLifecycle(BrowserLaunchCompleted)]
                    + FromOpening(c.kind, s.pools[j], f, c.escalations))
    ensures s'.pools == s.pools
  {
    var w := WorkChoice(true, [], 0.0, NO_READINGS, None);
    var mid := WorkStep(c, s, j, Announce(t), w);
    var rest, end := OpeningRefines(c, mid, j, t, f);
    acts, s' := [WorkerStep(j, w)] + rest, end;
    var ok := Opens(c.kind, s.pools[j], f) && !f.failed;
    StepThen(c, s, j, Announce(t), w, mid, rest, end, Delta(t, ok), FromOpening(c.kind, s.pools[j], f, c.escalations));
    assert Own(c, s, j, w) == [Call.RecordLifecycle(BrowserLaunchCompleted)];
  }

  lemma LaunchRefines(c: Config, s: State, j: nat, t: nat, f: Foreign) returns (acts: seq<Action>, s': State)
    requires Inside(s, j, Launch(t)) && c.kind.BrowserKind?
    ensures Carries(c, s, j, acts, s', Delta(t, RunSucceeds(c.kind, s.pools[j], f)),
                    RunCalls(c.kind, s.pools[j], f, c.escalations))
    ensures s'.pools == s.pools
  {
    var w := WorkChoice(f.launch.Some?, [], if f.launch.Some? then f.launch.value else 0.0, NO_READINGS, None);
    var mid := WorkStep(c, s, j, Launch(t), w);
    BrowserCalls(s.pools[j], f, c.escalations);
    if f.launch.None? {
      acts, s' := [WorkerStep(j, w)], mid;
      StepOnly(c, s, j, Launch(t), w, mid);
    } else {
      var rest, end := AnnounceRefines(c, mid, j, t, f);
      acts, s' := [WorkerStep(j, w)] + rest, end;
      var calls := [Call.RecordLifecycle(BrowserLaunchCompleted)] + FromOpening(c.kind, s.pools[j], f, c.escalations);
      StepThen(c, s, j, Launch(t), w, mid, rest, end, Delta(t, RunSucceeds(c.kind, s.pools[j], f)), calls);
      assert Own(c, s, j, w) == [Call.RecordBrowserLaunch(f.launch.value)];
    }
  }

  lemma BrowserCalls(p: Pool, f: Foreign, e: nat)
    ensures RunCalls(BrowserKind, p, f, e)
         == if f.launch.None? then []
            else [Call.RecordBrowserLaunch(f.launch.value)]
                 + ([Call.RecordLifecycle(BrowserLaunchCompleted)] + FromOpening(BrowserKind, p, f, e))
  {
    Regroup(PageCalls(BrowserKind), AllResultCalls(BrowserKind, f.results), EndCalls(f, e));
  }

  lemma PoolCalls(kind: Kind, p: Pool, f: Foreign, e: nat)
    requires UsesPool(kind)
    ensures RunCalls(kind, p, f, e) == FromOpening(kind, p, f, e)
  {
    Regroup(PageCalls(kind), AllResultCalls(kind, f.results), EndCalls(f, e));
  }

  lemma Regroup(a: seq<Call>, b: seq<Call>, z: seq<Call>)
    ensures a + b + z == a + (b + z)
  {
  }

  /** For every kind of worker, every pool and every outcome of its foreign calls: from where a task's Run begins, steps
      of this worker alone make exactly the calls of that Run, in order, leave its pool as that Run does, and end with
      its result. */
  lemma RunRefines(c: Config, s: State, j: nat, t: nat, f: Foreign) returns (acts: seq<Action>, s': State)
    requires j < |s.pools| && Inside(s, j, Entry(c.kind, t))
    ensures Carries(c, s, j, acts, s', Delta(t, RunSucceeds(c.kind, s.pools[j], f)),
                    RunCalls(c.kind, s.pools[j], f, c.escalations))
    ensures s'.pools == if UsesPool(c.kind) then s.pools[j := Borrowed(s.pools[j], f.made)] else s.pools
  {
    if UsesPool(c.kind) {
      acts, s' := OpeningRefines(c, s, j, t, f);
      PoolCalls(c.kind, s.pools[j], f, c.escalations);
    } else if c.kind.BrowserKind? {
      acts, s' := LaunchRefines(c, s, j, t, f);
    } else {
      acts, s' := RunningRefines(c, s, j, t, f);
      assert RunCalls(c.kind, s.pools[j], f, c.escalations) == EndingCalls(c.kind, f, c.escalations);
    }
  }
}
