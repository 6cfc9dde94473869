/** Many tasks sharing one context pool: every interleaving of workers that follow Run's protocol
    (internal/contexts/worker.go) with the pool's operations and with Close. The pool's mutex makes
    each operation one step; Close closes the collected contexts one by one after unlocking. */
module ContextRuns {
  import opened Counting
  import opened Contexts

  /** A worker inside Run. */
  datatype Runner =
    | Outside
    | Acquiring                 // w.pool.Acquire()
    | WithPage(c: Context)      // acquired; bctx.NewPage(), then the workflow
    | Failing(c: Context)       // workflow failed: about to call bctx.Close()
    | Releasing(c: Context)     // w.pool.Release(bctx)

  datatype Closing = NotClosing | CloseEach(left: set<Context>) | CloseDone

  datatype System = System(
    pool: Pool,
    runners: seq<Runner>,
    closing: Closing,
    created: set<Context>,   // every context the browser has made for this pool
    shut: set<Context>,      // contexts on which Close has been called
    peak: nat,               // most contexts in use at once so far
    failed: set<Context>)    // contexts in which a workflow has failed

  datatype Step =
    | Enter(k: nat)
    | Take(k: nat, made: Option<Context>)   // Acquire
    | PageFails(k: nat)
    | WorkflowFails(k: nat)
    | WorkflowEnds(k: nat)
    | CloseFailed(k: nat)                   // bctx.Close() after a failed workflow
    | Give(k: nat)                          // Release
    | StartClose
    | CloseOne(c: Context)
    | EndClose

  predicate Can(s: System, a: Step) {
    match a
    case Enter(k) => k < |s.runners| && s.runners[k].Outside?
    case Take(k, made) =>
      k < |s.runners| && s.runners[k].Acquiring? && (made.Some? ==> made.value !in s.created)
    case PageFails(k) => k < |s.runners| && s.runners[k].WithPage?
    case WorkflowFails(k) => k < |s.runners| && s.runners[k].WithPage?
    case WorkflowEnds(k) => k < |s.runners| && s.runners[k].WithPage?
    case CloseFailed(k) => k < |s.runners| && s.runners[k].Failing?
    case Give(k) => k < |s.runners| && s.runners[k].Releasing?
    case StartClose => s.closing.NotClosing?
    case CloseOne(c) => s.closing.CloseEach? && c in s.closing.left
    case EndClose => s.closing == CloseEach({})
  }

  // Inside Run, between acquiring and releasing.
  function RunnerNext(r: Runner, a: Step): Runner {
    match a
    case Enter(_) => Acquiring
    case WorkflowFails(_) => if r.WithPage? then Failing(r.c) else r
    case PageFails(_) => if r.WithPage? then Releasing(r.c) else r
    case WorkflowEnds(_) => if r.WithPage? then Releasing(r.c) else r
    case CloseFailed(_) => if r.Failing? then Releasing(r.c) else r
    case _ => r
  }

  function RunnerStep(s: System, k: nat, a: Step): System
    requires k < |s.runners|
  {
    s.(runners := s.runners[k := RunnerNext(s.runners[k], a)],
       failed := if a.WorkflowFails? then s.failed + Held(s.runners[k]) else s.failed,
       shut := if a.CloseFailed? then s.shut + Held(s.runners[k]) else s.shut)
  }

  function Held(r: Runner): set<Context> {
    if r.WithPage? || r.Failing? || r.Releasing? then {r.c} else {}
  }

  function TakeStep(s: System, k: nat, made: Option<Context>): System
    requires k < |s.runners|
  {
    var t := Acquired(s.pool, made);
    s.(pool := t.pool,
       runners := s.runners[k := if t.context.None? then Outside else WithPage(t.context.value)],
       created := if Creates(s.pool, made) then s.created + {made.value} else s.created,
       peak := Max(s.peak, |t.pool.inUse|))
  }

  function GiveStep(s: System, k: nat): System
    requires k < |s.runners| && s.runners[k].Releasing?
  {
    s.(runners := s.runners[k := Outside],
       pool := Released(s.pool, s.runners[k].c),
       shut := if s.pool.closed then s.shut + {s.runners[k].c} else s.shut)
  }

  function Do(s: System, a: Step): System
    requires Can(s, a)
  {
    match a
    case Take(k, made) => TakeStep(s, k, made)
    case Give(k) => GiveStep(s, k)
    case StartClose => s.(pool := Shut(s.pool), closing := CloseEach(Members(s.pool)))
    case CloseOne(c) => s.(shut := s.shut + {c}, closing := CloseEach(s.closing.left - {c}))
    case EndClose => s.(closing := CloseDone)
    case _ => RunnerStep(s, a.k, a)
  }

  /** A pool of n fresh contexts and some workers outside Run. */
  predicate Initial(s: System, n: nat) {
    && s.pool.open == n == |s.pool.available| && s.pool.inUse == {} && !s.pool.closed
    && NoDuplicates(s.pool.available)
    && s.created == Elements(s.pool.available)
    && (forall k | 0 <= k < |s.runners| :: s.runners[k] == Outside)
    && s.closing == NotClosing && s.shut == {} && s.peak == 0 && s.failed == {}
  }

  ghost predicate Run(s: System, steps: seq<Step>)
    decreases |steps|
  {
    steps == [] || (Can(s, steps[0]) && Run(Do(s, steps[0]), steps[1..]))
  }

  ghost function After(s: System, steps: seq<Step>): System
    requires Run(s, steps)
    decreases |steps|
  {
    if steps == [] then s else After(Do(s, steps[0]), steps[1..])
  }

  ghost predicate ReachableFrom(n: nat, s: System) {
    exists start, steps :: Initial(start, n) && Run(start, steps) && After(start, steps) == s
  }

  predicate NoDuplicates(xs: seq<Context>) {
    forall i, j | 0 <= i < j < |xs| :: xs[i] != xs[j]
  }

  // ----- the invariant -----

  function HeldBy(runners: seq<Runner>): set<Context> {
    set k, c | 0 <= k < |runners| && c in Held(runners[k]) :: c
  }

  // Contexts whose workflow has failed and whose Close is the runner's next step.
  function FailingIn(runners: seq<Runner>): set<Context> {
    set k | 0 <= k < |runners| && runners[k].Failing? :: runners[k].c
  }

  // No context is held by two runners.
  ghost predicate NoSharing(runners: seq<Runner>) {
    forall i, j | 0 <= i < j < |runners| :: Held(runners[i]) !! Held(runners[j])
  }

  ghost predicate Partition(p: Pool, created: set<Context>) {
    && NoDuplicates(p.available)
    && (forall c | c in p.available :: c !in p.inUse)
    && (if p.closed then p.available == [] && p.inUse == {} else Members(p) == created)
  }

  ghost predicate Custodians(p: Pool, runners: seq<Runner>, created: set<Context>) {
    && NoSharing(runners)
    && HeldBy(runners) <= created
    && (!p.closed ==> p.inUse == HeldBy(runners))
  }

  ghost predicate Growth(p: Pool, created: set<Context>, peak: nat, n: nat) {
    && p.open == Max(n, peak) == |created|
    && |p.inUse| <= peak
    && (!p.closed ==> |p.available| + |p.inUse| == p.open)
  }

  ghost predicate CloseProgress(s: System) {
    && (s.closing.NotClosing? <==> !s.pool.closed)
    && (s.closing.CloseEach? ==> s.created <= s.shut + s.closing.left)
    && (s.closing.CloseDone? ==> s.created <= s.shut)
  }

  // While the pool is open, a context is closed, or about to be, exactly when a workflow has failed in it.
  ghost predicate Poisoned(s: System) {
    !s.pool.closed ==> s.shut <= s.created && s.shut + FailingIn(s.runners) == s.failed
  }

  ghost predicate Sound(s: System, n: nat) {
    && Partition(s.pool, s.created)
    && Custodians(s.pool, s.runners, s.created)
    && Growth(s.pool, s.created, s.peak, n)
    && CloseProgress(s)
    && Poisoned(s)
  }

  // ----- kept by every step -----

  lemma {:induction false} DistinctCount(xs: seq<Context>)
    requires NoDuplicates(xs)
    ensures |Elements(xs)| == |xs|
  {
    if xs != [] {
      var last := |xs| - 1;
      DistinctCount(xs[..last]);
      assert xs == xs[..last] + [xs[last]];
      var front := Elements(xs[..last]);
      assert xs[last] !in front;
      assert Elements(xs) == front + {xs[last]};
    }
  }

  lemma InitialSound(s: System, n: nat)
    requires Initial(s, n)
    ensures Sound(s, n)
  {
    DistinctCount(s.pool.available);
    assert HeldBy(s.runners) == {};
    assert FailingIn(s.runners) == {};
  }

  lemma HeldUpdate(runners: seq<Runner>, k: nat, r: Runner)
    requires k < |runners| && NoSharing(runners)
    requires forall c | c in Held(r) :: c in Held(runners[k]) || c !in HeldBy(runners)
    ensures HeldBy(runners[k := r]) == HeldBy(runners) - Held(runners[k]) + Held(r)
    ensures NoSharing(runners[k := r])
  {
    var to := runners[k := r];
    forall c | c in HeldBy(runners) - Held(runners[k]) ensures c in HeldBy(to) {
      var m :| 0 <= m < |runners| && c in Held(runners[m]);
      assert c in Held(to[m]);
    }
    forall c | c in Held(r) ensures c in HeldBy(to) {
      assert c in Held(to[k]);
    }
    forall i, j | 0 <= i < j < |to| ensures Held(to[i]) !! Held(to[j]) {
      if i == k || j == k {
        var other := if i == k then j else i;
        assert Held(runners[k]) !! Held(runners[other]);
        assert forall c :: c in Held(runners[other]) ==> c in HeldBy(runners);
      }
    }
  }

  lemma FailingUpdate(runners: seq<Runner>, k: nat, r: Runner)
    requires k < |runners| && NoSharing(runners)
    ensures FailingIn(runners[k := r])
         == FailingIn(runners) - (if runners[k].Failing? then {runners[k].c} else {}) + if r.Failing? then {r.c} else {}
  {
    var to := runners[k := r];
    forall c | c in FailingIn(to) && (!r.Failing? || c != r.c)
      ensures c in FailingIn(runners) && (runners[k].Failing? ==> c != runners[k].c)
    {
      var m :| 0 <= m < |to| && to[m].Failing? && to[m].c == c;
      assert m != k && c in Held(runners[m]);
      assert Held(runners[m]) !! Held(runners[k]);
    }
    forall c | c in FailingIn(runners) && (!runners[k].Failing? || c != runners[k].c) ensures c in FailingIn(to) {
      var m :| 0 <= m < |runners| && runners[m].Failing? && runners[m].c == c;
      assert to[m] == runners[m];
    }
    if r.Failing? {
      assert to[k].c in FailingIn(to);
    }
  }

  lemma TakeKeepsPartition(p: Pool, made: Option<Context>, created: set<Context>)
    requires Partition(p, created) && (made.Some? ==> made.value !in created)
    ensures Partition(Acquired(p, made).pool, if Creates(p, made) then created + {made.value} else created)
  {
    if !p.closed && |p.available| > 0 {
      var last := |p.available| - 1;
      var p' := Acquired(p, made).pool;
      assert p.available == p.available[..last] + [p.available[last]];
      forall c | c in created ensures c in Members(p') {
        assert c in Members(p);
      }
    }
  }

  lemma TakeKeepsGrowth(p: Pool, made: Option<Context>, created: set<Context>, peak: nat, n: nat)
    requires Partition(p, created) && Growth(p, created, peak, n) && (made.Some? ==> made.value !in created)
    ensures var p' := Acquired(p, made).pool;
            Growth(p', if Creates(p, made) then created + {made.value} else created, Max(peak, |p'.inUse|), n)
  {
  }

  lemma TakeKeepsCustodians(s: System, n: nat, k: nat, made: Option<Context>)
    requires Sound(s, n) && Can(s, Take(k, made))
    ensures var s' := TakeStep(s, k, made); Custodians(s'.pool, s'.runners, s'.created)
  {
    HeldUpdate(s.runners, k, TakeStep(s, k, made).runners[k]);
  }

  // A runner that neither was nor is about to close its context.
  lemma CalmUpdate(runners: seq<Runner>, k: nat, r: Runner)
    requires k < |runners| && NoSharing(runners) && !runners[k].Failing? && !r.Failing?
    ensures FailingIn(runners[k := r]) == FailingIn(runners)
  {
    FailingUpdate(runners, k, r);
  }

  lemma TakeKeepsPoisoned(s: System, n: nat, k: nat, made: Option<Context>)
    requires Sound(s, n) && Can(s, Take(k, made))
    ensures Poisoned(TakeStep(s, k, made)) && CloseProgress(TakeStep(s, k, made))
  {
    CalmUpdate(s.runners, k, TakeStep(s, k, made).runners[k]);
  }

  lemma TakeKeepsSound(s: System, n: nat, k: nat, made: Option<Context>)
    requires Sound(s, n) && Can(s, Take(k, made))
    ensures Sound(TakeStep(s, k, made), n)
  {
    TakeKeepsPartition(s.pool, made, s.created);
    TakeKeepsGrowth(s.pool, made, s.created, s.peak, n);
    TakeKeepsCustodians(s, n, k, made);
    TakeKeepsPoisoned(s, n, k, made);
  }

  lemma GiveKeepsPool(p: Pool, c: Context, created: set<Context>, peak: nat, n: nat)
    requires Partition(p, created) && Growth(p, created, peak, n) && (!p.closed ==> c in p.inUse)
    ensures Partition(Released(p, c), created) && Growth(Released(p, c), created, peak, n)
  {
    if !p.closed {
      assert Members(Released(p, c)) == Members(p);
    }
  }

  lemma GiveKeepsCustodians(p: Pool, runners: seq<Runner>, created: set<Context>, k: nat)
    requires Custodians(p, runners, created) && k < |runners| && runners[k].Releasing?
    ensures Custodians(Released(p, runners[k].c), runners[k := Outside], created)
  {
    HeldUpdate(runners, k, Outside);
    assert Released(p, runners[k].c).inUse == p.inUse - {runners[k].c};
  }

  lemma GiveKeepsPoisoned(s: System, n: nat, k: nat)
    requires Sound(s, n) && k < |s.runners| && s.runners[k].Releasing?
    ensures Poisoned(GiveStep(s, k)) && CloseProgress(GiveStep(s, k))
  {
    CalmUpdate(s.runners, k, Outside);
  }

  lemma GiveKeepsSound(s: System, n: nat, k: nat)
    requires Sound(s, n) && k < |s.runners| && s.runners[k].Releasing?
    ensures Sound(GiveStep(s, k), n)
  {
    HeldIsCreated(s.runners, k);
    assert s.runners[k].c in Held(s.runners[k]);
    GiveKeepsPool(s.pool, s.runners[k].c, s.created, s.peak, n);
    GiveKeepsCustodians(s.pool, s.runners, s.created, k);
    GiveKeepsPoisoned(s, n, k);
  }

  lemma RunnerKeepsCustodians(p: Pool, runners: seq<Runner>, created: set<Context>, k: nat, r: Runner)
    requires Custodians(p, runners, created) && k < |runners| && Held(r) == Held(runners[k])
    ensures Custodians(p, runners[k := r], created)
  {
    HeldUpdate(runners, k, r);
    assert forall c :: c in Held(runners[k]) ==> c in HeldBy(runners);
  }

  // What a runner's step does to the sets of closed, about to be closed, and failed contexts.
  lemma RunnerPoison(r: Runner, a: Step, shut: set<Context>, others: set<Context>, failed: set<Context>)
    requires shut + (others + if r.Failing? then {r.c} else {}) == failed
    requires a.WorkflowFails? ==> r.WithPage?
    requires a.CloseFailed? ==> r.Failing?
    requires !a.CloseFailed? ==> !r.Failing?
    requires a.Enter? || a.PageFails? || a.WorkflowFails? || a.WorkflowEnds? || a.CloseFailed?
    ensures var r' := RunnerNext(r, a);
            (if a.CloseFailed? then shut + Held(r) else shut) + (others + if r'.Failing? then {r'.c} else {})
            == if a.WorkflowFails? then failed + Held(r) else failed
  {
  }

  // The failing contexts of the other runners.
  function FailingElsewhere(runners: seq<Runner>, k: nat): set<Context>
    requires k < |runners|
  {
    FailingIn(runners) - if runners[k].Failing? then {runners[k].c} else {}
  }

  lemma RunnerPoisons(runners: seq<Runner>, k: nat, a: Step, shut: set<Context>, failed: set<Context>)
    requires k < |runners| && NoSharing(runners) && shut + FailingIn(runners) == failed
    requires a.WorkflowFails? ==> runners[k].WithPage?
    requires a.CloseFailed? ==> runners[k].Failing?
    requires !a.CloseFailed? ==> !runners[k].Failing?
    requires a.Enter? || a.PageFails? || a.WorkflowFails? || a.WorkflowEnds? || a.CloseFailed?
    ensures (if a.CloseFailed? then shut + Held(runners[k]) else shut)
            + FailingIn(runners[k := RunnerNext(runners[k], a)])
            == if a.WorkflowFails? then failed + Held(runners[k]) else failed
  {
    FailingUpdate(runners, k, RunnerNext(runners[k], a));
    FailingSplits(runners, k);
    RunnerPoison(runners[k], a, shut, FailingElsewhere(runners, k), failed);
  }

  lemma RunnerKeepsPoisoned(s: System, n: nat, a: Step)
    requires Sound(s, n) && Can(s, a)
    requires a.Enter? || a.PageFails? || a.WorkflowFails? || a.WorkflowEnds? || a.CloseFailed?
    ensures Poisoned(RunnerStep(s, a.k, a))
  {
    if !s.pool.closed {
      RunnerPoisons(s.runners, a.k, a, s.shut, s.failed);
      HeldIsCreated(s.runners, a.k);
    }
  }

  lemma HeldIsCreated(runners: seq<Runner>, k: nat)
    requires k < |runners|
    ensures Held(runners[k]) <= HeldBy(runners)
  {
  }

  lemma FailingSplits(runners: seq<Runner>, k: nat)
    requires k < |runners|
    ensures FailingIn(runners) == FailingElsewhere(runners, k) + if runners[k].Failing? then {runners[k].c} else {}
  {
    assert runners[k].Failing? ==> runners[k].c in FailingIn(runners);
  }

  lemma RunnerKeepsSound(s: System, n: nat, a: Step)
    requires Sound(s, n) && Can(s, a)
    requires a.Enter? || a.PageFails? || a.WorkflowFails? || a.WorkflowEnds? || a.CloseFailed?
    ensures Sound(RunnerStep(s, a.k, a), n)
  {
    RunnerKeepsCustodians(s.pool, s.runners, s.created, a.k, RunnerNext(s.runners[a.k], a));
    RunnerKeepsPoisoned(s, n, a);
  }

  lemma CloseKeepsSound(s: System, n: nat, a: Step)
    requires Sound(s, n) && Can(s, a)
    requires a.StartClose? || a.CloseOne? || a.EndClose?
    ensures Sound(Do(s, a), n)
  {
  }

  lemma StepKeepsSound(s: System, n: nat, a: Step)
    requires Sound(s, n) && Can(s, a)
    ensures Sound(Do(s, a), n)
  {
    match a {
      case Take(k, made) => TakeKeepsSound(s, n, k, made);
      case Give(k) => GiveKeepsSound(s, n, k);
      case StartClose => CloseKeepsSound(s, n, a);
      case CloseOne(_) => CloseKeepsSound(s, n, a);
      case EndClose => CloseKeepsSound(s, n, a);
      case _ => RunnerKeepsSound(s, n, a);
    }
  }

  lemma {:induction false} RunKeepsSound(s: System, n: nat, steps: seq<Step>)
    requires Sound(s, n) && Run(s, steps)
    ensures Sound(After(s, steps), n)
    decreases |steps|
  {
    if steps != [] {
      StepKeepsSound(s, n, steps[0]);
      RunKeepsSound(Do(s, steps[0]), n, steps[1..]);
    }
  }

  lemma ReachableSound(n: nat, s: System)
    requires ReachableFrom(n, s)
    ensures Sound(s, n)
  {
    var start, steps :| Initial(start, n) && Run(start, steps) && After(start, steps) == s;
    InitialSound(start, n);
    RunKeepsSound(start, n, steps);
  }

  // ----- results -----

  /** Until close the pool partitions the contexts created into available and in use, without duplicates,
      and what is in use is exactly what the workers hold. */
  lemma PoolPartition(n: nat, s: System)
    requires ReachableFrom(n, s) && !s.pool.closed
    ensures NoDuplicates(s.pool.available)
    ensures Elements(s.pool.available) !! s.pool.inUse
    ensures Elements(s.pool.available) + s.pool.inUse == s.created
    ensures |s.pool.available| + |s.pool.inUse| == s.pool.open == |s.created|
    ensures s.pool.inUse == HeldBy(s.runners)
  {
    ReachableSound(n, s);
  }

  /** No context is held by two tasks, before or after close. */
  lemma NoContextShared(n: nat, s: System, i: nat, j: nat)
    requires ReachableFrom(n, s) && i < |s.runners| && j < |s.runners| && i != j
    ensures Held(s.runners[i]) !! Held(s.runners[j])
  {
    ReachableSound(n, s);
    if j < i {
      assert Held(s.runners[j]) !! Held(s.runners[i]);
    }
  }

  /** The pool has grown to exactly the larger of its initial size and the peak number in use. */
  lemma ExactGrowth(n: nat, s: System)
    requires ReachableFrom(n, s)
    ensures s.pool.open == Max(n, s.peak)
  {
    ReachableSound(n, s);
  }

  /** Once Close has finished, every context ever created has been closed. */
  lemma CloseCoversAll(n: nat, s: System)
    requires ReachableFrom(n, s) && s.closing == CloseDone
    ensures s.created <= s.shut
  {
    ReachableSound(n, s);
  }

  lemma HeldCount(runners: seq<Runner>)
    ensures |HeldBy(runners)| <= |runners|
    decreases |runners|
  {
    if runners == [] {
      assert HeldBy(runners) == {};
    } else {
      var last := |runners| - 1;
      HeldCount(runners[..last]);
      forall c | c in HeldBy(runners) ensures c in HeldBy(runners[..last]) + Held(runners[last]) {
        var m :| 0 <= m < |runners| && c in Held(runners[m]);
        assert m < last ==> c in Held(runners[..last][m]);
      }
      assert HeldBy(runners) <= HeldBy(runners[..last]) + Held(runners[last]);
      SubsetSize(HeldBy(runners), HeldBy(runners[..last]) + Held(runners[last]));
    }
  }

  lemma StepPeak(s: System, n: nat, a: Step)
    requires Sound(s, n) && Can(s, a) && s.peak <= |s.runners|
    ensures Do(s, a).peak <= |s.runners| && |Do(s, a).runners| == |s.runners|
  {
    if a.Take? {
      TakeKeepsSound(s, n, a.k, a.made);
      HeldCount(TakeStep(s, a.k, a.made).runners);
    }
  }

  // The peak never exceeds the number of workers.
  lemma {:induction false} PeakBound(s: System, n: nat, steps: seq<Step>)
    requires Sound(s, n) && Run(s, steps) && s.peak <= |s.runners|
    ensures After(s, steps).peak <= |s.runners|
    decreases |steps|
  {
    if steps != [] {
      var s' := Do(s, steps[0]);
      StepKeepsSound(s, n, steps[0]);
      StepPeak(s, n, steps[0]);
      PeakBound(s', n, steps[1..]);
    }
  }

  /** With no more workers than initial contexts, in particular with one worker and one context, no context is
      created after construction. */
  lemma NoGrowthNeeded(n: nat, start: System, steps: seq<Step>)
    requires Initial(start, n) && Run(start, steps) && |start.runners| <= n
    ensures After(start, steps).pool.open == n
    ensures After(start, steps).created == start.created
  {
    InitialSound(start, n);
    PeakBound(start, n, steps);
    RunKeepsSound(start, n, steps);
    CreatedGrows(start, n, steps);
    var d := After(start, steps).created - start.created;
    assert After(start, steps).created == start.created + d;
  }

  lemma {:induction false} CreatedGrows(s: System, n: nat, steps: seq<Step>)
    requires Run(s, steps)
    ensures s.created <= After(s, steps).created
    decreases |steps|
  {
    if steps != [] {
      CreatedGrows(Do(s, steps[0]), n, steps[1..]);
    }
  }

  // ----- poisoned contexts -----

  /** A context closed by a failing workflow goes back on the pool, and the next Acquire hands it out. */
  lemma PoisonedServedNext(s: System, k: nat, made: Option<Context>)
    requires !s.pool.closed && k < |s.runners| && s.runners[k].Failing?
    ensures var c := s.runners[k].c;
            var s2 := Do(Do(s, CloseFailed(k)), Give(k));
            c in s2.shut && c in s2.pool.available && Acquired(s2.pool, made).context == Some(c)
  {
  }

  /** Exactly when the promise about poisoned contexts is broken: while the pool is open, the next Acquire of a spare
      context returns a closed one if and only if a workflow has failed in the context on top. */
  lemma NextPoisonedIff(n: nat, s: System, made: Option<Context>)
    requires ReachableFrom(n, s) && !s.pool.closed && s.pool.available != []
    ensures var top := s.pool.available[|s.pool.available| - 1];
            && Acquired(s.pool, made).context == Some(top)
            && (top in s.shut <==> top in s.failed)
  {
    ReachableSound(n, s);
    var top := s.pool.available[|s.pool.available| - 1];
    forall k | 0 <= k < |s.runners| && s.runners[k].Failing? ensures s.runners[k].c != top {
      assert s.runners[k].c in Held(s.runners[k]);
      assert s.runners[k].c in HeldBy(s.runners);
    }
  }

  // The system after one more step.
  lemma {:induction false} RunSnoc(s: System, steps: seq<Step>, a: Step)
    requires Run(s, steps) && Can(After(s, steps), a)
    ensures Run(s, steps + [a]) && After(s, steps + [a]) == Do(After(s, steps), a)
    decreases |steps|
  {
    if steps == [] {
      assert steps + [a] == [a];
    } else {
      assert (steps + [a])[1..] == steps[1..] + [a];
      RunSnoc(Do(s, steps[0]), steps[1..], a);
    }
  }

  lemma StepFrom(n: nat, s: System, a: Step)
    requires ReachableFrom(n, s) && Can(s, a)
    ensures ReachableFrom(n, Do(s, a))
  {
    var start, steps :| Initial(start, n) && Run(start, steps) && After(start, steps) == s;
    RunSnoc(start, steps, a);
  }

  /** A pool of one context and one worker: the first task's workflow fails, and the second task has been handed the
      context that was closed for it. */
  lemma PoisonedExample() returns (s: System)
    ensures ReachableFrom(1, s) && !s.pool.closed
    ensures s.runners == [WithPage(7)] && 7 in s.shut
  {
    s := System(Pool([7], {}, 1, false), [Outside], NotClosing, {7}, {}, 0, {});
    assert Initial(s, 1) && Run(s, []) && After(s, []) == s;
    s := FirstFails(s);
    s := SecondTakes(s);
  }

  lemma FirstFails(start: System) returns (s: System)
    requires ReachableFrom(1, start)
    requires start == System(Pool([7], {}, 1, false), [Outside], NotClosing, {7}, {}, 0, {})
    ensures ReachableFrom(1, s) && s.pool == Pool([], {7}, 1, false) && s.runners == [Failing(7)]
  {
    StepFrom(1, start, Enter(0));
    s := Do(start, Enter(0));
    StepFrom(1, s, Take(0, None));
    s := Do(s, Take(0, None));
    StepFrom(1, s, WorkflowFails(0));
    s := Do(s, WorkflowFails(0));
  }

  lemma SecondTakes(start: System) returns (s: System)
    requires ReachableFrom(1, start) && start.pool == Pool([], {7}, 1, false) && start.runners == [Failing(7)]
    ensures ReachableFrom(1, s) && !s.pool.closed && s.runners == [WithPage(7)] && 7 in s.shut
  {
    StepFrom(1, start, CloseFailed(0));
    s := Do(start, CloseFailed(0));
    StepFrom(1, s, Give(0));
    s := Do(s, Give(0));
    StepFrom(1, s, Enter(0));
    s := Do(s, Enter(0));
    StepFrom(1, s, Take(0, None));
    s := Do(s, Take(0, None));
  }

  /** While the pool is open and no worker is between failing and closing, it contains a closed context if and only
      if some workflow has failed. */
  lemma PoisonedIffFailed(n: nat, s: System)
    requires ReachableFrom(n, s) && !s.pool.closed
    requires forall k | 0 <= k < |s.runners| :: !s.runners[k].Failing?
    ensures forall c | c in Members(s.pool) :: c in s.shut <==> c in s.failed
    ensures (exists c :: c in Members(s.pool) && c in s.shut) <==> s.failed != {}
  {
    ReachableSound(n, s);
    assert FailingIn(s.runners) == {};
    if s.failed != {} {
      var c :| c in s.failed;
      assert c in Members(s.pool);
    }
  }

  // ----- one worker on its own pool -----

  /** The step in which a workflow ends, well or badly. */
  predicate Works(a: Step) { a.WorkflowEnds? || a.WorkflowFails? }

  // A closed context opens no page, so no workflow runs in one.
  predicate Plausible(s: System, a: Step) {
    Can(s, a) && (Works(a) ==> s.runners[a.k].c !in s.shut)
  }

  /** A run in which closed contexts open no page, and in which the pool is not closed. */
  ghost predicate PlausibleRun(s: System, steps: seq<Step>)
    decreases |steps|
  {
    steps == []
    || (Plausible(s, steps[0]) && !steps[0].StartClose? && PlausibleRun(Do(s, steps[0]), steps[1..]))
  }

  predicate NoneWorks(steps: seq<Step>) { forall a | a in steps :: !Works(a) }

  /** The context that the only worker holds, or that its next Acquire would return. */
  function Current(s: System): Option<Context>
    requires |s.runners| == 1
  {
    match s.runners[0]
    case WithPage(c) => Some(c)
    case Failing(c) => Some(c)
    case Releasing(c) => Some(c)
    case _ => if s.pool.available == [] then None else Some(s.pool.available[|s.pool.available| - 1])
  }

  // The only worker has context c for good, and c is closed or about to be.
  predicate Stuck(s: System, c: Context) {
    && |s.runners| == 1 && !s.pool.closed && s.closing.NotClosing?
    && Current(s) == Some(c)
    && (s.runners[0].Failing? || c in s.shut)
  }

  lemma StaysStuck(s: System, c: Context, a: Step)
    requires Stuck(s, c) && Plausible(s, a) && !a.StartClose?
    ensures !Works(a) && Stuck(Do(s, a), c)
    ensures a.Take? ==> Acquired(s.pool, a.made).context == Some(c)
  {
  }

  lemma {:induction false} StuckForGood(s: System, c: Context, steps: seq<Step>)
    requires Stuck(s, c) && PlausibleRun(s, steps)
    ensures NoneWorks(steps)
    decreases |steps|
  {
    if steps != [] {
      StaysStuck(s, c, steps[0]);
      StuckForGood(Do(s, steps[0]), c, steps[1..]);
      assert steps == [steps[0]] + steps[1..];
    }
  }

  lemma {:induction false} Fresh(created: set<Context>) returns (c: Context)
    ensures c !in created && forall x | x in created :: x < c
  {
    if created == {} {
      c := 0;
    } else {
      var x :| x in created;
      var rest := Fresh(created - {x});
      c := if x < rest then rest else x + 1;
      forall y | y in created ensures y < c {
        assert y == x || y in created - {x};
      }
    }
  }

  // A worker about to take a context that is not closed can run a workflow in it.
  lemma TakesAndWorks(s: System, made: Option<Context>) returns (steps: seq<Step>)
    requires |s.runners| == 1 && s.runners[0].Acquiring? && Can(s, Take(0, made))
    requires Acquired(s.pool, made).context.Some? && Acquired(s.pool, made).context.value !in s.shut
    ensures PlausibleRun(s, steps) && !NoneWorks(steps)
  {
    var taken := Do(s, Take(0, made));
    steps := [Take(0, made), WorkflowEnds(0)];
    assert Plausible(taken, WorkflowEnds(0));
    assert steps[1..] == [WorkflowEnds(0)] && steps[1..][1..] == [];
    assert Works(steps[1]);
  }

  lemma StepFirst(s: System, a: Step, rest: seq<Step>)
    requires Plausible(s, a) && !a.StartClose? && PlausibleRun(Do(s, a), rest) && !NoneWorks(rest)
    ensures PlausibleRun(s, [a] + rest) && !NoneWorks([a] + rest)
  {
    assert ([a] + rest)[1..] == rest;
    var w :| w in rest && Works(w);
    assert w in [a] + rest;
  }

  // From outside Run, the same.
  lemma EntersAndWorks(s: System, made: Option<Context>) returns (steps: seq<Step>)
    requires |s.runners| == 1 && s.runners[0].Outside? && (made.Some? ==> made.value !in s.created)
    requires Acquired(s.pool, made).context.Some? && Acquired(s.pool, made).context.value !in s.shut
    ensures PlausibleRun(s, steps) && !NoneWorks(steps)
  {
    var rest := TakesAndWorks(Do(s, Enter(0)), made);
    StepFirst(s, Enter(0), rest);
    steps := [Enter(0)] + rest;
  }

  // From the release of a whole context of an open pool.
  lemma GivesAndWorks(s: System, made: Option<Context>) returns (steps: seq<Step>)
    requires |s.runners| == 1 && s.runners[0].Releasing? && (made.Some? ==> made.value !in s.created)
    requires !s.pool.closed && s.runners[0].c !in s.shut
    ensures PlausibleRun(s, steps) && !NoneWorks(steps)
  {
    var rest := EntersAndWorks(Do(s, Give(0)), made);
    StepFirst(s, Give(0), rest);
    steps := [Give(0)] + rest;
  }

  lemma FailingHasFailed(runners: seq<Runner>, shut: set<Context>, failed: set<Context>)
    requires |runners| == 1 && shut + FailingIn(runners) == failed
    ensures runners[0].Failing? ==> runners[0].c in failed
  {
    assert runners[0].Failing? ==> runners[0].c in FailingIn(runners);
  }

  lemma WholeWorks(s: System, made: Context) returns (steps: seq<Step>)
    requires |s.runners| == 1 && !s.runners[0].Failing? && !s.pool.closed && made !in s.created && made !in s.shut
    requires Current(s).Some? ==> Current(s).value !in s.shut
    ensures PlausibleRun(s, steps) && !NoneWorks(steps)
  {
    match s.runners[0]
    case Outside => steps := EntersAndWorks(s, Some(made));
    case Acquiring => steps := TakesAndWorks(s, Some(made));
    case WithPage(c) =>
      steps := [WorkflowEnds(0)];
      assert steps[1..] == [] && Works(steps[0]);
    case Releasing(c) => steps := GivesAndWorks(s, Some(made));
  }

  // A worker whose current context is whole, or that has none, can still run a workflow.
  lemma StillWorks(n: nat, s: System) returns (steps: seq<Step>)
    requires ReachableFrom(n, s) && |s.runners| == 1 && !s.pool.closed
    requires Current(s).Some? ==> Current(s).value !in s.failed
    ensures PlausibleRun(s, steps) && !NoneWorks(steps)
  {
    ReachableSound(n, s);
    FailingHasFailed(s.runners, s.shut, s.failed);
    var made := Fresh(s.created);
    steps := WholeWorks(s, made);
  }

  /** With one worker to a pool, as the controller sets them up, and closed contexts opening no page: the worker never
      completes another workflow before Close, however many whole contexts lie below, if and only if a workflow has
      failed in the context it holds or would get next. */
  lemma StuckIff(n: nat, s: System)
    requires ReachableFrom(n, s) && |s.runners| == 1 && !s.pool.closed
    ensures (forall steps | PlausibleRun(s, steps) :: NoneWorks(steps))
            <==> Current(s).Some? && Current(s).value in s.failed
  {
    if Current(s).Some? && Current(s).value in s.failed {
      FailedMeansStuck(n, s);
      forall steps | PlausibleRun(s, steps) ensures NoneWorks(steps) {
        StuckForGood(s, Current(s).value, steps);
      }
    } else {
      var steps := StillWorks(n, s);
    }
  }

  lemma FailedMeansStuck(n: nat, s: System)
    requires ReachableFrom(n, s) && |s.runners| == 1 && !s.pool.closed
    requires Current(s).Some? && Current(s).value in s.failed
    ensures Stuck(s, Current(s).value)
  {
    ReachableSound(n, s);
    if !s.runners[0].Failing? {
      assert FailingIn(s.runners) == {};
    }
  }
}
