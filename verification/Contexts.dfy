/** The context pool (internal/contexts/pool.go): its value, what each operation does to it, and the
    class that updates it in place. */
module Contexts {
  import opened Counting
  import opened Metrics

  type Context = nat

  datatype Pool = Pool(available: seq<Context>, inUse: set<Context>, open: nat, closed: bool)

  function Elements(xs: seq<Context>): set<Context> { set c | c in xs }

  const EMPTY_POOL := Pool([], {}, 0, false)

  datatype Taken = Taken(pool: Pool, context: Option<Context>)

  /** Acquire. `made` is what browser.NewContext would return: a new context, or none on error. */
  function Acquired(p: Pool, made: Option<Context>): Taken {
    if p.closed then Taken(p, None)
    else if |p.available| > 0 then
      var c := p.available[|p.available| - 1];
      Taken(p.(available := p.available[..|p.available| - 1], inUse := p.inUse + {c}), Some(c))
    else if made.None? then Taken(p, None)
    else Taken(p.(inUse := p.inUse + {made.value}, open := p.open + 1), made)
  }

  predicate Creates(p: Pool, made: Option<Context>) { !p.closed && |p.available| == 0 && made.Some? }

  function Released(p: Pool, c: Context): Pool {
    if p.closed then p.(inUse := p.inUse - {c})
    else p.(inUse := p.inUse - {c}, available := p.available + [c])
  }

  // Acquire and, if that gave a context, release it again: what one run does to a pool.
  function Borrowed(p: Pool, made: Option<Context>): Pool {
    var t := Acquired(p, made);
    if t.context.None? then t.pool else Released(t.pool, t.context.value)
  }

  /** Every run gives back what it took: the set in use is as before, a pool with a spare context is left exactly as
      it was, an exhausted one gains the new context, and a closed one is left alone. */
  lemma RunGivesBack(p: Pool, made: Option<Context>)
    requires forall c | c in p.available :: c !in p.inUse
    requires made.Some? ==> made.value !in p.inUse
    ensures Borrowed(p, made).inUse == p.inUse
    ensures p.closed || |p.available| > 0 ==> Borrowed(p, made) == p
    ensures !p.closed && p.available == [] ==>
              Borrowed(p, made) == if made.None? then p else p.(available := [made.value], open := p.open + 1)
  {
    if !p.closed && |p.available| > 0 {
      SpareGivenBack(p, made);
    }
  }

  lemma SpareGivenBack(p: Pool, made: Option<Context>)
    requires !p.closed && |p.available| > 0 && forall c | c in p.available :: c !in p.inUse
    ensures Borrowed(p, made) == p
  {
    var last := |p.available| - 1;
    assert p.available == p.available[..last] + [p.available[last]];
  }

  function Shut(p: Pool): Pool {
    if p.closed then p else p.(available := [], inUse := {}, closed := true)
  }

  // What a pool operation tells the recorder when it asks the browser for a context.
  function CreationCalls(made: Option<Context>, seconds: real): seq<Call> {
    if made.Some? then [Call.RecordLifecycle(ContextCreateStarted), Call.RecordContextCreation(seconds)]
    else [Call.RecordLifecycle(ContextCreateStarted)]
  }

  function AcquireCalls(p: Pool, made: Option<Context>, seconds: real): seq<Call> {
    if p.closed || |p.available| > 0 then [] else CreationCalls(made, seconds)
  }

  /** All contexts the pool knows of. */
  function Members(p: Pool): set<Context> { Elements(p.available) + p.inUse }

  class ContextPool {
    var available: seq<Context>
    var inUse: set<Context>
    var open: nat
    var closed: bool
    var shut: set<Context>      // contexts on which Close has been called
    var browserClosed: bool
    const rec: Recorder

    ghost function View(): Pool
      reads this
    {
      Pool(available, inUse, open, closed)
    }

    constructor Empty(rec: Recorder)
      ensures View() == EMPTY_POOL && shut == {} && !browserClosed && this.rec == rec
    {
      available, inUse, open, closed, shut, browserClosed := [], {}, 0, false, {}, false;
      this.rec := rec;
    }

    method NewContext(made: Option<Context>)
      modifies this`open, rec
      ensures open == old(open) + One(made.Some?)
      ensures rec.View() == old(rec.View()).After(Call.RecordLifecycle(ContextCreateStarted))
    {
      rec.RecordLifecycle(ContextCreateStarted);
      if made.Some? {
        open := open + 1;
      }
    }

    // One round of NewPoolWithBrowser's loop, up to the error.
    method Add(made: Option<Context>, seconds: real) returns (ok: bool)
      modifies this`open, this`available, rec
      ensures ok == made.Some?
      ensures !ok ==> View() == old(View())
      ensures ok ==> View() == old(View()).(available := old(available) + [made.value], open := old(open) + 1)
      ensures rec.View() == Replay(old(rec.View()), CreationCalls(made, seconds))
    {
      NewContext(made);
      if made.None? {
        ReplayOne(old(rec.View()), Call.RecordLifecycle(ContextCreateStarted));
        return false;
      }
      rec.RecordContextCreation(seconds);
      ReplayTwo(old(rec.View()), Call.RecordLifecycle(ContextCreateStarted), Call.RecordContextCreation(seconds));
      available := available + [made.value];
      return true;
    }

    method Acquire(made: Option<Context>, seconds: real) returns (r: Option<Context>)
      modifies this, rec
      ensures View() == Acquired(old(View()), made).pool && r == Acquired(old(View()), made).context
      ensures shut == old(shut) && browserClosed == old(browserClosed)
      ensures rec.View() == Replay(old(rec.View()), AcquireCalls(old(View()), made, seconds))
    {
      if closed {
        return None;
      }
      if |available| > 0 {
        var c := available[|available| - 1];
        available := available[..|available| - 1];
        inUse := inUse + {c};
        return Some(c);
      }
      NewContext(made);
      if made.None? {
        ReplayOne(old(rec.View()), Call.RecordLifecycle(ContextCreateStarted));
        return None;
      }
      rec.RecordContextCreation(seconds);
      ReplayTwo(old(rec.View()), Call.RecordLifecycle(ContextCreateStarted), Call.RecordContextCreation(seconds));
      inUse := inUse + {made.value};
      return made;
    }

    method Release(c: Context)
      modifies this
      ensures View() == Released(old(View()), c)
      ensures shut == old(shut) + if old(closed) then {c} else {}
      ensures browserClosed == old(browserClosed)
    {
      inUse := inUse - {c};
      if closed {
        shut := shut + {c};
        return;
      }
      available := available + [c];
    }

    /** Closes every context the pool knows of, available or in use, and the browser. */
    method Close()
      modifies this
      ensures View() == Shut(old(View()))
      ensures old(closed) ==> shut == old(shut) && browserClosed == old(browserClosed)
      ensures !old(closed) ==> shut == old(shut) + Members(old(View())) && browserClosed
    {
      if closed {
        return;
      }
      closed := true;
      var all := Elements(available) + inUse;
      available := [];
      inUse := {};
      ghost var was := shut;
      ghost var total := all;
      while all != {}
        invariant shut + all == was + total
        invariant all <= total
        invariant View() == Shut(old(View()))
        invariant browserClosed == old(browserClosed)
        decreases |all|
      {
        var c :| c in all;
        all := all - {c};
        shut := shut + {c};
      }
      browserClosed := true;
    }

    // The context's own Close, called by a worker whose workflow failed.
    method CloseContext(c: Context)
      modifies this`shut
      ensures shut == old(shut) + {c}
    {
      shut := shut + {c};
    }
  }

  // The contexts the first n calls of NewContext return.
  function FirstMade(made: seq<Option<Context>>, n: nat): seq<Context>
    requires n <= |made| && forall i | 0 <= i < n :: made[i].Some?
  {
    seq(n, i requires 0 <= i < n => made[i].value)
  }

  // What asking the browser for the first n contexts tells the recorder.
  function AllCreationCalls(made: seq<Option<Context>>, seconds: seq<real>, n: nat): seq<Call>
    requires n <= |made| == |seconds|
  {
    if n == 0 then [] else AllCreationCalls(made, seconds, n - 1) + CreationCalls(made[n - 1], seconds[n - 1])
  }

  // The first context that cannot be made, or the number of contexts.
  function FirstNone(made: seq<Option<Context>>): (k: nat)
    ensures k <= |made| && (forall i | 0 <= i < k :: made[i].Some?) && (k < |made| ==> made[k].None?)
  {
    if made == [] || made[0].None? then 0 else 1 + FirstNone(made[1..])
  }

  lemma {:induction false} FirstNoneAt(made: seq<Option<Context>>, k: nat)
    requires k <= |made| && (forall i | 0 <= i < k :: made[i].Some?) && (k < |made| ==> made[k].None?)
    ensures FirstNone(made) == k
  {
    if k > 0 {
      FirstNoneAt(made[1..], k - 1);
    }
  }

  lemma CreationRecord(t: Tally, made: Option<Context>, seconds: real)
    ensures Replay(t, CreationCalls(made, seconds)).setup
         == t.setup.(contextsCreated := t.setup.contextsCreated + 1,
                     contextCreations := t.setup.contextCreations + if made.Some? then [seconds] else [])
  {
    var start := Call.RecordLifecycle(ContextCreateStarted);
    ReplayOne(t, start);
    ReplayTwo(t, start, Call.RecordContextCreation(seconds));
  }

  /** Asking for the first n contexts, none after the first that cannot be made: the recorder counts n of them, and the
      series of creations gains the times of those made, in order. */
  lemma {:induction false} CreationsRecord(t: Tally, made: seq<Option<Context>>, seconds: seq<real>, n: nat)
    requires n <= |made| == |seconds| && n <= FirstNone(made) + 1
    ensures var times := seconds[..if n <= FirstNone(made) then n else n - 1];
            Replay(t, AllCreationCalls(made, seconds, n)).setup
              == t.setup.(contextsCreated := t.setup.contextsCreated + n,
                          contextCreations := t.setup.contextCreations + times)
  {
    if n > 0 {
      var before, last := AllCreationCalls(made, seconds, n - 1), CreationCalls(made[n - 1], seconds[n - 1]);
      CreationsRecord(t, made, seconds, n - 1);
      ReplayConcat(t, before, last);
      CreationRecord(Replay(t, before), made[n - 1], seconds[n - 1]);
      MoreTimes(t.setup.contextCreations, seconds, n);
    }
  }

  lemma MoreTimes(before: seq<real>, seconds: seq<real>, n: nat)
    requires 0 < n <= |seconds|
    ensures before + seconds[..n - 1] + [seconds[n - 1]] == before + seconds[..n]
    ensures before + seconds[..n - 1] + [] == before + seconds[..n - 1]
  {
  }

  /** What NewPoolWithBrowser leaves: k is the first context that could not be made, or n. */
  ghost predicate Built(p: ContextPool, made: seq<Option<Context>>, ok: bool)
    reads p
  {
    var k := FirstNone(made);
    && ok == (k == |made|) && p.open == k
    && if ok then p.View() == Pool(FirstMade(made, k), {}, k, false) && p.shut == {} && !p.browserClosed
       else p.View() == Pool([], {}, k, true) && p.shut == Elements(FirstMade(made, k)) && p.browserClosed
  }

  lemma AllAvailable(xs: seq<Context>, open: nat)
    ensures Members(Pool(xs, {}, open, false)) == Elements(xs)
  {
  }

  // The loop: contexts are added until one cannot be made.
  method Fill(p: ContextPool, made: seq<Option<Context>>, seconds: seq<real>) returns (k: nat)
    requires |made| == |seconds| && p.View() == EMPTY_POOL
    modifies p`open, p`available, p.rec
    ensures k == FirstNone(made) && p.View() == Pool(FirstMade(made, k), {}, k, false)
    ensures p.rec.View() == Replay(old(p.rec.View()),
                                   AllCreationCalls(made, seconds, if k == |made| then k else k + 1))
  {
    ghost var t0 := p.rec.View();
    k := 0;
    while k < |made|
      invariant 0 <= k <= |made| && forall i | 0 <= i < k :: made[i].Some?
      invariant p.View() == Pool(FirstMade(made, k), {}, k, false)
      invariant p.rec.View() == Replay(t0, AllCreationCalls(made, seconds, k))
    {
      var added := p.Add(made[k], seconds[k]);
      ReplayConcat(t0, AllCreationCalls(made, seconds, k), CreationCalls(made[k], seconds[k]));
      if !added {
        FirstNoneAt(made, k);
        return;
      }
      assert FirstMade(made, k + 1) == FirstMade(made, k) + [made[k].value];
      k := k + 1;
    }
    FirstNoneAt(made, k);
  }

  /** NewPoolWithBrowser: n contexts up front; if one cannot be created, those already made are closed. */
  method NewPoolWithBrowser(n: nat, made: seq<Option<Context>>, seconds: seq<real>, rec: Recorder)
    returns (p: ContextPool, ok: bool)
    requires |made| == |seconds| == n
    modifies rec
    ensures fresh(p) && p.rec == rec && Built(p, made, ok)
    ensures rec.View() == Replay(old(rec.View()),
                                 AllCreationCalls(made, seconds, if ok then n else FirstNone(made) + 1))
  {
    p := new ContextPool.Empty(rec);
    var k := Fill(p, made, seconds);
    if k < n {
      AllAvailable(FirstMade(made, k), k);
      p.Close();
    }
    return p, k == n;
  }
}
