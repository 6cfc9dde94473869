/** Reducing a classified snapshot to role totals (internal/accounting/accounting.go, Aggregate), and how
    those totals relate to the memory of the controller's process tree. */
module Accounting {
  import opened Counting
  import opened ProcessTree
  import opened Ownership

  datatype Sample = Sample(
    controllerRSS: nat, browserRSS: nat, targetRSS: nat, auxRSS: nat, benchmarkRSS: nat,
    controllerCPU: real, browserCPU: real, targetCPU: real, benchmarkCPU: real,
    totalProcesses: nat, browserProcesses: nat, rendererProcesses: nat, utilityProcesses: nat,
    gpuProcesses: nat, controllerProcesses: nat, targetProcesses: nat)

  predicate BrowserRole(r: Role) { r.RoleBrowser? || r.RoleRenderer? || r.RoleUtility? || r.RoleGPU? }
  predicate AuxRole(r: Role) { r.RoleAux? || r.RoleUnknown? }

  /** Memory, CPU and number of the entries whose role satisfies a test. */
  function RSSWhere(es: seq<Entry>, p: Role -> bool): nat {
    if es == [] then 0
    else RSSWhere(es[..|es| - 1], p) + if p(es[|es| - 1].role) then es[|es| - 1].rss else 0
  }

  function CPUWhere(es: seq<Entry>, p: Role -> bool): real {
    if es == [] then 0.0
    else CPUWhere(es[..|es| - 1], p) + if p(es[|es| - 1].role) then es[|es| - 1].cpu else 0.0
  }

  function CountWhere(es: seq<Entry>, p: Role -> bool): nat {
    if es == [] then 0 else CountWhere(es[..|es| - 1], p) + One(p(es[|es| - 1].role))
  }

  predicate IsController(r: Role) { r.RoleController? }
  predicate IsTarget(r: Role) { r.RoleTarget? }
  predicate IsRenderer(r: Role) { r.RoleRenderer? }
  predicate IsUtility(r: Role) { r.RoleUtility? }
  predicate IsGPU(r: Role) { r.RoleGPU? }
  predicate IsUnknown(r: Role) { r.RoleUnknown? }
  predicate IsKnown(r: Role) { !r.RoleUnknown? }
  predicate AnyRole(r: Role) { true }

  const EMPTY_SAMPLE := Sample(0, 0, 0, 0, 0, 0.0, 0.0, 0.0, 0.0, 0, 0, 0, 0, 0, 0, 0)

  ghost predicate RSSTotals(s: Sample, es: seq<Entry>) {
    && s.controllerRSS == Wrap(RSSWhere(es, IsController)) && s.browserRSS == Wrap(RSSWhere(es, BrowserRole))
    && s.targetRSS == Wrap(RSSWhere(es, IsTarget)) && s.auxRSS == Wrap(RSSWhere(es, AuxRole))
  }

  ghost predicate CPUTotals(s: Sample, es: seq<Entry>) {
    && s.controllerCPU == CPUWhere(es, IsController) && s.browserCPU == CPUWhere(es, BrowserRole)
    && s.targetCPU == CPUWhere(es, IsTarget)
  }

  ghost predicate CountTotals(s: Sample, es: seq<Entry>) {
    && s.browserProcesses == CountWhere(es, BrowserRole) && s.rendererProcesses == CountWhere(es, IsRenderer)
    && s.utilityProcesses == CountWhere(es, IsUtility) && s.gpuProcesses == CountWhere(es, IsGPU)
    && s.controllerProcesses == CountWhere(es, IsController) && s.targetProcesses == CountWhere(es, IsTarget)
  }

  ghost predicate Totals(s: Sample, es: seq<Entry>) { RSSTotals(s, es) && CPUTotals(s, es) && CountTotals(s, es) }

  /** A total takes the memory, or the load, of each entry of its roles once. */
  lemma {:induction false} WhereIsSum(p: Role -> bool, e: Entry, es: seq<Entry>, fs: seq<Entry>)
    ensures RSSWhere([e], p) == (if p(e.role) then e.rss else 0)
    ensures CPUWhere([e], p) == (if p(e.role) then e.cpu else 0.0)
    ensures RSSWhere(es + fs, p) == RSSWhere(es, p) + RSSWhere(fs, p)
    ensures CPUWhere(es + fs, p) == CPUWhere(es, p) + CPUWhere(fs, p)
    decreases |fs|
  {
    assert [e][..0] == [];
    if fs == [] {
      assert es + fs == es;
    } else {
      var front := fs[..|fs| - 1];
      assert (es + fs)[..|es + fs| - 1] == es + front;
      WhereIsSum(p, e, es, front);
    }
  }

  // One pass of the loop.
  function Added(s: Sample, e: Entry): Sample {
    match e.role
    case RoleController =>
      s.(controllerRSS := Wrap(s.controllerRSS + e.rss), controllerCPU := s.controllerCPU + e.cpu,
         controllerProcesses := s.controllerProcesses + 1)
    case RoleTarget =>
      s.(targetRSS := Wrap(s.targetRSS + e.rss), targetCPU := s.targetCPU + e.cpu,
         targetProcesses := s.targetProcesses + 1)
    case RoleAux => s.(auxRSS := Wrap(s.auxRSS + e.rss))
    case RoleUnknown => s.(auxRSS := Wrap(s.auxRSS + e.rss))
    case _ =>
      s.(browserRSS := Wrap(s.browserRSS + e.rss), browserCPU := s.browserCPU + e.cpu,
         browserProcesses := s.browserProcesses + 1,
         rendererProcesses := s.rendererProcesses + One(e.role.RoleRenderer?),
         utilityProcesses := s.utilityProcesses + One(e.role.RoleUtility?),
         gpuProcesses := s.gpuProcesses + One(e.role.RoleGPU?))
  }

  lemma AddedRSS(s: Sample, es: seq<Entry>, e: Entry)
    requires RSSTotals(s, es)
    ensures RSSTotals(Added(s, e), es + [e])
  {
    OneMore(es, e, IsController);
    OneMore(es, e, BrowserRole);
    OneMore(es, e, IsTarget);
    OneMore(es, e, AuxRole);
  }

  lemma OneMore(es: seq<Entry>, e: Entry, p: Role -> bool)
    ensures Wrap(RSSWhere(es + [e], p))
         == if p(e.role) then Wrap(Wrap(RSSWhere(es, p)) + e.rss) else Wrap(RSSWhere(es, p))
  {
    assert (es + [e])[..|es|] == es;
    WrapAdd(RSSWhere(es, p), e.rss);
  }

  lemma AddedCPU(s: Sample, es: seq<Entry>, e: Entry)
    requires CPUTotals(s, es)
    ensures CPUTotals(Added(s, e), es + [e])
  {
    assert (es + [e])[..|es|] == es;
  }

  lemma AddedCounts(s: Sample, es: seq<Entry>, e: Entry)
    requires CountTotals(s, es)
    ensures CountTotals(Added(s, e), es + [e])
  {
    assert (es + [e])[..|es|] == es;
  }

  method Aggregate(entries: seq<Entry>) returns (s: Sample)
    ensures Totals(s, entries)
    ensures s.benchmarkRSS == Wrap(s.controllerRSS + s.browserRSS + s.targetRSS + s.auxRSS)
    ensures s.benchmarkCPU == s.controllerCPU + s.browserCPU + s.targetCPU
    ensures s.totalProcesses == |entries|
  {
    s := EMPTY_SAMPLE;
    var i := 0;
    while i < |entries|
      invariant 0 <= i <= |entries|
      invariant Totals(s, entries[..i])
    {
      AddedRSS(s, entries[..i], entries[i]);
      AddedCPU(s, entries[..i], entries[i]);
      AddedCounts(s, entries[..i], entries[i]);
      assert entries[..i + 1] == entries[..i] + [entries[i]];
      s := Added(s, entries[i]);
      i := i + 1;
    }
    assert entries[..i] == entries;
    s := s.(benchmarkRSS := Wrap(s.controllerRSS + s.browserRSS + s.targetRSS + s.auxRSS),
            benchmarkCPU := s.controllerCPU + s.browserCPU + s.targetCPU,
            totalProcesses := |entries|);
  }

  predicate BrowserItself(r: Role) { r.RoleBrowser? }

  /** Every process is counted once: the controller's, the target's and the browsers', with those in no count; and the
      browsers' processes are the browsers themselves, renderers, utilities and GPU processes. */
  lemma {:induction false} CountsSplit(es: seq<Entry>)
    ensures CountWhere(es, IsController) + CountWhere(es, IsTarget) + CountWhere(es, BrowserRole)
            + CountWhere(es, AuxRole) == |es|
    ensures CountWhere(es, BrowserRole)
         == CountWhere(es, BrowserItself) + CountWhere(es, IsRenderer) + CountWhere(es, IsUtility)
            + CountWhere(es, IsGPU)
  {
    if es != [] {
      CountsSplit(es[..|es| - 1]);
    }
  }

  // ----- totals against the process tree -----

  lemma {:induction false} RSSSplits(es: seq<Entry>, p: Role -> bool, q: Role -> bool, r: Role -> bool)
    requires forall x: Role :: r(x) <==> p(x) || q(x)
    requires forall x: Role :: !(p(x) && q(x))
    ensures RSSWhere(es, r) == RSSWhere(es, p) + RSSWhere(es, q)
  {
    if es != [] {
      RSSSplits(es[..|es| - 1], p, q, r);
    }
  }

  lemma WrapFour(a: nat, b: nat, c: nat, d: nat)
    ensures Wrap(Wrap(a) + Wrap(b) + Wrap(c) + Wrap(d)) == Wrap(a + b + c + d)
  {
    WrapAdd(a, Wrap(b) + Wrap(c) + Wrap(d));
    WrapAdd(b, a + Wrap(c) + Wrap(d));
    WrapAdd(c, a + b + Wrap(d));
    WrapAdd(d, a + b + c);
  }

  predicate ControllerOrBrowser(r: Role) { r.RoleController? || BrowserRole(r) }
  predicate NotAux(r: Role) { ControllerOrBrowser(r) || r.RoleTarget? }

  /** The four role totals together are the memory of every process in the snapshot, owned or not. */
  lemma BenchmarkIsEverything(es: seq<Entry>, s: Sample)
    requires RSSTotals(s, es)
    ensures Wrap(s.controllerRSS + s.browserRSS + s.targetRSS + s.auxRSS) == Wrap(RSSWhere(es, AnyRole))
  {
    RSSSplits(es, IsController, BrowserRole, ControllerOrBrowser);
    RSSSplits(es, ControllerOrBrowser, IsTarget, NotAux);
    RSSSplits(es, NotAux, AuxRole, AnyRole);
    WrapFour(RSSWhere(es, IsController), RSSWhere(es, BrowserRole), RSSWhere(es, IsTarget), RSSWhere(es, AuxRole));
  }

  /** The entries of a classified snapshot, by the specification of Classify. */
  ghost predicate Classified(es: seq<Entry>, controller: nat, target: nat) {
    forall i | 0 <= i < |es| :: es[i].role == RoleOf(es, controller, target, es[i])
  }

  /** Classify leaves a snapshot that is classified in this sense, with the same table. */
  lemma ClassifyEstablishes(es: seq<Entry>, fs: seq<Entry>, controller: nat, target: nat)
    requires SameBut(es, fs) && UniquePids(es)
    requires forall i | 0 <= i < |es| :: fs[i].role == RoleOf(es, controller, target, es[i])
    ensures Classified(fs, controller, target) && UniquePids(fs) && TableOf(fs) == TableOf(es)
  {
    SameTable(es, fs);
    forall i, j | 0 <= i < j < |fs| ensures fs[i].pid != fs[j].pid {
      assert es[i].pid != es[j].pid;
    }
    forall i | 0 <= i < |fs| ensures fs[i].role == RoleOf(fs, controller, target, fs[i]) {
      SameRole(es, fs, controller, target, es[i]);
    }
  }

  // With no separate target, a role other than unknown means membership in the controller's tree.
  lemma KnownMeansOwned(es: seq<Entry>, controller: nat, e: Entry)
    requires controller != 0
    ensures RoleOf(es, controller, 0, e) != RoleUnknown <==> Owned(es, controller, e.pid)
  {
    RootDescends(Table(es), controller);
  }

  lemma GrowSum(procs: map<nat, ProcInfo>, pids: set<nat>, p: nat)
    requires pids <= procs.Keys && p in procs && p !in pids
    ensures SumRSS(procs, pids + {p}) == SumRSS(procs, pids) + procs[p].rss
  {
    assert pids + {p} - {p} == pids;
    SumRSSRemove(procs, pids + {p}, p);
  }

  // Entries listed in a table, whose role is known exactly for the members of a set of processes.
  ghost predicate Listed(es: seq<Entry>, procs: map<nat, ProcInfo>, members: set<nat>) {
    && UniquePids(es)
    && (forall i | 0 <= i < |es| :: es[i].pid in procs && procs[es[i].pid].rss == es[i].rss)
    && (forall i | 0 <= i < |es| :: es[i].role != RoleUnknown <==> es[i].pid in members)
  }

  lemma {:induction false} KnownSum(es: seq<Entry>, procs: map<nat, ProcInfo>, members: set<nat>)
    requires Listed(es, procs, members)
    ensures Pids(es) <= procs.Keys
    ensures RSSWhere(es, IsKnown) == SumRSS(procs, Pids(es) * members)
  {
    if es == [] {
      assert Pids(es) * members == {};
    } else {
      var front, e := es[..|es| - 1], es[|es| - 1];
      KnownSum(front, procs, members);
      assert Pids(es) == Pids(front) + {e.pid};
      assert e.pid !in Pids(front);
      if e.pid in members {
        assert Pids(es) * members == Pids(front) * members + {e.pid};
        GrowSum(procs, Pids(front) * members, e.pid);
      } else {
        assert Pids(es) * members == Pids(front) * members;
      }
    }
  }

  lemma ClassifiedListed(es: seq<Entry>, controller: nat)
    requires controller != 0 && UniquePids(es) && Classified(es, controller, 0)
    ensures Listed(es, TableOf(es), Tree(TableOf(es), controller))
    ensures Pids(es) * Tree(TableOf(es), controller) == Tree(TableOf(es), controller)
  {
    TableOfEntries(es);
    forall i | 0 <= i < |es|
      ensures es[i].role != RoleUnknown <==> es[i].pid in Tree(TableOf(es), controller)
    {
      KnownMeansOwned(es, controller, es[i]);
    }
  }

  /** The two walks agree: the memory of all entries with a known role is the memory TreeRSS adds up. */
  lemma TreeWalksAgree(es: seq<Entry>, controller: nat)
    requires controller != 0 && UniquePids(es) && Classified(es, controller, 0)
    ensures RSSWhere(es, IsKnown) == SumRSS(TableOf(es), Tree(TableOf(es), controller))
  {
    ClassifiedListed(es, controller);
    KnownSum(es, TableOf(es), Tree(TableOf(es), controller));
  }

  lemma {:induction false} NoRSSWhere(es: seq<Entry>, p: Role -> bool)
    ensures RSSWhere(es, p) == 0 <==> forall i | 0 <= i < |es| && p(es[i].role) :: es[i].rss == 0
  {
    if es != [] {
      var front := es[..|es| - 1];
      NoRSSWhere(front, p);
      if forall i | 0 <= i < |front| && p(front[i].role) :: front[i].rss == 0 {
      } else {
        var i :| 0 <= i < |front| && p(front[i].role) && front[i].rss != 0;
        assert es[i] == front[i];
      }
    }
  }

  lemma StrangersRSS(es: seq<Entry>, controller: nat)
    requires controller != 0 && Classified(es, controller, 0)
    ensures RSSWhere(es, IsUnknown) == 0
            <==> forall i | 0 <= i < |es| && !Owned(es, controller, es[i].pid) :: es[i].rss == 0
  {
    NoRSSWhere(es, IsUnknown);
    forall i | 0 <= i < |es| ensures IsUnknown(es[i].role) <==> !Owned(es, controller, es[i].pid) {
      KnownMeansOwned(es, controller, es[i]);
    }
  }

  lemma BenchmarkSplits(es: seq<Entry>, controller: nat, s: Sample)
    requires controller != 0 && UniquePids(es) && Classified(es, controller, 0)
    requires RSSTotals(s, es) && RSSWhere(es, AnyRole) < WORD
    ensures Wrap(s.controllerRSS + s.browserRSS + s.targetRSS + s.auxRSS)
         == SumRSS(TableOf(es), Tree(TableOf(es), controller)) + RSSWhere(es, IsUnknown)
  {
    BenchmarkIsEverything(es, s);
    RSSSplits(es, IsKnown, IsUnknown, AnyRole);
    TreeWalksAgree(es, controller);
  }

  /** The benchmark total is the memory of the controller's tree if and only if the processes outside
      the tree use no memory: unknown processes are added to the auxiliary total. */
  lemma BenchmarkIsTreeIffNoStrangers(es: seq<Entry>, controller: nat, s: Sample)
    requires controller != 0 && UniquePids(es) && Classified(es, controller, 0)
    requires RSSTotals(s, es) && s.benchmarkRSS == Wrap(s.controllerRSS + s.browserRSS + s.targetRSS + s.auxRSS)
    requires RSSWhere(es, AnyRole) < WORD
    ensures s.benchmarkRSS == SumRSS(TableOf(es), Tree(TableOf(es), controller))
            <==> forall i | 0 <= i < |es| && !Owned(es, controller, es[i].pid) :: es[i].rss == 0
  {
    BenchmarkSplits(es, controller, s);
    StrangersRSS(es, controller);
  }

  /** What TreeRSS adds up is the memory of all entries with a known role if and only if the controller is not below
      itself, or uses no memory: on a cycle through it the tree walk counts it twice. */
  lemma WalksAgreeIff(es: seq<Entry>, controller: nat)
    requires controller != 0 && UniquePids(es) && Classified(es, controller, 0)
    ensures RSSWhere(es, IsKnown) == TreeTotal(TableOf(es), controller)
            <==> !BelowItself(TableOf(es), controller) || TableOf(es)[controller].rss == 0
  {
    TreeWalksAgree(es, controller);
  }

  const CONTROLLER_ENTRY := Entry(1, 0, false, NoHint, 0.0, 10, RoleController)
  const STRANGER_ENTRY := Entry(2, 0, false, NoHint, 0.0, 5, RoleUnknown)

  // Memory of two entries whose roles are told apart by a test, or not.
  lemma TwoEntries(a: Entry, b: Entry, p: Role -> bool)
    ensures RSSWhere([a, b], p) == (if p(a.role) then a.rss else 0) + if p(b.role) then b.rss else 0
  {
    assert [a, b][..1] == [a] && [a][..0] == [];
    assert RSSWhere([a], p) == if p(a.role) then a.rss else 0;
  }

  lemma StrangerClassified()
    ensures var es := [CONTROLLER_ENTRY, STRANGER_ENTRY];
            UniquePids(es) && AllEnd(Table(es), 1) && Classified(es, 1, 0) && !Owned(es, 1, 2)
  {
    var es := [CONTROLLER_ENTRY, STRANGER_ENTRY];
    TableOfEntries(es);
    assert es[0].pid == 1 && es[1].pid == 2;
    assert Table(es)[1] == 0 && Table(es)[2] == 0;
    assert Stops(Table(es), 1, 1, 0) && Stops(Table(es), 1, 2, 1);
    ZeroNotBelow(Table(es), 1);
    DescendsByParent(Table(es), 1, 2);
  }

  /** A controller with 10 bytes and a process of nobody's with 5: classified, walks end, and the benchmark total
      is 15 where the tree has 10. */
  lemma StrangerExample(s: Sample)
    requires RSSTotals(s, [CONTROLLER_ENTRY, STRANGER_ENTRY])
    ensures var es := [CONTROLLER_ENTRY, STRANGER_ENTRY];
            && UniquePids(es) && AllEnd(Table(es), 1) && Classified(es, 1, 0) && !Owned(es, 1, 2)
            && Wrap(s.controllerRSS + s.browserRSS + s.targetRSS + s.auxRSS) == 15
            && SumRSS(TableOf(es), Tree(TableOf(es), 1)) == 10
  {
    var es := [CONTROLLER_ENTRY, STRANGER_ENTRY];
    StrangerClassified();
    TwoEntries(CONTROLLER_ENTRY, STRANGER_ENTRY, AnyRole);
    TwoEntries(CONTROLLER_ENTRY, STRANGER_ENTRY, IsKnown);
    BenchmarkIsEverything(es, s);
    TreeWalksAgree(es, 1);
  }
}
