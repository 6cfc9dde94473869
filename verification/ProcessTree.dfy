/** Parent-pointer walks over a process table: the descendant closure they decide, and the memory of a
    process tree (internal/system/collector_windows.go, the walk of TreeRSS). */
module ProcessTree {
  import opened Counting

  /** A parent table: process id to parent id. Id 0 ends a chain. */
  type Parents = map<nat, nat>

  // A walk up from cur halts within k steps: at 0, at the root, or off the table.
  ghost predicate Stops(parents: Parents, root: nat, cur: nat, k: nat)
    decreases k
  {
    cur == 0 || cur == root || cur !in parents || (k > 0 && Stops(parents, root, parents[cur], k - 1))
  }

  /** The walk up from cur ends. */
  ghost predicate Ends(parents: Parents, root: nat, cur: nat) { exists k :: Stops(parents, root, cur, k) }

  ghost predicate AllEnd(parents: Parents, root: nat) { forall p | p in parents :: Ends(parents, root, p) }

  // How many steps the walk takes.
  ghost function Length(parents: Parents, root: nat, cur: nat, k: nat): nat
    requires Stops(parents, root, cur, k)
    decreases k
  {
    if cur == 0 || cur == root || cur !in parents then 0 else 1 + Length(parents, root, parents[cur], k - 1)
  }

  lemma {:induction false} LengthUnique(parents: Parents, root: nat, cur: nat, k: nat, m: nat)
    requires Stops(parents, root, cur, k) && Stops(parents, root, cur, m)
    ensures Length(parents, root, cur, k) == Length(parents, root, cur, m)
    decreases k
  {
    if Live(parents, root, cur) {
      LengthUnique(parents, root, parents[cur], k - 1, m - 1);
    }
  }

  ghost function Steps(parents: Parents, root: nat, cur: nat): nat
    requires Ends(parents, root, cur)
  {
    var k: nat :| Stops(parents, root, cur, k);
    Length(parents, root, cur, k)
  }

  // One step less from the parent.
  lemma StepsFromParent(parents: Parents, root: nat, cur: nat)
    requires Ends(parents, root, cur) && Live(parents, root, cur)
    ensures Ends(parents, root, parents[cur]) && Steps(parents, root, cur) == 1 + Steps(parents, root, parents[cur])
  {
    var k: nat :| Stops(parents, root, cur, k);
    assert Stops(parents, root, parents[cur], k - 1);
    forall m | Stops(parents, root, cur, m)
      ensures Length(parents, root, cur, m) == Length(parents, root, cur, k)
    {
      LengthUnique(parents, root, cur, m, k);
    }
    forall m | Stops(parents, root, parents[cur], m)
      ensures Length(parents, root, parents[cur], m) == Length(parents, root, parents[cur], k - 1)
    {
      LengthUnique(parents, root, parents[cur], m, k - 1);
    }
  }

  // A walk can go on from p.
  predicate Live(parents: Parents, root: nat, p: nat) { p in parents && p != 0 && p != root }

  // Positions a walk passes, each the parent of the one before.
  ghost predicate UpPath(parents: Parents, root: nat, path: seq<nat>) {
    && (forall i | 0 <= i < |path| :: Live(parents, root, path[i]))
    && forall i | 0 <= i < |path| - 1 :: parents[path[i]] == path[i + 1]
  }

  /** A cycle of parents that misses the root. */
  ghost predicate Cycle(parents: Parents, root: nat, path: seq<nat>) {
    path != [] && UpPath(parents, root, path) && parents[path[|path| - 1]] == path[0]
  }

  lemma {:induction false} CycleNeverStops(parents: Parents, root: nat, path: seq<nat>, i: nat, k: nat)
    requires Cycle(parents, root, path) && i < |path|
    ensures !Stops(parents, root, path[i], k)
    decreases k
  {
    assert Live(parents, root, path[i]);
    if k > 0 {
      CycleNeverStops(parents, root, path, if i + 1 < |path| then i + 1 else 0, k - 1);
    }
  }

  // A walk that does not halt within n steps passes n + 1 positions.
  lemma {:induction false} LongWalk(parents: Parents, root: nat, cur: nat, n: nat) returns (path: seq<nat>)
    requires !Stops(parents, root, cur, n)
    ensures |path| == n + 1 && path[0] == cur && UpPath(parents, root, path)
    decreases n
  {
    if n == 0 {
      path := [cur];
    } else {
      var rest := LongWalk(parents, root, parents[cur], n - 1);
      path := [cur] + rest;
    }
  }

  // More positions than processes: one occurs twice.
  lemma Repeats(parents: Parents, root: nat, path: seq<nat>) returns (i: nat, j: nat)
    requires UpPath(parents, root, path) && |path| > |parents.Keys|
    ensures i < j < |path| && path[i] == path[j]
  {
    if forall a, b | 0 <= a < b < |path| :: path[a] != path[b] {
      var at := map a: nat | a < |path| :: path[a];
      InjectionBound(at.Keys, parents.Keys, at);
      PositionCount(at.Keys, |path|);
    }
    i, j :| 0 <= i < j < |path| && path[i] == path[j];
  }

  lemma {:induction false} PositionCount(s: set<nat>, n: nat)
    requires forall a: nat :: a in s <==> a < n
    ensures |s| == n
  {
    if n > 0 {
      PositionCount(s - {n - 1}, n - 1);
    } else {
      assert s == {};
    }
  }

  lemma EndlessCycle(parents: Parents, root: nat, cur: nat) returns (path: seq<nat>)
    requires !Ends(parents, root, cur)
    ensures Cycle(parents, root, path)
  {
    var walk := LongWalk(parents, root, cur, |parents.Keys|);
    var i, j := Repeats(parents, root, walk);
    path := walk[i..j];
    assert Live(parents, root, walk[j - 1]);
    assert parents[walk[j - 1]] == walk[j];
  }

  /** Walks end, from every process, if and only if no cycle of parents misses the root. */
  lemma WalksEndIff(parents: Parents, root: nat)
    ensures AllEnd(parents, root) <==> !exists path :: Cycle(parents, root, path)
  {
    if path :| Cycle(parents, root, path) {
      assert Live(parents, root, path[0]);
      forall k ensures !Stops(parents, root, path[0], k) {
        CycleNeverStops(parents, root, path, 0, k);
      }
    }
    if !AllEnd(parents, root) {
      var p :| p in parents && !Ends(parents, root, p);
      var path := EndlessCycle(parents, root, p);
    }
  }

  // ----- the descendant closure -----

  /** A path from the root down to a process, each element the parent of the next. */
  ghost predicate DownPath(parents: Parents, root: nat, path: seq<nat>) {
    && path != [] && path[0] == root
    && forall i | 1 <= i < |path| :: path[i] != 0 && path[i] in parents && parents[path[i]] == path[i - 1]
  }

  ghost predicate Descends(parents: Parents, root: nat, pid: nat) {
    exists path :: DownPath(parents, root, path) && path[|path| - 1] == pid
  }

  lemma RootDescends(parents: Parents, root: nat)
    ensures Descends(parents, root, root)
  {
    assert DownPath(parents, root, [root]);
  }

  // One step up the chain, or off the table.
  lemma DescendsByParent(parents: Parents, root: nat, pid: nat)
    requires root != 0 && pid != root
    ensures Descends(parents, root, pid) <==> pid != 0 && pid in parents && Descends(parents, root, parents[pid])
  {
    if Descends(parents, root, pid) {
      var path :| DownPath(parents, root, path) && path[|path| - 1] == pid;
      var up := path[..|path| - 1];
      assert DownPath(parents, root, up) && up[|up| - 1] == parents[pid];
    }
    if pid != 0 && pid in parents && Descends(parents, root, parents[pid]) {
      var up :| DownPath(parents, root, up) && up[|up| - 1] == parents[pid];
      assert DownPath(parents, root, up + [pid]);
    }
  }

  lemma ZeroNotBelow(parents: Parents, root: nat)
    requires root != 0
    ensures !Descends(parents, root, 0)
  {
    DescendsByParent(parents, root, 0);
  }

  // ----- memory of a tree, in 64-bit words -----

  const WORD: nat := 0x1_0000_0000_0000_0000

  function Wrap(x: nat): nat { x % WORD }

  lemma WrapAdd(a: nat, b: nat)
    ensures Wrap(Wrap(a) + b) == Wrap(a + b)
  {
  }

  lemma WrapSmall(x: nat)
    requires x < WORD
    ensures Wrap(x) == x
  {
  }

  // total is what 64-bit addition makes of sum.
  ghost predicate Word(total: nat, sum: nat) { total == Wrap(sum) }

  // One addition to a running total.
  method AddWord(total: nat, b: nat, ghost sum: nat) returns (r: nat)
    requires Word(total, sum)
    ensures Word(r, sum + b)
  {
    WrapAdd(sum, b);
    r := Wrap(total + b);
  }

  datatype ProcInfo = ProcInfo(ppid: nat, rss: nat)

  function ParentsOf(procs: map<nat, ProcInfo>): Parents {
    map p | p in procs :: procs[p].ppid
  }

  ghost function SumRSS(procs: map<nat, ProcInfo>, pids: set<nat>): nat
    requires pids <= procs.Keys
  {
    if pids == {} then 0
    else
      var p :| p in pids;
      procs[p].rss + SumRSS(procs, pids - {p})
  }

  // The choice of element does not matter.
  lemma {:induction false} SumRSSRemove(procs: map<nat, ProcInfo>, pids: set<nat>, q: nat)
    requires pids <= procs.Keys && q in pids
    ensures SumRSS(procs, pids) == procs[q].rss + SumRSS(procs, pids - {q})
    decreases pids
  {
    var p :| p in pids && SumRSS(procs, pids) == procs[p].rss + SumRSS(procs, pids - {p});
    if p != q {
      SumRSSRemove(procs, pids - {p}, q);
      SumRSSRemove(procs, pids - {q}, p);
      assert pids - {p} - {q} == pids - {q} - {p};
    }
  }

  /** The root and everything below it that is in the table. */
  ghost function Tree(procs: map<nat, ProcInfo>, root: nat): set<nat> {
    set p | p in procs && Descends(ParentsOf(procs), root, p)
  }

  /** The root is below itself: a cycle of parents passes through it. */
  ghost predicate BelowItself(procs: map<nat, ProcInfo>, root: nat) {
    root in procs && Descends(ParentsOf(procs), root, procs[root].ppid)
  }

  lemma BelowItselfMeans(procs: map<nat, ProcInfo>, root: nat)
    requires root != 0
    ensures BelowItself(procs, root)
            <==> exists path :: DownPath(ParentsOf(procs), root, path) && |path| >= 2 && path[|path| - 1] == root
  {
    var parents := ParentsOf(procs);
    if BelowItself(procs, root) {
      var up :| DownPath(parents, root, up) && up[|up| - 1] == procs[root].ppid;
      var path := up + [root];
      assert DownPath(parents, root, path) && |path| >= 2 && path[|path| - 1] == root;
    }
    if path :| DownPath(parents, root, path) && |path| >= 2 && path[|path| - 1] == root {
      var up := path[..|path| - 1];
      assert DownPath(parents, root, up) && up[|up| - 1] == procs[root].ppid;
    }
  }

  // A process with id 0 has parent 0.
  predicate ZeroFirst(procs: map<nat, ProcInfo>) { 0 in procs ==> procs[0].ppid == 0 }

  lemma TreeByParent(procs: map<nat, ProcInfo>, root: nat, pid: nat)
    requires root != 0 && ZeroFirst(procs) && pid in procs && pid != root
    ensures Descends(ParentsOf(procs), root, procs[pid].ppid) <==> pid in Tree(procs, root)
  {
    DescendsByParent(ParentsOf(procs), root, pid);
    if pid == 0 {
      ZeroNotBelow(ParentsOf(procs), root);
    }
  }

  lemma RootInTree(procs: map<nat, ProcInfo>, root: nat)
    ensures Tree(procs, root) <= procs.Keys && (root in Tree(procs, root) <==> root in procs)
  {
    RootDescends(ParentsOf(procs), root);
  }

  // What the walk has added up when `left` is still to be visited. The root is counted at the start.
  function Counted(tree: set<nat>, root: nat, left: set<nat>): set<nat> {
    set p | p in tree && (p == root || p !in left)
  }

  lemma CountRoot(procs: map<nat, ProcInfo>, tree: set<nat>, root: nat)
    requires tree <= procs.Keys && (root in tree <==> root in procs)
    ensures SumRSS(procs, Counted(tree, root, procs.Keys)) == if root in procs then procs[root].rss else 0
  {
    if root in procs {
      assert Counted(tree, root, procs.Keys) == {root};
      SumRSSRemove(procs, {root}, root);
      assert {root} - {root} == {};
    } else {
      assert Counted(tree, root, procs.Keys) == {};
    }
  }

  lemma CountOne(procs: map<nat, ProcInfo>, tree: set<nat>, root: nat, left: set<nat>, p: nat)
    requires tree <= procs.Keys && p in left
    ensures SumRSS(procs, Counted(tree, root, left - {p}))
         == SumRSS(procs, Counted(tree, root, left)) + if p in tree && p != root then procs[p].rss else 0
  {
    if p in tree && p != root {
      assert Counted(tree, root, left - {p}) - {p} == Counted(tree, root, left);
      SumRSSRemove(procs, Counted(tree, root, left - {p}), p);
    } else {
      assert Counted(tree, root, left - {p}) == Counted(tree, root, left);
    }
  }

  /** The inner loop of TreeRSS: from wherever the walk up ends, it decides exactly whether start is the root or below
      it. */
  method MeetsRoot(procs: map<nat, ProcInfo>, root: nat, start: nat) returns (below: bool)
    requires root != 0 && Ends(ParentsOf(procs), root, start)
    ensures below <==> Descends(ParentsOf(procs), root, start)
  {
    ghost var parents := ParentsOf(procs);
    ghost var k: nat :| Stops(parents, root, start, k);
    var cur := start;
    while cur != 0
      invariant Descends(parents, root, start) <==> Descends(parents, root, cur)
      invariant Stops(parents, root, cur, k)
      decreases k, cur
    {
      if cur == root {
        RootDescends(parents, root);
        return true;
      }
      DescendsByParent(parents, root, cur);
      if cur !in procs {
        return false;
      }
      cur := procs[cur].ppid;
      k := k - 1;
    }
    ZeroNotBelow(parents, root);
    return false;
  }

  // The root's memory, once more, if the walk from the root's parent meets the root and has been made.
  ghost function Again(procs: map<nat, ProcInfo>, root: nat, left: set<nat>): nat {
    if BelowItself(procs, root) && root !in left then procs[root].rss else 0
  }

  /** The memory of the tree, and of the root a second time if it is below itself. */
  ghost function TreeTotal(procs: map<nat, ProcInfo>, root: nat): nat {
    SumRSS(procs, Tree(procs, root)) + Again(procs, root, {})
  }

  // What has been added up when `left` is still to be visited.
  ghost function SoFar(procs: map<nat, ProcInfo>, root: nat, left: set<nat>): nat {
    SumRSS(procs, Counted(Tree(procs, root), root, left)) + Again(procs, root, left)
  }

  lemma SoFarStart(procs: map<nat, ProcInfo>, root: nat)
    ensures SoFar(procs, root, procs.Keys) == if root in procs then procs[root].rss else 0
  {
    RootInTree(procs, root);
    CountRoot(procs, Tree(procs, root), root);
  }

  lemma SoFarNext(procs: map<nat, ProcInfo>, root: nat, left: set<nat>, p: nat)
    requires root != 0 && ZeroFirst(procs) && left <= procs.Keys && p in left
    ensures SoFar(procs, root, left - {p})
         == SoFar(procs, root, left) + if Descends(ParentsOf(procs), root, procs[p].ppid) then procs[p].rss else 0
  {
    RootInTree(procs, root);
    CountOne(procs, Tree(procs, root), root, left, p);
    if p != root {
      TreeByParent(procs, root, p);
    }
  }

  lemma SoFarEnd(procs: map<nat, ProcInfo>, root: nat)
    ensures SoFar(procs, root, {}) == TreeTotal(procs, root)
  {
    assert Counted(Tree(procs, root), root, {}) == Tree(procs, root);
  }

  lemma ParentEnds(parents: Parents, root: nat, p: nat)
    requires AllEnd(parents, root) && p in parents
    ensures Ends(parents, root, parents[p])
  {
    if parents[p] !in parents {
      assert Stops(parents, root, parents[p], 0);
    }
  }

  /** Adds up the root and every process whose parent chain meets the root, in 64-bit arithmetic: the memory of the
      tree, with the root counted twice exactly if it is below itself. */
  method TreeRSS(procs: map<nat, ProcInfo>, root: nat) returns (total: nat)
    requires root != 0 && ZeroFirst(procs) && AllEnd(ParentsOf(procs), root)
    ensures total == Wrap(TreeTotal(procs, root))
  {
    total := if root in procs then procs[root].rss else 0;
    total := Wrap(total);
    SoFarStart(procs, root);
    var left := procs.Keys;
    while left != {}
      invariant left <= procs.Keys
      invariant Word(total, SoFar(procs, root, left))
      decreases |left|
    {
      var p :| p in left;
      ParentEnds(ParentsOf(procs), root, p);
      var below := MeetsRoot(procs, root, procs[p].ppid);
      SoFarNext(procs, root, left, p);
      if below {
        total := AddWord(total, procs[p].rss, SoFar(procs, root, left));
      }
      left := left - {p};
    }
    SoFarEnd(procs, root);
  }
}
