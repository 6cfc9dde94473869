/** One browser process per Chromium tree: among the Chromium-named processes the controller owns, the
    connected components of the parent relation correspond one to one to the processes classified browser. */
module ChromiumTrees {
  import opened Counting
  import opened ProcessTree
  import opened Ownership

  /** The owned Chromium-named processes. */
  ghost function Chromiums(es: seq<Entry>, controller: nat): set<nat> {
    set i | 0 <= i < |es| && es[i].chromium && es[i].pid != controller && Owned(es, controller, es[i].pid) :: es[i].pid
  }

  /** Those that Classify calls browser. */
  ghost function Browsers(es: seq<Entry>, controller: nat): set<nat> {
    set i | 0 <= i < |es| && RoleOf(es, controller, 0, es[i]) == RoleBrowser :: es[i].pid
  }

  ghost predicate Setting(es: seq<Entry>, controller: nat) {
    controller != 0 && UniquePids(es) && AllEnd(Table(es), controller) && !ChromiumPid(es, controller)
  }

  /** A set of processes among which every step to a parent goes down in rank. */
  ghost predicate Forest(parents: Parents, rank: map<nat, nat>, nodes: set<nat>) {
    && nodes <= parents.Keys && nodes <= rank.Keys && 0 !in nodes
    && forall p | p in nodes && parents[p] in nodes :: rank[parents[p]] < rank[p]
  }

  // Rank by the length of the walk to the controller.
  ghost function RankOf(parents: Parents, root: nat): (rank: map<nat, nat>)
    requires AllEnd(parents, root)
  {
    map p | p in parents :: Steps(parents, root, p)
  }

  // Climb while the parent is a node too.
  ghost function Root(parents: Parents, rank: map<nat, nat>, nodes: set<nat>, p: nat): (r: nat)
    requires Forest(parents, rank, nodes) && p in nodes
    ensures r in nodes && parents[r] !in nodes
    decreases rank[p]
  {
    if parents[p] in nodes then Root(parents, rank, nodes, parents[p]) else p
  }

  ghost predicate Linked(parents: Parents, p: nat, q: nat)
    requires p in parents && q in parents
  {
    parents[p] == q || parents[q] == p
  }

  /** A walk inside the nodes along parent links, up or down. */
  ghost predicate Trail(parents: Parents, nodes: set<nat>, path: seq<nat>)
    requires nodes <= parents.Keys
  {
    && path != [] && (forall i | 0 <= i < |path| :: path[i] in nodes)
    && forall i | 0 <= i < |path| - 1 :: Linked(parents, path[i], path[i + 1])
  }

  ghost predicate Connected(parents: Parents, nodes: set<nat>, p: nat, q: nat)
    requires nodes <= parents.Keys
  {
    exists path :: Trail(parents, nodes, path) && path[0] == p && path[|path| - 1] == q
  }

  // ----- roots and components of a forest -----

  lemma {:induction false} TrailKeepsRoot(parents: Parents, rank: map<nat, nat>, nodes: set<nat>, path: seq<nat>)
    requires Forest(parents, rank, nodes) && Trail(parents, nodes, path)
    ensures Root(parents, rank, nodes, path[0]) == Root(parents, rank, nodes, path[|path| - 1])
    decreases |path|
  {
    if |path| > 1 {
      var front := path[..|path| - 1];
      TrailKeepsRoot(parents, rank, nodes, front);
      assert Linked(parents, path[|path| - 2], path[|path| - 1]);
    }
  }

  // The climb from p to its root, as a trail of parents.
  lemma {:induction false} Climb(parents: Parents, rank: map<nat, nat>, nodes: set<nat>, p: nat)
    returns (path: seq<nat>)
    requires Forest(parents, rank, nodes) && p in nodes
    ensures Trail(parents, nodes, path) && path[0] == p && path[|path| - 1] == Root(parents, rank, nodes, p)
    ensures forall i | 0 <= i < |path| - 1 :: parents[path[i]] == path[i + 1]
    decreases rank[p]
  {
    if parents[p] in nodes {
      var rest := Climb(parents, rank, nodes, parents[p]);
      path := [p] + rest;
    } else {
      path := [p];
    }
  }

  function Reversed(xs: seq<nat>): seq<nat> { seq(|xs|, i requires 0 <= i < |xs| => xs[|xs| - 1 - i]) }

  lemma ReverseTrail(parents: Parents, nodes: set<nat>, path: seq<nat>)
    requires nodes <= parents.Keys && Trail(parents, nodes, path)
    ensures Trail(parents, nodes, Reversed(path))
  {
    var back := Reversed(path);
    forall i | 0 <= i < |back| - 1 ensures Linked(parents, back[i], back[i + 1]) {
      assert Linked(parents, path[|path| - 2 - i], path[|path| - 1 - i]);
    }
  }

  lemma JoinTrails(parents: Parents, nodes: set<nat>, xs: seq<nat>, ys: seq<nat>)
    requires nodes <= parents.Keys && Trail(parents, nodes, xs) && Trail(parents, nodes, ys)
    requires xs[|xs| - 1] == ys[0]
    ensures Trail(parents, nodes, xs + ys[1..])
    ensures (xs + ys[1..])[0] == xs[0] && (xs + ys[1..])[|xs + ys[1..]| - 1] == ys[|ys| - 1]
  {
    var zs := xs + ys[1..];
    forall i | 0 <= i < |zs| - 1 ensures Linked(parents, zs[i], zs[i + 1]) {
      if i < |xs| - 1 {
        assert Linked(parents, xs[i], xs[i + 1]);
      } else {
        assert Linked(parents, ys[i - |xs| + 1], ys[i - |xs| + 2]);
      }
    }
  }

  /** Two nodes are connected exactly when they climb to the same root. */
  lemma ConnectedIffSameRoot(parents: Parents, rank: map<nat, nat>, nodes: set<nat>, p: nat, q: nat)
    requires Forest(parents, rank, nodes) && p in nodes && q in nodes
    ensures Connected(parents, nodes, p, q) <==> Root(parents, rank, nodes, p) == Root(parents, rank, nodes, q)
  {
    if Connected(parents, nodes, p, q) {
      var path :| Trail(parents, nodes, path) && path[0] == p && path[|path| - 1] == q;
      TrailKeepsRoot(parents, rank, nodes, path);
    }
    if Root(parents, rank, nodes, p) == Root(parents, rank, nodes, q) {
      var up := Climb(parents, rank, nodes, p);
      var down := Climb(parents, rank, nodes, q);
      ReverseTrail(parents, nodes, down);
      JoinTrails(parents, nodes, up, Reversed(down));
    }
  }

  ghost function Component(parents: Parents, nodes: set<nat>, p: nat): set<nat>
    requires nodes <= parents.Keys
  {
    set q | q in nodes && Connected(parents, nodes, p, q)
  }

  ghost function Components(parents: Parents, nodes: set<nat>): set<set<nat>>
    requires nodes <= parents.Keys
  {
    set p | p in nodes :: Component(parents, nodes, p)
  }

  ghost function Roots(parents: Parents, nodes: set<nat>): set<nat>
    requires nodes <= parents.Keys
  {
    set p | p in nodes && parents[p] !in nodes
  }

  lemma SameComponent(parents: Parents, rank: map<nat, nat>, nodes: set<nat>, p: nat, q: nat)
    requires Forest(parents, rank, nodes) && p in nodes && q in nodes
    ensures Component(parents, nodes, p) == Component(parents, nodes, q)
            <==> Root(parents, rank, nodes, p) == Root(parents, rank, nodes, q)
  {
    ConnectedIffSameRoot(parents, rank, nodes, p, p);
    ConnectedIffSameRoot(parents, rank, nodes, q, p);
    forall r | r in nodes
      ensures Connected(parents, nodes, p, r) <==> Root(parents, rank, nodes, p) == Root(parents, rank, nodes, r)
    {
      ConnectedIffSameRoot(parents, rank, nodes, p, r);
    }
    forall r | r in nodes
      ensures Connected(parents, nodes, q, r) <==> Root(parents, rank, nodes, q) == Root(parents, rank, nodes, r)
    {
      ConnectedIffSameRoot(parents, rank, nodes, q, r);
    }
    assert p in Component(parents, nodes, p);
  }

  lemma RootsCountComponents(parents: Parents, rank: map<nat, nat>, nodes: set<nat>)
    requires Forest(parents, rank, nodes)
    ensures |Roots(parents, nodes)| == |Components(parents, nodes)|
  {
    var roots, parts := Roots(parents, nodes), Components(parents, nodes);
    var partOf := map p | p in roots :: Component(parents, nodes, p);
    forall p, q | p in roots && q in roots && partOf[p] == partOf[q] ensures p == q {
      SameComponent(parents, rank, nodes, p, q);
    }
    InjectionBound(roots, parts, partOf);
    var rootOf := map c | c in parts :: RootOfPart(parents, rank, nodes, c);
    forall c, d | c in parts && d in parts && rootOf[c] == rootOf[d] ensures c == d {
      SameComponent(parents, rank, nodes, rootOf[c], rootOf[d]);
    }
    InjectionBound(parts, roots, rootOf);
  }

  ghost function RootOfPart(parents: Parents, rank: map<nat, nat>, nodes: set<nat>, c: set<nat>): (r: nat)
    requires Forest(parents, rank, nodes) && c in Components(parents, nodes)
    ensures r in Roots(parents, nodes) && Component(parents, nodes, r) == c
  {
    var p :| p in nodes && Component(parents, nodes, p) == c;
    var r := Root(parents, rank, nodes, p);
    SameComponent(parents, rank, nodes, r, p);
    r
  }

  // ----- browsers are the roots -----

  lemma ParentChromium(es: seq<Entry>, controller: nat, i: nat)
    requires Setting(es, controller) && i < |es|
    requires es[i].chromium && es[i].pid != controller && Owned(es, controller, es[i].pid)
    ensures ChromiumPid(es, es[i].ppid) <==> es[i].ppid in Chromiums(es, controller)
  {
    TableOfEntries(es);
    DescendsByParent(Table(es), controller, es[i].pid);
    if ChromiumPid(es, es[i].ppid) {
      var k :| 0 <= k < |es| && es[k].pid == es[i].ppid && es[k].chromium;
      assert es[k].pid in Chromiums(es, controller);
    }
  }

  lemma ChromiumForest(es: seq<Entry>, controller: nat) returns (rank: map<nat, nat>)
    requires Setting(es, controller)
    ensures Forest(Table(es), rank, Chromiums(es, controller))
  {
    TableOfEntries(es);
    ZeroNotBelow(Table(es), controller);
    rank := RankOf(Table(es), controller);
    forall p | p in Chromiums(es, controller) && Table(es)[p] in Chromiums(es, controller)
      ensures rank[Table(es)[p]] < rank[p]
    {
      StepsFromParent(Table(es), controller, p);
    }
  }

  lemma BrowsersAreRoots(es: seq<Entry>, controller: nat)
    requires Setting(es, controller)
    ensures Chromiums(es, controller) <= Table(es).Keys
    ensures Browsers(es, controller) == Roots(Table(es), Chromiums(es, controller))
  {
    TableOfEntries(es);
    forall i | 0 <= i < |es|
      ensures es[i].pid in Browsers(es, controller) <==> es[i].pid in Roots(Table(es), Chromiums(es, controller))
    {
      BrowserIffRoot(es, controller, i);
    }
  }

  lemma BrowserIffRoot(es: seq<Entry>, controller: nat, i: nat)
    requires Setting(es, controller) && i < |es| && Chromiums(es, controller) <= Table(es).Keys
    ensures es[i].pid in Browsers(es, controller) <==> es[i].pid in Roots(Table(es), Chromiums(es, controller))
  {
    TableOfEntries(es);
    if es[i].chromium && es[i].pid != controller && Owned(es, controller, es[i].pid) {
      ParentChromium(es, controller, i);
      assert es[i].pid in Chromiums(es, controller);
    }
    ByPid(es, controller, i);
  }

  // Membership of a process in either set is a fact about its own entry.
  lemma ByPid(es: seq<Entry>, controller: nat, i: nat)
    requires UniquePids(es) && i < |es|
    ensures es[i].pid in Browsers(es, controller) <==> RoleOf(es, controller, 0, es[i]) == RoleBrowser
    ensures es[i].pid in Chromiums(es, controller)
            <==> es[i].chromium && es[i].pid != controller && Owned(es, controller, es[i].pid)
  {
  }

  /** Every owned Chromium process reaches, through Chromium-named parents only, a process classified
      browser, and no walk among the Chromium processes leads from it to any other one. */
  lemma UniqueBrowser(es: seq<Entry>, controller: nat, p: nat) returns (b: nat, path: seq<nat>)
    requires Setting(es, controller) && p in Chromiums(es, controller)
    ensures b in Browsers(es, controller)
    ensures path != [] && path[0] == p && path[|path| - 1] == b
    ensures forall i | 0 <= i < |path| :: path[i] in Chromiums(es, controller) && path[i] in Table(es)
    ensures forall i | 0 <= i < |path| - 1 :: Table(es)[path[i]] == path[i + 1]
    ensures forall d | d in Browsers(es, controller) && Reaches(es, controller, p, d) :: d == b
  {
    var rank := ChromiumForest(es, controller);
    BrowsersAreRoots(es, controller);
    path := Climb(Table(es), rank, Chromiums(es, controller), p);
    b := path[|path| - 1];
    forall d | d in Browsers(es, controller) && Reaches(es, controller, p, d) ensures d == b {
      ConnectedIffSameRoot(Table(es), rank, Chromiums(es, controller), p, d);
    }
  }

  // However one walks from p along parent links among the Chromium processes, one can arrive at d.
  ghost predicate Reaches(es: seq<Entry>, controller: nat, p: nat, d: nat) {
    Chromiums(es, controller) <= Table(es).Keys && Connected(Table(es), Chromiums(es, controller), p, d)
  }

  /** There are as many processes classified browser as connected Chromium components. */
  lemma BrowsersCountTrees(es: seq<Entry>, controller: nat)
    requires Setting(es, controller)
    ensures Chromiums(es, controller) <= Table(es).Keys
    ensures |Browsers(es, controller)| == |Components(Table(es), Chromiums(es, controller))|
  {
    var rank := ChromiumForest(es, controller);
    BrowsersAreRoots(es, controller);
    RootsCountComponents(Table(es), rank, Chromiums(es, controller));
  }
}
