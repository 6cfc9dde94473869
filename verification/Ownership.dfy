/** Roles of processes (internal/process/ownership.go), and how they relate to the process tree. */
module Ownership {
  import opened Counting
  import opened ProcessTree

  datatype Role =
    | RoleUnknown | RoleController | RoleBrowser | RoleRenderer | RoleUtility | RoleGPU | RoleTarget | RoleAux

  /** What roleFromName answers for a name; none stands for its RoleUnknown. */
  datatype Hint = RendererName | GPUName | UtilityName | NoHint

  function HintRole(h: Hint): Role {
    match h
    case RendererName => RoleRenderer
    case GPUName => RoleGPU
    case UtilityName => RoleUtility
    case NoHint => RoleUnknown
  }

  /** One process. `chromium` and `hint` are what the two tests on its name answer. */
  datatype Entry = Entry(pid: nat, ppid: nat, chromium: bool, hint: Hint, cpu: real, rss: nat, role: Role)

  ghost predicate UniquePids(es: seq<Entry>) {
    forall i, j | 0 <= i < j < |es| :: es[i].pid != es[j].pid
  }

  function Pids(es: seq<Entry>): set<nat> { set i | 0 <= i < |es| :: es[i].pid }

  /** The table the entries describe. */
  ghost function TableOf(es: seq<Entry>): map<nat, ProcInfo> {
    if es == [] then map[]
    else
      var last := es[|es| - 1];
      TableOf(es[..|es| - 1])[last.pid := ProcInfo(last.ppid, last.rss)]
  }

  lemma {:induction false} TableOfEntries(es: seq<Entry>)
    requires UniquePids(es)
    ensures TableOf(es).Keys == Pids(es)
    ensures forall i | 0 <= i < |es| ::
              es[i].pid in TableOf(es) && TableOf(es)[es[i].pid] == ProcInfo(es[i].ppid, es[i].rss)
  {
    if es != [] {
      var front := es[..|es| - 1];
      TableOfEntries(front);
      assert Pids(es) == Pids(front) + {es[|es| - 1].pid};
    }
  }

  ghost function Table(es: seq<Entry>): Parents { ParentsOf(TableOf(es)) }

  // The chromium test of the process with this id, false if it is not in the table.
  ghost predicate ChromiumPid(es: seq<Entry>, pid: nat) {
    exists i :: 0 <= i < |es| && es[i].pid == pid && es[i].chromium
  }

  ghost predicate Owned(es: seq<Entry>, controller: nat, pid: nat) {
    Descends(Table(es), controller, pid)
  }

  /** The role of a process, told by the descendant closure and the names. */
  ghost function RoleOf(es: seq<Entry>, controller: nat, target: nat, e: Entry): Role {
    if e.pid == controller then RoleController
    else if target != 0 && e.pid == target then RoleTarget
    else if !Owned(es, controller, e.pid) then RoleUnknown
    else if e.chromium then
      (if ChromiumPid(es, e.ppid) then RoleRenderer else RoleBrowser)
    else if ChromiumPid(es, e.ppid) then
      (if e.hint.NoHint? then RoleUtility else HintRole(e.hint))
    else RoleAux
  }

  /** Which processes have which role. */
  lemma RoleIff(es: seq<Entry>, controller: nat, target: nat, e: Entry)
    ensures var r := RoleOf(es, controller, target, e);
            var other := e.pid != controller && (target == 0 || e.pid != target);
            var owned, child := Owned(es, controller, e.pid), ChromiumPid(es, e.ppid);
            && (r == RoleController <==> e.pid == controller)
            && (r == RoleTarget <==> e.pid != controller && target != 0 && e.pid == target)
            && (r == RoleUnknown <==> other && !owned)
            && (r == RoleBrowser <==> other && owned && e.chromium && !child)
            && (r == RoleRenderer <==> other && owned && child && (e.chromium || e.hint == RendererName))
            && (r == RoleGPU <==> other && owned && child && !e.chromium && e.hint == GPUName)
            && (r == RoleUtility <==>
                  other && owned && child && !e.chromium && (e.hint == UtilityName || e.hint == NoHint))
            && (r == RoleAux <==> other && owned && !child && !e.chromium)
  {
  }

  // The walk from an entry ends, if one is made: the controller and the target are told by their ids.
  ghost predicate WalkEnds(es: seq<Entry>, controller: nat, target: nat, e: Entry) {
    e.pid == controller || (target != 0 && e.pid == target) || Ends(Table(es), controller, e.pid)
  }

  /** Without a target, all walks are made, and they end exactly when no cycle of parents misses the controller. */
  lemma WalksMadeIff(es: seq<Entry>, controller: nat)
    requires controller != 0 && UniquePids(es)
    ensures (forall i | 0 <= i < |es| :: WalkEnds(es, controller, 0, es[i]))
            <==> !exists path :: Cycle(Table(es), controller, path)
  {
    TableOfEntries(es);
    WalksEndIff(Table(es), controller);
    if forall i | 0 <= i < |es| :: WalkEnds(es, controller, 0, es[i]) {
      forall p | p in Table(es) ensures Ends(Table(es), controller, p) {
        var i :| 0 <= i < |es| && es[i].pid == p;
        assert WalkEnds(es, controller, 0, es[i]);
        assert p == controller ==> Stops(Table(es), controller, p, 0);
      }
    } else {
      var i :| 0 <= i < |es| && !WalkEnds(es, controller, 0, es[i]);
      assert es[i].pid in Table(es);
    }
  }

  // Nothing but roles differs.
  ghost predicate SameBut(es: seq<Entry>, fs: seq<Entry>) {
    |es| == |fs| && forall i | 0 <= i < |es| :: fs[i].(role := es[i].role) == es[i]
  }

  lemma {:induction false} SameTable(es: seq<Entry>, fs: seq<Entry>)
    requires SameBut(es, fs)
    ensures TableOf(es) == TableOf(fs)
  {
    if es != [] {
      assert fs[|es| - 1].(role := es[|es| - 1].role) == es[|es| - 1];
      SameTable(es[..|es| - 1], fs[..|es| - 1]);
    }
  }

  lemma SameChromium(es: seq<Entry>, fs: seq<Entry>, pid: nat)
    requires SameBut(es, fs)
    ensures ChromiumPid(es, pid) <==> ChromiumPid(fs, pid)
  {
    if ChromiumPid(es, pid) {
      var i :| 0 <= i < |es| && es[i].pid == pid && es[i].chromium;
      assert fs[i].pid == pid && fs[i].chromium;
    }
    if ChromiumPid(fs, pid) {
      var i :| 0 <= i < |fs| && fs[i].pid == pid && fs[i].chromium;
      assert es[i].pid == pid && es[i].chromium;
    }
  }

  method BuildIndex(entries: array<Entry>) returns (byPID: map<nat, nat>)
    requires UniquePids(entries[..])
    ensures byPID.Keys == Pids(entries[..])
    ensures forall p | p in byPID :: byPID[p] < entries.Length && entries[byPID[p]].pid == p
  {
    byPID := map[];
    var i := 0;
    while i < entries.Length
      invariant 0 <= i <= entries.Length
      invariant byPID.Keys == Pids(entries[..i])
      invariant forall p | p in byPID :: byPID[p] < i && entries[byPID[p]].pid == p
    {
      assert Pids(entries[..i + 1]) == Pids(entries[..i]) + {entries[i].pid};
      byPID := byPID[entries[i].pid := i];
      i := i + 1;
    }
    assert entries[..i] == entries[..];
  }

  // The inner walk of Classify, over the entries and their index.
  method WalkUp(entries: array<Entry>, byPID: map<nat, nat>, controller: nat, pid: nat) returns (owned: bool)
    requires controller != 0 && UniquePids(entries[..]) && Ends(Table(entries[..]), controller, pid)
    requires byPID.Keys == Pids(entries[..])
    requires forall p | p in byPID :: byPID[p] < entries.Length && entries[byPID[p]].pid == p
    ensures owned <==> Owned(entries[..], controller, pid)
  {
    ghost var parents := Table(entries[..]);
    TableOfEntries(entries[..]);
    ghost var k: nat :| Stops(parents, controller, pid, k);
    var cur := pid;
    while cur != 0
      invariant Descends(parents, controller, pid) <==> Descends(parents, controller, cur)
      invariant Stops(parents, controller, cur, k)
      decreases k
    {
      if cur == controller {
        RootDescends(parents, controller);
        return true;
      }
      DescendsByParent(parents, controller, cur);
      if cur !in byPID {
        return false;
      }
      assert entries[..][byPID[cur]].pid == cur;
      cur := entries[byPID[cur]].ppid;
      k := k - 1;
    }
    ZeroNotBelow(parents, controller);
    return false;
  }

  method IsChromiumPid(entries: array<Entry>, byPID: map<nat, nat>, pid: nat) returns (chromium: bool)
    requires UniquePids(entries[..]) && byPID.Keys == Pids(entries[..])
    requires forall p | p in byPID :: byPID[p] < entries.Length && entries[byPID[p]].pid == p
    ensures chromium <==> ChromiumPid(entries[..], pid)
  {
    if pid in byPID {
      assert entries[..][byPID[pid]].pid == pid;
      return entries[byPID[pid]].chromium;
    }
    return false;
  }

  method RoleFor(entries: array<Entry>, byPID: map<nat, nat>, controller: nat, target: nat, e: Entry) returns (r: Role)
    requires controller != 0 && UniquePids(entries[..]) && WalkEnds(entries[..], controller, target, e)
    requires byPID.Keys == Pids(entries[..])
    requires forall p | p in byPID :: byPID[p] < entries.Length && entries[byPID[p]].pid == p
    ensures r == RoleOf(entries[..], controller, target, e)
  {
    if e.pid == controller {
      return RoleController;
    }
    if target != 0 && e.pid == target {
      return RoleTarget;
    }
    var owned := WalkUp(entries, byPID, controller, e.pid);
    if !owned {
      return RoleUnknown;
    }
    var parentChromium := IsChromiumPid(entries, byPID, e.ppid);
    if e.chromium {
      return if parentChromium then RoleRenderer else RoleBrowser;
    }
    if parentChromium {
      return if HintRole(e.hint) != RoleUnknown then HintRole(e.hint) else RoleUtility;
    }
    return RoleAux;
  }

  /** Assigns every entry its role in place and changes nothing else. */
  method Classify(entries: array<Entry>, controller: nat, target: nat)
    requires controller != 0 && UniquePids(entries[..])
    requires forall i | 0 <= i < entries.Length :: WalkEnds(entries[..], controller, target, entries[i])
    modifies entries
    ensures SameBut(old(entries[..]), entries[..])
    ensures forall i | 0 <= i < entries.Length ::
              entries[i].role == RoleOf(old(entries[..]), controller, target, old(entries[i]))
  {
    ghost var was := entries[..];
    var byPID := BuildIndex(entries);
    var i := 0;
    while i < entries.Length
      invariant 0 <= i <= entries.Length
      invariant SameBut(was, entries[..])
      invariant forall k | i <= k < entries.Length :: entries[k] == was[k]
      invariant forall k | 0 <= k < i :: entries[k].role == RoleOf(was, controller, target, was[k])
    {
      SameIndex(was, entries[..], byPID);
      SameRole(was, entries[..], controller, target, entries[i]);
      SameEnds(was, entries[..], controller, target, was[i]);
      var r := RoleFor(entries, byPID, controller, target, entries[i]);
      entries[i] := entries[i].(role := r);
      i := i + 1;
    }
  }

  lemma SameEnds(es: seq<Entry>, fs: seq<Entry>, controller: nat, target: nat, e: Entry)
    requires SameBut(es, fs) && WalkEnds(es, controller, target, e)
    ensures WalkEnds(fs, controller, target, e)
  {
    SameTable(es, fs);
  }

  lemma SameIndex(es: seq<Entry>, fs: seq<Entry>, byPID: map<nat, nat>)
    requires SameBut(es, fs) && UniquePids(es) && byPID.Keys == Pids(es)
    ensures UniquePids(fs) && byPID.Keys == Pids(fs) && TableOf(fs) == TableOf(es)
  {
    SameTable(es, fs);
    assert forall i | 0 <= i < |es| :: fs[i].pid == es[i].pid;
    assert Pids(fs) == Pids(es);
  }

  lemma SameRole(es: seq<Entry>, fs: seq<Entry>, controller: nat, target: nat, e: Entry)
    requires SameBut(es, fs)
    ensures RoleOf(fs, controller, target, e) == RoleOf(es, controller, target, e)
  {
    SameTable(es, fs);
    SameChromium(es, fs, e.ppid);
  }
}
