/** What a run executes: the steps of a workflow, the kinds of worker that run them, and the escalation
    policy of the hybrid one (internal/workflow, internal/hybrid/executor.go, internal/controller/controller.go). */
module Workflow {
  import opened Counting

  datatype Op =
    | OpLaunch | OpNavigate | OpDOMReady | OpSessionCreate | OpProducts | OpProduct | OpCartAdd | OpCartGet
    | OpCheckout | OpOrderGet | OpLocalStorage | OpIndexedDB | OpExecuteJS | OpWSConnect

  datatype Policy = PolicyWorkflow | OtherPolicy

  predicate BrowserOnly(p: Policy, op: Op) {
    match p
    case PolicyWorkflow =>
      op.OpLocalStorage? || op.OpIndexedDB? || op.OpExecuteJS? || op.OpWSConnect? || op.OpNavigate? || op.OpDOMReady?
    case OtherPolicy => false
  }

  /** The one implemented policy sends the storage, script, socket and page operations to the browser and keeps the
      others on HTTP; any other policy keeps them all there. */
  lemma BrowserOnlyIff(p: Policy, op: Op)
    ensures BrowserOnly(p, op)
            <==> p.PolicyWorkflow?
                 && op in {OpLocalStorage, OpIndexedDB, OpExecuteJS, OpWSConnect, OpNavigate, OpDOMReady}
  {
  }

  /** How many steps of a workflow run in the browser. */
  function BrowserSteps(p: Policy, steps: seq<Op>): nat {
    if steps == [] then 0 else One(BrowserOnly(p, steps[0])) + BrowserSteps(p, steps[1..])
  }

  /** The five workers: HTTP only, one browser per task (headed and headless), a context of a persistent browser,
      the same over CDP, and hybrid. */
  datatype Kind = HTTPKind | BrowserKind | ContextKind | CDPKind | HybridKind(policy: Policy)

  /** What a successful run records as escalations. */
  function Escalations(kind: Kind, steps: seq<Op>): nat {
    match kind
    case HybridKind(p) => BrowserSteps(p, steps)
    case _ => 0
  }

  /** The worker takes its page from a context of its own pool. */
  predicate UsesPool(kind: Kind) { kind.ContextKind? || kind.CDPKind? || kind.HybridKind? }

  /** The worker tells the recorder of every page it opens. */
  predicate TellsPages(kind: Kind) { kind.ContextKind? || kind.BrowserKind? }

  /** The positions of a workflow's browser-only steps. */
  function BrowserPlaces(p: Policy, steps: seq<Op>): set<nat> { set i: nat | i < |steps| && BrowserOnly(p, steps[i]) }

  lemma {:induction false} BrowserStepsSnoc(p: Policy, steps: seq<Op>, op: Op)
    ensures BrowserSteps(p, steps + [op]) == BrowserSteps(p, steps) + One(BrowserOnly(p, op))
  {
    if steps == [] {
      assert steps + [op] == [op];
    } else {
      assert (steps + [op])[1..] == steps[1..] + [op];
      BrowserStepsSnoc(p, steps[1..], op);
    }
  }

  lemma {:induction false} BrowserStepsCount(p: Policy, steps: seq<Op>)
    ensures BrowserSteps(p, steps) == |BrowserPlaces(p, steps)|
    decreases |steps|
  {
    if steps != [] {
      var last := |steps| - 1;
      var front := steps[..last];
      BrowserStepsCount(p, front);
      BrowserStepsSnoc(p, front, steps[last]);
      assert steps == front + [steps[last]];
      if BrowserOnly(p, steps[last]) {
        assert BrowserPlaces(p, steps) == BrowserPlaces(p, front) + {last};
      } else {
        assert BrowserPlaces(p, steps) == BrowserPlaces(p, front);
      }
    }
  }
}
