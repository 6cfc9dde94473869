/** The counting invariants of the scheduler: tokens, pending, and the recorder's counters
    are always equal to sums over the program counters of the goroutines. */
module Ledger {
  import opened Counting
  import opened Metrics
  import opened Protocol

  // ----- what a goroutine contributes to each counter -----

  // A client holds a token between receiving it and giving it back.
  function Holds(k: Client): int {
    match k.pc
    case Top => 0
    case FirstDeadline => 0
    case Acquire => 0
    case ClientReturned => 0
    case Cancelling(token) => One(token)
    case _ => 1
  }

  // Accepted and not yet received by a worker.
  function Offering(k: Client): int { One(k.pc.SubmitCreated? || k.pc.SubmitQueued? || k.pc.Send?) }
  function CreatedOnly(k: Client): int { One(k.pc.SubmitQueued? || k.pc.Send?) }
  function QueuedOnly(k: Client): int { One(k.pc.Send?) }
  // Past the second deadline check but not yet accepted.
  function MayAccept(k: Client): int { One(k.pc.SubmitLoad? || k.pc.SubmitAdd?) }

  // Received and not yet past pending.Done.
  function Occupied(w: WorkerPc): int { One(!w.Receive? && !w.WorkerExited?) }
  // Received and not yet counted complete or failed.
  function Unsettled(w: WorkerPc): int { One(Occupied(w) == 1 && !w.Mark? && !w.PendingDone?) }
  function Active(w: WorkerPc): int { One(Unsettled(w) == 1 && !w.Begin?) }
  function DeltaAhead(w: WorkerPc): int { One(w.Outcome?) }
  function LatencyAhead(w: WorkerPc): int { One((w.Delta? && w.ok) || (w.Outcome? && w.ok)) }
  function EscalationsAhead(e: nat, w: WorkerPc): int { if w.Escalating? then e - w.left else 0 }
  function EscalationsAheadOf(e: nat): WorkerPc -> int { w => EscalationsAhead(e, w) }

  // ----- the ledger -----

  ghost predicate TokenLedger(c: Config, s: State) {
    && s.tokens >= 0
    && s.tokens + Sum(s.clients, Holds) == c.workers
    && |s.workers| == c.workers
  }

  ghost predicate PendingLedger(s: State) {
    s.pending == Sum(s.clients, Offering) + Sum(s.workers, Occupied)
  }

  ghost predicate TaskLedger(s: State) {
    var w := s.rec.window.counters;
    && w.active == Sum(s.workers, Active)
    && w.created == w.complete + w.failed + Sum(s.clients, CreatedOnly) + Sum(s.workers, Unsettled)
    && w.queued == w.complete + w.failed + Sum(s.clients, QueuedOnly) + Sum(s.workers, Unsettled)
    && w.complete >= 0 && w.failed >= 0
  }

  ghost predicate DeltaLedger(s: State) {
    |s.rec.window.series.taskRSSDeltas|
    == s.rec.window.counters.complete + s.rec.window.counters.failed + Sum(s.workers, DeltaAhead)
  }

  ghost predicate LatencyLedger(s: State) {
    |s.rec.window.series.workflowLatencies| == s.rec.window.counters.complete + Sum(s.workers, LatencyAhead)
  }

  // Every recorded workflow latency was preceded by exactly its escalations.
  ghost predicate EscalationLedger(c: Config, s: State) {
    && s.rec.window.counters.escalations == |s.rec.window.series.workflowLatencies| * c.escalations
                                   + Sum(s.workers, EscalationsAheadOf(c.escalations))
    && forall j | 0 <= j < |s.workers| :: s.workers[j].Escalating? ==> s.workers[j].left <= c.escalations
  }

  ghost predicate OvershootLedger(c: Config, s: State) {
    && (s.deadline ==> s.late + Sum(s.clients, MayAccept) <= c.workers)
    && (!s.deadline ==> s.late == 0)
  }

  ghost predicate LedgerOk(c: Config, s: State) {
    && TokenLedger(c, s)
    && PendingLedger(s)
    && TaskLedger(s)
    && DeltaLedger(s)
    && LatencyLedger(s)
    && EscalationLedger(c, s)
    && OvershootLedger(c, s)
  }

  // ----- kept by every step -----

  lemma ClientKeepsTokens(c: Config, s: State, i: nat, viaCtx: bool)
    requires TokenLedger(c, s) && ClientEnabled(c, s, i, viaCtx)
    ensures TokenLedger(c, ClientApply(s, i, viaCtx))
  {
    SumUpdate(s.clients, i, ClientApply(s, i, viaCtx).clients[i], Holds);
  }

  lemma ClientKeepsPending(c: Config, s: State, i: nat, viaCtx: bool)
    requires PendingLedger(s) && ClientEnabled(c, s, i, viaCtx)
    ensures PendingLedger(ClientApply(s, i, viaCtx))
  {
    SumUpdate(s.clients, i, ClientApply(s, i, viaCtx).clients[i], Offering);
  }

  lemma ClientKeepsTasks(c: Config, s: State, i: nat, viaCtx: bool)
    requires TaskLedger(s) && ClientEnabled(c, s, i, viaCtx)
    ensures TaskLedger(ClientApply(s, i, viaCtx))
  {
    SumUpdate(s.clients, i, ClientApply(s, i, viaCtx).clients[i], CreatedOnly);
    SumUpdate(s.clients, i, ClientApply(s, i, viaCtx).clients[i], QueuedOnly);
  }

  lemma ClientKeepsOvershoot(c: Config, s: State, i: nat, viaCtx: bool)
    requires OvershootLedger(c, s) && ClientEnabled(c, s, i, viaCtx)
    ensures OvershootLedger(c, ClientApply(s, i, viaCtx))
  {
    SumUpdate(s.clients, i, ClientApply(s, i, viaCtx).clients[i], MayAccept);
  }

  lemma ClientKeepsLedger(c: Config, s: State, i: nat, viaCtx: bool)
    requires LedgerOk(c, s) && ClientEnabled(c, s, i, viaCtx)
    ensures LedgerOk(c, ClientApply(s, i, viaCtx))
  {
    ClientKeepsTokens(c, s, i, viaCtx);
    ClientKeepsPending(c, s, i, viaCtx);
    ClientKeepsTasks(c, s, i, viaCtx);
    ClientKeepsOvershoot(c, s, i, viaCtx);
  }

  lemma RendezvousKeepsLedger(c: Config, s: State, i: nat, j: nat)
    requires LedgerOk(c, s) && RendezvousEnabled(s, i, j)
    ensures LedgerOk(c, RendezvousApply(s, i, j))
  {
    var k := s.clients[i].(pc := Await(s.clients[i].pc.task));
    SumUpdate(s.clients, i, k, Holds);
    SumUpdate(s.clients, i, k, Offering);
    SumUpdate(s.clients, i, k, CreatedOnly);
    SumUpdate(s.clients, i, k, QueuedOnly);
    SumUpdate(s.clients, i, k, MayAccept);
    var w := Begin(s.clients[i].pc.task);
    SumUpdate(s.workers, j, w, Occupied);
    SumUpdate(s.workers, j, w, Unsettled);
    SumUpdate(s.workers, j, w, Active);
    SumUpdate(s.workers, j, w, DeltaAhead);
    SumUpdate(s.workers, j, w, LatencyAhead);
    SumUpdate(s.workers, j, w, EscalationsAheadOf(c.escalations));
  }

  /** The part of a worker's step that the ledger is about. */
  ghost predicate Worked(s: State, s': State, j: nat, e: Work) {
    && j < |s.workers| && s'.workers == s.workers[j := e.pc]
    && s'.clients == s.clients && s'.tokens == s.tokens && s'.deadline == s.deadline && s'.late == s.late
    && s'.cancelled == s.cancelled
    && s'.pending == s.pending - One(e.event.Released?)
    && s'.rec.window.counters == Count(s.rec.window.counters, e.call)
    && |s'.rec.window.series.workflowLatencies|
       == |s.rec.window.series.workflowLatencies| + One(e.call.RecordWorkflow?)
    && |s'.rec.window.series.taskRSSDeltas| == |s.rec.window.series.taskRSSDeltas| + One(e.call.RecordTaskRSSDelta?)
  }

  lemma StepWorked(c: Config, s: State, j: nat, w: WorkChoice)
    requires j < |s.workers|
    ensures Worked(s, WorkerApply(c, s, j, w), j, WorkOf(c, s, j, w))
  {
    var noted := Noted(s.rec, Notes(c.kind, PoolAt(s, j), s.workers[j], w));
    assert BooksOf(noted) == BooksOf(s.rec);
  }

  // A step's call and event make up for the change of the program counter.
  predicate PendingBalance(pc: WorkerPc, e: Work) { Occupied(e.pc) == Occupied(pc) - One(e.event.Released?) }

  predicate TaskBalance(pc: WorkerPc, e: Work, k: Counters, k': Counters) {
    && k'.created == k.created && k'.queued == k.queued
    && k'.active - Active(e.pc) == k.active - Active(pc)
    && k'.complete + k'.failed + Unsettled(e.pc) == k.complete + k.failed + Unsettled(pc)
    && k'.complete >= k.complete && k'.failed >= k.failed
  }

  predicate SeriesBalance(pc: WorkerPc, e: Work, k: Counters, k': Counters) {
    && One(e.call.RecordTaskRSSDelta?) + k.complete + k.failed + DeltaAhead(pc)
       == k'.complete + k'.failed + DeltaAhead(e.pc)
    && One(e.call.RecordWorkflow?) + k.complete + LatencyAhead(pc) == k'.complete + LatencyAhead(e.pc)
  }

  predicate EscalationBalance(esc: nat, pc: WorkerPc, e: Work, k: Counters, k': Counters) {
    && k'.escalations - k.escalations
       == (if e.call.RecordWorkflow? then esc else 0) + EscalationsAhead(esc, e.pc) - EscalationsAhead(esc, pc)
    && (e.pc.Escalating? ==> e.pc.left <= esc)
  }

  lemma WorkBalances(c: Config, pc: WorkerPc, w: WorkChoice, k: Counters)
    requires !pc.WorkerExited?
    ensures var e := WorkerEffect(c, pc, w);
            PendingBalance(pc, e) && TaskBalance(pc, e, k, Count(k, e.call))
            && SeriesBalance(pc, e, k, Count(k, e.call))
  {
    match pc
    case Escalating(_, _) =>
    case Outcome(_, _) =>
    case Opening(_) =>
    case Running(_) =>
    case Launch(_) =>
    case _ =>
  }

  lemma EscalationsBalance(c: Config, pc: WorkerPc, w: WorkChoice, k: Counters)
    requires pc.Escalating? ==> pc.left <= c.escalations
    ensures var e := WorkerEffect(c, pc, w); EscalationBalance(c.escalations, pc, e, k, Count(k, e.call))
  {
  }

  lemma BalanceKeepsPending(s: State, s': State, j: nat, e: Work)
    requires PendingLedger(s) && Worked(s, s', j, e) && PendingBalance(s.workers[j], e)
    ensures PendingLedger(s')
  {
    SumUpdate(s.workers, j, e.pc, Occupied);
  }

  lemma BalanceKeepsTasks(s: State, s': State, j: nat, e: Work)
    requires TaskLedger(s) && Worked(s, s', j, e)
    requires TaskBalance(s.workers[j], e, s.rec.window.counters, s'.rec.window.counters)
    ensures TaskLedger(s')
  {
    SumUpdate(s.workers, j, e.pc, Unsettled);
    SumUpdate(s.workers, j, e.pc, Active);
  }

  lemma BalanceKeepsSeries(s: State, s': State, j: nat, e: Work)
    requires DeltaLedger(s) && LatencyLedger(s) && Worked(s, s', j, e)
    requires SeriesBalance(s.workers[j], e, s.rec.window.counters, s'.rec.window.counters)
    ensures DeltaLedger(s') && LatencyLedger(s')
  {
    SumUpdate(s.workers, j, e.pc, DeltaAhead);
    SumUpdate(s.workers, j, e.pc, LatencyAhead);
  }

  lemma BalanceKeepsEscalations(c: Config, s: State, s': State, j: nat, e: Work)
    requires EscalationLedger(c, s) && Worked(s, s', j, e)
    requires EscalationBalance(c.escalations, s.workers[j], e, s.rec.window.counters, s'.rec.window.counters)
    ensures EscalationLedger(c, s')
  {
    var n := |s.rec.window.series.workflowLatencies|;
    assert (n + 1) * c.escalations == n * c.escalations + c.escalations;
    SumUpdate(s.workers, j, e.pc, EscalationsAheadOf(c.escalations));
  }

  // What a worker's step leaves alone.
  lemma WorkedKeepsRest(c: Config, s: State, s': State, j: nat, e: Work)
    requires TokenLedger(c, s) && OvershootLedger(c, s) && Worked(s, s', j, e)
    ensures TokenLedger(c, s') && OvershootLedger(c, s')
  {
  }

  lemma WorkerKeepsLedger(c: Config, s: State, j: nat, w: WorkChoice)
    requires LedgerOk(c, s) && WorkerEnabled(s, j)
    ensures LedgerOk(c, WorkerApply(c, s, j, w))
  {
    var s', e, k := WorkerApply(c, s, j, w), WorkOf(c, s, j, w), s.rec.window.counters;
    StepWorked(c, s, j, w);
    WorkBalances(c, s.workers[j], Resolved(c.kind, PoolAt(s, j), s.workers[j], w), k);
    EscalationsBalance(c, s.workers[j], Resolved(c.kind, PoolAt(s, j), s.workers[j], w), k);
    BalanceKeepsPending(s, s', j, e);
    BalanceKeepsTasks(s, s', j, e);
    BalanceKeepsSeries(s, s', j, e);
    BalanceKeepsEscalations(c, s, s', j, e);
    WorkedKeepsRest(c, s, s', j, e);
  }

  lemma PassDeadlineKeepsLedger(c: Config, s: State)
    requires LedgerOk(c, s) && !s.deadline
    ensures LedgerOk(c, s.(deadline := true))
  {
    SumBetween(s.clients, MayAccept, Holds);
  }

  // Reset clears the counters; it is sound when every worker is between tasks.
  ghost predicate Quiet(s: State) {
    && (forall i | 0 <= i < |s.clients| :: s.clients[i].pc == ClientReturned)
    && (forall j | 0 <= j < |s.workers| :: s.workers[j] == Receive || s.workers[j] == WorkerExited)
  }

  lemma QuietSums(c: Config, s: State)
    requires Quiet(s)
    ensures Sum(s.clients, Holds) == Sum(s.clients, Offering) == Sum(s.clients, CreatedOnly) == 0
    ensures Sum(s.clients, QueuedOnly) == Sum(s.clients, MayAccept) == 0
    ensures Sum(s.workers, Occupied) == Sum(s.workers, Unsettled) == Sum(s.workers, Active) == 0
    ensures Sum(s.workers, DeltaAhead) == Sum(s.workers, LatencyAhead) == 0
    ensures Sum(s.workers, EscalationsAheadOf(c.escalations)) == 0
  {
    SumConstant(s.clients, Holds, 0);
    SumConstant(s.clients, Offering, 0);
    SumConstant(s.clients, CreatedOnly, 0);
    SumConstant(s.clients, QueuedOnly, 0);
    SumConstant(s.clients, MayAccept, 0);
    SumConstant(s.workers, Occupied, 0);
    SumConstant(s.workers, Unsettled, 0);
    SumConstant(s.workers, Active, 0);
    SumConstant(s.workers, DeltaAhead, 0);
    SumConstant(s.workers, LatencyAhead, 0);
    SumConstant(s.workers, EscalationsAheadOf(c.escalations), 0);
  }

  lemma FreshClientSums(n: nat)
    ensures var k := seq(n, _ => Client(Top, 0, 0));
            Sum(k, Holds) == Sum(k, Offering) == Sum(k, CreatedOnly) == Sum(k, QueuedOnly) == Sum(k, MayAccept) == 0
  {
    var k := seq(n, _ => Client(Top, 0, 0));
    SumConstant(k, Holds, 0);
    SumConstant(k, Offering, 0);
    SumConstant(k, CreatedOnly, 0);
    SumConstant(k, QueuedOnly, 0);
    SumConstant(k, MayAccept, 0);
  }

  lemma StartKeepsLedger(c: Config, s: State, main: MainPc, n: nat)
    requires LedgerOk(c, s) && Quiet(s)
    ensures LedgerOk(c, StartLevel(c, s, main, n))
  {
    QuietSums(c, s);
    FreshClientSums(n);
  }

  lemma ResetKeepsLedger(c: Config, s: State, main: MainPc)
    requires LedgerOk(c, s) && Quiet(s)
    ensures LedgerOk(c, ResetAt(s, main))
  {
    QuietSums(c, s);
  }

  lemma MoveKeepsBooks(c: Config, s: State, e: MainEffect, elapsed: real)
    requires !e.change.Starts? && !e.change.Resets?
    ensures var s' := MainTo(c, s, e, elapsed);
            && s'.clients == s.clients && s'.workers == s.workers && s'.tokens == s.tokens && s'.pending == s.pending
            && s'.rec.window == s.rec.window && s'.deadline == s.deadline && s'.late == s.late
  {
    match e.change
    case OnlyMoves =>
    case Measures =>
    case Fails(_) =>
  }

  lemma SameLedger(c: Config, s: State, s': State)
    requires LedgerOk(c, s)
    requires s'.clients == s.clients && s'.workers == s.workers && s'.tokens == s.tokens && s'.pending == s.pending
    requires s'.rec.window == s.rec.window && s'.deadline == s.deadline && s'.late == s.late
    ensures LedgerOk(c, s')
  {
  }

  lemma MainKeepsLedger(c: Config, s: State, elapsed: real)
    requires LedgerOk(c, s)
    requires s.main.Next? ==> Quiet(s)
    ensures LedgerOk(c, MainApply(c, s, elapsed))
  {
    var e := MainStepEffect(c.program, s.main, s.cancelled);
    match e.change {
      case Starts(n) => StartKeepsLedger(c, s, e.main, n);
      case Resets => ResetKeepsLedger(c, s, e.main);
      case _ =>
        MoveKeepsBooks(c, s, e, elapsed);
        SameLedger(c, s, MainApply(c, s, elapsed));
    }
  }

  lemma InitLedger(c: Config)
    requires ValidConfig(c)
    ensures LedgerOk(c, Init(c))
  {
    QuietSums(c, Init(c));
  }
}
