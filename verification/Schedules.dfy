/** Building schedules step by step, and the first steps of a run. */
module Schedules {
  import opened Counting
  import opened Protocol

  lemma {:induction false} LegalSnoc(c: Config, s: State, acts: seq<Action>, a: Action)
    requires Legal(c, s, acts) && Enabled(c, Exec(c, s, acts), a)
    ensures Legal(c, s, acts + [a]) && Exec(c, s, acts + [a]) == Apply(c, Exec(c, s, acts), a)
    decreases |acts|
  {
    if acts == [] {
      assert acts + [a] == [a];
    } else {
      assert (acts + [a])[1..] == acts[1..] + [a];
      LegalSnoc(c, Apply(c, s, acts[0]), acts[1..], a);
    }
  }

  lemma StepReachable(c: Config, s: State, a: Action)
    requires Reachable(c, s) && Enabled(c, s, a)
    ensures Reachable(c, Apply(c, s, a))
  {
    var acts :| Legal(c, Init(c), acts) && Exec(c, Init(c), acts) == s;
    LegalSnoc(c, Init(c), acts, a);
  }

  lemma InitReachable(c: Config)
    ensures Reachable(c, Init(c))
  {
    assert Legal(c, Init(c), []) && Exec(c, Init(c), []) == Init(c);
  }

  // A configuration whose program begins by running a level with at least one client.
  predicate BeginsLevel(c: Config) {
    ValidConfig(c) && |c.program| > 0 && c.program[0].RunLevel? && c.program[0].n >= 1
  }

  // The first client walks up to the end of Submit's closed check.
  lemma ClientPassesCheck(c: Config) returns (s: State)
    requires BeginsLevel(c)
    ensures Reachable(c, s) && !s.panicked && |s.clients| >= 1 && |s.tasks| == 1
    ensures s.clients[0].pc == SubmitAdd(0) && s.tasks[0] == Task(0, false, 0, Carried(0), NO_EVENTS)
    ensures s.main == Level(0) && !s.cancelled && !s.deadline && s.failedAt.None? && s.workers == Init(c).workers
    ensures s.pools == c.pools
    ensures !s.closed && !s.jobsClosed && s.closer == CallsLeft(c.closeCalls)
  {
    InitReachable(c);
    s := ClientTakesToken(c);
    StepReachable(c, s, ClientStep(0, false));
    s := Apply(c, s, ClientStep(0, false));
    StepReachable(c, s, ClientStep(0, false));
    s := Apply(c, s, ClientStep(0, false));
  }

  lemma ClientTakesToken(c: Config) returns (s: State)
    requires BeginsLevel(c)
    ensures Reachable(c, s) && !s.panicked && |s.clients| >= 1 && |s.tasks| == 0
    ensures s.clients[0].pc == SecondDeadline && !s.deadline
    ensures s.main == Level(0) && !s.cancelled && s.failedAt.None? && s.workers == Init(c).workers
    ensures s.pools == c.pools
    ensures !s.closed && !s.jobsClosed && s.closer == CallsLeft(c.closeCalls)
  {
    InitReachable(c);
    s := Init(c);
    StepReachable(c, s, MainStep(0.0));
    s := Apply(c, s, MainStep(0.0));
    StepReachable(c, s, ClientStep(0, false));
    s := Apply(c, s, ClientStep(0, false));
    StepReachable(c, s, ClientStep(0, false));
    s := Apply(c, s, ClientStep(0, false));
    StepReachable(c, s, ClientStep(0, false));
    s := Apply(c, s, ClientStep(0, false));
  }
}
