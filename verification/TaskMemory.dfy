/** The memory a task is charged with (internal/scheduler/pool.go, workerLoop): the highest reading of the process
    tree's memory while the task ran, less the one before it. */
module TaskMemory {

  /** The reading before a task and those taken while it ran. */
  datatype Readings = Readings(before: nat, polls: seq<nat>)

  // The highest reading, the one before included.
  function Highest(r: Readings): nat
    decreases |r.polls|
  {
    if r.polls == [] then r.before
    else
      var front := Highest(Readings(r.before, r.polls[..|r.polls| - 1]));
      var last := r.polls[|r.polls| - 1];
      if last > front then last else front
  }

  function Rise(r: Readings): nat { if Highest(r) > r.before then Highest(r) - r.before else 0 }

  lemma {:induction false} HighestMeans(r: Readings)
    ensures r.before <= Highest(r) && forall q | q in r.polls :: q <= Highest(r)
    ensures Highest(r) == r.before || Highest(r) in r.polls
    decreases |r.polls|
  {
    if r.polls != [] {
      var front := r.polls[..|r.polls| - 1];
      HighestMeans(Readings(r.before, front));
      assert r.polls == front + [r.polls[|r.polls| - 1]];
    }
  }

  /** No reading is above the one before the task by more than the rise; a rise above 0 is that of some reading. */
  lemma RiseMeans(r: Readings)
    ensures forall q | q in r.polls :: q <= r.before + Rise(r)
    ensures Rise(r) > 0 ==> r.before + Rise(r) in r.polls
  {
    HighestMeans(r);
  }

  /** The polling loop, and the difference taken after it. */
  method Measure(r: Readings) returns (delta: nat)
    ensures delta == Rise(r)
  {
    var peak := r.before;
    var i := 0;
    while i < |r.polls|
      invariant 0 <= i <= |r.polls| && peak == Highest(Readings(r.before, r.polls[..i]))
    {
      assert r.polls[..i + 1][..i] == r.polls[..i];
      if r.polls[i] > peak {
        peak := r.polls[i];
      }
      i := i + 1;
    }
    assert r.polls[..i] == r.polls;
    return if peak > r.before then peak - r.before else 0;
  }
}
