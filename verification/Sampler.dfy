/** The host sampler's streaming aggregates (internal/metrics/sampler.go): peaks, an exact running mean of the CPU
    load, and a running mean of the memory in use that is truncated to a whole number of bytes at every sample. */
module Sampling {
  import opened Quotients

  datatype Snapshot = Snapshot(cpu: real, ram: nat)

  /** The four aggregates kept between samples. */
  datatype Aggregates = Aggregates(peakCpu: real, avgCpu: real, peakRam: nat, avgRam: nat)

  const ZERO := Aggregates(0.0, 0.0, 0, 0)

  // The truncated mean after the n-th sample x, from the one before it.
  function NextAvgRam(avg: nat, n: nat, x: nat): nat
    requires n > 0
  {
    Quotient(avg * (n - 1) + x, n)
  }

  // The mean after the n-th value x, from the one before it.
  function NextAvgCpu(avg: real, n: real, x: real): real
    requires n > 0.0
  {
    avg * (n - 1.0) / n + x / n
  }

  // The aggregates after one more sample, the n-th.
  function Next(a: Aggregates, n: nat, x: Snapshot): Aggregates
    requires n > 0
  {
    Aggregates(
      if x.cpu > a.peakCpu then x.cpu else a.peakCpu,
      NextAvgCpu(a.avgCpu, n as real, x.cpu),
      if x.ram > a.peakRam then x.ram else a.peakRam,
      NextAvgRam(a.avgRam, n, x.ram))
  }

  /** The aggregates after a whole run of samples. */
  function After(xs: seq<Snapshot>): Aggregates {
    if xs == [] then ZERO else Next(After(xs[..|xs| - 1]), |xs|, xs[|xs| - 1])
  }

  class Sampler {
    var samples: seq<Snapshot>
    var peakCpu: real
    var avgCpu: real
    var peakRam: nat
    var avgRam: nat

    ghost predicate Valid()
      reads this
    {
      Aggregates(peakCpu, avgCpu, peakRam, avgRam) == After(samples)
    }

    constructor ()
      ensures Valid() && samples == []
    {
      samples := [];
      peakCpu, avgCpu, peakRam, avgRam := 0.0, 0.0, 0, 0;
    }

    method Record(snap: Snapshot)
      requires Valid()
      modifies this
      ensures Valid() && samples == old(samples) + [snap]
    {
      samples := samples + [snap];
      assert samples[..|samples| - 1] == old(samples);
      if snap.cpu > peakCpu {
        peakCpu := snap.cpu;
      }
      if snap.ram > peakRam {
        peakRam := snap.ram;
      }
      avgCpu := NextAvgCpu(avgCpu, |samples| as real, snap.cpu);
      avgRam := NextAvgRam(avgRam, |samples|, snap.ram);
    }
  }

  // ----- the batch figures -----

  function SumRam(xs: seq<Snapshot>): nat {
    if xs == [] then 0 else SumRam(xs[..|xs| - 1]) + xs[|xs| - 1].ram
  }

  function SumCpu(xs: seq<Snapshot>): real {
    if xs == [] then 0.0 else SumCpu(xs[..|xs| - 1]) + xs[|xs| - 1].cpu
  }

  // 0 + 1 + ... + (n-1), the most that n truncations can lose of a sum.
  function Triangle(n: nat): nat { n * (n - 1) / 2 }

  // ----- drift of the truncated mean -----

  lemma TruncatedStep(avg: nat, n: nat, x: nat, sum: nat)
    requires n > 0 && 0 <= sum - (n - 1) * avg
    ensures var next := NextAvgRam(avg, n, x);
            0 <= sum + x - n * next <= sum - (n - 1) * avg + (n - 1)
  {
    Commute(avg, n - 1);
    var kept := avg * (n - 1);
    var next := NextAvgRam(avg, n, x);
    LinearStep(kept, x, sum, n, n * next);
  }

  lemma LinearStep(kept: int, x: int, sum: int, n: int, product: int)
    requires 0 <= sum - kept && product <= kept + x < product + n
    ensures 0 <= sum + x - product <= sum - kept + (n - 1)
  {}

  lemma TriangleStep(n: nat)
    ensures Triangle(n + 1) == Triangle(n) + n
  {
    assert (n + 1) * n == n * (n - 1) + 2 * n;
  }

  /** After n samples the truncated mean is at most the true mean, and short of it by at most (n-1)/2 bytes:
      n * avg <= sum <= n * avg + n(n-1)/2. */
  lemma {:induction false} DriftBounded(xs: seq<Snapshot>)
    ensures 0 <= SumRam(xs) - |xs| * After(xs).avgRam <= Triangle(|xs|)
  {
    if xs != [] {
      var rest, last := xs[..|xs| - 1], xs[|xs| - 1];
      DriftBounded(rest);
      TruncatedStep(After(rest).avgRam, |xs|, last.ram, SumRam(rest));
      TriangleStep(|rest|);
    }
  }

  // The samples 0, 1, ..., n-1.
  function Staircase(n: nat): (xs: seq<Snapshot>)
    ensures |xs| == n
    ensures forall i | 0 <= i < n :: xs[i] == Snapshot(0.0, i)
  {
    seq(n, i requires 0 <= i < n => Snapshot(0.0, i))
  }

  lemma NoneWhole(n: nat)
    requires n > 0
    ensures NextAvgRam(0, n, n - 1) == 0
  {
    QuotientSmall(n - 1, n);
  }

  /** The bound is reached: on 0, 1, ..., n-1 the truncated mean never leaves 0 while the sum is n(n-1)/2. */
  lemma {:induction false} DriftTight(n: nat)
    ensures After(Staircase(n)).avgRam == 0 && SumRam(Staircase(n)) == Triangle(n)
  {
    if n > 0 {
      DriftTight(n - 1);
      assert Staircase(n)[..n - 1] == Staircase(n - 1);
      TriangleStep(n - 1);
      NoneWhole(n);
    }
  }

  // ----- what the aggregates lie between -----

  lemma TruncatedBetween(avg: nat, n: nat, x: nat, lo: nat, hi: nat)
    requires n > 0 && lo <= x <= hi && (n > 1 ==> lo <= avg <= hi)
    ensures lo <= NextAvgRam(avg, n, x) <= hi
  {
    var kept := avg * (n - 1);
    Scale(lo, avg, hi, n - 1);
    Distribute(lo, n);
    Distribute(hi, n);
    QuotientBetween(kept + x, n, lo, hi);
  }

  lemma Scale(lo: nat, avg: nat, hi: nat, m: nat)
    requires m > 0 ==> lo <= avg <= hi
    ensures lo * m <= avg * m <= hi * m
  {
    if m == 0 {
      assert lo * m == avg * m == hi * m == 0;
    }
  }

  /** The truncated mean stays between the smallest and the largest sample: truncation never takes it outside
      any range [lo, hi] that holds every sample. */
  lemma {:induction false} AverageInRange(xs: seq<Snapshot>, lo: nat, hi: nat)
    requires xs != [] && forall x | x in xs :: lo <= x.ram <= hi
    ensures lo <= After(xs).avgRam <= hi
  {
    var rest, last := xs[..|xs| - 1], xs[|xs| - 1];
    assert last in xs;
    if rest != [] {
      assert forall x | x in rest :: x in xs;
      AverageInRange(rest, lo, hi);
    }
    TruncatedBetween(After(rest).avgRam, |xs|, last.ram, lo, hi);
  }

  /** The peaks are the largest values seen; a CPU load that was never positive leaves the CPU peak at 0. */
  lemma {:induction false} PeaksAreMaxima(xs: seq<Snapshot>)
    ensures var a := After(xs);
            && (forall x | x in xs :: x.ram <= a.peakRam && x.cpu <= a.peakCpu)
            && 0.0 <= a.peakCpu
            && (xs != [] ==> exists x :: x in xs && x.ram == a.peakRam)
            && (a.peakCpu == 0.0 || exists x :: x in xs && x.cpu == a.peakCpu)
  {
    if xs != [] {
      var rest, last := xs[..|xs| - 1], xs[|xs| - 1];
      PeaksAreMaxima(rest);
      assert xs == rest + [last];
      assert last in xs;
      assert forall x | x in rest :: x in xs;
      if rest == [] {
        assert After(rest) == ZERO;
      }
    }
  }

  /** The peak is never below the average. */
  lemma AverageBelowPeak(xs: seq<Snapshot>)
    ensures After(xs).avgRam <= After(xs).peakRam
  {
    PeaksAreMaxima(xs);
    if xs != [] {
      AverageInRange(xs, 0, After(xs).peakRam);
    }
  }

  lemma MeanStep(avg: real, before: real, n: real, x: real, sum: real)
    requires before >= 0.0 && n == before + 1.0 && before * avg == sum
    ensures n * NextAvgCpu(avg, n, x) == sum + x
  {
    Spread(avg * (n - 1.0), x, n);
  }

  lemma Spread(a: real, x: real, n: real)
    requires n > 0.0
    ensures n * (a / n + x / n) == a + x
  {
    assert n * (a / n) == a;
    assert n * (x / n) == x;
    assert n * (a / n + x / n) == n * (a / n) + n * (x / n);
  }

  function TotalCpu(n: nat, a: Aggregates): real { n as real * a.avgCpu }

  lemma CpuMeanStep(a: Aggregates, b: Aggregates, n: nat, x: Snapshot, sum: real)
    requires n > 0 && TotalCpu(n - 1, a) == sum && b == Next(a, n, x)
    ensures TotalCpu(n, b) == sum + x.cpu
  {
    MeanStep(a.avgCpu, (n - 1) as real, n as real, x.cpu, sum);
  }

  /** Over exact arithmetic the running CPU mean is the batch mean: n * avg is the sum. */
  lemma {:induction false} CpuMeanExact(xs: seq<Snapshot>)
    ensures TotalCpu(|xs|, After(xs)) == SumCpu(xs)
  {
    if xs != [] {
      var rest, last := xs[..|xs| - 1], xs[|xs| - 1];
      CpuMeanExact(rest);
      CpuMeanStep(After(rest), After(xs), |xs|, last, SumCpu(rest));
    }
  }
}
