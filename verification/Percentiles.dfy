/** The two percentile algorithms: nearest rank over unsigned integers (internal/accounting/accounting.go), with the
    statistics built on it, and linear interpolation over reals (internal/stats/stats.go). */
module Percentiles {
  import opened Counting
  import opened ProcessTree
  import opened Quotients

  // ----- sorting, as the library calls do: by a key that tells elements apart -----

  predicate Sorted<T>(key: T -> real, xs: seq<T>) {
    forall i, j | 0 <= i < j < |xs| :: key(xs[i]) <= key(xs[j])
  }

  ghost predicate Separates<T(!new)>(key: T -> real) {
    forall x, y :: key(x) == key(y) ==> x == y
  }

  function IntKey(n: nat): real { n as real }
  function RealKey(x: real): real { x }

  /** sorted is vals in ascending order. */
  ghost predicate SortOf<T>(key: T -> real, sorted: seq<T>, vals: seq<T>) {
    Sorted(key, sorted) && multiset(sorted) == multiset(vals)
  }

  lemma SortOfSize<T>(key: T -> real, sorted: seq<T>, vals: seq<T>)
    requires SortOf(key, sorted, vals)
    ensures |sorted| == |vals|
  {
    assert |sorted| == |multiset(sorted)| == |multiset(vals)| == |vals|;
  }

  lemma SmallestFirst<T(!new)>(key: T -> real, xs: seq<T>, ys: seq<T>)
    requires Separates(key) && Sorted(key, xs) && SortOf(key, ys, xs) && xs != []
    ensures ys != [] && xs[0] == ys[0]
  {
    SortOfSize(key, ys, xs);
    assert xs[0] in multiset(ys) && ys[0] in multiset(xs);
    var i :| 0 <= i < |ys| && ys[i] == xs[0];
    var j :| 0 <= j < |xs| && xs[j] == ys[0];
    assert 0 < i ==> key(ys[0]) <= key(ys[i]);
    assert 0 < j ==> key(xs[0]) <= key(xs[j]);
  }

  lemma RestOfMultiset<T>(xs: seq<T>)
    requires xs != []
    ensures multiset(xs[1..]) == multiset(xs) - multiset{xs[0]}
  {
    assert xs == [xs[0]] + xs[1..];
  }

  lemma RestSorted<T>(key: T -> real, xs: seq<T>, ys: seq<T>)
    requires Sorted(key, xs) && SortOf(key, ys, xs) && xs != [] && ys != [] && xs[0] == ys[0]
    ensures Sorted(key, xs[1..]) && SortOf(key, ys[1..], xs[1..])
  {
    RestOfMultiset(xs);
    RestOfMultiset(ys);
  }

  // Equal lists but for order have one sorted arrangement.
  lemma {:induction false} SortedUnique<T(!new)>(key: T -> real, xs: seq<T>, ys: seq<T>)
    requires Separates(key) && Sorted(key, xs) && SortOf(key, ys, xs)
    ensures xs == ys
  {
    SortOfSize(key, ys, xs);
    if xs != [] {
      SmallestFirst(key, xs, ys);
      RestSorted(key, xs, ys);
      SortedUnique(key, xs[1..], ys[1..]);
      assert xs == [xs[0]] + xs[1..] && ys == [ys[0]] + ys[1..];
    }
  }

  lemma OneArrangement<T(!new)>(key: T -> real, sorted: seq<T>, vals: seq<T>)
    requires Separates(key) && SortOf(key, sorted, vals)
    ensures forall other | SortOf(key, other, vals) :: other == sorted
  {
    forall other | SortOf(key, other, vals) ensures other == sorted {
      SortedUnique(key, sorted, other);
    }
  }

  function Insert<T>(key: T -> real, xs: seq<T>, v: T): seq<T> {
    if xs == [] || key(v) <= key(xs[0]) then [v] + xs else [xs[0]] + Insert(key, xs[1..], v)
  }

  lemma {:induction false} InsertAdds<T>(key: T -> real, xs: seq<T>, v: T)
    ensures multiset(Insert(key, xs, v)) == multiset(xs) + multiset{v}
  {
    if xs != [] && !(key(v) <= key(xs[0])) {
      InsertAdds(key, xs[1..], v);
      assert xs == [xs[0]] + xs[1..];
    }
  }

  lemma {:induction false} InsertSorts<T>(key: T -> real, xs: seq<T>, v: T)
    requires Sorted(key, xs)
    ensures Sorted(key, Insert(key, xs, v))
  {
    if xs != [] && !(key(v) <= key(xs[0])) {
      var rest := Insert(key, xs[1..], v);
      InsertSorts(key, xs[1..], v);
      InsertAdds(key, xs[1..], v);
      forall j | 0 <= j < |rest| ensures key(xs[0]) <= key(rest[j]) {
        assert rest[j] in multiset(rest);
        if rest[j] != v {
          assert rest[j] in xs[1..];
        }
      }
    }
  }

  method Sort<T>(key: T -> real, vals: seq<T>) returns (sorted: seq<T>)
    ensures SortOf(key, sorted, vals)
  {
    sorted := [];
    var i := 0;
    while i < |vals|
      invariant 0 <= i <= |vals| && SortOf(key, sorted, vals[..i])
    {
      InsertSorts(key, sorted, vals[i]);
      InsertAdds(key, sorted, vals[i]);
      assert vals[..i + 1] == vals[..i] + [vals[i]];
      sorted := Insert(key, sorted, vals[i]);
      i := i + 1;
    }
    assert vals[..i] == vals;
  }

  // ----- nearest rank -----

  // ceil(hundredths/100) - 1, kept inside 0..n-1.
  function Cut(n: nat, hundredths: nat): (k: nat)
    requires n > 0
    ensures k < n
    ensures n <= hundredths <= 100 * n ==> 100 * k < hundredths <= 100 * (k + 1)
  {
    var up := (hundredths + 99) / 100;
    var idx := if up >= 1 then up - 1 else up;
    if idx >= n then n - 1 else idx
  }

  // The position of the p-th percentile among n sorted values.
  function NearestIndex(n: nat, p: nat): nat
    requires n > 0
  {
    Cut(n, p * n)
  }

  lemma NearestIndexBounds(n: nat, p: nat)
    requires n > 0 && 1 <= p <= 100
    ensures 100 * NearestIndex(n, p) < p * n <= 100 * (NearestIndex(n, p) + 1)
  {
    assert n <= p * n <= 100 * n;
  }

  method NearestRank(sorted: seq<nat>, p: nat) returns (r: nat)
    ensures |sorted| == 0 ==> r == 0
    ensures |sorted| > 0 ==> r == sorted[NearestIndex(|sorted|, p)]
  {
    var n := |sorted|;
    if n == 0 {
      return 0;
    }
    if n == 1 {
      return sorted[0];
    }
    var idx := (p * n + 99) / 100;
    if idx >= 1 {
      idx := idx - 1;
    }
    if idx >= n {
      idx := n - 1;
    }
    return sorted[idx];
  }

  // The positions holding a value at most v, and those holding a smaller one.
  function AtMost(xs: seq<nat>, v: nat): set<nat> { set i: nat | i < |xs| && xs[i] <= v }
  function Below(xs: seq<nat>, v: nat): set<nat> { set i: nat | i < |xs| && xs[i] < v }
  function Prefix(k: nat): (p: set<nat>)
    ensures forall i: nat :: i in p <==> i < k
  {
    if k == 0 then {} else Prefix(k - 1) + {k - 1}
  }

  lemma {:induction false} PrefixSize(k: nat)
    ensures |Prefix(k)| == k
  {
    if k > 0 {
      PrefixSize(k - 1);
      assert k - 1 !in Prefix(k - 1);
    }
  }

  /** The nearest-rank result is an order statistic: at least p percent of the values are at most it, and
      fewer than p percent are below it. */
  lemma NearestRankIsPercentile(sorted: seq<nat>, p: nat)
    requires Sorted(IntKey, sorted) && |sorted| > 0 && 1 <= p <= 100
    ensures var r := sorted[NearestIndex(|sorted|, p)];
            100 * |AtMost(sorted, r)| >= p * |sorted| && 100 * |Below(sorted, r)| < p * |sorted|
  {
    var k := NearestIndex(|sorted|, p);
    var r := sorted[k];
    NearestIndexBounds(|sorted|, p);
    PrefixSize(k + 1);
    PrefixSize(k);
    forall i | 0 <= i < |sorted| ensures (i <= k ==> sorted[i] <= r) && (sorted[i] < r ==> i < k) {
      assert i < k ==> IntKey(sorted[i]) <= IntKey(r);
      assert k < i ==> IntKey(r) <= IntKey(sorted[i]);
    }
    SubsetSize(Prefix(k + 1), AtMost(sorted, r));
    SubsetSize(Below(sorted, r), Prefix(k));
  }

  /** Only one value can be so placed: any value of the list with those two counts is the nearest-rank result. */
  lemma PercentileUnique(sorted: seq<nat>, p: nat, v: nat)
    requires Sorted(IntKey, sorted) && |sorted| > 0 && 1 <= p <= 100
    requires 100 * |AtMost(sorted, v)| >= p * |sorted| && 100 * |Below(sorted, v)| < p * |sorted|
    ensures v in sorted ==> v == sorted[NearestIndex(|sorted|, p)]
  {
    var k := NearestIndex(|sorted|, p);
    var r := sorted[k];
    forall i | 0 <= i < |sorted| ensures (i <= k ==> sorted[i] <= r) && (k <= i ==> r <= sorted[i]) {
      assert i < k ==> IntKey(sorted[i]) <= IntKey(r);
      assert k < i ==> IntKey(r) <= IntKey(sorted[i]);
    }
    NearestIndexBounds(|sorted|, p);
    PrefixSize(k + 1);
    PrefixSize(k);
    if v < r {
      SubsetSize(AtMost(sorted, v), Prefix(k));
    } else if r < v {
      SubsetSize(Prefix(k + 1), Below(sorted, v));
    }
  }

  lemma CutMonotone(n: nat, a: nat, b: nat)
    requires n > 0 && a <= b
    ensures Cut(n, a) <= Cut(n, b)
  {}

  lemma NearestIndexMonotone(n: nat, p: nat, q: nat)
    requires n > 0 && p <= q
    ensures NearestIndex(n, p) <= NearestIndex(n, q)
  {
    CutMonotone(n, p * n, q * n) by {
      assert p * n <= q * n;
    }
  }

  /** P50 <= P95 <= Peak. */
  lemma NearestRankOrdered(sorted: seq<nat>, p: nat, q: nat)
    requires Sorted(IntKey, sorted) && |sorted| > 0 && p <= q
    ensures sorted[NearestIndex(|sorted|, p)] <= sorted[NearestIndex(|sorted|, q)] <= sorted[|sorted| - 1]
  {
    NearestIndexMonotone(|sorted|, p, q);
    var i, j := NearestIndex(|sorted|, p), NearestIndex(|sorted|, q);
    assert i < j ==> IntKey(sorted[i]) <= IntKey(sorted[j]);
    assert j < |sorted| - 1 ==> IntKey(sorted[j]) <= IntKey(sorted[|sorted| - 1]);
  }

  datatype IntStats = IntStats(mean: nat, p50: nat, p95: nat, peak: nat)

  function SumInts(vals: seq<nat>): nat {
    if vals == [] then 0 else SumInts(vals[..|vals| - 1]) + vals[|vals| - 1]
  }

  /** What Stats reports of a non-empty series, in terms of any sorted arrangement of it. */
  ghost predicate Describes(s: IntStats, vals: seq<nat>, sorted: seq<nat>)
    requires vals != [] && |sorted| == |vals|
  {
    && s.mean == Quotient(Wrap(SumInts(vals)), |vals|)
    && s.peak == sorted[|vals| - 1]
    && s.p50 == sorted[NearestIndex(|vals|, 50)]
    && s.p95 == sorted[NearestIndex(|vals|, 95)]
  }

  method SumWrapped(vals: seq<nat>) returns (sum: nat)
    ensures sum == Wrap(SumInts(vals))
  {
    sum := 0;
    var i := 0;
    while i < |vals|
      invariant 0 <= i <= |vals| && Word(sum, SumInts(vals[..i]))
    {
      assert vals[..i + 1][..i] == vals[..i];
      sum := AddWord(sum, vals[i], SumInts(vals[..i]));
      i := i + 1;
    }
    assert vals[..i] == vals;
  }

  /** Mean, median, 95th percentile and peak of a series; the sum is taken in 64-bit arithmetic. */
  method Stats(vals: seq<nat>) returns (s: IntStats)
    ensures vals == [] ==> s == IntStats(0, 0, 0, 0)
    ensures vals != [] ==>
              forall sorted | SortOf(IntKey, sorted, vals) :: |sorted| == |vals| && Describes(s, vals, sorted)
    ensures s.p50 <= s.p95 <= s.peak
  {
    if |vals| == 0 {
      return IntStats(0, 0, 0, 0);
    }
    var sorted := Sort(IntKey, vals);
    SortOfSize(IntKey, sorted, vals);
    var sum := SumWrapped(vals);
    var p50 := NearestRank(sorted, 50);
    var p95 := NearestRank(sorted, 95);
    s := IntStats(Quotient(sum, |vals|), p50, p95, sorted[|sorted| - 1]);
    NearestRankOrdered(sorted, 50, 95);
    OneArrangement(IntKey, sorted, vals);
  }

  lemma {:induction false} SumIntsBetween(vals: seq<nat>, lo: nat, hi: nat)
    requires forall v | v in vals :: lo <= v <= hi
    ensures lo * |vals| <= SumInts(vals) <= hi * |vals|
  {
    if vals != [] {
      var rest := vals[..|vals| - 1];
      assert forall v | v in rest :: v in vals;
      SumIntsBetween(rest, lo, hi);
      assert vals[|vals| - 1] in vals;
      Distribute(lo, |vals|);
      Distribute(hi, |vals|);
    }
  }

  lemma IntsBetween(vals: seq<nat>, sorted: seq<nat>, v: nat)
    requires SortOf(IntKey, sorted, vals) && v in vals && sorted != []
    ensures sorted[0] <= v <= sorted[|sorted| - 1]
  {
    assert v in multiset(sorted);
    var i :| 0 <= i < |sorted| && sorted[i] == v;
    assert 0 < i ==> IntKey(sorted[0]) <= IntKey(sorted[i]);
    assert i < |sorted| - 1 ==> IntKey(sorted[i]) <= IntKey(sorted[|sorted| - 1]);
  }

  lemma QuotientOfRange(vals: seq<nat>, lo: nat, hi: nat)
    requires vals != [] && forall v | v in vals :: lo <= v <= hi
    ensures lo <= Quotient(SumInts(vals), |vals|) <= hi
  {
    SumIntsBetween(vals, lo, hi);
    QuotientBetween(SumInts(vals), |vals|, lo, hi);
  }

  /** When the sum fits in 64 bits, the mean lies between the smallest value and the peak. */
  lemma MeanMeaningful(vals: seq<nat>, sorted: seq<nat>, s: IntStats)
    requires vals != [] && SortOf(IntKey, sorted, vals) && |sorted| == |vals| && Describes(s, vals, sorted)
    requires SumInts(vals) < WORD
    ensures sorted[0] <= s.mean <= s.peak
  {
    forall v | v in vals ensures sorted[0] <= v <= s.peak {
      IntsBetween(vals, sorted, v);
    }
    QuotientOfRange(vals, sorted[0], s.peak);
    WrapSmall(SumInts(vals));
  }

  /** The percentiles and the peak come from one order-independent list, and so does the mean. */
  lemma {:induction false} SumIntsAny(xs: seq<nat>, ys: seq<nat>)
    requires multiset(xs) == multiset(ys)
    ensures SumInts(xs) == SumInts(ys)
  {
    assert |xs| == |multiset(xs)| == |multiset(ys)| == |ys|;
    if xs != [] {
      var last := xs[|xs| - 1];
      assert last in multiset(ys);
      var k :| 0 <= k < |ys| && ys[k] == last;
      assert xs == xs[..|xs| - 1] + [last];
      assert ys == ys[..k] + [last] + ys[k + 1..];
      assert multiset(xs[..|xs| - 1]) == multiset(xs) - multiset{last} == multiset(ys[..k] + ys[k + 1..]);
      SumIntsAny(xs[..|xs| - 1], ys[..k] + ys[k + 1..]);
      SumIntsMiddle(ys[..k], last, ys[k + 1..]);
    }
  }

  lemma {:induction false} SumIntsMiddle(a: seq<nat>, v: nat, b: seq<nat>)
    ensures SumInts(a + [v] + b) == SumInts(a + b) + v
  {
    if b == [] {
      assert (a + [v] + b)[..|a|] == a == a + b;
    } else {
      var c := b[..|b| - 1];
      assert (a + [v] + b)[..|a| + |b|] == a + [v] + c;
      assert (a + b)[..|a| + |c|] == a + c;
      SumIntsMiddle(a, v, c);
    }
  }

  /** Reordering a series changes nothing of what Stats reports. */
  lemma StatsOfMultiset(xs: seq<nat>, ys: seq<nat>, sorted: seq<nat>, s: IntStats)
    requires xs != [] && multiset(xs) == multiset(ys) && SortOf(IntKey, sorted, xs)
    ensures |xs| == |ys| == |sorted| && SortOf(IntKey, sorted, ys)
    ensures Describes(s, xs, sorted) <==> Describes(s, ys, sorted)
  {
    SortOfSize(IntKey, sorted, xs);
    SortOfSize(IntKey, sorted, ys);
    SumIntsAny(xs, ys);
  }

  // ----- linear interpolation -----

  function Rank(n: nat, p: real): real
    requires n > 0
  {
    p / 100.0 * (n - 1) as real
  }

  function Ceil(x: real): int { if x.Floor as real == x then x.Floor else x.Floor + 1 }

  lemma CeilBelow(x: real, n: int)
    requires x <= n as real
    ensures Ceil(x) <= n
  {
    assert x.Floor as real <= x;
  }

  lemma RankInRange(n: nat, p: real)
    requires n >= 1 && 0.0 <= p <= 100.0
    ensures 0 <= Rank(n, p).Floor <= Ceil(Rank(n, p)) <= n - 1
  {
    var f, m := p / 100.0, (n - 1) as real;
    assert 0.0 <= f <= 1.0;
    assert 0.0 <= f * m <= m;
    CeilBelow(Rank(n, p), n - 1);
  }

  // A point on the line that starts at base.
  function Along(base: real, frac: real, rise: real): real { base + frac * rise }

  // The value at a fractional position, on the straight line between its two neighbours.
  function Between(sorted: seq<real>, rank: real): real
    requires 0 <= rank.Floor <= Ceil(rank) < |sorted|
  {
    var lo, hi := rank.Floor, Ceil(rank);
    if lo == hi then sorted[lo] else Along(sorted[lo], rank - lo as real, sorted[hi] - sorted[lo])
  }

  function Percentile(sorted: seq<real>, p: real): real
    requires 0.0 <= p <= 100.0
  {
    var n := |sorted|;
    if n == 0 then 0.0
    else if n == 1 then sorted[0]
    else
      RankInRange(n, p);
      Between(sorted, Rank(n, p))
  }

  lemma SortedReals(sorted: seq<real>, i: nat, j: nat)
    requires Sorted(RealKey, sorted) && i <= j < |sorted|
    ensures sorted[i] <= sorted[j]
  {
    assert i < j ==> RealKey(sorted[i]) <= RealKey(sorted[j]);
  }

  lemma Steeper(base: real, x: real, y: real, rise: real)
    requires x <= y && 0.0 <= rise
    ensures Along(base, x, rise) <= Along(base, y, rise)
  {
    assert (y - x) * rise >= 0.0;
  }

  lemma Fraction(base: real, frac: real, rise: real)
    requires 0.0 <= frac <= 1.0 && 0.0 <= rise
    ensures base <= Along(base, frac, rise) <= base + rise
  {
    Steeper(base, 0.0, frac, rise);
    Steeper(base, frac, 1.0, rise);
  }

  lemma BetweenBounds(sorted: seq<real>, rank: real)
    requires Sorted(RealKey, sorted) && 0 <= rank.Floor <= Ceil(rank) < |sorted|
    ensures sorted[rank.Floor] <= Between(sorted, rank) <= sorted[Ceil(rank)]
  {
    var lo, hi := rank.Floor, Ceil(rank);
    SortedReals(sorted, lo, hi);
    if lo != hi {
      Fraction(sorted[lo], rank - lo as real, sorted[hi] - sorted[lo]);
    }
  }

  lemma BetweenInside(sorted: seq<real>, lo: nat, rank: real)
    requires lo + 1 < |sorted| && lo as real < rank < (lo + 1) as real
    ensures rank.Floor == lo && Ceil(rank) == lo + 1
    ensures Between(sorted, rank) == Along(sorted[lo], rank - lo as real, sorted[lo + 1] - sorted[lo])
  {
  }

  lemma BetweenMonotone(sorted: seq<real>, a: real, b: real)
    requires Sorted(RealKey, sorted) && a <= b
    requires 0 <= a.Floor <= Ceil(a) < |sorted| && 0 <= b.Floor <= Ceil(b) < |sorted|
    ensures Between(sorted, a) <= Between(sorted, b)
  {
    if a.Floor == b.Floor && a.Floor as real != a {
      var lo := a.Floor;
      SortedReals(sorted, lo, lo + 1);
      BetweenInside(sorted, lo, a);
      BetweenInside(sorted, lo, b);
      Steeper(sorted[lo], a - lo as real, b - lo as real, sorted[lo + 1] - sorted[lo]);
    } else {
      BetweenBounds(sorted, a);
      BetweenBounds(sorted, b);
      SortedReals(sorted, Ceil(a), b.Floor);
    }
  }

  /** A higher percentile is never a smaller value. */
  lemma PercentileMonotone(sorted: seq<real>, p: real, q: real)
    requires Sorted(RealKey, sorted) && 0.0 <= p <= q <= 100.0
    ensures Percentile(sorted, p) <= Percentile(sorted, q)
  {
    var n := |sorted|;
    if n >= 2 {
      RankInRange(n, p);
      RankInRange(n, q);
      assert p / 100.0 * (n - 1) as real <= q / 100.0 * (n - 1) as real;
      BetweenMonotone(sorted, Rank(n, p), Rank(n, q));
    }
  }

  /** Percentile 0 is the smallest value and percentile 100 the largest. */
  lemma PercentileEnds(sorted: seq<real>)
    requires sorted != []
    ensures Percentile(sorted, 0.0) == sorted[0] && Percentile(sorted, 100.0) == sorted[|sorted| - 1]
  {
    var n := |sorted|;
    if n >= 2 {
      RankInRange(n, 0.0);
      RankInRange(n, 100.0);
      assert Rank(n, 0.0) == 0.0 && Rank(n, 100.0) == (n - 1) as real;
    }
  }

  /** Of no values every percentile is 0, of one value that value. */
  lemma PercentileOfFew(sorted: seq<real>, p: real)
    requires |sorted| <= 1 && 0.0 <= p <= 100.0
    ensures Percentile(sorted, p) == if sorted == [] then 0.0 else sorted[0]
  {
  }

  /** Between two values the percentile is the weighted mean of them, by how far its rank is from each. */
  lemma PercentileInterpolates(sorted: seq<real>, p: real, rank: real, lo: nat, f: real)
    requires |sorted| >= 2 && 0.0 <= p <= 100.0 && rank == p / 100.0 * (|sorted| - 1) as real
    requires lo == rank.Floor && f == rank - lo as real && lo + 1 < |sorted|
    ensures Percentile(sorted, p) == (1.0 - f) * sorted[lo] + f * sorted[lo + 1]
  {
    RankInRange(|sorted|, p);
    Weighted(sorted[lo], sorted[lo + 1], f);
  }

  lemma Weighted(x: real, y: real, f: real)
    ensures Along(x, f, y - x) == (1.0 - f) * x + f * y
  {
  }

  /** The 50th percentile is the middle value, or the mean of the two middle ones. */
  lemma MedianIsMiddle(sorted: seq<real>, half: nat)
    ensures |sorted| == 2 * half + 1 ==> Percentile(sorted, 50.0) == sorted[half]
    ensures |sorted| == 2 * half && half > 0 ==> Percentile(sorted, 50.0) == (sorted[half - 1] + sorted[half]) / 2.0
  {
    var rank := 50.0 / 100.0 * (|sorted| - 1) as real;
    if |sorted| == 2 * half + 1 && half > 0 {
      assert rank == half as real;
      PercentileInterpolates(sorted, 50.0, rank, half, 0.0);
    } else if |sorted| == 2 * half && half > 0 {
      assert rank == half as real - 0.5;
      PercentileInterpolates(sorted, 50.0, rank, half - 1, 0.5);
    }
  }

  /** On evenly spaced values a percentile is where its rank falls on their line. */
  lemma EvenlySpaced(sorted: seq<real>, start: real, step: real, p: real)
    requires |sorted| >= 2 && forall i | 0 <= i < |sorted| :: sorted[i] == start + step * i as real
    requires 0.0 <= p <= 100.0
    ensures Percentile(sorted, p) == start + step * (p / 100.0 * (|sorted| - 1) as real)
  {
    var n := |sorted|;
    var rank := p / 100.0 * (n - 1) as real;
    RankInRange(n, p);
    var lo := rank.Floor;
    if lo + 1 < n {
      PercentileInterpolates(sorted, p, rank, lo, rank - lo as real);
      OnLine(start, step, lo as real, rank - lo as real);
    } else {
      assert lo == n - 1 == Ceil(rank) && rank == lo as real;
    }
  }

  lemma OnLine(start: real, step: real, at: real, f: real)
    ensures (1.0 - f) * (start + step * at) + f * (start + step * (at + 1.0)) == start + step * (at + f)
  {
    assert step * (at + 1.0) == step * at + step;
    assert f * (start + step * at + step) == f * (start + step * at) + f * step;
    assert step * (at + f) == step * at + step * f;
  }

  // ----- the two algorithms on one series -----

  lemma RankHundredths(n: nat, p: nat)
    requires n >= 1
    ensures 100.0 * Rank(n, p as real) == (p * (n - 1)) as real
  {
    var a, b := p as real, (n - 1) as real;
    assert 100.0 * (a / 100.0 * b) == a * b;
    assert a * b == (p * (n - 1)) as real;
  }

  lemma IndexBySteps(n: nat, p: nat)
    requires n >= 1 && 1 <= p <= 100
    ensures 100 * NearestIndex(n, p) < p * (n - 1) + p <= 100 * (NearestIndex(n, p) + 1)
  {
    NearestIndexBounds(n, p);
    assert p * n == p * (n - 1) + p;
  }

  lemma BracketFromBounds(k: nat, steps: nat, p: nat, rank: real)
    requires 1 <= p <= 100 && 100 * k < steps + p <= 100 * (k + 1) && 100.0 * rank == steps as real
    ensures rank.Floor <= k <= Ceil(rank)
  {
    assert 100.0 * rank < 100.0 * (k + 1) as real;
    assert 100.0 * rank > 100.0 * (k - 1) as real;
  }

  /** The nearest-rank index lies between the floor and the ceiling of the interpolation rank. */
  lemma IndicesBracket(n: nat, p: nat)
    requires n >= 2 && 1 <= p <= 100
    ensures Rank(n, p as real).Floor <= NearestIndex(n, p) <= Ceil(Rank(n, p as real))
  {
    IndexBySteps(n, p);
    RankHundredths(n, p);
    BracketFromBounds(NearestIndex(n, p), p * (n - 1), p, Rank(n, p as real));
  }

  function Reals(xs: seq<nat>): (r: seq<real>)
    ensures |r| == |xs|
    ensures forall i | 0 <= i < |xs| :: r[i] == xs[i] as real
  {
    seq(|xs|, i requires 0 <= i < |xs| => xs[i] as real)
  }

  lemma RealsSorted(xs: seq<nat>)
    requires Sorted(IntKey, xs)
    ensures Sorted(RealKey, Reals(xs))
  {
    var r := Reals(xs);
    forall i, j | 0 <= i < j < |r| ensures RealKey(r[i]) <= RealKey(r[j]) {
      assert IntKey(xs[i]) <= IntKey(xs[j]);
    }
  }

  /** On one sorted series both algorithms answer inside the same closed interval between two of its values,
      whose positions are equal or adjacent. */
  lemma PercentilesBracket(xs: seq<nat>, p: nat)
    requires Sorted(IntKey, xs) && |xs| >= 2 && 1 <= p <= 100
    ensures var rank := Rank(|xs|, p as real);
            var lo, hi := rank.Floor, Ceil(rank);
            && 0 <= lo <= hi < |xs| && hi - lo <= 1
            && xs[lo] <= xs[NearestIndex(|xs|, p)] <= xs[hi]
            && xs[lo] as real <= Percentile(Reals(xs), p as real) <= xs[hi] as real
  {
    var n, k := |xs|, NearestIndex(|xs|, p);
    var rank := Rank(n, p as real);
    RankInRange(n, p as real);
    IndicesBracket(n, p);
    RealsSorted(xs);
    BetweenBounds(Reals(xs), rank);
    SortedReals(Reals(xs), rank.Floor, k);
    SortedReals(Reals(xs), k, Ceil(rank));
  }
}
