/** The summary of a series of reals (internal/stats/stats.go, Summarize), with the variance in place of its square
    root. */
module Summaries {
  import opened Percentiles

  datatype Summary = Summary(
    min: real, max: real, mean: real, median: real, p90: real, p95: real, p99: real, variance: real, count: nat)

  const NO_SUMMARY := Summary(0.0, 0.0, 0.0, 0.0, 0.0, 0.0, 0.0, 0.0, 0)

  function SumReals(vals: seq<real>): real {
    if vals == [] then 0.0 else SumReals(vals[..|vals| - 1]) + vals[|vals| - 1]
  }

  lemma {:induction false} SumRealsBetween(vals: seq<real>, lo: real, hi: real)
    requires forall v | v in vals :: lo <= v <= hi
    ensures |vals| as real * lo <= SumReals(vals) <= |vals| as real * hi
  {
    if vals != [] {
      var rest := vals[..|vals| - 1];
      assert forall v | v in rest :: v in vals;
      SumRealsBetween(rest, lo, hi);
      assert vals[|vals| - 1] in vals;
      assert |vals| as real == |rest| as real + 1.0;
      assert |vals| as real * lo == |rest| as real * lo + lo;
      assert |vals| as real * hi == |rest| as real * hi + hi;
    }
  }

  function MeanReal(sum: real, n: nat): real
    requires n > 0
  {
    sum / n as real
  }

  lemma MeanBetween(n: nat, sum: real, lo: real, hi: real)
    requires n > 0 && n as real * lo <= sum <= n as real * hi
    ensures lo <= MeanReal(sum, n) <= hi
  {
    var m := n as real;
    var q := sum / m;
    assert q * m == sum;
    assert q < lo ==> (lo - q) * m > 0.0;
    assert q > hi ==> (q - hi) * m > 0.0;
  }

  // Squared distances from the mean.
  function Product(x: real, y: real): real { x * y }

  function Square(x: real): real { Product(x, x) }

  function SumSquares(vals: seq<real>, mean: real): real {
    if vals == [] then 0.0 else SumSquares(vals[..|vals| - 1], mean) + Square(vals[|vals| - 1] - mean)
  }

  // ----- what the sums are, told without their loops -----

  /** SumReals is the sum: of one value that value, of two lists the two sums together. */
  lemma {:induction false} SumIsSum(x: real, a: seq<real>, b: seq<real>)
    ensures SumReals([]) == 0.0 && SumReals([x]) == x && SumReals(a + b) == SumReals(a) + SumReals(b)
    decreases |b|
  {
    assert [x][..0] == [];
    if b == [] {
      assert a + b == a;
    } else {
      var front := b[..|b| - 1];
      assert (a + b)[..|a + b| - 1] == a + front;
      SumIsSum(x, a, front);
    }
  }

  // The values multiplied by themselves.
  function Squares(vals: seq<real>): (r: seq<real>)
    ensures |r| == |vals| && forall i | 0 <= i < |vals| :: r[i] == vals[i] * vals[i]
  {
    seq(|vals|, i requires 0 <= i < |vals| => vals[i] * vals[i])
  }

  lemma SquareOfDifference(x: real, m: real)
    ensures Square(x - m) == x * x - 2.0 * m * x + m * m
  {
    assert (x - m) * (x - m) == x * x - 2.0 * m * x + m * m;
  }

  /** The squared distances from any m add up to the squares of the values, less twice m times each value, plus m
      squared for each. */
  lemma {:induction false} SquaresExpanded(vals: seq<real>, m: real)
    ensures SumSquares(vals, m) == SumReals(Squares(vals)) - 2.0 * m * SumReals(vals) + |vals| as real * (m * m)
  {
    if vals != [] {
      var front, last := vals[..|vals| - 1], vals[|vals| - 1];
      SquaresExpanded(front, m);
      SquareOfDifference(last, m);
      FrontSquares(vals);
      MoreExpanded(m, SumReals(front), last, |front| as real);
    }
  }

  lemma FrontSquares(vals: seq<real>)
    requires vals != []
    ensures Squares(vals)[..|vals| - 1] == Squares(vals[..|vals| - 1])
  {
    forall i | 0 <= i < |vals| - 1 ensures Squares(vals)[i] == Squares(vals[..|vals| - 1])[i] {
      assert vals[..|vals| - 1][i] == vals[i];
    }
  }

  lemma MoreExpanded(m: real, sum: real, last: real, n: real)
    ensures 2.0 * m * (sum + last) == 2.0 * m * sum + 2.0 * m * last
    ensures (n + 1.0) * (m * m) == n * (m * m) + m * m
  {
  }

  /** What MeanReal divides. */
  lemma MeanTimes(sum: real, n: nat)
    requires n > 0
    ensures n as real * MeanReal(sum, n) == sum
  {
  }

  /** What Summarize reports of a non-empty series, in terms of any sorted arrangement of it. */
  ghost predicate Summarizes(s: Summary, vals: seq<real>, sorted: seq<real>)
    requires vals != [] && |sorted| == |vals|
  {
    && s.min == sorted[0] && s.max == sorted[|vals| - 1]
    && s.mean == MeanReal(SumReals(vals), |vals|)
    && s.median == Percentile(sorted, 50.0) && s.p90 == Percentile(sorted, 90.0)
    && s.p95 == Percentile(sorted, 95.0) && s.p99 == Percentile(sorted, 99.0)
    && s.variance == MeanReal(SumSquares(vals, s.mean), |vals|)
    && s.count == |vals|
  }

  /** s is what Summarize reports of a series. */
  ghost predicate SummaryOf(s: Summary, values: seq<real>) {
    && (values == [] ==> s == NO_SUMMARY)
    && (values != [] ==>
          forall sorted | SortOf(RealKey, sorted, values) :: |sorted| == |values| && Summarizes(s, values, sorted))
    && s.count == |values|
  }

  ghost predicate InOrder(s: Summary) {
    s.min <= s.median <= s.p90 <= s.p95 <= s.p99 <= s.max && s.min <= s.mean <= s.max
  }

  lemma PercentilesInOrder(sorted: seq<real>)
    requires Sorted(RealKey, sorted) && sorted != []
    ensures sorted[0] <= Percentile(sorted, 50.0) <= Percentile(sorted, 90.0) <= Percentile(sorted, 95.0)
    ensures Percentile(sorted, 95.0) <= Percentile(sorted, 99.0) <= sorted[|sorted| - 1]
  {
    PercentileEnds(sorted);
    PercentileMonotone(sorted, 0.0, 50.0);
    PercentileMonotone(sorted, 50.0, 90.0);
    PercentileMonotone(sorted, 90.0, 95.0);
    PercentileMonotone(sorted, 95.0, 99.0);
    PercentileMonotone(sorted, 99.0, 100.0);
  }

  lemma ValuesBetween(vals: seq<real>, sorted: seq<real>, v: real)
    requires SortOf(RealKey, sorted, vals) && v in vals && sorted != []
    ensures sorted[0] <= v <= sorted[|sorted| - 1]
  {
    assert v in multiset(sorted);
    var i :| 0 <= i < |sorted| && sorted[i] == v;
    SortedReals(sorted, 0, i);
    SortedReals(sorted, i, |sorted| - 1);
  }

  lemma MeanOfRange(vals: seq<real>, lo: real, hi: real)
    requires vals != [] && forall v | v in vals :: lo <= v <= hi
    ensures lo <= MeanReal(SumReals(vals), |vals|) <= hi
  {
    SumRealsBetween(vals, lo, hi);
    MeanBetween(|vals|, SumReals(vals), lo, hi);
  }

  lemma MeanInRange(vals: seq<real>, sorted: seq<real>)
    requires vals != [] && SortOf(RealKey, sorted, vals) && sorted != []
    ensures sorted[0] <= MeanReal(SumReals(vals), |vals|) <= sorted[|sorted| - 1]
  {
    forall v | v in vals ensures sorted[0] <= v <= sorted[|sorted| - 1] {
      ValuesBetween(vals, sorted, v);
    }
    MeanOfRange(vals, sorted[0], sorted[|sorted| - 1]);
  }

  /** The summary's figures lie in the order their names promise. */
  lemma SummaryInOrder(s: Summary, vals: seq<real>, sorted: seq<real>)
    requires vals != [] && SortOf(RealKey, sorted, vals) && |sorted| == |vals| && Summarizes(s, vals, sorted)
    ensures InOrder(s)
  {
    PercentilesInOrder(sorted);
    MeanInRange(vals, sorted);
  }

  lemma ProductOfPositives(x: real, y: real)
    requires x > 0.0 && y > 0.0
    ensures Product(x, y) > 0.0
  {
  }

  lemma ProductOfNegatives(x: real, y: real)
    requires x < 0.0 && y < 0.0
    ensures Product(x, y) > 0.0
  {
  }

  lemma SquareZero(x: real)
    ensures Square(x) >= 0.0 && (Square(x) == 0.0 <==> x == 0.0)
  {
    if x > 0.0 {
      ProductOfPositives(x, x);
    } else if x < 0.0 {
      ProductOfNegatives(x, x);
    }
  }

  lemma {:induction false} SquaresZero(vals: seq<real>, mean: real)
    ensures SumSquares(vals, mean) >= 0.0
    ensures SumSquares(vals, mean) == 0.0 <==> forall v | v in vals :: v == mean
  {
    if vals != [] {
      var rest, last := vals[..|vals| - 1], vals[|vals| - 1];
      SquaresZero(rest, mean);
      SquareZero(last - mean);
      assert vals == rest + [last];
      assert forall v :: v in vals <==> v in rest || v == last;
      if last != mean {
        assert last in vals && SumSquares(vals, mean) > 0.0;
      }
    }
  }

  /** The variance is never negative, and 0 exactly when all values are equal. */
  lemma VarianceZeroIff(s: Summary, vals: seq<real>)
    requires vals != [] && SummaryOf(s, vals)
    ensures s.variance >= 0.0
    ensures s.variance == 0.0 <==> forall v, u | v in vals && u in vals :: v == u
  {
    var sorted := SomeSort(vals);
    SquaresZero(vals, s.mean);
    MeanSign(SumSquares(vals, s.mean), |vals|);
    AllEqualMean(vals);
  }

  lemma AllEqualMean(vals: seq<real>)
    requires vals != []
    ensures (forall v, u | v in vals && u in vals :: v == u)
            <==> forall v | v in vals :: v == MeanReal(SumReals(vals), |vals|)
  {
    if forall v, u | v in vals && u in vals :: v == u {
      assert vals[0] in vals;
      MeanOfRange(vals, vals[0], vals[0]);
    }
  }

  lemma MeanSign(sum: real, n: nat)
    requires n > 0 && sum >= 0.0
    ensures MeanReal(sum, n) >= 0.0 && (MeanReal(sum, n) == 0.0 <==> sum == 0.0)
  {
    var q := sum / n as real;
    assert q * n as real == sum;
    assert q < 0.0 ==> q * n as real < 0.0;
  }

  // Every series has a sorted arrangement.
  lemma {:induction false} SomeSort(vals: seq<real>) returns (sorted: seq<real>)
    ensures SortOf(RealKey, sorted, vals)
  {
    if vals == [] {
      sorted := [];
    } else {
      var front := SomeSort(vals[..|vals| - 1]);
      var last := vals[|vals| - 1];
      sorted := Insert(RealKey, front, last);
      InsertSorts(RealKey, front, last);
      InsertAdds(RealKey, front, last);
      assert vals == vals[..|vals| - 1] + [last];
    }
  }

  method Summarize(values: seq<real>) returns (s: Summary)
    ensures SummaryOf(s, values)
    ensures values == [] ==> s == Summary(0.0, 0.0, 0.0, 0.0, 0.0, 0.0, 0.0, 0.0, 0)
    ensures InOrder(s)
  {
    if |values| == 0 {
      return NO_SUMMARY;
    }
    var sorted := Sort(RealKey, values);
    SortOfSize(RealKey, sorted, values);
    var sum := SumOf(values);
    var mean := MeanReal(sum, |values|);
    var sq := SquaresOf(values, mean);
    s := Summary(sorted[0], sorted[|sorted| - 1], mean, Percentile(sorted, 50.0), Percentile(sorted, 90.0),
      Percentile(sorted, 95.0), Percentile(sorted, 99.0), MeanReal(sq, |values|), |sorted|);
    SummaryInOrder(s, values, sorted);
    OneArrangement(RealKey, sorted, values);
  }

  method SumOf(values: seq<real>) returns (sum: real)
    ensures sum == SumReals(values)
  {
    sum := 0.0;
    var i := 0;
    while i < |values|
      invariant 0 <= i <= |values| && sum == SumReals(values[..i])
    {
      assert values[..i + 1][..i] == values[..i];
      sum := sum + values[i];
      i := i + 1;
    }
    assert values[..i] == values;
  }

  method SquaresOf(values: seq<real>, mean: real) returns (sq: real)
    ensures sq == SumSquares(values, mean)
  {
    sq := 0.0;
    var i := 0;
    while i < |values|
      invariant 0 <= i <= |values| && sq == SumSquares(values[..i], mean)
    {
      assert values[..i + 1][..i] == values[..i];
      sq := sq + Square(values[i] - mean);
      i := i + 1;
    }
    assert values[..i] == values;
  }
}
