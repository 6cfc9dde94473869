/** Sums of a weight over a sequence, and the counting arguments built on them. */
module Counting {

  datatype Option<+T> = None | Some(value: T)

  function Sum<T>(xs: seq<T>, f: T -> int): int
  {
    if xs == [] then 0 else f(xs[0]) + Sum(xs[1..], f)
  }

  // Changing one element changes the sum by the difference of the two weights.
  lemma {:induction false} SumUpdate<T>(xs: seq<T>, i: nat, x: T, f: T -> int)
    requires i < |xs|
    ensures Sum(xs[i := x], f) == Sum(xs, f) - f(xs[i]) + f(x)
  {
    if i == 0 {
      assert xs[0 := x][1..] == xs[1..];
    } else {
      assert xs[i := x][1..] == xs[1..][i - 1 := x];
      SumUpdate(xs[1..], i - 1, x, f);
    }
  }

  lemma {:induction false} SumSnoc<T>(xs: seq<T>, x: T, f: T -> int)
    ensures Sum(xs + [x], f) == Sum(xs, f) + f(x)
  {
    if xs == [] {
      assert xs + [x] == [x];
    } else {
      assert (xs + [x])[1..] == xs[1..] + [x];
      SumSnoc(xs[1..], x, f);
    }
  }

  lemma {:induction false} SumConcat<T>(xs: seq<T>, ys: seq<T>, f: T -> int)
    ensures Sum(xs + ys, f) == Sum(xs, f) + Sum(ys, f)
  {
    if xs == [] {
      assert xs + ys == ys;
    } else {
      assert (xs + ys)[1..] == xs[1..] + ys;
      SumConcat(xs[1..], ys, f);
    }
  }

  lemma {:induction false} SumConstant<T>(xs: seq<T>, f: T -> int, c: int)
    requires forall x :: x in xs ==> f(x) == c
    ensures Sum(xs, f) == |xs| * c
  {
    if xs != [] {
      SumConstant(xs[1..], f, c);
    }
  }

  lemma {:induction false} SumBetween<T>(xs: seq<T>, f: T -> int, g: T -> int)
    requires forall x :: x in xs ==> f(x) <= g(x)
    ensures Sum(xs, f) <= Sum(xs, g)
  {
    if xs != [] {
      SumBetween(xs[1..], f, g);
    }
  }

  // A sum of non-negative weights is at least any one of them.
  lemma {:induction false} SumCovers<T>(xs: seq<T>, i: nat, f: T -> int)
    requires i < |xs| && forall x :: x in xs ==> f(x) >= 0
    ensures Sum(xs, f) >= f(xs[i])
    ensures Sum(xs, f) >= 0
  {
    SumNonNegative(xs[1..], f);
    if i > 0 {
      SumCovers(xs[1..], i - 1, f);
    }
  }

  lemma {:induction false} SumNonNegative<T>(xs: seq<T>, f: T -> int)
    requires forall x :: x in xs ==> f(x) >= 0
    ensures Sum(xs, f) >= 0
  {
    if xs != [] {
      SumNonNegative(xs[1..], f);
    }
  }

  lemma {:induction false} SumWitness<T>(xs: seq<T>, f: T -> int) returns (i: nat)
    requires Sum(xs, f) > 0
    ensures i < |xs| && f(xs[i]) > 0
  {
    if f(xs[0]) > 0 {
      i := 0;
    } else {
      var k := SumWitness(xs[1..], f);
      i := k + 1;
    }
  }

  // The positions whose weight is one.
  function Marked<T>(xs: seq<T>, f: T -> int): set<nat>
  {
    set i: nat | i < |xs| && f(xs[i]) == 1
  }

  lemma {:induction false} SumCountsMarked<T>(xs: seq<T>, f: T -> int)
    requires forall x :: x in xs ==> f(x) == 0 || f(x) == 1
    ensures Sum(xs, f) == |Marked(xs, f)|
  {
    if xs != [] {
      var last := |xs| - 1;
      SumCountsMarked(xs[..last], f);
      SumSnoc(xs[..last], xs[last], f);
      assert xs == xs[..last] + [xs[last]];
      if f(xs[last]) == 1 {
        assert Marked(xs, f) == Marked(xs[..last], f) + {last};
      } else {
        assert Marked(xs, f) == Marked(xs[..last], f);
      }
    }
  }

  // An injection from a set into a set bounds the size.
  lemma {:induction false} InjectionBound<A, B>(xs: set<A>, ys: set<B>, g: map<A, B>)
    requires g.Keys == xs
    requires forall x :: x in xs ==> g[x] in ys
    requires forall x, y :: x in xs && y in xs && g[x] == g[y] ==> x == y
    ensures |xs| <= |ys|
  {
    if xs != {} {
      var x :| x in xs;
      var rest := map y | y in g && y != x :: g[y];
      InjectionBound(xs - {x}, ys - {g[x]}, rest);
    }
  }

  function One(b: bool): nat { if b then 1 else 0 }

  function Max(a: int, b: int): int { if a >= b then a else b }

  lemma SubsetSize<T>(a: set<T>, b: set<T>)
    requires a <= b
    ensures |a| <= |b|
  {
    assert b == a + (b - a);
  }
}
