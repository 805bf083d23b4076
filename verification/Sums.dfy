/**
 Sums over integer sequences. Chips per seat are read off as sequences of
 integers, so every conservation argument in the project is about `Sum`.
 */
module Sums {

  function Min(a: int, b: int): int {
    if a <= b then a else b
  }

  function Max(a: int, b: int): int {
    if a <= b then b else a
  }

  function Sum(xs: seq<int>): int {
    if xs == [] then 0 else Sum(xs[..|xs| - 1]) + xs[|xs| - 1]
  }

  lemma {:induction false} SumUpdate(xs: seq<int>, i: nat, v: int)
    requires i < |xs|
    ensures Sum(xs[i := v]) == Sum(xs) - xs[i] + v
  {
    var n := |xs| - 1;
    if i == n {
      assert xs[i := v][..n] == xs[..n];
    } else {
      assert xs[i := v][..n] == xs[..n][i := v];
      SumUpdate(xs[..n], i, v);
    }
  }

  lemma {:induction false} SumAdd(xs: seq<int>, ys: seq<int>, zs: seq<int>)
    requires |xs| == |ys| == |zs|
    requires forall i :: 0 <= i < |xs| ==> zs[i] == xs[i] + ys[i]
    ensures Sum(zs) == Sum(xs) + Sum(ys)
  {
    if xs != [] {
      var n := |xs| - 1;
      SumAdd(xs[..n], ys[..n], zs[..n]);
    }
  }

  lemma {:induction false} SumZero(xs: seq<int>)
    requires forall i :: 0 <= i < |xs| ==> xs[i] == 0
    ensures Sum(xs) == 0
  {
    if xs != [] {
      SumZero(xs[..|xs| - 1]);
    }
  }

  lemma {:induction false} SumMonotone(xs: seq<int>, ys: seq<int>)
    requires |xs| == |ys|
    requires forall i :: 0 <= i < |xs| ==> xs[i] <= ys[i]
    ensures Sum(xs) <= Sum(ys)
    ensures (exists i :: 0 <= i < |xs| && xs[i] < ys[i]) ==> Sum(xs) < Sum(ys)
  {
    if xs != [] {
      var n := |xs| - 1;
      SumMonotone(xs[..n], ys[..n]);
      if i :| 0 <= i < |xs| && xs[i] < ys[i] && i < n {
        assert xs[..n][i] < ys[..n][i];
      }
    }
  }

  lemma {:induction false} SumBoundsElement(xs: seq<int>, i: nat)
    requires forall j :: 0 <= j < |xs| ==> xs[j] >= 0
    requires i < |xs|
    ensures 0 <= xs[i] <= Sum(xs)
  {
    SumZero(seq(|xs|, _ => 0));
    var zeros := seq(|xs|, _ => 0);
    SumUpdate(zeros, i, xs[i]);
    SumMonotone(zeros[i := xs[i]], xs);
  }

  lemma {:induction false} SumAppend(xs: seq<int>, x: int)
    ensures Sum(xs + [x]) == Sum(xs) + x
  {
    assert (xs + [x])[..|xs|] == xs;
  }

  lemma {:induction false} SumConcat(xs: seq<int>, ys: seq<int>)
    ensures Sum(xs + ys) == Sum(xs) + Sum(ys)
  {
    if ys == [] {
      assert xs + ys == xs;
    } else {
      var n := |ys| - 1;
      assert (xs + ys)[..|xs| + n] == xs + ys[..n];
      SumConcat(xs, ys[..n]);
    }
  }

  lemma {:induction false} TimesAtLeast(n: nat, d: nat)
    requires d > 0
    ensures n <= n * d
  {
    if d > 1 {
      TimesAtLeast(n, d - 1);
      Distribute(n, d - 1, 1);
    }
  }

  lemma TimesNonNegative(a: nat, b: nat)
    ensures a * b >= 0
  {}

  lemma Distribute(n: int, a: int, b: int)
    ensures n * (a + b) == n * a + n * b
  {}

  /** Sets of indices below a bound, as used for "number of seats such that". */
  lemma {:induction false} BoundedSetSize(s: set<int>, n: nat)
    requires forall i :: i in s ==> 0 <= i < n
    ensures |s| <= n
  {
    if n == 0 {
      assert forall i :: i in s ==> 0 <= i < n;
      assert s == {};
    } else {
      var t := s - {n - 1};
      BoundedSetSize(t, n - 1);
      if n - 1 in s {
        assert s == t + {n - 1};
      } else {
        assert s == t;
      }
    }
  }

  lemma SubsetSize<T>(a: set<T>, b: set<T>)
    requires a <= b
    ensures |a| <= |b|
    ensures |a| == |b| ==> a == b
  {
    assert b == a + (b - a);
    assert |b| == |a| + |b - a|;
    if |a| == |b| {
      assert |b - a| == 0;
      assert b - a == {};
    }
  }

  lemma AnyMember<T>(s: set<T>) returns (x: T)
    requires s != {}
    ensures x in s
  {
    x :| x in s;
  }
}
