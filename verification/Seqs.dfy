/** Sequences without repetitions, and ascending ones. */
module Seqs {

  ghost predicate NoDup<T>(xs: seq<T>) {
    forall i, j :: 0 <= i < j < |xs| ==> xs[i] != xs[j]
  }

  /** Some occurrence of a stands before one of b. */
  ghost predicate Precedes<T>(xs: seq<T>, a: T, b: T) {
    exists p, q :: 0 <= p < q < |xs| && xs[p] == a && xs[q] == b
  }

  lemma PrecedesGrows<T>(xs: seq<T>, a: T, b: T, c: T)
    ensures Precedes(xs, a, b) ==> Precedes(xs + [c], a, b)
    ensures a in xs ==> Precedes(xs + [c], a, c)
    ensures Precedes(xs + [c], a, b) ==> Precedes(xs, a, b) || (b == c && a in xs)
  {
    var ys := xs + [c];
    if Precedes(xs, a, b) {
      var p, q :| 0 <= p < q < |xs| && xs[p] == a && xs[q] == b;
      assert ys[p] == a && ys[q] == b;
    }
    if a in xs {
      var p :| 0 <= p < |xs| && xs[p] == a;
      assert ys[p] == a && ys[|xs|] == c;
    }
    if Precedes(ys, a, b) {
      var p, q :| 0 <= p < q < |ys| && ys[p] == a && ys[q] == b;
      assert xs[p] == a;
      assert q < |xs| ==> xs[q] == b;
    }
  }

  predicate Ascending(xs: seq<int>) {
    forall i, j :: 0 <= i < j < |xs| ==> xs[i] < xs[j]
  }

  /** xs without the one occurrence of x, if it has one. */
  function Without<T(==)>(xs: seq<T>, x: T): (r: seq<T>)
    ensures forall y :: y in r ==> y in xs
    ensures forall y :: y in xs && y != x ==> y in r
    ensures |r| == if x in xs then |xs| - 1 else |xs|
  {
    if xs == [] then []
    else if xs[0] == x then xs[1..]
    else [xs[0]] + Without(xs[1..], x)
  }

  lemma {:induction false} WithoutNoDup<T>(xs: seq<T>, x: T)
    requires NoDup(xs)
    ensures NoDup(Without(xs, x)) && x !in Without(xs, x)
  {
    if xs != [] && xs[0] != x {
      WithoutNoDup(xs[1..], x);
      assert xs[0] !in xs[1..];
    }
  }

  lemma NoDupPush<T>(xs: seq<T>, x: T)
    requires NoDup(xs) && x !in xs
    ensures NoDup([x] + xs)
  {
  }

  lemma {:induction false} NoDupCount<T>(xs: seq<T>, x: T)
    requires NoDup(xs)
    ensures multiset(xs)[x] == if x in xs then 1 else 0
  {
    if xs != [] {
      NoDupCount(xs[1..], x);
      assert xs == [xs[0]] + xs[1..];
    }
  }

  /** As many different numbers below n as n at most. */
  lemma {:induction false} Pigeonhole(xs: seq<int>, n: nat)
    requires NoDup(xs) && forall i :: 0 <= i < |xs| ==> 0 <= xs[i] < n
    ensures |xs| <= n
    decreases n
  {
    if xs != [] {
      assert 0 <= xs[0] < n;
      if n - 1 in xs {
        var p :| 0 <= p < |xs| && xs[p] == n - 1;
        Pigeonhole(xs[..p] + xs[p + 1..], n - 1);
      } else {
        Pigeonhole(xs, n - 1);
      }
    }
  }
}
