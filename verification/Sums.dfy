/** Sums of the values of a finite map. */
module Sums {

  ghost function Sum<K>(m: map<K, nat>): nat
    decreases |m|
  {
    if m == map[] then 0
    else
      var k :| k in m;
      m[k] + Sum(m - {k})
  }

  lemma {:induction false} SumSplit<K>(m: map<K, nat>, k: K)
    requires k in m
    ensures Sum(m) == m[k] + Sum(m - {k})
    decreases |m|
  {
    var first :| first in m && Sum(m) == m[first] + Sum(m - {first});
    if first != k {
      SumSplit(m - {first}, k);
      SumSplit(m - {k}, first);
      assert m - {first} - {k} == m - {k} - {first};
    }
  }

  lemma SumUpdate<K>(m: map<K, nat>, k: K, v: nat)
    requires k in m
    ensures Sum(m[k := v]) + m[k] == Sum(m) + v
  {
    SumSplit(m, k);
    SumSplit(m[k := v], k);
    assert m[k := v] - {k} == m - {k};
  }

  lemma {:induction false} SumBound<K>(m: map<K, nat>, c: nat)
    requires forall k :: k in m ==> m[k] <= c
    ensures Sum(m) <= c * |m|
    decreases |m|
  {
    if m != map[] {
      var k :| k in m && Sum(m) == m[k] + Sum(m - {k});
      SumBound(m - {k}, c);
      assert |m - {k}| == |m| - 1;
      assert c * |m| == c * (|m| - 1) + c;
    }
  }
}
