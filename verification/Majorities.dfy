/** Majorities of finite sets. */
module Majorities {

  lemma Within<T>(all: set<T>, part: set<T>)
    requires part <= all
    ensures |part| <= |all|
  {
    assert all == part + (all - part);
  }

  lemma DisjointFit<T>(all: set<T>, a: set<T>, b: set<T>)
    requires a <= all && b <= all && a * b == {}
    ensures |a| + |b| <= |all|
  {
    assert |a + b| == |a| + |b|;
    Within(all, a + b);
  }

  /** A majority of the members before a change and one of those after it have a member in
      common, if at most one comes or goes. */
  lemma MajoritiesMeet<T>(before: set<T>, after: set<T>, a: set<T>, b: set<T>) returns (x: T)
    requires a <= before && b <= after && |a| > |before| / 2 && |b| > |after| / 2
    requires |after - before| + |before - after| <= 1
    ensures x in a && x in b
  {
    var all := before + after;
    assert all == before + (after - before) && all == after + (before - after);
    assert |all| == |before| + |after - before| && |all| == |after| + |before - after|;
    if a * b == {} {
      DisjointFit(all, a, b);
      assert false;
    }
    x :| x in a * b;
  }
}
