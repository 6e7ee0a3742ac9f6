/** Finite directed graphs: one without a cycle can be put in order. */
module Graphs {
  import opened Seqs

  /** The place behind j on a circle of n. */
  function After(j: nat, n: nat): nat {
    if j + 1 == n then 0 else j + 1
  }

  ghost predicate EdgeAt<T>(edges: set<(T, T)>, c: seq<T>, j: int) {
    0 <= j < |c| && (c[j], c[After(j, |c|)]) in edges
  }

  /** Every element of c has an edge to the next one, and the last one to the first. */
  ghost predicate Cycle<T>(edges: set<(T, T)>, c: seq<T>) {
    c != [] && forall j :: 0 <= j < |c| ==> EdgeAt(edges, c, j)
  }

  ghost predicate Acyclic<T(!new)>(edges: set<(T, T)>) {
    forall c :: !Cycle(edges, c)
  }

  lemma {:induction false} NoDupFits<T>(xs: seq<T>, all: set<T>)
    requires NoDup(xs) && forall x :: x in xs ==> x in all
    ensures |xs| <= |all|
    decreases |xs|
  {
    if xs != [] {
      var x, rest := xs[0], xs[1..];
      assert x !in rest;
      NoDupFits(rest, all - {x});
      assert |all - {x}| == |all| - 1;
    }
  }

  ghost predicate Inside<T>(edges: set<(T, T)>, nodes: set<T>) {
    forall e :: e in edges ==> e.0 in nodes && e.1 in nodes
  }

  /** Along a walk every element has an edge to the next. */
  ghost predicate Walk<T>(edges: set<(T, T)>, w: seq<T>) {
    forall j :: 0 < j < |w| ==> StepAt(edges, w, j)
  }

  ghost predicate StepAt<T>(edges: set<(T, T)>, w: seq<T>, j: int) {
    0 < j < |w| && (w[j - 1], w[j]) in edges
  }

  ghost predicate Reached<T>(edges: set<(T, T)>, x: T) {
    exists e :: e in edges && e.1 == x
  }

  /** If every node is reached from another, one can walk backwards for ever. */
  lemma {:induction false} WalkBack<T>(nodes: set<T>, edges: set<(T, T)>, n: nat) returns (w: seq<T>)
    requires nodes != {} && Inside(edges, nodes) && forall x :: x in nodes ==> Reached(edges, x)
    ensures |w| == n + 1 && Walk(edges, w) && forall x :: x in w ==> x in nodes
    decreases n
  {
    if n == 0 {
      var x :| x in nodes;
      w := [x];
    } else {
      var v := WalkBack(nodes, edges, n - 1);
      assert v[0] in nodes;
      var e :| e in edges && e.1 == v[0];
      w := [e.0] + v;
      forall j | 0 < j < |w| ensures StepAt(edges, w, j) {
        assert j > 1 ==> StepAt(edges, v, j - 1);
      }
    }
  }

  lemma WalkMeetsItself<T>(edges: set<(T, T)>, w: seq<T>, x: nat, y: nat)
    requires Walk(edges, w) && x < y < |w| && w[x] == w[y]
    ensures Cycle(edges, w[x..y])
  {
    var c := w[x..y];
    forall j | 0 <= j < |c| ensures EdgeAt(edges, c, j) {
      assert StepAt(edges, w, x + j + 1);
    }
  }

  /** Some node of a graph without a cycle is not reached from any other. */
  lemma Source<T(!new)>(nodes: set<T>, edges: set<(T, T)>) returns (x: T)
    requires nodes != {} && Inside(edges, nodes) && Acyclic(edges)
    ensures x in nodes && !Reached(edges, x)
  {
    if forall y :: y in nodes ==> Reached(edges, y) {
      var w := WalkBack(nodes, edges, |nodes|);
      if NoDup(w) {
        NoDupFits(w, nodes);
      } else {
        var i, j :| 0 <= i < j < |w| && w[i] == w[j];
        WalkMeetsItself(edges, w, i, j);
      }
      assert false;
    }
    x :| x in nodes && !Reached(edges, x);
  }

  lemma FewerEdges<T(!new)>(edges: set<(T, T)>, fewer: set<(T, T)>)
    requires Acyclic(edges) && fewer <= edges
    ensures Acyclic(fewer)
  {
    forall c ensures !Cycle(fewer, c) {
      if Cycle(fewer, c) {
        forall j | 0 <= j < |c| ensures EdgeAt(edges, c, j) {
          assert EdgeAt(fewer, c, j);
        }
        assert Cycle(edges, c);
      }
    }
  }

  /** The nodes, each once, in an order in which every edge leads forward. */
  ghost predicate Sorted<T>(order: seq<T>, nodes: set<T>, edges: set<(T, T)>) {
    && NoDup(order) && (forall x :: x in order ==> x in nodes) && (forall x :: x in nodes ==> x in order)
    && forall e :: e in edges ==> Precedes(order, e.0, e.1)
  }

  lemma SourceFirst<T>(x: T, rest: seq<T>, nodes: set<T>, edges: set<(T, T)>)
    requires x in nodes && Inside(edges, nodes) && !Reached(edges, x)
    requires Sorted(rest, nodes - {x}, set e | e in edges && e.0 != x)
    ensures Sorted([x] + rest, nodes, edges)
  {
    var order := [x] + rest;
    NoDupPush(rest, x);
    forall e | e in edges ensures Precedes(order, e.0, e.1) {
      assert e.1 != x;
      if e.0 == x {
        assert e.1 in rest;
        var q :| 0 <= q < |rest| && rest[q] == e.1;
        assert order[0] == e.0 && order[q + 1] == e.1;
      } else {
        var p, q :| 0 <= p < q < |rest| && rest[p] == e.0 && rest[q] == e.1;
        assert order[p + 1] == e.0 && order[q + 1] == e.1;
      }
    }
  }

  /** A graph without a cycle can be put in order. */
  lemma {:induction false} Sort<T(!new)>(nodes: set<T>, edges: set<(T, T)>) returns (order: seq<T>)
    requires Inside(edges, nodes) && Acyclic(edges)
    ensures Sorted(order, nodes, edges)
    decreases |nodes|
  {
    if nodes == {} {
      order := [];
    } else {
      var x := Source(nodes, edges);
      var fewer := set e | e in edges && e.0 != x;
      FewerEdges(edges, fewer);
      forall e | e in fewer ensures e.0 in nodes - {x} && e.1 in nodes - {x} {
        assert e.1 != x;
      }
      assert |nodes - {x}| == |nodes| - 1;
      var rest := Sort(nodes - {x}, fewer);
      SourceFirst(x, rest, nodes, edges);
      order := [x] + rest;
    }
  }

  ghost predicate Ranked<T>(edges: set<(T, T)>, rank: map<T, int>) {
    forall e :: e in edges ==> e.0 in rank && e.1 in rank && rank[e.0] < rank[e.1]
  }

  lemma {:induction false} RankRises<T>(edges: set<(T, T)>, rank: map<T, int>, c: seq<T>, j: nat)
    requires Ranked(edges, rank) && Cycle(edges, c) && j < |c|
    ensures var next := c[After(j, |c|)];
      c[0] in rank && c[j] in rank && next in rank && rank[c[0]] <= rank[c[j]] < rank[next]
  {
    assert EdgeAt(edges, c, j);
    if j > 0 {
      RankRises(edges, rank, c, j - 1);
    }
  }

  /** Where every edge leads up there is no cycle. */
  lemma RankedNoCycle<T>(edges: set<(T, T)>, rank: map<T, int>, c: seq<T>)
    requires Ranked(edges, rank)
    ensures !Cycle(edges, c)
  {
    if Cycle(edges, c) {
      RankRises(edges, rank, c, |c| - 1);
    }
  }
}
