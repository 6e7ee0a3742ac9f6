/** Three locks that meet in turn at three servers, no server being common to all, and yet
    are never taken in a circle: where lists share more than one server, a ring is not
    enough. */
module LockLimits {
  import opened Graphs
  import opened LockCycle
  import opened LockGraph
  import opened LockRequests
  import opened LockSchedules
  import opened LockServer
  import opened Seqs

  /** Requests with the lists 1 3 4, 1 2 4 5 and 2 3 5. */
  function Three(a: LockId, b: LockId, c: LockId, client: int): (reqs: seq<Request>)
    ensures |reqs| == 3
  {
    [Request(a, client, [1, 3, 4]), Request(b, client, [1, 2, 4, 5]), Request(c, client, [2, 3, 5])]
  }

  ghost predicate Different(a: LockId, b: LockId, c: LockId) {
    a != b && b != c && c != a
  }

  lemma ThreeVisit(a: LockId, b: LockId, c: LockId, client: int, u: int)
    requires Different(a, b, c)
    ensures var reqs := Three(a, b, c, client);
      && (Visits(reqs, a, u) <==> u == 1 || u == 3 || u == 4)
      && (Visits(reqs, b, u) <==> u == 1 || u == 2 || u == 4 || u == 5)
      && (Visits(reqs, c, u) <==> u == 2 || u == 3 || u == 5)
  {
    var reqs := Three(a, b, c, client);
    assert reqs[0].id == a && (u in reqs[0].servs <==> u == 1 || u == 3 || u == 4);
    assert reqs[1].id == b && (u in reqs[1].servs <==> u == 1 || u == 2 || u == 4 || u == 5);
    assert reqs[2].id == c && (u in reqs[2].servs <==> u == 2 || u == 3 || u == 5);
  }

  lemma ThreeNamed(a: LockId, b: LockId, c: LockId, client: int, id: LockId, u: int)
    requires Visits(Three(a, b, c, client), id, u)
    ensures id == a || id == b || id == c
  {
  }

  lemma AllVisits(a: LockId, b: LockId, c: LockId, client: int)
    requires Different(a, b, c)
    ensures var reqs := Three(a, b, c, client);
      && (forall u :: Visits(reqs, a, u) <==> u == 1 || u == 3 || u == 4)
      && (forall u :: Visits(reqs, b, u) <==> u == 1 || u == 2 || u == 4 || u == 5)
      && (forall u :: Visits(reqs, c, u) <==> u == 2 || u == 3 || u == 5)
  {
    forall u {
      ThreeVisit(a, b, c, client, u);
    }
  }

  lemma HopEdge(reqs: seq<Request>, ahead: set<(LockId, LockId)>, id: LockId, u: int, v: int)
    requires u < v && Visits(reqs, id, u) && Visits(reqs, id, v)
    ensures (Event(id, u), Event(id, v)) in Edges(reqs, ahead)
  {
    AllHopsVisit(reqs, Event(id, u));
    AllHopsVisit(reqs, Event(id, v));
  }

  lemma WaitEdge(reqs: seq<Request>, ahead: set<(LockId, LockId)>, x: LockId, y: LockId, s: int, t: int)
    requires (x, y) in ahead && BothVisit(reqs, x, y, s) && BothVisit(reqs, x, y, t) && Gate(reqs, x, y, s, t)
    ensures (Event(x, t), Event(y, s)) in Edges(reqs, ahead)
  {
    AllHopsVisit(reqs, Event(x, t));
    AllHopsVisit(reqs, Event(y, s));
  }

  lemma SixEdges<T(!new)>(edges: set<(T, T)>, c: seq<T>)
    requires |c| == 6 && (c[0], c[1]) in edges && (c[1], c[2]) in edges && (c[2], c[3]) in edges
    requires (c[3], c[4]) in edges && (c[4], c[5]) in edges && (c[5], c[0]) in edges
    ensures !Acyclic(edges)
  {
    forall j | 0 <= j < |c| ensures EdgeAt(edges, c, j) {
    }
    assert Cycle(edges, c);
  }

  /** The lock 1 3 4 ahead of 1 2 4 5, that ahead of 2 3 5, and that ahead of the first. */
  lemma OneWay(a: LockId, b: LockId, c: LockId, client: int, ahead: set<(LockId, LockId)>)
    requires Different(a, b, c) && (a, b) in ahead && (b, c) in ahead && (c, a) in ahead
    ensures !Acyclic(Edges(Three(a, b, c, client), ahead))
  {
    var reqs := Three(a, b, c, client);
    AllVisits(a, b, c, client);
    HopEdge(reqs, ahead, b, 1, 5);
    WaitEdge(reqs, ahead, b, c, 2, 5);
    HopEdge(reqs, ahead, c, 2, 3);
    WaitEdge(reqs, ahead, c, a, 3, 3);
    HopEdge(reqs, ahead, a, 3, 4);
    WaitEdge(reqs, ahead, a, b, 1, 4);
    SixEdges(Edges(reqs, ahead), [Event(b, 1), Event(b, 5), Event(c, 2), Event(c, 3), Event(a, 3), Event(a, 4)]);
  }

  lemma OtherWay(a: LockId, b: LockId, c: LockId, client: int, ahead: set<(LockId, LockId)>)
    requires Different(a, b, c) && (b, a) in ahead && (c, b) in ahead && (a, c) in ahead
    ensures !Acyclic(Edges(Three(a, b, c, client), ahead))
  {
    var reqs := Three(a, b, c, client);
    AllVisits(a, b, c, client);
    HopEdge(reqs, ahead, b, 2, 4);
    WaitEdge(reqs, ahead, b, a, 1, 4);
    HopEdge(reqs, ahead, a, 1, 3);
    WaitEdge(reqs, ahead, a, c, 3, 3);
    HopEdge(reqs, ahead, c, 3, 5);
    WaitEdge(reqs, ahead, c, b, 2, 5);
    SixEdges(Edges(reqs, ahead), [Event(b, 2), Event(b, 4), Event(a, 1), Event(a, 3), Event(c, 3), Event(c, 5)]);
  }

  /** Whichever lock is ahead of the other two, no circle closes. */
  lemma FirstOfThree(ahead: set<(LockId, LockId)>, x: LockId, y: LockId, z: LockId, d: seq<LockId>)
    requires Different(x, y, z) && forall p :: p in ahead ==> p.0 != p.1 && p.0 in {x, y, z} && p.1 in {x, y, z}
    requires (y, x) !in ahead && (z, x) !in ahead && !((y, z) in ahead && (z, y) in ahead)
    ensures !Cycle(ahead, d)
  {
    var rank := if (y, z) in ahead then map[x := 0, y := 1, z := 2] else map[x := 0, z := 1, y := 2];
    RankedNoCycle(ahead, rank, d);
  }

  lemma NoTurn(a: LockId, b: LockId, c: LockId, client: int, ahead: set<(LockId, LockId)>, d: seq<LockId>)
    requires Different(a, b, c)
    ensures !CanTurn(Three(a, b, c, client), ahead, d)
  {
    var reqs := Three(a, b, c, client);
    if CanTurn(reqs, ahead, d) {
      AllVisits(a, b, c, client);
      assert BothVisit(reqs, a, b, 1) && BothVisit(reqs, b, c, 2) && BothVisit(reqs, c, a, 3);
      assert Share(reqs, a, b) && Share(reqs, b, c) && Share(reqs, c, a);
      forall p | p in ahead ensures p.0 != p.1 && p.0 in {a, b, c} && p.1 in {a, b, c} {
        var u :| BothVisit(reqs, p.0, p.1, u);
        ThreeNamed(a, b, c, client, p.0, u);
        ThreeNamed(a, b, c, client, p.1, u);
      }
      TurnOfThree(a, b, c, client, ahead, d);
    }
  }

  lemma TurnOfThree(a: LockId, b: LockId, c: LockId, client: int, ahead: set<(LockId, LockId)>, d: seq<LockId>)
    requires Different(a, b, c) && (forall p :: p in ahead ==> p.0 != p.1 && p.0 in {a, b, c} && p.1 in {a, b, c})
    requires ((a, b) in ahead <==> (b, a) !in ahead) && ((b, c) in ahead <==> (c, b) !in ahead)
    requires (c, a) in ahead <==> (a, c) !in ahead
    ensures !Cycle(ahead, d) || !Acyclic(Edges(Three(a, b, c, client), ahead))
  {
    if (a, b) in ahead && (b, c) in ahead && (c, a) in ahead {
      OneWay(a, b, c, client, ahead);
    } else if (b, a) in ahead && (c, b) in ahead && (a, c) in ahead {
      OtherWay(a, b, c, client, ahead);
    } else if (b, a) !in ahead && (c, a) !in ahead {
      FirstOfThree(ahead, a, b, c, d);
    } else if (a, b) !in ahead && (c, b) !in ahead {
      FirstOfThree(ahead, b, c, a, d);
    } else {
      FirstOfThree(ahead, c, a, b, d);
    }
  }

  lemma ThreeRing(reqs: seq<Request>, ids: seq<LockId>, servs: seq<int>)
    requires |ids| == 3 && NoDup(ids) && |servs| == 3 && servs[0] != servs[1]
    requires Visits(reqs, ids[0], servs[0]) && Visits(reqs, ids[1], servs[0]) && Visits(reqs, ids[1], servs[1])
    requires Visits(reqs, ids[2], servs[1]) && Visits(reqs, ids[2], servs[2]) && Visits(reqs, ids[0], servs[2])
    ensures Ring(reqs, ids, servs)
  {
    forall j | 0 <= j < 3 ensures MeetAt(reqs, ids, servs, j) {
    }
  }

  lemma NoneCommon(reqs: seq<Request>)
    requires |reqs| == 3 && reqs[0].servs == [1, 3, 4] && reqs[1].servs == [1, 2, 4, 5] && reqs[2].servs == [2, 3, 5]
    ensures !exists u :: AllVisit(reqs, u)
  {
    forall u ensures u !in reqs[0].servs || u !in reqs[1].servs || u !in reqs[2].servs {
    }
  }

  /** These three hold a ring and have no server in common, but no run takes them in a
      circle. */
  lemma RingWithoutCircle(a: LockId, b: LockId, c: LockId, client: int)
    requires Different(a, b, c)
    ensures var reqs := Three(a, b, c, client);
      && Askable(reqs) && Ring(reqs, [a, b, c], [1, 2, 3]) && !(exists u :: AllVisit(reqs, u))
      && !(exists run, i, d :: GoRound(reqs, run, i, d))
  {
    var reqs := Three(a, b, c, client);
    AllVisits(a, b, c, client);
    ThreeRing(reqs, [a, b, c], [1, 2, 3]);
    NoneCommon(reqs);
    CircleExact(reqs);
    forall ahead, d ensures !CanTurn(reqs, ahead, d) {
      NoTurn(a, b, c, client, ahead, d);
    }
  }
}
