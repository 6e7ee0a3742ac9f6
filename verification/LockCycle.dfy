/** Locks going round in a circle: each is taken before the next by some server, and
    the last before the first. Two locks never do; three or more may. */
module LockCycle {
  import opened Graphs
  import opened LockOrders
  import opened LockProtocol
  import opened LockRequests
  import opened LockServer
  import opened LockTheorems
  import opened Seqs

  /** Some server has taken a before b. */
  ghost predicate Ahead(st: State, a: LockId, b: LockId) {
    exists s :: s in st.log && Precedes(st.log[s], a, b)
  }

  ghost predicate AheadAt(st: State, c: seq<LockId>, j: int) {
    0 <= j < |c| && Ahead(st, c[j], c[After(j, |c|)])
  }

  ghost predicate Circle(st: State, c: seq<LockId>) {
    c != [] && forall j :: 0 <= j < |c| ==> AheadAt(st, c, j)
  }

  // ---- One server has taken them all -----------------------------------------------------

  lemma PrecedesJoins<T>(xs: seq<T>, a: T, b: T, c: T)
    requires NoDup(xs) && Precedes(xs, a, b) && Precedes(xs, b, c)
    ensures Precedes(xs, a, c)
  {
  }

  lemma {:induction false} ChainPrecedes(st: State, t: int, c: seq<LockId>, j: nat)
    requires InvBase(st) && InvLog(st) && InvOrder(st) && t in st.log && Circle(st, c)
    requires forall k :: 0 <= k < |c| ==> c[k] in st.log[t]
    requires 1 <= j < |c|
    ensures Precedes(st.log[t], c[0], c[j])
  {
    assert AheadAt(st, c, j - 1);
    var s :| s in st.log && Precedes(st.log[s], c[j - 1], c[j]);
    OrderAgrees(st, c[j - 1], c[j], s, t);
    if j > 1 {
      ChainPrecedes(st, t, c, j - 1);
      PrecedesJoins(st.log[t], c[0], c[j - 1], c[j]);
    }
  }

  /** Nor does the last lock of a chain come before the first. */
  lemma EndsApart(st: State, t: int, c: seq<LockId>)
    requires InvBase(st) && InvLog(st) && InvOrder(st) && t in st.log && Circle(st, c) && |c| > 1
    requires forall k :: 0 <= k < |c| ==> c[k] in st.log[t]
    ensures !Ahead(st, c[|c| - 1], c[0])
  {
    var n := |c|;
    ChainPrecedes(st, t, c, n - 1);
    forall s | s in st.log ensures !Precedes(st.log[s], c[n - 1], c[0]) {
      if Precedes(st.log[s], c[n - 1], c[0]) {
        PrecedesOneWay(st.log[t], c[0], c[n - 1]);
        OrderAgrees(st, c[n - 1], c[0], s, t);
      }
    }
  }

  /** Locks that one server has taken are not in a circle. */
  lemma NoCircle(st: State, t: int, c: seq<LockId>)
    requires InvBase(st) && InvLog(st) && InvOrder(st) && t in st.log
    requires forall k :: 0 <= k < |c| ==> c[k] in st.log[t]
    ensures !Circle(st, c)
  {
    if Circle(st, c) {
      assert AheadAt(st, c, |c| - 1);
      if |c| > 1 {
        EndsApart(st, t, c);
      }
    }
  }

  // ---- One server is on all their lists ---------------------------------------------------

  lemma CircleStays(st: State, st': State, c: seq<LockId>)
    requires Grew(st, st') && Circle(st, c)
    ensures Circle(st', c)
  {
    forall j | 0 <= j < |c| ensures AheadAt(st', c, j) {
      assert AheadAt(st, c, j);
      var s :| s in st.log && Precedes(st.log[s], c[j], c[After(j, |c|)]);
      PrecedesStays(st.log[s], st'.log[s], c[j], c[After(j, |c|)]);
    }
  }

  /** In the end every lock has been taken by all servers of its list. */
  lemma TakenInTheEnd(run: seq<State>, i: nat, id: LockId, t: int)
    requires IsRun(run) && i < |run| && Quiet(run[i]) && id in run[i].started && t in run[i].started[id].servs
    ensures t in run[i].log && id in run[i].log[t]
  {
    RunKeeps(run, i);
    Progress(run, i);
    OnePlace(run, i, id);
    var servs := run[i].started[id].servs;
    assert servs[..|servs|] == servs;
    assert Known(run[i], id);
  }

  /** Locks whose lists all name one server are never in a circle, in any state of any
      run: what is a circle now would still be one when that server has taken them all. */
  lemma NeverCircle(run: seq<State>, i: nat, t: int, c: seq<LockId>)
    requires IsRun(run) && i < |run|
    requires forall k :: 0 <= k < |c| ==> c[k] in run[i].started && t in run[i].started[c[k]].servs
    ensures !Circle(run[i], c)
  {
    if Circle(run[i], c) {
      var longer := Finish(run);
      var last := |longer| - 1;
      RunGrew(longer, i, last);
      assert longer[i] == run[i];
      CircleStays(run[i], longer[last], c);
      assert forall k :: 0 <= k < |c| ==> c[k] in longer[last].started && t in longer[last].started[c[k]].servs;
      forall k | 0 <= k < |c| ensures t in longer[last].log && c[k] in longer[last].log[t] {
        TakenInTheEnd(longer, last, c[k], t);
      }
      assert c[0] in c;
      RunKeeps(longer, last);
      NoCircle(longer[last], t, c);
    }
  }

  // ---- What the lists of servers allow -------------------------------------------------------

  /** Lock c[j] and the next one both visit server s[j]. */
  ghost predicate MeetAt(reqs: seq<Request>, c: seq<LockId>, s: seq<int>, j: int) {
    && 0 <= j < |c| && |s| == |c|
    && Visits(reqs, c[j], s[j]) && Visits(reqs, c[After(j, |c|)], s[j])
  }

  /** Different locks, each of which meets the next one at some server, not all at the same. */
  ghost predicate Ring(reqs: seq<Request>, c: seq<LockId>, s: seq<int>) {
    && NoDup(c) && |s| == |c|
    && (forall j :: 0 <= j < |c| ==> MeetAt(reqs, c, s, j))
    && exists j :: 0 <= j < |c| && s[j] != s[0]
  }

  ghost predicate Made(st: State, reqs: seq<Request>) {
    forall i :: 0 <= i < |reqs| ==> reqs[i].id in st.started && st.started[reqs[i].id] == reqs[i]
  }

  /** State i of the run has these requests, among others perhaps, and c goes round. */
  ghost predicate GoRound(reqs: seq<Request>, run: seq<State>, i: int, c: seq<LockId>) {
    && IsRun(run) && 0 <= i < |run| && Made(run[i], reqs)
    && Circle(run[i], c) && forall j :: 0 <= j < |c| ==> Among(reqs, c[j])
  }

  // ---- A circle needs a ring ------------------------------------------------------------------

  /** Every circle holds one in which no lock comes twice. */
  lemma {:induction false} Shortest(st: State, c: seq<LockId>) returns (d: seq<LockId>)
    requires Circle(st, c)
    ensures Circle(st, d) && NoDup(d) && forall j :: 0 <= j < |d| ==> d[j] in c
    decreases |c|
  {
    if NoDup(c) {
      d := c;
    } else {
      var x, y :| 0 <= x < y < |c| && c[x] == c[y];
      d := c[x..y];
      forall j | 0 <= j < |d| ensures AheadAt(st, d, j) {
        assert AheadAt(st, c, x + j);
      }
      d := Shortest(st, d);
    }
  }

  ghost function WhereAhead(st: State, a: LockId, b: LockId): (s: int)
    requires Ahead(st, a, b)
    ensures s in st.log && Precedes(st.log[s], a, b)
  {
    var s :| s in st.log && Precedes(st.log[s], a, b);
    s
  }

  lemma TakenVisits(st: State, reqs: seq<Request>, id: LockId, s: int)
    requires InvLog(st) && Made(st, reqs) && Among(reqs, id) && s in st.log && id in st.log[s]
    ensures Visits(reqs, id, s)
  {
    assert TakenAt(st, id, s);
  }

  /** At server s[j] lock d[j] has been taken before the next one. */
  ghost predicate OrderedAt(st: State, d: seq<LockId>, s: seq<int>, j: int) {
    0 <= j < |d| == |s| && s[j] in st.log && Precedes(st.log[s[j]], d[j], d[After(j, |d|)])
  }

  lemma ChooseServers(st: State, d: seq<LockId>) returns (s: seq<int>)
    requires Circle(st, d)
    ensures |s| == |d| && forall j :: 0 <= j < |d| ==> OrderedAt(st, d, s, j)
  {
    s := seq(|d|, j requires 0 <= j < |d| && AheadAt(st, d, j) => WhereAhead(st, d[j], d[After(j, |d|)]));
  }

  lemma OrderedMeet(st: State, reqs: seq<Request>, d: seq<LockId>, s: seq<int>, j: nat)
    requires InvLog(st) && Made(st, reqs) && OrderedAt(st, d, s, j)
    requires Among(reqs, d[j]) && Among(reqs, d[After(j, |d|)])
    ensures MeetAt(reqs, d, s, j)
  {
    TakenVisits(st, reqs, d[j], s[j]);
    TakenVisits(st, reqs, d[After(j, |d|)], s[j]);
  }

  lemma NotAllAtOne(st: State, d: seq<LockId>, s: seq<int>)
    requires InvBase(st) && InvLog(st) && InvOrder(st) && Circle(st, d)
    requires |s| == |d| && forall j :: 0 <= j < |d| ==> OrderedAt(st, d, s, j)
    ensures exists j :: 0 <= j < |d| && s[j] != s[0]
  {
    if forall j :: 0 <= j < |d| ==> s[j] == s[0] {
      assert OrderedAt(st, d, s, 0);
      forall j | 0 <= j < |d| ensures d[j] in st.log[s[0]] {
        assert OrderedAt(st, d, s, j);
      }
      NoCircle(st, s[0], d);
    }
  }

  /** Whatever the lists: locks that some run takes in a circle hold a ring. */
  lemma NeedsRing(reqs: seq<Request>, run: seq<State>, i: int, c: seq<LockId>) returns (d: seq<LockId>, s: seq<int>)
    requires GoRound(reqs, run, i, c)
    ensures Ring(reqs, d, s)
  {
    var st := run[i];
    RunKeeps(run, i);
    d := Shortest(st, c);
    s := ChooseServers(st, d);
    forall j | 0 <= j < |d| ensures MeetAt(reqs, d, s, j) {
      OrderedMeet(st, reqs, d, s, j);
    }
    NotAllAtOne(st, d, s);
  }

  // ---- A ring can go round ----------------------------------------------------------------------

  /** The locks of xs that visit server u, without those in skip. */
  ghost function Visitors(reqs: seq<Request>, u: int, xs: seq<LockId>, skip: seq<LockId>): (r: seq<LockId>)
    ensures forall x :: x in r <==> x in xs && Visits(reqs, x, u) && x !in skip
  {
    if xs == [] then []
    else
      var rest := Visitors(reqs, u, xs[1..], skip);
      if Visits(reqs, xs[0], u) && xs[0] !in skip then [xs[0]] + rest else rest
  }

  lemma {:induction false} VisitorsNoDup(reqs: seq<Request>, u: int, xs: seq<LockId>, skip: seq<LockId>)
    requires NoDup(xs)
    ensures NoDup(Visitors(reqs, u, xs, skip))
  {
    if xs != [] {
      VisitorsNoDup(reqs, u, xs[1..], skip);
      assert xs[0] !in xs[1..];
    }
  }

  lemma PrecedesFirst<T>(xs: seq<T>, a: T, b: T)
    requires b in xs
    ensures Precedes([a] + xs, a, b)
  {
    var k :| 0 <= k < |xs| && xs[k] == b;
    assert ([a] + xs)[0] == a && ([a] + xs)[k + 1] == b;
  }

  lemma PrecedesBehind<T>(xs: seq<T>, x: T, a: T, b: T)
    requires Precedes(xs, a, b)
    ensures Precedes([x] + xs, a, b)
  {
    var p, q :| 0 <= p < q < |xs| && xs[p] == a && xs[q] == b;
    assert ([x] + xs)[p + 1] == a && ([x] + xs)[q + 1] == b;
  }

  lemma {:induction false} VisitorsKeepOrder(reqs: seq<Request>, u: int, xs: seq<LockId>, a: LockId, b: LockId)
    requires Precedes(xs, a, b) && Visits(reqs, a, u) && Visits(reqs, b, u)
    ensures Precedes(Visitors(reqs, u, xs, []), a, b)
  {
    var rest := Visitors(reqs, u, xs[1..], []);
    var p, q :| 0 <= p < q < |xs| && xs[p] == a && xs[q] == b;
    if p == 0 {
      assert xs[1..][q - 1] == b;
      PrecedesFirst(rest, a, b);
    } else {
      assert xs[1..][p - 1] == a && xs[1..][q - 1] == b;
      VisitorsKeepOrder(reqs, u, xs[1..], a, b);
      PrecedesBehind(rest, xs[0], a, b);
    }
  }

  function AllIds(reqs: seq<Request>): seq<LockId> {
    seq(|reqs|, i requires 0 <= i < |reqs| => reqs[i].id)
  }

  /** The circle, begun behind lock k. */
  function Begun<T>(c: seq<T>, k: nat): seq<T>
    requires k < |c|
  {
    c[k + 1..] + c[..k + 1]
  }

  /** Begun behind lock k, every other lock stands before the one that follows it. */
  lemma BegunInOrder<T>(c: seq<T>, k: nat, j: nat)
    requires k < |c| && j < |c| && j != k
    ensures Precedes(Begun(c, k), c[j], c[After(j, |c|)])
  {
    var b, n := Begun(c, k), |c|;
    if j < k {
      assert b[j + n - k - 1] == c[j] && b[j + n - k] == c[j + 1];
    } else {
      assert b[j - k - 1] == c[j] && b[j - k] == c[After(j, n)];
    }
  }

  lemma BegunSame<T>(c: seq<T>, k: nat)
    requires k < |c| && NoDup(c)
    ensures NoDup(Begun(c, k)) && forall x :: x in Begun(c, k) <==> x in c
  {
    assert c == c[..k + 1] + c[k + 1..];
  }

  /** A place of the ring whose meeting is not at server u. */
  ghost function Elsewhere(c: seq<LockId>, s: seq<int>, u: int): (k: nat)
    requires |s| == |c| && exists j :: 0 <= j < |c| && s[j] != s[0]
    ensures k < |c| && s[k] != u
  {
    if s[0] != u then 0 else var j :| 0 <= j < |c| && s[j] != s[0]; j
  }

  /** At server u: the locks of the circle first, begun behind one that does not meet the
      next here, then the other visitors. */
  ghost function RingOrder(reqs: seq<Request>, c: seq<LockId>, s: seq<int>, u: int): seq<LockId>
    requires |s| == |c| && exists j :: 0 <= j < |c| && s[j] != s[0]
  {
    Visitors(reqs, u, Begun(c, Elsewhere(c, s, u)), []) + Visitors(reqs, u, AllIds(reqs), c)
  }

  lemma AllIdsNoDup(reqs: seq<Request>)
    requires Family(reqs)
    ensures NoDup(AllIds(reqs))
  {
  }

  lemma NoDupJoin<T>(xs: seq<T>, ys: seq<T>)
    requires NoDup(xs) && NoDup(ys) && forall x :: x in xs ==> x !in ys
    ensures NoDup(xs + ys)
  {
    forall i, j | 0 <= i < j < |xs + ys| ensures (xs + ys)[i] != (xs + ys)[j] {
      if i < |xs| <= j {
        assert xs[i] in xs && ys[j - |xs|] in ys;
      }
    }
  }

  lemma RingOrderOk(reqs: seq<Request>, c: seq<LockId>, s: seq<int>, u: int)
    requires Family(reqs) && Ring(reqs, c, s)
    ensures OrderAt(reqs, u, RingOrder(reqs, c, s, u))
  {
    var k := Elsewhere(c, s, u);
    var first, others := Visitors(reqs, u, Begun(c, k), []), Visitors(reqs, u, AllIds(reqs), c);
    BegunSame(c, k);
    VisitorsNoDup(reqs, u, Begun(c, k), []);
    AllIdsNoDup(reqs);
    VisitorsNoDup(reqs, u, AllIds(reqs), c);
    NoDupJoin(first, others);
    forall id ensures id in first || id in others <==> Visits(reqs, id, u) {
      VisitorsNamed(reqs, id, u);
    }
    OrderOfBoth(reqs, u, first, others);
  }

  lemma OrderOfBoth(reqs: seq<Request>, u: int, first: seq<LockId>, others: seq<LockId>)
    requires NoDup(first + others) && forall id :: id in first || id in others <==> Visits(reqs, id, u)
    ensures OrderAt(reqs, u, first + others)
  {
  }

  lemma VisitorsNamed(reqs: seq<Request>, id: LockId, u: int)
    ensures Visits(reqs, id, u) ==> id in AllIds(reqs)
  {
    if Visits(reqs, id, u) {
      var i :| 0 <= i < |reqs| && reqs[i].id == id && u in reqs[i].servs;
      assert AllIds(reqs)[i] == id;
    }
  }

  lemma PrecedesLonger<T>(xs: seq<T>, ys: seq<T>, a: T, b: T)
    requires Precedes(xs, a, b)
    ensures Precedes(xs + ys, a, b)
  {
    var p, q :| 0 <= p < q < |xs| && xs[p] == a && xs[q] == b;
    assert (xs + ys)[p] == a && (xs + ys)[q] == b;
  }

  lemma RingOrderGoes(reqs: seq<Request>, c: seq<LockId>, s: seq<int>, j: nat)
    requires Ring(reqs, c, s) && j < |c|
    ensures Precedes(RingOrder(reqs, c, s, s[j]), c[j], c[After(j, |c|)])
  {
    var u := s[j];
    var k := Elsewhere(c, s, u);
    assert MeetAt(reqs, c, s, j);
    BegunInOrder(c, k, j);
    VisitorsKeepOrder(reqs, u, Begun(c, k), c[j], c[After(j, |c|)]);
    PrecedesLonger(Visitors(reqs, u, Begun(c, k), []), Visitors(reqs, u, AllIds(reqs), c), c[j], c[After(j, |c|)]);
  }

  ghost predicate RingOrders(reqs: seq<Request>, c: seq<LockId>, s: seq<int>, lo: int, hi: int, order: map<int, seq<LockId>>) {
    && Ring(reqs, c, s)
    && forall u :: lo <= u < hi ==> u in order && order[u] == RingOrder(reqs, c, s, u)
  }

  lemma ChooseOrders(reqs: seq<Request>, c: seq<LockId>, s: seq<int>, lo: int, hi: int) returns (order: map<int, seq<LockId>>)
    requires Family(reqs) && Ring(reqs, c, s)
    ensures RingOrders(reqs, c, s, lo, hi, order) && Orders(reqs, lo, hi, order)
  {
    order := map u | lo <= u < hi :: RingOrder(reqs, c, s, u);
    forall u | lo <= u < hi ensures u in order && OrderAt(reqs, u, order[u]) {
      RingOrderOk(reqs, c, s, u);
    }
  }

  lemma OrderedAhead(st: State, reqs: seq<Request>, c: seq<LockId>, s: seq<int>, lo: int, hi: int,
                     order: map<int, seq<LockId>>, j: nat)
    requires RingOrders(reqs, c, s, lo, hi, order) && Ordered(st, lo, hi, order) && Within(reqs, lo, hi) && j < |c|
    ensures AheadAt(st, c, j) && Among(reqs, c[j])
  {
    assert MeetAt(reqs, c, s, j);
    RingOrderGoes(reqs, c, s, j);
    assert lo <= s[j] < hi;
    assert s[j] in st.log && Precedes(st.log[s[j]], c[j], c[After(j, |c|)]);
  }

  /** Some run takes the locks of a ring in a circle. */
  lemma RingGoesRound(reqs: seq<Request>, c: seq<LockId>, s: seq<int>) returns (run: seq<State>)
    requires Family(reqs) && Ring(reqs, c, s)
    ensures run != [] && GoRound(reqs, run, |run| - 1, c)
  {
    var lo, hi := Bounds(reqs);
    var order := ChooseOrders(reqs, c, s, lo, hi);
    run := AnyOrder(reqs, lo, hi, order);
    forall j | 0 <= j < |c| ensures AheadAt(run[|run| - 1], c, j) && Among(reqs, c[j]) {
      OrderedAhead(run[|run| - 1], reqs, c, s, lo, hi, order, j);
    }
  }

  // ---- Exactly when -----------------------------------------------------------------------------

  /** Locks of which each two share at most one server are taken in a circle by some run
      exactly if their lists of servers hold a ring. */
  lemma CircleIffRing(reqs: seq<Request>)
    requires Family(reqs)
    ensures (exists run, i, c :: GoRound(reqs, run, i, c)) <==> (exists c, s :: Ring(reqs, c, s))
  {
    if run, i, c :| GoRound(reqs, run, i, c) {
      var d, s := NeedsRing(reqs, run, i, c);
    }
    if c, s :| Ring(reqs, c, s) {
      var run := RingGoesRound(reqs, c, s);
      assert GoRound(reqs, run, |run| - 1, c);
    }
  }

  ghost predicate AllVisit(reqs: seq<Request>, u: int) {
    forall i :: 0 <= i < |reqs| ==> u in reqs[i].servs
  }

  /** Locks that all visit one server hold no ring. */
  lemma NoRing(reqs: seq<Request>, u: int, c: seq<LockId>, s: seq<int>)
    requires Family(reqs) && AllVisit(reqs, u)
    ensures !Ring(reqs, c, s)
  {
    if Ring(reqs, c, s) {
      forall j | 0 <= j < |c| ensures s[j] == u {
        OnlyThere(reqs, u, c, s, j);
      }
    }
  }

  lemma OnlyThere(reqs: seq<Request>, u: int, c: seq<LockId>, s: seq<int>, j: nat)
    requires Family(reqs) && AllVisit(reqs, u) && Ring(reqs, c, s) && j < |c|
    ensures s[j] == u
  {
    var k := After(j, |c|);
    assert MeetAt(reqs, c, s, j);
    var x :| 0 <= x < |reqs| && reqs[x].id == c[j] && s[j] in reqs[x].servs;
    var y :| 0 <= y < |reqs| && reqs[y].id == c[k] && s[j] in reqs[y].servs;
    assert c[j] != c[k];
    Related(reqs, x, y);
  }

  ghost predicate Meet(a: Request, b: Request) {
    exists u :: u in a.servs && u in b.servs
  }

  /** Three locks of which each two share exactly one server: some run takes them in a
      circle exactly if no server is common to all three. */
  lemma CircularOrder(reqs: seq<Request>)
    requires Family(reqs) && |reqs| == 3
    requires Meet(reqs[0], reqs[1]) && Meet(reqs[1], reqs[2]) && Meet(reqs[0], reqs[2])
    ensures (exists run, i, c :: GoRound(reqs, run, i, c)) <==> !exists u :: AllVisit(reqs, u)
  {
    CircleIffRing(reqs);
    if u :| AllVisit(reqs, u) {
      forall c, s ensures !Ring(reqs, c, s) {
        NoRing(reqs, u, c, s);
      }
    } else {
      var u :| u in reqs[0].servs && u in reqs[1].servs;
      var v :| v in reqs[1].servs && v in reqs[2].servs;
      var w :| w in reqs[0].servs && w in reqs[2].servs;
      ThreeRing(reqs, u, v, w);
    }
  }

  lemma ThreeRing(reqs: seq<Request>, u: int, v: int, w: int)
    requires Family(reqs) && |reqs| == 3 && !AllVisit(reqs, u)
    requires u in reqs[0].servs && u in reqs[1].servs && v in reqs[1].servs && v in reqs[2].servs
    requires w in reqs[0].servs && w in reqs[2].servs
    ensures Ring(reqs, [reqs[0].id, reqs[1].id, reqs[2].id], [u, v, w])
  {
    var c, s := [reqs[0].id, reqs[1].id, reqs[2].id], [u, v, w];
    assert s[1] != s[0];
    assert MeetAt(reqs, c, s, 0) && MeetAt(reqs, c, s, 1) && MeetAt(reqs, c, s, 2);
  }
}
