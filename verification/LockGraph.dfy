/** Exactly which orders locks can be taken in, whatever their lists of servers: those in
    which no hop would have to wait for itself. */
module LockGraph {
  import opened Graphs
  import opened LockCycle
  import opened LockProtocol
  import opened LockRequests
  import opened LockSchedules
  import opened LockServer
  import opened LockTheorems
  import opened Seqs

  ghost predicate Share(reqs: seq<Request>, a: LockId, b: LockId) {
    exists u :: BothVisit(reqs, a, b, u)
  }

  /** For each two locks that share a server, which of them goes first. */
  ghost predicate Choice(reqs: seq<Request>, ahead: set<(LockId, LockId)>) {
    && (forall p :: p in ahead ==> p.0 != p.1 && Share(reqs, p.0, p.1))
    && (forall a, b :: a != b && Share(reqs, a, b) ==> ((a, b) in ahead <==> (b, a) !in ahead))
  }

  /** Where lock a must have been before b may be taken at s: the next server they share,
      or s itself if there is none. */
  ghost predicate Gate(reqs: seq<Request>, a: LockId, b: LockId, s: int, t: int) {
    || NextShared(reqs, a, b, s, t)
    || (t == s && forall u :: s < u ==> !BothVisit(reqs, a, b, u))
  }

  /** Hop e comes before hop f: along one list, or because f waits for it. */
  ghost predicate Before(reqs: seq<Request>, ahead: set<(LockId, LockId)>, e: Event, f: Event) {
    || (e.id == f.id && e.serv < f.serv)
    || ((e.id, f.id) in ahead && BothVisit(reqs, e.id, f.id, f.serv) && Gate(reqs, e.id, f.id, f.serv, e.serv))
  }

  ghost function AllHops(reqs: seq<Request>): set<Event> {
    set i, u | 0 <= i < |reqs| && u in reqs[i].servs :: Event(reqs[i].id, u)
  }

  lemma AllHopsVisit(reqs: seq<Request>, e: Event)
    ensures e in AllHops(reqs) <==> Visits(reqs, e.id, e.serv)
  {
  }

  ghost function Edges(reqs: seq<Request>, ahead: set<(LockId, LockId)>): set<(Event, Event)> {
    set e, f | e in AllHops(reqs) && f in AllHops(reqs) && Before(reqs, ahead, e, f) :: (e, f)
  }

  /** The first of each chosen pair has been taken before the second somewhere. */
  ghost predicate Follows(st: State, ahead: set<(LockId, LockId)>) {
    forall p :: p in ahead ==> Ahead(st, p.0, p.1)
  }

  /** State i of the run has these requests, among others perhaps, in this order. */
  ghost predicate TakenSo(reqs: seq<Request>, ahead: set<(LockId, LockId)>, run: seq<State>, i: int) {
    IsRun(run) && 0 <= i < |run| && Made(run[i], reqs) && Follows(run[i], ahead)
  }

  // ---- Without a cycle there is a run ---------------------------------------------------------

  lemma {:induction false} NextSharedUpTo(reqs: seq<Request>, a: LockId, b: LockId, s: int, u: int) returns (t: int)
    requires s < u && BothVisit(reqs, a, b, u)
    ensures NextShared(reqs, a, b, s, t)
    decreases u - s
  {
    if v :| s < v < u && BothVisit(reqs, a, b, v) {
      t := NextSharedUpTo(reqs, a, b, s, v);
    } else {
      t := u;
    }
  }

  lemma SomeGate(reqs: seq<Request>, a: LockId, b: LockId, s: int) returns (t: int)
    requires BothVisit(reqs, a, b, s)
    ensures Gate(reqs, a, b, s, t) && s <= t && BothVisit(reqs, a, b, t)
  {
    if u :| s < u && BothVisit(reqs, a, b, u) {
      t := NextSharedUpTo(reqs, a, b, s, u);
    } else {
      t := s;
    }
  }

  ghost predicate InOrder(reqs: seq<Request>, ahead: set<(LockId, LockId)>, order: seq<Event>) {
    Sorted(order, AllHops(reqs), Edges(reqs, ahead))
  }

  lemma OrderedBefore(reqs: seq<Request>, ahead: set<(LockId, LockId)>, order: seq<Event>, e: Event, f: Event)
    requires InOrder(reqs, ahead, order) && Before(reqs, ahead, e, f)
    requires Visits(reqs, e.id, e.serv) && Visits(reqs, f.id, f.serv)
    ensures Precedes(order, e, f)
  {
    AllHopsVisit(reqs, e);
    AllHopsVisit(reqs, f);
    assert (e, f) in Edges(reqs, ahead);
  }

  /** Whoever goes first goes first at every server. */
  lemma FirstEverywhere(reqs: seq<Request>, ahead: set<(LockId, LockId)>, order: seq<Event>, a: LockId, b: LockId, s: int)
    requires InOrder(reqs, ahead, order) && (a, b) in ahead && BothVisit(reqs, a, b, s)
    ensures Precedes(order, Event(a, s), Event(b, s))
  {
    var t := SomeGate(reqs, a, b, s);
    OrderedBefore(reqs, ahead, order, Event(a, t), Event(b, s));
    if s < t {
      OrderedBefore(reqs, ahead, order, Event(a, s), Event(a, t));
      PrecedesJoins(order, Event(a, s), Event(a, t), Event(b, s));
    }
  }

  lemma NotTooEarly(reqs: seq<Request>, ahead: set<(LockId, LockId)>, order: seq<Event>, a: LockId, b: LockId, s: int, t: int)
    requires InOrder(reqs, ahead, order) && Choice(reqs, ahead) && a != b
    requires Precedes(order, Event(a, s), Event(b, s)) && NextShared(reqs, a, b, s, t)
    ensures Precedes(order, Event(a, t), Event(b, s))
  {
    AllHopsVisit(reqs, Event(a, s));
    AllHopsVisit(reqs, Event(b, s));
    assert BothVisit(reqs, a, b, s) && BothVisit(reqs, b, a, s);
    assert Share(reqs, a, b);
    if (b, a) in ahead {
      FirstEverywhere(reqs, ahead, order, b, a, s);
      PrecedesOneWay(order, Event(b, s), Event(a, s));
    }
    OrderedBefore(reqs, ahead, order, Event(a, t), Event(b, s));
  }

  lemma SortedSchedule(reqs: seq<Request>, ahead: set<(LockId, LockId)>, order: seq<Event>)
    requires InOrder(reqs, ahead, order) && Choice(reqs, ahead)
    ensures Schedule(reqs, order)
  {
    forall e ensures e in order <==> Visits(reqs, e.id, e.serv) {
      AllHopsVisit(reqs, e);
    }
    forall id, u, v | u < v && Visits(reqs, id, u) && Visits(reqs, id, v)
      ensures Precedes(order, Event(id, u), Event(id, v))
    {
      OrderedBefore(reqs, ahead, order, Event(id, u), Event(id, v));
    }
    forall a, b, s, t | a != b && Precedes(order, Event(a, s), Event(b, s)) && NextShared(reqs, a, b, s, t)
      ensures Precedes(order, Event(a, t), Event(b, s))
    {
      NotTooEarly(reqs, ahead, order, a, b, s, t);
    }
  }

  /** If no hop has to wait for itself, some run takes all locks in the chosen order. */
  lemma RunOfChoice(reqs: seq<Request>, ahead: set<(LockId, LockId)>) returns (run: seq<State>)
    requires Askable(reqs) && Choice(reqs, ahead) && Acyclic(Edges(reqs, ahead))
    ensures run != [] && TakenSo(reqs, ahead, run, |run| - 1)
  {
    var order := Sort(AllHops(reqs), Edges(reqs, ahead));
    SortedSchedule(reqs, ahead, order);
    run := RunSchedule(reqs, order);
    forall p | p in ahead ensures Ahead(run[|run| - 1], p.0, p.1) {
      var u :| BothVisit(reqs, p.0, p.1, u);
      FirstEverywhere(reqs, ahead, order, p.0, p.1, u);
      assert Event(p.0, u) in order;
    }
  }

  // ---- With a cycle there is none ----------------------------------------------------------------

  /** In the end each pair has been taken in its order wherever both go. */
  ghost predicate EndOrder(st: State, reqs: seq<Request>, ahead: set<(LockId, LockId)>) {
    forall a, b, s :: (a, b) in ahead && BothVisit(reqs, a, b, s) ==> s in st.log && Precedes(st.log[s], a, b)
  }

  lemma MadeVisits(st: State, reqs: seq<Request>, id: LockId, u: int)
    requires Made(st, reqs) && Visits(reqs, id, u)
    ensures id in st.started && u in st.started[id].servs
  {
  }

  lemma VisitedMade(st: State, reqs: seq<Request>, id: LockId, u: int)
    requires Made(st, reqs) && Among(reqs, id) && id in st.started && u in st.started[id].servs
    ensures Visits(reqs, id, u)
  {
  }

  lemma EndsInOrder(run: seq<State>, reqs: seq<Request>, ahead: set<(LockId, LockId)>)
    requires IsRun(run) && Quiet(run[|run| - 1]) && Made(run[|run| - 1], reqs) && Follows(run[|run| - 1], ahead)
    ensures EndOrder(run[|run| - 1], reqs, ahead)
  {
    var st, last := run[|run| - 1], |run| - 1;
    forall a, b, s | (a, b) in ahead && BothVisit(reqs, a, b, s) ensures s in st.log && Precedes(st.log[s], a, b) {
      assert Ahead(st, (a, b).0, (a, b).1);
      var u :| u in st.log && Precedes(st.log[u], a, b);
      MadeVisits(st, reqs, a, s);
      MadeVisits(st, reqs, b, s);
      TakenInTheEnd(run, last, a, s);
      TakenInTheEnd(run, last, b, s);
      OrderAgreement(run, last, a, b, u, s);
    }
  }

  /** What comes before b in the end came before it from the start. */
  lemma PrefixOrder<T>(xs: seq<T>, ys: seq<T>, a: T, b: T)
    requires xs <= ys && NoDup(ys) && Precedes(ys, a, b) && b in xs
    ensures Precedes(xs, a, b)
  {
    var p, q :| 0 <= p < q < |ys| && ys[p] == a && ys[q] == b;
    var r :| 0 <= r < |xs| && xs[r] == b;
    assert ys[r] == b && r == q;
    assert xs[p] == a;
  }

  ghost predicate TakenEvent(st: State, e: Event) {
    TakenAt(st, e.id, e.serv)
  }

  lemma HopBefore(st: State, end: State, reqs: seq<Request>, e: Event, f: Event)
    requires InvBase(st) && Grew(st, end) && Made(end, reqs) && TakenEvent(st, f)
    requires e.id == f.id && e.serv < f.serv && Visits(reqs, e.id, e.serv)
    ensures TakenEvent(st, e)
  {
    MadeVisits(end, reqs, e.id, e.serv);
    TakenInOrder(st, e.id, e.serv, f.serv);
  }

  /** A hop that another waits for has been made before it, at every moment. */
  lemma GateBefore(st: State, end: State, reqs: seq<Request>, a: LockId, b: LockId, s: int, t: int)
    requires InvBase(st) && InvLog(st) && InvOrder(st) && Grew(st, end) && Made(end, reqs)
    requires BothVisit(reqs, a, b, s) && Gate(reqs, a, b, s, t) && TakenAt(st, b, s)
    requires s in end.log && NoDup(end.log[s]) && Precedes(end.log[s], a, b)
    ensures TakenAt(st, a, t)
  {
    assert s in st.log && b in st.log[s];
    PrefixOrder(st.log[s], end.log[s], a, b);
    assert a in st.log[s] && TakenAt(st, a, s);
    if t != s {
      GateCommon(st, end, reqs, a, b, s, t);
      assert Known(st, a);
    }
  }

  lemma GateCommon(st: State, end: State, reqs: seq<Request>, a: LockId, b: LockId, s: int, t: int)
    requires Grew(st, end) && Made(end, reqs) && a in st.started && b in st.started
    requires NextShared(reqs, a, b, s, t)
    ensures NextCommon(st, a, b, s, t)
  {
    MadeVisits(end, reqs, a, t);
    MadeVisits(end, reqs, b, t);
    forall u | s < u < t ensures !Common(st, a, b, u) {
      if Common(st, a, b, u) {
        VisitedMade(end, reqs, a, u);
        VisitedMade(end, reqs, b, u);
        assert BothVisit(reqs, a, b, u);
      }
    }
  }

  /** st is a moment of a run whose end is known. */
  ghost predicate Looks(st: State, end: State, reqs: seq<Request>, ahead: set<(LockId, LockId)>) {
    && InvBase(st) && InvLog(st) && InvOrder(st) && Grew(st, end)
    && Made(end, reqs) && InvLog(end) && EndOrder(end, reqs, ahead)
  }

  lemma EdgeBefore(st: State, end: State, reqs: seq<Request>, ahead: set<(LockId, LockId)>, e: Event, f: Event)
    requires Looks(st, end, reqs, ahead) && (e, f) in Edges(reqs, ahead) && TakenEvent(st, f)
    ensures TakenEvent(st, e)
  {
    AllHopsVisit(reqs, e);
    if e.id == f.id && e.serv < f.serv {
      HopBefore(st, end, reqs, e, f);
    } else {
      GateBefore(st, end, reqs, e.id, f.id, f.serv, e.serv);
    }
  }

  ghost predicate AllTaken(st: State, c: seq<Event>) {
    forall j :: 0 <= j < |c| ==> TakenEvent(st, c[j])
  }

  lemma {:induction false} TakenDown(st: State, end: State, reqs: seq<Request>, ahead: set<(LockId, LockId)>, c: seq<Event>, j: nat)
    requires Looks(st, end, reqs, ahead) && Cycle(Edges(reqs, ahead), c) && j < |c| && TakenEvent(st, c[j])
    ensures forall i :: 0 <= i <= j ==> TakenEvent(st, c[i])
  {
    if j > 0 {
      assert EdgeAt(Edges(reqs, ahead), c, j - 1);
      EdgeBefore(st, end, reqs, ahead, c[j - 1], c[j]);
      TakenDown(st, end, reqs, ahead, c, j - 1);
    }
  }

  /** At every moment all the hops of a cycle have been made, or none. */
  lemma AllOrNone(st: State, end: State, reqs: seq<Request>, ahead: set<(LockId, LockId)>, c: seq<Event>, j: nat)
    requires Looks(st, end, reqs, ahead) && Cycle(Edges(reqs, ahead), c) && j < |c| && TakenEvent(st, c[j])
    ensures AllTaken(st, c)
  {
    var last := |c| - 1;
    TakenDown(st, end, reqs, ahead, c, j);
    assert EdgeAt(Edges(reqs, ahead), c, last);
    EdgeBefore(st, end, reqs, ahead, c[last], c[0]);
    TakenDown(st, end, reqs, ahead, c, last);
  }

  lemma {:induction false} FirstTime(run: seq<State>, c: seq<Event>, i: nat) returns (k: nat)
    requires i < |run| && AllTaken(run[i], c) && !AllTaken(run[0], c)
    ensures 0 < k <= i && !AllTaken(run[k - 1], c) && AllTaken(run[k], c)
  {
    if AllTaken(run[i - 1], c) {
      k := FirstTime(run, c, i - 1);
    } else {
      k := i;
    }
  }

  /** Only one server takes locks in one step. */
  lemma OneServer(st: State, st': State) returns (s: int)
    requires Next(st, st')
    ensures forall u :: u in st'.log && u != s ==> u in st.log && st'.log[u] == st.log[u]
  {
    if req :| StartStep(st, st', req) {
      s := 0;
    } else {
      var m :| DeliverStep(st, st', m);
      s := m.dest;
    }
  }

  lemma NewlyTaken(st: State, st': State, s: int, e: Event)
    requires InvLog(st) && InvLog(st') && !TakenEvent(st, e) && TakenEvent(st', e) && e.serv in st'.log
    requires forall u :: u in st'.log && u != s ==> u in st.log && st'.log[u] == st.log[u]
    ensures e.serv == s
  {
  }

  ghost predicate AllAt(c: seq<Event>, s: int) {
    forall j :: 0 <= j < |c| ==> c[j].serv == s
  }

  lemma EdgeHere(end: State, reqs: seq<Request>, ahead: set<(LockId, LockId)>, c: seq<Event>, s: int, j: nat)
    requires EndOrder(end, reqs, ahead) && Cycle(Edges(reqs, ahead), c) && AllAt(c, s) && j < |c|
    ensures s in end.log && Precedes(end.log[s], c[j].id, c[After(j, |c|)].id)
  {
    assert EdgeAt(Edges(reqs, ahead), c, j);
    assert c[After(j, |c|)].serv == s;
  }

  /** Hops at one server do not wait for each other in turn. */
  lemma NoCycleAtOne(end: State, reqs: seq<Request>, ahead: set<(LockId, LockId)>, c: seq<Event>, s: int)
    requires InvBase(end) && InvLog(end) && InvOrder(end) && EndOrder(end, reqs, ahead) && Cycle(Edges(reqs, ahead), c)
    ensures !AllAt(c, s)
  {
    if AllAt(c, s) {
      var ids := seq(|c|, j requires 0 <= j < |c| => c[j].id);
      EdgeHere(end, reqs, ahead, c, s, 0);
      forall j | 0 <= j < |c| ensures AheadAt(end, ids, j) && ids[j] in end.log[s] {
        EdgeHere(end, reqs, ahead, c, s, j);
      }
      NoCircle(end, s, ids);
    }
  }

  lemma LooksAt(run: seq<State>, k: nat, reqs: seq<Request>, ahead: set<(LockId, LockId)>)
    requires IsRun(run) && k < |run| && Quiet(run[|run| - 1])
    requires Made(run[|run| - 1], reqs) && Follows(run[|run| - 1], ahead)
    ensures Looks(run[k], run[|run| - 1], reqs, ahead)
  {
    RunKeeps(run, k);
    RunKeeps(run, |run| - 1);
    RunGrew(run, k, |run| - 1);
    EndsInOrder(run, reqs, ahead);
  }

  lemma StepsOnce(run: seq<State>, k: nat) returns (s: int)
    requires IsRun(run) && 0 < k < |run|
    ensures forall u :: u in run[k].log && u != s ==> u in run[k - 1].log && run[k].log[u] == run[k - 1].log[u]
  {
    assert NextAt(run, k);
    s := OneServer(run[k - 1], run[k]);
  }

  /** The step that makes the hops of a cycle makes them at one server. */
  lemma AllAtOnce(run: seq<State>, k: nat, reqs: seq<Request>, ahead: set<(LockId, LockId)>, c: seq<Event>) returns (s: int)
    requires IsRun(run) && 0 < k < |run| && Cycle(Edges(reqs, ahead), c)
    requires Looks(run[k - 1], run[|run| - 1], reqs, ahead) && Looks(run[k], run[|run| - 1], reqs, ahead)
    requires !AllTaken(run[k - 1], c) && AllTaken(run[k], c)
    ensures AllAt(c, s)
  {
    s := StepsOnce(run, k);
    forall j | 0 <= j < |c| ensures c[j].serv == s {
      CycleStep(run, k, reqs, ahead, c, s, j);
    }
  }

  /** If some hop would have to wait for itself, no run ends in the chosen order. */
  lemma EndNeedsOrder(run: seq<State>, reqs: seq<Request>, ahead: set<(LockId, LockId)>, c: seq<Event>)
    requires IsRun(run) && Quiet(run[|run| - 1]) && Made(run[|run| - 1], reqs) && Follows(run[|run| - 1], ahead)
    ensures !Cycle(Edges(reqs, ahead), c)
  {
    if Cycle(Edges(reqs, ahead), c) {
      var last := |run| - 1;
      EndTakesAll(run, reqs, ahead, c);
      assert !TakenEvent(run[0], c[0]);
      var k := FirstTime(run, c, last);
      LooksAt(run, k - 1, reqs, ahead);
      LooksAt(run, k, reqs, ahead);
      var s := AllAtOnce(run, k, reqs, ahead, c);
      LooksAt(run, last, reqs, ahead);
      NoCycleAtOne(run[last], reqs, ahead, c, s);
    }
  }

  lemma CycleStep(run: seq<State>, k: nat, reqs: seq<Request>, ahead: set<(LockId, LockId)>, c: seq<Event>, s: int, j: nat)
    requires 0 < k < |run| && Cycle(Edges(reqs, ahead), c) && j < |c|
    requires Looks(run[k - 1], run[|run| - 1], reqs, ahead) && Looks(run[k], run[|run| - 1], reqs, ahead)
    requires !AllTaken(run[k - 1], c) && AllTaken(run[k], c)
    requires forall u :: u in run[k].log && u != s ==> u in run[k - 1].log && run[k].log[u] == run[k - 1].log[u]
    ensures c[j].serv == s
  {
    if TakenEvent(run[k - 1], c[j]) {
      AllOrNone(run[k - 1], run[|run| - 1], reqs, ahead, c, j);
    }
    assert TakenEvent(run[k], c[j]) && Known(run[k], c[j].id);
    NewlyTaken(run[k - 1], run[k], s, c[j]);
  }

  lemma EndTakes(run: seq<State>, reqs: seq<Request>, e: Event)
    requires IsRun(run) && Quiet(run[|run| - 1]) && Made(run[|run| - 1], reqs) && e in AllHops(reqs)
    ensures TakenEvent(run[|run| - 1], e)
  {
    var last := |run| - 1;
    AllHopsVisit(reqs, e);
    MadeVisits(run[last], reqs, e.id, e.serv);
    TakenInTheEnd(run, last, e.id, e.serv);
    RunKeeps(run, last);
    InLogTaken(run[last], e);
  }

  lemma InLogTaken(st: State, e: Event)
    requires InvLog(st) && e.serv in st.log && e.id in st.log[e.serv]
    ensures TakenEvent(st, e)
  {
  }

  lemma EndTakesAll(run: seq<State>, reqs: seq<Request>, ahead: set<(LockId, LockId)>, c: seq<Event>)
    requires IsRun(run) && Quiet(run[|run| - 1]) && Made(run[|run| - 1], reqs) && Cycle(Edges(reqs, ahead), c)
    ensures AllTaken(run[|run| - 1], c)
  {
    forall j | 0 <= j < |c| ensures TakenEvent(run[|run| - 1], c[j]) {
      assert EdgeAt(Edges(reqs, ahead), c, j);
      EndTakes(run, reqs, c[j]);
    }
  }

  // ---- Exactly when --------------------------------------------------------------------------------

  lemma FinishSo(reqs: seq<Request>, ahead: set<(LockId, LockId)>, run: seq<State>, i: int) returns (longer: seq<State>)
    requires TakenSo(reqs, ahead, run, i)
    ensures IsRun(longer) && Quiet(longer[|longer| - 1])
    ensures Made(longer[|longer| - 1], reqs) && Follows(longer[|longer| - 1], ahead)
  {
    longer := Finish(run);
    var last := |longer| - 1;
    assert longer[i] == run[i];
    RunGrew(longer, i, last);
    forall p | p in ahead ensures Ahead(longer[last], p.0, p.1) {
      var s :| s in run[i].log && Precedes(run[i].log[s], p.0, p.1);
      PrecedesStays(run[i].log[s], longer[last].log[s], p.0, p.1);
    }
  }

  /** Whatever the lists of servers and whichever of each two locks is to go first where
      they meet: some run takes the locks in this order if and only if no hop would have
      to wait for itself. */
  lemma OrderExact(reqs: seq<Request>, ahead: set<(LockId, LockId)>)
    requires Askable(reqs) && Choice(reqs, ahead)
    ensures (exists run, i :: TakenSo(reqs, ahead, run, i)) <==> Acyclic(Edges(reqs, ahead))
  {
    if run, i :| TakenSo(reqs, ahead, run, i) {
      var longer := FinishSo(reqs, ahead, run, i);
      forall c ensures !Cycle(Edges(reqs, ahead), c) {
        EndNeedsOrder(longer, reqs, ahead, c);
      }
    }
    if Acyclic(Edges(reqs, ahead)) {
      var run := RunOfChoice(reqs, ahead);
      assert TakenSo(reqs, ahead, run, |run| - 1);
    }
  }

  // ---- Circles -------------------------------------------------------------------------------------

  lemma AmongIds(reqs: seq<Request>, id: LockId)
    ensures Among(reqs, id) <==> id in AllIds(reqs)
  {
    if Among(reqs, id) {
      var i :| 0 <= i < |reqs| && reqs[i].id == id;
      assert AllIds(reqs)[i] == id;
    }
  }

  /** Which locks have been taken before which. */
  ghost function OrderOf(st: State, reqs: seq<Request>): set<(LockId, LockId)> {
    set a, b | a in AllIds(reqs) && b in AllIds(reqs) && Ahead(st, a, b) :: (a, b)
  }

  lemma AheadOneWay(st: State, a: LockId, b: LockId)
    requires InvBase(st) && InvLog(st) && InvOrder(st) && Ahead(st, a, b)
    ensures a != b && !Ahead(st, b, a)
  {
    var s :| s in st.log && Precedes(st.log[s], a, b);
    PrecedesOneWay(st.log[s], a, b);
    forall t | t in st.log ensures !Precedes(st.log[t], b, a) {
      if Precedes(st.log[t], b, a) {
        OrderAgrees(st, a, b, s, t);
      }
    }
  }

  lemma AheadShare(st: State, reqs: seq<Request>, a: LockId, b: LockId)
    requires InvLog(st) && Made(st, reqs) && Among(reqs, a) && Among(reqs, b) && Ahead(st, a, b)
    ensures Share(reqs, a, b)
  {
    var s :| s in st.log && Precedes(st.log[s], a, b);
    TakenVisits(st, reqs, a, s);
    TakenVisits(st, reqs, b, s);
    assert BothVisit(reqs, a, b, s);
  }

  lemma EndOrders(run: seq<State>, reqs: seq<Request>, a: LockId, b: LockId)
    requires IsRun(run) && Quiet(run[|run| - 1]) && Made(run[|run| - 1], reqs) && a != b && Share(reqs, a, b)
    ensures Ahead(run[|run| - 1], a, b) || Ahead(run[|run| - 1], b, a)
  {
    var st, last := run[|run| - 1], |run| - 1;
    var u :| BothVisit(reqs, a, b, u);
    MadeVisits(st, reqs, a, u);
    MadeVisits(st, reqs, b, u);
    TakenInTheEnd(run, last, a, u);
    TakenInTheEnd(run, last, b, u);
    RunKeeps(run, last);
    OneOrder(st.log[u], a, b);
  }

  /** The order in which a finished run has taken the locks is a choice. */
  lemma EndChooses(run: seq<State>, reqs: seq<Request>)
    requires IsRun(run) && Quiet(run[|run| - 1]) && Made(run[|run| - 1], reqs)
    ensures Choice(reqs, OrderOf(run[|run| - 1], reqs))
  {
    var st := run[|run| - 1];
    RunKeeps(run, |run| - 1);
    forall a, b | (a, b) in OrderOf(st, reqs) ensures a != b && Share(reqs, a, b) && !Ahead(st, b, a) {
      AheadOneWay(st, a, b);
      AmongIds(reqs, a);
      AmongIds(reqs, b);
      AheadShare(st, reqs, a, b);
    }
    forall a, b | a != b && Share(reqs, a, b) ensures (a, b) in OrderOf(st, reqs) || (b, a) in OrderOf(st, reqs) {
      EndOrders(run, reqs, a, b);
      AmongIds(reqs, a);
      AmongIds(reqs, b);
    }
  }

  /** A choice in which c goes round, but no hop waits for itself. */
  ghost predicate CanTurn(reqs: seq<Request>, ahead: set<(LockId, LockId)>, c: seq<LockId>) {
    Choice(reqs, ahead) && Cycle(ahead, c) && Acyclic(Edges(reqs, ahead))
  }

  lemma RoundCanTurn(reqs: seq<Request>, run: seq<State>, i: int, c: seq<LockId>) returns (ahead: set<(LockId, LockId)>)
    requires GoRound(reqs, run, i, c)
    ensures CanTurn(reqs, ahead, c)
  {
    var longer := Finish(run);
    var last := |longer| - 1;
    assert longer[i] == run[i];
    RunGrew(longer, i, last);
    CircleStays(run[i], longer[last], c);
    ahead := OrderOf(longer[last], reqs);
    EndChooses(longer, reqs);
    forall j | 0 <= j < |c| ensures EdgeAt(ahead, c, j) {
      assert AheadAt(longer[last], c, j);
      AmongIds(reqs, c[j]);
      AmongIds(reqs, c[After(j, |c|)]);
    }
    forall d ensures !Cycle(Edges(reqs, ahead), d) {
      EndNeedsOrder(longer, reqs, ahead, d);
    }
  }

  lemma TurnGoesRound(reqs: seq<Request>, ahead: set<(LockId, LockId)>, c: seq<LockId>) returns (run: seq<State>)
    requires Askable(reqs) && CanTurn(reqs, ahead, c)
    ensures run != [] && GoRound(reqs, run, |run| - 1, c)
  {
    run := RunOfChoice(reqs, ahead);
    forall j | 0 <= j < |c| ensures AheadAt(run[|run| - 1], c, j) && Among(reqs, c[j]) {
      assert EdgeAt(ahead, c, j);
      var p := (c[j], c[After(j, |c|)]);
      assert Ahead(run[|run| - 1], p.0, p.1) && Share(reqs, p.0, p.1);
    }
  }

  /** Whatever the lists of servers: some run takes locks in a circle if and only if one can
      choose who goes first where two meet so that the circle closes and no hop waits for
      itself. */
  lemma CircleExact(reqs: seq<Request>)
    requires Askable(reqs)
    ensures (exists run, i, c :: GoRound(reqs, run, i, c)) <==> (exists ahead, c :: CanTurn(reqs, ahead, c))
  {
    if run, i, c :| GoRound(reqs, run, i, c) {
      var ahead := RoundCanTurn(reqs, run, i, c);
    }
    if ahead, c :| CanTurn(reqs, ahead, c) {
      var run := TurnGoesRound(reqs, ahead, c);
      assert GoRound(reqs, run, |run| - 1, c);
    }
  }
}
