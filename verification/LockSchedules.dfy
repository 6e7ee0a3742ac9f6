/** Any schedule in which no lock comes to a server too early is the outcome of some run:
    packets can be held back so that no lock ever waits. */
module LockSchedules {
  import opened LockProtocol
  import opened LockRequests
  import opened LockServer
  import opened LockTheorems
  import opened Seqs

  /** A server takes a lock. */
  datatype Event = Event(id: LockId, serv: int)

  ghost predicate BothVisit(reqs: seq<Request>, a: LockId, b: LockId, u: int) {
    Visits(reqs, a, u) && Visits(reqs, b, u)
  }

  /** t is the first server after s that both locks visit. */
  ghost predicate NextShared(reqs: seq<Request>, a: LockId, b: LockId, s: int, t: int) {
    s < t && BothVisit(reqs, a, b, t) && forall u :: s < u < t ==> !BothVisit(reqs, a, b, u)
  }

  // ---- No conflict ---------------------------------------------------------------------

  /** Whoever has been taken at s has been taken at the next server it shares with id. */
  ghost predicate Ready(st: State, id: LockId, s: int) {
    forall a, t :: a != id && TakenAt(st, a, s) && NextCommon(st, a, id, s, t) ==> TakenAt(st, a, t)
  }

  lemma FirstIsNext(st: State, s: int, o: Lock, l: Lock, i: int, j: int)
    requires WellFormed(o) && WellFormed(l) && FirstCommon(o, l, i, j)
    requires o.req.id in st.started && st.started[o.req.id] == o.req
    requires l.req.id in st.started && st.started[l.req.id] == l.req
    requires o.req.servs[o.nextPos - 1] == s == l.req.servs[l.nextPos - 1]
    ensures NextCommon(st, o.req.id, l.req.id, s, o.req.servs[i])
  {
    var t := o.req.servs[i];
    assert o.req.servs[i] in o.req.servs && l.req.servs[j] in l.req.servs;
    forall u | s < u && Common(st, o.req.id, l.req.id, u) ensures t <= u {
      var i' :| 0 <= i' < |o.req.servs| && o.req.servs[i'] == u;
      var j' :| 0 <= j' < |l.req.servs| && l.req.servs[j'] == u;
      assert CommonAt(o, l, i', j');
    }
  }

  lemma SentFinished(st: State, s: int, o: Lock, i: int)
    requires SentOk(st, s, o) && NoUnlocks(st) && o.nextPos <= i < |o.req.servs| && TakenAt(st, o.req.id, o.req.servs[i])
    ensures o.finish[i]
  {
    var k :| 0 <= k < st.taken[o.req.id] && k < |o.req.servs| && o.req.servs[k] == o.req.servs[i];
    assert k == i;
  }

  lemma ReadyFree(st: State, s: int, o: Lock, l: Lock)
    requires SentOk(st, s, o) && NoUnlocks(st) && Ready(st, l.req.id, s) && o.req.id != l.req.id
    requires WellFormed(l) && l.req.id in st.started && st.started[l.req.id] == l.req && l.req.servs[l.nextPos - 1] == s
    ensures !Conflict(o, l)
  {
    forall i, j | FirstCommon(o, l, i, j) ensures o.finish[i] {
      FirstIsNext(st, s, o, l, i, j);
      assert TakenAt(st, o.req.id, s) by {
        assert 0 <= o.nextPos - 1 < st.taken[o.req.id] && o.req.servs[o.nextPos - 1] == s;
      }
      SentFinished(st, s, o, i);
    }
  }

  /** A lock that does not come too early conflicts with nothing. */
  lemma ReadyPasses(st: State, m: Message)
    requires InvSent(st) && NoUnlocks(st) && m.LockMsg? && Receivable(st, m) && Ready(st, m.req.id, m.dest)
    requires m.req.id in st.started && st.started[m.req.id] == m.req
    requires !HeldAt(st.servers[m.dest].sent, m.req.id)
    ensures !ConflictAny(st.servers[m.dest].sent, NewLock(m.curr, m.req))
  {
    var sent := st.servers[m.dest].sent;
    forall p | 0 <= p < |sent| ensures !Conflict(sent[p], NewLock(m.curr, m.req)) {
      assert SentOk(st, m.dest, sent[p]);
      ReadyFree(st, m.dest, sent[p], NewLock(m.curr, m.req));
    }
  }

  // ---- One lock moves on -----------------------------------------------------------------

  /** Nothing waits and no UNLOCK is on its way. */
  ghost predicate Flowing(st: State, reqs: seq<Request>) {
    Calm(st, reqs) && NoUnlocks(st)
  }

  ghost predicate SameHistory(st: State, st': State) {
    st'.log == st.log && st'.taken == st.taken && st'.started == st.started && st'.servers.Keys == st.servers.Keys
  }

  lemma MarksOnly(st: State, m: Message)
    requires m.Unlock? && Receivable(st, m)
    ensures var st' := MarkUnlock(st, m);
      && SameHistory(st, st') && st'.net == st.net - multiset{m}
      && forall s :: s in st'.servers ==> st'.servers[s].waiting == st.servers[s].waiting
  {
  }

  /** An UNLOCK that no lock waits for only marks. */
  lemma UnlockOnly(st: State, m: Message)
    requires Inv(st) && m in st.net && m.Unlock? && Receivable(st, m) && st.servers[m.dest].waiting == []
    ensures Received(st, m) == MarkUnlock(st, m)
  {
    UnlockFound(st, m);
    UnlockStepIs(st, m, Find(st.servers[m.dest].sent, m.id));
    MarksOnly(st, m);
    DrainedAlready(MarkUnlock(st, m), m.dest);
  }

  lemma DeliverUnlock(run: seq<State>, reqs: seq<Request>, m: Message) returns (st': State)
    requires IsRun(run) && Calm(run[|run| - 1], reqs) && m in run[|run| - 1].net && m.Unlock?
    ensures IsRun(run + [st']) && Calm(st', reqs) && SameHistory(run[|run| - 1], st')
    ensures st'.net == run[|run| - 1].net - multiset{m}
  {
    var st, last := run[|run| - 1], |run| - 1;
    RunKeeps(run, last);
    PacketsFit(run, last, m);
    UnlockOnly(st, m);
    MarksOnly(st, m);
    st' := Received(st, m);
    Delivered(run, st', m);
  }

  /** All UNLOCKs are delivered. */
  lemma Flush(run: seq<State>, reqs: seq<Request>) returns (run': seq<State>)
    requires IsRun(run) && Calm(run[|run| - 1], reqs)
    ensures IsRun(run') && Flowing(run'[|run'| - 1], reqs) && SameHistory(run[|run| - 1], run'[|run'| - 1])
    decreases |run[|run| - 1].net|
  {
    if NoUnlocks(run[|run| - 1]) {
      run' := run;
    } else {
      var m :| m in run[|run| - 1].net && m.Unlock?;
      var st' := DeliverUnlock(run, reqs, m);
      run' := Flush(run + [st'], reqs);
    }
  }

  /** Lock id moves on to server u. */
  ghost predicate Moved(st: State, st': State, id: LockId, u: int) {
    && u in st.log && id in st.taken && st'.started == st.started && st'.servers.Keys == st.servers.Keys
    && st'.log == st.log[u := st.log[u] + [id]] && st'.taken == st.taken[id := st.taken[id] + 1]
  }

  /** The packet that brings a lock to its next server. */
  lemma Arrives(run: seq<State>, reqs: seq<Request>, r: Request) returns (m: Message)
    requires IsRun(run) && Calm(run[|run| - 1], reqs) && r in reqs && run[|run| - 1].taken[r.id] < |r.servs|
    ensures var st := run[|run| - 1];
      && m == LockMsg(r.servs[st.taken[r.id]], st.taken[r.id], r) && m in st.net && Receivable(st, m)
      && !HeldAt(st.servers[m.dest].sent, r.id)
  {
    var st, last := run[|run| - 1], |run| - 1;
    RunKeeps(run, last);
    OnItsWay(st, r);
    m := LockMsg(r.servs[st.taken[r.id]], st.taken[r.id], r);
    PacketsFit(run, last, m);
    NotHeld(st, m);
  }

  lemma Takes(st: State, reqs: seq<Request>, m: Message)
    requires InvSent(st) && Flowing(st, reqs) && m.LockMsg? && m.req in reqs && Receivable(st, m)
    requires !HeldAt(st.servers[m.dest].sent, m.req.id) && Ready(st, m.req.id, m.dest)
    ensures Calm(Received(st, m), reqs) && Moved(st, Received(st, m), m.req.id, m.dest)
  {
    ReadyPasses(st, m);
    TakeEffect(st, m);
  }

  lemma TakeOne(run: seq<State>, reqs: seq<Request>, r: Request) returns (st': State)
    requires IsRun(run) && Flowing(run[|run| - 1], reqs) && r in reqs && run[|run| - 1].taken[r.id] < |r.servs|
    requires Ready(run[|run| - 1], r.id, r.servs[run[|run| - 1].taken[r.id]])
    ensures IsRun(run + [st']) && Calm(st', reqs)
    ensures Moved(run[|run| - 1], st', r.id, r.servs[run[|run| - 1].taken[r.id]])
  {
    var m := Arrives(run, reqs, r);
    RunKeeps(run, |run| - 1);
    Takes(run[|run| - 1], reqs, m);
    st' := Received(run[|run| - 1], m);
    Delivered(run, st', m);
  }

  lemma MoveOn(run: seq<State>, reqs: seq<Request>, r: Request) returns (run': seq<State>)
    requires IsRun(run) && Flowing(run[|run| - 1], reqs) && r in reqs && run[|run| - 1].taken[r.id] < |r.servs|
    requires Ready(run[|run| - 1], r.id, r.servs[run[|run| - 1].taken[r.id]])
    ensures IsRun(run') && Flowing(run'[|run'| - 1], reqs)
    ensures Moved(run[|run| - 1], run'[|run'| - 1], r.id, r.servs[run[|run| - 1].taken[r.id]])
  {
    var st' := TakeOne(run, reqs, r);
    run' := Flush(run + [st'], reqs);
  }

  // ---- Schedules -----------------------------------------------------------------------------

  /** Exactly the hops of these requests, each once and every lock along its list, and no
      lock comes to a server before the one ahead of it there has been taken at the next
      server they share. */
  ghost predicate Schedule(reqs: seq<Request>, order: seq<Event>) {
    && NoDup(order) && (forall e :: e in order <==> Visits(reqs, e.id, e.serv))
    && (forall id, u, v :: u < v && Visits(reqs, id, u) && Visits(reqs, id, v) ==>
          Precedes(order, Event(id, u), Event(id, v)))
    && (forall a, b, s, t :: a != b && Precedes(order, Event(a, s), Event(b, s)) && NextShared(reqs, a, b, s, t) ==>
          Precedes(order, Event(a, t), Event(b, s)))
  }

  /** Exactly the events of done have happened, in this order at every server. */
  ghost predicate Happened(st: State, done: seq<Event>) {
    && (forall id, s :: TakenAt(st, id, s) <==> Event(id, s) in done)
    && (forall id, s :: Event(id, s) in done ==> s in st.log)
    && (forall a, b, s :: Precedes(done, Event(a, s), Event(b, s)) ==> Precedes(st.log[s], a, b))
  }

  lemma VisitsStarted(st: State, reqs: seq<Request>, id: LockId, u: int)
    requires Calm(st, reqs) && Askable(reqs)
    ensures Visits(reqs, id, u) <==> id in st.started && u in st.started[id].servs
  {
    if id in st.started {
      assert Among(reqs, id);
      var i :| 0 <= i < |reqs| && reqs[i].id == id;
      assert st.started[id] == reqs[i];
    }
  }

  /** What precedes the next event has happened. */
  lemma EarlierDone(order: seq<Event>, n: nat, e: Event)
    requires n < |order| && NoDup(order) && Precedes(order, e, order[n])
    ensures e in order[..n]
  {
    var p, q :| 0 <= p < q < |order| && order[p] == e && order[q] == order[n];
    assert q == n && order[..n][p] == e;
  }

  /** All hops before the next event are done, and none from it on. */
  lemma HopsDone(st: State, reqs: seq<Request>, order: seq<Event>, n: nat, r: Request, j: nat)
    requires Calm(st, reqs) && Askable(reqs) && Schedule(reqs, order) && n < |order| && Happened(st, order[..n])
    requires r in reqs && r.id == order[n].id && j < |r.servs| && r.servs[j] <= order[n].serv
    ensures TakenAt(st, r.id, r.servs[j]) <==> r.servs[j] < order[n].serv
  {
    var e := order[n];
    assert e in order && e !in order[..n];
    VisitsStarted(st, reqs, e.id, e.serv);
    VisitsStarted(st, reqs, r.id, r.servs[j]);
    if r.servs[j] < e.serv {
      EarlierDone(order, n, Event(r.id, r.servs[j]));
    }
  }

  /** The next event of a schedule is the next hop of its lock. */
  lemma NextIsDue(st: State, reqs: seq<Request>, order: seq<Event>, n: nat, r: Request)
    requires InvBase(st) && Calm(st, reqs) && Askable(reqs) && Schedule(reqs, order) && n < |order|
    requires Happened(st, order[..n]) && r in reqs && r.id == order[n].id
    ensures st.taken[r.id] < |r.servs| && r.servs[st.taken[r.id]] == order[n].serv
  {
    var e, k := order[n], st.taken[r.id];
    assert e in order;
    VisitsStarted(st, reqs, e.id, e.serv);
    assert st.started[r.id] == r && Known(st, r.id);
    var j :| 0 <= j < |r.servs| && r.servs[j] == e.serv;
    HopsDone(st, reqs, order, n, r, j);
    assert !(j < k);
    if k < j {
      HopsDone(st, reqs, order, n, r, k);
    }
  }

  /** And it does not come too early. */
  lemma NextIsReady(st: State, reqs: seq<Request>, order: seq<Event>, n: nat)
    requires Calm(st, reqs) && Askable(reqs) && Schedule(reqs, order) && n < |order| && Happened(st, order[..n])
    ensures Ready(st, order[n].id, order[n].serv)
  {
    var id, s := order[n].id, order[n].serv;
    forall a, t | a != id && TakenAt(st, a, s) && NextCommon(st, a, id, s, t) ensures TakenAt(st, a, t) {
      forall u ensures Common(st, a, id, u) <==> BothVisit(reqs, a, id, u) {
        VisitsStarted(st, reqs, a, u);
        VisitsStarted(st, reqs, id, u);
      }
      assert NextShared(reqs, a, id, s, t);
      var p :| 0 <= p < n && order[..n][p] == Event(a, s);
      assert order[p] == Event(a, s) && order[n] == Event(id, s);
      EarlierDone(order, n, Event(a, t));
    }
  }

  lemma TakenMore(st: State, st': State, e: Event)
    requires InvBase(st) && Moved(st, st', e.id, e.serv) && e.id in st.started
    requires st.taken[e.id] < |st.started[e.id].servs| && st.started[e.id].servs[st.taken[e.id]] == e.serv
    ensures forall id, s :: TakenAt(st', id, s) <==> TakenAt(st, id, s) || Event(id, s) == e
  {
    var k := st.taken[e.id];
    forall id, s ensures TakenAt(st', id, s) <==> TakenAt(st, id, s) || Event(id, s) == e {
      if Event(id, s) == e {
        assert 0 <= k < st'.taken[id] && st'.started[id].servs[k] == s;
      }
    }
  }

  lemma HappenedMore(st: State, st': State, done: seq<Event>, e: Event)
    requires Happened(st, done) && Moved(st, st', e.id, e.serv)
    requires forall id, s :: TakenAt(st', id, s) <==> TakenAt(st, id, s) || Event(id, s) == e
    requires forall id :: id in st.log[e.serv] <==> TakenAt(st, id, e.serv)
    ensures Happened(st', done + [e])
  {
    forall a, b, s | Precedes(done + [e], Event(a, s), Event(b, s)) ensures Precedes(st'.log[s], a, b) {
      PrecedesGrows(done, Event(a, s), Event(b, s), e);
      if s == e.serv {
        PrecedesGrows(st.log[s], a, b, e.id);
      }
    }
  }

  lemma NextDone(st: State, st': State, r: Request, order: seq<Event>, n: nat)
    requires InvBase(st) && InvLog(st) && n < |order| && Happened(st, order[..n]) && Moved(st, st', r.id, order[n].serv)
    requires r.id == order[n].id && r.id in st.started && st.started[r.id] == r
    requires st.taken[r.id] < |r.servs| && r.servs[st.taken[r.id]] == order[n].serv
    ensures Happened(st', order[..n + 1])
  {
    TakenMore(st, st', order[n]);
    HappenedMore(st, st', order[..n], order[n]);
    assert order[..n + 1] == order[..n] + [order[n]];
  }

  lemma {:induction false} Follow(reqs: seq<Request>, order: seq<Event>, lo: int, hi: int, n: nat) returns (run: seq<State>)
    requires Askable(reqs) && Within(reqs, lo, hi) && Schedule(reqs, order) && n <= |order|
    ensures IsRun(run) && Flowing(run[|run| - 1], reqs) && Happened(run[|run| - 1], order[..n])
    decreases n
  {
    if n == 0 {
      run := AskAll(reqs, lo, hi);
      assert order[..0] == [];
    } else {
      var before := Follow(reqs, order, lo, hi, n - 1);
      run := FollowOne(before, reqs, order, n - 1);
    }
  }

  lemma FollowOne(before: seq<State>, reqs: seq<Request>, order: seq<Event>, n: nat) returns (run: seq<State>)
    requires IsRun(before) && Flowing(before[|before| - 1], reqs) && Askable(reqs) && Schedule(reqs, order) && n < |order|
    requires Happened(before[|before| - 1], order[..n])
    ensures IsRun(run) && Flowing(run[|run| - 1], reqs) && Happened(run[|run| - 1], order[..n + 1])
  {
    var r := NextHop(before, reqs, order, n);
    run := MoveOn(before, reqs, r);
    RunKeeps(before, |before| - 1);
    NextDone(before[|before| - 1], run[|run| - 1], r, order, n);
  }

  lemma NextHop(run: seq<State>, reqs: seq<Request>, order: seq<Event>, n: nat) returns (r: Request)
    requires IsRun(run) && Calm(run[|run| - 1], reqs) && Askable(reqs) && Schedule(reqs, order) && n < |order|
    requires Happened(run[|run| - 1], order[..n])
    ensures var st := run[|run| - 1];
      && r in reqs && r.id == order[n].id && r.id in st.started && st.started[r.id] == r && r.id in st.taken
      && st.taken[r.id] < |r.servs| && r.servs[st.taken[r.id]] == order[n].serv
      && Ready(st, r.id, order[n].serv)
  {
    var st, e := run[|run| - 1], order[n];
    assert e in order;
    var i :| 0 <= i < |reqs| && reqs[i].id == e.id && e.serv in reqs[i].servs;
    r := reqs[i];
    RunKeeps(run, |run| - 1);
    NextIsDue(st, reqs, order, n, r);
    NextIsReady(st, reqs, order, n);
  }

  /** Every schedule is what some run does. */
  lemma RunSchedule(reqs: seq<Request>, order: seq<Event>) returns (run: seq<State>)
    requires Askable(reqs) && Schedule(reqs, order)
    ensures IsRun(run) && Flowing(run[|run| - 1], reqs) && Happened(run[|run| - 1], order)
  {
    var lo, hi := Bounds(reqs);
    run := Follow(reqs, order, lo, hi, |order|);
    assert order[..|order|] == order;
  }
}
