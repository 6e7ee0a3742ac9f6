/** Locks of which each two share at most one server never wait for each other: every
    choice of an order at every server is the outcome of some run. */
module LockOrders {
  import opened LockProtocol
  import opened LockRequests
  import opened LockServer
  import opened LockTheorems
  import opened Seqs

  ghost predicate ShareOne(a: Request, b: Request) {
    forall x, y :: x in a.servs && x in b.servs && y in a.servs && y in b.servs ==> x == y
  }

  /** Requests of which each two share at most one server. */
  ghost predicate Family(reqs: seq<Request>) {
    Askable(reqs) && forall i, j :: 0 <= i < j < |reqs| ==> ShareOne(reqs[i], reqs[j])
  }

  lemma Related(reqs: seq<Request>, x: int, y: int)
    requires Family(reqs) && 0 <= x < |reqs| && 0 <= y < |reqs| && reqs[x].id != reqs[y].id
    ensures ShareOne(reqs[x], reqs[y])
  {
    assert x < y ==> ShareOne(reqs[x], reqs[y]);
    assert y < x ==> ShareOne(reqs[y], reqs[x]);
  }

  lemma Later(l: Lock, i: int)
    requires WellFormed(l) && l.nextPos <= i < |l.req.servs|
    ensures l.req.servs[l.nextPos - 1] < l.req.servs[i] && l.req.servs[i] in l.req.servs
  {
  }

  /** Two locks at one server that share no other have nothing to fight over. */
  lemma NothingFurther(o: Lock, l: Lock)
    requires WellFormed(o) && WellFormed(l) && o.req.servs[o.nextPos - 1] == l.req.servs[l.nextPos - 1]
    requires ShareOne(o.req, l.req)
    ensures !Conflict(o, l)
  {
    var s := o.req.servs[o.nextPos - 1];
    assert s in o.req.servs && s in l.req.servs;
    forall i, j ensures !CommonAt(o, l, i, j) {
      if CommonAt(o, l, i, j) {
        Later(o, i);
        Later(l, j);
      }
    }
  }

  lemma SentShares(st: State, reqs: seq<Request>, s: int, o: Lock, r: Request)
    requires SentOk(st, s, o) && Calm(st, reqs) && Family(reqs) && r in reqs && o.req.id != r.id
    ensures ShareOne(o.req, r)
  {
    assert Among(reqs, o.req.id);
    var x :| 0 <= x < |reqs| && reqs[x].id == o.req.id;
    var y :| 0 <= y < |reqs| && reqs[y] == r;
    Related(reqs, x, y);
  }

  /** A lock that arrives meets no conflict. */
  lemma NeverConflicts(st: State, reqs: seq<Request>, m: Message)
    requires InvSent(st) && Calm(st, reqs) && Family(reqs) && m.LockMsg? && m.req in reqs && Receivable(st, m)
    requires !HeldAt(st.servers[m.dest].sent, m.req.id)
    ensures !ConflictAny(st.servers[m.dest].sent, NewLock(m.curr, m.req))
  {
    var sent, l := st.servers[m.dest].sent, NewLock(m.curr, m.req);
    forall p | 0 <= p < |sent| ensures !Conflict(sent[p], l) {
      assert SentOk(st, m.dest, sent[p]);
      SentShares(st, reqs, m.dest, sent[p], m.req);
      NothingFurther(sent[p], l);
    }
  }

  /** The next hop of request r. */
  lemma TakeOne(run: seq<State>, reqs: seq<Request>, r: Request) returns (st': State)
    requires IsRun(run) && Calm(run[|run| - 1], reqs) && Family(reqs) && r in reqs
    requires run[|run| - 1].taken[r.id] < |r.servs|
    ensures IsRun(run + [st']) && Calm(st', reqs) && st'.servers.Keys == run[|run| - 1].servers.Keys
    ensures var st := run[|run| - 1];
      var u := r.servs[st.taken[r.id]];
      u in st.log && st'.log == st.log[u := st.log[u] + [r.id]] && st'.taken == st.taken[r.id := st.taken[r.id] + 1]
  {
    var st, last := run[|run| - 1], |run| - 1;
    RunKeeps(run, last);
    OnItsWay(st, r);
    var m := LockMsg(r.servs[st.taken[r.id]], st.taken[r.id], r);
    PacketsFit(run, last, m);
    NotHeld(st, m);
    NeverConflicts(st, reqs, m);
    TakeEffect(st, m);
    st' := Received(st, m);
    Delivered(run, st', m);
  }

  // ---- One server after the other ----------------------------------------------------------

  /** The request's next server is u. */
  ghost predicate Due(st: State, r: Request, u: int) {
    r.id in st.taken && st.taken[r.id] < |r.servs| && r.servs[st.taken[r.id]] == u
  }

  /** All of ids are requests whose next server is u. */
  ghost predicate AllDue(st: State, reqs: seq<Request>, ids: seq<LockId>, u: int) {
    && (forall i :: 0 <= i < |ids| ==> Among(reqs, ids[i]))
    && (forall i :: 0 <= i < |reqs| && reqs[i].id in ids ==> Due(st, reqs[i], u))
  }

  /** Between these two histories server u has taken the locks ids, in this order. */
  ghost predicate Served(st: State, st': State, u: int, ids: seq<LockId>) {
    && u in st.log && st'.servers.Keys == st.servers.Keys && st'.log == st.log[u := st.log[u] + ids]
    && st'.taken.Keys == st.taken.Keys
    && forall id :: id in st.taken ==> st'.taken[id] == st.taken[id] + if id in ids then 1 else 0
  }

  lemma ServedNothing(st: State, u: int)
    requires u in st.log
    ensures Served(st, st, u, [])
  {
    assert st.log[u] + [] == st.log[u] && st.log[u := st.log[u]] == st.log;
  }

  lemma ServedOne(st: State, st': State, u: int, id: LockId)
    requires u in st.log && st'.servers.Keys == st.servers.Keys && st'.log == st.log[u := st.log[u] + [id]]
    requires id in st.taken && st'.taken == st.taken[id := st.taken[id] + 1]
    ensures Served(st, st', u, [id])
  {
  }

  lemma ServedMore(st: State, st1: State, st2: State, u: int, ids: seq<LockId>)
    requires ids != [] && NoDup(ids) && Served(st, st1, u, ids[..1]) && Served(st1, st2, u, ids[1..])
    ensures Served(st, st2, u, ids)
  {
    assert ids == ids[..1] + ids[1..] && ids[0] !in ids[1..];
    assert st.log[u] + ids[..1] + ids[1..] == st.log[u] + ids;
  }

  /** Server u takes the first of the locks that are due. */
  lemma ServeOne(run: seq<State>, reqs: seq<Request>, u: int, ids: seq<LockId>) returns (st': State)
    requires IsRun(run) && Calm(run[|run| - 1], reqs) && Family(reqs) && u in run[|run| - 1].log
    requires ids != [] && NoDup(ids) && AllDue(run[|run| - 1], reqs, ids, u)
    ensures IsRun(run + [st']) && Calm(st', reqs) && AllDue(st', reqs, ids[1..], u)
    ensures Served(run[|run| - 1], st', u, ids[..1])
  {
    assert Among(reqs, ids[0]);
    var x :| 0 <= x < |reqs| && reqs[x].id == ids[0];
    assert Due(run[|run| - 1], reqs[x], u);
    st' := TakeOne(run, reqs, reqs[x]);
    ServedOne(run[|run| - 1], st', u, ids[0]);
    assert ids[..1] == [ids[0]];
    StillDue(run[|run| - 1], st', reqs, ids, u);
  }

  lemma StillDue(st: State, st': State, reqs: seq<Request>, ids: seq<LockId>, u: int)
    requires ids != [] && NoDup(ids) && AllDue(st, reqs, ids, u) && Served(st, st', u, ids[..1])
    ensures AllDue(st', reqs, ids[1..], u)
  {
    forall i | 0 <= i < |reqs| && reqs[i].id in ids[1..] ensures Due(st', reqs[i], u) {
      assert Due(st, reqs[i], u);
    }
  }

  /** Server u takes the locks ids, in this order. */
  lemma {:induction false} Serve(run: seq<State>, reqs: seq<Request>, u: int, ids: seq<LockId>) returns (run': seq<State>)
    requires IsRun(run) && Calm(run[|run| - 1], reqs) && Family(reqs) && u in run[|run| - 1].log
    requires NoDup(ids) && AllDue(run[|run| - 1], reqs, ids, u)
    ensures IsRun(run') && Calm(run'[|run'| - 1], reqs) && Served(run[|run| - 1], run'[|run'| - 1], u, ids)
    decreases |ids|
  {
    var st := run[|run| - 1];
    if ids == [] {
      run' := run;
      ServedNothing(st, u);
    } else {
      var st1 := ServeOne(run, reqs, u, ids);
      run' := Serve(run + [st1], reqs, u, ids[1..]);
      ServedMore(st, st1, run'[|run'| - 1], u, ids);
    }
  }

  /** Lock r has been taken by exactly those of its servers that lie below the bound. */
  ghost predicate Passed(st: State, r: Request, bound: int) {
    && r.id in st.taken && st.taken[r.id] <= |r.servs|
    && forall j :: 0 <= j < |r.servs| ==> (j < st.taken[r.id] <==> r.servs[j] < bound)
  }

  ghost predicate AllPassed(st: State, reqs: seq<Request>, bound: int) {
    forall i :: 0 <= i < |reqs| ==> Passed(st, reqs[i], bound)
  }

  lemma VisitorsDue(st: State, r: Request, u: int)
    requires Ascending(r.servs) && Passed(st, r, u) && u in r.servs
    ensures Due(st, r, u)
  {
    var k :| 0 <= k < |r.servs| && r.servs[k] == u;
    assert forall j :: 0 <= j < k ==> r.servs[j] < u;
  }

  lemma PassedOn(st: State, st': State, r: Request, u: int)
    requires Ascending(r.servs) && Passed(st, r, u) && r.id in st'.taken
    requires st'.taken[r.id] == st.taken[r.id] + if u in r.servs then 1 else 0
    ensures Passed(st', r, u + 1)
  {
    if u in r.servs {
      VisitorsDue(st, r, u);
    }
  }

  /** ids names exactly the locks that visit server u, each once. */
  ghost predicate OrderAt(reqs: seq<Request>, u: int, ids: seq<LockId>) {
    NoDup(ids) && forall id :: id in ids <==> Visits(reqs, id, u)
  }

  ghost predicate Orders(reqs: seq<Request>, lo: int, hi: int, order: map<int, seq<LockId>>) {
    forall u :: lo <= u < hi ==> u in order && OrderAt(reqs, u, order[u])
  }

  lemma VisitsOne(reqs: seq<Request>, i: int, u: int)
    requires Family(reqs) && 0 <= i < |reqs|
    ensures Visits(reqs, reqs[i].id, u) <==> u in reqs[i].servs
  {
  }

  /** Server u takes every lock that visits it, in the given order. */
  lemma ServeAll(run: seq<State>, reqs: seq<Request>, u: int, ids: seq<LockId>) returns (run': seq<State>)
    requires IsRun(run) && Calm(run[|run| - 1], reqs) && Family(reqs) && u in run[|run| - 1].log
    requires AllPassed(run[|run| - 1], reqs, u) && OrderAt(reqs, u, ids)
    ensures IsRun(run') && Calm(run'[|run'| - 1], reqs) && Served(run[|run| - 1], run'[|run'| - 1], u, ids)
    ensures AllPassed(run'[|run'| - 1], reqs, u + 1)
  {
    var st := run[|run| - 1];
    forall i | 0 <= i < |reqs| && reqs[i].id in ids ensures Due(st, reqs[i], u) {
      VisitsOne(reqs, i, u);
      VisitorsDue(st, reqs[i], u);
    }
    forall i | 0 <= i < |ids| ensures Among(reqs, ids[i]) {
      assert Visits(reqs, ids[i], u);
    }
    run' := Serve(run, reqs, u, ids);
    var st' := run'[|run'| - 1];
    forall i | 0 <= i < |reqs| ensures Passed(st', reqs[i], u + 1) {
      assert Passed(st, reqs[i], u);
      VisitsOne(reqs, i, u);
      PassedOn(st, st', reqs[i], u);
    }
  }

  ghost predicate Unused(st: State, lo: int, hi: int) {
    forall v :: lo <= v < hi ==> v in st.log && st.log[v] == []
  }

  /** Servers lo to hi have taken locks in the given order, the others none. */
  ghost predicate Filled(st: State, st': State, lo: int, hi: int, order: map<int, seq<LockId>>) {
    && st'.log.Keys == st.log.Keys
    && forall v :: v in st.log ==>
         if lo <= v < hi then v in order && st'.log[v] == order[v] else st'.log[v] == st.log[v]
  }

  lemma ServedUnused(st: State, st': State, u: int, hi: int, order: map<int, seq<LockId>>)
    requires u < hi && Unused(st, u, hi) && u in order && Served(st, st', u, order[u])
    ensures Unused(st', u + 1, hi) && Filled(st, st', u, u + 1, order)
  {
    assert st.log[u] + order[u] == order[u];
  }

  lemma FilledMore(st: State, st1: State, st2: State, u: int, hi: int, order: map<int, seq<LockId>>)
    requires u < hi && Filled(st, st1, u, u + 1, order) && Filled(st1, st2, u + 1, hi, order)
    ensures Filled(st, st2, u, hi, order)
  {
  }

  /** Servers u and above take their locks one server after the other. */
  lemma ServeFrom(run: seq<State>, reqs: seq<Request>, u: int, hi: int, order: map<int, seq<LockId>>)
    returns (run': seq<State>)
    requires IsRun(run) && Calm(run[|run| - 1], reqs) && Family(reqs) && u <= hi && Orders(reqs, u, hi, order)
    requires AllPassed(run[|run| - 1], reqs, u)
    requires Unused(run[|run| - 1], u, hi)
    ensures IsRun(run') && Calm(run'[|run'| - 1], reqs) && AllPassed(run'[|run'| - 1], reqs, hi)
    ensures Filled(run[|run| - 1], run'[|run'| - 1], u, hi, order)
    decreases hi - u
  {
    if u == hi {
      run' := run;
    } else {
      var st := run[|run| - 1];
      var run1 := ServeAll(run, reqs, u, order[u]);
      var st1 := run1[|run1| - 1];
      ServedUnused(st, st1, u, hi, order);
      run' := ServeFrom(run1, reqs, u + 1, hi, order);
      FilledMore(st, st1, run'[|run'| - 1], u, hi, order);
    }
  }

  /** The servers are those from lo to hi, and each has taken exactly the locks named for it, in order. */
  ghost predicate Ordered(st: State, lo: int, hi: int, order: map<int, seq<LockId>>) {
    && (forall u :: u in st.log <==> lo <= u < hi)
    && (forall u :: u in st.log ==> u in order && st.log[u] == order[u])
  }

  ghost predicate Complete(st: State, reqs: seq<Request>) {
    forall i :: 0 <= i < |reqs| ==> reqs[i].id in st.taken && st.taken[reqs[i].id] == |reqs[i].servs|
  }

  lemma AllComplete(st: State, reqs: seq<Request>, lo: int, hi: int)
    requires AllPassed(st, reqs, hi) && Family(reqs) && Within(reqs, lo, hi)
    ensures Complete(st, reqs)
  {
    forall i | 0 <= i < |reqs| ensures reqs[i].id in st.taken && st.taken[reqs[i].id] == |reqs[i].servs| {
      var n := |reqs[i].servs|;
      assert Passed(st, reqs[i], hi);
      assert reqs[i].servs[n - 1] in reqs[i].servs && reqs[i].servs[n - 1] < hi;
    }
  }

  /** Locks of which each two share at most one server can be taken in every order: for
      every choice of an order at every server, some run makes exactly these requests,
      takes them at each server in the chosen order, and completes them all. */
  lemma AnyOrder(reqs: seq<Request>, lo: int, hi: int, order: map<int, seq<LockId>>) returns (run: seq<State>)
    requires Family(reqs) && Within(reqs, lo, hi) && lo <= hi && Orders(reqs, lo, hi, order)
    ensures IsRun(run) && Calm(run[|run| - 1], reqs) && Ordered(run[|run| - 1], lo, hi, order)
    ensures Complete(run[|run| - 1], reqs)
  {
    run := AskAll(reqs, lo, hi);
    var st := run[|run| - 1];
    forall i | 0 <= i < |reqs| ensures Passed(st, reqs[i], lo) {
      assert forall j :: 0 <= j < |reqs[i].servs| ==> reqs[i].servs[j] in reqs[i].servs;
    }
    run := ServeFrom(run, reqs, lo, hi, order);
    AllComplete(run[|run| - 1], reqs, lo, hi);
  }
}
