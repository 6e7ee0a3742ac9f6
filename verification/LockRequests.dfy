/** The requests of clients: what they may ask for, and the run in which all of it has been
    asked for and nothing yet done. */
module LockRequests {
  import opened LockProtocol
  import opened LockServer
  import opened LockTheorems
  import opened Seqs

  /** What clients may ask for, under different ids. */
  ghost predicate Askable(reqs: seq<Request>) {
    && (forall i :: 0 <= i < |reqs| ==> reqs[i].servs != [] && Ascending(reqs[i].servs))
    && (forall i, j :: 0 <= i < j < |reqs| ==> reqs[i].id != reqs[j].id)
  }

  ghost predicate Within(reqs: seq<Request>, lo: int, hi: int) {
    forall i, u :: 0 <= i < |reqs| && u in reqs[i].servs ==> lo <= u < hi
  }

  lemma {:induction false} Bounds(reqs: seq<Request>) returns (lo: int, hi: int)
    requires forall i :: 0 <= i < |reqs| ==> reqs[i].servs != [] && Ascending(reqs[i].servs)
    ensures lo <= hi && Within(reqs, lo, hi)
  {
    if reqs == [] {
      lo, hi := 0, 0;
    } else {
      var l, h := Bounds(reqs[1..]);
      var servs := reqs[0].servs;
      lo := if servs[0] < l then servs[0] else l;
      hi := if servs[|servs| - 1] >= h then servs[|servs| - 1] + 1 else h;
      forall i, u | 0 <= i < |reqs| && u in reqs[i].servs ensures lo <= u < hi {
        if i > 0 {
          assert reqs[1..][i - 1] == reqs[i];
        }
      }
    }
  }

  ghost predicate Visits(reqs: seq<Request>, id: LockId, u: int) {
    exists i :: 0 <= i < |reqs| && reqs[i].id == id && u in reqs[i].servs
  }

  ghost predicate Among(reqs: seq<Request>, id: LockId) {
    exists i :: 0 <= i < |reqs| && reqs[i].id == id
  }

  /** Exactly these requests have been made, and none of them waits anywhere. */
  ghost predicate Calm(st: State, reqs: seq<Request>) {
    && (forall i :: 0 <= i < |reqs| ==> reqs[i].id in st.started && st.started[reqs[i].id] == reqs[i] && reqs[i].id in st.taken)
    && (forall id :: id in st.started ==> Among(reqs, id))
    && (forall s :: s in st.servers ==> st.servers[s].waiting == [])
  }

  /** What a lock that meets no conflict does to the servers and the history. */
  lemma TakeEffect(st: State, m: Message)
    requires Receivable(st, m) && m.LockMsg? && m.req.id in st.taken
    requires !ConflictAny(st.servers[m.dest].sent, NewLock(m.curr, m.req))
    ensures var st' := Received(st, m);
      && st'.started == st.started && st'.servers.Keys == st.servers.Keys
      && st'.taken == st.taken[m.req.id := st.taken[m.req.id] + 1]
      && st'.log == st.log[m.dest := st.log[m.dest] + [m.req.id]]
      && forall s :: s in st.servers ==> st'.servers[s].waiting == st.servers[s].waiting
  {
    var o := OnLock(st.servers[m.dest], m.curr, m.req);
    assert o.taken == [m.req.id] && o.taken[1..] == [];
    assert Bump(st.taken, o.taken) == st.taken[m.req.id := st.taken[m.req.id] + 1];
  }

  /** A lock that is not complete and waits nowhere is on its way to its next server. */
  lemma OnItsWay(st: State, r: Request)
    requires InvBase(st) && InvPlace(st) && r.id in st.started && st.started[r.id] == r
    requires st.taken[r.id] < |r.servs| && forall s :: s in st.servers ==> st.servers[s].waiting == []
    ensures LockMsg(r.servs[st.taken[r.id]], st.taken[r.id], r) in st.net
  {
    assert Known(st, r.id) && Placed(st, r.id);
  }

  lemma Delivered(run: seq<State>, st': State, m: Message)
    requires IsRun(run) && DeliverStep(run[|run| - 1], st', m)
    ensures IsRun(run + [st'])
  {
    RunGrows(run, st');
  }

  function Empty(lo: int, hi: int): State {
    var servers := map u | lo <= u < hi :: Server(u, [], []);
    State(servers, multiset{}, map[], map[], map u | u in servers :: [])
  }

  function Asked(st: State, req: Request): State
    requires req.servs != []
  {
    st.(net := st.net + multiset{LockMsg(req.servs[0], 0, req)},
        started := st.started[req.id := req],
        taken := st.taken[req.id := 0])
  }

  lemma AskOne(st: State, reqs: seq<Request>, r: Request)
    requires Calm(st, reqs) && Askable(reqs + [r]) && forall i :: 0 <= i < |r.servs| ==> r.servs[i] in st.servers
    ensures r.servs != [] && StartStep(st, Asked(st, r), r) && Calm(Asked(st, r), reqs + [r])
  {
    var all, st' := reqs + [r], Asked(st, r);
    assert all[|reqs|] == r;
    forall i | 0 <= i < |reqs| ensures all[i] == reqs[i] && reqs[i].id != r.id {
      assert all[i].id != all[|reqs|].id;
    }
    assert r.id !in st.started by { assert !Among(reqs, r.id); }
    forall id | id in st'.started ensures Among(all, id) {
      AmongMore(reqs, r, id);
    }
  }

  lemma AmongMore(reqs: seq<Request>, r: Request, id: LockId)
    ensures Among(reqs + [r], id) <==> Among(reqs, id) || id == r.id
  {
    var all := reqs + [r];
    assert all[|reqs|] == r;
    if Among(reqs, id) {
      var i :| 0 <= i < |reqs| && reqs[i].id == id;
      assert all[i].id == id;
    }
    if Among(all, id) {
      var i :| 0 <= i < |all| && all[i].id == id;
      assert i < |reqs| ==> reqs[i].id == id;
    }
  }

  lemma AskableButLast(reqs: seq<Request>)
    requires Askable(reqs) && reqs != []
    ensures Askable(reqs[..|reqs| - 1])
  {
  }

  ghost predicate NoUnlocks(st: State) {
    forall m :: m in st.net ==> !m.Unlock?
  }

  /** Exactly these requests have been made to servers that have done nothing yet. */
  ghost predicate JustAsked(st: State, reqs: seq<Request>, lo: int, hi: int) {
    && Calm(st, reqs) && NoUnlocks(st) && st.servers == Empty(lo, hi).servers && st.log == Empty(lo, hi).log
    && forall id :: id in st.taken ==> st.taken[id] == 0
  }

  lemma AskNext(st: State, reqs: seq<Request>, r: Request, lo: int, hi: int)
    requires JustAsked(st, reqs, lo, hi) && Askable(reqs + [r]) && forall u :: u in r.servs ==> lo <= u < hi
    ensures r.servs != [] && StartStep(st, Asked(st, r), r) && JustAsked(Asked(st, r), reqs + [r], lo, hi)
  {
    forall i | 0 <= i < |r.servs| ensures r.servs[i] in st.servers {
      assert r.servs[i] in r.servs;
    }
    AskOne(st, reqs, r);
  }

  /** All requests have been made; nothing has been taken yet. */
  lemma AskAll(reqs: seq<Request>, lo: int, hi: int) returns (run: seq<State>)
    requires Askable(reqs) && Within(reqs, lo, hi)
    ensures IsRun(run) && JustAsked(run[|run| - 1], reqs, lo, hi)
    decreases |reqs|
  {
    if reqs == [] {
      run := [Empty(lo, hi)];
    } else {
      var n := |reqs| - 1;
      var r := reqs[n];
      AskableButLast(reqs);
      var before := AskAll(reqs[..n], lo, hi);
      var st := before[|before| - 1];
      assert reqs == reqs[..n] + [r];
      AskNext(st, reqs[..n], r, lo, hi);
      RunGrows(before, Asked(st, r));
      run := before + [Asked(st, r)];
    }
  }
}
