/** What every run of the lock pipeline guarantees. */
module LockTheorems {
  import opened LockServer
  import opened LockProtocol
  import opened Seqs
  import opened Sums

  // ---- Order agreement ------------------------------------------------------------

  lemma {:induction false} FirstCommonAfter(st: State, a: LockId, b: LockId, s: int, t: int) returns (u: int)
    requires s < t && Common(st, a, b, t)
    ensures NextCommon(st, a, b, s, u) && u <= t
    decreases t - s
  {
    if Common(st, a, b, s + 1) {
      u := s + 1;
    } else {
      u := FirstCommonAfter(st, a, b, s + 1, t);
      forall v | s < v < u ensures !Common(st, a, b, v) {
        assert v > s + 1 ==> !Common(st, a, b, v);
      }
    }
  }

  lemma TakenInOrder(st: State, id: LockId, s: int, t: int)
    requires InvBase(st) && TakenAt(st, id, t) && s < t && s in st.started[id].servs
    ensures TakenAt(st, id, s)
  {
  }

  lemma {:induction false} OrderForward(st: State, a: LockId, b: LockId, s: int, t: int)
    requires InvBase(st) && InvLog(st) && InvOrder(st)
    requires s in st.log && t in st.log && s < t
    requires Precedes(st.log[s], a, b) && a in st.log[t] && b in st.log[t]
    ensures Precedes(st.log[t], a, b)
    decreases t - s
  {
    assert TakenAt(st, a, t) && TakenAt(st, b, t);
    var u := FirstCommonAfter(st, a, b, s, t);
    assert u in st.log by { assert Known(st, a); }
    if u < t {
      TakenInOrder(st, b, u, t);
      OrderForward(st, a, b, u, t);
    }
  }

  lemma PrecedesOneWay<T>(xs: seq<T>, a: T, b: T)
    requires NoDup(xs) && Precedes(xs, a, b)
    ensures a != b && !Precedes(xs, b, a)
  {
  }

  /** Two members of a list without repetitions stand in one order or the other. */
  lemma OneOrder<T>(xs: seq<T>, a: T, b: T)
    requires NoDup(xs) && a in xs && b in xs && a != b
    ensures Precedes(xs, a, b) <==> !Precedes(xs, b, a)
  {
    var p :| 0 <= p < |xs| && xs[p] == a;
    var q :| 0 <= q < |xs| && xs[q] == b;
  }

  lemma OrderAgrees(st: State, a: LockId, b: LockId, s: int, t: int)
    requires InvBase(st) && InvLog(st) && InvOrder(st) && s in st.log && t in st.log
    requires Precedes(st.log[s], a, b) && a in st.log[t] && b in st.log[t]
    ensures Precedes(st.log[t], a, b) && !Precedes(st.log[t], b, a)
  {
    PrecedesOneWay(st.log[s], a, b);
    OneOrder(st.log[t], a, b);
    if s < t {
      OrderForward(st, a, b, s, t);
    } else if t < s && Precedes(st.log[t], b, a) {
      assert a in st.log[s] && b in st.log[s];
      OrderForward(st, b, a, t, s);
    }
  }

  /** Any two locks are taken in the same order at every server that took both. */
  lemma OrderAgreement(run: seq<State>, i: nat, a: LockId, b: LockId, s: int, t: int)
    requires IsRun(run) && i < |run|
    requires s in run[i].log && t in run[i].log
    requires Precedes(run[i].log[s], a, b) && a in run[i].log[t] && b in run[i].log[t]
    ensures Precedes(run[i].log[t], a, b) && !Precedes(run[i].log[t], b, a)
  {
    RunKeeps(run, i);
    OrderAgrees(run[i], a, b, s, t);
  }

  /** Every waiting lock has a reason to wait, in every state of every run. */
  lemma WaitingConflicts(run: seq<State>, i: nat, s: int, p: nat)
    requires IsRun(run) && i < |run| && s in run[i].servers && p < |run[i].servers[s].waiting|
    ensures ServerOk(run[i].servers[s])
    ensures ConflictAny(run[i].servers[s].sent, run[i].servers[s].waiting[p])
  {
    RunKeeps(run, i);
    assert Settled(run[i].servers[s]);
  }

  // ---- Token conservation ------------------------------------------------------------

  ghost predicate InTransit(st: State, id: LockId) {
    exists m :: m in st.net && m.LockMsg? && m.req.id == id
  }

  ghost predicate WaitingSomewhere(st: State, id: LockId) {
    exists s :: s in st.servers && HeldAt(st.servers[s].waiting, id)
  }

  ghost predicate Ended(st: State, id: LockId) {
    exists m :: m in st.net && m.LockEnd? && m.id == id
  }

  lemma TransitMeans(st: State, id: LockId)
    requires InvMsgs(st) && Known(st, id) && InTransit(st, id)
    ensures var k := st.taken[id]; var req := st.started[id];
      k < |req.servs| && LockMsg(req.servs[k], k, req) in st.net
  {
  }

  lemma WaitingMeans(st: State, id: LockId)
    requires InvWaiting(st) && WaitingSomewhere(st, id) && Known(st, id)
    ensures var k := st.taken[id]; var req := st.started[id];
      k < |req.servs| && LockMsg(req.servs[k], k, req) !in st.net
  {
  }

  lemma EndedMeans(st: State, id: LockId)
    requires InvMsgs(st) && Known(st, id) && Ended(st, id)
    ensures st.taken[id] == |st.started[id].servs| && st.net[LockEnd(st.started[id].client, id)] == 1
  {
  }

  lemma TakenIsPrefix(st: State, id: LockId, s: int)
    requires InvLog(st) && Known(st, id) && s in st.log
    ensures id in st.log[s] <==> s in st.started[id].servs[..st.taken[id]]
  {
  }

  /** A started lock is in exactly one place; it has been taken once by each server of
      a prefix of its list and by no other, and LOCK_END is out exactly when the prefix
      is the whole list. */
  lemma OnePlace(run: seq<State>, i: nat, id: LockId)
    requires IsRun(run) && i < |run| && id in run[i].started
    ensures InTransit(run[i], id) || WaitingSomewhere(run[i], id) || Ended(run[i], id)
    ensures !(InTransit(run[i], id) && WaitingSomewhere(run[i], id))
    ensures !(InTransit(run[i], id) && Ended(run[i], id))
    ensures !(WaitingSomewhere(run[i], id) && Ended(run[i], id))
    ensures id in run[i].taken && run[i].taken[id] <= |run[i].started[id].servs|
    ensures forall s :: s in run[i].log ==> NoDup(run[i].log[s])
    ensures forall s :: s in run[i].log ==> (id in run[i].log[s] <==> s in run[i].started[id].servs[..run[i].taken[id]])
    ensures Ended(run[i], id) <==> run[i].taken[id] == |run[i].started[id].servs|
    ensures Ended(run[i], id) ==> run[i].net[LockEnd(run[i].started[id].client, id)] == 1
  {
    RunKeeps(run, i);
    var st := run[i];
    assert Known(st, id) && Placed(st, id);
    if InTransit(st, id) { TransitMeans(st, id); }
    if WaitingSomewhere(st, id) { WaitingMeans(st, id); }
    if Ended(st, id) { EndedMeans(st, id); }
    forall s | s in st.log ensures id in st.log[s] <==> s in st.started[id].servs[..st.taken[id]] {
      TakenIsPrefix(st, id, s);
    }
  }

  /** The receiver's assert never fails, every UNLOCK finds its lock, and no handler
      ever sees all servers of a sent lock finished. */
  lemma PacketsFit(run: seq<State>, i: nat, m: Message)
    requires IsRun(run) && i < |run| && m in run[i].net && !m.LockEnd?
    ensures Receivable(run[i], m)
    ensures m.LockMsg? ==> m.curr < |m.req.servs| && m.req.servs[m.curr] == m.dest
    ensures m.Unlock? ==>
      var sent := run[i].servers[m.dest].sent; var p := Find(sent, m.id);
      p < |sent| && !AllFinished(Mark(sent[p], m.src))
  {
    RunKeeps(run, i);
    var st := run[i];
    assert MsgOk(st, m);
    if m.Unlock? {
      assert Known(st, m.id);
      var p := UnlockFindsLock(st, m.dest, m.src, m.id);
    } else {
      assert Known(st, m.req.id);
    }
  }

  lemma NotHeld(st: State, m: Message)
    requires Inv(st) && m in st.net && m.LockMsg? && m.dest in st.servers
    ensures !HeldAt(st.servers[m.dest].sent, m.req.id)
    ensures !HeldAt(st.servers[m.dest].waiting, m.req.id)
  {
    var s := st.servers[m.dest];
    assert MsgOk(st, m);
    forall p | 0 <= p < |s.sent| ensures s.sent[p].req.id != m.req.id {
      assert SentOk(st, m.dest, s.sent[p]);
    }
    forall p | 0 <= p < |s.waiting| ensures s.waiting[p].req.id != m.req.id {
      assert WaitOk(st, m.dest, s.waiting[p]);
    }
  }

  /** A LOCK packet finds its lock in neither list of its server: what HandleLock of the
      data server relies on. */
  lemma NewToServer(run: seq<State>, i: nat, m: Message)
    requires IsRun(run) && i < |run| && m in run[i].net && m.LockMsg? && m.dest in run[i].servers
    ensures !HeldAt(run[i].servers[m.dest].sent, m.req.id)
    ensures !HeldAt(run[i].servers[m.dest].waiting, m.req.id)
  {
    RunKeeps(run, i);
    NotHeld(run[i], m);
  }

  // ---- Progress -----------------------------------------------------------------------

  ghost predicate Quiet(st: State) {
    forall m :: m in st.net ==> m.LockEnd?
  }

  lemma UnfinishedNotTaken(st: State, s: int, o: Lock, i: nat)
    requires SentOk(st, s, o) && Quiet(st) && o.nextPos <= i < |o.finish| && !o.finish[i]
    ensures st.taken[o.req.id] <= i
  {
  }

  lemma QuietPlace(st: State, id: LockId)
    requires Quiet(st) && Known(st, id) && Placed(st, id) && st.taken[id] < |st.started[id].servs|
    ensures st.servers[st.started[id].servs[st.taken[id]]].waiting != []
  {
  }

  /** The lock that another waits for has not been taken where they meet next. */
  lemma Behind(st: State, s: int, o: Lock, b: Lock)
    requires SentOk(st, s, o) && WellFormed(b) && Conflict(o, b) && Quiet(st)
    ensures st.taken[o.req.id] < |o.req.servs| && s < o.req.servs[st.taken[o.req.id]]
  {
    var i, j :| FirstCommon(o, b, i, j) && !o.finish[i] && !b.finish[j];
    UnfinishedNotTaken(st, s, o, i);
  }

  /** A lock that waits while nothing is in flight waits for one waiting at a higher server. */
  lemma WaitsForHigher(st: State, s: int) returns (u: int)
    requires InvBase(st) && InvSent(st) && InvPlace(st) && AllSettled(st)
    requires Quiet(st) && s in st.servers && st.servers[s].waiting != []
    ensures s < u && u in st.servers && st.servers[u].waiting != []
  {
    var b := st.servers[s].waiting[0];
    var p :| 0 <= p < |st.servers[s].sent| && Conflict(st.servers[s].sent[p], b);
    var o := st.servers[s].sent[p];
    assert SentOk(st, s, o);
    Behind(st, s, o, b);
    QuietPlace(st, o.req.id);
    u := o.req.servs[st.taken[o.req.id]];
  }

  lemma {:induction false} NobodyWaits(st: State, above: set<int>, s: int)
    requires Inv(st) && Quiet(st) && s in st.servers
    requires above == set u | u in st.servers && u > s
    ensures st.servers[s].waiting == []
    decreases |above|
  {
    if st.servers[s].waiting != [] {
      var u := WaitsForHigher(st, s);
      var rest := set v | v in st.servers && v > u;
      assert rest < above by { assert u in above && u !in rest; }
      SmallerSet(rest, above);
      NobodyWaits(st, rest, u);
    }
  }

  lemma SmallerSet<T>(a: set<T>, b: set<T>)
    requires a < b
    ensures |a| < |b|
  {
    assert |b| == |a| + |b - a| by { assert b == a + (b - a); }
    assert b - a != {};
  }

  /** No deadlock: once no LOCK or UNLOCK is in flight, nothing waits anywhere and every
      started lock has been taken by all its servers and reported to its client. */
  lemma Progress(run: seq<State>, i: nat)
    requires IsRun(run) && i < |run| && Quiet(run[i])
    ensures forall s :: s in run[i].servers ==> run[i].servers[s].waiting == []
    ensures forall id :: id in run[i].started ==>
      && id in run[i].taken && run[i].taken[id] == |run[i].started[id].servs|
      && run[i].net[LockEnd(run[i].started[id].client, id)] == 1
  {
    RunKeeps(run, i);
    var st := run[i];
    forall s | s in st.servers ensures st.servers[s].waiting == [] {
      NobodyWaits(st, (set u | u in st.servers && u > s), s);
    }
    forall id | id in st.started
      ensures id in st.taken && st.taken[id] == |st.started[id].servs| && st.net[LockEnd(st.started[id].client, id)] == 1
    {
      assert Known(st, id) && Placed(st, id);
      assert MsgOk(st, LockEnd(st.started[id].client, id));
    }
  }

  // ---- Termination ---------------------------------------------------------------------

  /** What n servers, k of them done, may still cost: each take sends at most n packets. */
  function Cost(n: nat, k: nat): nat {
    if k <= n then (n - k) * (n + 1) else 0
  }

  function Hops(st: State): map<LockId, nat> {
    map id | id in st.started && id in st.taken :: Cost(|st.started[id].servs|, st.taken[id])
  }

  ghost function Measure(st: State): nat {
    |st.net| + Sum(Hops(st))
  }

  lemma CostDrops(n: nat, k: nat)
    requires k < n
    ensures Cost(n, k) == Cost(n, k + 1) + (n + 1)
  {
  }

  lemma HopsDrop(st: State, taken: map<LockId, nat>, id: LockId)
    requires id in st.started && id in st.taken && st.taken[id] < |st.started[id].servs|
    requires taken == st.taken[id := st.taken[id] + 1]
    ensures Sum(Hops(st.(taken := taken))) + |st.started[id].servs| + 1 == Sum(Hops(st))
  {
    var n, k := |st.started[id].servs|, st.taken[id];
    CostDrops(n, k);
    assert Hops(st.(taken := taken)) == Hops(st)[id := Cost(n, k + 1)];
    SumUpdate(Hops(st), id, Cost(n, k + 1));
  }

  lemma ReleaseCosts(st: State, s: int, i: int)
    requires InvBase(st) && InvWaiting(st) && CanRelease(st, s, i)
    ensures Measure(ReleaseAt(st, s, i)) < Measure(st)
  {
    var l, st' := st.servers[s].waiting[i], ReleaseAt(st, s, i);
    ReleaseTakes(st, s, i);
    HopsDrop(st, st'.taken, l.req.id);
    assert Hops(st') == Hops(st.(taken := st'.taken));
    assert |multiset(Release(st.servers[s], i).out)| == l.nextPos;
  }

  lemma {:induction false} DrainCosts(st: State, s: int)
    requires InvBusy(st, s)
    ensures Measure(Apply(st, s, Drain(st.servers[s]))) <= Measure(st)
    decreases |st.servers[s].waiting|
  {
    var server := st.servers[s];
    var i := FirstFree(server, 0);
    if i == |server.waiting| {
      NothingTaken(st, s, server);
      assert st.servers[s := server] == st.servers;
    } else {
      assert CanRelease(st, s, i);
      ReleaseCosts(st, s, i);
      ReleaseKeepsBusy(st, s, i);
      var st' := ReleaseAt(st, s, i);
      DrainCosts(st', s);
      ApplyTwice(st, s, Release(server, i), Drain(st'.servers[s]));
    }
  }

  lemma ConsumeCosts(st: State, st': State, m: Message)
    requires m in st.net && st'.net == st.net - multiset{m} && st'.started == st.started && st'.taken == st.taken
    ensures Measure(st') < Measure(st)
  {
  }

  lemma LockDeliveryCosts(st: State, m: Message)
    requires Inv(st) && m in st.net && Receivable(st, m) && m.LockMsg?
    ensures Measure(Received(st, m)) < Measure(st)
  {
    LockStepIs(st, m);
    ParkKeeps(st, m);
    ConsumeCosts(st, Park(st, m), m);
    if !ConflictAny(st.servers[m.dest].sent, NewLock(m.curr, m.req)) {
      ReleaseCosts(Park(st, m), m.dest, |st.servers[m.dest].waiting|);
    }
  }

  lemma UnlockDeliveryCosts(st: State, m: Message)
    requires Inv(st) && m in st.net && Receivable(st, m) && m.Unlock?
    ensures Measure(Received(st, m)) < Measure(st)
  {
    UnlockFound(st, m);
    UnlockStepIs(st, m, Find(st.servers[m.dest].sent, m.id));
    UnlockKeepsBusy(st, m);
    ConsumeCosts(st, MarkUnlock(st, m), m);
    DrainCosts(MarkUnlock(st, m), m.dest);
  }

  /** Every delivery brings the whole system closer to rest. */
  lemma DeliveryCosts(st: State, m: Message)
    requires Inv(st) && m in st.net && Receivable(st, m)
    ensures Measure(Received(st, m)) < Measure(st)
  {
    if m.LockMsg? {
      LockDeliveryCosts(st, m);
    } else {
      UnlockDeliveryCosts(st, m);
    }
  }

  ghost predicate Delivers(st: State, st': State) {
    exists m :: DeliverStep(st, st', m)
  }

  ghost predicate DeliveredAt(run: seq<State>, i: int)
    requires 0 < i < |run|
  {
    Delivers(run[i - 1], run[i])
  }

  /** From position k on, the run only delivers packets. */
  ghost predicate DeliversFrom(run: seq<State>, k: nat) {
    forall i :: k < i < |run| ==> DeliveredAt(run, i)
  }

  lemma OneDelivery(run: seq<State>, i: nat)
    requires IsRun(run) && 0 < i < |run| && DeliveredAt(run, i)
    ensures Measure(run[i]) < Measure(run[i - 1])
  {
    RunKeeps(run, i - 1);
    var m :| DeliverStep(run[i - 1], run[i], m);
    DeliveryCosts(run[i - 1], m);
  }

  lemma {:induction false} DeliveriesCost(run: seq<State>, k: nat, i: nat)
    requires IsRun(run) && k <= i < |run| && DeliversFrom(run, k)
    ensures Measure(run[i]) + (i - k) <= Measure(run[k])
  {
    if k < i {
      DeliveriesCost(run, k, i - 1);
      OneDelivery(run, i);
    }
  }

  ghost predicate Stuck(st: State) {
    !exists st' :: Delivers(st, st')
  }

  lemma StuckIsQuiet(run: seq<State>, i: nat)
    requires IsRun(run) && i < |run| && Stuck(run[i])
    ensures Quiet(run[i])
  {
    forall m | m in run[i].net ensures m.LockEnd? {
      if !m.LockEnd? {
        PacketsFit(run, i, m);
        assert DeliverStep(run[i], Received(run[i], m), m);
        assert Delivers(run[i], Received(run[i], m));
      }
    }
  }

  ghost predicate AllEnded(st: State) {
    forall id :: id in st.started ==>
      id in st.taken && st.taken[id] == |st.started[id].servs| && st.net[LockEnd(st.started[id].client, id)] == 1
  }

  lemma StuckIsComplete(run: seq<State>, i: nat)
    requires IsRun(run) && i < |run| && Stuck(run[i])
    ensures AllEnded(run[i])
  {
    StuckIsQuiet(run, i);
    Progress(run, i);
  }

  /** Once clients stop asking, the packets run out after a number of deliveries known
      in advance; when no delivery is left, every lock is complete. */
  lemma EveryLockCompletes(run: seq<State>, k: nat)
    requires IsRun(run) && k < |run| && DeliversFrom(run, k)
    ensures |run| - 1 - k <= Measure(run[k])
    ensures Stuck(run[|run| - 1]) ==> AllEnded(run[|run| - 1])
  {
    DeliveriesCost(run, k, |run| - 1);
    if Stuck(run[|run| - 1]) {
      StuckIsComplete(run, |run| - 1);
    }
  }

  // ---- Looking ahead ---------------------------------------------------------------------

  /** What has been asked and what has been taken stays so. */
  ghost predicate Grew(st: State, st': State) {
    && (forall id :: id in st.started ==> id in st'.started && st'.started[id] == st.started[id])
    && st'.log.Keys == st.log.Keys && forall s :: s in st.log ==> st.log[s] <= st'.log[s]
  }

  lemma StepGrew(st: State, st': State)
    requires Next(st, st')
    ensures Grew(st, st')
  {
    if req :| StartStep(st, st', req) {
    } else {
      var m :| DeliverStep(st, st', m);
    }
  }

  lemma {:induction false} RunGrew(run: seq<State>, i: nat, j: nat)
    requires IsRun(run) && i <= j < |run|
    ensures Grew(run[i], run[j])
    decreases j - i
  {
    if i < j {
      RunGrew(run, i, j - 1);
      assert NextAt(run, j);
      StepGrew(run[j - 1], run[j]);
    }
  }

  lemma PrecedesStays<T>(xs: seq<T>, ys: seq<T>, a: T, b: T)
    requires xs <= ys && Precedes(xs, a, b)
    ensures Precedes(ys, a, b)
  {
    var p, q :| 0 <= p < q < |xs| && xs[p] == a && xs[q] == b;
    assert ys[p] == a && ys[q] == b;
  }

  lemma OneMoreDelivery(run: seq<State>) returns (st': State)
    requires IsRun(run) && !Quiet(run[|run| - 1])
    ensures IsRun(run + [st']) && Measure(st') < Measure(run[|run| - 1])
  {
    var st, last := run[|run| - 1], |run| - 1;
    var m :| m in st.net && !m.LockEnd?;
    PacketsFit(run, last, m);
    RunKeeps(run, last);
    DeliveryCosts(st, m);
    st' := Received(st, m);
    assert DeliverStep(st, st', m);
    RunGrows(run, st');
  }

  /** Every run can go on, without further requests, until nothing is in flight but
      LOCK_END packets. */
  lemma Finish(run: seq<State>) returns (longer: seq<State>)
    requires IsRun(run)
    ensures IsRun(longer) && run <= longer && Quiet(longer[|longer| - 1])
    decreases Measure(run[|run| - 1])
  {
    if Quiet(run[|run| - 1]) {
      longer := run;
    } else {
      var st' := OneMoreDelivery(run);
      longer := Finish(run + [st']);
    }
  }
}
