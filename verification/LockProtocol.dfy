/** Any number of data servers joined by a network that delivers every packet
    exactly once, in any order. */
module LockProtocol {
  import opened LockServer
  import opened Seqs

  /** taken counts, for each lock, the servers that have taken it; log lists, for
      each server, the locks it has taken in order. Both only record history. */
  datatype State = State(
    servers: map<int, Server>,
    net: multiset<Message>,
    started: map<LockId, Request>,
    taken: map<LockId, nat>,
    log: map<int, seq<LockId>>)

  ghost predicate Init(st: State) {
    && st.log.Keys == st.servers.Keys
    && (forall s :: s in st.servers ==> st.servers[s] == Server(s, [], []) && st.log[s] == [])
    && st.net == multiset{}
    && st.started == map[] && st.taken == map[]
  }

  // ---- Steps ------------------------------------------------------------------

  function Bump(taken: map<LockId, nat>, ids: seq<LockId>): map<LockId, nat> {
    if ids == [] then taken
    else if ids[0] in taken then Bump(taken[ids[0] := taken[ids[0]] + 1], ids[1..])
    else Bump(taken, ids[1..])
  }

  function Apply(st: State, s: int, o: Outcome): State
    requires s in st.servers && s in st.log
  {
    st.(servers := st.servers[s := o.server],
        net := st.net + multiset(o.out),
        taken := Bump(st.taken, o.taken),
        log := st.log[s := st.log[s] + o.taken])
  }

  function Consume(st: State, m: Message): State
  {
    st.(net := st.net - multiset{m})
  }

  /** A client asks for a lock with a fresh id and a sorted list of known servers. */
  ghost predicate StartStep(st: State, st': State, req: Request) {
    && req.id !in st.started
    && req.servs != [] && Ascending(req.servs)
    && (forall i :: 0 <= i < |req.servs| ==> req.servs[i] in st.servers)
    && st' == st.(
      net := st.net + multiset{LockMsg(req.servs[0], 0, req)},
      started := st.started[req.id := req],
      taken := st.taken[req.id := 0])
  }

  /** What the receiving server relies on; its code asserts the last conjunct. */
  ghost predicate Receivable(st: State, m: Message) {
    && !m.LockEnd?
    && m.dest in st.servers && m.dest in st.log && ServerOk(st.servers[m.dest])
    && (m.LockMsg? ==> Ascending(m.req.servs) && m.curr < |m.req.servs| && m.req.servs[m.curr] == m.dest)
  }

  ghost function Received(st: State, m: Message): State
    requires Receivable(st, m)
  {
    var s := st.servers[m.dest];
    Apply(Consume(st, m), m.dest,
      if m.LockMsg? then OnLock(s, m.curr, m.req) else OnUnlock(s, m.src, m.id))
  }

  ghost predicate DeliverStep(st: State, st': State, m: Message) {
    && m in st.net && Receivable(st, m) && st' == Received(st, m)
  }

  ghost predicate Next(st: State, st': State) {
    || (exists req :: StartStep(st, st', req))
    || (exists m :: DeliverStep(st, st', m))
  }

  ghost predicate NextAt(run: seq<State>, i: int)
    requires 0 < i < |run|
  {
    Next(run[i - 1], run[i])
  }

  ghost predicate IsRun(run: seq<State>) {
    && |run| > 0 && Init(run[0])
    && forall i :: 0 < i < |run| ==> NextAt(run, i)
  }

  lemma RunGrows(run: seq<State>, st: State)
    requires IsRun(run) && Next(run[|run| - 1], st)
    ensures IsRun(run + [st])
  {
    forall i | 0 < i < |run + [st]| ensures NextAt(run + [st], i) {
      assert i < |run| ==> NextAt(run, i);
    }
  }

  // ---- Invariant ----------------------------------------------------------------

  ghost predicate TakenAt(st: State, id: LockId, s: int) {
    && id in st.started && id in st.taken
    && exists i :: 0 <= i < st.taken[id] && i < |st.started[id].servs| && st.started[id].servs[i] == s
  }

  ghost predicate Known(st: State, id: LockId) {
    && id in st.started && id in st.taken
    && st.started[id].id == id
    && st.started[id].servs != [] && Ascending(st.started[id].servs)
    && (forall i :: 0 <= i < |st.started[id].servs| ==> st.started[id].servs[i] in st.servers)
    && st.taken[id] <= |st.started[id].servs|
  }

  ghost predicate InvBase(st: State) {
    && st.started.Keys == st.taken.Keys
    && (forall id :: id in st.started ==> Known(st, id))
    && st.servers.Keys == st.log.Keys
    && (forall s :: s in st.servers ==> st.servers[s].id == s)
  }

  ghost predicate InvLog(st: State) {
    && (forall s, id :: s in st.log ==> (id in st.log[s] <==> TakenAt(st, id, s)))
    && (forall s :: s in st.log ==> NoDup(st.log[s]))
  }

  /** A remembered lock sits at a server it passed, and knows exactly the later
      servers whose UNLOCK has arrived. */
  ghost predicate SentOk(st: State, s: int, l: Lock) {
    var id := l.req.id;
    && WellFormed(l) && Known(st, id) && l.req == st.started[id]
    && l.nextPos < |l.req.servs| && l.nextPos <= st.taken[id]
    && l.req.servs[l.nextPos - 1] == s
    && forall j :: 0 <= j < |l.finish| ==>
         (l.finish[j] <==> l.nextPos <= j < st.taken[id] && Unlock(s, l.req.servs[j], id) !in st.net)
  }

  ghost predicate InvSent(st: State) {
    && (forall s, p :: s in st.servers && 0 <= p < |st.servers[s].sent| ==> SentOk(st, s, st.servers[s].sent[p]))
    && (forall s, p, q :: s in st.servers && 0 <= p < q < |st.servers[s].sent| ==>
          st.servers[s].sent[p].req.id != st.servers[s].sent[q].req.id)
  }

  ghost predicate HeldAt(ls: seq<Lock>, id: LockId) {
    exists p :: 0 <= p < |ls| && ls[p].req.id == id
  }

  /** Whoever passed a server before its last one is still remembered there. */
  ghost predicate InvRemembered(st: State) {
    forall id, i ::
      (id in st.started && id in st.taken && 0 <= i < st.taken[id] && i + 1 < |st.started[id].servs| &&
       st.started[id].servs[i] in st.servers) ==>
        HeldAt(st.servers[st.started[id].servs[i]].sent, id)
  }

  ghost predicate WaitOk(st: State, s: int, l: Lock) {
    var id := l.req.id;
    && WellFormed(l) && Known(st, id) && l.req == st.started[id]
    && l.nextPos == st.taken[id] + 1
    && l.req.servs[l.nextPos - 1] == s
    && (forall j :: 0 <= j < |l.finish| ==> !l.finish[j])
    && LockMsg(s, l.nextPos - 1, l.req) !in st.net
  }

  ghost predicate InvWaiting(st: State) {
    && (forall s, p :: s in st.servers && 0 <= p < |st.servers[s].waiting| ==> WaitOk(st, s, st.servers[s].waiting[p]))
    && (forall s, p, q :: s in st.servers && 0 <= p < q < |st.servers[s].waiting| ==>
          st.servers[s].waiting[p].req.id != st.servers[s].waiting[q].req.id)
  }

  ghost predicate UnlockOk(st: State, dest: int, src: int, id: LockId) {
    && Known(st, id)
    && exists i, j :: 0 <= i < j < st.taken[id] && st.started[id].servs[i] == dest && st.started[id].servs[j] == src
  }

  ghost predicate MsgOk(st: State, m: Message) {
    && st.net[m] == 1
    && match m
       case LockMsg(dest, curr, req) =>
         && Known(st, req.id) && req == st.started[req.id]
         && curr == st.taken[req.id] && curr < |req.servs| && dest == req.servs[curr]
       case Unlock(dest, src, id) => UnlockOk(st, dest, src, id)
       case LockEnd(client, id) =>
         Known(st, id) && st.taken[id] == |st.started[id].servs| && client == st.started[id].client
  }

  ghost predicate InvMsgs(st: State) {
    forall m :: m in st.net ==> MsgOk(st, m)
  }

  /** The token of a lock: its one LOCK packet, its one place in a waiting list, or LOCK_END. */
  ghost predicate Placed(st: State, id: LockId)
    requires Known(st, id)
  {
    var req := st.started[id];
    var k := st.taken[id];
    if k < |req.servs| then
      LockMsg(req.servs[k], k, req) in st.net || HeldAt(st.servers[req.servs[k]].waiting, id)
    else
      LockEnd(req.client, id) in st.net
  }

  ghost predicate InvPlace(st: State) {
    forall id :: id in st.started && Known(st, id) ==> Placed(st, id)
  }

  ghost predicate Inv0(st: State) {
    && InvBase(st) && InvLog(st) && InvSent(st) && InvRemembered(st)
    && InvWaiting(st) && InvMsgs(st) && InvPlace(st)
  }

  // ---- What does not change ----------------------------------------------------------

  lemma SentFrame(st: State, st': State, s: int, l: Lock)
    requires SentOk(st, s, l) && Known(st', l.req.id)
    requires st'.started == st.started && st'.taken == st.taken
    requires forall src :: Unlock(s, src, l.req.id) in st.net <==> Unlock(s, src, l.req.id) in st'.net
    ensures SentOk(st', s, l)
  {
  }

  lemma WaitFrame(st: State, st': State, s: int, l: Lock)
    requires WaitOk(st, s, l) && Known(st', l.req.id)
    requires st'.started[l.req.id] == st.started[l.req.id] && st'.taken[l.req.id] == st.taken[l.req.id]
    requires LockMsg(s, l.nextPos - 1, l.req) in st'.net ==> LockMsg(s, l.nextPos - 1, l.req) in st.net
    ensures WaitOk(st', s, l)
  {
  }

  lemma FoundIfHeld(ls: seq<Lock>, id: LockId)
    requires HeldAt(ls, id)
    ensures Find(ls, id) < |ls|
  {
  }

  lemma HeldMore(ls: seq<Lock>, l: Lock, id: LockId)
    ensures HeldAt(ls, id) || l.req.id == id ==> HeldAt(ls + [l], id)
  {
    if HeldAt(ls, id) {
      var p :| 0 <= p < |ls| && ls[p].req.id == id;
      assert (ls + [l])[p].req.id == id;
    }
    assert (ls + [l])[|ls|] == l;
  }

  // ---- Small steps ----------------------------------------------------------------

  /** A LOCK packet is read and its lock put at the end of the waiting list. */
  ghost function Park(st: State, m: Message): State
    requires m.LockMsg? && Receivable(st, m)
  {
    var s := st.servers[m.dest];
    Consume(st, m).(servers := st.servers[m.dest := s.(waiting := s.waiting + [NewLock(m.curr, m.req)])])
  }

  ghost function MarkUnlock(st: State, m: Message): State
    requires m.Unlock? && Receivable(st, m)
  {
    var s := st.servers[m.dest];
    var p := Find(s.sent, m.id);
    if p == |s.sent| then Consume(st, m)
    else Consume(st, m).(servers := st.servers[m.dest := MarkSent(s, p, m.src)])
  }

  ghost predicate CanRelease(st: State, s: int, i: int) {
    && s in st.servers && s in st.log && ServerOk(st.servers[s])
    && 0 <= i < |st.servers[s].waiting|
  }

  ghost function ReleaseAt(st: State, s: int, i: int): State
    requires CanRelease(st, s, i)
  {
    Apply(st, s, Release(st.servers[s], i))
  }

  // Starting a lock

  lemma StartKeepsBase(st: State, st': State, req: Request)
    requires InvBase(st) && StartStep(st, st', req)
    ensures InvBase(st')
    ensures forall id :: id in st.started ==> Known(st, id) && Known(st', id)
  {
  }

  lemma StartKeepsLog(st: State, st': State, req: Request)
    requires InvBase(st) && InvLog(st) && StartStep(st, st', req)
    ensures InvLog(st')
  {
  }

  lemma StartKeepsSent(st: State, st': State, req: Request)
    requires InvBase(st) && InvSent(st) && InvRemembered(st) && StartStep(st, st', req)
    ensures InvSent(st') && InvRemembered(st')
  {
    StartKeepsBase(st, st', req);
    forall s, p | s in st'.servers && 0 <= p < |st'.servers[s].sent| ensures SentOk(st', s, st'.servers[s].sent[p]) {
      assert SentOk(st, s, st.servers[s].sent[p]);
    }
  }

  lemma StartKeepsWaiting(st: State, st': State, req: Request)
    requires InvBase(st) && InvWaiting(st) && StartStep(st, st', req)
    ensures InvWaiting(st')
  {
  }

  lemma StartMsg(st: State, st': State, req: Request, m: Message)
    requires InvBase(st) && InvMsgs(st) && StartStep(st, st', req) && m in st'.net
    requires forall id :: id in st.started ==> Known(st, id) && Known(st', id)
    ensures MsgOk(st', m)
  {
    var fresh_ := LockMsg(req.servs[0], 0, req);
    assert fresh_ in st.net ==> MsgOk(st, fresh_);
    assert m in st.net ==> MsgOk(st, m);
    assert st'.net[m] == 1;
  }

  lemma StartKeepsNet(st: State, st': State, req: Request)
    requires InvBase(st) && InvMsgs(st) && InvPlace(st) && StartStep(st, st', req)
    ensures InvMsgs(st') && InvPlace(st')
  {
    StartKeepsBase(st, st', req);
    forall m | m in st'.net ensures MsgOk(st', m) {
      StartMsg(st, st', req, m);
    }
    forall id | id in st'.started && Known(st', id) ensures Placed(st', id) {
      assert id != req.id ==> Known(st, id) && Placed(st, id);
    }
  }

  lemma StartKeeps(st: State, st': State, req: Request)
    requires Inv0(st) && StartStep(st, st', req)
    ensures Inv0(st')
  {
    StartKeepsBase(st, st', req);
    StartKeepsLog(st, st', req);
    StartKeepsSent(st, st', req);
    StartKeepsWaiting(st, st', req);
    StartKeepsNet(st, st', req);
  }

  // Reading a LOCK packet

  lemma ParkKeepsBase(st: State, m: Message)
    requires InvBase(st) && m.LockMsg? && Receivable(st, m)
    ensures InvBase(Park(st, m))
    ensures forall id :: Known(st, id) <==> Known(Park(st, m), id)
  {
  }

  /** Reading a LOCK packet says nothing about a lock that was passed on. */
  lemma SentUnread(st: State, st': State, m: Message, s: int, l: Lock)
    requires SentOk(st, s, l) && m.LockMsg? && st'.net == st.net - multiset{m}
    requires st'.started == st.started && st'.taken == st.taken && Known(st', l.req.id)
    ensures SentOk(st', s, l)
  {
  }

  lemma ParkKeepsSent(st: State, m: Message)
    requires InvBase(st) && InvSent(st) && m.LockMsg? && Receivable(st, m)
    ensures InvSent(Park(st, m))
  {
    ParkKeepsBase(st, m);
    var st' := Park(st, m);
    forall s, p | s in st'.servers && 0 <= p < |st'.servers[s].sent| ensures SentOk(st', s, st'.servers[s].sent[p]) {
      SentUnread(st, st', m, s, st.servers[s].sent[p]);
    }
  }

  lemma ParkWaitsAt(st: State, m: Message, s: int, p: nat)
    requires InvBase(st) && InvWaiting(st) && m in st.net && m.LockMsg? && Receivable(st, m) && MsgOk(st, m)
    requires s in Park(st, m).servers && p < |Park(st, m).servers[s].waiting|
    ensures WaitOk(Park(st, m), s, Park(st, m).servers[s].waiting[p])
  {
    ParkKeepsBase(st, m);
    if p < |st.servers[s].waiting| {
      WaitFrame(st, Park(st, m), s, st.servers[s].waiting[p]);
    }
  }

  lemma ParkWaitsApart(st: State, m: Message, s: int, p: nat, q: nat)
    requires InvWaiting(st) && m in st.net && m.LockMsg? && Receivable(st, m) && MsgOk(st, m)
    requires s in Park(st, m).servers && p < q < |Park(st, m).servers[s].waiting|
    ensures Park(st, m).servers[s].waiting[p].req.id != Park(st, m).servers[s].waiting[q].req.id
  {
    assert WaitOk(st, s, st.servers[s].waiting[p]);
  }

  lemma ParkKeepsWaiting(st: State, m: Message)
    requires InvBase(st) && InvWaiting(st) && m in st.net && m.LockMsg? && Receivable(st, m) && MsgOk(st, m)
    ensures InvWaiting(Park(st, m))
  {
    var st' := Park(st, m);
    forall s, p | s in st'.servers && 0 <= p < |st'.servers[s].waiting| ensures WaitOk(st', s, st'.servers[s].waiting[p]) {
      ParkWaitsAt(st, m, s, p);
    }
    forall s, p, q | s in st'.servers && 0 <= p < q < |st'.servers[s].waiting|
      ensures st'.servers[s].waiting[p].req.id != st'.servers[s].waiting[q].req.id
    {
      ParkWaitsApart(st, m, s, p, q);
    }
  }

  lemma ParkKeepsMsgs(st: State, m: Message)
    requires InvBase(st) && InvMsgs(st) && m in st.net && m.LockMsg? && Receivable(st, m)
    ensures InvMsgs(Park(st, m))
  {
  }

  lemma ParkKeepsPlace(st: State, m: Message)
    requires InvBase(st) && InvPlace(st) && m in st.net && m.LockMsg? && Receivable(st, m)
    ensures InvPlace(Park(st, m))
  {
    ParkKeepsBase(st, m);
    var st' := Park(st, m);
    forall id | id in st'.started && Known(st', id) ensures Placed(st', id) {
      assert Placed(st, id);
      var req := st.started[id];
      var k := st.taken[id];
      if k < |req.servs| {
        var w, w' := st.servers[req.servs[k]].waiting, st'.servers[req.servs[k]].waiting;
        if HeldAt(w, id) {
          var p :| 0 <= p < |w| && w[p].req.id == id;
          assert w'[p] == w[p];
        } else if m == LockMsg(req.servs[k], k, req) {
          assert w'[|w|].req.id == id;
        }
      }
    }
  }

  lemma ParkKeeps(st: State, m: Message)
    requires Inv0(st) && m in st.net && m.LockMsg? && Receivable(st, m)
    ensures Inv0(Park(st, m))
  {
    ParkKeepsBase(st, m);
    ParkKeepsSent(st, m);
    ParkKeepsWaiting(st, m);
    ParkKeepsMsgs(st, m);
    ParkKeepsPlace(st, m);
    var st' := Park(st, m);
    assert InvLog(st') by {
      assert forall id, s :: TakenAt(st', id, s) <==> TakenAt(st, id, s);
    }
    assert InvRemembered(st');
  }

  // Reading an UNLOCK packet

  lemma Remembered(st: State, id: LockId, i: nat)
    requires InvRemembered(st) && Known(st, id)
    requires i < st.taken[id] && i + 1 < |st.started[id].servs|
    ensures HeldAt(st.servers[st.started[id].servs[i]].sent, id)
  {
  }

  /** The later server an UNLOCK came from is still ahead of the lock it names. */
  ghost predicate Reports(st: State, l: Lock, src: int) {
    && l.req.id in st.taken
    && exists j :: l.nextPos <= j < st.taken[l.req.id] && j < |l.req.servs| && l.req.servs[j] == src
  }

  lemma ReportsFinishes(st: State, s: int, l: Lock, src: int, i: nat)
    requires SentOk(st, s, l) && i < st.taken[l.req.id] && l.req.servs[i] == s
    requires exists j :: i < j < st.taken[l.req.id] && l.req.servs[j] == src
    ensures Reports(st, l, src) && !AllFinished(Mark(l, src))
  {
    var j :| i < j < st.taken[l.req.id] && l.req.servs[j] == src;
    assert l.nextPos - 1 == i;
    assert !Mark(l, src).finish[i];
  }

  /** The UNLOCK finds its lock, and never marks the lock's last unfinished server. */
  lemma UnlockFindsLock(st: State, dest: int, src: int, id: LockId) returns (p: nat)
    requires InvSent(st) && InvRemembered(st) && dest in st.servers && UnlockOk(st, dest, src, id)
    ensures p == Find(st.servers[dest].sent, id) < |st.servers[dest].sent|
    ensures var l := st.servers[dest].sent[p];
      WellFormed(l) && Reports(st, l, src) && !AllFinished(Mark(l, src))
  {
    var servs := st.started[id].servs;
    var i, j :| 0 <= i < j < st.taken[id] && servs[i] == dest && servs[j] == src;
    Remembered(st, id, i);
    FoundIfHeld(st.servers[dest].sent, id);
    p := Find(st.servers[dest].sent, id);
    var l := st.servers[dest].sent[p];
    assert SentOk(st, dest, l);
    ReportsFinishes(st, dest, l, src, i);
  }

  lemma MarkKeepsBase(st: State, m: Message)
    requires InvBase(st) && m.Unlock? && Receivable(st, m)
    ensures InvBase(MarkUnlock(st, m))
    ensures forall id :: Known(st, id) <==> Known(MarkUnlock(st, m), id)
  {
  }

  /** Marking one report keeps a sent lock's flags exact once the packet is gone. */
  lemma MarkOk(st: State, st': State, s: int, l: Lock, src: int)
    requires SentOk(st, s, l) && Reports(st, l, src) && Known(st', l.req.id)
    requires st'.started == st.started && st'.taken == st.taken
    requires st.net[Unlock(s, src, l.req.id)] == 1 && st'.net == st.net - multiset{Unlock(s, src, l.req.id)}
    ensures SentOk(st', s, Mark(l, src))
  {
  }

  lemma MarkEffect(st: State, m: Message, p: nat)
    requires m.Unlock? && Receivable(st, m)
    requires p == Find(st.servers[m.dest].sent, m.id) < |st.servers[m.dest].sent|
    requires !AllFinished(Mark(st.servers[m.dest].sent[p], m.src))
    ensures var s, st' := st.servers[m.dest], MarkUnlock(st, m);
      st' == st.(net := st.net - multiset{m},
                 servers := st.servers[m.dest := s.(sent := s.sent[p := Mark(s.sent[p], m.src)])])
  {
  }

  /** st' is st after the p-th sent lock of m's server was marked. */
  ghost predicate Marked(st: State, st': State, m: Message, p: nat) {
    && m.Unlock? && m.dest in st.servers && p < |st.servers[m.dest].sent| && WellFormed(st.servers[m.dest].sent[p])
    && var d := st.servers[m.dest];
      st' == st.(net := st.net - multiset{m},
                 servers := st.servers[m.dest := d.(sent := d.sent[p := Mark(d.sent[p], m.src)])])
  }

  lemma MarkedApart(st: State, st': State, m: Message, p: nat, s: int, q: nat, r: nat)
    requires InvSent(st) && Marked(st, st', m, p) && s in st.servers && q < r < |st'.servers[s].sent|
    ensures st'.servers[s].sent[q].req.id != st'.servers[s].sent[r].req.id
  {
    assert st.servers[s].sent[q].req.id != st.servers[s].sent[r].req.id;
  }

  lemma MarkKeepsSent(st: State, m: Message, p: nat)
    requires InvBase(st) && InvSent(st) && m in st.net && m.Unlock? && Receivable(st, m) && st.net[m] == 1
    requires p == Find(st.servers[m.dest].sent, m.id) < |st.servers[m.dest].sent|
    requires Reports(st, st.servers[m.dest].sent[p], m.src) && !AllFinished(Mark(st.servers[m.dest].sent[p], m.src))
    ensures InvSent(MarkUnlock(st, m))
  {
    var st' := MarkUnlock(st, m);
    MarkKeepsBase(st, m);
    MarkEffect(st, m, p);
    forall s, q | s in st'.servers && 0 <= q < |st'.servers[s].sent| ensures SentOk(st', s, st'.servers[s].sent[q]) {
      MarkKeepsSentAt(st, st', m, p, s, q);
    }
    forall s, q, r | s in st'.servers && 0 <= q < r < |st'.servers[s].sent|
      ensures st'.servers[s].sent[q].req.id != st'.servers[s].sent[r].req.id
    {
      MarkedApart(st, st', m, p, s, q, r);
    }
  }

  lemma MarkKeepsSentAt(st: State, st': State, m: Message, p: nat, s: int, q: nat)
    requires InvSent(st) && Marked(st, st', m, p) && st.net[m] == 1
    requires s in st.servers && q < |st.servers[s].sent| && st.servers[m.dest].sent[p].req.id == m.id
    requires Reports(st, st.servers[m.dest].sent[p], m.src)
    requires Known(st, st.servers[s].sent[q].req.id) ==> Known(st', st.servers[s].sent[q].req.id)
    ensures SentOk(st', s, st'.servers[s].sent[q])
  {
    var l := st.servers[s].sent[q];
    assert SentOk(st, s, l);
    if s == m.dest && q == p {
      MarkOk(st, st', s, l, m.src);
    } else {
      OtherLock(st, m, p, s, q);
      SentFrame(st, st', s, l);
    }
  }

  lemma OtherLock(st: State, m: Message, p: nat, s: int, q: nat)
    requires InvSent(st) && s in st.servers && q < |st.servers[s].sent|
    requires m.Unlock? && m.dest in st.servers && p < |st.servers[m.dest].sent| && (s != m.dest || q != p)
    ensures s == m.dest ==> st.servers[s].sent[q].req.id != st.servers[m.dest].sent[p].req.id
  {
    if s == m.dest {
      assert if q < p then st.servers[s].sent[q].req.id != st.servers[s].sent[p].req.id
             else st.servers[s].sent[p].req.id != st.servers[s].sent[q].req.id;
    }
  }

  lemma MarkKeepsMsgs(st: State, m: Message)
    requires InvBase(st) && InvMsgs(st) && m in st.net && m.Unlock? && Receivable(st, m)
    ensures InvMsgs(MarkUnlock(st, m))
  {
  }

  lemma MarkKeepsWaiting(st: State, st': State, m: Message, p: nat)
    requires InvWaiting(st) && Marked(st, st', m, p) && forall id :: Known(st, id) ==> Known(st', id)
    ensures InvWaiting(st')
  {
    forall s, q | s in st'.servers && 0 <= q < |st'.servers[s].waiting| ensures WaitOk(st', s, st'.servers[s].waiting[q]) {
      WaitFrame(st, st', s, st.servers[s].waiting[q]);
    }
  }

  lemma MarkKeepsPlace(st: State, st': State, m: Message, p: nat)
    requires InvPlace(st) && Marked(st, st', m, p) && forall id :: Known(st', id) ==> Known(st, id)
    requires InvBase(st)
    ensures InvPlace(st')
  {
    forall id | id in st'.started && Known(st', id) ensures Placed(st', id) {
      assert Placed(st, id);
    }
  }

  lemma MarkedHeld(st: State, st': State, m: Message, p: nat, s: int, id: LockId)
    requires Marked(st, st', m, p) && s in st.servers && HeldAt(st.servers[s].sent, id)
    ensures HeldAt(st'.servers[s].sent, id)
  {
    var q :| 0 <= q < |st.servers[s].sent| && st.servers[s].sent[q].req.id == id;
    assert st'.servers[s].sent[q].req.id == id;
  }

  lemma MarkKeepsRemembered(st: State, st': State, m: Message, p: nat)
    requires InvRemembered(st) && Marked(st, st', m, p)
    ensures InvRemembered(st')
  {
    forall s, id | s in st.servers && HeldAt(st.servers[s].sent, id) ensures HeldAt(st'.servers[s].sent, id) {
      MarkedHeld(st, st', m, p, s, id);
    }
  }

  lemma MarkKeepsLog(st: State, m: Message)
    requires InvLog(st) && m.Unlock? && Receivable(st, m)
    ensures InvLog(MarkUnlock(st, m))
  {
  }

  lemma MarkKeeps(st: State, m: Message)
    requires Inv0(st) && m in st.net && m.Unlock? && Receivable(st, m)
    ensures Inv0(MarkUnlock(st, m))
  {
    assert MsgOk(st, m);
    var p := UnlockFindsLock(st, m.dest, m.src, m.id);
    MarkKeepsBase(st, m);
    MarkKeepsSent(st, m, p);
    MarkKeepsMsgs(st, m);
    MarkEffect(st, m, p);
    MarkKeepsWaiting(st, MarkUnlock(st, m), m, p);
    MarkKeepsPlace(st, MarkUnlock(st, m), m, p);
    MarkKeepsRemembered(st, MarkUnlock(st, m), m, p);
    MarkKeepsLog(st, m);
  }

  // Taking a waiting lock

  /** The packets of one take, each sent once. */
  ghost predicate SentByTake(self: int, l: Lock, m: Message)
    requires WellFormed(l)
  {
    || m == NextOf(l)
    || (m.Unlock? && m.src == self && m.id == l.req.id &&
        exists i :: 0 <= i < l.nextPos - 1 && l.req.servs[i] == m.dest)
  }

  lemma TakeOut(self: int, l: Lock, m: Message)
    requires WellFormed(l)
    ensures multiset(UnlocksOf(self, l) + [NextOf(l)])[m] == if SentByTake(self, l, m) then 1 else 0
  {
    var out := UnlocksOf(self, l) + [NextOf(l)];
    assert NoDup(out);
    NoDupCount(out, m);
    if m.Unlock? && m.src == self && m.id == l.req.id {
      if i :| 0 <= i < l.nextPos - 1 && l.req.servs[i] == m.dest {
        assert out[i] == m;
      }
    }
    assert NextOf(l) == out[|out| - 1];
  }

  /** st' is st after server s took its i-th waiting lock. */
  ghost predicate Took(st: State, st': State, s: int, i: int, l: Lock) {
    && s in st.servers && s in st.log && 0 <= i < |st.servers[s].waiting|
    && l == st.servers[s].waiting[i] && WaitOk(st, s, l)
    && (forall m :: st'.net[m] == st.net[m] + if SentByTake(s, l, m) then 1 else 0)
    && st'.started == st.started
    && st'.taken == st.taken[l.req.id := st.taken[l.req.id] + 1]
    && st'.log == st.log[s := st.log[s] + [l.req.id]]
    && st'.servers == st.servers[s := Server(s,
         if l.nextPos < |l.req.servs| then st.servers[s].sent + [l] else st.servers[s].sent,
         st.servers[s].waiting[..i] + st.servers[s].waiting[i + 1..])]
  }

  lemma ReleaseTakes(st: State, s: int, i: int)
    requires InvBase(st) && InvWaiting(st) && CanRelease(st, s, i)
    ensures Took(st, ReleaseAt(st, s, i), s, i, st.servers[s].waiting[i])
  {
    var l := st.servers[s].waiting[i];
    assert WaitOk(st, s, l);
    forall m {
      TakeOut(s, l, m);
    }
    assert Bump(st.taken, [l.req.id]) == Bump(st.taken[l.req.id := st.taken[l.req.id] + 1], [l.req.id][1..]);
  }

  lemma TookBase(st: State, st': State, s: int, i: int, l: Lock)
    requires InvBase(st) && Took(st, st', s, i, l)
    ensures InvBase(st')
    ensures forall id :: Known(st, id) ==> Known(st', id)
  {
    assert st'.servers.Keys == st.servers.Keys;
  }

  lemma TookLog(st: State, st': State, s: int, i: int, l: Lock)
    requires InvBase(st) && InvLog(st) && Took(st, st', s, i, l)
    ensures InvLog(st')
  {
    var k := l.nextPos - 1;
    assert !TakenAt(st, l.req.id, s);
    forall s', id | s' in st'.log ensures id in st'.log[s'] <==> TakenAt(st', id, s') {
      assert id in st.log[s'] <==> TakenAt(st, id, s');
      if id == l.req.id {
        assert st'.started[id].servs[k] == s && k < st'.taken[id];
        assert TakenAt(st', id, s') <==> TakenAt(st, id, s') || s' == s;
      } else {
        assert TakenAt(st', id, s') <==> TakenAt(st, id, s');
      }
    }
  }

  lemma TookSentAt(st: State, st': State, s: int, i: int, l: Lock, s': int, o: Lock)
    requires Took(st, st', s, i, l) && SentOk(st, s', o) && Known(st', o.req.id)
    ensures SentOk(st', s', o)
  {
    var id := o.req.id;
    forall j | 0 <= j < |o.finish|
      ensures o.finish[j] <==> o.nextPos <= j < st'.taken[id] && Unlock(s', o.req.servs[j], id) !in st'.net
    {
      var m := Unlock(s', o.req.servs[j], id);
      assert o.finish[j] <==> o.nextPos <= j < st.taken[id] && m !in st.net;
      if id == l.req.id {
        if j == st.taken[id] {
          assert o.req.servs[o.nextPos - 1] == s' && o.nextPos - 1 < l.nextPos - 1;
          assert SentByTake(s, l, m);
        } else {
          assert o.req.servs[j] != s;
        }
      }
    }
  }

  /** The lock that goes on is remembered with no later server finished. */
  lemma TookSentNew(st: State, st': State, s: int, i: int, l: Lock)
    requires Took(st, st', s, i, l) && Known(st', l.req.id) && l.nextPos < |l.req.servs|
    ensures SentOk(st', s, l)
  {
  }

  lemma TookSent(st: State, st': State, s: int, i: int, l: Lock)
    requires InvBase(st) && InvSent(st) && Took(st, st', s, i, l)
    ensures InvSent(st')
  {
    TookBase(st, st', s, i, l);
    forall s', p | s' in st'.servers && 0 <= p < |st'.servers[s'].sent| ensures SentOk(st', s', st'.servers[s'].sent[p]) {
      if p < |st.servers[s'].sent| {
        TookSentAt(st, st', s, i, l, s', st.servers[s'].sent[p]);
      } else {
        TookSentNew(st, st', s, i, l);
      }
    }
    forall s', p, q | s' in st'.servers && 0 <= p < q < |st'.servers[s'].sent|
      ensures st'.servers[s'].sent[p].req.id != st'.servers[s'].sent[q].req.id
    {
      TookSentApart(st, st', s, i, l, s', p, q);
    }
  }

  lemma TookSentApart(st: State, st': State, s: int, i: int, l: Lock, s': int, p: nat, q: nat)
    requires InvSent(st) && Took(st, st', s, i, l) && s' in st'.servers && p < q < |st'.servers[s'].sent|
    ensures st'.servers[s'].sent[p].req.id != st'.servers[s'].sent[q].req.id
  {
    assert SentOk(st, s', st.servers[s'].sent[p]);
  }

  lemma TookHolds(st: State, st': State, s: int, i: int, l: Lock, s': int, id: LockId)
    requires Took(st, st', s, i, l) && s' in st.servers
    requires HeldAt(st.servers[s'].sent, id) || (s' == s && id == l.req.id && l.nextPos < |l.req.servs|)
    ensures HeldAt(st'.servers[s'].sent, id)
  {
    HeldMore(st.servers[s].sent, l, id);
  }

  lemma TookRemembered(st: State, st': State, s: int, i: int, l: Lock)
    requires InvRemembered(st) && Took(st, st', s, i, l)
    ensures InvRemembered(st')
  {
    forall s', id | s' in st.servers && HeldAt(st.servers[s'].sent, id) ensures HeldAt(st'.servers[s'].sent, id) {
      TookHolds(st, st', s, i, l, s', id);
    }
    if l.nextPos < |l.req.servs| {
      TookHolds(st, st', s, i, l, s, l.req.id);
    }
  }

  /** Where a lock still waiting after the take waited before. */
  function WasAt(s: int, i: int, s': int, p: int): int {
    if s' == s && p >= i then p + 1 else p
  }

  lemma StillWaits(st: State, st': State, s: int, i: int, l: Lock, s': int, p: int)
    requires Took(st, st', s, i, l) && s' in st'.servers && 0 <= p < |st'.servers[s'].waiting|
    ensures 0 <= WasAt(s, i, s', p) < |st.servers[s'].waiting|
    ensures st'.servers[s'].waiting[p] == st.servers[s'].waiting[WasAt(s, i, s', p)]
  {
  }

  lemma TookWaitingAt(st: State, st': State, s: int, i: int, l: Lock, s': int, p: int)
    requires InvWaiting(st) && Took(st, st', s, i, l)
    requires s' in st'.servers && 0 <= p < |st'.servers[s'].waiting|
    requires forall id :: Known(st, id) ==> Known(st', id)
    ensures WaitOk(st', s', st'.servers[s'].waiting[p])
  {
    var q := WasAt(s, i, s', p);
    StillWaits(st, st', s, i, l, s', p);
    var o := st.servers[s'].waiting[q];
    assert WaitOk(st, s', o);
    OthersWait(st, s, i, l, s', q);
    WaitFrame(st, st', s', o);
  }

  /** Another waiting lock is not the one taken. */
  lemma OthersWait(st: State, s: int, i: int, l: Lock, s': int, q: int)
    requires InvWaiting(st) && s in st.servers && 0 <= i < |st.servers[s].waiting| && l == st.servers[s].waiting[i]
    requires s' in st.servers && 0 <= q < |st.servers[s'].waiting| && (s' != s || q != i)
    ensures st.servers[s'].waiting[q].req.id != l.req.id
  {
    var o := st.servers[s'].waiting[q];
    assert WaitOk(st, s', o) && WaitOk(st, s, l);
    if s' == s {
      assert q < i ==> o.req.id != st.servers[s].waiting[i].req.id;
      assert i < q ==> st.servers[s].waiting[i].req.id != o.req.id;
    }
  }

  lemma TookWaiting(st: State, st': State, s: int, i: int, l: Lock)
    requires InvBase(st) && InvWaiting(st) && Took(st, st', s, i, l)
    ensures InvWaiting(st')
  {
    TookBase(st, st', s, i, l);
    forall s', p | s' in st'.servers && 0 <= p < |st'.servers[s'].waiting|
      ensures WaitOk(st', s', st'.servers[s'].waiting[p])
    {
      TookWaitingAt(st, st', s, i, l, s', p);
    }
    forall s', p, q | s' in st'.servers && 0 <= p < q < |st'.servers[s'].waiting|
      ensures st'.servers[s'].waiting[p].req.id != st'.servers[s'].waiting[q].req.id
    {
      StillWaits(st, st', s, i, l, s', p);
      StillWaits(st, st', s, i, l, s', q);
    }
  }

  lemma TookMsgOld(st: State, st': State, s: int, i: int, l: Lock, m: Message)
    requires InvBase(st) && Took(st, st', s, i, l) && m in st.net && MsgOk(st, m)
    requires forall id :: Known(st, id) ==> Known(st', id)
    ensures MsgOk(st', m)
  {
    assert !SentByTake(s, l, m);
  }

  lemma TookUnlockNew(st: State, st': State, s: int, i: int, l: Lock, m: Message)
    requires Took(st, st', s, i, l) && m.Unlock? && SentByTake(s, l, m) && Known(st', m.id)
    ensures UnlockOk(st', m.dest, m.src, m.id)
  {
    var k := l.nextPos - 1;
    var x :| 0 <= x < k && l.req.servs[x] == m.dest;
    assert st'.started[m.id].servs[k] == m.src && k < st'.taken[m.id];
  }

  lemma TookMsgNew(st: State, st': State, s: int, i: int, l: Lock, m: Message)
    requires InvBase(st) && Took(st, st', s, i, l) && m !in st.net && m in st'.net
    requires forall id :: Known(st, id) ==> Known(st', id)
    ensures MsgOk(st', m)
  {
    assert SentByTake(s, l, m);
    if m.Unlock? {
      TookUnlockNew(st, st', s, i, l, m);
    }
  }

  lemma TookMsgs(st: State, st': State, s: int, i: int, l: Lock)
    requires InvBase(st) && InvMsgs(st) && Took(st, st', s, i, l)
    ensures InvMsgs(st')
  {
    TookBase(st, st', s, i, l);
    forall m | m in st'.net ensures MsgOk(st', m) {
      if m in st.net {
        TookMsgOld(st, st', s, i, l, m);
      } else {
        TookMsgNew(st, st', s, i, l, m);
      }
    }
  }

  lemma TookHeld(st: State, st': State, s: int, i: int, l: Lock, u: int, id: LockId)
    requires Took(st, st', s, i, l) && u in st.servers && u in st'.servers && id != l.req.id
    requires HeldAt(st.servers[u].waiting, id)
    ensures HeldAt(st'.servers[u].waiting, id)
  {
    var w, w' := st.servers[u].waiting, st'.servers[u].waiting;
    var p :| 0 <= p < |w| && w[p].req.id == id;
    assert w'[if u == s && p > i then p - 1 else p].req.id == id;
  }

  lemma TookPlace(st: State, st': State, s: int, i: int, l: Lock)
    requires InvBase(st) && InvPlace(st) && Took(st, st', s, i, l)
    ensures InvPlace(st')
  {
    TookBase(st, st', s, i, l);
    forall id | id in st'.started && Known(st', id) ensures Placed(st', id) {
      assert Placed(st, id);
      if id == l.req.id {
        assert SentByTake(s, l, NextOf(l));
      } else if st.taken[id] < |st.started[id].servs| {
        var u := st.started[id].servs[st.taken[id]];
        if HeldAt(st.servers[u].waiting, id) { TookHeld(st, st', s, i, l, u, id); }
      }
    }
  }

  lemma ReleaseKeeps(st: State, s: int, i: int)
    requires Inv0(st) && CanRelease(st, s, i)
    ensures Inv0(ReleaseAt(st, s, i))
  {
    var st', l := ReleaseAt(st, s, i), st.servers[s].waiting[i];
    ReleaseTakes(st, s, i);
    TookBase(st, st', s, i, l);
    TookLog(st, st', s, i, l);
    TookSent(st, st', s, i, l);
    TookRemembered(st, st', s, i, l);
    TookWaiting(st, st', s, i, l);
    TookMsgs(st, st', s, i, l);
    TookPlace(st, st', s, i, l);
  }

  // ---- Order --------------------------------------------------------------------

  ghost predicate Common(st: State, a: LockId, b: LockId, t: int) {
    && a in st.started && b in st.started
    && t in st.started[a].servs && t in st.started[b].servs
  }

  /** t is the first server after s that both locks visit. */
  ghost predicate NextCommon(st: State, a: LockId, b: LockId, s: int, t: int) {
    && s < t && Common(st, a, b, t)
    && forall u :: s < u < t ==> !Common(st, a, b, u)
  }

  /** Whoever goes first at one server has already gone at the next one they share,
      and goes first there too. */
  ghost predicate InvOrder(st: State) {
    forall s, a, b, t :: s in st.log && t in st.log && Precedes(st.log[s], a, b) && NextCommon(st, a, b, s, t) ==>
      TakenAt(st, a, t) && (TakenAt(st, b, t) ==> Precedes(st.log[t], a, b))
  }

  ghost predicate Inv(st: State) {
    && Inv0(st) && InvOrder(st)
    && AllSettled(st)
  }

  /** A remembered lock at s that does not stop l has finished their next common server. */
  lemma NoConflictMeansFinished(st: State, s: int, l: Lock, o: Lock, t: int)
    requires WaitOk(st, s, l) && SentOk(st, s, o) && !Conflict(o, l)
    requires NextCommon(st, o.req.id, l.req.id, s, t)
    ensures TakenAt(st, o.req.id, t)
  {
    var x :| 0 <= x < |o.req.servs| && o.req.servs[x] == t;
    var y :| 0 <= y < |l.req.servs| && l.req.servs[y] == t;
    assert o.nextPos <= x;
    assert l.nextPos <= y;
    forall x', y' | CommonAt(o, l, x', y') ensures x <= x' {
      assert Common(st, o.req.id, l.req.id, o.req.servs[x']);
      assert s < o.req.servs[x'];
    }
    assert FirstCommon(o, l, x, y);
    FirstCommonDecides(o, l, x, y);
    assert o.finish[x];
  }

  lemma NotLast(servs: seq<int>, i: nat, t: int)
    requires Ascending(servs) && i < |servs| && t in servs && servs[i] < t
    ensures i + 1 < |servs|
  {
    var x :| 0 <= x < |servs| && servs[x] == t;
    assert !(x < i);
  }

  /** The heart of the protocol: a lock let past a sent one finds the sent one
      already taken at the next server they share. */
  lemma PassedMeansTaken(st: State, s: int, l: Lock, a: LockId, t: int)
    requires InvSent(st) && InvRemembered(st) && s in st.servers && Known(st, a)
    requires WaitOk(st, s, l) && ServerOk(st.servers[s]) && !ConflictAny(st.servers[s].sent, l)
    requires TakenAt(st, a, s) && NextCommon(st, a, l.req.id, s, t)
    ensures TakenAt(st, a, t)
  {
    var servs := st.started[a].servs;
    var i :| 0 <= i < st.taken[a] && i < |servs| && servs[i] == s;
    NotLast(servs, i, t);
    Remembered(st, a, i);
    var sent := st.servers[s].sent;
    var p :| 0 <= p < |sent| && sent[p].req.id == a;
    NoConflictMeansFinished(st, s, l, sent[p], t);
  }

  lemma TookOrder(st: State, st': State, s: int, i: int, l: Lock)
    requires InvBase(st) && InvLog(st) && InvSent(st) && InvRemembered(st) && InvOrder(st)
    requires Took(st, st', s, i, l) && ServerOk(st.servers[s]) && !ConflictAny(st.servers[s].sent, l)
    ensures InvOrder(st')
  {
    var id := l.req.id;
    forall u, a, b, t | u in st'.log && t in st'.log && Precedes(st'.log[u], a, b) && NextCommon(st', a, b, u, t)
      ensures TakenAt(st', a, t) && (TakenAt(st', b, t) ==> Precedes(st'.log[t], a, b))
    {
      TookOrderAt(st, st', s, i, l, u, a, b, t);
    }
  }

  /** A lock that waits at s has taken nothing after s. */
  lemma NotYetTaken(st: State, s: int, l: Lock, t: int)
    requires WaitOk(st, s, l) && s < t
    ensures !TakenAt(st, l.req.id, t)
  {
  }

  /** What a lock has taken grows by the one server. */
  lemma TookTaken(st: State, st': State, s: int, i: int, l: Lock, a: LockId, t: int)
    requires InvBase(st) && Took(st, st', s, i, l)
    ensures TakenAt(st', a, t) <==> TakenAt(st, a, t) || (a == l.req.id && t == s)
  {
  }

  lemma TookOrderAt(st: State, st': State, s: int, i: int, l: Lock, u: int, a: LockId, b: LockId, t: int)
    requires InvBase(st) && InvLog(st) && InvSent(st) && InvRemembered(st) && InvOrder(st)
    requires Took(st, st', s, i, l) && ServerOk(st.servers[s]) && !ConflictAny(st.servers[s].sent, l)
    requires u in st'.log && t in st'.log && Precedes(st'.log[u], a, b) && NextCommon(st', a, b, u, t)
    ensures TakenAt(st', a, t) && (TakenAt(st', b, t) ==> Precedes(st'.log[t], a, b))
  {
    var id := l.req.id;
    assert NextCommon(st, a, b, u, t) by { assert forall v :: Common(st', a, b, v) <==> Common(st, a, b, v); }
    TookTaken(st, st', s, i, l, a, t);
    TookTaken(st, st', s, i, l, b, t);
    PrecedesGrows(st.log[u], a, b, id);
    PrecedesGrows(st.log[t], a, b, id);
    if !Precedes(st.log[u], a, b) {
      assert u == s && b == id && a in st.log[s];
      PassedMeansTaken(st, s, l, a, t);
      NotYetTaken(st, s, l, t);
    } else if t == s && b == id {
      assert a in st.log[t];
    }
  }

  // ---- Every step keeps the invariant ---------------------------------------------

  lemma {:induction false} BumpAppend(taken: map<LockId, nat>, a: seq<LockId>, b: seq<LockId>)
    ensures Bump(taken, a + b) == Bump(Bump(taken, a), b)
  {
    if a == [] {
      assert a + b == b;
    } else {
      assert (a + b)[1..] == a[1..] + b;
      BumpAppend(if a[0] in taken then taken[a[0] := taken[a[0]] + 1] else taken, a[1..], b);
    }
  }

  lemma ApplyTwice(st: State, s: int, first: Outcome, rest: Outcome)
    requires s in st.servers && s in st.log
    ensures Apply(Apply(st, s, first), s, rest)
         == Apply(st, s, Outcome(rest.server, first.out + rest.out, first.taken + rest.taken))
  {
    BumpAppend(st.taken, first.taken, rest.taken);
    NetAppend(st.net, first.out, rest.out);
    LogAppend(st.log, s, first.taken, rest.taken);
  }

  lemma NetAppend(net: multiset<Message>, a: seq<Message>, b: seq<Message>)
    ensures net + multiset(a) + multiset(b) == net + multiset(a + b)
  {
    assert multiset(a + b) == multiset(a) + multiset(b);
  }

  lemma LogAppend(log: map<int, seq<LockId>>, s: int, a: seq<LockId>, b: seq<LockId>)
    requires s in log
    ensures var log' := log[s := log[s] + a]; log'[s := log'[s] + b] == log[s := log[s] + (a + b)]
  {
    assert log[s] + a + b == log[s] + (a + b);
  }

  ghost predicate InvBusy(st: State, s: int) {
    Inv0(st) && InvOrder(st) && s in st.servers && SettledBut(st, s)
  }

  /** Every server other than s, which is in the middle of a handler, is settled. */
  ghost predicate SettledBut(st: State, s: int) {
    forall u :: u in st.servers ==> ServerOk(st.servers[u]) && (u != s ==> Settled(st.servers[u]))
  }

  lemma ReleaseKeepsOrder(st: State, s: int, i: int)
    requires Inv0(st) && InvOrder(st) && CanRelease(st, s, i)
    requires !ConflictAny(st.servers[s].sent, st.servers[s].waiting[i])
    ensures InvOrder(ReleaseAt(st, s, i))
  {
    ReleaseTakes(st, s, i);
    TookOrder(st, ReleaseAt(st, s, i), s, i, st.servers[s].waiting[i]);
  }

  lemma ReleaseKeepsBusy(st: State, s: int, i: int)
    requires InvBusy(st, s) && CanRelease(st, s, i)
    requires !ConflictAny(st.servers[s].sent, st.servers[s].waiting[i])
    ensures InvBusy(ReleaseAt(st, s, i), s)
  {
    ReleaseKeeps(st, s, i);
    ReleaseKeepsOrder(st, s, i);
  }

  lemma DrainedAlready(st: State, s: int)
    requires s in st.servers && s in st.log && ServerOk(st.servers[s])
    requires FirstFree(st.servers[s], 0) == |st.servers[s].waiting|
    ensures Apply(st, s, Drain(st.servers[s])) == st && Settled(st.servers[s])
  {
    var server := st.servers[s];
    assert st.log[s] + [] == st.log[s];
    assert st.servers[s := server] == st.servers;
    assert st.log[s := st.log[s]] == st.log;
  }

  lemma {:induction false} DrainKeeps(st: State, s: int)
    requires InvBusy(st, s)
    ensures Inv(Apply(st, s, Drain(st.servers[s])))
    decreases |st.servers[s].waiting|
  {
    var server := st.servers[s];
    var i := FirstFree(server, 0);
    if i == |server.waiting| {
      DrainedAlready(st, s);
    } else {
      assert CanRelease(st, s, i);
      ReleaseKeepsBusy(st, s, i);
      var st' := ReleaseAt(st, s, i);
      DrainKeeps(st', s);
      ApplyTwice(st, s, Release(server, i), Drain(st'.servers[s]));
    }
  }

  lemma OrderFrame(st: State, st': State)
    requires InvOrder(st) && st'.started == st.started && st'.taken == st.taken && st'.log == st.log
    ensures InvOrder(st')
  {
    assert forall id, s :: TakenAt(st', id, s) <==> TakenAt(st, id, s);
    assert forall a, b, t :: Common(st', a, b, t) <==> Common(st, a, b, t);
  }

  lemma NothingTaken(st: State, s: int, server: Server)
    requires s in st.servers && s in st.log
    ensures Apply(st, s, Outcome(server, [], [])) == st.(servers := st.servers[s := server])
  {
    assert st.log[s] + [] == st.log[s];
    assert st.log[s := st.log[s]] == st.log;
  }

  /** A lock that is put at the end and released at once is a lock that is taken. */
  lemma ParkedRelease(server: Server, curr: nat, req: Request)
    requires ServerOk(server) && Ascending(req.servs) && curr < |req.servs|
    requires !ConflictAny(server.sent, NewLock(curr, req))
    ensures var parked := server.(waiting := server.waiting + [NewLock(curr, req)]);
      ServerOk(parked) && Release(parked, |server.waiting|) == OnLock(server, curr, req)
  {
  }

  /** Reading a LOCK packet is parking the lock and, unless it conflicts, taking it at once. */
  lemma LockStepIs(st: State, m: Message)
    requires Receivable(st, m) && m.LockMsg? && ServerOk(st.servers[m.dest])
    ensures var server, parked := st.servers[m.dest], Park(st, m);
      && ServerOk(parked.servers[m.dest])
      && CanRelease(parked, m.dest, |server.waiting|)
      && parked.servers[m.dest].sent == server.sent
      && parked.servers[m.dest].waiting[|server.waiting|] == NewLock(m.curr, m.req)
      && Received(st, m) == (if ConflictAny(server.sent, NewLock(m.curr, m.req)) then parked
                             else ReleaseAt(parked, m.dest, |server.waiting|))
  {
    var server, parked := st.servers[m.dest], Park(st, m);
    if ConflictAny(server.sent, NewLock(m.curr, m.req)) {
      NothingTaken(Consume(st, m), m.dest, parked.servers[m.dest]);
    } else {
      ParkedRelease(server, m.curr, m.req);
    }
  }

  ghost predicate AllSettled(st: State) {
    forall s :: s in st.servers ==> ServerOk(st.servers[s]) && Settled(st.servers[s])
  }

  lemma LockStepSettles(st: State, m: Message)
    requires AllSettled(st) && Receivable(st, m) && m.LockMsg?
    ensures AllSettled(Received(st, m))
  {
    OnLockSettles(st.servers[m.dest], m.curr, m.req);
  }

  lemma LockStepKeeps(st: State, m: Message)
    requires Inv(st) && m in st.net && Receivable(st, m) && m.LockMsg?
    ensures Inv(Received(st, m))
  {
    ParkKeeps(st, m);
    OrderFrame(st, Park(st, m));
    LockStepIs(st, m);
    LockStepSettles(st, m);
    if !ConflictAny(st.servers[m.dest].sent, NewLock(m.curr, m.req)) {
      ReleaseKeeps(Park(st, m), m.dest, |st.servers[m.dest].waiting|);
      ReleaseKeepsOrder(Park(st, m), m.dest, |st.servers[m.dest].waiting|);
    }
  }

  lemma UnlockFound(st: State, m: Message)
    requires Inv0(st) && m in st.net && Receivable(st, m) && m.Unlock?
    ensures Find(st.servers[m.dest].sent, m.id) < |st.servers[m.dest].sent|
  {
    assert MsgOk(st, m);
    var p := UnlockFindsLock(st, m.dest, m.src, m.id);
  }

  lemma ApplyOver(st: State, s: int, server: Server, o: Outcome)
    requires s in st.servers && s in st.log
    ensures Apply(st.(servers := st.servers[s := server]), s, o) == Apply(st, s, o)
  {
  }

  lemma UnlockStepIs(st: State, m: Message, p: nat)
    requires Receivable(st, m) && m.Unlock?
    requires p == Find(st.servers[m.dest].sent, m.id) < |st.servers[m.dest].sent|
    ensures ServerOk(MarkUnlock(st, m).servers[m.dest])
    ensures Received(st, m) == Apply(MarkUnlock(st, m), m.dest, Drain(MarkUnlock(st, m).servers[m.dest]))
  {
    var marked := MarkSent(st.servers[m.dest], p, m.src);
    assert MarkUnlock(st, m).servers[m.dest] == marked;
    ApplyOver(Consume(st, m), m.dest, marked, Drain(marked));
  }

  lemma UnlockKeepsSettledBut(st: State, m: Message)
    requires AllSettled(st) && Receivable(st, m) && m.Unlock?
    ensures SettledBut(MarkUnlock(st, m), m.dest)
  {
  }

  lemma UnlockKeepsBusy(st: State, m: Message)
    requires Inv(st) && m in st.net && Receivable(st, m) && m.Unlock?
    ensures InvBusy(MarkUnlock(st, m), m.dest)
  {
    MarkKeeps(st, m);
    UnlockKeepsOrder(st, m);
    UnlockKeepsSettledBut(st, m);
  }

  lemma UnlockKeepsOrder(st: State, m: Message)
    requires InvOrder(st) && Receivable(st, m) && m.Unlock?
    ensures InvOrder(MarkUnlock(st, m))
  {
    OrderFrame(st, MarkUnlock(st, m));
  }

  lemma UnlockStepKeeps(st: State, m: Message)
    requires Inv(st) && m in st.net && Receivable(st, m) && m.Unlock?
    ensures Inv(Received(st, m))
  {
    UnlockKeepsBusy(st, m);
    UnlockFound(st, m);
    UnlockStepIs(st, m, Find(st.servers[m.dest].sent, m.id));
    DrainKeeps(MarkUnlock(st, m), m.dest);
  }

  lemma StartStepKeeps(st: State, st': State, req: Request)
    requires Inv(st) && StartStep(st, st', req)
    ensures Inv(st')
  {
    StartKeeps(st, st', req);
    forall s, a, b, t | s in st'.log && t in st'.log && Precedes(st'.log[s], a, b) && NextCommon(st', a, b, s, t)
      ensures TakenAt(st', a, t) && (TakenAt(st', b, t) ==> Precedes(st'.log[t], a, b))
    {
      assert TakenAt(st, a, s) && TakenAt(st, b, s);
      assert forall u :: Common(st', a, b, u) <==> Common(st, a, b, u);
      assert NextCommon(st, a, b, s, t);
    }
  }

  lemma NextKeeps(st: State, st': State)
    requires Inv(st) && Next(st, st')
    ensures Inv(st')
  {
    if req :| StartStep(st, st', req) {
      StartStepKeeps(st, st', req);
    } else {
      var m :| DeliverStep(st, st', m);
      if m.LockMsg? {
        LockStepKeeps(st, m);
      } else {
        UnlockStepKeeps(st, m);
      }
    }
  }

  lemma {:induction false} RunKeeps(run: seq<State>, i: nat)
    requires IsRun(run) && i < |run|
    ensures Inv(run[i])
  {
    if i > 0 {
      RunKeeps(run, i - 1);
      assert NextAt(run, i);
      NextKeeps(run[i - 1], run[i]);
    }
  }
}
