/** One data server of the lock pipeline, as a value: the locks it has passed on,
    the locks it makes wait, and what each incoming packet does to them.
    DataServer.dfy runs the same handlers in place; LockProtocol.dfy connects many
    servers through a network. */
module LockServer {
  import opened Ids
  import opened Seqs

  type LockId = Id

  /** What every LOCK packet of one lock carries, apart from its position. */
  datatype Request = Request(id: LockId, client: int, servs: seq<int>)

  /** A lock held by a server: nextPos is one past the server's own position. */
  datatype Lock = Lock(req: Request, nextPos: nat, finish: seq<bool>)

  datatype Message =
    | LockMsg(dest: int, curr: nat, req: Request)   // LOCK_START or LOCK_NEXT
    | Unlock(dest: int, src: int, id: LockId)
    | LockEnd(client: int, id: LockId)

  datatype Server = Server(id: int, sent: seq<Lock>, waiting: seq<Lock>)

  /** A handler's effect: the new server, the packets it sends in order, and the
      locks it takes in order. */
  datatype Outcome = Outcome(server: Server, out: seq<Message>, taken: seq<LockId>)

  predicate WellFormed(l: Lock) {
    && Ascending(l.req.servs)
    && |l.finish| == |l.req.servs|
    && 1 <= l.nextPos <= |l.req.servs|
  }

  // ---- Conflict -------------------------------------------------------------

  /** Positions i and j name a server that both locks still have ahead of them. */
  predicate CommonAt(a: Lock, b: Lock, i: int, j: int) {
    && a.nextPos <= i < |a.req.servs|
    && b.nextPos <= j < |b.req.servs|
    && a.req.servs[i] == b.req.servs[j]
  }

  ghost predicate FirstCommon(a: Lock, b: Lock, i: int, j: int) {
    CommonAt(a, b, i, j) && forall i', j' :: CommonAt(a, b, i', j') ==> i <= i'
  }

  /** The first server both still have ahead exists and neither has finished there. */
  ghost predicate Conflict(a: Lock, b: Lock)
    requires WellFormed(a) && WellFormed(b)
  {
    exists i, j :: FirstCommon(a, b, i, j) && !a.finish[i] && !b.finish[j]
  }

  ghost predicate ConflictAny(sent: seq<Lock>, l: Lock)
    requires WellFormed(l) && forall p :: 0 <= p < |sent| ==> WellFormed(sent[p])
  {
    exists p :: 0 <= p < |sent| && Conflict(sent[p], l)
  }

  /** Locks whose remaining servers are disjoint, or whose first common server one
      of them has finished, do not conflict: FirstCommon names at most one pair. */
  lemma FirstCommonDecides(a: Lock, b: Lock, i: int, j: int)
    requires WellFormed(a) && WellFormed(b) && FirstCommon(a, b, i, j)
    ensures Conflict(a, b) <==> !a.finish[i] && !b.finish[j]
  {
  }

  lemma ConflictSymmetric(a: Lock, b: Lock)
    requires WellFormed(a) && WellFormed(b)
    requires Conflict(a, b)
    ensures Conflict(b, a)
  {
    var i, j :| FirstCommon(a, b, i, j) && !a.finish[i] && !b.finish[j];
    forall j', i' | CommonAt(b, a, j', i') ensures j <= j' {
      assert CommonAt(a, b, i', j');
    }
    assert FirstCommon(b, a, j, i);
  }

  // ---- Handlers ---------------------------------------------------------------

  ghost predicate ServerOk(s: Server) {
    && (forall p :: 0 <= p < |s.sent| ==> WellFormed(s.sent[p]))
    && (forall p :: 0 <= p < |s.waiting| ==> WellFormed(s.waiting[p]))
  }

  function UnlocksOf(self: int, l: Lock): seq<Message>
    requires WellFormed(l)
  {
    seq(l.nextPos - 1, i requires 0 <= i < l.nextPos - 1 => Unlock(l.req.servs[i], self, l.req.id))
  }

  function NextOf(l: Lock): Message {
    if l.nextPos < |l.req.servs|
    then LockMsg(l.req.servs[l.nextPos], l.nextPos, l.req)
    else LockEnd(l.req.client, l.req.id)
  }

  /** Taking a lock: UNLOCK back to every earlier server, then LOCK_NEXT on to the
      next one (and the lock is remembered) or LOCK_END to the client. */
  ghost function TakeDone(s: Server, l: Lock): (o: Outcome)
    requires ServerOk(s) && WellFormed(l)
    ensures ServerOk(o.server) && o.server.waiting == s.waiting
  {
    Outcome(
      if l.nextPos < |l.req.servs| then s.(sent := s.sent + [l]) else s,
      UnlocksOf(s.id, l) + [NextOf(l)],
      [l.req.id])
  }

  ghost function Release(s: Server, i: nat): (o: Outcome)
    requires ServerOk(s) && i < |s.waiting|
    ensures ServerOk(o.server) && |o.server.waiting| == |s.waiting| - 1
  {
    TakeDone(s.(waiting := s.waiting[..i] + s.waiting[i + 1..]), s.waiting[i])
  }

  ghost function NewLock(curr: nat, req: Request): (l: Lock)
    requires Ascending(req.servs) && curr < |req.servs|
    ensures WellFormed(l)
  {
    Lock(req, curr + 1, seq(|req.servs|, i => false))
  }

  ghost function OnLock(s: Server, curr: nat, req: Request): (o: Outcome)
    requires ServerOk(s) && Ascending(req.servs) && curr < |req.servs|
    ensures ServerOk(o.server)
  {
    var l := NewLock(curr, req);
    if ConflictAny(s.sent, l) then Outcome(s.(waiting := s.waiting + [l]), [], [])
    else TakeDone(s, l)
  }

  /** A lock that comes in waits at the end with no server finished, or is taken. */
  lemma OnLockDoes(s: Server, curr: nat, req: Request)
    requires ServerOk(s) && Ascending(req.servs) && curr < |req.servs|
    ensures var l, o := Lock(req, curr + 1, seq(|req.servs|, i => false)), OnLock(s, curr, req);
      if ConflictAny(s.sent, l)
      then o.out == [] && o.server == s.(waiting := s.waiting + [l])
      else |o.out| == curr + 1 && o.server == s.(sent := if curr + 1 < |req.servs| then s.sent + [l] else s.sent)
  {
    assert NewLock(curr, req) == Lock(req, curr + 1, seq(|req.servs|, i => false));
  }

  function Find(ls: seq<Lock>, id: LockId): (p: nat)
    ensures p <= |ls|
    ensures p < |ls| ==> ls[p].req.id == id
    ensures forall q :: 0 <= q < p ==> ls[q].req.id != id
  {
    if ls == [] then 0
    else if ls[0].req.id == id then 0
    else
      var p := Find(ls[1..], id);
      assert forall q :: 1 <= q < |ls| ==> ls[q] == ls[1..][q - 1];
      1 + p
  }

  function Mark(l: Lock, src: int): (m: Lock)
    requires WellFormed(l)
    ensures WellFormed(m)
  {
    l.(finish := seq(|l.finish|, i requires 0 <= i < |l.finish| => l.finish[i] || l.req.servs[i] == src))
  }

  predicate AllFinished(l: Lock) {
    forall i :: 0 <= i < |l.finish| ==> l.finish[i]
  }

  /** The first waiting lock, from position i on, that conflicts with no sent lock. */
  ghost function FirstFree(s: Server, i: nat): (p: nat)
    requires ServerOk(s) && i <= |s.waiting|
    ensures i <= p <= |s.waiting|
    ensures forall q :: i <= q < p ==> ConflictAny(s.sent, s.waiting[q])
    ensures p < |s.waiting| ==> !ConflictAny(s.sent, s.waiting[p])
    decreases |s.waiting| - i
  {
    if i == |s.waiting| then i
    else if !ConflictAny(s.sent, s.waiting[i]) then i
    else FirstFree(s, i + 1)
  }

  /** Take the first waiting lock that may go, and start over until none may. */
  ghost function Drain(s: Server): (o: Outcome)
    requires ServerOk(s)
    ensures ServerOk(o.server)
    decreases |s.waiting|
  {
    var i := FirstFree(s, 0);
    if i == |s.waiting| then Outcome(s, [], [])
    else
      var first := Release(s, i);
      var rest := Drain(first.server);
      Outcome(rest.server, first.out + rest.out, first.taken + rest.taken)
  }

  /** The sent lock with this id has one more server reported finished. */
  ghost function MarkSent(s: Server, p: nat, src: int): (r: Server)
    requires ServerOk(s) && p < |s.sent|
    ensures ServerOk(r)
  {
    var m := Mark(s.sent[p], src);
    if AllFinished(m) then s.(sent := s.sent[..p] + s.sent[p + 1..])
    else s.(sent := s.sent[p := m])
  }

  ghost function OnUnlock(s: Server, src: int, id: LockId): (o: Outcome)
    requires ServerOk(s)
    ensures ServerOk(o.server)
  {
    var p := Find(s.sent, id);
    if p == |s.sent| then Outcome(s, [], [])
    else Drain(MarkSent(s, p, src))
  }

  // ---- The server invariant -----------------------------------------------------

  /** Nothing waits without a reason: every waiting lock conflicts with a sent one. */
  ghost predicate Settled(s: Server)
    requires ServerOk(s)
  {
    forall p :: 0 <= p < |s.waiting| ==> ConflictAny(s.sent, s.waiting[p])
  }

  lemma {:induction false} DrainSettles(s: Server)
    requires ServerOk(s)
    ensures Settled(Drain(s).server)
    decreases |s.waiting|
  {
    var i := FirstFree(s, 0);
    if i < |s.waiting| {
      DrainSettles(Release(s, i).server);
    }
  }

  lemma OnLockSettles(s: Server, curr: nat, req: Request)
    requires ServerOk(s) && Ascending(req.servs) && curr < |req.servs|
    requires Settled(s)
    ensures Settled(OnLock(s, curr, req).server)
  {
    var o := OnLock(s, curr, req);
    forall p | 0 <= p < |o.server.waiting|
      ensures ConflictAny(o.server.sent, o.server.waiting[p])
    {
      if p < |s.waiting| {
        var q :| 0 <= q < |s.sent| && Conflict(s.sent[q], s.waiting[p]);
        assert o.server.sent[q] == s.sent[q];
      }
    }
  }

  lemma OnUnlockSettles(s: Server, src: int, id: LockId)
    requires ServerOk(s) && Settled(s)
    ensures Settled(OnUnlock(s, src, id).server)
  {
    var p := Find(s.sent, id);
    if p < |s.sent| {
      DrainSettles(MarkSent(s, p, src));
    }
  }
}
