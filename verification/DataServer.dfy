/** The data server as it runs: lock records shared by two lists and a hash, changed in
    place by the packet handlers, each proved against its meaning in LockServer. */
module DataServer {
  import opened LockServer
  import opened Seqs

  /** struct s_core_lock with its element flags. */
  class LockRecord {
    const req: Request
    const nextPos: nat
    var finish: seq<bool>

    ghost function Value(): Lock
      reads this
    {
      Lock(req, nextPos, finish)
    }

    constructor (curr: nat, req: Request)
      requires Ascending(req.servs) && curr < |req.servs|
      ensures Value() == NewLock(curr, req)
    {
      this.req := req;
      this.nextPos := curr + 1;
      this.finish := seq(|req.servs|, i => false);
    }
  }

  /** Merges the two remaining server lists up to their first common server. The third
      loop also reads when curA has run off its list; past is whatever it finds there. */
  method IsConflict(a: LockRecord, b: LockRecord, past: int) returns (conflict: bool)
    requires WellFormed(a.Value()) && WellFormed(b.Value())
    ensures conflict == Conflict(a.Value(), b.Value())
  {
    var curA, curB := a.nextPos, b.nextPos;
    var pa, pb := a.req.servs, b.req.servs;
    while curA < |pa| && curB < |pb|
      invariant a.nextPos <= curA <= |pa| && b.nextPos <= curB <= |pb|
      invariant forall i, j :: CommonAt(a.Value(), b.Value(), i, j) ==> curA <= i && curB <= j
      decreases |pa| - curA + |pb| - curB
    {
      if pa[curA] == pb[curB] {
        FirstCommonDecides(a.Value(), b.Value(), curA, curB);
        return !(a.finish[curA] || b.finish[curB]);
      }
      ghost var a0, b0 := curA, curB;
      while curA < |pa| && pa[curA] < pb[curB]
        invariant a0 <= curA <= |pa|
        invariant forall i, j :: CommonAt(a.Value(), b.Value(), i, j) ==> curA <= i && curB <= j
      {
        curA := curA + 1;
      }
      while curB < |pb| && (if curA < |pa| then pa[curA] else past) > pb[curB]
        invariant b0 <= curB <= |pb|
        invariant forall i, j :: CommonAt(a.Value(), b.Value(), i, j) ==> curA <= i && curB <= j
      {
        curB := curB + 1;
      }
    }
    return false;
  }

  class DataServer {
    const id: int
    var locks: map<LockId, LockRecord>
    var lockSent: seq<LockRecord>
    var lockWaiting: seq<LockRecord>

    static ghost function Values(rs: seq<LockRecord>): (ls: seq<Lock>)
      reads rs
      ensures |ls| == |rs| && forall i :: 0 <= i < |rs| ==> ls[i] == rs[i].Value()
    {
      seq(|rs|, i requires 0 <= i < |rs| reads rs => rs[i].Value())
    }

    ghost function State(): Server
      reads this, lockSent, lockWaiting
    {
      Server(id, Values(lockSent), Values(lockWaiting))
    }

    /** The hash holds exactly the sent records, and no record is listed twice. */
    static ghost predicate Indexed(locks: map<LockId, LockRecord>, sent: seq<LockRecord>) {
      && (forall r :: r in sent ==> r.req.id in locks && locks[r.req.id] == r)
      && (forall k :: k in locks ==> locks[k] in sent && locks[k].req.id == k)
      && NoDup(sent)
    }

    ghost predicate Valid()
      reads this, lockSent, lockWaiting
    {
      && ServerOk(State())
      && Indexed(locks, lockSent)
      && Apart(locks, lockWaiting)
    }

    /** Waiting locks are not in the hash and have ids of their own. */
    static ghost predicate Apart(locks: map<LockId, LockRecord>, waiting: seq<LockRecord>) {
      && (forall i, j :: 0 <= i < j < |waiting| ==> waiting[i].req.id != waiting[j].req.id)
      && (forall r :: r in waiting ==> r.req.id !in locks)
    }

    constructor (id: int)
      ensures Valid() && this.id == id && State() == Server(id, [], [])
    {
      this.id := id;
      locks, lockSent, lockWaiting := map[], [], [];
    }

    method ConflictAll(lock: LockRecord) returns (conflict: bool)
      requires Valid() && WellFormed(lock.Value())
      ensures conflict == ConflictAny(State().sent, lock.Value())
    {
      var p := 0;
      while p < |lockSent|
        invariant 0 <= p <= |lockSent|
        invariant forall q :: 0 <= q < p ==> !Conflict(State().sent[q], lock.Value())
      {
        var past: int := *;
        var c := IsConflict(lockSent[p], lock, past);
        if c {
          assert Conflict(State().sent[p], lock.Value());
          return true;
        }
        p := p + 1;
      }
      return false;
    }

    method SendUnlocks(lock: LockRecord) returns (out: seq<Message>)
      requires WellFormed(lock.Value())
      ensures out == UnlocksOf(id, lock.Value())
      ensures |out| == lock.nextPos - 1
      ensures forall i :: 0 <= i < |out| ==> out[i] == Unlock(lock.req.servs[i], id, lock.req.id)
    {
      out := [];
      if lock.nextPos <= 1 {
        return;
      }
      var i := 0;
      while i < lock.nextPos - 1
        invariant 0 <= i <= lock.nextPos - 1
        invariant out == UnlocksOf(id, lock.Value())[..i]
      {
        out := out + [Unlock(lock.req.servs[i], id, lock.req.id)];
        i := i + 1;
      }
    }

    /** Sends UNLOCK back and LOCK_NEXT or LOCK_END on, and remembers the lock if it goes on. */
    method TakeDone(lock: LockRecord) returns (out: seq<Message>)
      requires Valid() && WellFormed(lock.Value())
      requires lock.req.id !in locks && forall r :: r in lockWaiting ==> r.req.id != lock.req.id
      modifies this
      ensures Valid() && lockWaiting == old(lockWaiting)
      ensures State() == LockServer.TakeDone(old(State()), lock.Value()).server
      ensures out == LockServer.TakeDone(old(State()), lock.Value()).out
      ensures lockSent == if lock.nextPos < |lock.req.servs| then old(lockSent) + [lock] else old(lockSent)
      ensures |out| == lock.nextPos
      ensures forall i :: 0 <= i < lock.nextPos - 1 ==> out[i] == Unlock(lock.req.servs[i], id, lock.req.id)
      ensures out[lock.nextPos - 1] ==
        if lock.nextPos < |lock.req.servs| then LockMsg(lock.req.servs[lock.nextPos], lock.nextPos, lock.req)
        else LockEnd(lock.req.client, lock.req.id)
    {
      out := SendUnlocks(lock);
      if lock.nextPos < |lock.req.servs| {
        out := out + [LockMsg(lock.req.servs[lock.nextPos], lock.nextPos, lock.req)];
        assert lock !in lockSent;
        lockSent := lockSent + [lock];
        locks := locks[lock.req.id := lock];
        assert Values(lockSent) == old(Values(lockSent)) + [lock.Value()];
      } else {
        out := out + [LockEnd(lock.req.client, lock.req.id)];
      }
    }

    method Enqueue(lock: LockRecord)
      requires Valid() && WellFormed(lock.Value())
      requires lock.req.id !in locks && forall r :: r in lockWaiting ==> r.req.id != lock.req.id
      modifies this`lockWaiting
      ensures Valid() && State() == old(State()).(waiting := old(State()).waiting + [lock.Value()])
    {
      lockWaiting := lockWaiting + [lock];
      assert Values(lockWaiting) == old(Values(lockWaiting)) + [lock.Value()];
    }

    /** A LOCK_START or LOCK_NEXT packet. */
    method HandleLock(curr: nat, req: Request) returns (out: seq<Message>)
      requires Valid() && Ascending(req.servs) && curr < |req.servs| && req.servs[curr] == id
      requires req.id !in locks && forall r :: r in lockWaiting ==> r.req.id != req.id
      modifies this
      ensures Valid()
      ensures State() == OnLock(old(State()), curr, req).server
      ensures out == OnLock(old(State()), curr, req).out
      ensures var s, l := old(State()), Lock(req, curr + 1, seq(|req.servs|, i => false));
        if ConflictAny(s.sent, l)
        then out == [] && State() == s.(waiting := s.waiting + [l])
        else |out| == curr + 1 && State() == s.(sent := if curr + 1 < |req.servs| then s.sent + [l] else s.sent)
    {
      OnLockDoes(State(), curr, req);
      var lock := new LockRecord(curr, req);
      var conflict := ConflictAll(lock);
      if conflict {
        Enqueue(lock);
        return [];
      }
      out := TakeDone(lock);
    }

    /** One pass over the waiting list, up to the first lock that may go. */
    method ScanWaiting() returns (p: nat)
      requires Valid()
      ensures p == FirstFree(State(), 0)
    {
      ghost var s := State();
      p := 0;
      while p < |lockWaiting|
        invariant 0 <= p <= |lockWaiting| && Valid() && State() == s
        invariant FirstFree(s, 0) == FirstFree(s, p)
      {
        var conflict := ConflictAt(p);
        ScanOn(s, p);
        if !conflict {
          return;
        }
        p := p + 1;
      }
    }

    method ConflictAt(p: nat) returns (conflict: bool)
      requires Valid() && p < |lockWaiting|
      ensures conflict == ConflictAny(State().sent, State().waiting[p])
    {
      conflict := ConflictAll(lockWaiting[p]);
    }

    static lemma ScanOn(s: Server, p: nat)
      requires ServerOk(s) && p < |s.waiting|
      ensures FirstFree(s, p) == if ConflictAny(s.sent, s.waiting[p]) then FirstFree(s, p + 1) else p
    {
    }

    method ReleaseAt(p: nat) returns (out: seq<Message>)
      requires Valid() && p < |lockWaiting|
      modifies this
      ensures Valid() && |lockWaiting| == |old(lockWaiting)| - 1
      ensures State() == Release(old(State()), p).server
      ensures out == Release(old(State()), p).out
    {
      var lock := lockWaiting[p];
      ValuesDrop(lockWaiting, p);
      lockWaiting := lockWaiting[..p] + lockWaiting[p + 1..];
      out := TakeDone(lock);
    }

    /** Draining s after sending out gives what draining started out to do. */
    static ghost predicate DrainsTo(s: Server, out: seq<Message>, goal: Outcome) {
      ServerOk(s) && goal.server == Drain(s).server && goal.out == out + Drain(s).out
    }

    /** One round of the restarting scan: takes the first waiting lock that may go, if any. */
    method ReleaseNext(out: seq<Message>, ghost goal: Outcome) returns (more: bool, out': seq<Message>)
      requires Valid() && DrainsTo(State(), out, goal)
      modifies this
      ensures Valid()
      ensures more ==> |lockWaiting| == |old(lockWaiting)| - 1 && DrainsTo(State(), out', goal)
      ensures !more ==> State() == goal.server && out' == goal.out
    {
      var p := ScanWaiting();
      if p == |lockWaiting| {
        return false, out;
      }
      ReleaseDrains(State(), out, goal);
      var sent := ReleaseAt(p);
      more, out' := true, out + sent;
    }

    static lemma ReleaseDrains(s: Server, out: seq<Message>, goal: Outcome)
      requires DrainsTo(s, out, goal) && FirstFree(s, 0) < |s.waiting|
      ensures var first := Release(s, FirstFree(s, 0)); DrainsTo(first.server, out + first.out, goal)
    {
      var first := Release(s, FirstFree(s, 0));
      DrainGoesOn(s);
      Regroup(out, first.out, Drain(first.server).out);
    }

    static lemma DrainGoesOn(s: Server)
      requires ServerOk(s) && FirstFree(s, 0) < |s.waiting|
      ensures var first := Release(s, FirstFree(s, 0));
        Drain(s).server == Drain(first.server).server && Drain(s).out == first.out + Drain(first.server).out
    {
    }

    static lemma Regroup<T>(a: seq<T>, b: seq<T>, c: seq<T>)
      ensures a + b + c == a + (b + c)
    {
    }

    /** Takes the first waiting lock that may go and starts over, until none may. */
    method DrainWaiting() returns (out: seq<Message>)
      requires Valid()
      modifies this
      ensures Valid()
      ensures State() == Drain(old(State())).server
      ensures out == Drain(old(State())).out
    {
      ghost var goal := Drain(State());
      var more;
      more, out := ReleaseNext([], goal);
      while more
        invariant Valid()
        invariant more ==> DrainsTo(State(), out, goal)
        invariant !more ==> State() == goal.server && out == goal.out
        decreases more, |lockWaiting|
      {
        more, out := ReleaseNext(out, goal);
      }
    }

    static function IndexOf(rs: seq<LockRecord>, r: LockRecord): (p: nat)
      requires r in rs
      ensures p < |rs| && rs[p] == r
    {
      if rs[0] == r then 0 else 1 + IndexOf(rs[1..], r)
    }

    /** The record the hash gives for an id is the one the sent list holds under it. */
    lemma LookUp(lid: LockId, p: nat)
      requires Valid() && lid in locks && p < |lockSent| && lockSent[p] == locks[lid]
      ensures p == Find(State().sent, lid)
    {
    }

    lemma NotFound(lid: LockId)
      requires Valid() && lid !in locks
      ensures Find(State().sent, lid) == |State().sent|
    {
    }

    static lemma RemoveIndexed(locks: map<LockId, LockRecord>, sent: seq<LockRecord>, lid: LockId, p: nat)
      requires Indexed(locks, sent) && lid in locks && p < |sent| && sent[p] == locks[lid]
      ensures Indexed(locks - {lid}, sent[..p] + sent[p + 1..])
    {
    }

    /** A sent record leaves the hash and the list. */
    method Forget(lid: LockId, p: nat)
      requires Valid() && lid in locks && p < |lockSent| && lockSent[p] == locks[lid]
      modifies this`locks, this`lockSent
      ensures Valid()
      ensures State() == old(State()).(sent := old(State()).sent[..p] + old(State()).sent[p + 1..])
    {
      RemoveIndexed(locks, lockSent, lid, p);
      ValuesDrop(lockSent, p);
      DropOk(State(), p);
      locks, lockSent := locks - {lid}, lockSent[..p] + lockSent[p + 1..];
    }

    static lemma ValuesDrop(rs: seq<LockRecord>, p: nat)
      requires p < |rs|
      ensures Values(rs[..p] + rs[p + 1..]) == Values(rs)[..p] + Values(rs)[p + 1..]
    {
    }

    static lemma DropOk(s: Server, p: nat)
      requires ServerOk(s) && p < |s.sent|
      ensures ServerOk(s.(sent := s.sent[..p] + s.sent[p + 1..]))
    {
    }

    method MarkRecord(lid: LockId, src: int) returns (finished: bool, p: nat)
      requires Valid() && lid in locks
      modifies locks[lid]
      ensures Valid() && p < |lockSent| && lockSent[p] == locks[lid] && p == Find(old(State()).sent, lid)
      ensures State() == old(State()).(sent := old(State()).sent[p := Mark(old(State()).sent[p], src)])
      ensures finished == AllFinished(State().sent[p])
    {
      var lock := locks[lid];
      p := IndexOf(lockSent, lock);
      LookUp(lid, p);
      finished := MarkElems(lock, src);
      assert forall i :: 0 <= i < |lockSent| && i != p ==> lockSent[i] != lock;
      assert forall i :: 0 <= i < |lockWaiting| ==> lockWaiting[i] != lock;
      assert Values(lockSent) == old(Values(lockSent))[p := Mark(old(Values(lockSent))[p], src)];
      assert Values(lockWaiting) == old(Values(lockWaiting));
    }

    /** Marks the reporting server's element and drops the lock once all have reported. */
    method MarkSent(lid: LockId, src: int)
      requires Valid() && lid in locks
      modifies this, locks[lid]
      ensures Valid()
      ensures var p := Find(old(State()).sent, lid);
        p < |old(State()).sent| && State() == LockServer.MarkSent(old(State()), p, src)
    {
      var finished, p := MarkRecord(lid, src);
      if finished {
        ghost var marked := State().sent;
        Forget(lid, p);
        assert marked[..p] + marked[p + 1..] == old(State()).sent[..p] + old(State()).sent[p + 1..];
      }
    }

    /** A LOCK_UNLOCK packet from data server src. */
    method HandleUnlock(src: int, lid: LockId) returns (out: seq<Message>)
      requires Valid()
      modifies this, if lid in locks then {locks[lid]} else {}
      ensures Valid()
      ensures State() == OnUnlock(old(State()), src, lid).server
      ensures out == OnUnlock(old(State()), src, lid).out
      ensures lid !in old(locks) ==> out == [] && State() == old(State()) && locks == old(locks)
    {
      if lid !in locks {
        NotFound(lid);
        return [];
      }
      MarkSent(lid, src);
      out := DrainWaiting();
    }
  }

  /** Sets the flag of every element of server src; reports whether all flags are now set. */
  method MarkElems(lock: LockRecord, src: int) returns (finished: bool)
    requires WellFormed(lock.Value())
    modifies lock
    ensures lock.Value() == Mark(old(lock.Value()), src)
    ensures |lock.finish| == |lock.req.servs|
    ensures forall i :: 0 <= i < |lock.finish| ==> (lock.finish[i] <==> old(lock.finish)[i] || lock.req.servs[i] == src)
    ensures finished == AllFinished(lock.Value())
  {
    finished := true;
    var i := 0;
    while i < |lock.req.servs|
      invariant 0 <= i <= |lock.req.servs| == |lock.finish|
      invariant forall j :: i <= j < |lock.finish| ==> lock.finish[j] == old(lock.finish)[j]
      invariant forall j :: 0 <= j < i ==> lock.finish[j] == (old(lock.finish)[j] || lock.req.servs[j] == src)
      invariant finished <==> forall j :: 0 <= j < i ==> lock.finish[j]
    {
      if lock.req.servs[i] == src {
        ghost var k := 0;
        if !finished { k :| 0 <= k < i && !lock.finish[k]; }
        lock.finish := lock.finish[i := true];
        if !finished {
          assert !lock.Value().finish[k];
          assert forall j :: i < j < |lock.req.servs| ==> lock.req.servs[j] != src;
          break;
        }
      } else if !lock.finish[i] {
        finished := false;
      }
      i := i + 1;
    }
    assert lock.finish == Mark(old(lock.Value()), src).finish;
  }
}
