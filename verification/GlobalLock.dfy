/** The meta server's global lock: one 32-bit mask, granted to locks whose bits are free,
    and given on to waiting ones when a lock is released. */
module GlobalLock {
  import opened Ids
  import opened Seqs

  type LockId = Id

  /** A 32-bit word as the set of its bits, so that &, | and & ~ are *, + and -. */
  type Mask = m: set<nat> | forall b :: b in m ==> b < 32

  datatype Elem = Elem(client: int, req: int, lock: Mask, waiting: bool)

  /** glock and glock_elems. */
  datatype State = State(mask: Mask, elems: map<LockId, Elem>)

  /** The answer to a client's lock request. */
  datatype Reply = Reply(client: int, req: int)

  predicate Meets(a: Mask, b: Mask) {
    a * b != {}
  }

  // ---- Handlers -----------------------------------------------------------------------

  function OnLock(g: State, id: LockId, client: int, req: int, lock: Mask): State {
    if Meets(g.mask, lock)
    then g.(elems := g.elems[id := Elem(client, req, lock, true)])
    else State(g.mask + lock, g.elems[id := Elem(client, req, lock, false)])
  }

  predicate Releases(g: State, id: LockId) {
    id in g.elems && g.elems[id].waiting && !Meets(g.mask, g.elems[id].lock)
  }

  /** One element of the scan. A waiting lock whose bits are free stops waiting; it gets
      them and an answer if its client is still there. */
  function Visit(g: State, id: LockId, active: set<int>): State {
    if Releases(g, id) then
      var e := g.elems[id];
      State(if e.client in active then g.mask + e.lock else g.mask, g.elems[id := e.(waiting := false)])
    else g
  }

  function Scan(g: State, order: seq<LockId>, active: set<int>): State
    decreases |order|
  {
    if order == [] then g else Scan(Visit(g, order[0], active), order[1..], active)
  }

  function Answers(g: State, order: seq<LockId>, active: set<int>): seq<Reply>
    decreases |order|
  {
    if order == [] then []
    else
      (if Releases(g, order[0]) && g.elems[order[0]].client in active
       then [Reply(g.elems[order[0]].client, g.elems[order[0]].req)] else [])
      + Answers(Visit(g, order[0], active), order[1..], active)
  }

  lemma ScanStep(g: State, order: seq<LockId>, active: set<int>)
    requires order != []
    ensures Scan(g, order, active) == Scan(Visit(g, order[0], active), order[1..], active)
    ensures Answers(g, order, active) ==
      (if Releases(g, order[0]) && g.elems[order[0]].client in active
       then [Reply(g.elems[order[0]].client, g.elems[order[0]].req)] else [])
      + Answers(Visit(g, order[0], active), order[1..], active)
  {
  }

  function Removed(g: State, id: LockId): State
    requires id in g.elems
  {
    State(g.mask - g.elems[id].lock, g.elems - {id})
  }

  /** order is the hash's iteration order over the elements that are left. */
  function OnUnlock(g: State, id: LockId, order: seq<LockId>, active: set<int>): State {
    if id in g.elems then Scan(Removed(g, id), order, active) else g
  }

  // ---- What always holds ----------------------------------------------------------------

  predicate Granted(g: State, id: LockId) {
    id in g.elems && !g.elems[id].waiting
  }

  ghost predicate Owned(g: State, b: nat) {
    exists id :: Granted(g, id) && b in g.elems[id].lock
  }

  /** The global mask is the union of the granted ones. */
  ghost predicate Union(g: State) {
    forall b: nat :: b in g.mask <==> Owned(g, b)
  }

  ghost predicate Disjoint(g: State) {
    forall i, j :: Granted(g, i) && Granted(g, j) && i != j ==> !Meets(g.elems[i].lock, g.elems[j].lock)
  }

  /** Nothing that waits could be granted. */
  ghost predicate NothingGrantable(g: State) {
    forall id :: id in g.elems && g.elems[id].waiting ==> Meets(g.elems[id].lock, g.mask)
  }

  ghost predicate Inv(g: State) {
    Union(g) && Disjoint(g) && NothingGrantable(g)
  }

  // ---- What goes wrong otherwise --------------------------------------------------------------

  /** A bit that the global mask lacks, or has for nobody. */
  ghost predicate Loose(g: State, id: LockId, b: nat) {
    Granted(g, id) && b in g.elems[id].lock && b !in g.mask
  }

  /** A granted lock lacks one of its bits, or shares it with another. It cannot be repaired:
      no step takes a grant back. */
  ghost predicate Broken(g: State) {
    (exists id, b :: Loose(g, id, b)) || !Disjoint(g)
  }

  lemma BrokenBad(g: State)
    requires Broken(g)
    ensures !Inv(g)
  {
  }

  // ---- Granting -----------------------------------------------------------------------------

  /** Lock id has just been granted on top of g. */
  ghost predicate Grant(g: State, g': State, id: LockId) {
    && id in g'.elems && !g'.elems[id].waiting && !Granted(g, id)
    && g'.elems == g.elems[id := g'.elems[id]] && g'.mask == g.mask + g'.elems[id].lock
    && !Meets(g'.elems[id].lock, g.mask)
  }

  lemma GrantKeeps(g: State, g': State, id: LockId)
    requires Grant(g, g', id) && Union(g) && Disjoint(g)
    ensures Union(g') && Disjoint(g')
  {
    var m := g'.elems[id].lock;
    forall b: nat ensures b in g'.mask <==> Owned(g', b) {
      if Owned(g, b) {
        var i :| Granted(g, i) && b in g.elems[i].lock;
        assert Granted(g', i) && b in g'.elems[i].lock;
      }
      assert b in m ==> Granted(g', id) && b in g'.elems[id].lock;
      if Owned(g', b) {
        var i :| Granted(g', i) && b in g'.elems[i].lock;
        assert i != id ==> Granted(g, i) && b in g.elems[i].lock;
      }
    }
    forall j | Granted(g', j) && j != id ensures !Meets(m, g'.elems[j].lock) && !Meets(g'.elems[j].lock, m) {
      assert Granted(g, j);
      forall b | b in m * g.elems[j].lock ensures b in m * g.mask {
        assert Owned(g, b);
      }
    }
  }

  // ---- Removing -----------------------------------------------------------------------------

  /** Releasing a granted lock leaves the other granted ones their bits. */
  lemma RemoveKeeps(g: State, id: LockId)
    requires Granted(g, id) && Union(g) && Disjoint(g)
    ensures Union(Removed(g, id)) && Disjoint(Removed(g, id))
  {
    var g' := Removed(g, id);
    forall b: nat ensures b in g'.mask <==> Owned(g', b) {
      if Owned(g', b) {
        var i :| Granted(g', i) && b in g'.elems[i].lock;
        assert Granted(g, i) && !Meets(g.elems[i].lock, g.elems[id].lock);
        assert b !in g.elems[i].lock * g.elems[id].lock;
      }
      if b in g'.mask {
        assert Owned(g, b);
        var i :| Granted(g, i) && b in g.elems[i].lock;
        assert Granted(g', i);
      }
    }
  }

  /** Releasing a lock that was still waiting takes bits from a granted one. */
  lemma RemoveBreaks(g: State, id: LockId)
    requires Inv(g) && id in g.elems && g.elems[id].waiting
    ensures Broken(Removed(g, id))
  {
    var b :| b in g.elems[id].lock * g.mask;
    assert Owned(g, b);
    var i :| Granted(g, i) && b in g.elems[i].lock;
    assert Loose(Removed(g, id), i, b);
  }

  // ---- The scan -------------------------------------------------------------------------------

  /** A lock is released for a client that has gone. */
  predicate Forgets(g: State, id: LockId, active: set<int>) {
    Releases(g, id) && g.elems[id].lock != {} && g.elems[id].client !in active
  }

  lemma VisitKeeps(g: State, id: LockId, active: set<int>)
    requires Union(g) && Disjoint(g)
    ensures var g' := Visit(g, id, active);
      if Forgets(g, id, active) then Broken(g') else Union(g') && Disjoint(g')
  {
    var g' := Visit(g, id, active);
    if Releases(g, id) {
      var lock := g.elems[id].lock;
      assert g.mask * lock == lock * g.mask;
      if Forgets(g, id, active) {
        var b :| b in lock;
        assert b !in g.mask * lock;
        assert Loose(g', id, b);
      } else {
        assert lock == {} ==> g.mask + lock == g.mask;
        GrantKeeps(g, g', id);
      }
    }
  }

  lemma VisitBroken(g: State, id: LockId, active: set<int>)
    requires Broken(g)
    ensures Broken(Visit(g, id, active))
  {
    var g' := Visit(g, id, active);
    if !Disjoint(g) {
      var i, j :| Granted(g, i) && Granted(g, j) && i != j && Meets(g.elems[i].lock, g.elems[j].lock);
      assert Granted(g', i) && Granted(g', j) && Meets(g'.elems[i].lock, g'.elems[j].lock);
    } else {
      var i, b :| Loose(g, i, b);
      if Releases(g, id) && b in g.elems[id].lock {
        assert Granted(g', i) && Granted(g', id);
        assert b in g'.elems[i].lock * g'.elems[id].lock;
      } else {
        assert Loose(g', i, b);
      }
    }
  }

  /** The scan releases a lock of a client that has gone. */
  ghost predicate ScanForgets(g: State, order: seq<LockId>, active: set<int>)
    decreases |order|
  {
    order != [] && (Forgets(g, order[0], active) || ScanForgets(Visit(g, order[0], active), order[1..], active))
  }

  lemma {:induction false} ScanBroken(g: State, order: seq<LockId>, active: set<int>)
    requires Broken(g)
    ensures Broken(Scan(g, order, active))
    decreases |order|
  {
    if order != [] {
      VisitBroken(g, order[0], active);
      ScanBroken(Visit(g, order[0], active), order[1..], active);
    }
  }

  lemma {:induction false} ScanKeeps(g: State, order: seq<LockId>, active: set<int>)
    requires Union(g) && Disjoint(g)
    ensures var g' := Scan(g, order, active);
      if ScanForgets(g, order, active) then Broken(g') else Union(g') && Disjoint(g')
    decreases |order|
  {
    if order != [] {
      var g1 := Visit(g, order[0], active);
      VisitKeeps(g, order[0], active);
      if Forgets(g, order[0], active) {
        ScanBroken(g1, order[1..], active);
      } else {
        ScanKeeps(g1, order[1..], active);
      }
    }
  }

  /** The scan only adds bits and only ends waits, and what it has passed over and left
      waiting meets the mask. */
  lemma {:induction false} ScanSettles(g: State, order: seq<LockId>, active: set<int>)
    ensures var g' := Scan(g, order, active);
      && g'.elems.Keys == g.elems.Keys && g.mask <= g'.mask
      && (forall id :: id in order && id in g'.elems && g'.elems[id].waiting ==> Meets(g'.elems[id].lock, g'.mask))
      && (forall id :: id in g.elems ==> g'.elems[id] == g.elems[id].(waiting := g'.elems[id].waiting))
      && (forall id :: id in g.elems && g'.elems[id].waiting ==> g.elems[id].waiting)
    decreases |order|
  {
    if order != [] {
      var g1, id := Visit(g, order[0], active), order[0];
      ScanSettles(g1, order[1..], active);
      var g' := Scan(g1, order[1..], active);
      if id in g'.elems && g'.elems[id].waiting {
        var b :| b in g.mask * g.elems[id].lock;
        assert b in g'.elems[id].lock * g'.mask;
      }
    }
  }

  // ---- The handlers, exactly ----------------------------------------------------------------------

  lemma FreshLockKeeps(g: State, id: LockId, client: int, req: int, lock: Mask)
    requires Inv(g) && !Granted(g, id)
    ensures Inv(OnLock(g, id, client, req, lock))
  {
    var g' := OnLock(g, id, client, req, lock);
    assert g.mask * lock == lock * g.mask;
    if Meets(g.mask, lock) {
      assert forall i :: Granted(g', i) <==> Granted(g, i);
      assert forall b :: Owned(g', b) <==> Owned(g, b);
    } else {
      GrantKeeps(g, g', id);
      forall i | i in g'.elems && g'.elems[i].waiting ensures Meets(g'.elems[i].lock, g'.mask) {
        var b :| b in g.elems[i].lock * g.mask;
        assert b in g'.elems[i].lock * g'.mask;
      }
    }
  }

  lemma GrantedAgain(g: State, id: LockId, client: int, req: int, lock: Mask)
    requires Inv(g) && Granted(g, id) && g.elems[id].lock != {}
    ensures !Inv(OnLock(g, id, client, req, lock))
  {
    var g' := OnLock(g, id, client, req, lock);
    var b :| b in g.elems[id].lock;
    assert Owned(g, b);
    forall i | Granted(g', i) ensures b !in g'.elems[i].lock {
      if i == id {
        assert b !in g.mask * lock;
      } else {
        assert Granted(g, i) && b !in g.elems[i].lock * g.elems[id].lock;
      }
    }
  }

  lemma WithoutEmpty(g: State, id: LockId)
    requires Inv(g) && id in g.elems && g.elems[id].lock == {}
    ensures Inv(g.(elems := g.elems - {id}))
  {
    var g0 := g.(elems := g.elems - {id});
    forall b: nat ensures Owned(g0, b) <==> Owned(g, b) {
      if Owned(g, b) {
        var i :| Granted(g, i) && b in g.elems[i].lock;
        assert Granted(g0, i);
      }
    }
  }

  lemma SetAgain(elems: map<LockId, Elem>, id: LockId, e: Elem)
    ensures (elems - {id})[id := e] == elems[id := e]
  {
  }

  lemma EmptyAgain(g: State, id: LockId, client: int, req: int, lock: Mask)
    requires Inv(g) && Granted(g, id) && g.elems[id].lock == {}
    ensures Inv(OnLock(g, id, client, req, lock))
  {
    var g0 := g.(elems := g.elems - {id});
    WithoutEmpty(g, id);
    FreshLockKeeps(g0, id, client, req, lock);
    SetAgain(g.elems, id, Elem(client, req, lock, true));
    SetAgain(g.elems, id, Elem(client, req, lock, false));
  }

  /** A lock request keeps the invariant exactly if its id is not that of a granted lock
      with bits of its own. */
  lemma LockKeeps(g: State, id: LockId, client: int, req: int, lock: Mask)
    requires Inv(g)
    ensures Inv(OnLock(g, id, client, req, lock)) <==> !(Granted(g, id) && g.elems[id].lock != {})
  {
    if !Granted(g, id) {
      FreshLockKeeps(g, id, client, req, lock);
    } else if g.elems[id].lock == {} {
      EmptyAgain(g, id, client, req, lock);
    } else {
      GrantedAgain(g, id, client, req, lock);
    }
  }

  /** An unlock keeps the invariant exactly if the lock it names had been granted, or is not
      there, and no client whose lock the scan releases has gone. */
  lemma UnlockKeeps(g: State, id: LockId, order: seq<LockId>, active: set<int>)
    requires Inv(g) && (id in g.elems ==> forall i :: i in order <==> i in g.elems && i != id)
    ensures Inv(OnUnlock(g, id, order, active)) <==>
      (id in g.elems ==> Granted(g, id) && !ScanForgets(Removed(g, id), order, active))
  {
    if id in g.elems {
      var g1 := Removed(g, id);
      if Granted(g, id) {
        RemoveKeeps(g, id);
        ScanKeeps(g1, order, active);
      } else {
        RemoveBreaks(g, id);
        ScanBroken(g1, order, active);
      }
      ScanSettles(g1, order, active);
      if Broken(Scan(g1, order, active)) {
        BrokenBad(Scan(g1, order, active));
      }
    }
  }

  // ---- Answers --------------------------------------------------------------------------------------

  /** The answers due to the locks of order that wait in g and no longer do in g'. */
  function Due(g: State, g': State, order: seq<LockId>, active: set<int>): seq<Reply>
    requires forall id :: id in order ==> id in g.elems && id in g'.elems
  {
    if order == [] then []
    else
      var e := g.elems[order[0]];
      (if e.waiting && !g'.elems[order[0]].waiting && e.client in active then [Reply(e.client, e.req)] else [])
      + Due(g, g', order[1..], active)
  }

  lemma {:induction false} DueFrame(g: State, g1: State, g': State, order: seq<LockId>, active: set<int>)
    requires forall id :: id in order ==> id in g.elems && id in g1.elems && id in g'.elems && g1.elems[id] == g.elems[id]
    ensures Due(g, g', order, active) == Due(g1, g', order, active)
  {
    if order != [] {
      assert order[0] in order;
      DueFrame(g, g1, g', order[1..], active);
    }
  }

  /** The scan answers every lock it grants, once and in its own order, and no other. */
  lemma {:induction false} AnswersDue(g: State, order: seq<LockId>, active: set<int>)
    requires NoDup(order) && forall id :: id in order ==> id in g.elems
    ensures Scan(g, order, active).elems.Keys == g.elems.Keys
    ensures Answers(g, order, active) == Due(g, Scan(g, order, active), order, active)
    decreases |order|
  {
    ScanSettles(g, order, active);
    if order != [] {
      var id, rest := order[0], order[1..];
      var g1 := Visit(g, id, active);
      assert id in order && forall i :: i in rest ==> i in order;
      AnswersDue(g1, rest, active);
      Untouched(g1, rest, active, id);
      DueFrame(g, g1, Scan(g1, rest, active), rest, active);
    }
  }

  /** r is the answer to one of the locks of order that has stopped waiting. */
  ghost predicate AnswerDue(elems: map<LockId, Elem>, elems': map<LockId, Elem>, order: seq<LockId>, active: set<int>, r: Reply) {
    exists i :: i in order && i in elems && i in elems' && elems[i].waiting && !elems'[i].waiting
      && elems[i].client in active && r.client == elems[i].client && r.req == elems[i].req
  }

  lemma {:induction false} DueNamed(g: State, g': State, order: seq<LockId>, active: set<int>, r: Reply)
    requires forall id :: id in order ==> id in g.elems && id in g'.elems
    ensures r in Due(g, g', order, active) <==> AnswerDue(g.elems, g'.elems, order, active, r)
  {
    if order != [] {
      DueNamed(g, g', order[1..], active, r);
      assert order == [order[0]] + order[1..];
    }
  }

  lemma {:induction false} Untouched(g: State, order: seq<LockId>, active: set<int>, id: LockId)
    requires id !in order && id in g.elems
    ensures id in Scan(g, order, active).elems && Scan(g, order, active).elems[id] == g.elems[id]
    decreases |order|
  {
    if order != [] {
      assert order[0] in order;
      Untouched(Visit(g, order[0], active), order[1..], active, id);
    }
  }

  // ---- Runs -----------------------------------------------------------------------------------------

  datatype Packet =
    | Lock(id: LockId, client: int, req: int, lock: Mask)
    | Unlock(id: LockId, order: seq<LockId>, active: set<int>)

  function Handle(g: State, p: Packet): State {
    match p
    case Lock(id, client, req, lock) => OnLock(g, id, client, req, lock)
    case Unlock(id, order, active) => OnUnlock(g, id, order, active)
  }

  /** New locks have new ids; only granted locks are released, while the clients of the
      waiting ones are there. */
  ghost predicate Proper(g: State, p: Packet) {
    match p
    case Lock(id, _, _, _) => id !in g.elems
    case Unlock(id, order, active) =>
      && Granted(g, id) && (forall i :: i in order <==> i in g.elems && i != id)
      && forall i :: i in g.elems && g.elems[i].waiting ==> g.elems[i].client in active
  }

  lemma {:induction false} NoneForgotten(g: State, order: seq<LockId>, active: set<int>)
    requires forall i :: i in g.elems && g.elems[i].waiting ==> g.elems[i].client in active
    ensures !ScanForgets(g, order, active)
    decreases |order|
  {
    if order != [] {
      NoneForgotten(Visit(g, order[0], active), order[1..], active);
    }
  }

  /** In every reachable state the mask is the disjoint union of the granted masks, and
      every waiting lock overlaps it. */
  lemma {:induction false} RunKeeps(run: seq<State>, packets: seq<Packet>, i: nat)
    requires |run| == |packets| + 1 && run[0] == State({}, map[])
    requires forall k :: 0 <= k < |packets| ==> Proper(run[k], packets[k]) && run[k + 1] == Handle(run[k], packets[k])
    requires i < |run|
    ensures Inv(run[i])
  {
    if i > 0 {
      RunKeeps(run, packets, i - 1);
      var g, p := run[i - 1], packets[i - 1];
      assert Proper(g, p) && run[i - 1 + 1] == Handle(g, p);
      match p
      case Lock(id, client, req, lock) => LockKeeps(g, id, client, req, lock);
      case Unlock(id, order, active) =>
        NoneForgotten(Removed(g, id), order, active);
        UnlockKeeps(g, id, order, active);
    }
  }

  lemma HandleRecords(g: State, p: Packet, id: LockId)
    requires Proper(g, p) && id in Handle(g, p).elems
    ensures var e := Handle(g, p).elems[id];
      || p == Lock(id, e.client, e.req, e.lock)
      || (p.id != id && id in g.elems && e.client == g.elems[id].client && e.req == g.elems[id].req && e.lock == g.elems[id].lock)
  {
    if p.Unlock? {
      ScanSettles(Removed(g, p.id), p.order, p.active);
    }
  }

  /** A lock's element holds what its Lock packet asked for: that packet, behind which no
      other names the lock. */
  lemma {:induction false} RunRecords(run: seq<State>, packets: seq<Packet>, i: nat, id: LockId) returns (k: nat)
    requires |run| == |packets| + 1 && run[0] == State({}, map[])
    requires forall j :: 0 <= j < |packets| ==> Proper(run[j], packets[j]) && run[j + 1] == Handle(run[j], packets[j])
    requires i < |run| && id in run[i].elems
    ensures k < i && packets[k].Lock? && packets[k].id == id
    ensures run[i].elems[id].client == packets[k].client && run[i].elems[id].req == packets[k].req
    ensures run[i].elems[id].lock == packets[k].lock
    ensures forall j :: k < j < i ==> packets[j].id != id
  {
    assert i > 0;
    HandleRecords(run[i - 1], packets[i - 1], id);
    if packets[i - 1].id == id {
      k := i - 1;
    } else {
      k := RunRecords(run, packets, i - 1, id);
    }
  }

  /** Two locks that are granted at the same time have asked for different bits, and all of
      them are taken. */
  lemma GrantedApart(run: seq<State>, packets: seq<Packet>, i: nat, a: LockId, b: LockId) returns (k: nat, l: nat)
    requires |run| == |packets| + 1 && run[0] == State({}, map[])
    requires forall j :: 0 <= j < |packets| ==> Proper(run[j], packets[j]) && run[j + 1] == Handle(run[j], packets[j])
    requires i < |run| && Granted(run[i], a) && Granted(run[i], b) && a != b
    ensures k < i && packets[k].Lock? && packets[k].id == a && (forall j :: k < j < i ==> packets[j].id != a)
    ensures l < i && packets[l].Lock? && packets[l].id == b && (forall j :: l < j < i ==> packets[j].id != b)
    ensures packets[k].lock * packets[l].lock == {} && packets[k].lock + packets[l].lock <= run[i].mask
  {
    RunKeeps(run, packets, i);
    k := RunRecords(run, packets, i, a);
    l := RunRecords(run, packets, i, b);
    forall x | x in packets[k].lock + packets[l].lock ensures x in run[i].mask {
      assert Owned(run[i], x);
    }
  }

  // ---- The server in memory ---------------------------------------------------------------------------

  class MetaServer {
    var glock: Mask
    var elems: map<LockId, Elem>

    ghost function Value(): State
      reads this
    {
      State(glock, elems)
    }

    constructor ()
      ensures Inv(Value()) && Value() == State({}, map[])
    {
      glock, elems := {}, map[];
    }

    method HandleLock(client: int, req: int, id: LockId, lock: Mask) returns (answer: seq<Reply>)
      modifies this
      ensures Value() == OnLock(old(Value()), id, client, req, lock)
      ensures id in elems && elems == old(elems)[id := elems[id]]
      ensures elems[id].client == client && elems[id].req == req && elems[id].lock == lock
      ensures elems[id].waiting <==> exists b :: b in old(glock) && b in lock
      ensures forall b :: b in glock <==> b in old(glock) || (b in lock && !elems[id].waiting)
      ensures answer == if elems[id].waiting then [] else [Reply(client, req)]
    {
      assert forall b :: b in glock && b in lock ==> b in glock * lock;
      elems := elems[id := Elem(client, req, lock, true)];
      if glock * lock == {} {
        elems := elems[id := Elem(client, req, lock, false)];
        glock := glock + lock;
        return [Reply(client, req)];
      }
      return [];
    }

    /** One element of the scan over the waiting locks. */
    method VisitElem(id: LockId, active: set<int>) returns (answer: seq<Reply>)
      requires id in elems
      modifies this
      ensures Value() == Visit(old(Value()), id, active)
      ensures answer == if Releases(old(Value()), id) && old(elems[id].client) in active
        then [Reply(old(elems[id].client), old(elems[id].req))] else []
    {
      var e := elems[id];
      if !e.waiting {
        return [];
      }
      if glock * e.lock != {} {
        return [];
      }
      elems := elems[id := e.(waiting := false)];
      if e.client !in active {
        return [];
      }
      glock := glock + e.lock;
      return [Reply(e.client, e.req)];
    }

    /** Goes over the elements in the hash's order. */
    method ScanElems(order: seq<LockId>, active: set<int>) returns (answers: seq<Reply>)
      requires forall k :: k in order ==> k in elems
      modifies this
      ensures Value() == Scan(old(Value()), order, active) && answers == Answers(old(Value()), order, active)
    {
      answers := [];
      ghost var g, rest := Value(), order;
      var i := 0;
      while i < |order|
        invariant 0 <= i <= |order| && rest == order[i..] && elems.Keys == g.elems.Keys
        invariant Scan(Value(), rest, active) == Scan(g, order, active)
        invariant answers + Answers(Value(), rest, active) == Answers(g, order, active)
      {
        ghost var now, before := Value(), answers;
        var answer := VisitElem(order[i], active);
        ScanStep(now, rest, active);
        answers := answers + answer;
        rest := rest[1..];
        assert before + (answer + Answers(Value(), rest, active)) == answers + Answers(Value(), rest, active);
        i := i + 1;
      }
    }

    /** client must be the one that asked for the lock. */
    method HandleUnlock(client: int, id: LockId, order: seq<LockId>, active: set<int>) returns (answers: seq<Reply>)
      requires id in elems ==> elems[id].client == client
      requires forall i :: i in order ==> i in elems && i != id
      modifies this
      ensures Value() == OnUnlock(old(Value()), id, order, active)
      ensures answers == if id in old(elems) then Answers(Removed(old(Value()), id), order, active) else []
      ensures id !in old(elems) ==> glock == old(glock) && elems == old(elems)
      ensures elems.Keys == old(elems).Keys - {id}
      ensures forall i :: i in elems ==>
        && elems[i].client == old(elems)[i].client && elems[i].req == old(elems)[i].req
        && elems[i].lock == old(elems)[i].lock && (elems[i].waiting ==> old(elems)[i].waiting)
      ensures NoDup(order) ==> forall r :: r in answers <==> AnswerDue(old(elems), elems, order, active, r)
    {
      if id !in elems {
        return [];
      }
      ghost var g1 := Removed(Value(), id);
      ScanSettles(g1, order, active);
      glock := glock - elems[id].lock;
      elems := elems - {id};
      answers := ScanElems(order, active);
      if NoDup(order) {
        AnswersDue(g1, order, active);
        forall r ensures r in answers <==> AnswerDue(old(elems), elems, order, active, r) {
          DueNamed(g1, Value(), order, active, r);
        }
      }
    }
  }
}
