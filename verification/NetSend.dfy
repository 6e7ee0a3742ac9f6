/** The sending side: packets queued on many connections at once, each with the request id
    it had when it was queued, written piece by piece from the one shared buffer. */
module NetSend {
  import opened Bytes
  import opened Packet
  import opened NetStream

  /** struct packet_node: which packet, how much of it is written, under which request id. */
  datatype Node = Node(pkt: int, curr: nat, req: uint)

  /** log only records history: the bytes every packet had when it was queued. */
  datatype Conn = Conn(queue: seq<Node>, wire: bytes, log: seq<bytes>)

  datatype State = State(packets: map<int, bytes>, conns: map<int, Conn>)

  datatype Action =
    | Create(pkt: int, data: bytes)       // a new packet
    | SetReq(pkt: int, req: uint)         // its request id changes
    | Alter(pkt: int, data: bytes)        // anything else of it changes
    | Send(conn: int, pkt: int)           // it is queued
    | Write(conn: int, n: nat)            // one write call takes n bytes

  function Stamped(p: bytes, req: uint): (r: bytes)
    requires |p| >= HEAD
    ensures |r| == |p|
  {
    Patch(p, REQ_POS, Encode(req, 4))
  }

  function ReqOf(p: bytes): uint
    requires |p| >= HEAD
  {
    Decode4(p[REQ_POS..HEAD]);
    Decode(p[REQ_POS..HEAD])
  }

  /** The same but for the request id. */
  predicate SameBody(p: bytes, q: bytes) {
    |p| == |q| >= HEAD && p[..REQ_POS] == q[..REQ_POS] && p[HEAD..] == q[HEAD..]
  }

  ghost predicate Queued(s: State, pkt: int) {
    exists c, i :: c in s.conns && 0 <= i < |s.conns[c].queue| && s.conns[c].queue[i].pkt == pkt
  }

  /** n more bytes of the head, which holds p, are out. */
  function Advanced(conn: Conn, p: bytes, n: nat): Conn
    requires conn.queue != [] && conn.queue[0].curr + n <= |p|
  {
    var node := conn.queue[0];
    var curr := node.curr + n;
    var queue := if curr < |p| then [node.(curr := curr)] + conn.queue[1..] else conn.queue[1..];
    Conn(queue, conn.wire + p[node.curr..curr], conn.log)
  }

  /** What a write call does: the node's request id goes into the shared buffer first. */
  function Written(s: State, c: int, n: nat): State
    requires c in s.conns && s.conns[c].queue != []
    requires var node := s.conns[c].queue[0];
      node.pkt in s.packets && |s.packets[node.pkt]| >= HEAD && node.curr + n <= |s.packets[node.pkt]|
  {
    var node := s.conns[c].queue[0];
    var p := Stamped(s.packets[node.pkt], node.req);
    State(s.packets[node.pkt := p], s.conns[c := Advanced(s.conns[c], p, n)])
  }

  /** Sizes never change, and only a packet that is queued nowhere changes in more than
      its request id. */
  ghost predicate Step(s: State, s': State, a: Action) {
    match a
    case Create(k, data) => k !in s.packets && IsPacket(data) && s' == s.(packets := s.packets[k := data])
    case SetReq(k, req) =>
      k in s.packets && |s.packets[k]| >= HEAD && s' == s.(packets := s.packets[k := Stamped(s.packets[k], req)])
    case Alter(k, data) =>
      k in s.packets && !Queued(s, k) && IsPacket(data) && s' == s.(packets := s.packets[k := data])
    case Send(c, k) =>
      && c in s.conns && k in s.packets && |s.packets[k]| >= HEAD
      && var conn := s.conns[c];
        s' == s.(conns := s.conns[c := conn.(queue := conn.queue + [Node(k, 0, ReqOf(s.packets[k]))],
                                            log := conn.log + [s.packets[k]])])
    case Write(c, n) =>
      && c in s.conns && s.conns[c].queue != []
      && var node := s.conns[c].queue[0];
        && node.pkt in s.packets && |s.packets[node.pkt]| >= HEAD && node.curr + n <= |s.packets[node.pkt]|
        && s' == Written(s, c, n)
  }

  ghost predicate IsRun(run: seq<State>, acts: seq<Action>) {
    && |run| == |acts| + 1
    && run[0].packets == map[] && (forall c :: c in run[0].conns ==> run[0].conns[c] == Conn([], [], []))
    && forall i :: 0 <= i < |acts| ==> Step(run[i], run[i + 1], acts[i])
  }

  // ---- Stamps ------------------------------------------------------------------------------

  lemma StampBody(p: bytes, q: bytes, req: uint)
    requires SameBody(p, q)
    ensures Stamped(p, req) == Stamped(q, req) && SameBody(p, Stamped(p, req))
  {
  }

  lemma StampOwn(p: bytes)
    requires |p| >= HEAD
    ensures Stamped(p, ReqOf(p)) == p
  {
    EncodeDecode(p[REQ_POS..HEAD]);
    Decode4(p[REQ_POS..HEAD]);
    assert Encode(ReqOf(p), 4) == p[REQ_POS..HEAD];
  }

  lemma StampIsPacket(p: bytes, req: uint)
    requires IsPacket(p)
    ensures IsPacket(Stamped(p, req))
  {
    assert Stamped(p, req)[..4] == p[..4];
  }

  // ---- What is still to be written --------------------------------------------------------------

  ghost predicate NodeOk(packets: map<int, bytes>, node: Node) {
    node.pkt in packets && |packets[node.pkt]| >= HEAD && node.curr < |packets[node.pkt]|
  }

  ghost predicate QueueOk(packets: map<int, bytes>, queue: seq<Node>) {
    forall i :: 0 <= i < |queue| ==> NodeOk(packets, queue[i])
  }

  /** The part of a queued packet that is not written yet. */
  function Left(packets: map<int, bytes>, node: Node): bytes
    requires NodeOk(packets, node)
  {
    Stamped(packets[node.pkt], node.req)[node.curr..]
  }

  function Pending(packets: map<int, bytes>, queue: seq<Node>): bytes
    requires QueueOk(packets, queue)
  {
    if queue == [] then [] else Left(packets, queue[0]) + Pending(packets, queue[1..])
  }

  /** Other connections' writes, and new request ids, change nothing that is pending. */
  lemma {:induction false} PendingStays(packets: map<int, bytes>, packets': map<int, bytes>, queue: seq<Node>)
    requires QueueOk(packets, queue)
    requires forall i :: 0 <= i < |queue| ==>
      queue[i].pkt in packets && queue[i].pkt in packets' && SameBody(packets[queue[i].pkt], packets'[queue[i].pkt])
    ensures QueueOk(packets', queue) && Pending(packets', queue) == Pending(packets, queue)
  {
    forall i | 0 <= i < |queue| ensures NodeOk(packets', queue[i]) {
      assert NodeOk(packets, queue[i]);
    }
    if queue != [] {
      StampBody(packets[queue[0].pkt], packets'[queue[0].pkt], queue[0].req);
      PendingStays(packets, packets', queue[1..]);
    }
  }

  lemma {:induction false} PendingMore(packets: map<int, bytes>, queue: seq<Node>, node: Node)
    requires QueueOk(packets, queue) && NodeOk(packets, node)
    ensures QueueOk(packets, queue + [node])
    ensures Pending(packets, queue + [node]) == Pending(packets, queue) + Left(packets, node)
  {
    if queue == [] {
      assert [] + [node] == [node] && [node][1..] == [];
      assert Pending(packets, [node]) == Left(packets, node) + [];
    } else {
      assert (queue + [node])[1..] == queue[1..] + [node];
      PendingMore(packets, queue[1..], node);
      var a, b, c := Left(packets, queue[0]), Pending(packets, queue[1..]), Left(packets, node);
      assert a + (b + c) == a + b + c;
    }
  }

  lemma {:induction false} ConcatMore(ps: seq<bytes>, p: bytes)
    ensures Concat(ps + [p]) == Concat(ps) + p
  {
    if ps == [] {
      assert [] + [p] == [p] && [p][1..] == [];
    } else {
      assert (ps + [p])[1..] == ps[1..] + [p];
      ConcatMore(ps[1..], p);
    }
  }

  // ---- Invariant -----------------------------------------------------------------------------------

  ghost predicate ConnOk(packets: map<int, bytes>, conn: Conn) {
    && QueueOk(packets, conn.queue) && ArePackets(conn.log)
    && conn.wire + Pending(packets, conn.queue) == Concat(conn.log)
  }

  ghost predicate PacketsOk(s: State) {
    forall k :: k in s.packets ==> IsPacket(s.packets[k])
  }

  ghost predicate ConnsOk(s: State) {
    forall c :: c in s.conns ==> ConnOk(s.packets, s.conns[c])
  }

  ghost predicate Inv(s: State) {
    PacketsOk(s) && ConnsOk(s)
  }

  lemma ConnStays(packets: map<int, bytes>, packets': map<int, bytes>, conn: Conn)
    requires ConnOk(packets, conn)
    requires forall i :: 0 <= i < |conn.queue| ==>
      var k := conn.queue[i].pkt; k in packets && k in packets' && SameBody(packets[k], packets'[k])
    ensures ConnOk(packets', conn)
  {
    PendingStays(packets, packets', conn.queue);
  }

  lemma SendKeeps(packets: map<int, bytes>, conn: Conn, k: int)
    requires ConnOk(packets, conn) && k in packets && IsPacket(packets[k])
    ensures ConnOk(packets, conn.(queue := conn.queue + [Node(k, 0, ReqOf(packets[k]))], log := conn.log + [packets[k]]))
  {
    var p := packets[k];
    StampOwn(p);
    PendingMore(packets, conn.queue, Node(k, 0, ReqOf(p)));
    ConcatMore(conn.log, p);
    assert Left(packets, Node(k, 0, ReqOf(p))) == p;
    assert conn.wire + (Pending(packets, conn.queue) + p) == conn.wire + Pending(packets, conn.queue) + p;
  }

  // ---- Steps keep it --------------------------------------------------------------------------------

  lemma RestampKeeps(s: State, k: int, p: bytes)
    requires Inv(s) && k in s.packets && SameBody(s.packets[k], p) && IsPacket(p)
    ensures Inv(s.(packets := s.packets[k := p]))
  {
    forall c | c in s.conns ensures ConnOk(s.packets[k := p], s.conns[c]) {
      assert forall i :: 0 <= i < |s.conns[c].queue| ==> NodeOk(s.packets, s.conns[c].queue[i]);
      ConnStays(s.packets, s.packets[k := p], s.conns[c]);
    }
  }

  /** A packet that is new or queued nowhere may be anything. */
  lemma FreeKeeps(s: State, k: int, p: bytes)
    requires Inv(s) && (k !in s.packets || !Queued(s, k)) && IsPacket(p)
    ensures Inv(s.(packets := s.packets[k := p]))
  {
    forall c | c in s.conns ensures ConnOk(s.packets[k := p], s.conns[c]) {
      assert forall i :: 0 <= i < |s.conns[c].queue| ==> NodeOk(s.packets, s.conns[c].queue[i]);
      ConnStays(s.packets, s.packets[k := p], s.conns[c]);
    }
  }

  /** Writing from a buffer that carries the node's own request id. */
  lemma TakeKeeps(packets: map<int, bytes>, conn: Conn, n: nat)
    requires ConnOk(packets, conn) && conn.queue != []
    requires var node := conn.queue[0];
      NodeOk(packets, node) && packets[node.pkt] == Stamped(packets[node.pkt], node.req) && node.curr + n <= |packets[node.pkt]|
    ensures ConnOk(packets, Advanced(conn, packets[conn.queue[0].pkt], n))
  {
    var p, curr := packets[conn.queue[0].pkt], conn.queue[0].curr;
    PendingTaken(packets, conn, n);
    Regroup(conn.wire, p[curr..curr + n], Pending(packets, Advanced(conn, p, n).queue));
  }

  lemma Regroup(a: bytes, b: bytes, c: bytes)
    ensures a + (b + c) == a + b + c
  {
  }

  lemma PendingTaken(packets: map<int, bytes>, conn: Conn, n: nat)
    requires QueueOk(packets, conn.queue) && conn.queue != []
    requires var node := conn.queue[0];
      NodeOk(packets, node) && packets[node.pkt] == Stamped(packets[node.pkt], node.req) && node.curr + n <= |packets[node.pkt]|
    ensures var p, curr := packets[conn.queue[0].pkt], conn.queue[0].curr;
      && QueueOk(packets, Advanced(conn, p, n).queue)
      && Pending(packets, conn.queue) == p[curr..curr + n] + Pending(packets, Advanced(conn, p, n).queue)
  {
    var node, rest := conn.queue[0], conn.queue[1..];
    var p, curr := packets[node.pkt], node.curr + n;
    var behind := Pending(packets, rest);
    assert Left(packets, node) == p[node.curr..curr] + p[curr..];
    Regroup(p[node.curr..curr], p[curr..], behind);
    if curr < |p| {
      var next := node.(curr := curr);
      assert NodeOk(packets, next) && ([next] + rest)[1..] == rest;
      assert Left(packets, next) == p[curr..];
    } else {
      assert p[curr..] + behind == behind;
    }
  }

  lemma WriteKeeps(s: State, c: int, n: nat)
    requires Inv(s) && c in s.conns && s.conns[c].queue != []
    requires var node := s.conns[c].queue[0]; NodeOk(s.packets, node) && node.curr + n <= |s.packets[node.pkt]|
    ensures Inv(Written(s, c, n))
  {
    var node := s.conns[c].queue[0];
    var p := Stamped(s.packets[node.pkt], node.req);
    StampBody(s.packets[node.pkt], s.packets[node.pkt], node.req);
    StampIsPacket(s.packets[node.pkt], node.req);
    RestampKeeps(s, node.pkt, p);
    var s1 := s.(packets := s.packets[node.pkt := p]);
    assert ConnOk(s1.packets, s1.conns[c]);
    StampBody(p, s.packets[node.pkt], node.req);
    TakeKeeps(s1.packets, s1.conns[c], n);
  }

  lemma StepKeeps(s: State, s': State, a: Action)
    requires Inv(s) && Step(s, s', a)
    ensures Inv(s')
  {
    match a
    case Create(k, data) => FreeKeeps(s, k, data);
    case SetReq(k, req) =>
      StampBody(s.packets[k], s.packets[k], req);
      StampIsPacket(s.packets[k], req);
      RestampKeeps(s, k, Stamped(s.packets[k], req));
    case Alter(k, data) => FreeKeeps(s, k, data);
    case Send(c, k) => SendKeeps(s.packets, s.conns[c], k);
    case Write(c, n) =>
      assert ConnOk(s.packets, s.conns[c]) && NodeOk(s.packets, s.conns[c].queue[0]);
      WriteKeeps(s, c, n);
  }

  lemma {:induction false} RunKeeps(run: seq<State>, acts: seq<Action>, i: nat)
    requires IsRun(run, acts) && i < |run|
    ensures Inv(run[i])
  {
    if i > 0 {
      RunKeeps(run, acts, i - 1);
      assert Step(run[i - 1], run[i - 1 + 1], acts[i - 1]);
      StepKeeps(run[i - 1], run[i], acts[i - 1]);
    }
  }

  // ---- Isolation --------------------------------------------------------------------------------------

  /** In every state of every interleaving, what has gone out on a connection is a prefix of
      its own packets in the order they were sent, each with the request id it had then; an
      empty queue means all of them. */
  lemma Isolation(run: seq<State>, acts: seq<Action>, i: nat, c: int)
    requires IsRun(run, acts) && i < |run| && c in run[i].conns
    ensures var conn := run[i].conns[c];
      && ArePackets(conn.log) && conn.wire <= Concat(conn.log)
      && (conn.queue == [] ==> conn.wire == Concat(conn.log))
  {
    RunKeeps(run, acts, i);
    assert ConnOk(run[i].packets, run[i].conns[c]);
  }

  /** From end to end: however the receiver's reads cut what has gone out, it makes exactly
      the packets that were sent from it, up to the one that is still on its way. */
  lemma Delivery(run: seq<State>, acts: seq<Action>, i: nat, c: int, parts: seq<bytes>)
    requires IsRun(run, acts) && i < |run| && c in run[i].conns && Concat(parts) <= run[i].conns[c].wire
    ensures var log := run[i].conns[c].log;
      Session([], parts).0 == log[..Whole(log, |Concat(parts)|)]
  {
    var conn, k := run[i].conns[c], |Concat(parts)|;
    Isolation(run, acts, i, c);
    assert Concat(parts) == Concat(conn.log)[..k];
    Reassembly(conn.log, parts, k);
  }

  // ---- The loop ----------------------------------------------------------------------------------------

  /** What a write call returns. */
  datatype Result = Wrote(n: nat) | Again | Interrupted | Failed

  predicate CanWrite(s: State, c: int) {
    c in s.conns && s.conns[c].queue != [] &&
    var node := s.conns[c].queue[0];
      node.pkt in s.packets && HEAD <= |s.packets[node.pkt]| && node.curr < |s.packets[node.pkt]|
  }

  /** How much of the head one call takes. */
  function Takes(s: State, c: int, result: Result): nat
    requires CanWrite(s, c)
  {
    var left := |s.packets[s.conns[c].queue[0].pkt]| - s.conns[c].queue[0].curr;
    if result.Wrote? then (if result.n < left then result.n else left) else 0
  }

  /** Results that end the loop. */
  predicate Ends(r: Result) {
    r.Again? || r.Failed? || r == Wrote(0)
  }

  /** From s to s' one write call on c with this result has been made and booked: the bytes it
      took are out, under the head's own request id, and the head has them less to write. */
  ghost predicate Booked(s: State, s': State, c: int, result: Result) {
    && CanWrite(s, c) && c in s'.conns
    && var conn, conn', node := s.conns[c], s'.conns[c], s.conns[c].queue[0];
      var p := Stamped(s.packets[node.pkt], node.req);
      && s' == State(s.packets[node.pkt := p], s.conns[c := conn']) && conn'.log == conn.log
      && if result.Wrote? && result.n < |p| - node.curr then
           && conn'.wire == conn.wire + p[node.curr..node.curr + result.n]
           && conn'.queue == [node.(curr := node.curr + result.n)] + conn.queue[1..]
         else if result.Wrote? then
           conn'.wire == conn.wire + p[node.curr..] && conn'.queue == conn.queue[1..]
         else
           conn' == conn
  }

  lemma TakeBooks(s: State, c: int, result: Result)
    requires CanWrite(s, c)
    ensures Booked(s, Written(s, c, Takes(s, c, result)), c, result)
  {
    var conn, node := s.conns[c], s.conns[c].queue[0];
    var p := Stamped(s.packets[node.pkt], node.req);
    if !result.Wrote? {
      assert p[node.curr..node.curr] == [] && [node] + conn.queue[1..] == conn.queue;
    }
  }

  /** The states that a series of write calls on c goes through, from s to s'; only the last
      call may end it. */
  ghost predicate Calls(trace: seq<State>, c: int, results: seq<Result>, s: State, s': State)
    decreases |trace|
  {
    var n := |trace| - 1;
    && 0 <= n <= |results| && trace[n] == s'
    && (n == 0 ==> s == s')
    && (n > 0 ==> Booked(trace[n - 1], s', c, results[n - 1]) && Calls(trace[..n], c, results, s, trace[n - 1]))
    && (n > 1 ==> !Ends(results[n - 2]))
  }

  lemma {:induction false} CallsMore(trace: seq<State>, c: int, results: seq<Result>, s: State, s': State, s'': State)
    requires Calls(trace, c, results, s, s') && |trace| <= |results| && Booked(s', s'', c, results[|trace| - 1])
    requires |trace| > 1 ==> !Ends(results[|trace| - 2])
    ensures Calls(trace + [s''], c, results, s, s'')
  {
    assert (trace + [s''])[..|trace|] == trace;
  }

  /** A flush of c from s to s': its write calls, which end exactly with the queue, with the
      results there are, or with a call that says so; it is well unless the last one failed. */
  ghost predicate Flushes(s: State, s': State, c: int, results: seq<Result>, ok: bool, calls: nat, trace: seq<State>) {
    && Calls(trace, c, results, s, s') && |trace| == calls + 1 && c in s'.conns
    && (s'.conns[c].queue == [] || calls == |results| || (calls > 0 && Ends(results[calls - 1])))
    && (ok <==> calls == 0 || !results[calls - 1].Failed?)
  }

  /** So many calls of a flush have led from start to s, and none of them ended it. */
  ghost predicate Underway(s: State, c: int, results: seq<Result>, calls: nat, trace: seq<State>, start: State) {
    && Inv(s) && c in s.conns && Calls(trace, c, results, start, s) && |trace| == calls + 1
    && (calls > 0 ==> !Ends(results[calls - 1]))
  }

  lemma BookedOnce(s: State, s1: State, s2: State, c: int, result: Result)
    requires Booked(s, s1, c, result) && Booked(s, s2, c, result)
    ensures s1 == s2
  {
  }

  lemma {:induction false} SameCalls(c: int, results: seq<Result>, s: State, trace: seq<State>, s1: State, trace': seq<State>, s2: State)
    requires Calls(trace, c, results, s, s1) && Calls(trace', c, results, s, s2) && |trace| == |trace'|
    ensures s1 == s2
    decreases |trace|
  {
    var n := |trace| - 1;
    if n > 0 {
      SameCalls(c, results, s, trace[..n], trace[n - 1], trace'[..n], trace'[n - 1]);
      BookedOnce(trace[n - 1], s1, s2, c, results[n - 1]);
    }
  }

  /** The series cut off behind so many calls. */
  lemma {:induction false} CutCalls(c: int, results: seq<Result>, s: State, s': State, trace: seq<State>, n: nat) returns (m: State)
    requires Calls(trace, c, results, s, s') && n < |trace| - 1
    ensures Calls(trace[..n + 1], c, results, s, m) && CanWrite(m, c) && (n > 0 ==> !Ends(results[n - 1]))
    decreases |trace|
  {
    var k := |trace| - 1;
    if n == k - 1 {
      m := trace[n];
    } else {
      m := CutCalls(c, results, s, trace[k - 1], trace[..k], n);
      assert trace[..k][..n + 1] == trace[..n + 1];
    }
  }

  lemma NotMore(s: State, c: int, results: seq<Result>, s1: State, ok: bool, calls: nat, trace: seq<State>, s2: State, trace': seq<State>)
    requires Flushes(s, s1, c, results, ok, calls, trace) && Calls(trace', c, results, s, s2)
    ensures |trace'| <= |trace|
  {
    if |trace'| > |trace| {
      var m := CutCalls(c, results, s, s2, trace', calls);
      SameCalls(c, results, s, trace, s1, trace'[..calls + 1], m);
      assert false;
    }
  }

  /** The results of the write calls decide all a flush does and answers. */
  lemma FlushesOnce(s: State, c: int, results: seq<Result>, s1: State, ok: bool, calls: nat, trace: seq<State>,
                    s2: State, ok': bool, calls': nat, trace': seq<State>)
    requires Flushes(s, s1, c, results, ok, calls, trace) && Flushes(s, s2, c, results, ok', calls', trace')
    ensures s1 == s2 && ok == ok' && calls == calls'
  {
    NotMore(s, c, results, s1, ok, calls, trace, s2, trace');
    NotMore(s, c, results, s2, ok', calls', trace', s1, trace);
    SameCalls(c, results, s, trace, s1, trace', s2);
  }

  /** The server's connections and the packets they share. */
  class Net {
    var packets: map<int, bytes>
    var conns: map<int, Conn>

    ghost function Value(): State
      reads this
    {
      State(packets, conns)
    }

    constructor (cs: set<int>)
      ensures Inv(Value()) && packets == map[] && conns == map c | c in cs :: Conn([], [], [])
    {
      packets := map[];
      conns := map c | c in cs :: Conn([], [], []);
    }

    /** One turn of the loop: a write call, and whether it goes on and is well. */
    method FlushOnce(c: int, results: seq<Result>, calls: nat, ghost trace: seq<State>, ghost start: State)
      returns (more: bool, ok: bool, ghost longer: seq<State>, ghost now: State)
      requires calls < |results| && Underway(Value(), c, results, calls, trace, start) && conns[c].queue != []
      modifies this
      ensures now == Value() && (more ==> ok && Underway(now, c, results, calls + 1, longer, start))
      ensures !more ==> Inv(now) && Flushes(start, now, c, results, ok, calls + 1, longer)
    {
      ghost var s := Value();
      var result := results[calls];
      WriteHead(c, result);
      now := Value();
      CallsMore(trace, c, results, start, s, now);
      longer := trace + [now];
      match result {
        case Again => more, ok := false, true;
        case Failed => more, ok := false, false;
        case Interrupted => more, ok := true, true;
        case Wrote(n) => more, ok := n != 0, true;
      }
    }

    /** What one write call returns decides how the loop goes on. It ends with the queue, with
        a call that says so, or with the results there are. */
    method Flush(c: int, results: seq<Result>) returns (ok: bool, calls: nat, ghost trace: seq<State>)
      requires Inv(Value()) && c in conns
      modifies this
      ensures Inv(Value())
      ensures Flushes(old(Value()), Value(), c, results, ok, calls, trace)
    {
      ghost var start := Value();
      ghost var now := start;
      ok, calls := true, 0;
      trace := [start];
      while calls < |results| && conns[c].queue != []
        invariant calls <= |results| && ok && now == Value() && Underway(now, c, results, calls, trace, start)
      {
        var more;
        more, ok, trace, now := FlushOnce(c, results, calls, trace, start);
        calls := calls + 1;
        if !more {
          return;
        }
      }
    }

    /** The head under its own request id, and what one write call takes of it. */
    method WriteHead(c: int, result: Result)
      requires Inv(Value()) && c in conns && conns[c].queue != []
      modifies this
      ensures old(CanWrite(Value(), c)) && Value() == old(Written(Value(), c, Takes(Value(), c, result)))
      ensures Inv(Value()) && Booked(old(Value()), Value(), c, result)
      ensures c in conns && conns == old(conns)[c := conns[c]] && conns[c].log == old(conns)[c].log
      ensures !result.Wrote? ==> conns[c] == old(conns)[c]
      ensures var node, left := old(conns)[c].queue[0], |old(packets)[old(conns)[c].queue[0].pkt]| - old(conns)[c].queue[0].curr;
        && (result.Wrote? ==> |conns[c].wire| == |old(conns)[c].wire| + if result.n < left then result.n else left)
        && (result.Wrote? && result.n < left ==>
              conns[c].queue == [node.(curr := node.curr + result.n)] + old(conns)[c].queue[1..])
        && (result.Wrote? && result.n >= left ==> conns[c].queue == old(conns)[c].queue[1..])
    {
      ghost var s := Value();
      assert ConnOk(packets, conns[c]) && NodeOk(packets, conns[c].queue[0]);
      WriteKeeps(s, c, Takes(s, c, result));
      TakeBooks(s, c, result);
      var conn := conns[c];
      var node := conn.queue[0];
      packets := packets[node.pkt := Stamped(packets[node.pkt], node.req)];
      var p := packets[node.pkt];
      var n := if result.Wrote? then (if result.n < |p| - node.curr then result.n else |p| - node.curr) else 0;
      var curr := node.curr + n;
      var queue := conn.queue;
      if curr >= |p| {
        queue := queue[1..];
      } else {
        queue := [node.(curr := curr)] + queue[1..];
      }
      conns := conns[c := Conn(queue, conn.wire + p[node.curr..curr], conn.log)];
    }

    /** s_net_send: queue the packet under the request id it has now, then write. */
    method Enqueue(c: int, k: int, results: seq<Result>) returns (ok: bool, calls: nat, ghost trace: seq<State>)
      requires Inv(Value()) && c in conns && k in packets
      modifies this
      ensures Inv(Value())
      ensures var conn := old(conns)[c];
        var s := State(old(packets), old(conns)[c := conn.(queue := conn.queue + [Node(k, 0, ReqOf(old(packets)[k]))],
                                                           log := conn.log + [old(packets)[k]])]);
        Flushes(s, Value(), c, results, ok, calls, trace)
    {
      SendKeeps(packets, conns[c], k);
      ghost var s := Value();
      conns := conns[c := conns[c].(queue := conns[c].queue + [Node(k, 0, ReqOf(packets[k]))],
                                    log := conns[c].log + [packets[k]])];
      StepKeeps(s, Value(), Send(c, k));
      ok, calls, trace := Flush(c, results);
    }

    /** s_packet_set_req by a caller, in between. */
    method Restamp(k: int, req: uint)
      requires Inv(Value()) && k in packets
      modifies this
      ensures Inv(Value()) && conns == old(conns) && packets == old(packets)[k := Stamped(old(packets)[k], req)]
      ensures SameBody(old(packets)[k], packets[k]) && packets[k][8..12] == Encode(req, 4)
    {
      StepKeeps(Value(), Value().(packets := packets[k := Stamped(packets[k], req)]), SetReq(k, req));
      packets := packets[k := Stamped(packets[k], req)];
    }
  }
}
