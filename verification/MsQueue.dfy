/** The Michael-Scott queue as an interleaving of single shared reads, writes and
    compare-and-swaps of any number of threads. */
module MsQueue {
  import opened FifoSpec
  import opened Seqs

  const NULL := -1
  const TAGS := 0x1_0000_0000

  /** struct ms_pointer: a node index (or NULL) and a 32-bit tag. */
  datatype Ptr = Ptr(node: int, tag: nat)
  datatype Node = Node(next: Ptr, val: int)

  /** Where a thread stands in ms_queue_push (P) or ms_queue_pop (D), with its snapshots. */
  datatype Local =
    | Rest
    | P1(n: int)                                 // read q->tail
    | P2(n: int, tail: Ptr)                      // read tail.ptr->next
    | P3(n: int, tail: Ptr, next: Ptr)           // compare with q->tail
    | P4(n: int, tail: Ptr, next: Ptr)           // CAS tail.ptr->next
    | P5(n: int, tail: Ptr, next: Ptr)           // CAS q->tail past a lagging tail
    | P6(n: int, tail: Ptr)                      // linked: CAS q->tail
    | P7                                         // return
    | D1                                         // read q->head
    | D2(head: Ptr)                              // read q->tail
    | D3(head: Ptr, tail: Ptr)                   // read head.ptr->next
    | D4(head: Ptr, tail: Ptr, next: Ptr)        // compare with q->head
    | D5(tail: Ptr, next: Ptr)                   // CAS q->tail past a lagging tail
    | D6(head: Ptr, next: Ptr)                   // read next.ptr->ival
    | D7(head: Ptr, next: Ptr, ret: int)         // CAS q->head
    | D8(ret: int)                               // return ret
    | D9                                         // return EMPTY

  /** chain, hpos and tpos only record history: every node ever linked, in order, and how
      far along it head and tail have moved. */
  datatype State = State(
    nodes: seq<Node>, head: Ptr, tail: Ptr, threads: map<int, Local>,
    chain: seq<int>, hpos: nat, tpos: nat)

  function Bump(tag: nat): nat {
    (tag + 1) % TAGS
  }

  ghost predicate Init(s: State) {
    && s.nodes == [Node(Ptr(NULL, 0), 0)]
    && s.head == Ptr(0, 0) && s.tail == Ptr(0, 0)
    && s.chain == [0] && s.hpos == 0 && s.tpos == 0
    && forall t :: t in s.threads ==> s.threads[t] == Rest
  }

  // ---- Steps --------------------------------------------------------------------

  predicate Points(s: State, p: Ptr) {
    0 <= p.node < |s.nodes|
  }

  function Go(s: State, t: int, l: Local): State {
    s.(threads := s.threads[t := l])
  }

  function NextOf(s: State, p: Ptr): Ptr
    requires Points(s, p)
  {
    s.nodes[p.node].next
  }

  function Link(s: State, p: Ptr, n: int): State
    requires Points(s, p)
  {
    s.(nodes := s.nodes[p.node := s.nodes[p.node].(next := Ptr(n, Bump(NextOf(s, p).tag)))],
       chain := s.chain + [n])
  }

  /** CAS(&q->tail, tail, (node, tail.tag + 1)), whatever its outcome. */
  function SwingTail(s: State, tail: Ptr, node: int): State {
    if s.tail == tail then s.(tail := Ptr(node, Bump(tail.tag)), tpos := s.tpos + 1) else s
  }

  /** One shared access of thread t; it must not go through a bad pointer. */
  ghost predicate Step(s: State, s': State, t: int, e: Event) {
    t in s.threads && match s.threads[t]
    case Rest =>
      || (e == CallPop(t) && s' == Go(s, t, D1))
      || (e.CallPush? && e.t == t &&
          s' == Go(s, t, P1(|s.nodes|)).(nodes := s.nodes + [Node(Ptr(NULL, 0), e.v)]))
    case P1(n) => e == Tau && s' == Go(s, t, P2(n, s.tail))
    case P2(n, tail) => e == Tau && Points(s, tail) && s' == Go(s, t, P3(n, tail, NextOf(s, tail)))
    case P3(n, tail, next) =>
      e == Tau && s' == Go(s, t,
        if tail != s.tail then P1(n) else if next.node == NULL then P4(n, tail, next) else P5(n, tail, next))
    case P4(n, tail, next) =>
      e == Tau && Points(s, tail) &&
      s' == if NextOf(s, tail) == next then Go(Link(s, tail, n), t, P6(n, tail)) else Go(s, t, P1(n))
    case P5(n, tail, next) => e == Tau && s' == Go(SwingTail(s, tail, next.node), t, P1(n))
    case P6(n, tail) => e == Tau && s' == Go(SwingTail(s, tail, n), t, P7)
    case P7 => e == RetPush(t) && s' == Go(s, t, Rest)
    case D1 => e == Tau && s' == Go(s, t, D2(s.head))
    case D2(head) => e == Tau && s' == Go(s, t, D3(head, s.tail))
    case D3(head, tail) => e == Tau && Points(s, head) && s' == Go(s, t, D4(head, tail, NextOf(s, head)))
    case D4(head, tail, next) =>
      e == Tau && s' == Go(s, t,
        if head != s.head then D1
        else if head.node == tail.node then (if next.node == NULL then D9 else D5(tail, next))
        else D6(head, next))
    case D5(tail, next) => e == Tau && s' == Go(SwingTail(s, tail, next.node), t, D1)
    case D6(head, next) => e == Tau && Points(s, next) && s' == Go(s, t, D7(head, next, s.nodes[next.node].val))
    case D7(head, next, ret) =>
      e == Tau && s' ==
        if s.head == head
        then Go(s.(head := Ptr(next.node, Bump(head.tag)), hpos := s.hpos + 1), t, D8(ret))
        else Go(s, t, D1)
    case D8(ret) => e == RetPop(t, ret) && s' == Go(s, t, Rest)
    case D9 => e == RetPop(t, EMPTY) && s' == Go(s, t, Rest)
  }

  ghost predicate IsRun(run: seq<State>, steps: seq<(int, Event)>) {
    && |run| == |steps| + 1
    && Init(run[0])
    && forall i :: 0 <= i < |steps| ==> Step(run[i], run[i + 1], steps[i].0, steps[i].1)
  }

  // ---- Structure ------------------------------------------------------------------

  /** The list: linked nodes in chain order, the last one open; head, tail, last in order. */
  ghost predicate ListOk(s: State) {
    && s.chain != []
    && (forall i :: 0 <= i < |s.chain| ==> 0 <= s.chain[i] < |s.nodes|)
    && NoDup(s.chain)
    && (forall i :: 0 <= i < |s.chain| - 1 ==> s.nodes[s.chain[i]].next.node == s.chain[i + 1])
    && s.nodes[s.chain[|s.chain| - 1]].next == Ptr(NULL, 0)
    && s.hpos <= s.tpos < |s.chain| && |s.chain| <= s.tpos + 2
    && s.head.node == s.chain[s.hpos] && s.tail.node == s.chain[s.tpos]
  }

  /** The node a thread is still trying to link. */
  function Mine(l: Local): int {
    if l.P1? || l.P2? || l.P3? || l.P4? || l.P5? then l.n else NULL
  }

  ghost predicate OwnOk(s: State) {
    && (forall t :: t in s.threads && Mine(s.threads[t]) != NULL ==>
          var n := Mine(s.threads[t]);
          0 <= n < |s.nodes| && n !in s.chain && s.nodes[n].next == Ptr(NULL, 0))
    && (forall t, u :: t in s.threads && u in s.threads && t != u && Mine(s.threads[t]) != NULL ==>
          Mine(s.threads[t]) != Mine(s.threads[u]))
  }

  /** p was q->tail (or q->head) when the pointer stood at chain position i. */
  ghost predicate WasTail(s: State, p: Ptr, i: int) {
    0 <= i <= s.tpos < |s.chain| && p.node == s.chain[i] && (i == s.tpos ==> p == s.tail)
  }

  ghost predicate WasHead(s: State, p: Ptr, i: int) {
    0 <= i <= s.hpos < |s.chain| && p.node == s.chain[i] && (i == s.hpos ==> p == s.head)
  }

  /** p was the next field of the node at chain position i. */
  ghost predicate WasNext(s: State, p: Ptr, i: int) {
    && 0 <= i < |s.chain|
    && (p == Ptr(NULL, 0) || (i + 1 < |s.chain| && p.node == s.chain[i + 1]))
  }

  ghost predicate LocalOk(s: State, l: Local) {
    match l
    case P1(n) => n >= 0
    case P2(n, tail) => n >= 0 && exists i :: WasTail(s, tail, i)
    case P3(n, tail, next) => n >= 0 && exists i :: WasTail(s, tail, i) && WasNext(s, next, i)
    case P4(n, tail, next) => n >= 0 && next.node == NULL && exists i :: WasTail(s, tail, i) && WasNext(s, next, i)
    case P5(n, tail, next) => n >= 0 && next.node != NULL && exists i :: WasTail(s, tail, i) && WasNext(s, next, i)
    case P6(n, tail) => exists i :: WasTail(s, tail, i) && i + 1 < |s.chain| && s.chain[i + 1] == n
    case D2(head) => exists i :: WasHead(s, head, i)
    case D3(head, tail) => exists i, j :: WasHead(s, head, i) && WasTail(s, tail, j) && i <= j
    case D4(head, tail, next) =>
      exists i, j :: WasHead(s, head, i) && WasTail(s, tail, j) && i <= j && WasNext(s, next, i) &&
        (i < j ==> next.node != NULL)
    case D5(tail, next) => next.node != NULL && exists i :: WasTail(s, tail, i) && WasNext(s, next, i)
    case D6(head, next) => next.node != NULL && exists i :: WasHead(s, head, i) && WasNext(s, next, i) && i < s.tpos
    case D7(head, next, ret) =>
      next.node != NULL &&
      exists i :: WasHead(s, head, i) && WasNext(s, next, i) && i < s.tpos && Points(s, next) && ret == s.nodes[next.node].val
    case _ => true
  }

  ghost predicate LocalsOk(s: State) {
    forall t :: t in s.threads ==> LocalOk(s, s.threads[t])
  }

  ghost predicate Inv(s: State) {
    ListOk(s) && OwnOk(s) && LocalsOk(s)
  }

  /** Shared memory only moves forward. */
  ghost predicate Mono(s: State, s': State) {
    && s.chain <= s'.chain && |s.nodes| <= |s'.nodes|
    && (forall n :: 0 <= n < |s.nodes| ==> s'.nodes[n].val == s.nodes[n].val)
    && s.hpos <= s'.hpos && s.tpos <= s'.tpos < |s'.chain|
    && (s.hpos == s'.hpos ==> s.head == s'.head)
    && (s.tpos == s'.tpos ==> s.tail == s'.tail)
  }

  lemma WasMono(s: State, s': State, p: Ptr, i: int)
    requires Mono(s, s')
    ensures WasTail(s, p, i) ==> WasTail(s', p, i)
    ensures WasHead(s, p, i) && s'.hpos < |s'.chain| ==> WasHead(s', p, i)
    ensures WasNext(s, p, i) ==> WasNext(s', p, i)
  {
  }

  lemma LocalMono(s: State, s': State, l: Local)
    requires Mono(s, s') && s'.hpos <= s'.tpos && LocalOk(s, l)
    ensures LocalOk(s', l)
  {
    forall p, i {
      WasMono(s, s', p, i);
    }
  }

  lemma LocalsKeep(s: State, s': State, t: int, l: Local)
    requires LocalsOk(s) && Mono(s, s') && s'.hpos <= s'.tpos
    requires s'.threads == s.threads[t := l] && LocalOk(s', l)
    ensures LocalsOk(s')
  {
    forall u | u in s'.threads ensures LocalOk(s', s'.threads[u]) {
      if u != t {
        assert LocalOk(s, s.threads[u]);
        LocalMono(s, s', s.threads[u]);
      }
    }
  }

  lemma AllocKeeps(s: State, s': State, t: int, v: int)
    requires Inv(s) && t in s.threads
    requires s' == Go(s, t, P1(|s.nodes|)).(nodes := s.nodes + [Node(Ptr(NULL, 0), v)])
    ensures Inv(s') && Mono(s, s')
  {
    assert forall n :: 0 <= n < |s.nodes| ==> s'.nodes[n] == s.nodes[n];
    LocalsKeep(s, s', t, P1(|s.nodes|));
  }

  /** A step that only moves its own thread. */
  lemma LocalStepKeeps(s: State, s': State, t: int, l: Local)
    requires Inv(s) && t in s.threads && s' == Go(s, t, l)
    requires LocalOk(s, l) && (Mine(l) == NULL || Mine(l) == Mine(s.threads[t]))
    ensures Inv(s') && Mono(s, s')
  {
    LocalMono(s, s', l);
    LocalsKeep(s, s', t, l);
    OwnFrame(s, s', t, l);
  }

  lemma SwingKeepsList(s: State, tail: Ptr, node: int, i: int)
    requires ListOk(s) && WasTail(s, tail, i) && i + 1 < |s.chain| && node == s.chain[i + 1]
    ensures ListOk(SwingTail(s, tail, node)) && Mono(s, SwingTail(s, tail, node))
  {
  }

  lemma OwnFrame(s: State, s': State, t: int, l: Local)
    requires OwnOk(s) && t in s.threads && s'.threads == s.threads[t := l]
    requires Mine(l) == NULL || Mine(l) == Mine(s.threads[t])
    requires s'.nodes == s.nodes && s'.chain == s.chain
    ensures OwnOk(s')
  {
  }

  lemma SwingKeeps(s: State, s': State, t: int, tail: Ptr, node: int, i: int, l: Local)
    requires Inv(s) && t in s.threads && s' == Go(SwingTail(s, tail, node), t, l)
    requires WasTail(s, tail, i) && i + 1 < |s.chain| && node == s.chain[i + 1]
    requires (l.P1? && l.n >= 0 && l.n == Mine(s.threads[t])) || l == P7 || l == D1
    ensures Inv(s') && Mono(s, s')
  {
    SwingKeepsList(s, tail, node, i);
    OwnFrame(s, s', t, l);
    LocalsKeep(s, s', t, l);
  }

  lemma Linked(s: State, i: nat)
    requires ListOk(s) && i + 1 < |s.chain|
    ensures s.nodes[s.chain[i]].next.node == s.chain[i + 1] != NULL
  {
  }

  lemma LinkKeepsList(s: State, tail: Ptr, n: int, i: int)
    requires ListOk(s) && WasTail(s, tail, i) && Points(s, tail) && NextOf(s, tail).node == NULL
    requires 0 <= n < |s.nodes| && n !in s.chain && s.nodes[n].next == Ptr(NULL, 0)
    ensures i == |s.chain| - 1 == s.tpos
    ensures ListOk(Link(s, tail, n)) && Mono(s, Link(s, tail, n))
  {
    if i + 1 < |s.chain| {
      Linked(s, i);
    }
    var s' := Link(s, tail, n);
    forall x | 0 <= x < |s'.chain| - 1 ensures s'.nodes[s'.chain[x]].next.node == s'.chain[x + 1] {
      assert x < |s.chain| - 1 ==> s.chain[x] != s.chain[i];
    }
  }

  lemma LinkKeepsOwn(s: State, s': State, t: int, tail: Ptr, n: int, i: int)
    requires OwnOk(s) && t in s.threads && Mine(s.threads[t]) == n != NULL
    requires 0 <= i < |s.chain| && tail.node == s.chain[i] && Points(s, tail)
    requires s' == Go(Link(s, tail, n), t, P6(n, tail))
    ensures OwnOk(s')
  {
  }

  lemma LinkKeeps(s: State, s': State, t: int, tail: Ptr, n: int, i: int)
    requires Inv(s) && t in s.threads && Mine(s.threads[t]) == n != NULL
    requires WasTail(s, tail, i) && Points(s, tail) && NextOf(s, tail).node == NULL
    requires s' == Go(Link(s, tail, n), t, P6(n, tail))
    ensures Inv(s') && Mono(s, s') && i == |s.chain| - 1
  {
    LinkKeepsList(s, tail, n, i);
    LinkKeepsOwn(s, s', t, tail, n, i);
    assert WasTail(s', tail, i) && s'.chain[i + 1] == n;
    LocalsKeep(s, s', t, P6(n, tail));
  }

  lemma HeadKeeps(s: State, s': State, t: int, i: int)
    requires Inv(s) && t in s.threads && s.threads[t].D7? && s.head == s.threads[t].head
    requires var l := s.threads[t];
      && WasHead(s, l.head, i) && WasNext(s, l.next, i) && l.next.node != NULL && i < s.tpos
      && s' == Go(s.(head := Ptr(l.next.node, Bump(l.head.tag)), hpos := s.hpos + 1), t, D8(l.ret))
    ensures Inv(s') && Mono(s, s') && i == s.hpos
  {
    assert i == s.hpos;
    LocalsKeep(s, s', t, D8(s.threads[t].ret));
  }

  // Every step

  lemma PushStepKeeps(s: State, s': State, t: int, e: Event)
    requires Inv(s) && Step(s, s', t, e)
    requires var l := s.threads[t]; l.P1? || l.P2? || l.P3? || l.P4? || l.P5? || l.P6? || l.P7?
    ensures Inv(s') && Mono(s, s')
  {
    assert LocalOk(s, s.threads[t]);
    match s.threads[t] {
      case P1(n) =>
        assert WasTail(s, s.tail, s.tpos);
        LocalStepKeeps(s, s', t, P2(n, s.tail));
      case P2(n, tail) =>
        var i :| WasTail(s, tail, i);
        assert WasNext(s, NextOf(s, tail), i) by { if i + 1 < |s.chain| { Linked(s, i); } }
        LocalStepKeeps(s, s', t, s'.threads[t]);
      case P3(n, tail, next) =>
        LocalStepKeeps(s, s', t, s'.threads[t]);
      case P4(n, tail, next) =>
        var i :| WasTail(s, tail, i) && WasNext(s, next, i);
        if NextOf(s, tail) == next {
          LinkKeeps(s, s', t, tail, n, i);
        } else {
          LocalStepKeeps(s, s', t, P1(n));
        }
      case P5(n, tail, next) =>
        var i :| WasTail(s, tail, i) && WasNext(s, next, i);
        SwingKeeps(s, s', t, tail, next.node, i, P1(n));
      case P6(n, tail) =>
        var i :| WasTail(s, tail, i) && i + 1 < |s.chain| && s.chain[i + 1] == n;
        SwingKeeps(s, s', t, tail, n, i, P7);
      case P7 =>
        LocalStepKeeps(s, s', t, Rest);
    }
  }

  /** What a pop reads after its snapshots of head and tail: a real next unless the list ends there. */
  lemma ReadHeadNext(s: State, head: Ptr, tail: Ptr, i: int, j: int)
    requires ListOk(s) && WasHead(s, head, i) && WasTail(s, tail, j) && i <= j
    ensures Points(s, head) && WasNext(s, NextOf(s, head), i)
    ensures i < j ==> NextOf(s, head).node != NULL
    ensures NextOf(s, head).node == NULL ==> s.hpos == |s.chain| - 1
  {
  }

  /** Comparing with q->head: with equal snapshots the queue's tail lags or it is empty,
      with different ones the node after head is in front of tail. */
  lemma CompareHead(s: State, head: Ptr, tail: Ptr, next: Ptr)
    requires ListOk(s) && LocalOk(s, D4(head, tail, next))
    ensures head.node == tail.node && next.node != NULL ==> LocalOk(s, D5(tail, next))
    ensures head.node != tail.node ==> LocalOk(s, D6(head, next))
  {
  }

  lemma PopReadsKeep(s: State, s': State, t: int, e: Event)
    requires Inv(s) && Step(s, s', t, e)
    requires var l := s.threads[t]; l.D1? || l.D2? || l.D3? || l.D4?
    ensures Inv(s') && Mono(s, s')
  {
    assert LocalOk(s, s.threads[t]);
    match s.threads[t] {
      case D1 =>
        assert WasHead(s, s.head, s.hpos);
        LocalStepKeeps(s, s', t, D2(s.head));
      case D2(head) =>
        var i :| WasHead(s, head, i);
        assert WasTail(s, s.tail, s.tpos) && i <= s.tpos;
        LocalStepKeeps(s, s', t, D3(head, s.tail));
      case D3(head, tail) =>
        var i, j :| WasHead(s, head, i) && WasTail(s, tail, j) && i <= j;
        ReadHeadNext(s, head, tail, i, j);
        LocalStepKeeps(s, s', t, D4(head, tail, NextOf(s, head)));
      case D4(head, tail, next) =>
        CompareHead(s, head, tail, next);
        LocalStepKeeps(s, s', t, s'.threads[t]);
    }
  }

  lemma PopStepKeeps(s: State, s': State, t: int, e: Event)
    requires Inv(s) && Step(s, s', t, e)
    requires var l := s.threads[t];
      l.D1? || l.D2? || l.D3? || l.D4? || l.D5? || l.D6? || l.D7? || l.D8? || l.D9?
    ensures Inv(s') && Mono(s, s')
  {
    assert LocalOk(s, s.threads[t]);
    match s.threads[t] {
      case D5(tail, next) =>
        var i :| WasTail(s, tail, i) && WasNext(s, next, i);
        SwingKeeps(s, s', t, tail, next.node, i, D1);
      case D6(head, next) =>
        LocalStepKeeps(s, s', t, s'.threads[t]);
      case D7(head, next, ret) =>
        var i :| WasHead(s, head, i) && WasNext(s, next, i) && i < s.tpos && Points(s, next) && ret == s.nodes[next.node].val;
        if s.head == head {
          HeadKeeps(s, s', t, i);
        } else {
          LocalStepKeeps(s, s', t, D1);
        }
      case D8(ret) =>
        LocalStepKeeps(s, s', t, Rest);
      case D9 =>
        LocalStepKeeps(s, s', t, Rest);
      case _ =>
        PopReadsKeep(s, s', t, e);
    }
  }

  lemma StepKeeps(s: State, s': State, t: int, e: Event)
    requires Inv(s) && Step(s, s', t, e)
    ensures Inv(s') && Mono(s, s')
  {
    if s.threads[t] == Rest {
      if e.CallPush? {
        AllocKeeps(s, s', t, e.v);
      } else {
        LocalStepKeeps(s, s', t, D1);
      }
    } else {
      var l := s.threads[t];
      if l.P1? || l.P2? || l.P3? || l.P4? || l.P5? || l.P6? || l.P7? {
        PushStepKeeps(s, s', t, e);
      } else {
        PopStepKeeps(s, s', t, e);
      }
    }
  }

  /** In every reachable state head, tail and the last node lie in this order on one
      acyclic list, tail at most one node behind the last. */
  lemma {:induction false} Structure(run: seq<State>, steps: seq<(int, Event)>, i: nat)
    requires IsRun(run, steps) && i < |run|
    ensures Inv(run[i])
  {
    if i > 0 {
      Structure(run, steps, i - 1);
      StepKeeps(run[i - 1], run[i], steps[i - 1].0, steps[i - 1].1);
    }
  }

  /** No thread ever reads through NULL or a bad pointer: its next access is always possible. */
  lemma NeverStuck(run: seq<State>, steps: seq<(int, Event)>, i: nat, t: int)
    requires IsRun(run, steps) && i < |run| && t in run[i].threads && run[i].threads[t] != Rest
    ensures exists s', e :: Step(run[i], s', t, e)
  {
    Structure(run, steps, i);
    var s := run[i];
    assert LocalOk(s, s.threads[t]);
    var s', e := Perform(s, t);
  }

  /** The step a running thread makes next. */
  lemma Perform(s: State, t: int) returns (s': State, e: Event)
    requires Inv(s) && t in s.threads && s.threads[t] != Rest
    ensures Step(s, s', t, e)
  {
    assert LocalOk(s, s.threads[t]);
    e := Tau;
    match s.threads[t] {
      case P1(n) => s' := Go(s, t, P2(n, s.tail));
      case P2(n, tail) => s' := Go(s, t, P3(n, tail, NextOf(s, tail)));
      case P3(n, tail, next) =>
        s' := Go(s, t, if tail != s.tail then P1(n) else if next.node == NULL then P4(n, tail, next) else P5(n, tail, next));
      case P4(n, tail, next) =>
        s' := if NextOf(s, tail) == next then Go(Link(s, tail, n), t, P6(n, tail)) else Go(s, t, P1(n));
      case P5(n, tail, next) => s' := Go(SwingTail(s, tail, next.node), t, P1(n));
      case P6(n, tail) => s' := Go(SwingTail(s, tail, n), t, P7);
      case P7 => s', e := Go(s, t, Rest), RetPush(t);
      case D1 => s' := Go(s, t, D2(s.head));
      case D2(head) => s' := Go(s, t, D3(head, s.tail));
      case D3(head, tail) => s' := Go(s, t, D4(head, tail, NextOf(s, head)));
      case D4(head, tail, next) =>
        s' := Go(s, t, if head != s.head then D1
          else if head.node == tail.node then (if next.node == NULL then D9 else D5(tail, next)) else D6(head, next));
      case D5(tail, next) => s' := Go(SwingTail(s, tail, next.node), t, D1);
      case D6(head, next) => s' := Go(s, t, D7(head, next, s.nodes[next.node].val));
      case D7(head, next, ret) =>
        s' := if s.head == head then Go(s.(head := Ptr(next.node, Bump(head.tag)), hpos := s.hpos + 1), t, D8(ret)) else Go(s, t, D1);
      case D8(ret) => s', e := Go(s, t, Rest), RetPop(t, ret);
      case D9 => s', e := Go(s, t, Rest), RetPop(t, EMPTY);
    }
  }
}
