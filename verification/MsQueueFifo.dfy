/** Linearizability of the Michael-Scott queue: every interleaving shows, from outside, a
    behaviour of the atomic queue. */
module MsQueueFifo {
  import opened FifoSpec
  import opened MsQueue

  ghost predicate Readable(s: State) {
    s.hpos < |s.chain| && forall i :: 0 <= i < |s.chain| ==> 0 <= s.chain[i] < |s.nodes|
  }

  /** The queue's contents: the values of the nodes behind the head. */
  ghost function Contents(s: State): seq<int>
    requires Readable(s)
  {
    seq(|s.chain| - s.hpos - 1, i requires 0 <= i < |s.chain| - s.hpos - 1 => s.nodes[s.chain[s.hpos + 1 + i]].val)
  }

  /** How far the atomic operation is when its thread stands at l. */
  ghost predicate OpOk(s: State, l: Local, op: Op) {
    match l
    case Rest => op == Idle
    case P6(_, _) => op == Pushed
    case P7 => op == Pushed
    case D4(head, tail, next) => op.Popping? && (next.node == NULL ==> op.sawEmpty)
    case D9 => op == Popping(true)
    case D8(ret) => op == Popped(ret)
    case _ => if Mine(l) != NULL then 0 <= Mine(l) < |s.nodes| && op == Pushing(s.nodes[Mine(l)].val) else op.Popping?
  }

  ghost predicate Sim(s: State, a: Fifo) {
    && ListOk(s) && a.q == Contents(s)
    && a.ops.Keys == s.threads.Keys
    && forall t :: t in s.threads ==> OpOk(s, s.threads[t], a.ops[t])
  }

  lemma SameContents(s: State, s': State)
    requires Readable(s) && Readable(s') && s'.chain == s.chain && s'.hpos == s.hpos
    requires forall n :: 0 <= n < |s.nodes| ==> n < |s'.nodes| && s'.nodes[n].val == s.nodes[n].val
    ensures Contents(s') == Contents(s)
  {
  }

  lemma OthersOk(s: State, s': State, a: Fifo, t: int, l: Local, op: Op)
    requires Sim(s, a) && Mono(s, s') && s'.threads == s.threads[t := l] && t in s.threads
    requires OpOk(s', l, op)
    ensures forall u :: u in s'.threads ==> OpOk(s', s'.threads[u], Set(a, t, op).ops[u])
  {
  }

  /** Steps that leave the contents alone: the operation moves from one status to another. */
  lemma QuietSim(s: State, s': State, t: int, l: Local, a: Fifo, op: Op)
    requires Sim(s, a) && ListOk(s') && Mono(s, s') && t in s.threads && s'.threads == s.threads[t := l]
    requires s'.chain == s.chain && s'.hpos == s.hpos && OpOk(s', l, op)
    ensures Sim(s', Set(a, t, op))
  {
    SameContents(s, s');
    OthersOk(s, s', a, t, l, op);
  }

  lemma LinkContents(s: State, s': State, tail: Ptr, n: int)
    requires Readable(s) && Points(s, tail) && 0 <= n < |s.nodes|
    requires s'.nodes == Link(s, tail, n).nodes && s'.chain == s.chain + [n] && s'.hpos == s.hpos
    ensures Contents(s') == Contents(s) + [s.nodes[n].val]
  {
  }

  lemma LinkSim(s: State, s': State, t: int, a: Fifo)
    requires Inv(s) && Step(s, s', t, Tau) && Sim(s, a)
    requires s.threads[t].P4? && NextOf(s, s.threads[t].tail) == s.threads[t].next
    ensures var v := s.nodes[s.threads[t].n].val;
      Sim(s', Set(a, t, Pushed).(q := a.q + [v])) && a.ops[t] == Pushing(v)
  {
    StepKeeps(s, s', t, Tau);
    var n := s.threads[t].n;
    assert OpOk(s, s.threads[t], a.ops[t]) && LocalOk(s, s.threads[t]);
    LinkContents(s, s', s.threads[t].tail, n);
    OthersOk(s, s', a, t, s'.threads[t], Pushed);
  }

  /** The head CAS succeeds only if the head has not moved since it was read. */
  lemma HeadUnmoved(s: State, l: Local)
    requires ListOk(s) && l.D7? && LocalOk(s, l) && s.head == l.head
    ensures s.hpos < s.tpos && l.next.node == s.chain[s.hpos + 1] && l.ret == s.nodes[s.chain[s.hpos + 1]].val
  {
  }

  lemma HeadContents(s: State, s': State)
    requires Readable(s) && s'.nodes == s.nodes && s'.chain == s.chain && s'.hpos == s.hpos + 1 < |s.chain|
    ensures Contents(s) != [] && Contents(s)[0] == s.nodes[s.chain[s.hpos + 1]].val && Contents(s') == Contents(s)[1..]
  {
  }

  lemma HeadSim(s: State, s': State, t: int, a: Fifo)
    requires Inv(s) && Step(s, s', t, Tau) && Sim(s, a)
    requires s.threads[t].D7? && s.head == s.threads[t].head
    ensures a.q != [] && a.q[0] == s.threads[t].ret && a.ops[t].Popping?
    ensures Sim(s', Set(a, t, Popped(a.q[0])).(q := a.q[1..]))
  {
    StepKeeps(s, s', t, Tau);
    assert OpOk(s, s.threads[t], a.ops[t]) && LocalOk(s, s.threads[t]);
    HeadUnmoved(s, s.threads[t]);
    HeadContents(s, s');
    OthersOk(s, s', a, t, s'.threads[t], Popped(s.threads[t].ret));
  }

  /** A pop that reads NULL behind its head sees the queue empty at that instant. */
  lemma EmptySim(s: State, s': State, t: int, a: Fifo)
    requires Inv(s) && Step(s, s', t, Tau) && Sim(s, a)
    requires s.threads[t].D3? && NextOf(s, s.threads[t].head).node == NULL
    ensures a.q == [] && a.ops[t].Popping? && Sim(s', Set(a, t, Popping(true)))
  {
    var l := s.threads[t];
    assert OpOk(s, l, a.ops[t]) && LocalOk(s, l);
    var i, j :| WasHead(s, l.head, i) && WasTail(s, l.tail, j) && i <= j;
    ReadHeadNext(s, l.head, l.tail, i, j);
    StepKeeps(s, s', t, Tau);
    QuietSim(s, s', t, s'.threads[t], a, Popping(true));
  }

  /** Whatever thread t does next, the atomic queue can do too. */
  lemma SimStep(s: State, s': State, t: int, e: Event, a: Fifo) returns (a': Fifo)
    requires Inv(s) && Step(s, s', t, e) && Sim(s, a)
    ensures FifoStep(a, a', e) && Sim(s', a')
  {
    var l := s.threads[t];
    assert OpOk(s, l, a.ops[t]) && LocalOk(s, l);
    if l.P4? && NextOf(s, l.tail) == l.next {
      LinkSim(s, s', t, a);
      a' := Set(a, t, Pushed).(q := a.q + [s.nodes[l.n].val]);
      assert Internal(a, a', t);
    } else if l.D7? && s.head == l.head {
      HeadSim(s, s', t, a);
      a' := Set(a, t, Popped(a.q[0])).(q := a.q[1..]);
      assert Internal(a, a', t);
    } else if l.D3? && NextOf(s, l.head).node == NULL {
      EmptySim(s, s', t, a);
      a' := Set(a, t, Popping(true));
      assert Internal(a, a', t);
    } else {
      a' := QuietStep(s, s', t, e, a);
    }
  }

  /** A step other than the three instants where the operation takes effect. */
  ghost predicate Quiet(s: State, t: int) {
    t in s.threads && match s.threads[t]
    case P4(n, tail, next) => Points(s, tail) && NextOf(s, tail) != next
    case D7(head, next, ret) => s.head != head
    case D3(head, tail) => Points(s, head) && NextOf(s, head).node != NULL
    case _ => true
  }

  lemma QuietPush(s: State, s': State, t: int, e: Event, op: Op)
    requires Quiet(s, t) && Step(s, s', t, e) && OpOk(s, s.threads[t], op)
    requires s.threads[t] == Rest || Mine(s.threads[t]) != NULL || s.threads[t].P6? || s.threads[t].P7?
    ensures s'.chain == s.chain && s'.hpos == s.hpos && s'.threads == s.threads[t := s'.threads[t]]
    ensures OpOk(s', s'.threads[t], OpAfter(e, op))
    ensures e == RetPush(t) ==> op == Pushed
    ensures e.CallPush? || e.CallPop? ==> e.t == t && op == Idle
    ensures !e.RetPop? && (e.RetPush? ==> e.t == t)
  {
  }

  lemma QuietPop(s: State, s': State, t: int, e: Event, op: Op)
    requires Quiet(s, t) && Step(s, s', t, e) && OpOk(s, s.threads[t], op) && LocalOk(s, s.threads[t])
    requires s.threads[t] != Rest && Mine(s.threads[t]) == NULL && !s.threads[t].P6? && !s.threads[t].P7?
    requires !s.threads[t].P1? && !s.threads[t].P2? && !s.threads[t].P3? && !s.threads[t].P4? && !s.threads[t].P5?
    ensures s'.chain == s.chain && s'.hpos == s.hpos && s'.threads == s.threads[t := s'.threads[t]]
    ensures OpOk(s', s'.threads[t], OpAfter(e, op))
    ensures e == Tau || (e.RetPop? && e.t == t && (op == Popped(e.r) || (op == Popping(true) && e.r == EMPTY)))
  {
  }

  lemma QuietStep(s: State, s': State, t: int, e: Event, a: Fifo) returns (a': Fifo)
    requires Inv(s) && Step(s, s', t, e) && Sim(s, a) && Quiet(s, t)
    ensures FifoStep(a, a', e) && Sim(s', a')
  {
    var l := s.threads[t];
    StepKeeps(s, s', t, e);
    assert OpOk(s, l, a.ops[t]) && LocalOk(s, l);
    if l == Rest || Mine(l) != NULL || l.P6? || l.P7? {
      QuietPush(s, s', t, e, a.ops[t]);
    } else {
      QuietPop(s, s', t, e, a.ops[t]);
    }
    a' := QuietFifo(s, s', t, e, a);
  }

  lemma QuietFifo(s: State, s': State, t: int, e: Event, a: Fifo) returns (a': Fifo)
    requires Sim(s, a) && ListOk(s') && Mono(s, s') && t in s.threads && t in s'.threads
    requires s'.chain == s.chain && s'.hpos == s.hpos && s'.threads == s.threads[t := s'.threads[t]]
    requires OpOk(s', s'.threads[t], OpAfter(e, a.ops[t]))
    requires match e
      case Tau => true
      case RetPush(u) => u == t && a.ops[t] == Pushed
      case RetPop(u, r) => u == t && (a.ops[t] == Popped(r) || (a.ops[t] == Popping(true) && r == EMPTY))
      case _ => e.t == t && a.ops[t] == Idle
    ensures FifoStep(a, a', e) && Sim(s', a')
  {
    QuietSim(s, s', t, s'.threads[t], a, OpAfter(e, a.ops[t]));
    a' := Set(a, t, OpAfter(e, a.ops[t]));
    NoChange(a, t);
  }

  function Events(steps: seq<(int, Event)>): seq<Event> {
    seq(|steps|, i requires 0 <= i < |steps| => steps[i].1)
  }

  lemma InitSim(s: State) returns (a: Fifo)
    requires Init(s)
    ensures FifoInit(a, s.threads.Keys) && Sim(s, a)
  {
    a := Fifo([], map t | t in s.threads :: Idle);
    assert Contents(s) == [];
  }

  lemma Shorter(run: seq<State>, steps: seq<(int, Event)>)
    requires IsRun(run, steps) && |steps| > 0
    ensures IsRun(run[..|steps|], steps[..|steps| - 1])
    ensures Events(steps) == Events(steps[..|steps| - 1]) + [steps[|steps| - 1].1]
  {
  }

  ghost predicate SimAll(run: seq<State>, abs: seq<Fifo>) {
    |run| == |abs| && forall i :: 0 <= i < |run| ==> Sim(run[i], abs[i])
  }

  lemma SimAllGrows(run: seq<State>, abs: seq<Fifo>, s: State, a: Fifo)
    requires SimAll(run, abs) && Sim(s, a)
    ensures SimAll(run + [s], abs + [a])
  {
  }

  /** Every run of the queue has the same calls and returns, in the same order and with the
      same results, as some run of the atomic queue on the same threads. */
  lemma {:induction false} Linearizable(run: seq<State>, steps: seq<(int, Event)>) returns (abs: seq<Fifo>)
    requires IsRun(run, steps)
    ensures FifoRun(run[0].threads.Keys, abs, Events(steps))
    ensures SimAll(run, abs)
    decreases |steps|
  {
    var n := |steps|;
    if n == 0 {
      var a := InitSim(run[0]);
      abs := [a];
    } else {
      Shorter(run, steps);
      var before := Linearizable(run[..n], steps[..n - 1]);
      abs := OneMore(run, steps, before);
    }
  }

  /** The last step of a run, and the step of the atomic queue that it shows. */
  lemma LastStep(run: seq<State>, steps: seq<(int, Event)>, a: Fifo) returns (last: Fifo)
    requires IsRun(run, steps) && |steps| > 0 && Sim(run[|steps| - 1], a)
    ensures FifoStep(a, last, steps[|steps| - 1].1) && Sim(run[|steps|], last)
  {
    var n := |steps|;
    Structure(run, steps, n - 1);
    assert Step(run[n - 1], run[n], steps[n - 1].0, steps[n - 1].1);
    last := SimStep(run[n - 1], run[n], steps[n - 1].0, steps[n - 1].1, a);
  }

  lemma OneMore(run: seq<State>, steps: seq<(int, Event)>, before: seq<Fifo>) returns (abs: seq<Fifo>)
    requires IsRun(run, steps) && |steps| > 0 && SimAll(run[..|steps|], before)
    requires FifoRun(run[0].threads.Keys, before, Events(steps[..|steps| - 1]))
    ensures SimAll(run, abs) && FifoRun(run[0].threads.Keys, abs, Events(steps))
  {
    var n := |steps|;
    Shorter(run, steps);
    assert Sim(run[..n][n - 1], before[n - 1]);
    var last := LastStep(run, steps, before[n - 1]);
    FifoRunGrows(run[0].threads.Keys, before, Events(steps[..n - 1]), last, steps[n - 1].1);
    SimAllGrows(run[..n], before, run[n], last);
    assert run[..n] + [run[n]] == run;
    abs := before + [last];
  }

  /** If one thread pushes and one pops, the pops return, in order, a prefix of what the
      pushes were given; what is missing is still in the queue or under way. */
  lemma PoppedInOrder(run: seq<State>, steps: seq<(int, Event)>, w: int, r: int) returns (a: Fifo)
    requires IsRun(run, steps) && OneEach(Events(steps), w, r)
    ensures Returned(Events(steps)) <= Called(Events(steps)) && Sim(run[|steps|], a)
    ensures Called(Events(steps)) ==
      Returned(Events(steps)) + PopUnderWay(a, r) + Contents(run[|steps|]) + PushUnderWay(a, w)
  {
    var abs := Linearizable(run, steps);
    a := abs[|steps|];
    InOrder(run[0].threads.Keys, abs, Events(steps), w, r);
  }
}
