/** The single-reader single-writer queue as an interleaving of one pushing and one popping
    thread at single shared reads and writes, and its refinement of the atomic queue. */
module PairQueue {
  import opened FifoSpec

  const NULL := -1
  const WRITER := 0
  const READER := 1

  datatype Elem = Elem(prev: int, data: int)

  datatype Writer =
    | WRest
    | W1(e: int)             // read q->head
    | W2(e: int)             // first push: write q->head
    | W3(e: int)             // first push: write q->tail
    | W4(e: int, h: int)     // write q->head->prev
    | W5(e: int)             // write q->head
    | W6                     // return

  datatype Reader =
    | RRest
    | R1                     // read q->tail
    | R2                     // read q->last
    | R3(l: int)             // read q->last->prev
    | R4(p: int)             // write q->tail
    | R5                     // read q->tail again
    | R6                     // read q->tail into elem
    | R7(e: int)             // write q->last
    | R8(e: int)             // read elem->prev
    | R9(e: int, p: int)     // write q->tail
    | R10(e: int)            // read elem->data
    | R11(d: int)            // return the data
    | R12                    // return NULL

  /** linked only records how many elements the reader can reach. */
  datatype State = State(
    elems: seq<Elem>, head: int, tail: int, last: int,
    writer: Writer, reader: Reader, linked: nat)

  ghost predicate Init(s: State) {
    s == State([], NULL, NULL, NULL, WRest, RRest, 0)
  }

  predicate Points(s: State, p: int) {
    0 <= p < |s.elems|
  }

  ghost predicate WriterStep(s: State, s': State, e: Event) {
    match s.writer
    case WRest =>
      e.CallPush? && e.t == WRITER &&
      s' == s.(elems := s.elems + [Elem(NULL, e.v)], writer := W1(|s.elems|))
    case W1(n) => e == Tau && s' == s.(writer := if s.head == NULL then W2(n) else W4(n, s.head))
    case W2(n) => e == Tau && s' == s.(head := n, writer := W3(n))
    case W3(n) => e == Tau && s' == s.(tail := n, writer := W6, linked := s.linked + 1)
    case W4(n, h) =>
      e == Tau && Points(s, h) &&
      s' == s.(elems := s.elems[h := s.elems[h].(prev := n)], writer := W5(n), linked := s.linked + 1)
    case W5(n) => e == Tau && s' == s.(head := n, writer := W6)
    case W6 => e == RetPush(WRITER) && s' == s.(writer := WRest)
  }

  ghost predicate ReaderStep(s: State, s': State, e: Event) {
    match s.reader
    case RRest => e == CallPop(READER) && s' == s.(reader := R1)
    case R1 => e == Tau && s' == s.(reader := if s.tail == NULL then R2 else R6)
    case R2 => e == Tau && s' == s.(reader := if s.last == NULL then R5 else R3(s.last))
    case R3(l) => e == Tau && Points(s, l) && s' == s.(reader := R4(s.elems[l].prev))
    case R4(p) => e == Tau && s' == s.(tail := p, reader := R5)
    case R5 => e == Tau && s' == s.(reader := if s.tail == NULL then R12 else R6)
    case R6 => e == Tau && s' == s.(reader := R7(s.tail))
    case R7(n) => e == Tau && s' == s.(last := n, reader := R8(n))
    case R8(n) => e == Tau && Points(s, n) && s' == s.(reader := R9(n, s.elems[n].prev))
    case R9(n, p) => e == Tau && s' == s.(tail := p, reader := R10(n))
    case R10(n) => e == Tau && Points(s, n) && s' == s.(reader := R11(s.elems[n].data))
    case R11(d) => e == RetPop(READER, d) && s' == s.(reader := RRest)
    case R12 => e == RetPop(READER, EMPTY) && s' == s.(reader := RRest)
  }

  ghost predicate Step(s: State, s': State, e: Event) {
    WriterStep(s, s', e) || ReaderStep(s, s', e)
  }

  ghost predicate IsRun(run: seq<State>, events: seq<Event>) {
    && |run| == |events| + 1
    && Init(run[0])
    && forall i :: 0 <= i < |events| ==> Step(run[i], run[i + 1], events[i])
  }

  // ---- Invariant ------------------------------------------------------------------

  /** Elements are linked in the order of their pushes. */
  ghost predicate ListOk(s: State) {
    && s.linked <= |s.elems|
    && (forall i :: 0 <= i < s.linked - 1 ==> s.elems[i].prev == i + 1)
    && (forall i :: s.linked - 1 <= i < |s.elems| && 0 <= i ==> s.elems[i].prev == NULL)
    && NULL <= s.last < s.linked
  }

  ghost predicate WriterOk(s: State) {
    match s.writer
    case WRest => |s.elems| == s.linked && s.head == s.linked - 1
    case W1(n) => n == s.linked && |s.elems| == s.linked + 1 && s.head == s.linked - 1
    case W2(n) => n == s.linked == 0 && |s.elems| == 1 && s.head == NULL
    case W3(n) => n == s.linked == 0 && |s.elems| == 1 && s.head == 0
    case W4(n, h) => n == s.linked && |s.elems| == s.linked + 1 && s.head == h == s.linked - 1 >= 0
    case W5(n) => n == s.linked - 1 && |s.elems| == s.linked && s.head == s.linked - 2 >= 0
    case W6 => |s.elems| == s.linked && s.head == s.linked - 1
  }

  /** The element the reader would take next, or NULL if it has none yet. */
  ghost predicate AfterLast(s: State, p: int) {
    p == NULL || (p == s.last + 1 && p < s.linked)
  }

  ghost predicate TailOk(s: State) {
    && AfterLast(s, s.tail)
    && (s.last == NULL && s.linked > 0 ==> s.tail == 0)
  }

  ghost predicate ReaderOk(s: State) {
    match s.reader
    case R2 => TailOk(s) && (s.last >= 0 ==> s.tail == NULL)
    case R3(l) => s.last == l >= 0 && s.tail == NULL
    case R4(p) => s.last >= 0 && s.tail == NULL && AfterLast(s, p)
    case R6 => TailOk(s) && s.tail != NULL
    case R7(n) => TailOk(s) && n == s.tail != NULL
    case R8(n) => s.last == s.tail == n >= 0
    case R9(n, p) => s.last == s.tail == n >= 0 && AfterLast(s, p)
    case R10(n) => s.last == n >= 0 && TailOk(s)
    case _ => TailOk(s)
  }

  ghost predicate Inv(s: State) {
    ListOk(s) && WriterOk(s) && ReaderOk(s)
  }

  lemma StepKeeps(s: State, s': State, e: Event)
    requires Inv(s) && Step(s, s', e)
    ensures Inv(s')
  {
    if WriterStep(s, s', e) {
      WriterKeeps(s, s', e);
    } else {
      ReaderKeeps(s, s', e);
    }
  }

  lemma WriterMoves(s: State, s': State, e: Event)
    requires ListOk(s) && WriterOk(s) && WriterStep(s, s', e)
    ensures ListOk(s') && WriterOk(s')
    ensures s'.reader == s.reader && s'.last == s.last && s.linked <= s'.linked
    ensures s'.tail == s.tail || (s.linked == 0 && s'.linked == 1 && s'.tail == 0)
    ensures s.linked == 0 && s'.linked > 0 ==> s'.tail == 0
  {
  }

  lemma WriterKeeps(s: State, s': State, e: Event)
    requires Inv(s) && WriterStep(s, s', e)
    ensures Inv(s')
  {
    WriterMoves(s, s', e);
  }

  lemma ReaderMoves(s: State, s': State, e: Event)
    requires ListOk(s) && ReaderOk(s) && ReaderStep(s, s', e)
    ensures s'.elems == s.elems && s'.linked == s.linked && NULL <= s'.last < s'.linked
    ensures ReaderOk(s')
  {
  }

  lemma ReaderKeeps(s: State, s': State, e: Event)
    requires Inv(s) && ReaderStep(s, s', e)
    ensures Inv(s')
  {
    ReaderMoves(s, s', e);
    assert WriterOk(s');
  }

  lemma {:induction false} RunKeeps(run: seq<State>, events: seq<Event>, i: nat)
    requires IsRun(run, events) && i < |run|
    ensures Inv(run[i])
  {
    if i > 0 {
      RunKeeps(run, events, i - 1);
      StepKeeps(run[i - 1], run[i], events[i - 1]);
    }
  }

  // ---- Refinement ------------------------------------------------------------------

  /** What has been linked and not yet taken. */
  ghost function Contents(s: State): seq<int>
    requires ListOk(s)
  {
    seq(s.linked - s.last - 1, i requires 0 <= i < s.linked - s.last - 1 => s.elems[s.last + 1 + i].data)
  }

  ghost predicate WriterSim(s: State, op: Op) {
    match s.writer
    case WRest => op == Idle
    case W5(n) => op == Pushed
    case W6 => op == Pushed
    case _ => Points(s, s.writer.e) && op == Pushing(s.elems[s.writer.e].data)
  }

  ghost predicate ReaderSim(s: State, op: Op) {
    match s.reader
    case RRest => op == Idle
    case R4(p) => op.Popping? && (p == NULL ==> op.sawEmpty)
    case R5 => op.Popping? && (s.tail == NULL && s.last >= 0 ==> op.sawEmpty)
    case R8(n) => Points(s, n) && op == Popped(s.elems[n].data)
    case R9(n, p) => Points(s, n) && op == Popped(s.elems[n].data)
    case R10(n) => Points(s, n) && op == Popped(s.elems[n].data)
    case R11(d) => op == Popped(d)
    case R12 => op == Popping(true)
    case _ => op.Popping?
  }

  ghost predicate Sim(s: State, a: Fifo) {
    && ListOk(s) && a.q == Contents(s) && a.ops.Keys == {WRITER, READER}
    && WriterSim(s, a.ops[WRITER]) && ReaderSim(s, a.ops[READER])
  }

  /** The writer's instant: making the new element reachable. */
  ghost predicate Links(s: State) {
    s.writer.W3? || s.writer.W4?
  }

  lemma WriterList(s: State, s': State, e: Event)
    requires ListOk(s) && WriterOk(s) && WriterStep(s, s', e)
    ensures ListOk(s') && s'.last == s.last && s'.linked == s.linked + if Links(s) then 1 else 0
    ensures forall i :: 0 <= i < |s.elems| ==> i < |s'.elems| && s'.elems[i].data == s.elems[i].data
    ensures Links(s) ==> s.writer.e == s.linked < |s.elems|
  {
  }

  lemma WriterContents(s: State, s': State, e: Event)
    requires ListOk(s) && WriterOk(s) && WriterStep(s, s', e)
    ensures ListOk(s') && Contents(s') == Contents(s) + if Links(s) then [s.elems[s.writer.e].data] else []
  {
    WriterList(s, s', e);
    var c, c' := Contents(s), Contents(s');
    assert forall i :: 0 <= i < |c| ==> c'[i] == c[i];
    assert Links(s) ==> |c'| == |c| + 1 && c'[|c|] == s.elems[s.writer.e].data;
  }

  lemma WriterStatus(s: State, s': State, e: Event, op: Op)
    requires WriterStep(s, s', e) && WriterSim(s, op)
    ensures WriterSim(s', if Links(s) then Pushed else OpAfter(e, op))
    ensures Links(s) ==> e == Tau && Points(s, s.writer.e) && op == Pushing(s.elems[s.writer.e].data)
    ensures !e.CallPop? && !e.RetPop?
    ensures e.CallPush? ==> e.t == WRITER && op == Idle
    ensures e.RetPush? ==> e.t == WRITER && op == Pushed
  {
  }

  /** The other thread's operation is where it was. */
  lemma ReaderUndisturbed(s: State, s': State, e: Event, op: Op)
    requires Inv(s) && WriterStep(s, s', e) && ReaderSim(s, op)
    ensures ReaderSim(s', op)
  {
  }

  lemma WriterUndisturbed(s: State, s': State, e: Event, op: Op)
    requires ReaderStep(s, s', e) && WriterSim(s, op)
    ensures WriterSim(s', op)
  {
  }

  lemma WriterSimStep(s: State, s': State, e: Event, a: Fifo) returns (a': Fifo)
    requires Inv(s) && WriterStep(s, s', e) && Sim(s, a)
    ensures FifoStep(a, a', e) && Sim(s', a')
  {
    WriterContents(s, s', e);
    WriterStatus(s, s', e, a.ops[WRITER]);
    ReaderUndisturbed(s, s', e, a.ops[READER]);
    a' := WriterFifo(s, s', e, a);
  }

  lemma WriterFifo(s: State, s': State, e: Event, a: Fifo) returns (a': Fifo)
    requires Sim(s, a) && ListOk(s') && !e.CallPop? && !e.RetPop?
    requires Links(s) ==> e == Tau && Points(s, s.writer.e) && a.ops[WRITER] == Pushing(s.elems[s.writer.e].data)
    requires Contents(s') == Contents(s) + if Links(s) then [s.elems[s.writer.e].data] else []
    requires WriterSim(s', if Links(s) then Pushed else OpAfter(e, a.ops[WRITER])) && ReaderSim(s', a.ops[READER])
    requires e.CallPush? ==> e.t == WRITER && a.ops[WRITER] == Idle
    requires e.RetPush? ==> e.t == WRITER && a.ops[WRITER] == Pushed
    ensures FifoStep(a, a', e) && Sim(s', a')
  {
    if Links(s) {
      a' := Set(a, WRITER, Pushed).(q := a.q + [s.elems[s.writer.e].data]);
      assert Internal(a, a', WRITER);
    } else {
      a' := Set(a, WRITER, OpAfter(e, a.ops[WRITER]));
      NoChange(a, WRITER);
    }
  }

  /** The reader's instants: moving last forward, and finding nothing behind it. */
  ghost predicate SeesNothing(s: State) {
    || (s.reader.R3? && Points(s, s.reader.l) && s.elems[s.reader.l].prev == NULL)
    || (s.reader.R5? && s.tail == NULL && s.last == NULL)
  }

  lemma OneTaken(s: State, s': State)
    requires ListOk(s) && ListOk(s') && s'.elems == s.elems && s'.linked == s.linked && s'.last == s.last + 1
    ensures Contents(s) != [] && Contents(s)[0] == s.elems[s.last + 1].data && Contents(s') == Contents(s)[1..]
  {
  }

  lemma NothingThere(s: State)
    requires ListOk(s) && ReaderOk(s) && SeesNothing(s)
    ensures Contents(s) == []
  {
  }

  lemma ReaderContents(s: State, s': State, e: Event)
    requires ListOk(s) && ReaderOk(s) && ReaderStep(s, s', e)
    ensures ListOk(s')
    ensures s.reader.R7? ==> Contents(s) != [] && Points(s, s.reader.e)
    ensures s.reader.R7? ==> Contents(s)[0] == s.elems[s.reader.e].data && Contents(s') == Contents(s)[1..]
    ensures !s.reader.R7? ==> Contents(s') == Contents(s)
    ensures SeesNothing(s) ==> Contents(s) == []
  {
    ReaderMoves(s, s', e);
    if s.reader.R7? {
      OneTaken(s, s');
    } else {
      assert s'.last == s.last;
    }
    if SeesNothing(s) {
      NothingThere(s);
    }
  }

  function ReaderOp(s: State, e: Event, op: Op): Op {
    if s.reader.R7? && Points(s, s.reader.e) then Popped(s.elems[s.reader.e].data)
    else OpAfter(e, op)
  }

  lemma ReaderStatus(s: State, s': State, e: Event, op: Op)
    requires ReaderOk(s) && NULL <= s.last < s.linked <= |s.elems| + 1 && ReaderStep(s, s', e) && ReaderSim(s, op)
    requires s.reader.R7? ==> Points(s, s.reader.e)
    ensures ReaderSim(s', if SeesNothing(s) then Popping(true) else ReaderOp(s, e, op))
    ensures s.reader.R7? || SeesNothing(s) ==> e == Tau && op.Popping?
    ensures !e.CallPush? && !e.RetPush?
    ensures e.CallPop? ==> e.t == READER && op == Idle
    ensures e.RetPop? ==> e.t == READER && (op == Popped(e.r) || (op == Popping(true) && e.r == EMPTY))
  {
  }

  lemma ReaderSimStep(s: State, s': State, e: Event, a: Fifo) returns (a': Fifo)
    requires Inv(s) && ReaderStep(s, s', e) && Sim(s, a)
    ensures FifoStep(a, a', e) && Sim(s', a')
  {
    ReaderContents(s, s', e);
    ReaderStatus(s, s', e, a.ops[READER]);
    WriterUndisturbed(s, s', e, a.ops[WRITER]);
    if s.reader.R7? {
      a' := Set(a, READER, Popped(a.q[0])).(q := a.q[1..]);
      assert Internal(a, a', READER);
    } else if SeesNothing(s) {
      a' := Set(a, READER, Popping(true));
      assert Internal(a, a', READER);
    } else {
      a' := Set(a, READER, OpAfter(e, a.ops[READER]));
      NoChange(a, READER);
    }
  }

  lemma SimStep(s: State, s': State, e: Event, a: Fifo) returns (a': Fifo)
    requires Inv(s) && Step(s, s', e) && Sim(s, a)
    ensures FifoStep(a, a', e) && Sim(s', a')
  {
    if WriterStep(s, s', e) {
      a' := WriterSimStep(s, s', e, a);
    } else {
      a' := ReaderSimStep(s, s', e, a);
    }
  }

  lemma Shorter(run: seq<State>, events: seq<Event>)
    requires IsRun(run, events) && events != []
    ensures IsRun(run[..|events|], events[..|events| - 1]) && run[..|events|][|events| - 1] == run[|events| - 1]
  {
  }

  /** The last step of a run, and the step of the atomic queue that it shows. */
  lemma LastStep(run: seq<State>, events: seq<Event>, a: Fifo) returns (last: Fifo)
    requires IsRun(run, events) && events != [] && Sim(run[|events| - 1], a)
    ensures FifoStep(a, last, events[|events| - 1]) && Sim(run[|events|], last)
  {
    var n := |events|;
    RunKeeps(run, events, n - 1);
    assert Step(run[n - 1], run[n], events[n - 1]);
    last := SimStep(run[n - 1], run[n], events[n - 1], a);
  }

  /** Every run of the two threads has the calls, returns and results of some run of the
      atomic queue. */
  lemma {:induction false} Refines(run: seq<State>, events: seq<Event>) returns (abs: seq<Fifo>)
    requires IsRun(run, events)
    ensures FifoRun({WRITER, READER}, abs, events)
    ensures Sim(run[|events|], abs[|events|])
    decreases |events|
  {
    var n := |events|;
    if n == 0 {
      abs := [Fifo([], map[WRITER := Idle, READER := Idle])];
    } else {
      Shorter(run, events);
      var before := Refines(run[..n], events[..n - 1]);
      var last := LastStep(run, events, before[n - 1]);
      FifoRunGrows({WRITER, READER}, before, events[..n - 1], last, events[n - 1]);
      assert events[..n - 1] + [events[n - 1]] == events;
      abs := before + [last];
    }
  }

  lemma OnlyTwo(run: seq<State>, events: seq<Event>)
    requires IsRun(run, events) && forall i :: 0 <= i < |events| && events[i].CallPush? ==> events[i].v != EMPTY
    ensures OneEach(events, WRITER, READER)
  {
    forall i | 0 <= i < |events|
      ensures events[i].CallPush? ==> events[i].t == WRITER
      ensures events[i].CallPop? ==> events[i].t == READER
    {
      assert Step(run[i], run[i + 1], events[i]);
    }
  }

  /** In every run the reader's pops return, in order, a prefix of what the writer's pushes
      were given; what is missing is still in the queue or under way. */
  lemma ReadInOrder(run: seq<State>, events: seq<Event>) returns (a: Fifo)
    requires IsRun(run, events) && forall i :: 0 <= i < |events| && events[i].CallPush? ==> events[i].v != EMPTY
    ensures Returned(events) <= Called(events) && Sim(run[|events|], a)
    ensures Called(events) ==
      Returned(events) + PopUnderWay(a, READER) + Contents(run[|events|]) + PushUnderWay(a, WRITER)
  {
    var abs := Refines(run, events);
    a := abs[|events|];
    OnlyTwo(run, events);
    InOrder({WRITER, READER}, abs, events, WRITER, READER);
  }

  // ---- Progress --------------------------------------------------------------------

  /** How many accesses a push has left, and how many a pop has left at most. */
  function WriterLeft(w: Writer): nat {
    match w
    case WRest => 0
    case W1(_) => 4
    case W2(_) => 3
    case W3(_) => 2
    case W4(_, _) => 3
    case W5(_) => 2
    case W6 => 1
  }

  function ReaderLeft(r: Reader): nat {
    match r
    case RRest => 0
    case R1 => 11
    case R2 => 10
    case R3(_) => 9
    case R4(_) => 8
    case R5 => 7
    case R6 => 6
    case R7(_) => 5
    case R8(_) => 4
    case R9(_, _) => 3
    case R10(_) => 2
    case R11(_) => 1
    case R12 => 1
  }

  /** Each thread's accesses count down only its own operation, whatever the other does. */
  lemma StepCosts(s: State, s': State, e: Event)
    requires Step(s, s', e)
    ensures WriterStep(s, s', e) ==> s'.reader == s.reader
    ensures WriterStep(s, s', e) ==>
      WriterLeft(s'.writer) == if e.CallPush? then 4 else WriterLeft(s.writer) - 1
    ensures ReaderStep(s, s', e) ==> s'.writer == s.writer
    ensures ReaderStep(s, s', e) && !e.CallPop? ==> ReaderLeft(s'.reader) < ReaderLeft(s.reader)
  {
  }

  function Pops(events: seq<Event>): nat {
    if events == [] then 0
    else Pops(events[..|events| - 1]) + if events[|events| - 1].CallPop? then 1 else 0
  }

  /** Both operations are wait-free: in every run, however the two threads interleave, a push
      takes its call and four accesses, and a pop its call and eleven at most. */
  lemma {:induction false} WaitFree(run: seq<State>, events: seq<Event>)
    requires IsRun(run, events)
    ensures var s := run[|events|];
      |events| + WriterLeft(s.writer) + ReaderLeft(s.reader) <= 5 * |Called(events)| + 12 * Pops(events)
    decreases |events|
  {
    var n := |events|;
    if n > 0 {
      Shorter(run, events);
      WaitFree(run[..n], events[..n - 1]);
      assert Step(run[n - 1], run[n], events[n - 1]);
      StepCosts(run[n - 1], run[n], events[n - 1]);
    }
  }
}
