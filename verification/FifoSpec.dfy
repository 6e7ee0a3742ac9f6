/** What a concurrent queue should look like from outside: calls and returns of an atomic
    first-in-first-out queue. Between its call and its return every push appends its value
    at one instant, every pop that returns a value takes the front at one instant, and a
    pop that returns EMPTY saw the queue empty at some instant. */
module FifoSpec {

  const EMPTY := -1

  datatype Event =
    | Tau
    | CallPush(t: int, v: int)
    | RetPush(t: int)
    | CallPop(t: int)
    | RetPop(t: int, r: int)

  datatype Op =
    | Idle
    | Pushing(v: int)
    | Pushed
    | Popping(sawEmpty: bool)
    | Popped(v: int)

  datatype Fifo = Fifo(q: seq<int>, ops: map<int, Op>)

  function Set(a: Fifo, t: int, op: Op): Fifo {
    a.(ops := a.ops[t := op])
  }

  /** The status of an operation behind an event other than its instant. */
  function OpAfter(e: Event, op: Op): Op {
    match e
    case Tau => op
    case CallPush(_, v) => Pushing(v)
    case CallPop(_) => Popping(false)
    case _ => Idle
  }

  lemma NoChange(a: Fifo, t: int)
    requires t in a.ops
    ensures Set(a, t, a.ops[t]) == a
  {
  }

  ghost predicate Internal(a: Fifo, a': Fifo, t: int) {
    t in a.ops && match a.ops[t]
    case Pushing(v) => a' == Set(a, t, Pushed).(q := a.q + [v])
    case Popping(_) =>
      if a.q == [] then a' == Set(a, t, Popping(true))
      else a' == Set(a, t, Popped(a.q[0])).(q := a.q[1..])
    case _ => false
  }

  ghost predicate FifoStep(a: Fifo, a': Fifo, e: Event) {
    match e
    case Tau => a' == a || exists t :: Internal(a, a', t)
    case CallPush(t, v) => t in a.ops && a.ops[t] == Idle && a' == Set(a, t, Pushing(v))
    case RetPush(t) => t in a.ops && a.ops[t] == Pushed && a' == Set(a, t, Idle)
    case CallPop(t) => t in a.ops && a.ops[t] == Idle && a' == Set(a, t, Popping(false))
    case RetPop(t, r) =>
      && t in a.ops
      && (a.ops[t] == Popped(r) || (a.ops[t] == Popping(true) && r == EMPTY))
      && a' == Set(a, t, Idle)
  }

  ghost predicate FifoInit(a: Fifo, threads: set<int>) {
    a.q == [] && a.ops.Keys == threads && forall t :: t in threads ==> a.ops[t] == Idle
  }

  /** A run of the atomic queue with these events, one per step. */
  ghost predicate FifoRun(threads: set<int>, run: seq<Fifo>, events: seq<Event>) {
    && |run| == |events| + 1
    && FifoInit(run[0], threads)
    && forall i :: 0 <= i < |events| ==> FifoStep(run[i], run[i + 1], events[i])
  }

  lemma FifoRunGrows(threads: set<int>, abs: seq<Fifo>, events: seq<Event>, last: Fifo, e: Event)
    requires FifoRun(threads, abs, events) && FifoStep(abs[|abs| - 1], last, e)
    ensures FifoRun(threads, abs + [last], events + [e])
  {
    var run, all := abs + [last], events + [e];
    forall i | 0 <= i < |all| ensures FifoStep(run[i], run[i + 1], all[i]) {
      if i < |events| { assert FifoStep(abs[i], abs[i + 1], events[i]); }
    }
  }

  // ---- What the atomic queue promises --------------------------------------------------

  /** What one step appends. */
  function Put(a: Fifo, a': Fifo): seq<int> {
    if |a'.q| == |a.q| + 1 then [a'.q[|a.q|]] else []
  }

  /** What one step takes out. */
  function Got(a: Fifo, a': Fifo): seq<int> {
    if |a.q| == |a'.q| + 1 then [a.q[0]] else []
  }

  /** Values appended during a run, in order. */
  ghost function Appended(run: seq<Fifo>): seq<int>
    requires |run| > 0
    decreases |run|
  {
    if |run| == 1 then []
    else
      var a, a' := run[|run| - 2], run[|run| - 1];
      Appended(run[..|run| - 1]) + Put(a, a')
  }

  /** Values taken out during a run, in order. */
  ghost function TakenOut(run: seq<Fifo>): seq<int>
    requires |run| > 0
    decreases |run|
  {
    if |run| == 1 then []
    else
      var a, a' := run[|run| - 2], run[|run| - 1];
      TakenOut(run[..|run| - 1]) + Got(a, a')
  }

  lemma StepBalance(a: Fifo, a': Fifo, e: Event)
    requires FifoStep(a, a', e)
    ensures a.q + Put(a, a') == Got(a, a') + a'.q
  {
    if t :| e == Tau && Internal(a, a', t) {
      match a.ops[t] {
        case Pushing(v) => assert a'.q == a.q + [v];
        case Popping(_) => assert a.q != [] ==> a.q == [a.q[0]] + a'.q;
      }
    }
  }

  lemma RunShrinks(threads: set<int>, run: seq<Fifo>, events: seq<Event>)
    requires FifoRun(threads, run, events) && events != []
    ensures FifoRun(threads, run[..|events|], events[..|events| - 1])
    ensures FifoStep(run[|events| - 1], run[|events|], events[|events| - 1])
    ensures run[..|run| - 1] == run[..|events|] && run[..|events|][|events| - 1] == run[|events| - 1]
  {
  }

  /** What was taken out, followed by what is still in, is exactly what was put in. */
  lemma {:induction false} FirstInFirstOut(threads: set<int>, run: seq<Fifo>, events: seq<Event>)
    requires FifoRun(threads, run, events)
    ensures Appended(run) == TakenOut(run) + run[|run| - 1].q
    decreases |run|
  {
    var n := |events|;
    if n > 0 {
      RunShrinks(threads, run, events);
      FirstInFirstOut(threads, run[..n], events[..n - 1]);
      StepBalance(run[n - 1], run[n], events[n - 1]);
      Regroup(TakenOut(run[..n]), run[n - 1].q, Put(run[n - 1], run[n]), Got(run[n - 1], run[n]), run[n].q);
    }
  }

  lemma Regroup<T>(out: seq<T>, q: seq<T>, x: seq<T>, y: seq<T>, q': seq<T>)
    requires q + x == y + q'
    ensures out + q + x == out + y + q'
  {
    assert out + q + x == out + (q + x);
    assert out + y + q' == out + (y + q');
  }

  // ---- What calls and returns show -------------------------------------------------------

  /** Values given to push calls, in order. */
  function Called(events: seq<Event>): seq<int> {
    if events == [] then []
    else
      var e := events[|events| - 1];
      Called(events[..|events| - 1]) + if e.CallPush? then [e.v] else []
  }

  /** Values returned by pops that did not find the queue empty, in order. */
  function Returned(events: seq<Event>): seq<int> {
    if events == [] then []
    else
      var e := events[|events| - 1];
      Returned(events[..|events| - 1]) + if e.RetPop? && e.r != EMPTY then [e.r] else []
  }

  /** Only w pushes, nothing that looks like an empty answer, and only r pops. */
  ghost predicate OneEach(events: seq<Event>, w: int, r: int) {
    forall i :: 0 <= i < |events| ==>
      && (events[i].CallPush? ==> events[i].t == w && events[i].v != EMPTY)
      && (events[i].CallPop? ==> events[i].t == r)
  }

  function PushUnderWay(a: Fifo, w: int): seq<int> {
    if w in a.ops && a.ops[w].Pushing? then [a.ops[w].v] else []
  }

  function PopUnderWay(a: Fifo, r: int): seq<int> {
    if r in a.ops && a.ops[r].Popped? then [a.ops[r].v] else []
  }

  ghost predicate OpsOfOne(a: Fifo, w: int, r: int) {
    forall t :: t in a.ops ==>
      && (t != w ==> !a.ops[t].Pushing?)
      && (t != r ==> !a.ops[t].Popped? && !a.ops[t].Popping?)
  }

  lemma OpsStay(a: Fifo, a': Fifo, e: Event, w: int, r: int)
    requires OpsOfOne(a, w, r) && FifoStep(a, a', e) && OneEach([e], w, r)
    ensures OpsOfOne(a', w, r)
  {
    assert [e][0] == e;
  }

  /** One step of the atomic queue: what it shows, and what it puts in and takes out. */
  lemma StepShows(a: Fifo, a': Fifo, e: Event, w: int, r: int)
    requires OpsOfOne(a, w, r) && OpsOfOne(a', w, r) && FifoStep(a, a', e) && OneEach([e], w, r)
    requires EMPTY !in PopUnderWay(a, r)
    ensures PushUnderWay(a, w) + Called([e]) == Put(a, a') + PushUnderWay(a', w)
    ensures PopUnderWay(a, r) + Got(a, a') == Returned([e]) + PopUnderWay(a', r)
  {
    assert [e][0] == e && [e][..0] == [];
    assert Called([e]) == if e.CallPush? then [e.v] else [];
    assert Returned([e]) == if e.RetPop? && e.r != EMPTY then [e.r] else [];
    if t :| e == Tau && Internal(a, a', t) {
      match a.ops[t] {
        case Pushing(v) => assert a'.q == a.q + [v];
        case Popping(_) => assert a.q != [] ==> a.q == [a.q[0]] + a'.q;
      }
    }
  }

  /** With one thread that pushes and one that pops: the values returned so far, the one a
      pop is about to return, those in the queue and the one a push has yet to append are,
      in this order, the values of the push calls. So what the pops return is, in order,
      a prefix of what the pushes were given. */
  lemma InOrder(threads: set<int>, run: seq<Fifo>, events: seq<Event>, w: int, r: int)
    requires FifoRun(threads, run, events) && OneEach(events, w, r)
    ensures var a := run[|run| - 1];
      Called(events) == Returned(events) + PopUnderWay(a, r) + a.q + PushUnderWay(a, w)
    ensures Returned(events) <= Called(events)
  {
    EventsMatch(threads, run, events, w, r);
    FirstInFirstOut(threads, run, events);
  }

  lemma {:induction false} NoEmpty(events: seq<Event>, w: int, r: int)
    requires OneEach(events, w, r)
    ensures EMPTY !in Called(events)
  {
    if events != [] {
      NoEmpty(events[..|events| - 1], w, r);
    }
  }

  lemma LastEvent(events: seq<Event>)
    requires events != []
    ensures var front, e := events[..|events| - 1], events[|events| - 1];
      Called(events) == Called(front) + Called([e]) && Returned(events) == Returned(front) + Returned([e])
  {
    assert [events[|events| - 1]][..0] == [];
  }

  /** Calls are what has been appended and is to be; what has been taken out is what has been
      returned and is to be. */
  lemma {:induction false} EventsMatch(threads: set<int>, run: seq<Fifo>, events: seq<Event>, w: int, r: int)
    requires FifoRun(threads, run, events) && OneEach(events, w, r)
    ensures var a := run[|run| - 1];
      && OpsOfOne(a, w, r)
      && Called(events) == Appended(run) + PushUnderWay(a, w)
      && TakenOut(run) == Returned(events) + PopUnderWay(a, r)
    decreases |events|
  {
    var n := |events|;
    if n > 0 {
      var front, e, a, a' := events[..n - 1], events[n - 1], run[n - 1], run[n];
      RunShrinks(threads, run, events);
      EventsMatch(threads, run[..n], front, w, r);
      NotEmpty(threads, run[..n], front, w, r);
      LastEvent(events);
      assert OneEach([e], w, r);
      OpsStay(a, a', e, w, r);
      StepShows(a, a', e, w, r);
      Regroup(Appended(run[..n]), PushUnderWay(a, w), Called([e]), Put(a, a'), PushUnderWay(a', w));
      Regroup(Returned(front), PopUnderWay(a, r), Got(a, a'), Returned([e]), PopUnderWay(a', r));
    }
  }

  /** Nothing that looks like an empty answer is about to be returned. */
  lemma NotEmpty(threads: set<int>, run: seq<Fifo>, events: seq<Event>, w: int, r: int)
    requires FifoRun(threads, run, events) && OneEach(events, w, r)
    requires var a := run[|run| - 1];
      && Called(events) == Appended(run) + PushUnderWay(a, w)
      && TakenOut(run) == Returned(events) + PopUnderWay(a, r)
    ensures EMPTY !in PopUnderWay(run[|run| - 1], r)
  {
    NoEmpty(events, w, r);
    FirstInFirstOut(threads, run, events);
    assert forall x :: x in TakenOut(run) ==> x in Appended(run);
    assert forall x :: x in Appended(run) ==> x in Called(events);
  }
}
