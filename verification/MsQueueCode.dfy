/** The Michael-Scott queue's fields changed in place, one shared access at a time. */
module MsQueueCode {
  import opened FifoSpec
  import opened MsQueue
  import opened MsQueueFifo
  import opened Wrappers

  /** A scheduler's turn: a thread calls an operation, or makes its next shared access. */
  datatype Turn = Push(t: int, v: int) | Pop(t: int) | Access(t: int)

  /** The turns a thread of the queue can take where it stands: a call when it is in none, an
      access when it is in one. */
  predicate Fits(s: State, turn: Turn) {
    turn.t in s.threads && match turn
    case Access(t) => s.threads[t] != Rest
    case _ => s.threads[turn.t] == Rest
  }

  /** The step a turn stands for. */
  predicate Shows(turn: Turn, step: (int, Event)) {
    step.0 == turn.t && match turn
    case Push(t, v) => step.1 == CallPush(t, v)
    case Pop(t) => step.1 == CallPop(t)
    case Access(t) => step.1 == Tau || step.1 == RetPush(t) || (step.1.RetPop? && step.1.t == t)
  }

  /** The steps of the run are the turns of the schedule that fit when they come, in order. */
  ghost predicate Played(schedule: seq<Turn>, run: seq<State>, steps: seq<(int, Event)>)
    requires |run| == |steps| + 1
    decreases |schedule|
  {
    var n := |steps|;
    if schedule == [] then steps == []
    else
      var turn, before := schedule[|schedule| - 1], schedule[..|schedule| - 1];
      || (!Fits(run[n], turn) && Played(before, run, steps))
      || (n > 0 && Fits(run[n - 1], turn) && Shows(turn, steps[n - 1]) && Played(before, run[..n], steps[..n - 1]))
  }

  lemma PlayedOn(schedule: seq<Turn>, run: seq<State>, steps: seq<(int, Event)>, turn: Turn, s: State, e: Event)
    requires |run| == |steps| + 1 && Played(schedule, run, steps) && Fits(run[|steps|], turn) && Shows(turn, (turn.t, e))
    ensures Played(schedule + [turn], run + [s], steps + [(turn.t, e)])
  {
    var run', steps' := run + [s], steps + [(turn.t, e)];
    assert run'[..|steps'|] == run && steps'[..|steps|] == steps && (schedule + [turn])[..|schedule|] == schedule;
  }

  lemma PassedOver(schedule: seq<Turn>, run: seq<State>, steps: seq<(int, Event)>, turn: Turn)
    requires |run| == |steps| + 1 && Played(schedule, run, steps) && !Fits(run[|steps|], turn)
    ensures Played(schedule + [turn], run, steps)
  {
    assert (schedule + [turn])[..|schedule|] == schedule;
  }

  lemma RunGrows(run: seq<State>, steps: seq<(int, Event)>, s: State, t: int, e: Event)
    requires IsRun(run, steps) && Step(run[|steps|], s, t, e)
    ensures IsRun(run + [s], steps + [(t, e)]) && Events(steps + [(t, e)]) == Events(steps) + [e]
  {
    var run', steps' := run + [s], steps + [(t, e)];
    forall i | 0 <= i < |steps'| ensures Step(run'[i], run'[i + 1], steps'[i].0, steps'[i].1) {
      if i < |steps| { assert Step(run[i], run[i + 1], steps[i].0, steps[i].1); }
    }
  }

  class Queue {
    var nodes: seq<Node>
    var head: Ptr
    var tail: Ptr
    var threads: map<int, Local>
    ghost var chain: seq<int>
    ghost var hpos: nat
    ghost var tpos: nat

    ghost function State(): State
      reads this
    {
      MsQueue.State(nodes, head, tail, threads, chain, hpos, tpos)
    }

    /** ms_queue_create: one dummy node that head and tail point to. */
    constructor (ids: set<int>)
      ensures Init(State()) && Inv(State()) && threads.Keys == ids
    {
      nodes := [Node(Ptr(NULL, 0), 0)];
      head, tail := Ptr(0, 0), Ptr(0, 0);
      threads := map t | t in ids :: Rest;
      chain, hpos, tpos := [0], 0, 0;
    }

    method CasNext(at: Ptr, expected: Ptr, n: int) returns (ok: bool)
      requires Points(State(), at)
      modifies this`nodes, this`chain
      ensures ok == (old(NextOf(State(), at)) == expected)
      ensures State() == if ok then Link(old(State()), at, n) else old(State())
      ensures ok ==> nodes[at.node].next == Ptr(n, (expected.tag + 1) % 0x1_0000_0000)
    {
      ok := nodes[at.node].next == expected;
      if ok {
        nodes := nodes[at.node := nodes[at.node].(next := Ptr(n, Bump(expected.tag)))];
        chain := chain + [n];
      }
    }

    method CasTail(expected: Ptr, node: int)
      modifies this`tail, this`tpos
      ensures State() == SwingTail(old(State()), expected, node)
      ensures tail == if old(tail) == expected then Ptr(node, (expected.tag + 1) % 0x1_0000_0000) else old(tail)
    {
      if tail == expected {
        tail, tpos := Ptr(node, Bump(expected.tag)), tpos + 1;
      }
    }

    method CasHead(expected: Ptr, node: int) returns (ok: bool)
      modifies this`head, this`hpos
      ensures ok == (old(head) == expected)
      ensures State() ==
        if ok then old(State()).(head := Ptr(node, Bump(expected.tag)), hpos := old(hpos) + 1) else old(State())
      ensures head == if ok then Ptr(node, (expected.tag + 1) % 0x1_0000_0000) else old(head)
    {
      ok := head == expected;
      if ok {
        head, hpos := Ptr(node, Bump(expected.tag)), hpos + 1;
      }
    }

    method CallPush(t: int, v: int)
      requires Inv(State()) && t in threads && threads[t] == Rest
      modifies this
      ensures Step(old(State()), State(), t, Event.CallPush(t, v)) && Inv(State())
    {
      threads := threads[t := P1(|nodes|)];
      nodes := nodes + [Node(Ptr(NULL, 0), v)];
      StepKeeps(old(State()), State(), t, Event.CallPush(t, v));
    }

    method CallPop(t: int)
      requires Inv(State()) && t in threads && threads[t] == Rest
      modifies this
      ensures Step(old(State()), State(), t, Event.CallPop(t)) && Inv(State())
    {
      threads := threads[t := D1];
      StepKeeps(old(State()), State(), t, Event.CallPop(t));
    }

    /** The next shared access of a thread inside ms_queue_push. */
    method PushStep(t: int) returns (e: Event)
      requires Inv(State()) && t in threads
      requires Mine(threads[t]) != NULL || threads[t].P6? || threads[t].P7?
      modifies this
      ensures Step(old(State()), State(), t, e) && Inv(State())
    {
      e := Tau;
      assert LocalOk(State(), threads[t]);
      match threads[t] {
        case P1(n) =>
          threads := threads[t := P2(n, tail)];
        case P2(n, at) =>
          threads := threads[t := P3(n, at, nodes[at.node].next)];
        case P3(n, at, next) =>
          if at == tail {
            if next.node == NULL {
              threads := threads[t := P4(n, at, next)];
            } else {
              threads := threads[t := P5(n, at, next)];
            }
          } else {
            threads := threads[t := P1(n)];
          }
        case P4(n, at, next) =>
          var ok := CasNext(at, next, n);
          threads := threads[t := if ok then P6(n, at) else P1(n)];
        case P5(n, at, next) =>
          CasTail(at, next.node);
          threads := threads[t := P1(n)];
        case P6(n, at) =>
          CasTail(at, n);
          threads := threads[t := P7];
        case P7 =>
          threads, e := threads[t := Rest], RetPush(t);
      }
      StepKeeps(old(State()), State(), t, e);
    }

    /** The next shared access of a thread inside ms_queue_pop. */
    method PopStep(t: int) returns (e: Event)
      requires Inv(State()) && t in threads && threads[t] != Rest
      requires Mine(threads[t]) == NULL && !threads[t].P6? && !threads[t].P7?
      modifies this
      ensures Step(old(State()), State(), t, e) && Inv(State())
    {
      e := Tau;
      assert LocalOk(State(), threads[t]);
      match threads[t] {
        case D1 =>
          threads := threads[t := D2(head)];
        case D2(front) =>
          threads := threads[t := D3(front, tail)];
        case D3(front, back) =>
          threads := threads[t := D4(front, back, nodes[front.node].next)];
        case D4(front, back, next) =>
          if front == head {
            if front.node == back.node {
              if next.node == NULL {
                threads := threads[t := D9];
              } else {
                threads := threads[t := D5(back, next)];
              }
            } else {
              threads := threads[t := D6(front, next)];
            }
          } else {
            threads := threads[t := D1];
          }
        case D5(back, next) =>
          CasTail(back, next.node);
          threads := threads[t := D1];
        case D6(front, next) =>
          threads := threads[t := D7(front, next, nodes[next.node].val)];
        case D7(front, next, ret) =>
          var ok := CasHead(front, next.node);
          threads := threads[t := if ok then D8(ret) else D1];
        case D8(ret) =>
          threads, e := threads[t := Rest], RetPop(t, ret);
        case D9 =>
          threads, e := threads[t := Rest], RetPop(t, EMPTY);
      }
      StepKeeps(old(State()), State(), t, e);
    }

    /** One turn; one that does not fit where the thread stands is passed over. */
    method Take(turn: Turn) returns (e: Option<Event>)
      requires Inv(State())
      modifies this
      ensures Inv(State())
      ensures e.Some? <==> old(Fits(State(), turn))
      ensures e.None? ==> State() == old(State())
      ensures e.Some? ==> Step(old(State()), State(), turn.t, e.value) && Shows(turn, (turn.t, e.value))
    {
      if turn.t !in threads {
        return None;
      }
      var l := threads[turn.t];
      match turn {
        case Push(t, v) =>
          if l == Rest {
            CallPush(t, v);
            return Some(Event.CallPush(t, v));
          }
        case Pop(t) =>
          if l == Rest {
            CallPop(t);
            return Some(Event.CallPop(t));
          }
        case Access(t) =>
          if Mine(l) != NULL || l.P6? || l.P7? {
            var shown := PushStep(t);
            return Some(shown);
          } else if l != Rest {
            var shown := PopStep(t);
            return Some(shown);
          }
      }
      return None;
    }

    /** Any schedule of any operations on a new queue: what the callers see is what they see
        in some run of the atomic queue. */
    method Execute(schedule: seq<Turn>) returns (events: seq<Event>, ghost run: seq<State>, ghost steps: seq<(int, Event)>, ghost abs: seq<Fifo>)
      requires Init(State())
      modifies this
      ensures IsRun(run, steps) && run[0] == old(State()) && run[|steps|] == State() && events == Events(steps)
      ensures Played(schedule, run, steps)
      ensures FifoRun(old(threads.Keys), abs, events)
    {
      events, run, steps := [], [State()], [];
      var i := 0;
      while i < |schedule|
        invariant 0 <= i <= |schedule|
        invariant IsRun(run, steps) && run[0] == old(State()) && run[|steps|] == State() && events == Events(steps)
        invariant Inv(State()) && Played(schedule[..i], run, steps)
      {
        assert schedule[..i] + [schedule[i]] == schedule[..i + 1];
        var e := Take(schedule[i]);
        if e.None? {
          PassedOver(schedule[..i], run, steps, schedule[i]);
        } else {
          PlayedOn(schedule[..i], run, steps, schedule[i], State(), e.value);
          RunGrows(run, steps, State(), schedule[i].t, e.value);
          run, steps, events := run + [State()], steps + [(schedule[i].t, e.value)], events + [e.value];
        }
        i := i + 1;
      }
      assert schedule[..i] == schedule;
      abs := Linearizable(run, steps);
    }
  }
}
