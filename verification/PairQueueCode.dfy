/** The single-reader single-writer queue's fields changed in place, one shared access at a
    time, by the writer and by the reader. */
module PairQueueCode {
  import opened FifoSpec
  import opened PairQueue
  import opened Wrappers

  /** A scheduler's turn: the writer or the reader calls, or makes its next shared access. */
  datatype Turn = Push(d: int) | Pop | Write | Read

  /** A run of the machine that leads to state s. */
  ghost predicate RunTo(run: seq<State>, events: seq<Event>, s: State) {
    IsRun(run, events) && run[|events|] == s
  }

  lemma RunBegins(s: State) returns (run: seq<State>)
    requires Init(s)
    ensures RunTo(run, [], s) && Inv(s)
  {
    run := [s];
  }

  /** What a run shows, some run of the atomic queue shows. */
  lemma Shown(run: seq<State>, events: seq<Event>, s: State) returns (abs: seq<Fifo>)
    requires RunTo(run, events, s)
    ensures FifoRun({WRITER, READER}, abs, events)
  {
    abs := Refines(run, events);
  }

  lemma RunGrows(run: seq<State>, events: seq<Event>, s: State, s': State, e: Event)
    requires RunTo(run, events, s) && Step(s, s', e)
    ensures RunTo(run + [s'], events + [e], s')
  {
    var run', events' := run + [s'], events + [e];
    forall i | 0 <= i < |events'| ensures Step(run'[i], run'[i + 1], events'[i]) {
      if i < |events| { assert Step(run[i], run[i + 1], events[i]); }
    }
  }

  /** The turns that can be taken where the two threads stand. */
  predicate Fits(s: State, turn: Turn) {
    match turn
    case Push(d) => s.writer == WRest
    case Pop => s.reader == RRest
    case Write => s.writer != WRest
    case Read => s.reader != RRest
  }

  /** The event a turn shows, and that it is a step of the turn's own thread. */
  predicate Shows(turn: Turn, s: State, s': State, e: Event) {
    match turn
    case Push(d) => e == CallPush(WRITER, d) && s'.reader == s.reader
    case Pop => e == CallPop(READER) && s'.writer == s.writer
    case Write => (e == Tau || e == RetPush(WRITER)) && s'.writer != s.writer && s'.reader == s.reader
    case Read => (e == Tau || (e.RetPop? && e.t == READER)) && s'.reader != s.reader && s'.writer == s.writer
  }

  /** Behind run0, the steps of the run are the turns of the schedule that fit when they
      come, in order. */
  ghost predicate Played(schedule: seq<Turn>, run0: seq<State>, before: seq<Event>, run: seq<State>, events: seq<Event>)
    requires |run| == |events| + 1
    decreases |schedule|
  {
    var n := |events|;
    if schedule == [] then run == run0 && events == before
    else
      var turn, rest := schedule[|schedule| - 1], schedule[..|schedule| - 1];
      || (!Fits(run[n], turn) && Played(rest, run0, before, run, events))
      || (n > 0 && Fits(run[n - 1], turn) && Shows(turn, run[n - 1], run[n], events[n - 1])
          && Played(rest, run0, before, run[..n], events[..n - 1]))
  }

  lemma PlayedOn(schedule: seq<Turn>, run0: seq<State>, before: seq<Event>, run: seq<State>, events: seq<Event>,
                 turn: Turn, s: State, e: Event)
    requires |run| == |events| + 1 && Played(schedule, run0, before, run, events)
    requires Fits(run[|events|], turn) && Shows(turn, run[|events|], s, e)
    ensures Played(schedule + [turn], run0, before, run + [s], events + [e])
  {
    var run', events' := run + [s], events + [e];
    assert run'[..|events'|] == run && events'[..|events|] == events;
    assert (schedule + [turn])[..|schedule|] == schedule;
  }

  lemma PassedOver(schedule: seq<Turn>, run0: seq<State>, before: seq<Event>, run: seq<State>, events: seq<Event>, turn: Turn)
    requires |run| == |events| + 1 && Played(schedule, run0, before, run, events) && !Fits(run[|events|], turn)
    ensures Played(schedule + [turn], run0, before, run, events)
  {
    assert (schedule + [turn])[..|schedule|] == schedule;
  }

  class Queue {
    var elems: seq<Elem>
    var head: int
    var tail: int
    var last: int
    var writer: Writer
    var reader: Reader
    ghost var linked: nat

    ghost function State(): State
      reads this
    {
      PairQueue.State(elems, head, tail, last, writer, reader, linked)
    }

    constructor ()
      ensures Init(State()) && Inv(State()) && exists run :: RunTo(run, [], State())
    {
      elems, head, tail, last := [], NULL, NULL, NULL;
      writer, reader, linked := WRest, RRest, 0;
      new;
      ghost var run := RunBegins(State());
    }

    /** s_1r1w_queue_push takes a fresh element and fills it before anyone can see it. */
    method BeginPush(d: int)
      requires Inv(State()) && writer == WRest
      modifies this`elems, this`writer
      ensures Step(old(State()), State(), CallPush(WRITER, d)) && Inv(State())
      ensures Shows(Push(d), old(State()), State(), CallPush(WRITER, d))
    {
      writer := W1(|elems|);
      elems := elems + [Elem(NULL, d)];
      StepKeeps(old(State()), State(), CallPush(WRITER, d));
    }

    /** The next shared access inside s_1r1w_queue_push. */
    method PushStep() returns (e: Event)
      requires Inv(State()) && writer != WRest
      modifies this
      ensures Step(old(State()), State(), e) && Inv(State())
      ensures Shows(Write, old(State()), State(), e) && last == old(last)
    {
      e := Tau;
      match writer {
        case W1(n) =>
          if head == NULL {
            writer := W2(n);
          } else {
            writer := W4(n, head);
          }
        case W2(n) =>
          head, writer := n, W3(n);
        case W3(n) =>
          tail, writer, linked := n, W6, linked + 1;
        case W4(n, h) =>
          elems, writer, linked := elems[h := elems[h].(prev := n)], W5(n), linked + 1;
        case W5(n) =>
          head, writer := n, W6;
        case W6 =>
          writer, e := WRest, RetPush(WRITER);
      }
      assert WriterStep(old(State()), State(), e);
      StepKeeps(old(State()), State(), e);
    }

    method BeginPop()
      requires Inv(State()) && reader == RRest
      modifies this`reader
      ensures Step(old(State()), State(), CallPop(READER)) && Inv(State())
      ensures Shows(Pop, old(State()), State(), CallPop(READER))
    {
      reader := R1;
      StepKeeps(old(State()), State(), CallPop(READER));
    }

    /** The next shared access inside s_1r1w_queue_pop. */
    method PopStep() returns (e: Event)
      requires Inv(State()) && reader != RRest
      modifies this`tail, this`last, this`reader
      ensures Step(old(State()), State(), e) && Inv(State())
      ensures Shows(Read, old(State()), State(), e)
    {
      e := Tau;
      match reader {
        case R1 =>
          reader := if tail == NULL then R2 else R6;
        case R2 =>
          reader := if last == NULL then R5 else R3(last);
        case R3(l) =>
          reader := R4(elems[l].prev);
        case R4(p) =>
          tail, reader := p, R5;
        case R5 =>
          reader := if tail == NULL then R12 else R6;
        case R6 =>
          reader := R7(tail);
        case R7(n) =>
          last, reader := n, R8(n);
        case R8(n) =>
          reader := R9(n, elems[n].prev);
        case R9(n, p) =>
          tail, reader := p, R10(n);
        case R10(n) =>
          reader := R11(elems[n].data);
        case R11(d) =>
          reader, e := RRest, RetPop(READER, d);
        case R12 =>
          reader, e := RRest, RetPop(READER, EMPTY);
      }
      assert ReaderStep(old(State()), State(), e);
      StepKeeps(old(State()), State(), e);
    }

    /** One turn; one that does not fit where its thread stands is passed over. */
    method Take(turn: Turn) returns (e: Option<Event>)
      requires Inv(State())
      modifies this
      ensures Inv(State())
      ensures e.Some? <==> old(Fits(State(), turn))
      ensures e.None? ==> State() == old(State())
      ensures e.Some? ==> Step(old(State()), State(), e.value) && Shows(turn, old(State()), State(), e.value)
    {
      match turn {
        case Push(d) =>
          if writer == WRest {
            BeginPush(d);
            return Some(CallPush(WRITER, d));
          }
        case Pop =>
          if reader == RRest {
            BeginPop();
            return Some(CallPop(READER));
          }
        case Write =>
          if writer != WRest {
            var shown := PushStep();
            return Some(shown);
          }
        case Read =>
          if reader != RRest {
            var shown := PopStep();
            return Some(shown);
          }
      }
      return None;
    }

    /** The run, and the events it has shown, after one more turn. */
    method Advance(schedule: seq<Turn>, ghost run0: seq<State>, ghost before: seq<Event>, turn: Turn, events: seq<Event>, ghost run: seq<State>)
      returns (events': seq<Event>, ghost run': seq<State>)
      requires RunTo(run, events, State()) && Inv(State()) && Played(schedule, run0, before, run, events)
      modifies this
      ensures RunTo(run', events', State()) && Inv(State()) && events <= events'
      ensures Played(schedule + [turn], run0, before, run', events')
    {
      ghost var s := State();
      events', run' := events, run;
      var e := Take(turn);
      if e.None? {
        PassedOver(schedule, run0, before, run, events, turn);
      } else {
        RunGrows(run, events, s, State(), e.value);
        PlayedOn(schedule, run0, before, run, events, turn, State(), e.value);
        run', events' := run + [State()], events + [e.value];
      }
    }

    /** Any schedule of pushes and pops, behind any run so far: what the callers see is what
        they see in some run of the atomic queue. */
    method Execute(schedule: seq<Turn>, before: seq<Event>, ghost run0: seq<State>)
      returns (events: seq<Event>, ghost run: seq<State>, ghost abs: seq<Fifo>)
      requires RunTo(run0, before, State()) && Inv(State())
      modifies this
      ensures RunTo(run, events, State()) && Played(schedule, run0, before, run, events)
      ensures before <= events && FifoRun({WRITER, READER}, abs, events)
    {
      events, run := before, run0;
      var i := 0;
      while i < |schedule|
        invariant 0 <= i <= |schedule| && before <= events
        invariant RunTo(run, events, State()) && Inv(State())
        invariant Played(schedule[..i], run0, before, run, events)
      {
        events, run := Advance(schedule[..i], run0, before, schedule[i], events, run);
        assert schedule[..i] + [schedule[i]] == schedule[..i + 1];
        i := i + 1;
      }
      assert schedule[..i] == schedule;
      abs := Shown(run, events, State());
    }
  }
}
