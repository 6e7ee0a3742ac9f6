/** Lock-freedom of the Michael-Scott queue: a thread goes round its loop again only if some
    compare-and-swap succeeded meanwhile, and a whole run is bounded by the operations in it. */
module MsQueueProgress {
  import opened FifoSpec
  import opened MsQueue
  import opened Seqs
  import opened Sums

  /** The compare-and-swap that thread t is about to make succeeds. */
  ghost predicate CasSucceeds(s: State, t: int) {
    t in s.threads && match s.threads[t]
    case P4(_, tail, next) => Points(s, tail) && NextOf(s, tail) == next
    case P5(_, tail, _) => s.tail == tail
    case P6(_, tail) => s.tail == tail
    case D5(tail, _) => s.tail == tail
    case D7(head, _, _) => s.head == head
    case _ => false
  }

  /** Accesses of the thread at l, this one included, until its next successful
      compare-and-swap or return, should nobody else change shared memory. */
  ghost function ToGo(s: State, l: Local): nat {
    match l
    case Rest => 0
    case P1(_) => 4
    case P2(_, tail) => if s.tail == tail then 3 else 6
    case P3(_, tail, next) =>
      if s.tail != tail then 5
      else if next.node != NULL || (Points(s, tail) && NextOf(s, tail) == next) then 2 else 6
    case P4(_, tail, next) => if Points(s, tail) && NextOf(s, tail) == next then 1 else 5
    case P5(_, tail, _) => if s.tail == tail then 1 else 5
    case P6(_, tail) => if s.tail == tail then 1 else 2
    case P7 => 1
    case D1 => 6
    case D2(head) => if s.head == head then 5 else 9
    case D3(head, tail) =>
      if s.head != head then 8
      else if head.node == tail.node && s.tail != tail then 9
      else 4
    case D4(head, tail, next) =>
      if s.head != head then 7
      else if head.node == tail.node && next.node != NULL then (if s.tail == tail then 2 else 8)
      else 3
    case D5(tail, _) => if s.tail == tail then 1 else 7
    case D6(head, _) => if s.head == head then 2 else 8
    case D7(head, _, _) => if s.head == head then 1 else 7
    case D8(_) => 1
    case D9 => 1
  }

  const MOST := 9

  /** Steps that complete something: calls, returns and successful compare-and-swaps. */
  ghost predicate Productive(s: State, t: int, e: Event) {
    e != Tau || CasSucceeds(s, t)
  }

  lemma SnapPoints(s: State, t: int)
    requires Inv(s) && t in s.threads && s.threads[t].P3?
    ensures Points(s, s.threads[t].tail)
  {
  }

  lemma IdlePush(s: State, s': State, t: int)
    requires Step(s, s', t, Tau) && !CasSucceeds(s, t)
    requires s.threads[t].P3? ==> Points(s, s.threads[t].tail)
    requires Mine(s.threads[t]) != NULL || s.threads[t].P6?
    ensures s' == Go(s, t, s'.threads[t]) && ToGo(s', s'.threads[t]) < ToGo(s, s.threads[t])
  {
  }

  lemma IdlePop(s: State, s': State, t: int)
    requires Step(s, s', t, Tau) && !CasSucceeds(s, t)
    requires var l := s.threads[t]; l.D1? || l.D2? || l.D3? || l.D4? || l.D5? || l.D6? || l.D7?
    ensures s' == Go(s, t, s'.threads[t]) && ToGo(s', s'.threads[t]) < ToGo(s, s.threads[t])
  {
  }

  lemma SameMemory(s: State, s': State, l: Local)
    requires s'.nodes == s.nodes && s'.tail == s.tail && s'.head == s.head
    ensures ToGo(s', l) == ToGo(s, l)
  {
  }

  /** An unproductive step leaves shared memory alone and brings its thread nearer. */
  lemma IdleStep(s: State, s': State, t: int)
    requires Inv(s) && Step(s, s', t, Tau) && !CasSucceeds(s, t)
    ensures s' == Go(s, t, s'.threads[t])
    ensures ToGo(s', s'.threads[t]) < ToGo(s, s.threads[t])
    ensures forall u :: u in s.threads && u != t ==> ToGo(s', s'.threads[u]) == ToGo(s, s.threads[u])
  {
    var l := s.threads[t];
    assert LocalOk(s, l);
    if l.P3? { SnapPoints(s, t); }
    if l.P1? || l.P2? || l.P3? || l.P4? || l.P5? || l.P6? {
      IdlePush(s, s', t);
    } else {
      IdlePop(s, s', t);
    }
    forall u | u in s.threads && u != t ensures ToGo(s', s'.threads[u]) == ToGo(s, s.threads[u]) {
      SameMemory(s, s', s.threads[u]);
    }
  }

  // ---- Retries -------------------------------------------------------------------

  /** Thread t is at the top of its retry loop. */
  ghost predicate AtTop(s: State, t: int) {
    t in s.threads && (s.threads[t].P1? || s.threads[t].D1?)
  }

  /** From state i to state j no compare-and-swap succeeds and t does not return. */
  ghost predicate NoneSucceeds(run: seq<State>, steps: seq<(int, Event)>, t: int, i: nat, j: nat) {
    && i <= j <= |steps| < |run|
    && forall k :: i <= k < j ==> !CasSucceeds(run[k], steps[k].0) && (steps[k].0 == t ==> steps[k].1 == Tau)
  }

  /** The step from state k does not set t back, and brings it nearer if it is its own. */
  ghost predicate NotBack(run: seq<State>, steps: seq<(int, Event)>, t: int, k: int) {
    && 0 <= k < |steps| < |run| && t in run[k].threads && t in run[k + 1].threads
    && ToGo(run[k + 1], run[k + 1].threads[t]) <= ToGo(run[k], run[k].threads[t])
    && (steps[k].0 == t ==> ToGo(run[k + 1], run[k + 1].threads[t]) < ToGo(run[k], run[k].threads[t]))
  }

  lemma {:induction false} Descends(run: seq<State>, steps: seq<(int, Event)>, t: int, i: nat, j: nat)
    requires i < j < |run| && steps != [] && (forall k :: i <= k < j ==> NotBack(run, steps, t, k))
    requires i < |steps| && steps[i].0 == t
    ensures t in run[i].threads && t in run[j].threads && ToGo(run[j], run[j].threads[t]) < ToGo(run[i], run[i].threads[t])
    decreases j
  {
    assert NotBack(run, steps, t, i) && NotBack(run, steps, t, j - 1);
    if i < j - 1 {
      Descends(run, steps, t, i, j - 1);
    }
  }

  lemma {:induction false} ThreadStays(run: seq<State>, steps: seq<(int, Event)>, t: int, i: nat, k: nat)
    requires IsRun(run, steps) && i <= k < |run| && t in run[i].threads
    ensures t in run[k].threads
    decreases k
  {
    if i < k {
      ThreadStays(run, steps, t, i, k - 1);
      SameThreads(run[k - 1], run[k], steps[k - 1].0, steps[k - 1].1);
    }
  }

  lemma Nearer(run: seq<State>, steps: seq<(int, Event)>, t: int, i: nat, j: nat)
    requires IsRun(run, steps) && i < j < |run| && t in run[i].threads
    requires NoneSucceeds(run, steps, t, i, j) && steps[i].0 == t
    ensures t in run[j].threads && ToGo(run[j], run[j].threads[t]) < ToGo(run[i], run[i].threads[t])
  {
    forall k | i <= k < j ensures NotBack(run, steps, t, k) {
      ThreadStays(run, steps, t, i, k);
      OneStep(run, steps, t, k);
    }
    Descends(run, steps, t, i, j);
  }

  lemma OneStep(run: seq<State>, steps: seq<(int, Event)>, t: int, k: nat)
    requires IsRun(run, steps) && k < |steps| && t in run[k].threads
    requires !CasSucceeds(run[k], steps[k].0) && (steps[k].0 == t ==> steps[k].1 == Tau)
    ensures t in run[k + 1].threads && ToGo(run[k + 1], run[k + 1].threads[t]) <= ToGo(run[k], run[k].threads[t])
    ensures steps[k].0 == t ==> ToGo(run[k + 1], run[k + 1].threads[t]) < ToGo(run[k], run[k].threads[t])
  {
    Structure(run, steps, k);
    OtherStep(run[k], run[k + 1], steps[k].0, steps[k].1, t);
  }

  /** A call or return leaves what others still have to do as it was. */
  lemma CallOrReturn(s: State, s': State, u: int, e: Event, t: int)
    requires Step(s, s', u, e) && e != Tau && t in s.threads && t != u && LocalOk(s, s.threads[t])
    requires s.threads[t].P3? ==> Points(s, s.threads[t].tail)
    ensures t in s'.threads && ToGo(s', s'.threads[t]) <= ToGo(s, s.threads[t])
  {
    assert s'.threads[t] == s.threads[t] && s'.head == s.head && s'.tail == s.tail;
    assert forall p :: Points(s, p) ==> Points(s', p) && NextOf(s', p) == NextOf(s, p);
  }

  /** A step without a successful compare-and-swap never sets another thread back. */
  lemma OtherStep(s: State, s': State, u: int, e: Event, t: int)
    requires Inv(s) && Step(s, s', u, e) && !CasSucceeds(s, u) && t in s.threads
    requires u == t ==> e == Tau
    ensures t in s'.threads && ToGo(s', s'.threads[t]) <= ToGo(s, s.threads[t])
    ensures u == t ==> ToGo(s', s'.threads[t]) < ToGo(s, s.threads[t])
  {
    if e == Tau {
      IdleStep(s, s', u);
    } else {
      assert LocalOk(s, s.threads[t]);
      CallOrReturn(s, s', u, e, t);
    }
  }

  /** A thread that leaves the top of its loop and comes back to it without returning has
      seen a successful compare-and-swap, by itself or another thread, in between. */
  lemma RetryMeansSuccess(run: seq<State>, steps: seq<(int, Event)>, t: int, i: nat, j: nat) returns (k: nat)
    requires IsRun(run, steps) && i < j < |run|
    requires AtTop(run[i], t) && AtTop(run[j], t) && run[i].threads[t].P1? == run[j].threads[t].P1?
    requires steps[i].0 == t
    requires forall x :: i <= x < j && steps[x].0 == t ==> steps[x].1 == Tau
    ensures i <= k < j && CasSucceeds(run[k], steps[k].0)
  {
    if x :| i <= x < j && CasSucceeds(run[x], steps[x].0) {
      k := x;
    } else {
      Nearer(run, steps, t, i, j);
      k := i;
    }
  }

  // ---- The cost of a whole run ------------------------------------------------------

  ghost function Distances(s: State): map<int, nat> {
    map t | t in s.threads :: ToGo(s, s.threads[t])
  }

  /** Successful compare-and-swaps so far: links, tail moves and head moves. */
  function Successes(s: State): int {
    |s.chain| - 1 + s.tpos + s.hpos
  }

  function CountCalls(steps: seq<(int, Event)>): nat {
    if steps == [] then 0
    else
      var e := steps[|steps| - 1].1;
      CountCalls(steps[..|steps| - 1]) + if e.CallPush? || e.CallPop? then 1 else 0
  }

  function CountPushes(steps: seq<(int, Event)>): nat {
    if steps == [] then 0
    else CountPushes(steps[..|steps| - 1]) + if steps[|steps| - 1].1.CallPush? then 1 else 0
  }

  function CountReturns(steps: seq<(int, Event)>): nat {
    if steps == [] then 0
    else
      var e := steps[|steps| - 1].1;
      CountReturns(steps[..|steps| - 1]) + if e.RetPush? || e.RetPop? then 1 else 0
  }

  /** What one step may cost: one, and every thread set back to the farthest distance. */
  function Weight(s: State): nat {
    MOST * |s.threads| + 1
  }

  lemma CasCounts(s: State, s': State, t: int, e: Event)
    requires Inv(s) && Step(s, s', t, e)
    ensures Successes(s') == Successes(s) + if CasSucceeds(s, t) then 1 else 0
    ensures CasSucceeds(s, t) ==> e == Tau
  {
    assert LocalOk(s, s.threads[t]);
  }

  lemma FarAway(s: State)
    ensures Sum(Distances(s)) < Weight(s)
  {
    assert Distances(s).Keys == s.threads.Keys;
    assert |Distances(s)| == |Distances(s).Keys| == |s.threads.Keys| == |s.threads|;
    forall t | t in Distances(s) ensures Distances(s)[t] <= MOST {
      assert ToGo(s, s.threads[t]) <= MOST;
    }
    SumBound(Distances(s), MOST);
  }

  lemma SameThreads(s: State, s': State, t: int, e: Event)
    requires Step(s, s', t, e)
    ensures s'.threads.Keys == s.threads.Keys && |s'.threads| == |s.threads|
  {
  }

  /** An unproductive step uses up one unit of distance. */
  lemma IdleCost(s: State, s': State, t: int)
    requires Inv(s) && Step(s, s', t, Tau) && !CasSucceeds(s, t)
    ensures Sum(Distances(s')) < Sum(Distances(s))
  {
    IdleStep(s, s', t);
    var d := ToGo(s', s'.threads[t]);
    assert Distances(s') == Distances(s)[t := d];
    SumUpdate(Distances(s), t, d);
  }

  /** Steps that move some operation on: successes, calls and returns. */
  function Moves(s: State, steps: seq<(int, Event)>): int {
    Successes(s) + CountCalls(steps) + CountReturns(steps)
  }

  ghost predicate WithinBudget(s: State, steps: seq<(int, Event)>, weight: nat) {
    |steps| + Sum(Distances(s)) <= weight * Moves(s, steps)
  }

  lemma CountsGrow(steps: seq<(int, Event)>, t: int, e: Event)
    ensures var all := steps + [(t, e)];
      CountCalls(all) + CountReturns(all) == CountCalls(steps) + CountReturns(steps) + if e == Tau then 0 else 1
  {
  }

  lemma MovesGrow(s: State, s': State, steps: seq<(int, Event)>, t: int, e: Event)
    requires Inv(s) && Step(s, s', t, e)
    ensures Moves(s', steps + [(t, e)]) == Moves(s, steps) + if Productive(s, t, e) then 1 else 0
  {
    CasCounts(s, s', t, e);
    CountsGrow(steps, t, e);
  }

  /** A productive step may set every thread back; any other brings one nearer. */
  lemma DistanceStep(s: State, s': State, t: int, e: Event)
    requires Inv(s) && Step(s, s', t, e)
    ensures if Productive(s, t, e) then Sum(Distances(s')) < Weight(s) else Sum(Distances(s')) < Sum(Distances(s))
    ensures Weight(s') == Weight(s)
  {
    SameThreads(s, s', t, e);
    if Productive(s, t, e) {
      FarAway(s');
    } else {
      IdleCost(s, s', t);
    }
  }

  lemma Pays(n: nat, d: nat, d': nat, w: nat, k: int, productive: bool)
    requires n + d <= w * k && if productive then d' < w else d' < d
    ensures n + 1 + d' <= w * if productive then k + 1 else k
  {
    assert w * (k + 1) == w * k + w;
  }

  lemma StepCost(s: State, s': State, steps: seq<(int, Event)>, t: int, e: Event)
    requires Inv(s) && Step(s, s', t, e) && WithinBudget(s, steps, Weight(s))
    ensures WithinBudget(s', steps + [(t, e)], Weight(s')) && Weight(s') == Weight(s)
  {
    MovesGrow(s, s', steps, t, e);
    DistanceStep(s, s', t, e);
    Pays(|steps|, Sum(Distances(s)), Sum(Distances(s')), Weight(s), Moves(s, steps), Productive(s, t, e));
  }

  lemma StartBudget(s: State)
    requires Init(s)
    ensures WithinBudget(s, [], Weight(s))
  {
    assert forall t :: t in Distances(s) ==> Distances(s)[t] <= 0;
    SumBound(Distances(s), 0);
  }

  lemma {:induction false} Budget(run: seq<State>, steps: seq<(int, Event)>, i: nat)
    requires IsRun(run, steps) && i < |run|
    ensures WithinBudget(run[i], steps[..i], Weight(run[i])) && Weight(run[i]) == Weight(run[0])
  {
    if i == 0 {
      assert steps[..0] == [];
      StartBudget(run[0]);
    } else {
      Budget(run, steps, i - 1);
      Structure(run, steps, i - 1);
      assert steps[..i] == steps[..i - 1] + [(steps[i - 1].0, steps[i - 1].1)];
      StepCost(run[i - 1], run[i], steps[..i - 1], steps[i - 1].0, steps[i - 1].1);
    }
  }

  // Returns and links are bounded by calls

  function Busy(s: State): set<int> {
    set t | t in s.threads && s.threads[t] != Rest
  }

  lemma Resize<T>(before: set<T>, t: T, after: set<T>)
    ensures t !in before && after == before + {t} ==> |after| == |before| + 1
    ensures t in before && after == before - {t} ==> |after| == |before| - 1
  {
  }

  lemma BusyStep(s: State, s': State, t: int, e: Event)
    requires Step(s, s', t, e)
    ensures |Busy(s')| == |Busy(s)| + (if e.CallPush? || e.CallPop? then 1 else 0) - (if e.RetPush? || e.RetPop? then 1 else 0)
  {
    OneThread(s, s', t, e);
    assert Busy(s') == if s'.threads[t] == Rest then Busy(s) - {t} else Busy(s) + {t};
    Resize(Busy(s), t, Busy(s'));
  }

  lemma NodesStep(s: State, s': State, t: int, e: Event)
    requires Step(s, s', t, e)
    ensures |s'.nodes| == |s.nodes| + if e.CallPush? then 1 else 0
  {
  }

  /** A thread begins with a call and ends with a return. */
  lemma OneThread(s: State, s': State, t: int, e: Event)
    requires Step(s, s', t, e)
    ensures t in s.threads && s'.threads == s.threads[t := s'.threads[t]]
    ensures s.threads[t] == Rest <==> e.CallPush? || e.CallPop?
    ensures s'.threads[t] == Rest <==> e.RetPush? || e.RetPop?
  {
  }

  lemma {:induction false} CallsAndReturns(run: seq<State>, steps: seq<(int, Event)>, i: nat)
    requires IsRun(run, steps) && i < |run|
    ensures CountReturns(steps[..i]) + |Busy(run[i])| == CountCalls(steps[..i])
    ensures |run[i].nodes| == 1 + CountPushes(steps[..i])
  {
    if i == 0 {
      assert Init(run[0]);
      assert forall t :: t !in Busy(run[0]);
      assert Busy(run[0]) == {};
    } else {
      CallsAndReturns(run, steps, i - 1);
      assert steps[..i][..i - 1] == steps[..i - 1];
      BusyStep(run[i - 1], run[i], steps[i - 1].0, steps[i - 1].1);
      NodesStep(run[i - 1], run[i], steps[i - 1].0, steps[i - 1].1);
    }
  }

  lemma BudgetSpent(run: seq<State>, steps: seq<(int, Event)>)
    requires IsRun(run, steps)
    ensures |steps| <= Weight(run[0]) * Moves(run[|run| - 1], steps)
    ensures CountReturns(steps) <= CountCalls(steps)
  {
    var n := |steps|;
    assert steps[..n] == steps;
    Budget(run, steps, n);
    CallsAndReturns(run, steps, n);
  }

  /** Lock-freedom over a whole run: with n threads, every run takes at most 9n + 1 steps
      per call, per return and per successful compare-and-swap, and there are at most three
      successful compare-and-swaps to a push. So while steps are taken, operations finish. */
  lemma RunBound(run: seq<State>, steps: seq<(int, Event)>)
    requires IsRun(run, steps)
    ensures Successes(run[|run| - 1]) <= 3 * CountPushes(steps)
    ensures CountReturns(steps) <= CountCalls(steps)
    ensures |steps| <= (MOST * |run[0].threads| + 1) * (3 * CountPushes(steps) + CountCalls(steps) + CountReturns(steps))
  {
    BudgetSpent(run, steps);
    FewSuccesses(run, steps);
    Scale(Weight(run[0]), Moves(run[|run| - 1], steps),
          3 * CountPushes(steps) + CountCalls(steps) + CountReturns(steps));
  }

  lemma Scale(w: nat, a: int, b: int)
    requires a <= b
    ensures w * a <= w * b
  {
  }

  lemma FewSuccesses(run: seq<State>, steps: seq<(int, Event)>)
    requires IsRun(run, steps)
    ensures Successes(run[|run| - 1]) <= 3 * CountPushes(steps)
  {
    var n := |steps|;
    assert steps[..n] == steps;
    CallsAndReturns(run, steps, n);
    Structure(run, steps, n);
    Pigeonhole(run[n].chain, |run[n].nodes|);
  }
}
