/** A proposal that nobody outbids gets its value chosen: a majority that is asked, answers
    and is sent the ACCEPT packet, with nothing in between, has accepted it. */
module PaxosProgress {
  import opened Ids
  import opened Majorities
  import opened Paxos
  import opened PaxosRules
  import opened Seqs
  import opened Wrappers

  /** Each of these servers is asked and its answer handled at once. */
  function Asking(id: Id, xs: seq<int>): seq<Action> {
    if xs == [] then []
    else Asking(id, xs[..|xs| - 1]) + [Request(id, xs[|xs| - 1]), Answer(id, xs[|xs| - 1])]
  }

  /** Each of them gets the ACCEPT packet. */
  function Accepting(v: Vote, xs: seq<int>): seq<Action> {
    if xs == [] then [] else Accepting(v, xs[..|xs| - 1]) + [Deliver(v, xs[|xs| - 1])]
  }

  /** These actions lead from s to s'. */
  ghost predicate Lead(run: seq<State>, acts: seq<Action>, s: State, s': State) {
    && |run| == |acts| + 1 && run[0] == s && run[|acts|] == s'
    && forall i :: 0 <= i < |acts| ==> Step(run[i], run[i + 1], acts[i])
  }

  lemma LeadMore(run: seq<State>, acts: seq<Action>, s: State, s': State, a: Action, s'': State)
    requires Lead(run, acts, s, s') && Step(s', s'', a)
    ensures Lead(run + [s''], acts + [a], s, s'')
  {
    var longer, more := run + [s''], acts + [a];
    forall i | 0 <= i < |more| ensures Step(longer[i], longer[i + 1], more[i]) {
      assert i < |acts| ==> Step(run[i], run[i + 1], acts[i]);
    }
  }

  lemma {:induction false} LeadOn(run: seq<State>, acts: seq<Action>, s: State, s': State, more: seq<State>, next: seq<Action>, s'': State)
    returns (whole: seq<State>)
    requires Lead(run, acts, s, s') && Lead(more, next, s', s'')
    ensures Lead(whole, acts + next, s, s'')
    decreases |next|
  {
    if next == [] {
      whole := run;
      assert acts + next == acts;
    } else {
      var n := |next| - 1;
      assert Step(more[n], more[n + 1], next[n]);
      var front := LeadOn(run, acts, s, s', more[..n + 1], next[..n], more[n]);
      LeadMore(front, acts + next[..n], s, more[n], next[n], s'');
      whole := front + [s''];
      assert acts + next[..n] + [next[n]] == acts + next;
    }
  }

  // ---- What the round starts from --------------------------------------------------------

  /** Proposal id has been started with value own, nobody has been asked yet, and every
      promise is to a lower id. */
  ghost predicate Fresh(s: State, id: Id, own: int) {
    && id in s.proposals && s.proposals[id] == Proposal(own, 0, ZERO) && id in s.counted && s.counted[id] == {}
    && (forall x :: Key(id, x) !in s.answers)
    && s.counters.Keys == s.acceptors.Keys
    && forall x :: x in s.acceptors && s.acceptors[x].promise.Some? ==> Gt(id, s.acceptors[x].promise.value)
  }

  /** Different servers, and a majority of all. */
  ghost predicate Enough(s: State, xs: seq<int>) {
    NoDup(xs) && (forall x :: x in xs ==> x in s.acceptors) && Majority(s, |xs|)
  }

  // ---- Asking ---------------------------------------------------------------------------

  /** What the proposal has made of the reports of xs: the value of the highest entry below
      its id, or its own if they have none. */
  ghost predicate Tallied(s: State, id: Id, own: int, xs: seq<int>, p: Proposal) {
    && p.count == |xs|
    && (forall x, e :: x in xs && x in s.acceptors && e in s.acceptors[x].accepted && Gt(id, e.id) ==> !Gt(e.id, p.maxId))
    && (p == Proposal(own, |xs|, ZERO) ||
        exists x :: x in xs && x in s.acceptors && Vote(p.maxId, p.value) in s.acceptors[x].accepted && Gt(id, p.maxId))
  }

  /** s' is s after xs have been asked and their answers counted. */
  ghost predicate Asked(s: State, s': State, id: Id, own: int, xs: seq<int>) {
    && s'.acceptors.Keys == s.acceptors.Keys && s'.counters.Keys == s.acceptors.Keys && s'.votes == s.votes
    && (forall x :: x in s.acceptors && x !in xs ==> s'.acceptors[x] == s.acceptors[x])
    && (forall x :: x in xs && x in s.acceptors ==> s'.acceptors[x] == s.acceptors[x].(promise := Some(id)))
    && id in s'.proposals && Tallied(s, id, own, xs, s'.proposals[id])
    && id in s'.counted && (forall x :: x in s'.counted[id] ==> x in xs)
    && (forall x :: Key(id, x) in s'.answers ==> x in xs)
    && (Majority(s, |xs|) ==> Vote(id, s'.proposals[id].value) in s'.accepts)
  }

  ghost predicate EntriesOk(s: State) {
    forall x, e :: x in s.acceptors && e in s.acceptors[x].accepted ==> e.value >= 0 && Gt(e.id, ZERO)
  }

  lemma TallyMore(s: State, id: Id, own: int, xs: seq<int>, x: int, p: Proposal)
    requires Tallied(s, id, own, xs, p) && EntriesOk(s) && x in s.acceptors
    ensures Tallied(s, id, own, xs + [x], Count(p, Report(s.acceptors[x].accepted, id)))
  {
    ReportIsHighest(s.acceptors[x].accepted, id);
    assert forall y :: y in xs + [x] <==> y in xs || y == x;
  }

  /** s1 after server x has promised and answered. */
  ghost function Promised(s1: State, id: Id, x: int): State
    requires x in s1.acceptors && x in s1.counters
  {
    s1.(counters := s1.counters[x := s1.counters[x] + 1],
        acceptors := s1.acceptors[x := s1.acceptors[x].(promise := Some(id))],
        answers := s1.answers[Key(id, x) := Report(s1.acceptors[x].accepted, id)])
  }

  lemma AskStep(s: State, s1: State, id: Id, own: int, xs: seq<int>, x: int)
    requires Fresh(s, id, own) && Asked(s, s1, id, own, xs) && x in s.acceptors && x !in xs
    ensures Step(s1, Promised(s1, id, x), Request(id, x))
  {
    assert s1.acceptors[x] == s.acceptors[x];
    PromiseIsHighest(s.acceptors[x], id);
    assert Promise(s.acceptors[x], id) == s.acceptors[x].(promise := Some(id));
  }

  /** mid after the answer of x has been counted. */
  ghost function Counted(mid: State, id: Id, x: int): State
    requires id in mid.proposals && id in mid.counted && Key(id, x) in mid.answers
  {
    var p := Count(mid.proposals[id], mid.answers[Key(id, x)]);
    mid.(proposals := mid.proposals[id := p], counted := mid.counted[id := mid.counted[id] + {x}],
         accepts := if Majority(mid, p.count) then mid.accepts + {Vote(id, p.value)} else mid.accepts)
  }

  /** Server x is asked, and its answer is counted. */
  lemma AskOne(s: State, s1: State, id: Id, own: int, xs: seq<int>, x: int) returns (mid: State, s2: State)
    requires Fresh(s, id, own) && EntriesOk(s) && Asked(s, s1, id, own, xs) && x in s.acceptors && x !in xs
    ensures Step(s1, mid, Request(id, x)) && Step(mid, s2, Answer(id, x)) && Asked(s, s2, id, own, xs + [x])
  {
    AskStep(s, s1, id, own, xs, x);
    mid := Promised(s1, id, x);
    s2 := Counted(mid, id, x);
    TallyMore(s, id, own, xs, x, s1.proposals[id]);
    AskedMore(s, s1, id, own, xs, x, s2);
  }

  lemma AskedMore(s: State, s1: State, id: Id, own: int, xs: seq<int>, x: int, s2: State)
    requires Asked(s, s1, id, own, xs) && x in s.acceptors && x !in xs
    requires s2 == Counted(Promised(s1, id, x), id, x)
    requires Tallied(s, id, own, xs + [x], s2.proposals[id])
    ensures Asked(s, s2, id, own, xs + [x])
  {
    assert s1.acceptors[x] == s.acceptors[x];
    assert s2.acceptors.Keys == s1.acceptors.Keys && s2.counters.Keys == s1.counters.Keys;
    assert forall y :: y in xs + [x] <==> y in xs || y == x;
  }

  lemma LeadTwo(run: seq<State>, acts: seq<Action>, s: State, s1: State, a: Action, mid: State, b: Action, s2: State)
    requires Lead(run, acts, s, s1) && Step(s1, mid, a) && Step(mid, s2, b)
    ensures Lead(run + [mid, s2], acts + [a, b], s, s2)
  {
    LeadMore(run, acts, s, s1, a, mid);
    LeadMore(run + [mid], acts + [a], s, mid, b, s2);
    assert run + [mid] + [s2] == run + [mid, s2] && acts + [a] + [b] == acts + [a, b];
  }

  lemma {:induction false} AskAll(s: State, id: Id, own: int, xs: seq<int>) returns (run: seq<State>, s': State)
    requires Fresh(s, id, own) && EntriesOk(s) && NoDup(xs) && forall x :: x in xs ==> x in s.acceptors
    ensures Lead(run, Asking(id, xs), s, s') && Asked(s, s', id, own, xs)
    decreases |xs|
  {
    if xs == [] {
      run, s' := [s], s;
    } else {
      var front, x := xs[..|xs| - 1], xs[|xs| - 1];
      assert xs == front + [x] && x !in front;
      var s1, mid;
      run, s1 := AskAll(s, id, own, front);
      mid, s' := AskOne(s, s1, id, own, front, x);
      LeadTwo(run, Asking(id, front), s, s1, Request(id, x), mid, Answer(id, x), s');
      run := run + [mid, s'];
    }
  }

  // ---- Accepting ------------------------------------------------------------------------

  /** All of xs have promised v's id, and the first n have accepted v. */
  ghost predicate Accepted(s: State, v: Vote, xs: seq<int>, n: nat) {
    && v in s.accepts && n <= |xs|
    && (forall x :: x in xs ==> x in s.acceptors && s.acceptors[x].promise == Some(v.id))
    && (forall i :: 0 <= i < n ==> Cast(xs[i], v) in s.votes)
  }

  lemma AcceptOne(s: State, v: Vote, xs: seq<int>, n: nat) returns (s': State)
    requires Accepted(s, v, xs, n) && n < |xs|
    ensures Step(s, s', Deliver(v, xs[n])) && Accepted(s', v, xs, n + 1)
    ensures s'.acceptors.Keys == s.acceptors.Keys && s'.proposals == s.proposals
  {
    var x := xs[n];
    s' := s.(acceptors := s.acceptors[x := Accept(s.acceptors[x], v)], votes := s.votes + {Cast(x, v)});
  }

  lemma {:induction false} AcceptAll(s: State, v: Vote, xs: seq<int>, n: nat) returns (run: seq<State>, s': State)
    requires Accepted(s, v, xs, 0) && n <= |xs|
    ensures Lead(run, Accepting(v, xs[..n]), s, s') && Accepted(s', v, xs, n)
    ensures s'.acceptors.Keys == s.acceptors.Keys && s'.proposals == s.proposals
    decreases n
  {
    if n == 0 {
      run, s' := [s], s;
    } else {
      var s1;
      run, s1 := AcceptAll(s, v, xs, n - 1);
      s' := AcceptOne(s1, v, xs, n - 1);
      assert xs[..n][..n - 1] == xs[..n - 1] && xs[..n][n - 1] == xs[n - 1];
      LeadMore(run, Accepting(v, xs[..n - 1]), s, s1, Deliver(v, xs[n - 1]), s');
      run := run + [s'];
    }
  }

  lemma {:induction false} DistinctMembers(xs: seq<int>)
    requires NoDup(xs)
    ensures |set x | x in xs| == |xs|
  {
    if xs != [] {
      var front, last := xs[..|xs| - 1], xs[|xs| - 1];
      DistinctMembers(front);
      assert (set x | x in xs) == (set x | x in front) + {last};
      assert last !in front;
    }
  }

  lemma AllVoted(s: State, v: Vote, xs: seq<int>)
    requires Accepted(s, v, xs, |xs|) && Enough(s, xs)
    ensures Chosen(s, v)
  {
    var voters := set x | x in xs;
    DistinctMembers(xs);
    forall x | x in voters ensures x in Voters(s, v) {
      var i :| 0 <= i < |xs| && xs[i] == x;
    }
    Within(Voters(s, v), voters);
  }

  // ---- The round --------------------------------------------------------------------------

  /** In every state in which a proposal has just been started and every promise is lower,
      for every majority: asking it and sending it the ACCEPT packet is possible and has the
      proposal's value chosen, which is that of the highest entry the majority had accepted
      below the id, or the proposal's own if it had none. */
  lemma RoundChooses(s: State, id: Id, own: int, xs: seq<int>) returns (run: seq<State>, s': State, v: Vote)
    requires EntriesOk(s) && Fresh(s, id, own) && Enough(s, xs)
    ensures v.id == id && Lead(run, Asking(id, xs) + Accepting(v, xs), s, s') && Chosen(s', v)
    ensures id in s'.proposals && s'.proposals[id].value == v.value && Tallied(s, id, own, xs, s'.proposals[id])
  {
    var asking, s1 := AskAll(s, id, own, xs);
    v := Vote(id, s1.proposals[id].value);
    AskedAccepts(s, s1, id, own, xs, v);
    var accepting;
    accepting, s' := AcceptAll(s1, v, xs, |xs|);
    assert xs[..|xs|] == xs;
    run := LeadOn(asking, Asking(id, xs), s, s1, accepting, Accepting(v, xs), s');
    SameMajority(s, s', xs);
    AllVoted(s', v, xs);
  }

  lemma AskedAccepts(s: State, s1: State, id: Id, own: int, xs: seq<int>, v: Vote)
    requires Asked(s, s1, id, own, xs) && Enough(s, xs) && v == Vote(id, s1.proposals[id].value)
    ensures Accepted(s1, v, xs, 0)
  {
  }

  lemma SameMajority(s: State, s': State, xs: seq<int>)
    requires Enough(s, xs) && s'.acceptors.Keys == s.acceptors.Keys
    ensures Enough(s', xs)
  {
    assert |s'.acceptors| == |s'.acceptors.Keys| && |s.acceptors| == |s.acceptors.Keys|;
  }

  lemma EntriesGood(s: State)
    requires Inv(s)
    ensures EntriesOk(s)
  {
    forall x, e | x in s.acceptors && e in s.acceptors[x].accepted ensures e.value >= 0 && Gt(e.id, ZERO) {
      assert Cast(x, e) in s.votes && Cast(x, e).vote in s.accepts;
      assert ProposalOk(s, e.id);
    }
  }

  lemma StartFresh(s: State, s': State, x: int, own: int)
    requires Inv(s) && StartStep(s, s', x, own)
    requires forall y :: y in s.acceptors && s.acceptors[y].promise.Some? ==> Gt(Id(x, s.counters[x]), s.acceptors[y].promise.value)
    ensures EntriesOk(s') && Fresh(s', Id(x, s.counters[x]), own)
  {
    EntriesGood(s);
    forall k | k in s.answers ensures k.id.x in s.counters && k.id.y < s.counters[k.id.x] {
      assert k.id in s.proposals && ProposalOk(s, k.id);
    }
  }

  /** In every reachable state, a server whose next number makes an id above every promise
      can have its proposal chosen by any majority: it starts it, asks them, counts their
      answers and sends them the ACCEPT packet. */
  lemma Progress(s: State, x: int, own: int, xs: seq<int>) returns (run: seq<State>, s': State, v: Vote)
    requires Inv(s) && x in s.acceptors && own >= 0 && Enough(s, xs)
    requires forall y :: y in s.acceptors && s.acceptors[y].promise.Some? ==> Gt(Id(x, s.counters[x]), s.acceptors[y].promise.value)
    ensures v.id == Id(x, s.counters[x]) && Chosen(s', v)
    ensures Lead(run, [Start(x, own)] + (Asking(v.id, xs) + Accepting(v, xs)), s, s')
    ensures v.value == own || exists y, e :: y in xs && e in s.acceptors[y].accepted && e.value == v.value
  {
    var id := Id(x, s.counters[x]);
    var s1 := s.(counters := s.counters[x := s.counters[x] + 1], proposals := s.proposals[id := Proposal(own, 0, ZERO)],
                 counted := s.counted[id := {}], proposed := s.proposed + {own});
    StartFresh(s, s1, x, own);
    SameMajority(s, s1, xs);
    var rest;
    rest, s', v := RoundChooses(s1, id, own, xs);
    run := LeadOn([s, s1], [Start(x, own)], s, s1, rest, Asking(id, xs) + Accepting(v, xs), s');
  }
}
