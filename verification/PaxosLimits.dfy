/** Neither delivery condition of the agreement theorem can be dropped: two runs that keep
    one of them, even in its simple form, and in which two values are chosen. */
module PaxosLimits {
  import opened Ids
  import opened Majorities
  import opened Wrappers
  import opened PaxosRules
  import opened Paxos

  datatype Hypothesis = LateReports | LatePrepares

  /** What is still kept: one of the exact conditions, and its simple form too. */
  ghost predicate Kept(s: State, a: Action, h: Hypothesis) {
    match h
    case LateReports => NoLateReport(s, a) && NoSwitch(s, a)
    case LatePrepares => NoLatePrepare(s, a) && ReportWhole(s, a)
  }

  ghost predicate Leads(run: seq<State>, acts: seq<Action>, h: Hypothesis, s: State) {
    && IsRun(run, acts) && run[|acts|] == s
    && forall i :: 0 <= i < |acts| ==> Kept(run[i], acts[i], h)
  }

  ghost predicate Reachable(s: State, h: Hypothesis) {
    exists run, acts :: Leads(run, acts, h, s)
  }

  lemma Reach(s: State, a: Action, s': State, h: Hypothesis)
    requires Reachable(s, h) && Step(s, s', a) && Kept(s, a, h)
    ensures Reachable(s', h)
  {
    var run, acts :| Leads(run, acts, h, s);
    assert Leads(run + [s'], acts + [a], h, s');
  }

  // ---- Building runs -----------------------------------------------------------------------

  /** The servers are xs. */
  ghost predicate Servers(s: State, xs: set<int>) {
    s.acceptors.Keys == xs && s.counters.Keys == xs && |s.acceptors| == |xs|
  }

  /** Proposal id stands at p, having asked the servers xs. */
  ghost predicate Heard(s: State, id: Id, p: Proposal, xs: set<int>) {
    && id in s.proposals && s.proposals[id] == p
    && id in s.counted && s.counted[id] == xs
    && forall k :: k in s.answers && k.id == id ==> k.server in xs
  }

  function Requested(s: State, id: Id, x: int): State
    requires x in s.acceptors && x in s.counters
  {
    s.(counters := s.counters[x := s.counters[x] + 1],
       acceptors := s.acceptors[x := Promise(s.acceptors[x], id)],
       answers := s.answers[Key(id, x) := Report(s.acceptors[x].accepted, id)])
  }

  function Answered(s: State, id: Id, x: int, p: Proposal): State
    requires id in s.counted
  {
    s.(proposals := s.proposals[id := p], counted := s.counted[id := s.counted[id] + {x}],
       accepts := if p.count > |s.acceptors| / 2 then s.accepts + {Vote(id, p.value)} else s.accepts)
  }

  /** A request to server x, whose report is r, and right after it the answer. */
  lemma Ask(s: State, all: set<int>, id: Id, p: Proposal, xs: set<int>, x: int, r: Option<Vote>, h: Hypothesis)
    returns (s': State)
    requires Reachable(s, h) && Servers(s, all) && Heard(s, id, p, xs) && x in all && x !in xs
    requires Report(s.acceptors[x].accepted, id) == r
    requires h.LatePrepares? ==> forall e :: e in s.acceptors[x].accepted ==> !Gt(e.id, id)
    requires h.LatePrepares? ==> s.votes == {} || p.count > |all| / 2
    requires h.LateReports? ==> p.count <= |all| / 2
    ensures Reachable(s', h) && Servers(s', all) && Heard(s', id, Count(p, r), xs + {x})
    ensures forall i: Id, q, ys :: i != id && Heard(s, i, q, ys) ==> Heard(s', i, q, ys)
    ensures s'.acceptors == s.acceptors[x := Promise(s.acceptors[x], id)] && s'.votes == s.votes
    ensures s.accepts <= s'.accepts && (p.count + 1 > |all| / 2 ==> Vote(id, Count(p, r).value) in s'.accepts)
  {
    var s1 := Requested(s, id, x);
    SameServers(s, s1);
    Reach(s, Request(id, x), s1, h);
    s' := Answered(s1, id, x, Count(p, r));
    Reach(s1, Answer(id, x), s', h);
  }

  lemma Deliver(s: State, all: set<int>, v: Vote, x: int, h: Hypothesis) returns (s': State)
    requires Reachable(s, h) && Servers(s, all) && v in s.accepts && x in all && !Refuses(s.acceptors[x], v.id)
    ensures Reachable(s', h) && Servers(s', all)
    ensures s'.acceptors == s.acceptors[x := Accept(s.acceptors[x], v)] && s'.votes == s.votes + {Cast(x, v)}
    ensures s' == s.(acceptors := s'.acceptors, votes := s'.votes)
  {
    s' := s.(acceptors := s.acceptors[x := Accept(s.acceptors[x], v)], votes := s.votes + {Cast(x, v)});
    SameServers(s, s');
    Reach(s, Action.Deliver(v, x), s', h);
  }

  lemma Start(s: State, all: set<int>, x: int, v: int, h: Hypothesis) returns (s': State)
    requires Reachable(s, h) && Servers(s, all) && x in all && v >= 0 && forall k :: k in s.answers ==> k.id.x != x
    ensures Reachable(s', h) && Servers(s', all) && Heard(s', Id(x, s.counters[x]), Proposal(v, 0, ZERO), {})
    ensures forall i: Id, q, ys :: i.x != x && Heard(s, i, q, ys) ==> Heard(s', i, q, ys)
    ensures s'.counters == s.counters[x := s.counters[x] + 1]
    ensures s'.acceptors == s.acceptors && s'.answers == s.answers && s'.votes == s.votes
  {
    var id := Id(x, s.counters[x]);
    s' := s.(counters := s.counters[x := s.counters[x] + 1], proposals := s.proposals[id := Proposal(v, 0, ZERO)],
             counted := s.counted[id := {}], proposed := s.proposed + {v});
    Reach(s, Action.Start(x, v), s', h);
  }

  function Nobody(xs: set<int>): State {
    State(map x | x in xs :: Acceptor(None, []), map x | x in xs :: 1, map[], map[], map[], {}, {}, {})
  }

  lemma Begin(xs: set<int>, h: Hypothesis)
    requires forall x :: x in xs ==> x >= 0
    ensures Reachable(Nobody(xs), h)
  {
    assert Leads([Nobody(xs)], [], h, Nobody(xs));
  }

  lemma ReportNone(id: Id)
    ensures Report([], id) == None
  {
  }

  lemma ReportOne(v: Vote, id: Id)
    requires v.value >= 0 && Gt(v.id, ZERO)
    ensures Report([v], id) == if Gt(id, v.id) then Some(v) else None
  {
    assert [v][..0] == [];
    assert Best([v][..0], id) == Vote(ZERO, -1);
  }

  // ---- A late report ---------------------------------------------------------------------

  const P1 := Id(1, 1)
  const P2 := Id(2, 1)
  const P3 := Id(3, 1)
  const P4 := Id(4, 1)

  lemma Started(all: set<int>, h: Hypothesis) returns (s: State)
    requires {1, 2, 3} <= all && forall x :: x in all ==> x >= 0
    ensures Reachable(s, h) && Servers(s, all) && s.votes == {} && s.answers == map[]
    ensures forall x :: x in s.acceptors ==> s.acceptors[x] == Acceptor(None, []) && (x > 2 ==> s.counters[x] == 1)
    ensures Heard(s, P1, Proposal(7, 0, ZERO), {}) && Heard(s, P2, Proposal(8, 0, ZERO), {})
  {
    s := Nobody(all);
    assert s.acceptors.Keys == all && s.counters.Keys == all;
    assert |s.acceptors| == |s.acceptors.Keys|;
    Begin(all, h);
    s := Start(s, all, 1, 7, h);
    s := Start(s, all, 2, 8, h);
  }

  const THREE := {1, 2, 3}

  /** P2 gets its majority from servers 1 and 2. */
  lemma OneDecided() returns (s: State)
    ensures Reachable(s, LatePrepares) && Servers(s, THREE) && s.votes == {}
    ensures Heard(s, P1, Proposal(7, 0, ZERO), {}) && Heard(s, P2, Proposal(8, 2, ZERO), {1, 2})
    ensures s.acceptors[1] == s.acceptors[2] == Acceptor(Some(P2), []) && s.acceptors[3] == Acceptor(None, [])
    ensures Vote(P2, 8) in s.accepts
  {
    s := Started(THREE, LatePrepares);
    ReportNone(P2);
    s := Ask(s, THREE, P2, Proposal(8, 0, ZERO), {}, 1, None, LatePrepares);
    assert {} + {1} == {1};
    s := Ask(s, THREE, P2, Proposal(8, 1, ZERO), {1}, 2, None, LatePrepares);
    assert {1} + {2} == {1, 2};
  }

  /** Then P1 gets one from servers 3 and 1. */
  lemma BothDecided() returns (s: State)
    ensures Reachable(s, LatePrepares) && Servers(s, THREE) && s.votes == {}
    ensures Heard(s, P2, Proposal(8, 2, ZERO), {1, 2})
    ensures s.acceptors[1] == s.acceptors[2] == Acceptor(Some(P2), []) && s.acceptors[3] == Acceptor(Some(P1), [])
    ensures Vote(P1, 7) in s.accepts && Vote(P2, 8) in s.accepts
  {
    s := OneDecided();
    ReportNone(P1);
    s := Ask(s, THREE, P1, Proposal(7, 0, ZERO), {}, 3, None, LatePrepares);
    assert {} + {3} == {3};
    s := Ask(s, THREE, P1, Proposal(7, 1, ZERO), {3}, 1, None, LatePrepares);
  }

  /** Server 3 accepts 7 under P1 and then answers P2, which switches to 7 and broadcasts
      again. */
  lemma Switched() returns (s: State)
    ensures Reachable(s, LatePrepares) && Servers(s, THREE)
    ensures s.acceptors[1] == s.acceptors[2] == Acceptor(Some(P2), [])
    ensures Vote(P2, 8) in s.accepts && Vote(P2, 7) in s.accepts
  {
    s := BothDecided();
    s := Deliver(s, THREE, Vote(P1, 7), 3, LatePrepares);
    ReportOne(Vote(P1, 7), P2);
    s := Ask(s, THREE, P2, Proposal(8, 2, ZERO), {1, 2}, 3, Some(Vote(P1, 7)), LatePrepares);
  }

  lemma Voted(s: State, v: Vote, xs: set<int>)
    requires |xs| > |s.acceptors| / 2 && forall x :: x in xs ==> x in s.acceptors && Cast(x, v) in s.votes
    ensures Chosen(s, v)
  {
    forall x | x in xs ensures x in Voters(s, v) {}
    Within(Voters(s, v), xs);
  }

  /** If a decided proposal may switch, 8 and 7 can both be chosen, even under the same id,
      though every request comes in time and every report is whole. */
  lemma LateReportBreaks() returns (s: State)
    ensures Reachable(s, LatePrepares) && Chosen(s, Vote(P2, 8)) && Chosen(s, Vote(P2, 7))
  {
    s := Switched();
    s := Deliver(s, THREE, Vote(P2, 8), 1, LatePrepares);
    s := Deliver(s, THREE, Vote(P2, 8), 2, LatePrepares);
    s := Deliver(s, THREE, Vote(P2, 7), 1, LatePrepares);
    s := Deliver(s, THREE, Vote(P2, 7), 2, LatePrepares);
    Voted(s, Vote(P2, 8), {1, 2});
    Voted(s, Vote(P2, 7), {1, 2});
  }

  // ---- A late prepare ----------------------------------------------------------------------

  const FIVE := {1, 2, 3, 4, 5}

  lemma AllStarted() returns (s: State)
    ensures Reachable(s, LateReports) && Servers(s, FIVE) && s.votes == {}
    ensures forall x :: x in s.acceptors ==> s.acceptors[x] == Acceptor(None, [])
    ensures Heard(s, P1, Proposal(7, 0, ZERO), {}) && Heard(s, P2, Proposal(8, 0, ZERO), {})
    ensures Heard(s, P3, Proposal(9, 0, ZERO), {}) && Heard(s, P4, Proposal(9, 0, ZERO), {})
  {
    s := Started(FIVE, LateReports);
    s := Start(s, FIVE, 3, 9, LateReports);
    s := Start(s, FIVE, 4, 9, LateReports);
  }

  /** What a proposal makes of the report of server x. */
  function After(s: State, id: Id, p: Proposal, x: int): Proposal
    requires x in s.acceptors
  {
    Count(p, Report(s.acceptors[x].accepted, id))
  }

  /** Two more servers of five answer a proposal. */
  lemma AskTwo(s: State, id: Id, p: Proposal, x: int, y: int) returns (s': State)
    requires Reachable(s, LateReports) && Servers(s, FIVE) && Heard(s, id, p, {}) && p.count == 0
    requires x in FIVE && y in FIVE && x != y
    ensures Reachable(s', LateReports) && Servers(s', FIVE) && s'.votes == s.votes && s.accepts <= s'.accepts
    ensures Heard(s', id, After(s, id, After(s, id, p, x), y), {x, y})
    ensures forall i: Id, q, ys :: i != id && Heard(s, i, q, ys) ==> Heard(s', i, q, ys)
    ensures forall u :: u in s'.acceptors ==>
      s'.acceptors[u] == if u == x || u == y then Promise(s.acceptors[u], id) else s.acceptors[u]
  {
    s' := Ask(s, FIVE, id, p, {}, x, Report(s.acceptors[x].accepted, id), LateReports);
    assert {} + {x} == {x};
    s' := Ask(s', FIVE, id, After(s, id, p, x), {x}, y, Report(s.acceptors[y].accepted, id), LateReports);
    assert {x} + {y} == {x, y};
  }

  /** A proposal gets its majority from servers x, y and z of five. */
  lemma AskThree(s: State, id: Id, own: int, x: int, y: int, z: int) returns (s': State)
    requires Reachable(s, LateReports) && Servers(s, FIVE) && Heard(s, id, Proposal(own, 0, ZERO), {})
    requires x in FIVE && y in FIVE && z in FIVE && x != y && y != z && x != z
    ensures Reachable(s', LateReports) && Servers(s', FIVE) && s'.votes == s.votes && s.accepts <= s'.accepts
    ensures var p := After(s, id, After(s, id, After(s, id, Proposal(own, 0, ZERO), x), y), z);
      Vote(id, p.value) in s'.accepts
    ensures forall i: Id, q, ys :: i != id && Heard(s, i, q, ys) ==> Heard(s', i, q, ys)
    ensures forall u :: u in s'.acceptors ==>
      s'.acceptors[u] == if u == x || u == y || u == z then Promise(s.acceptors[u], id) else s.acceptors[u]
  {
    var p := After(s, id, After(s, id, Proposal(own, 0, ZERO), x), y);
    s' := AskTwo(s, id, Proposal(own, 0, ZERO), x, y);
    s' := Ask(s', FIVE, id, p, {x, y}, z, Report(s.acceptors[z].accepted, id), LateReports);
  }

  lemma DeliverTwo(s: State, v: Vote, x: int, y: int) returns (s': State)
    requires Reachable(s, LateReports) && Servers(s, FIVE) && v in s.accepts && x in FIVE && y in FIVE && x != y
    requires !Refuses(s.acceptors[x], v.id) && !Refuses(s.acceptors[y], v.id)
    ensures Reachable(s', LateReports) && Servers(s', FIVE)
    ensures s' == s.(acceptors := s'.acceptors, votes := s.votes + {Cast(x, v), Cast(y, v)})
    ensures forall u :: u in s'.acceptors ==>
      s'.acceptors[u] == if u == x || u == y then Accept(s.acceptors[u], v) else s.acceptors[u]
  {
    s' := Deliver(s, FIVE, v, x, LateReports);
    s' := Deliver(s', FIVE, v, y, LateReports);
    assert s.votes + {Cast(x, v)} + {Cast(y, v)} == s.votes + {Cast(x, v), Cast(y, v)};
  }

  lemma VotedThree(s: State, v: Vote, x: int, y: int, z: int)
    requires Servers(s, FIVE) && x in FIVE && y in FIVE && z in FIVE && x != y && y != z && x != z
    requires Cast(x, v) in s.votes && Cast(y, v) in s.votes && Cast(z, v) in s.votes
    ensures Chosen(s, v)
  {
    Voted(s, v, {x, y, z});
  }

  /** Three of five servers accept v. */
  lemma DeliverThree(s: State, v: Vote, x: int, y: int, z: int) returns (s': State)
    requires Reachable(s, LateReports) && Servers(s, FIVE) && v in s.accepts
    requires x in FIVE && y in FIVE && z in FIVE && x != y && y != z && x != z
    requires !Refuses(s.acceptors[x], v.id) && !Refuses(s.acceptors[y], v.id) && !Refuses(s.acceptors[z], v.id)
    ensures Reachable(s', LateReports) && Servers(s', FIVE) && Chosen(s', v)
    ensures s' == s.(acceptors := s'.acceptors, votes := s'.votes) && s.votes <= s'.votes
    ensures forall u :: u in s'.acceptors ==>
      s'.acceptors[u] == if u == x || u == y || u == z then Accept(s.acceptors[u], v) else s.acceptors[u]
  {
    s' := DeliverTwo(s, v, x, y);
    s' := Deliver(s', FIVE, v, z, LateReports);
    VotedThree(s', v, x, y, z);
  }

  lemma FirstSent() returns (s: State)
    ensures Reachable(s, LateReports) && Servers(s, FIVE) && Vote(P1, 7) in s.accepts
    ensures Heard(s, P2, Proposal(8, 0, ZERO), {}) && Heard(s, P3, Proposal(9, 0, ZERO), {}) && Heard(s, P4, Proposal(9, 0, ZERO), {})
    ensures forall u :: u in s.acceptors ==> s.acceptors[u] == Acceptor(if u == 1 || u == 2 || u == 3 then Some(P1) else None, [])
  {
    s := AllStarted();
    FirstAnswers(s);
    s := AskThree(s, P1, 7, 1, 2, 3);
  }

  /** Servers without entries report nothing, and a proposal keeps its value. */
  lemma FirstAnswers(s: State)
    requires Servers(s, FIVE) && forall x :: x in s.acceptors ==> s.acceptors[x] == Acceptor(None, [])
    ensures After(s, P1, After(s, P1, After(s, P1, Proposal(7, 0, ZERO), 1), 2), 3).value == 7
    ensures forall x :: x in s.acceptors ==> Promise(s.acceptors[x], P1) == Acceptor(Some(P1), [])
  {
    ReportNone(P1);
  }

  /** P1 has 7 chosen by servers 1, 2 and 3. */
  lemma FirstChosen() returns (s: State)
    ensures Reachable(s, LateReports) && Servers(s, FIVE) && Chosen(s, Vote(P1, 7))
    ensures Heard(s, P2, Proposal(8, 0, ZERO), {}) && Heard(s, P3, Proposal(9, 0, ZERO), {}) && Heard(s, P4, Proposal(9, 0, ZERO), {})
    ensures forall u :: u in s.acceptors ==>
      s.acceptors[u] == if u == 1 || u == 2 || u == 3 then Acceptor(Some(P1), [Vote(P1, 7)]) else Acceptor(None, [])
  {
    s := FirstSent();
    assert Accept(Acceptor(Some(P1), []), Vote(P1, 7)) == Acceptor(Some(P1), [Vote(P1, 7)]);
    s := DeliverThree(s, Vote(P1, 7), 1, 2, 3);
  }

  /** P3 learns of 7 from them, and server 3 accepts it under P3 too: its entry forgets P1. */
  lemma Overwritten() returns (s: State)
    ensures Reachable(s, LateReports) && Servers(s, FIVE) && Chosen(s, Vote(P1, 7))
    ensures Heard(s, P2, Proposal(8, 0, ZERO), {}) && Heard(s, P4, Proposal(9, 0, ZERO), {})
    ensures s.acceptors[1] == s.acceptors[2] == Acceptor(Some(P3), [Vote(P1, 7)])
    ensures s.acceptors[3] == Acceptor(Some(P3), [Vote(P3, 7)])
    ensures s.acceptors[4] == s.acceptors[5] == Acceptor(None, [])
  {
    s := FirstChosen();
    ghost var s0 := s;
    ReportOne(Vote(P1, 7), P3);
    s := AskThree(s, P3, 9, 1, 2, 3);
    s := Deliver(s, FIVE, Vote(P3, 7), 3, LateReports);
    ChosenStays(s0, s, Vote(P1, 7));
  }

  lemma ChosenStays(s: State, s': State, v: Vote)
    requires Chosen(s, v) && s'.acceptors.Keys == s.acceptors.Keys && s.votes <= s'.votes
    ensures Chosen(s', v)
  {
    SameServers(s, s');
    Within(Voters(s', v), Voters(s, v));
  }

  /** The late prepare: P2 asks servers 3, 4 and 5, hears of nothing, and 4 and 5 accept 8. */
  lemma LowerAccepted() returns (s: State)
    ensures Reachable(s, LateReports) && Servers(s, FIVE) && Chosen(s, Vote(P1, 7))
    ensures Heard(s, P4, Proposal(9, 0, ZERO), {})
    ensures s.acceptors[1] == Acceptor(Some(P3), [Vote(P1, 7)])
    ensures s.acceptors[4] == s.acceptors[5] == Acceptor(Some(P2), [Vote(P2, 8)])
  {
    s := Overwritten();
    ghost var s0 := s;
    ReportNone(P2);
    ReportOne(Vote(P3, 7), P2);
    s := AskThree(s, P2, 8, 3, 4, 5);
    s := Deliver(s, FIVE, Vote(P2, 8), 4, LateReports);
    s := Deliver(s, FIVE, Vote(P2, 8), 5, LateReports);
    ChosenStays(s0, s, Vote(P1, 7));
  }

  /** If a report may leave out a raised vote, 8 can be chosen after 7 has been, though no
      report comes late. */
  lemma LatePrepareBreaks() returns (s: State)
    ensures Reachable(s, LateReports) && Chosen(s, Vote(P1, 7)) && Chosen(s, Vote(P4, 8))
  {
    s := LowerAccepted();
    ghost var s0 := s;
    ReportOne(Vote(P1, 7), P4);
    ReportOne(Vote(P2, 8), P4);
    s := AskThree(s, P4, 9, 1, 4, 5);
    s := DeliverThree(s, Vote(P4, 8), 1, 4, 5);
    ChosenStays(s0, s, Vote(P1, 7));
  }
}
