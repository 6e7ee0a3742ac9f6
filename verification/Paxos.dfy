/** Prepare, response and accept for one NORMAL topic among a fixed set of servers, in any
    order of delivery, and when at most one value can be chosen. */
module Paxos {
  import opened Ids
  import opened Majorities
  import opened Wrappers
  import opened PaxosRules

  datatype Key = Key(id: Id, server: int)
  datatype Cast = Cast(server: int, vote: Vote)

  /** counters: every server's next proposal number. counted: whose answers a proposal has
      counted. answers: the responses sent. accepts: the ACCEPT packets broadcast.
      votes and proposed only record history: who accepted what, and the values started. */
  datatype State = State(
    acceptors: map<int, Acceptor>, counters: map<int, int>,
    proposals: map<Id, Proposal>, counted: map<Id, set<int>>,
    answers: map<Key, Option<Vote>>, accepts: set<Vote>,
    votes: set<Cast>, proposed: set<int>)

  datatype Action =
    | Start(server: int, value: int)    // a server starts a proposal
    | Request(id: Id, server: int)      // a server handles a proposal's request and answers
    | Answer(id: Id, server: int)       // the proposer handles that answer
    | Deliver(vote: Vote, server: int)  // a server handles an ACCEPT packet
    | Use(server: int)                  // another topic takes one of a server's numbers

  ghost predicate Init(s: State) {
    && (forall x :: x in s.acceptors ==> x >= 0 && s.acceptors[x] == Acceptor(None, []))
    && s.counters.Keys == s.acceptors.Keys && (forall x :: x in s.counters ==> s.counters[x] == 1)
    && s.proposals == map[] && s.counted == map[] && s.answers == map[]
    && s.accepts == {} && s.votes == {} && s.proposed == {}
  }

  ghost predicate Majority(s: State, count: nat) {
    count > |s.acceptors| / 2
  }

  ghost predicate StartStep(s: State, s': State, x: int, v: int) {
    && x in s.acceptors && x in s.counters && v >= 0
    && var id := Id(x, s.counters[x]);
      s' == s.(counters := s.counters[x := s.counters[x] + 1],
               proposals := s.proposals[id := Proposal(v, 0, ZERO)],
               counted := s.counted[id := {}], proposed := s.proposed + {v})
  }

  /** The handler makes a proposal of its own to read the request into, so a number goes. */
  ghost predicate RequestStep(s: State, s': State, id: Id, x: int) {
    && id in s.proposals && x in s.acceptors && x in s.counters && Key(id, x) !in s.answers
    && s' == s.(counters := s.counters[x := s.counters[x] + 1],
                acceptors := s.acceptors[x := Promise(s.acceptors[x], id)],
                answers := s.answers[Key(id, x) := Report(s.acceptors[x].accepted, id)])
  }

  ghost predicate AnswerStep(s: State, s': State, id: Id, x: int) {
    && id in s.proposals && id in s.counted && Key(id, x) in s.answers && x !in s.counted[id]
    && var p := Count(s.proposals[id], s.answers[Key(id, x)]);
      s' == s.(proposals := s.proposals[id := p], counted := s.counted[id := s.counted[id] + {x}],
               accepts := if Majority(s, p.count) then s.accepts + {Vote(id, p.value)} else s.accepts)
  }

  ghost predicate DeliverStep(s: State, s': State, v: Vote, x: int) {
    && v in s.accepts && x in s.acceptors
    && s' == s.(acceptors := s.acceptors[x := Accept(s.acceptors[x], v)],
                votes := if Refuses(s.acceptors[x], v.id) then s.votes else s.votes + {Cast(x, v)})
  }

  ghost predicate UseStep(s: State, s': State, x: int) {
    x in s.counters && s' == s.(counters := s.counters[x := s.counters[x] + 1])
  }

  ghost predicate Step(s: State, s': State, a: Action) {
    match a
    case Start(x, v) => StartStep(s, s', x, v)
    case Request(id, x) => RequestStep(s, s', id, x)
    case Answer(id, x) => AnswerStep(s, s', id, x)
    case Deliver(v, x) => DeliverStep(s, s', v, x)
    case Use(x) => UseStep(s, s', x)
  }

  /** A response that comes after the first majority and reports a higher id than the ones
      before it reports the proposal's own value. */
  ghost predicate NoSwitch(s: State, a: Action) {
    a.Answer? && Key(a.id, a.server) in s.answers && Decided(s, a.id) ==>
      var p, r := s.proposals[a.id], s.answers[Key(a.id, a.server)];
      r.Some? && Gt(r.value.id, p.maxId) ==> r.value.value == p.value
  }

  /** A server that answers an undecided proposal has accepted nothing between the entry it
      reports and the proposal's id. */
  ghost predicate ReportWhole(s: State, a: Action) {
    a.Request? && a.server in s.acceptors && !Decided(s, a.id) ==>
      NothingBetween(s, a.server, Top(Report(s.acceptors[a.server].accepted, a.id)), a.id)
  }

  ghost predicate IsRun(run: seq<State>, acts: seq<Action>) {
    && |run| == |acts| + 1 && Init(run[0])
    && forall i :: 0 <= i < |acts| ==> Step(run[i], run[i + 1], acts[i])
  }

  ghost predicate Guarded(run: seq<State>, acts: seq<Action>)
    requires |run| == |acts| + 1
  {
    forall i :: 0 <= i < |acts| ==> NoSwitch(run[i], acts[i]) && ReportWhole(run[i], acts[i])
  }

  /** The servers that accepted v. */
  ghost function Voters(s: State, v: Vote): set<int> {
    set x | x in s.acceptors && Cast(x, v) in s.votes
  }

  /** A majority accepted the value under one id. */
  ghost predicate Chosen(s: State, v: Vote) {
    Majority(s, |Voters(s, v)|)
  }

  // ---- Invariant -----------------------------------------------------------------------

  ghost predicate Decided(s: State, id: Id) {
    id in s.proposals && Majority(s, s.proposals[id].count)
  }

  ghost predicate PromisedTo(s: State, x: int, id: Id) {
    x in s.acceptors && s.acceptors[x].promise.Some? && !Gt(id, s.acceptors[x].promise.value)
  }

  ghost predicate ProposalOk(s: State, id: Id)
    requires id in s.proposals
  {
    && id.y > 0 && id.x in s.counters && id.y < s.counters[id.x]
    && s.proposals[id].value >= 0 && s.proposals[id].value in s.proposed
    && id in s.counted && s.proposals[id].count == |s.counted[id]|
    && (forall x :: x in s.counted[id] ==> x in s.acceptors && Key(id, x) in s.answers)
    && (Decided(s, id) ==> Vote(id, s.proposals[id].value) in s.accepts)
  }

  ghost predicate ProposalsOk(s: State) {
    && s.counters.Keys == s.acceptors.Keys && (forall x :: x in s.counters ==> x >= 0 && s.counters[x] > 0)
    && (forall id :: id in s.proposals ==> ProposalOk(s, id))
  }

  /** One value per id. */
  ghost predicate AcceptsOk(s: State) {
    && (forall v :: v in s.accepts ==> Decided(s, v.id) && v.value == s.proposals[v.id].value)
    && (forall c :: c in s.votes ==> c.vote in s.accepts && c.server in s.acceptors)
  }

  ghost predicate PromisesOk(s: State) {
    forall k :: k in s.answers ==> k.id in s.proposals && PromisedTo(s, k.server, k.id)
  }

  /** The lists of accepted entries stand for the votes. */
  ghost predicate StoredOk(s: State) {
    && (forall x, e :: x in s.acceptors && e in s.acceptors[x].accepted ==> Cast(x, e) in s.votes)
    && (forall x, w {:trigger Covers(s.acceptors[x].accepted, w)} ::
          x in s.acceptors && Cast(x, w) in s.votes ==> Covers(s.acceptors[x].accepted, w))
  }

  /** Server x accepted nothing from c on and below id. */
  ghost predicate NothingBetween(s: State, x: int, c: Id, id: Id) {
    forall w :: Cast(x, w) in s.votes && Gt(id, w.id) ==> !Gt(w.id, c)
  }

  ghost predicate AnswerOk(s: State, id: Id, x: int, r: Option<Vote>) {
    && (r.Some? ==> Cast(x, r.value) in s.votes && Gt(id, r.value.id))
    && NothingBetween(s, x, Top(r), id)
  }

  ghost predicate AnswersOk(s: State) {
    forall k :: k in s.answers && !Decided(s, k.id) ==> AnswerOk(s, k.id, k.server, s.answers[k])
  }

  /** What an undecided proposal has counted: its value goes with the highest report. */
  ghost predicate TallyOk(s: State, id: Id)
    requires id in s.proposals && id in s.counted
  {
    var p := s.proposals[id];
    && (forall x :: x in s.counted[id] && Key(id, x) in s.answers ==> !Gt(Top(s.answers[Key(id, x)]), p.maxId))
    && (p.maxId == ZERO || (Gt(id, p.maxId) && Vote(p.maxId, p.value) in s.accepts))
  }

  ghost predicate TalliesOk(s: State) {
    forall id :: id in s.proposals && id in s.counted && !Decided(s, id) ==> TallyOk(s, id)
  }

  /** A majority q is bound to v.id and accepted nothing between c and v.id, and at c
      the value was v's too. */
  ghost predicate SafeBy(s: State, v: Vote, q: set<int>, c: Id) {
    && q <= s.acceptors.Keys && Majority(s, |q|)
    && (forall x :: x in q ==> PromisedTo(s, x, v.id) && NothingBetween(s, x, c, v.id))
    && (c == ZERO || (Gt(v.id, c) && Vote(c, v.value) in s.accepts))
  }

  ghost predicate Safe(s: State, v: Vote) {
    exists q, c :: SafeBy(s, v, q, c)
  }

  ghost predicate SafeOk(s: State) {
    forall v {:trigger Safe(s, v)} :: v in s.accepts ==> Safe(s, v)
  }

  ghost predicate Inv(s: State) {
    ProposalsOk(s) && AcceptsOk(s) && PromisesOk(s) && StoredOk(s) && AnswersOk(s) && TalliesOk(s) && SafeOk(s)
  }

  // ---- Nothing is taken back ---------------------------------------------------------------

  /** Promises only rise, accepts and votes only grow, and no one votes below its promise. */
  ghost predicate Grows(s: State, s': State) {
    && s'.acceptors.Keys == s.acceptors.Keys
    && (forall x, id :: PromisedTo(s, x, id) ==> PromisedTo(s', x, id))
    && s.accepts <= s'.accepts && s.votes <= s'.votes
    && (forall c, id :: c in s'.votes && c !in s.votes && PromisedTo(s, c.server, id) ==> !Gt(id, c.vote.id))
  }

  lemma SameServers(s: State, s': State)
    requires s'.acceptors.Keys == s.acceptors.Keys
    ensures |s'.acceptors| == |s.acceptors|
  {
  }

  lemma SafeStays(s: State, s': State, v: Vote, q: set<int>, c: Id)
    requires Grows(s, s') && SafeBy(s, v, q, c)
    ensures SafeBy(s', v, q, c)
  {
  }

  lemma StepGrows(s: State, s': State, a: Action)
    requires Step(s, s', a)
    ensures Grows(s, s')
  {
  }

  lemma SafeKept(s: State, s': State)
    requires Grows(s, s') && SafeOk(s)
    ensures forall v :: v in s.accepts ==> Safe(s', v)
  {
    forall v | v in s.accepts ensures Safe(s', v) {
      assert Safe(s, v);
      var q, c :| SafeBy(s, v, q, c);
      SafeStays(s, s', v, q, c);
    }
  }

  lemma AnswersKept(s: State, s': State)
    requires Grows(s, s') && PromisesOk(s) && AnswersOk(s)
    requires forall i :: Decided(s, i) ==> Decided(s', i)
    ensures forall k :: k in s.answers && !Decided(s', k.id) ==> AnswerOk(s', k.id, k.server, s.answers[k])
  {
  }

  lemma ProposalKept(s: State, s': State, id: Id)
    requires id in s.proposals && id in s'.proposals && ProposalOk(s, id) && s'.proposals[id] == s.proposals[id]
    requires id in s'.counted && s'.counted[id] == s.counted[id]
    requires s'.acceptors.Keys == s.acceptors.Keys && s.answers.Keys <= s'.answers.Keys && s.accepts <= s'.accepts
    requires s.proposed <= s'.proposed
    requires id.x in s'.counters && s.counters[id.x] <= s'.counters[id.x]
    ensures ProposalOk(s', id)
  {
  }

  lemma TallyKept(s: State, s': State, id: Id)
    requires id in s.proposals && ProposalOk(s, id) && TallyOk(s, id)
    requires id in s'.proposals && id in s'.counted
    requires s'.proposals[id] == s.proposals[id] && s'.counted[id] == s.counted[id] && s.accepts <= s'.accepts
    requires forall k :: k in s.answers ==> k in s'.answers && s'.answers[k] == s.answers[k]
    ensures TallyOk(s', id)
  {
  }

  // ---- Steps keep the invariant ---------------------------------------------------------------

  lemma FreshId(s: State, x: int)
    requires ProposalsOk(s) && x in s.counters
    ensures Id(x, s.counters[x]) !in s.proposals
  {
  }

  lemma StartKeeps(s: State, s': State, x: int, v: int)
    requires Inv(s) && StartStep(s, s', x, v)
    ensures Inv(s')
  {
    StepGrows(s, s', Start(x, v));
    FreshId(s, x);
    var id := Id(x, s.counters[x]);
    assert !Decided(s', id);
    forall i | i in s'.proposals ensures ProposalOk(s', i) {
      if i != id { ProposalKept(s, s', i); }
    }
    forall i | i in s'.proposals && !Decided(s', i) ensures TallyOk(s', i) {
      if i != id { TallyKept(s, s', i); }
    }
    AnswersKept(s, s');
    SafeKept(s, s');
  }

  lemma StoredHigh(s: State, x: int, id: Id, e: Vote)
    requires ProposalsOk(s) && AcceptsOk(s) && StoredOk(s) && !Decided(s, id)
    requires x in s.acceptors && e in s.acceptors[x].accepted
    ensures e.value >= 0 && Gt(e.id, ZERO) && Cast(x, e) in s.votes && e.id != id
  {
  }

  /** What is reported has been accepted, and below the id. */
  lemma ReportedVote(s: State, id: Id, x: int)
    requires ProposalsOk(s) && AcceptsOk(s) && StoredOk(s) && x in s.acceptors && !Decided(s, id)
    ensures var r := Report(s.acceptors[x].accepted, id);
      r.Some? ==> Cast(x, r.value) in s.votes && Gt(id, r.value.id)
  {
    var acc := s.acceptors[x].accepted;
    forall e | e in acc ensures e.value >= 0 && Gt(e.id, ZERO) && Cast(x, e) in s.votes {
      StoredHigh(s, x, id, e);
    }
    ReportIsHighest(acc, id);
  }

  /** A report stands for all of the server's votes below the id exactly if no vote was
      raised from between the two. */
  lemma ReportOk(s: State, id: Id, x: int)
    requires ProposalsOk(s) && AcceptsOk(s) && StoredOk(s) && x in s.acceptors && !Decided(s, id)
    ensures AnswerOk(s, id, x, Report(s.acceptors[x].accepted, id)) <==> ReportWhole(s, Request(id, x))
  {
    ReportedVote(s, id, x);
  }

  lemma RequestAnswers(s: State, s': State, id: Id, x: int)
    requires RequestStep(s, s', id, x) && ReportWhole(s, Request(id, x)) && Grows(s, s')
    requires ProposalsOk(s) && AcceptsOk(s) && StoredOk(s) && PromisesOk(s) && AnswersOk(s)
    ensures PromisesOk(s') && AnswersOk(s')
  {
    SameServers(s, s');
    AnswersKept(s, s');
    if !Decided(s, id) { ReportOk(s, id, x); }
    assert AnswerOk(s, id, x, s'.answers[Key(id, x)]) ==> AnswerOk(s', id, x, s'.answers[Key(id, x)]);
  }

  lemma RequestProposals(s: State, s': State, id: Id, x: int)
    requires RequestStep(s, s', id, x) && ProposalsOk(s) && TalliesOk(s)
    ensures ProposalsOk(s') && TalliesOk(s')
  {
    SameServers(s, s');
    forall i | i in s'.proposals ensures ProposalOk(s', i) {
      ProposalKept(s, s', i);
    }
    forall i | i in s'.proposals && !Decided(s', i) ensures TallyOk(s', i) {
      TallyKept(s, s', i);
    }
  }

  lemma RequestKeeps(s: State, s': State, id: Id, x: int)
    requires Inv(s) && RequestStep(s, s', id, x) && ReportWhole(s, Request(id, x))
    ensures Inv(s')
  {
    StepGrows(s, s', Request(id, x));
    RequestProposals(s, s', id, x);
    RequestAnswers(s, s', id, x);
    SafeKept(s, s');
  }

  /** Answering a request keeps the invariant exactly if the report is whole. */
  lemma RequestExact(s: State, s': State, id: Id, x: int)
    requires Inv(s) && RequestStep(s, s', id, x)
    ensures Inv(s') <==> ReportWhole(s, Request(id, x))
  {
    if ReportWhole(s, Request(id, x)) {
      RequestKeeps(s, s', id, x);
    } else {
      SameServers(s, s');
      assert !Decided(s', id) && !AnswerOk(s', id, x, s'.answers[Key(id, x)]);
    }
  }

  lemma UseKeeps(s: State, s': State, x: int)
    requires Inv(s) && UseStep(s, s', x)
    ensures Inv(s')
  {
    StepGrows(s, s', Use(x));
    forall i | i in s'.proposals ensures ProposalOk(s', i) {
      ProposalKept(s, s', i);
    }
    AnswersKept(s, s');
    SafeKept(s, s');
  }

  lemma StoredKeeps(s: State, s': State, v: Vote, x: int)
    requires StoredOk(s) && DeliverStep(s, s', v, x)
    ensures StoredOk(s')
  {
    KeepCovers(s.acceptors[x].accepted, v);
    forall y, w | y in s'.acceptors && Cast(y, w) in s'.votes ensures Covers(s'.acceptors[y].accepted, w) {
      assert Cast(y, w) in s.votes ==> Covers(s.acceptors[y].accepted, w);
    }
  }

  lemma DeliverKeeps(s: State, s': State, v: Vote, x: int)
    requires Inv(s) && DeliverStep(s, s', v, x)
    ensures Inv(s')
  {
    StepGrows(s, s', Deliver(v, x));
    SameServers(s, s');
    forall i | i in s'.proposals ensures ProposalOk(s', i) {
      ProposalKept(s, s', i);
    }
    forall i | i in s'.proposals && !Decided(s', i) ensures TallyOk(s', i) {
      TallyKept(s, s', i);
    }
    AnswersKept(s, s');
    StoredKeeps(s, s', v, x);
    SafeKept(s, s');
  }

  lemma TallyGrows(s: State, s': State, id: Id, x: int)
    requires AnswerStep(s, s', id, x) && ProposalsOk(s) && AcceptsOk(s) && TallyOk(s, id)
    requires AnswerOk(s, id, x, s.answers[Key(id, x)])
    ensures TallyOk(s', id)
  {
  }

  lemma BoundByAnswer(s: State, id: Id, x: int, c: Id)
    requires PromisesOk(s) && AnswersOk(s) && !Decided(s, id) && Key(id, x) in s.answers
    requires !Gt(Top(s.answers[Key(id, x)]), c)
    ensures PromisedTo(s, x, id) && NothingBetween(s, x, c, id)
  {
  }

  /** The first majority makes the proposal's value safe. */
  lemma MajoritySafe(s: State, s': State, id: Id, x: int)
    requires AnswerStep(s, s', id, x) && !Decided(s, id) && Decided(s', id)
    requires PromisesOk(s) && AnswersOk(s) && ProposalOk(s, id) && TallyOk(s', id)
    ensures SafeBy(s', Vote(id, s'.proposals[id].value), s'.counted[id], s'.proposals[id].maxId)
  {
    var q, c := s'.counted[id], s'.proposals[id].maxId;
    assert Gt(id, ZERO);
    forall y | y in q ensures PromisedTo(s', y, id) && NothingBetween(s', y, c, id) {
      assert Key(id, y) in s.answers;
      BoundByAnswer(s, id, y, c);
    }
    forall y | y in q ensures y in s'.acceptors.Keys {
      assert PromisedTo(s', y, id);
    }
    SameServers(s, s');
    assert ProposalOk(s, id);
  }

  lemma CountKeeps(s: State, s': State, id: Id, x: int)
    requires ProposalsOk(s) && AcceptsOk(s) && PromisesOk(s) && AnswerStep(s, s', id, x) && NoSwitch(s, Answer(id, x))
    requires Decided(s, id) || AnswerOk(s, id, x, s.answers[Key(id, x)])
    ensures ProposalsOk(s') && AcceptsOk(s')
  {
    assert ProposalOk(s, id) && PromisedTo(s, x, id);
    var r := s.answers[Key(id, x)];
    if r.Some? && !Decided(s, id) {
      assert Cast(x, r.value).vote in s.accepts;
      assert ProposalOk(s, r.value.id);
    }
    forall i | i in s'.proposals ensures ProposalOk(s', i) {
      if i != id { ProposalKept(s, s', i); }
    }
  }

  lemma AnswerTallies(s: State, s': State, id: Id, x: int)
    requires AnswerStep(s, s', id, x) && ProposalsOk(s) && AcceptsOk(s) && AnswersOk(s) && TalliesOk(s)
    ensures forall i :: i in s'.proposals && i in s'.counted && !Decided(s, i) ==> TallyOk(s', i)
  {
    forall i | i in s'.proposals && i in s'.counted && !Decided(s, i) ensures TallyOk(s', i) {
      if i == id { TallyGrows(s, s', id, x); } else { TallyKept(s, s', i); }
    }
  }

  lemma AnswerKeeps(s: State, s': State, id: Id, x: int)
    requires Inv(s) && AnswerStep(s, s', id, x) && NoSwitch(s, Answer(id, x))
    ensures Inv(s')
  {
    StepGrows(s, s', Answer(id, x));
    CountKeeps(s, s', id, x);
    AnswersKept(s, s');
    AnswerTallies(s, s', id, x);
    SafeKept(s, s');
    if !Decided(s, id) && Decided(s', id) {
      MajoritySafe(s, s', id, x);
    }
  }

  /** Counting a response keeps the invariant exactly if it does not make a decided
      proposal switch its value. */
  lemma AnswerExact(s: State, s': State, id: Id, x: int)
    requires Inv(s) && AnswerStep(s, s', id, x)
    ensures Inv(s') <==> NoSwitch(s, Answer(id, x))
  {
    if NoSwitch(s, Answer(id, x)) {
      AnswerKeeps(s, s', id, x);
    } else {
      assert ProposalOk(s, id);
      assert Vote(id, s.proposals[id].value) in s'.accepts;
    }
  }

  lemma StepExact(s: State, s': State, a: Action)
    requires Inv(s) && Step(s, s', a)
    ensures Inv(s') <==> NoSwitch(s, a) && ReportWhole(s, a)
  {
    match a
    case Start(x, v) => StartKeeps(s, s', x, v);
    case Request(id, x) => RequestExact(s, s', id, x);
    case Answer(id, x) => AnswerExact(s, s', id, x);
    case Deliver(v, x) => DeliverKeeps(s, s', v, x);
    case Use(x) => UseKeeps(s, s', x);
  }

  lemma StartsOk(s: State)
    requires Init(s)
    ensures Inv(s)
  {
  }

  lemma {:induction false} RunKeeps(run: seq<State>, acts: seq<Action>, i: nat)
    requires IsRun(run, acts) && Guarded(run, acts) && i < |run|
    ensures Inv(run[i])
  {
    if i == 0 {
      StartsOk(run[0]);
    } else {
      RunKeeps(run, acts, i - 1);
      assert Step(run[i - 1], run[i], acts[i - 1]) && NoSwitch(run[i - 1], acts[i - 1]);
      StepExact(run[i - 1], run[i], acts[i - 1]);
    }
  }

  /** The invariant holds all along a run exactly if no answer makes a decided proposal
      switch and every report that counts is whole. */
  lemma RunExact(run: seq<State>, acts: seq<Action>)
    requires IsRun(run, acts)
    ensures (forall i :: 0 <= i < |run| ==> Inv(run[i])) <==> Guarded(run, acts)
  {
    if Guarded(run, acts) {
      forall i | 0 <= i < |run| ensures Inv(run[i]) {
        RunKeeps(run, acts, i);
      }
    } else {
      var i :| 0 <= i < |acts| && !(NoSwitch(run[i], acts[i]) && ReportWhole(run[i], acts[i]));
      assert Step(run[i], run[i + 1], acts[i]);
      if Inv(run[i]) {
        StepExact(run[i], run[i + 1], acts[i]);
      }
    }
  }

  // ---- Agreement ------------------------------------------------------------------------------

  /** Once a value is chosen, every ACCEPT packet with a higher id carries it. */
  lemma {:induction false} ChosenBinds(s: State, v: Vote, w: Vote)
    requires ProposalsOk(s) && AcceptsOk(s) && SafeOk(s) && Chosen(s, v) && w in s.accepts && Gt(w.id, v.id)
    ensures w.value == v.value
    decreases w.id.y, w.id.x
  {
    assert Safe(s, w);
    var q, c :| SafeBy(s, w, q, c);
    assert |s.acceptors| == |s.acceptors.Keys|;
    var x := MajoritiesMeet(s.acceptors.Keys, s.acceptors.Keys, q, Voters(s, v));
    assert Cast(x, v) in s.votes && NothingBetween(s, x, c, w.id);
    assert ProposalOk(s, v.id);
    if c != v.id {
      assert ProposalOk(s, c);
      ChosenBinds(s, v, Vote(c, w.value));
    }
  }

  lemma ChosenSent(s: State, v: Vote)
    requires AcceptsOk(s) && Chosen(s, v)
    ensures v in s.accepts
  {
  }

  /** In every state that deliveries within the two conditions lead to, at most one value
      has been chosen, and it is one that was proposed. */
  lemma Agreement(run: seq<State>, acts: seq<Action>, i: nat, v: Vote, w: Vote)
    requires IsRun(run, acts) && Guarded(run, acts) && i < |run|
    requires Chosen(run[i], v) && Chosen(run[i], w)
    ensures v.value == w.value && v.value in run[i].proposed
  {
    RunKeeps(run, acts, i);
    ChosenSent(run[i], v);
    ChosenSent(run[i], w);
    assert ProposalOk(run[i], v.id);
    if Gt(w.id, v.id) {
      ChosenBinds(run[i], v, w);
    } else if Gt(v.id, w.id) {
      ChosenBinds(run[i], w, v);
    }
  }

  /** What was chosen is still stored, under its id or a higher one, by all who voted. */
  lemma ChosenStored(run: seq<State>, acts: seq<Action>, i: nat, v: Vote)
    requires IsRun(run, acts) && Guarded(run, acts) && i < |run|
    ensures forall x :: x in Voters(run[i], v) ==> Covers(run[i].acceptors[x].accepted, v)
  {
    RunKeeps(run, acts, i);
  }

  // ---- Two simple hypotheses ------------------------------------------------------------------

  /** No response after the first majority reports a higher id than the ones before it. */
  ghost predicate NoLateReport(s: State, a: Action) {
    a.Answer? && Key(a.id, a.server) in s.answers && Decided(s, a.id) ==>
      !Gt(Top(s.answers[Key(a.id, a.server)]), s.proposals[a.id].maxId)
  }

  /** No server receives a prepare request below an id it has already accepted. */
  ghost predicate NoLatePrepare(s: State, a: Action) {
    a.Request? && a.server in s.acceptors ==> forall e :: e in s.acceptors[a.server].accepted ==> !Gt(e.id, a.id)
  }

  ghost predicate InTime(run: seq<State>, acts: seq<Action>)
    requires |run| == |acts| + 1
  {
    forall i :: 0 <= i < |acts| ==> NoLateReport(run[i], acts[i]) && NoLatePrepare(run[i], acts[i])
  }

  /** A request that comes in time gets a whole report. */
  lemma InTimeWhole(s: State, id: Id, x: int)
    requires Inv(s) && NoLatePrepare(s, Request(id, x))
    ensures ReportWhole(s, Request(id, x))
  {
    if x in s.acceptors && !Decided(s, id) {
      var acc := s.acceptors[x].accepted;
      forall e | e in acc ensures e.value >= 0 && Gt(e.id, ZERO) && Cast(x, e) in s.votes && e.id != id {
        StoredHigh(s, x, id, e);
      }
      ReportIsHighest(acc, id);
      VotesBelow(s, x, Top(Report(acc, id)), id);
    }
  }

  lemma VotesBelow(s: State, x: int, c: Id, id: Id)
    requires StoredOk(s) && x in s.acceptors
    requires forall e :: e in s.acceptors[x].accepted ==> Gt(id, e.id) && !Gt(e.id, c)
    ensures NothingBetween(s, x, c, id)
  {
    forall w | Cast(x, w) in s.votes && Gt(id, w.id) ensures !Gt(w.id, c) {
      assert Covers(s.acceptors[x].accepted, w);
    }
  }

  lemma InTimeGuards(s: State, a: Action)
    requires Inv(s) && NoLateReport(s, a) && NoLatePrepare(s, a)
    ensures NoSwitch(s, a) && ReportWhole(s, a)
  {
    if a.Request? {
      InTimeWhole(s, a.id, a.server);
    }
  }

  /** Packets that come in time keep the invariant, and so a run of them is within the
      exact conditions. */
  lemma {:induction false} InTimeKeeps(run: seq<State>, acts: seq<Action>, i: nat)
    requires IsRun(run, acts) && InTime(run, acts) && i < |run|
    ensures Inv(run[i])
  {
    if i == 0 {
      StartsOk(run[0]);
    } else {
      InTimeKeeps(run, acts, i - 1);
      assert Step(run[i - 1], run[i], acts[i - 1]) && NoLateReport(run[i - 1], acts[i - 1]);
      InTimeGuards(run[i - 1], acts[i - 1]);
      StepExact(run[i - 1], run[i], acts[i - 1]);
    }
  }

  /** If no report and no prepare request comes late, at most one value is chosen. */
  lemma InTimeAgreement(run: seq<State>, acts: seq<Action>, i: nat, v: Vote, w: Vote)
    requires IsRun(run, acts) && InTime(run, acts) && i < |run|
    requires Chosen(run[i], v) && Chosen(run[i], w)
    ensures Guarded(run, acts) && v.value == w.value && v.value in run[i].proposed
  {
    forall j | 0 <= j < |run| ensures Inv(run[j]) {
      InTimeKeeps(run, acts, j);
    }
    RunExact(run, acts);
    Agreement(run, acts, i, v, w);
  }
}
