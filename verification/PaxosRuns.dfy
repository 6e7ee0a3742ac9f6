/** The handlers of PaxosServer.dfy make the steps of Paxos.dfy: what a call of one does to a
    server or a proposal is a step of the runs there. */
module PaxosRuns {
  import opened Ids
  import opened Paxos
  import opened PaxosRules
  import opened PaxosServer
  import opened Seqs
  import opened Wrappers

  /** State s shows what the server holds for the topic. */
  ghost predicate Holds(server: Server, topic: string, s: State)
    reads server
  {
    && server.me in s.acceptors && s.acceptors[server.me] == server.Topic(topic)
    && server.me in s.counters && s.counters[server.me] == server.nextId
    && NoDup(server.servs) && (set x | x in server.servs) == s.acceptors.Keys
  }

  /** State s shows the record of a proposal that asked all of its servers. */
  ghost predicate Tracks(p: ProposalRecord, s: State)
    reads p
  {
    p.id in s.proposals && s.proposals[p.id] == p.State() && p.nserv == |s.acceptors|
  }

  lemma {:induction false} NoDupSize(xs: seq<nat>)
    requires NoDup(xs)
    ensures |set x: int | x in xs| == |xs|
  {
    if xs != [] {
      var front, last := xs[..|xs| - 1], xs[|xs| - 1];
      NoDupSize(front);
      assert last !in front;
      assert (set x: int | x in xs) == (set x: int | x in front) + {last};
    }
  }

  lemma ServerCount(server: Server, topic: string, s: State)
    requires Holds(server, topic, s)
    ensures |server.servs| == |s.acceptors|
  {
    NoDupSize(server.servs);
    assert (set x: int | x in server.servs) == s.acceptors.Keys;
    assert |s.acceptors| == |s.acceptors.Keys|;
  }

  method StartAt(server: Server, topic: string, ghost s: State, value: nat, active: set<nat>)
    returns (p: ProposalRecord, asked: seq<nat>, ghost s': State)
    requires Holds(server, topic, s) && server.me in server.servs
    modifies server`nextId
    ensures StartStep(s, s', server.me, value) && Holds(server, topic, s')
    ensures fresh(p) && Tracks(p, s') && p.id == Id(server.me, old(server.nextId))
    ensures asked == Reached(server.servs, active)
  {
    ServerCount(server, topic, s);
    var q, sent := server.Start(Normal, value, 0, active);
    p, asked := q, sent;
    s' := s.(counters := s.counters[server.me := s.counters[server.me] + 1],
             proposals := s.proposals[p.id := Proposal(value, 0, ZERO)],
             counted := s.counted[p.id := {}], proposed := s.proposed + {value});
  }

  /** The answer is the reply to the request. */
  method RequestAt(server: Server, topic: string, ghost s: State, id: Id)
    returns (reply: Reply, ghost s': State)
    requires Holds(server, topic, s) && id in s.proposals && Key(id, server.me) !in s.answers
    modifies server`nextId, server`response, server`responseVersion
    ensures RequestStep(s, s', id, server.me) && Holds(server, topic, s')
    ensures reply == Reported(s'.answers[Key(id, server.me)], Extra(None, None))
    ensures server.responseVersion == old(server.responseVersion)
  {
    reply := server.HandleRequest(topic, id, server.version, Normal, 0, -1);
    s' := s.(counters := s.counters[server.me := s.counters[server.me] + 1],
             acceptors := s.acceptors[server.me := Promise(s.acceptors[server.me], id)],
             answers := s.answers[Key(id, server.me) := Report(s.acceptors[server.me].accepted, id)]);
  }

  /** What is broadcast is the proposal's ACCEPT packet, from the first majority on. */
  method AnswerAt(p: ProposalRecord, ghost s: State, ghost from: int, report: Option<Vote>)
    returns (broadcast: Option<Vote>, ghost s': State)
    requires Tracks(p, s) && p.id in s.counted && from !in s.counted[p.id]
    requires Key(p.id, from) in s.answers && s.answers[Key(p.id, from)] == report
    modifies p
    ensures AnswerStep(s, s', p.id, from) && Tracks(p, s')
    ensures broadcast == if Decided(s', p.id) then Some(Vote(p.id, p.value)) else None
    ensures broadcast.Some? ==> broadcast.value in s'.accepts
  {
    broadcast := p.HandleResponse(report);
    s' := s.(proposals := s.proposals[p.id := p.State()], counted := s.counted[p.id := s.counted[p.id] + {from}],
             accepts := if Majority(s, p.count) then s.accepts + {Vote(p.id, p.value)} else s.accepts);
    SameServers(s, s');
  }

  /** An ACCEPT packet of the server's own version, which no change of members outdates. */
  method AcceptAt(server: Server, topic: string, ghost s: State, v: Vote) returns (ghost s': State)
    requires Holds(server, topic, s) && v in s.accepts && server.responseVersion <= server.version
    modifies server`accept
    ensures DeliverStep(s, s', v, server.me) && Holds(server, topic, s')
  {
    server.HandleAccept(topic, v, server.version, -1);
    s' := s.(acceptors := s.acceptors[server.me := Accept(s.acceptors[server.me], v)],
             votes := if Refuses(s.acceptors[server.me], v.id) then s.votes else s.votes + {Cast(server.me, v)});
  }

  lemma SameElsewhere<K, V>(m: map<K, V>, m': map<K, V>, k: K, other: K)
    requires m - {k} == m' - {k} && other != k
    ensures other in m <==> other in m'
    ensures other in m ==> m'[other] == m[other]
  {
    assert other in m <==> other in m - {k};
    assert other in m' <==> other in m' - {k};
    if other in m {
      assert (m - {k})[other] == (m' - {k})[other];
    }
  }

  /** A request about another topic, of any kind, only takes a number here. */
  method OtherAt(server: Server, topic: string, ghost s: State,
                 other: string, id: Id, version: int, kind: Kind, theServ: nat, newVersion: int)
    returns (reply: Reply, ghost s': State)
    requires Holds(server, topic, s) && other != topic
    modifies server`nextId, server`response, server`responseVersion
    ensures UseStep(s, s', server.me) && Holds(server, topic, s')
  {
    reply := server.HandleRequest(other, id, version, kind, theServ, newVersion);
    s' := s.(counters := s.counters[server.me := s.counters[server.me] + 1]);
    SameElsewhere(old(server.response), server.response, other, topic);
  }
}
