/** A server's Paxos state as its packet handlers change it, with every topic's promise and
    accepted entries; each handler follows PaxosRules for the topic it is about. */
module PaxosServer {
  import opened Ids
  import opened Membership
  import opened PaxosRules
  import opened Seqs
  import opened Wrappers

  datatype Kind = Normal | Add | Rm

  /** An entry kept for a server that was removed. */
  datatype Backup = Backup(topic: string, vote: Vote)

  /** What a reply to a change of members brings along: the backup for the server to be
      removed, and the accepted entries of every topic. */
  datatype Extra = Extra(backup: Option<seq<Backup>>, entries: Option<map<string, seq<Vote>>>)

  /** What a prepare request is answered with. */
  datatype Reply = BadVersion | Reported(report: Option<Vote>, extra: Extra)

  /** The members that can be reached, in order. */
  function Reached(servs: seq<nat>, active: set<nat>): (r: seq<nat>)
    ensures forall x :: x in r <==> x in servs && x in active
    ensures |r| <= |servs|
  {
    if servs == [] then []
    else
      var front, last := Reached(servs[..|servs| - 1], active), servs[|servs| - 1];
      if last in active then front + [last] else front
  }

  /** They keep their order, and none comes twice that is not there twice. */
  lemma {:induction false} ReachedInOrder(servs: seq<nat>, active: set<nat>, a: nat, b: nat)
    ensures Precedes(Reached(servs, active), a, b) <==> Precedes(servs, a, b) && a in active && b in active
  {
    if servs != [] {
      var front, last := servs[..|servs| - 1], servs[|servs| - 1];
      assert servs == front + [last];
      ReachedInOrder(front, active, a, b);
      PrecedesGrows(front, a, b, last);
      PrecedesGrows(Reached(front, active), a, b, last);
    }
  }

  lemma ReachedOnce(servs: seq<nat>, active: set<nat>)
    requires NoDup(servs)
    ensures NoDup(Reached(servs, active))
  {
    var r := Reached(servs, active);
    forall i, j | 0 <= i < j < |r| ensures r[i] != r[j] {
      ReachedInOrder(servs, active, r[i], r[j]);
    }
  }

  /** stored is entries with v added if no entry has its value, and else with the first such
      entry raised to v's id if that is higher. */
  ghost predicate Raised(entries: seq<Vote>, v: Vote, stored: seq<Vote>) {
    && ((forall e :: e in entries ==> e.value != v.value) ==> stored == entries + [v])
    && forall i :: 0 <= i < |entries| && entries[i].value == v.value && (forall j :: 0 <= j < i ==> entries[j].value != v.value) ==>
        stored == if Gt(v.id, entries[i].id) then entries[i := v] else entries
  }

  /** struct s_paxos_proposal, on the side that proposes. */
  class ProposalRecord {
    const id: Id
    const nserv: nat
    var value: int
    var count: nat
    var maxId: Id
    var nsent: nat

    ghost function State(): Proposal
      reads this
    {
      Proposal(value, count, maxId)
    }

    constructor (id: Id, nserv: nat, value: int)
      ensures State() == Proposal(value, 0, ZERO) && this.id == id && this.nserv == nserv
    {
      this.id := id;
      this.nserv := nserv;
      this.value := value;
      count := 0;
      maxId := ZERO;
      nsent := 0;
    }

    /** Counts one response; from the first majority on, every one is followed by an ACCEPT
        broadcast. */
    method HandleResponse(r: Option<Vote>) returns (broadcast: Option<Vote>)
      modifies this`count, this`maxId, this`value
      ensures State() == Count(old(State()), r)
      ensures count == old(count) + 1
      ensures if r.Some? && Gt(r.value.id, old(maxId))
        then maxId == r.value.id && value == r.value.value
        else maxId == old(maxId) && value == old(value)
      ensures broadcast == if count > nserv / 2 then Some(Vote(id, value)) else None
    {
      count := count + 1;
      if r.Some? {
        if Gt(r.value.id, maxId) {
          maxId := r.value.id;
          value := r.value.value;
        }
      }
      if count > nserv / 2 {
        return Some(Vote(id, value));
      }
      return None;
    }
  }

  /** struct s_paxos. */
  class Server {
    const me: nat
    var version: int
    var servs: seq<nat>
    var responseVersion: int
    var nextId: int
    var response: map<string, Id>
    var accept: map<string, seq<Vote>>
    var backup: map<nat, seq<Backup>>

    ghost function Topic(topic: string): Acceptor
      reads this
    {
      Acceptor(if topic in response then Some(response[topic]) else None,
               if topic in accept then accept[topic] else [])
    }

    ghost predicate OtherTopics(topic: string, response': map<string, Id>, accept': map<string, seq<Vote>>)
      reads this
    {
      response - {topic} == response' - {topic} && accept - {topic} == accept' - {topic}
    }

    constructor (me: nat)
      ensures this.me == me && nextId == 1 && forall topic :: Topic(topic) == Acceptor(None, [])
      ensures version == (if me == 1 then 1 else 0) && servs == if me == 1 then [1] else []
    {
      this.me := me;
      responseVersion := 0;
      nextId := 1;
      version, servs := 0, [];
      response, accept, backup := map[], map[], map[];
      if me == 1 {
        version, servs := 1, [1];
      }
    }

    method IsIn(serv: nat) returns (found: bool)
      ensures found <==> serv in servs
    {
      for i := 0 to |servs|
        invariant serv !in servs[..i]
      {
        if servs[i] == serv {
          return true;
        }
      }
      return false;
    }

    method CreateProposal(value: int) returns (p: ProposalRecord)
      modifies this`nextId
      ensures fresh(p) && p.State() == Proposal(value, 0, ZERO) && p.nserv == |servs|
      ensures p.id == Id(me, old(nextId)) && nextId == old(nextId) + 1
    {
      p := new ProposalRecord(Id(me, nextId), |servs|, value);
      nextId := nextId + 1;
    }

    /** Sends the request to every member that can be reached. */
    method Broadcast(p: ProposalRecord, active: set<nat>) returns (asked: seq<nat>)
      modifies p`nsent
      ensures asked == Reached(servs, active) && p.nsent == |asked|
      ensures forall a, b :: Precedes(asked, a, b) <==> Precedes(servs, a, b) && a in active && b in active
      ensures NoDup(servs) ==> NoDup(asked)
    {
      asked := [];
      p.nsent := 0;
      var i := 0;
      while i < |servs|
        invariant 0 <= i <= |servs|
        invariant asked == Reached(servs[..i], active) && p.nsent == |asked|
      {
        assert servs[..i + 1][..i] == servs[..i];
        if servs[i] in active {
          asked := asked + [servs[i]];
          p.nsent := p.nsent + 1;
        }
        i := i + 1;
      }
      assert servs[..i] == servs;
      forall a, b {
        ReachedInOrder(servs, active, a, b);
      }
      if NoDup(servs) {
        ReachedOnce(servs, active);
      }
    }

    /** Only a member of the version may start a proposal. A change of members proposes
        their new mask; one to add a member takes a number and asks no one. */
    method Start(kind: Kind, value: int, theServ: nat, active: set<nat>) returns (p: ProposalRecord?, asked: seq<nat>)
      requires !kind.Normal? ==> Small(servs) && theServ <= MAX_ID
      modifies this`nextId
      ensures p == null <==> me !in servs
      ensures p == null ==> nextId == old(nextId) && asked == []
      ensures p != null ==>
        && fresh(p) && p.State() == Proposal(p.value, 0, ZERO) && p.nserv == |servs|
        && p.id == Id(me, old(nextId)) && nextId == old(nextId) + 1
        && if kind.Add? && theServ in servs then asked == [] else asked == Reached(servs, active) && p.nsent == |asked|
      ensures p != null && kind.Normal? ==> p.value == value
      ensures p != null && kind.Add? && theServ !in servs ==>
        p.value >= 0 && Encodes(p.value, Members(servs) + {theServ})
      ensures p != null && kind.Rm? ==> p.value >= 0 && Encodes(p.value, Members(servs) - {theServ})
    {
      asked := [];
      var member := IsIn(me);
      if !member {
        return null, asked;
      }
      p := CreateProposal(value);
      if kind.Add? {
        var mask := AddValue(servs, theServ);
        if mask.None? {
          return p, asked;
        }
        p.value := mask.value;
      }
      if kind.Rm? {
        var mask := RemoveValue(servs, theServ);
        p.value := mask;
      }
      asked := Broadcast(p, active);
    }

    /** The scan of a topic's entries for the highest one below id. */
    method Highest(entries: seq<Vote>, id: Id) returns (best: Vote)
      ensures best == Best(entries, id)
    {
      best := Vote(ZERO, -1);
      var i := 0;
      while i < |entries|
        invariant 0 <= i <= |entries| && best == Best(entries[..i], id)
      {
        assert entries[..i + 1][..i] == entries[..i];
        if Gt(id, entries[i].id) {
          if Gt(entries[i].id, best.id) {
            best := entries[i];
          }
        }
        i := i + 1;
      }
      assert entries[..i] == entries;
    }

    /** What a reply to a request of this kind brings along. */
    ghost function ExtraFor(kind: Kind, theServ: nat): Extra
      reads this
    {
      Extra(
        if !kind.Rm? then None else Some(if theServ in backup then backup[theServ] else []),
        if kind.Normal? then None else Some(accept))
    }

    /** Reports the highest entry below id and promises. The answer goes out even when the
        topic is already promised to a higher id. newVersion is what the topic's name says:
        -1 for a NORMAL topic. */
    method HandleRequest(topic: string, id: Id, version: int, kind: Kind, theServ: nat, newVersion: int)
      returns (reply: Reply)
      modifies this`nextId, this`response, this`responseVersion
      ensures nextId == old(nextId) + 1
      ensures version != this.version ==>
        reply == BadVersion && response == old(response) && responseVersion == old(responseVersion)
      ensures version == this.version ==>
        && reply == Reported(Report(old(Topic(topic)).accepted, id), ExtraFor(kind, theServ))
        && Topic(topic) == Promise(old(Topic(topic)), id)
        && responseVersion == if kind.Normal? then old(responseVersion) else newVersion
      ensures version == this.version ==>
        && topic in response
        && (topic !in old(response) || Gt(id, old(response)[topic]) ==> response[topic] == id)
        && (topic in old(response) && !Gt(id, old(response)[topic]) ==> response[topic] == old(response)[topic])
      ensures version == this.version ==>
        && (kind.Rm? ==> reply.extra.backup == Some(if theServ in backup then backup[theServ] else []))
        && (kind.Rm? || kind.Add? ==> reply.extra.entries == Some(accept))
        && (kind.Normal? ==> reply.extra.backup == None && reply.extra.entries == None)
        && (kind.Add? ==> reply.extra.backup == None)
      ensures OtherTopics(topic, old(response), accept)
    {
      var p := CreateProposal(-1);
      if this.version != version {
        return BadVersion;
      }
      var best := Vote(ZERO, -1);
      if topic in accept {
        best := Highest(accept[topic], id);
      }
      var extra := Extra(None, None);
      if kind.Rm? {
        extra := extra.(backup := Some(if theServ in backup then backup[theServ] else []));
      }
      if !kind.Normal? {
        extra := extra.(entries := Some(accept));
      }
      reply := Reported(if best.value < 0 then None else Some(best), extra);
      if !kind.Normal? {
        responseVersion := newVersion;
      }
      if topic in response {
        if Gt(id, response[topic]) {
          response := response[topic := id];
        }
      } else {
        response := response[topic := id];
      }
    }

    static lemma KeepGoesOn(entries: seq<Vote>, v: Vote, i: nat)
      requires i < |entries| && entries[i].value != v.value
      ensures entries[..i] + Keep(entries[i..], v) == entries[..i + 1] + Keep(entries[i + 1..], v)
    {
      assert entries[i..][1..] == entries[i + 1..];
      assert entries[..i + 1] == entries[..i] + [entries[i]];
    }

    static lemma KeepRaises(entries: seq<Vote>, v: Vote, i: nat)
      requires i < |entries| && entries[i].value == v.value
      ensures entries[..i] + Keep(entries[i..], v) == if Gt(v.id, entries[i].id) then entries[i := v] else entries
    {
      assert entries[i..][1..] == entries[i + 1..];
    }

    /** One entry per value: the first one with v's value is raised, else v is added. */
    method Store(entries: seq<Vote>, v: Vote) returns (stored: seq<Vote>)
      ensures stored == Keep(entries, v) && Raised(entries, v, stored)
    {
      stored := entries;
      var i := 0;
      while i < |entries|
        invariant 0 <= i <= |entries| && stored == entries
        invariant forall j :: 0 <= j < i ==> entries[j].value != v.value
        invariant Keep(entries, v) == entries[..i] + Keep(entries[i..], v)
      {
        if stored[i].value == v.value {
          KeepRaises(entries, v, i);
          if Gt(v.id, stored[i].id) {
            stored := stored[i := v];
          }
          break;
        }
        KeepGoesOn(entries, v, i);
        i := i + 1;
      }
      if i >= |entries| {
        assert entries[..i] == entries;
        stored := stored + [v];
      }
    }

    /** Nothing is accepted under another version than the server's, nor a value that a change
        of members which the server has answered outdates. */
    method HandleAccept(topic: string, v: Vote, version: int, newVersion: int)
      modifies this`accept
      ensures Topic(topic) ==
        if version > 0 && (version != this.version || (version < responseVersion && newVersion < responseVersion))
        then old(Topic(topic)) else Accept(old(Topic(topic)), v)
      ensures
        if (version > 0 && (version != this.version || (version < responseVersion && newVersion < responseVersion)))
          || (topic in response && Gt(response[topic], v.id))
        then accept == old(accept)
        else topic in accept && Raised(if topic in old(accept) then old(accept)[topic] else [], v, accept[topic])
      ensures OtherTopics(topic, response, old(accept))
    {
      if version > 0 && version != this.version {
        return;
      }
      if version > 0 && (version < responseVersion && newVersion < responseVersion) {
        return;
      }
      if topic in response {
        if Gt(response[topic], v.id) {
          return;
        }
      }
      if topic !in accept {
        accept := accept[topic := []];
      }
      var stored := Store(accept[topic], v);
      accept := accept[topic := stored];
    }
  }
}
