/** What one server does with the packets of a proposal, for one topic: the rules the
    handlers of PaxosServer.dfy follow and Paxos.dfy runs among many servers. */
module PaxosRules {
  import opened Ids
  import opened Wrappers

  const ZERO := Id(0, 0)

  /** Ids are ordered by y first. */
  predicate Gt(a: Id, b: Id) {
    a.y > b.y || (a.y == b.y && a.x > b.x)
  }

  /** A value under a proposal id: an ACCEPT packet, or an accepted entry. */
  datatype Vote = Vote(id: Id, value: int)

  datatype Acceptor = Acceptor(promise: Option<Id>, accepted: seq<Vote>)
  datatype Proposal = Proposal(value: int, count: nat, maxId: Id)

  // ---- Prepare request -------------------------------------------------------------

  /** The entry with the highest id below id, by a scan from the front. */
  function Best(accepted: seq<Vote>, id: Id): Vote {
    if accepted == [] then Vote(ZERO, -1)
    else
      var b, e := Best(accepted[..|accepted| - 1], id), accepted[|accepted| - 1];
      if Gt(id, e.id) && Gt(e.id, b.id) then e else b
  }

  function Report(accepted: seq<Vote>, id: Id): Option<Vote> {
    var b := Best(accepted, id);
    if b.value < 0 then None else Some(b)
  }

  function Promise(a: Acceptor, id: Id): Acceptor {
    if a.promise.None? || Gt(id, a.promise.value) then a.(promise := Some(id)) else a
  }

  // ---- Accept request ----------------------------------------------------------------

  predicate Refuses(a: Acceptor, id: Id) {
    a.promise.Some? && Gt(a.promise.value, id)
  }

  /** One entry per value, with the highest id. */
  function Keep(accepted: seq<Vote>, v: Vote): seq<Vote> {
    if accepted == [] then [v]
    else if accepted[0].value == v.value then [if Gt(v.id, accepted[0].id) then v else accepted[0]] + accepted[1..]
    else [accepted[0]] + Keep(accepted[1..], v)
  }

  function Accept(a: Acceptor, v: Vote): Acceptor {
    if Refuses(a, v.id) then a else a.(accepted := Keep(a.accepted, v))
  }

  // ---- Prepare response --------------------------------------------------------------

  function Top(r: Option<Vote>): Id {
    if r.Some? then r.value.id else ZERO
  }

  function Count(p: Proposal, r: Option<Vote>): Proposal {
    if r.Some? && Gt(r.value.id, p.maxId)
    then Proposal(r.value.value, p.count + 1, r.value.id)
    else p.(count := p.count + 1)
  }

  // ---- What the rules mean -------------------------------------------------------------

  /** The order is strict and total, and a later number outranks an earlier one, whoever
      takes it. */
  lemma GtOrders(a: Id, b: Id, c: Id)
    ensures a == b || Gt(a, b) || Gt(b, a)
    ensures !(Gt(a, b) && Gt(b, a)) && (Gt(a, b) && Gt(b, c) ==> Gt(a, c))
    ensures a.y > b.y ==> Gt(a, b)
  {
  }

  /** A promise is to the highest id asked for so far, no lower and no higher one. */
  lemma PromiseIsHighest(a: Acceptor, id: Id)
    ensures var p := Promise(a, id);
      && p.accepted == a.accepted && p.promise.Some?
      && (p.promise.value == id || a.promise == p.promise)
      && !Gt(id, p.promise.value) && (a.promise.Some? ==> !Gt(a.promise.value, p.promise.value))
  {
  }

  lemma {:induction false} BestIsHighest(accepted: seq<Vote>, id: Id)
    ensures Best(accepted, id) == Vote(ZERO, -1) || (Best(accepted, id) in accepted && Gt(id, Best(accepted, id).id))
    ensures forall e :: e in accepted && Gt(id, e.id) ==> !Gt(e.id, Best(accepted, id).id)
  {
    if accepted != [] {
      BestIsHighest(accepted[..|accepted| - 1], id);
    }
  }

  /** The report is the highest entry below id, and is missing only if there is none. */
  lemma ReportIsHighest(accepted: seq<Vote>, id: Id)
    requires forall e :: e in accepted ==> e.value >= 0 && Gt(e.id, ZERO)
    ensures var r := Report(accepted, id);
      && (r.Some? ==> r.value in accepted && Gt(id, r.value.id))
      && (r.None? ==> forall e :: e in accepted ==> !Gt(id, e.id))
      && (forall e :: e in accepted && Gt(id, e.id) ==> !Gt(e.id, Top(r)))
  {
    BestIsHighest(accepted, id);
  }

  /** The list holds v's value under v's id or a higher one. */
  ghost predicate Covers(accepted: seq<Vote>, v: Vote) {
    exists e :: e in accepted && e.value == v.value && !Gt(v.id, e.id)
  }

  /** Nothing accepted is lost but lower ids of the same value, and nothing is made up. */
  lemma {:induction false} KeepCovers(accepted: seq<Vote>, v: Vote)
    ensures Covers(Keep(accepted, v), v)
    ensures forall w :: Covers(accepted, w) ==> Covers(Keep(accepted, v), w)
    ensures forall e :: e in Keep(accepted, v) ==> e in accepted || e == v
  {
    var k := Keep(accepted, v);
    if accepted == [] {
      assert v in k;
    } else if accepted[0].value == v.value {
      assert k[0] in k;
      forall w | Covers(accepted, w) ensures Covers(k, w) {
        var e :| e in accepted && e.value == w.value && !Gt(w.id, e.id);
        assert (if e == accepted[0] then k[0] else e) in k;
      }
    } else {
      var rest := accepted[1..];
      KeepCovers(rest, v);
      var x :| x in Keep(rest, v) && x.value == v.value && !Gt(v.id, x.id);
      assert x in k;
      forall w | Covers(accepted, w) ensures Covers(k, w) {
        var e :| e in accepted && e.value == w.value && !Gt(w.id, e.id);
        if e == accepted[0] {
          assert e in k;
        } else {
          assert e in rest;
          assert Covers(rest, w);
          var y :| y in Keep(rest, v) && y.value == w.value && !Gt(w.id, y.id);
          assert y in k;
        }
      }
    }
  }
}
