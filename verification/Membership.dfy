/** The set of meta servers as a bit mask, which is what a version proposal's value is. */
module Membership {
  import opened Majorities
  import opened Seqs
  import opened Wrappers

  const BITS := 32

  /** Server ids that fit the mask of a signed int: bit 31 is the sign. */
  const MAX_ID := 30

  predicate Bit(v: nat, k: nat) {
    if k == 0 then v % 2 == 1 else Bit(v / 2, k - 1)
  }

  /** v | 1 << k. */
  function SetBit(v: nat, k: nat): nat {
    if k == 0 then v / 2 * 2 + 1 else SetBit(v / 2, k - 1) * 2 + v % 2
  }

  lemma {:induction false} SetBitSets(v: nat, k: nat, j: nat)
    ensures Bit(SetBit(v, k), j) <==> j == k || Bit(v, j)
  {
    if k > 0 && j > 0 {
      SetBitSets(v / 2, k - 1, j - 1);
      assert SetBit(v, k) / 2 == SetBit(v / 2, k - 1);
    } else if k == 0 && j > 0 {
      assert SetBit(v, 0) / 2 == v / 2;
    }
  }

  lemma {:induction false} NoBits(k: nat)
    ensures !Bit(0, k)
  {
    if k > 0 { NoBits(k - 1); }
  }

  function Pow2(k: nat): (p: nat)
    ensures p > 0
  {
    if k == 0 then 1 else 2 * Pow2(k - 1)
  }

  lemma {:induction false} SetBitSmall(v: nat, k: nat, n: nat)
    requires v < Pow2(n) && k < n
    ensures SetBit(v, k) < Pow2(n)
  {
    if k > 0 { SetBitSmall(v / 2, k - 1, n - 1); }
  }

  lemma {:induction false} SmallNoBit(v: nat, n: nat, k: nat)
    requires v < Pow2(n) && n <= k
    ensures !Bit(v, k)
  {
    if n == 0 { NoBits(k); } else { SmallNoBit(v / 2, n - 1, k - 1); }
  }

  // ---- What a mask says -----------------------------------------------------------------

  ghost predicate Small(servs: seq<nat>) {
    forall i :: 0 <= i < |servs| ==> servs[i] <= MAX_ID
  }

  /** The bits of v are the members of servs, and the sign bit is free. */
  ghost predicate Encodes(v: nat, servs: set<nat>) {
    v < Pow2(MAX_ID + 1) && forall k: nat :: k in servs <==> Bit(v, k)
  }

  function Members(servs: seq<nat>): set<nat> {
    set k | k in servs
  }

  /** The set bits below n, lowest first. */
  function Decoded(v: nat, n: nat): seq<nat> {
    if n == 0 then [] else Decoded(v, n - 1) + if Bit(v, n - 1) then [n - 1] else []
  }

  lemma {:induction false} DecodedIs(v: nat, n: nat)
    ensures Ascending(Decoded(v, n))
    ensures forall k: nat :: k in Decoded(v, n) <==> k < n && Bit(v, k)
  {
    if n > 0 {
      DecodedIs(v, n - 1);
      var d := Decoded(v, n - 1);
      assert forall i :: 0 <= i < |d| ==> d[i] in d;
    }
  }

  lemma LastIsHighest(a: seq<nat>, b: seq<nat>)
    requires Ascending(a) && a != [] && b != [] && b[|b| - 1] in a
    ensures b[|b| - 1] <= a[|a| - 1]
  {
  }

  lemma ButLast(a: seq<nat>, k: nat)
    requires Ascending(a) && a != []
    ensures k in a[..|a| - 1] <==> k in a && k != a[|a| - 1]
  {
  }

  /** An ascending list is known by its members. */
  lemma {:induction false} AscendingUnique(a: seq<nat>, b: seq<nat>)
    requires Ascending(a) && Ascending(b) && forall k: nat :: k in a <==> k in b
    ensures a == b
  {
    assert a != [] ==> a[0] in a;
    assert b != [] ==> b[0] in b;
    if a != [] && b != [] {
      LastIsHighest(a, b);
      LastIsHighest(b, a);
      var a', b' := a[..|a| - 1], b[..|b| - 1];
      forall k: nat ensures k in a' <==> k in b' {
        ButLast(a, k);
        ButLast(b, k);
      }
      AscendingUnique(a', b');
      assert a == a' + [a[|a| - 1]] && b == b' + [b[|b| - 1]];
    }
  }

  /** Decoding a mask gives exactly the servers it was made of, in ascending order. */
  lemma DecodesTo(v: nat, servs: set<nat>)
    requires Encodes(v, servs)
    ensures Ascending(Decoded(v, BITS)) && Members(Decoded(v, BITS)) == servs
  {
    DecodedIs(v, BITS);
    forall k: nat | Bit(v, k) ensures k < BITS {
      if k >= BITS { SmallNoBit(v, MAX_ID + 1, k); }
    }
  }

  /** An ascending list of ids comes back from its mask. */
  lemma RoundTrip(v: nat, servs: seq<nat>)
    requires Ascending(servs) && Encodes(v, Members(servs))
    ensures Decoded(v, BITS) == servs
  {
    DecodesTo(v, Members(servs));
    forall k: nat ensures k in Decoded(v, BITS) <==> k in servs {
      assert k in Members(Decoded(v, BITS)) <==> k in Members(servs);
    }
    AscendingUnique(Decoded(v, BITS), servs);
  }

  // ---- The loops -----------------------------------------------------------------------------

  lemma AddBit(v: nat, servs: set<nat>, k: nat)
    requires Encodes(v, servs) && k <= MAX_ID
    ensures Encodes(SetBit(v, k), servs + {k})
  {
    SetBitSmall(v, k, MAX_ID + 1);
    forall j: nat ensures j in servs + {k} <==> Bit(SetBit(v, k), j) {
      SetBitSets(v, k, j);
    }
  }

  lemma NoneSet()
    ensures Encodes(0, {})
  {
    forall k: nat ensures !Bit(0, k) { NoBits(k); }
  }

  /** iversion_to_int. */
  method ToInt(servs: seq<nat>) returns (value: nat)
    requires Small(servs)
    ensures Encodes(value, Members(servs))
  {
    value := 0;
    NoneSet();
    var i := 0;
    while i < |servs|
      invariant 0 <= i <= |servs| && Encodes(value, Members(servs[..i]))
    {
      AddBit(value, Members(servs[..i]), servs[i]);
      assert Members(servs[..i + 1]) == Members(servs[..i]) + {servs[i]};
      value := SetBit(value, servs[i]);
      i := i + 1;
    }
    assert servs[..i] == servs;
  }

  /** iversion_from_int. */
  method FromInt(value: nat) returns (servs: seq<nat>)
    ensures servs == Decoded(value, BITS)
  {
    servs := [];
    var i := 0;
    while i < BITS
      invariant 0 <= i <= BITS && servs == Decoded(value, i)
    {
      if Bit(value, i) {
        servs := servs + [i];
      }
      i := i + 1;
    }
  }

  /** The value of a proposal to add a server; there is none if it is a member already. */
  method AddValue(servs: seq<nat>, serv: nat) returns (value: Option<nat>)
    requires Small(servs) && serv <= MAX_ID
    ensures serv in servs ==> value == None
    ensures serv !in servs ==> value.Some? && Encodes(value.value, Members(servs) + {serv})
  {
    var v := 0;
    NoneSet();
    var i := 0;
    while i < |servs|
      invariant 0 <= i <= |servs| && serv !in servs[..i] && Encodes(v, Members(servs[..i]))
    {
      if serv == servs[i] {
        return None;
      }
      AddBit(v, Members(servs[..i]), servs[i]);
      assert Members(servs[..i + 1]) == Members(servs[..i]) + {servs[i]};
      v := SetBit(v, servs[i]);
      i := i + 1;
    }
    assert servs[..i] == servs;
    AddBit(v, Members(servs), serv);
    return Some(SetBit(v, serv));
  }

  /** The value of a proposal to remove a server. */
  method RemoveValue(servs: seq<nat>, serv: nat) returns (value: nat)
    requires Small(servs)
    ensures Encodes(value, Members(servs) - {serv})
  {
    value := 0;
    NoneSet();
    var i := 0;
    while i < |servs|
      invariant 0 <= i <= |servs| && Encodes(value, Members(servs[..i]) - {serv})
    {
      assert Members(servs[..i + 1]) == Members(servs[..i]) + {servs[i]};
      if serv != servs[i] {
        AddBit(value, Members(servs[..i]) - {serv}, servs[i]);
        assert Members(servs[..i + 1]) - {serv} == Members(servs[..i]) - {serv} + {servs[i]};
        value := SetBit(value, servs[i]);
      } else {
        assert Members(servs[..i + 1]) - {serv} == Members(servs[..i]) - {serv};
      }
      i := i + 1;
    }
    assert servs[..i] == servs;
  }

  /** After an ADD or RM value is decoded, every majority of the new servers still meets
      every majority of the old ones. */
  lemma ChangeKeepsQuorums(servs: seq<nat>, serv: nat, v: nat, a: set<nat>, b: set<nat>) returns (k: nat)
    requires Encodes(v, Members(servs) + {serv}) || Encodes(v, Members(servs) - {serv})
    requires a <= Members(servs) && |a| > |Members(servs)| / 2
    requires b <= Members(Decoded(v, BITS)) && |b| > |Members(Decoded(v, BITS))| / 2
    ensures k in a && k in b
  {
    var before, after := Members(servs), Members(Decoded(v, BITS));
    if Encodes(v, before + {serv}) {
      DecodesTo(v, before + {serv});
      assert after - before <= {serv} && before - after == {};
    } else {
      DecodesTo(v, before - {serv});
      assert before - after <= {serv} && after - before == {};
    }
    OneAtMost(after - before, serv);
    OneAtMost(before - after, serv);
    k := MajoritiesMeet(before, after, a, b);
  }

  lemma OneAtMost(s: set<nat>, k: nat)
    requires s <= {k}
    ensures |s| <= 1
  {
    if k in s { assert s == {k}; } else { assert s == {}; }
  }
}
