/** The growing ring buffer that holds a connection's packets to write. */
module RingQueue {
  import opened Wrappers

  const MIN_TOTAL := 16

  /** The elements from position first round to position last. */
  function Items<T>(p: seq<T>, first: int, last: int): seq<T>
    requires 0 <= first < |p| && 0 <= last < |p|
  {
    if first <= last then p[first..last] else p[first..] + p[..last]
  }

  /** The position after i. */
  function Succ(i: int, n: int): (r: int)
    requires 0 <= i < n
    ensures 0 <= r < n && r == if i + 1 == n then 0 else i + 1
  {
    (i + 1) % n
  }

  lemma TakeFirst<T>(p: seq<T>, first: int, last: int)
    requires 0 <= first < |p| && 0 <= last < |p| && first != last
    ensures Items(p, first, last) == [p[first]] + Items(p, Succ(first, |p|), last)
  {
  }

  lemma AddLast<T>(p: seq<T>, first: int, last: int, x: T)
    requires 0 <= first < |p| && 0 <= last < |p| && Succ(last, |p|) != first
    ensures Items(p[last := x], first, Succ(last, |p|)) == Items(p, first, last) + [x]
  {
  }

  lemma NextItem<T>(all: seq<T>, i: nat, x: T, rest: seq<T>)
    requires i <= |all| && all[i..] == [x] + rest
    ensures i < |all| && all[i] == x && all[i + 1..] == rest && all[..i + 1] == all[..i] + [x]
  {
  }

  class Queue<T(0)> {
    var p: array<T>
    var first: int
    var last: int

    ghost predicate Valid()
      reads this
    {
      p.Length >= MIN_TOTAL && 0 <= first < p.Length && 0 <= last < p.Length
    }

    ghost function Contents(): seq<T>
      requires Valid()
      reads this, p
    {
      Items(p[..], first, last)
    }

    constructor (elemNum: int)
      ensures Valid() && fresh(p) && Contents() == [] && p.Length == if elemNum > 16 then elemNum else 16
    {
      p := new T[if elemNum > MIN_TOTAL then elemNum else MIN_TOTAL];
      first, last := 0, 0;
    }

    /** Copies the elements, in order, to the front of a buffer twice as large. */
    method Expand()
      requires Valid() && Succ(last, p.Length) == first
      modifies this
      ensures Valid() && fresh(p) && Contents() == old(Contents())
      ensures Succ(last, p.Length) != first && p.Length == 2 * old(p.Length)
    {
      var sz := p.Length * 2;
      var q := new T[sz];
      var i := 0;
      ghost var ps, all := p[..], Contents();
      assert |all| == |ps| - 1;
      while first != last
        modifies this`first, q
        invariant 0 <= first < p.Length && p[..] == ps
        invariant 0 <= i <= |all| && Items(ps, first, last) == all[i..] && q[..i] == all[..i]
        decreases |all| - i
      {
        TakeFirst(ps, first, last);
        NextItem(all, i, ps[first], Items(ps, Succ(first, |ps|), last));
        q[i] := p[first];
        i := i + 1;
        first := Succ(first, p.Length);
      }
      assert all[..i] == all;
      p := q;
      first := 0;
      last := i;
    }

    method Push(x: T)
      requires Valid()
      modifies this, p
      ensures Valid() && (p == old(p) || fresh(p))
      ensures Contents() == old(Contents()) + [x]
      ensures p.Length == if |old(Contents())| + 1 == old(p.Length) then 2 * old(p.Length) else old(p.Length)
    {
      if Succ(last, p.Length) == first {
        Expand();
      }
      AddLast(p[..], first, last, x);
      p[last] := x;
      last := Succ(last, p.Length);
    }

    method Empty() returns (empty: bool)
      requires Valid()
      ensures empty <==> Contents() == []
    {
      return last == first;
    }

    method Peek() returns (x: Option<T>)
      requires Valid()
      ensures x == if Contents() == [] then None else Some(Contents()[0])
    {
      var empty := Empty();
      if empty {
        return None;
      }
      return Some(p[first]);
    }

    method Pop() returns (x: Option<T>)
      requires Valid()
      modifies this`first
      ensures Valid()
      ensures x == if old(Contents()) == [] then None else Some(old(Contents())[0])
      ensures Contents() == if old(Contents()) == [] then [] else old(Contents())[1..]
    {
      x := Peek();
      if x.None? {
        return;
      }
      TakeFirst(p[..], first, last);
      first := Succ(first, p.Length);
    }

    method Clear()
      requires Valid()
      modifies this
      ensures Valid() && p == old(p) && Contents() == []
    {
      first, last := 0, 0;
    }
  }
}
