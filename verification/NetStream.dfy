/** The receiving side of a connection: a byte stream cut anywhere becomes the packets that
    were sent. */
module NetStream {
  import opened Bytes
  import opened Packet

  const DEFAULT_READ_BUFFER := 1024

  // ---- What a stream means ------------------------------------------------------------------

  /** A whole packet is at the front. */
  predicate Complete(s: bytes) {
    |s| >= 4 && 0 < Announced(s) <= |s|
  }

  /** The whole packets at the front of a stream, and what is left. */
  function Split(s: bytes): (r: (seq<bytes>, bytes))
    ensures !Complete(r.1)
    decreases |s|
  {
    if !Complete(s) then ([], s)
    else
      var n := Announced(s);
      var r := Split(s[n..]);
      ([s[..n]] + r.0, r.1)
  }

  function Then(before: seq<bytes>, r: (seq<bytes>, bytes)): (seq<bytes>, bytes) {
    (before + r.0, r.1)
  }

  lemma SplitThen(before: seq<bytes>, s: bytes)
    ensures Then(before, Split(s)) ==
      if Complete(s) then Then(before + [s[..Announced(s)]], Split(s[Announced(s)..])) else (before, s)
    ensures Then([], Split(s)) == Split(s) && Then(before + [], Split(s)) == Then(before, Split(s))
  {
    assert before + [] == before && [] + Split(s).0 == Split(s).0;
    if Complete(s) {
      var r := Split(s[Announced(s)..]);
      assert before + ([s[..Announced(s)]] + r.0) == before + [s[..Announced(s)]] + r.0;
    }
  }

  function Concat(parts: seq<bytes>): bytes {
    if parts == [] then [] else parts[0] + Concat(parts[1..])
  }

  /** A packet as s_packet_create makes it. */
  predicate IsPacket(p: bytes) {
    HEAD <= |p| <= HEAD + MAX_DATA && Announced(p) == |p|
  }

  /** What is put together as a head and data is a packet. */
  lemma ImageIsPacket(fun: uint, req: uint, data: bytes)
    requires |data| <= MAX_DATA
    ensures IsPacket(Image(fun, req, data))
  {
    ImageAnnounces(fun, req, data, []);
    assert Image(fun, req, data) + [] == Image(fun, req, data);
  }

  predicate ArePackets(ps: seq<bytes>) {
    forall i :: 0 <= i < |ps| ==> IsPacket(ps[i])
  }

  lemma AnnouncedPrefix(s: bytes, t: bytes)
    requires |s| >= 4
    ensures Announced(s + t) == Announced(s)
  {
    assert (s + t)[..4] == s[..4];
  }

  /** More bytes do not change the packets found so far. */
  lemma {:induction false} SplitGrows(s: bytes, t: bytes)
    ensures var r, q := Split(s), Split(Split(s).1 + t); Split(s + t) == (r.0 + q.0, q.1)
    decreases |s|
  {
    if Complete(s) {
      var n := Announced(s);
      AnnouncedPrefix(s, t);
      assert (s + t)[..n] == s[..n] && (s + t)[n..] == s[n..] + t;
      SplitGrows(s[n..], t);
      var r, q := Split(s[n..]), Split(Split(s[n..]).1 + t);
      assert [s[..n]] + (r.0 + q.0) == [s[..n]] + r.0 + q.0;
    } else {
      assert [] + Split(s + t).0 == Split(s + t).0;
    }
  }

  /** How many of the packets are whole within the first k bytes. */
  function Whole(ps: seq<bytes>, k: nat): (m: nat)
    ensures m <= |ps|
  {
    if ps == [] || |ps[0]| > k then 0 else 1 + Whole(ps[1..], k - |ps[0]|)
  }

  lemma SplitFirst(p: bytes, t: bytes)
    requires IsPacket(p)
    ensures Split(p + t) == ([p] + Split(t).0, Split(t).1)
  {
    AnnouncedPrefix(p, t);
    assert (p + t)[..|p|] == p && (p + t)[|p|..] == t;
  }

  lemma NotWhole(p: bytes, k: nat)
    requires IsPacket(p) && k < |p|
    ensures Split(p[..k]) == ([], p[..k])
  {
    if k >= 4 {
      AnnouncedPrefix(p[..k], p[k..]);
      assert p[..k] + p[k..] == p;
    }
  }

  lemma SplitBehind(p: bytes, rest: seq<bytes>, t: bytes, m: nat)
    requires IsPacket(p) && m <= |rest| && Split(t).0 == rest[..m] && Concat(rest[..m]) + Split(t).1 == t
    ensures Split(p + t) == (([p] + rest)[..m + 1], Split(t).1)
    ensures Concat(([p] + rest)[..m + 1]) + Split(t).1 == p + t
  {
    SplitFirst(p, t);
    assert ([p] + rest)[..m + 1] == [p] + rest[..m];
    ConcatFirst(p, rest[..m]);
    Regroup(p, Concat(rest[..m]), Split(t).1);
  }

  lemma ConcatFirst(p: bytes, rest: seq<bytes>)
    ensures Concat([p] + rest) == p + Concat(rest)
  {
    assert ([p] + rest)[1..] == rest;
  }

  lemma TakeMore(before: bytes, s: bytes, taken: nat, n: nat)
    requires taken + n <= |s|
    ensures before + s[..taken] + s[taken..taken + n] == before + s[..taken + n]
  {
    assert s[..taken] + s[taken..taken + n] == s[..taken + n];
    Regroup(before, s[..taken], s[taken..taken + n]);
  }

  lemma Regroup(a: bytes, b: bytes, c: bytes)
    ensures a + b + c == a + (b + c)
  {
  }

  /** The first k bytes of the stream split into its packets that are whole by then and
      exactly the bytes there are of the next one. */
  ghost predicate SplitsAt(ps: seq<bytes>, k: nat)
    requires k <= |Concat(ps)|
  {
    var m, r := Whole(ps, k), Split(Concat(ps)[..k]);
    && r.0 == ps[..m] && Concat(ps[..m]) + r.1 == Concat(ps)[..k]
    && if m < |ps| then |r.1| < |ps[m]| else r.1 == []
  }

  lemma SplitOneMore(p: bytes, ps: seq<bytes>, k: nat)
    requires IsPacket(p) && |p| <= k <= |p| + |Concat(ps)| && SplitsAt(ps, k - |p|)
    ensures k <= |Concat([p] + ps)| && SplitsAt([p] + ps, k)
  {
    var all, s := [p] + ps, Concat(ps)[..k - |p|];
    SplitBehind(p, ps, s, Whole(ps, k - |p|));
    assert all[1..] == ps && Concat(all)[..k] == p + s;
  }

  /** So does every stream of packets, cut anywhere. */
  lemma {:induction false} SplitPackets(ps: seq<bytes>, k: nat)
    requires ArePackets(ps) && k <= |Concat(ps)|
    ensures SplitsAt(ps, k)
    decreases |ps|
  {
    if ps == [] {
    } else if |ps[0]| <= k {
      SplitPackets(ps[1..], k - |ps[0]|);
      SplitOneMore(ps[0], ps[1..], k);
      assert ps == [ps[0]] + ps[1..];
    } else {
      NotWhole(ps[0], k);
      assert Concat(ps)[..k] == ps[0][..k];
      assert ps[..0] == [];
    }
  }

  // ---- Sound streams -------------------------------------------------------------------------

  /** The head announces a positive size, and if everything it announces is there, a packet
      can hold it. */
  predicate HeadOk(s: bytes) {
    |s| >= 4 ==> 0 < Announced(s) && (Announced(s) <= |s| ==> Announced(s) <= HEAD + MAX_DATA)
  }

  /** So do all the heads that packets are cut off at. */
  predicate Sound(s: bytes)
    decreases |s|
  {
    HeadOk(s) && (Complete(s) ==> Sound(s[Announced(s)..]))
  }

  lemma {:induction false} PacketsSound(ps: seq<bytes>, k: nat)
    requires ArePackets(ps) && k <= |Concat(ps)|
    ensures Sound(Concat(ps)[..k])
    decreases |ps|
  {
    var s := Concat(ps)[..k];
    if ps != [] && |s| >= 4 {
      var p, rest := ps[0], ps[1..];
      assert IsPacket(p);
      AnnouncedPrefix(s[..4], s[4..]);
      AnnouncedPrefix(p[..4], p[4..]);
      assert s[..4] + s[4..] == s && p[..4] + p[4..] == p && s[..4] == p[..4];
      if |p| <= k {
        PacketsSound(rest, k - |p|);
        assert s[|p|..] == Concat(rest)[..k - |p|];
      }
    }
  }

  // ---- Many reads -------------------------------------------------------------------------------

  /** What one read after the other delivers, starting with rest left over. */
  function Session(rest: bytes, parts: seq<bytes>): (seq<bytes>, bytes)
    decreases |parts|
  {
    if parts == [] then ([], rest)
    else
      var now := Split(rest + parts[0]);
      var later := Session(now.1, parts[1..]);
      (now.0 + later.0, later.1)
  }

  /** It does not matter how the stream is cut. */
  lemma {:induction false} SessionIsSplit(rest: bytes, parts: seq<bytes>)
    requires !Complete(rest)
    ensures Session(rest, parts) == Split(rest + Concat(parts))
    decreases |parts|
  {
    if parts == [] {
      assert rest + [] == rest;
    } else {
      var x, later := rest + parts[0], Concat(parts[1..]);
      SessionIsSplit(Split(x).1, parts[1..]);
      SplitGrows(x, later);
      Regroup(rest, parts[0], later);
    }
  }

  /** For every sequence of packets and every way to cut a prefix of their bytes, exactly
      the whole packets come out, in order, and exactly the incomplete one stays. */
  lemma Reassembly(ps: seq<bytes>, parts: seq<bytes>, k: nat)
    requires ArePackets(ps) && k <= |Concat(ps)| && Concat(parts) == Concat(ps)[..k]
    ensures var m, r := Whole(ps, k), Session([], parts);
      && r.0 == ps[..m] && Concat(ps[..m]) + r.1 == Concat(ps)[..k]
      && if m < |ps| then |r.1| < |ps[m]| else r.1 == []
  {
    SessionIsSplit([], parts);
    assert [] + Concat(parts) == Concat(parts);
    SplitPackets(ps, k);
  }

  /** What a packet is made of: its function, its request id and its data. */
  datatype Content = Content(fun: uint, req: uint, data: bytes)

  function Images(cs: seq<Content>): (ps: seq<bytes>)
    ensures |ps| == |cs| && forall i :: 0 <= i < |cs| ==> ps[i] == Image(cs[i].fun, cs[i].req, cs[i].data)
  {
    seq(|cs|, i requires 0 <= i < |cs| => Image(cs[i].fun, cs[i].req, cs[i].data))
  }

  lemma {:induction false} SplitAll(ps: seq<bytes>)
    requires ArePackets(ps)
    ensures Split(Concat(ps)) == (ps, [])
  {
    if ps != [] {
      assert IsPacket(ps[0]) && ArePackets(ps[1..]);
      SplitAll(ps[1..]);
      SplitFirst(ps[0], Concat(ps[1..]));
      assert ps == [ps[0]] + ps[1..];
    }
  }

  /** Packets put together from functions, request ids and data arrive as they are, however
      their bytes are cut. */
  lemma ContentsArrive(cs: seq<Content>, parts: seq<bytes>)
    requires forall i :: 0 <= i < |cs| ==> |cs[i].data| <= MAX_DATA
    requires Concat(parts) == Concat(Images(cs))
    ensures Session([], parts) == (Images(cs), [])
  {
    forall i | 0 <= i < |cs| ensures IsPacket(Images(cs)[i]) {
      ImageIsPacket(cs[i].fun, cs[i].req, cs[i].data);
    }
    SessionIsSplit([], parts);
    assert [] + Concat(parts) == Concat(parts);
    SplitAll(Images(cs));
  }

  // ---- The read buffer ----------------------------------------------------------------------------

  /** What the kernel offers in these pieces: an empty one ends the reading. */
  function Offered(cuts: seq<nat>): nat {
    if cuts == [] || cuts[0] == 0 then 0 else cuts[0] + Offered(cuts[1..])
  }

  function Total(cuts: seq<nat>): nat {
    if cuts == [] then 0 else cuts[0] + Total(cuts[1..])
  }

  function Min(a: int, b: int): int {
    if a < b then a else b
  }

  lemma {:induction false} AllOffered(cuts: seq<nat>)
    requires forall i :: 0 <= i < |cuts| ==> cuts[i] > 0
    ensures Offered(cuts) == Total(cuts)
  {
    if cuts != [] {
      AllOffered(cuts[1..]);
    }
  }

  /** The kernel has n bytes, all announced, and offers them all without an empty piece. */
  predicate AllCome(ndata: int, n: nat, cuts: seq<nat>) {
    n <= ndata && n <= Total(cuts) && forall i :: 0 <= i < |cuts| ==> cuts[i] > 0
  }

  /** How much is read of left bytes into so much room. */
  function ReadOf(left: nat, room: nat, cuts: seq<nat>): int {
    Min(Min(left, room), Offered(cuts))
  }

  lemma AllRead(ndata: int, left: nat, room: nat, cuts: seq<nat>)
    requires AllCome(ndata, left, cuts) && ndata <= room
    ensures ReadOf(left, room, cuts) == left
  {
    AllOffered(cuts);
  }

  /** One read takes the piece, or what there is of it and fits. */
  lemma ReadNext(left: nat, room: nat, cuts: seq<nat>, i: nat)
    requires i < |cuts|
    ensures var n := Min(Min(cuts[i], room), left);
      && 0 <= n <= left && n <= room
      && ReadOf(left, room, cuts[i..]) == n + if n == 0 then 0 else ReadOf(left - n, room - n, cuts[i + 1..])
  {
    assert cuts[i..][1..] == cuts[i + 1..];
  }

  function RoundUp(n: nat, align: nat): nat
    requires align > 0
  {
    (n + align - 1) / align * align
  }

  class ReadBuffer {
    var buf: array<byte>
    var p: int
    var curr: int

    ghost predicate Valid()
      reads this
    {
      0 <= curr <= p <= buf.Length
    }

    /** The bytes received and not yet made into packets. */
    ghost function Unread(): bytes
      requires Valid()
      reads this, buf
    {
      buf[curr..p]
    }

    constructor ()
      ensures Valid() && fresh(buf) && Unread() == []
    {
      buf := new byte[DEFAULT_READ_BUFFER];
      p, curr := 0, 0;
    }

    /** Room for ndata more bytes. */
    method Grow(ndata: int)
      requires Valid() && ndata > 0
      modifies this`buf
      ensures Valid() && buf.Length - p >= ndata && Unread() == old(Unread())
      ensures old(buf.Length) - p >= ndata ==> buf == old(buf)
      ensures old(buf.Length) - p < ndata ==>
        buf.Length % 1024 == 0 && 2 * (p + ndata) + 1 <= buf.Length < 2 * (p + ndata) + 1025
      ensures buf == old(buf) || fresh(buf)
    {
      if buf.Length - p < ndata {
        var sz := p + ndata;
        var bigger := new byte[RoundUp(sz * 2 + 1, 1024)];
        forall i | 0 <= i < p {
          bigger[i] := buf[i];
        }
        buf := bigger;
      }
    }

    /** What one read() puts behind the received bytes. */
    method Append(data: bytes)
      requires Valid() && |data| <= buf.Length - p
      modifies this`p, buf
      ensures Valid() && Unread() == old(Unread()) + data && p == old(p) + |data|
    {
      forall j | 0 <= j < |data| {
        buf[p + j] := data[j];
      }
      p := p + |data|;
    }

    /** read() calls until the kernel has no more for now or the buffer is full. */
    method ReadPieces(incoming: bytes, cuts: seq<nat>) returns (taken: nat)
      requires Valid()
      modifies this`p, buf
      ensures Valid() && taken <= |incoming| && taken == ReadOf(|incoming|, buf.Length - old(p), cuts)
      ensures Unread() == old(Unread()) + incoming[..taken]
    {
      ghost var before, goal, room := Unread(), ReadOf(|incoming|, buf.Length - p, cuts), buf.Length - p;
      taken := 0;
      var i := 0;
      while i < |cuts|
        invariant Valid() && 0 <= i <= |cuts| && taken <= |incoming| && buf.Length - p == room - taken
        invariant goal == taken + ReadOf(|incoming| - taken, room - taken, cuts[i..])
        invariant Unread() == before + incoming[..taken]
      {
        ReadNext(|incoming| - taken, room - taken, cuts, i);
        var nread := cuts[i];
        nread := if nread < buf.Length - p then nread else buf.Length - p;
        nread := if nread < |incoming| - taken then nread else |incoming| - taken;
        Append(incoming[taken..taken + nread]);
        TakeMore(before, incoming, taken, nread);
        taken := taken + nread;
        if nread == 0 {
          return;
        }
        i := i + 1;
      }
      assert cuts[|cuts|..] == [];
    }

    /** ndata bytes are announced; the kernel then hands out incoming in pieces of at most
        the sizes in cuts. */
    method Read(ndata: int, incoming: bytes, cuts: seq<nat>) returns (ok: bool, taken: nat)
      requires Valid()
      modifies this`buf, this`p, buf
      ensures Valid() && (buf == old(buf) || fresh(buf)) && taken <= |incoming|
      ensures ok <==> ndata > 0
      ensures Unread() == old(Unread()) + incoming[..taken]
      ensures ok ==> taken == Min(Min(|incoming|, buf.Length - old(p)), Offered(cuts))
      ensures ok && AllCome(ndata, |incoming|, cuts) ==> taken == |incoming|
    {
      if ndata <= 0 {
        return false, 0;
      }
      Grow(ndata);
      if AllCome(ndata, |incoming|, cuts) {
        AllRead(ndata, |incoming|, buf.Length - p, cuts);
      }
      taken := ReadPieces(incoming, cuts);
      ok := true;
    }

    /** The next whole packet, copied out; when there is none, what is left moves to the
        front of the buffer. */
    method NextPacket() returns (pkt: Packet?, failed: bool)
      requires Valid()
      modifies this`p, this`curr, buf
      ensures Valid() && buf == old(buf) && (failed <==> !HeadOk(old(Unread())))
      ensures pkt != null <==> Complete(old(Unread())) && !failed
      ensures pkt == null ==> Unread() == old(Unread())
      ensures pkt == null && !failed ==> curr == 0
      ensures pkt != null ==>
        && fresh(pkt) && fresh(pkt.mem) && pkt.Valid() && pkt.pos == HEAD
        && pkt.Data() == old(Unread())[..Announced(old(Unread()))]
        && Unread() == old(Unread())[Announced(old(Unread()))..]
    {
      pkt, failed := CreateFrom();
      if failed {
        return;
      }
      if pkt == null {
        if curr > 0 {
          var sz := p - curr;
          forall i | 0 <= i < sz {
            buf[i] := buf[curr + i];
          }
          p := sz;
          curr := 0;
        }
        return;
      }
      curr := curr + pkt.size;
    }

    /** s_packet_create_from on the unread bytes. It fails where the code's assert fails, and
        where the code goes on with a packet that it could not create. */
    method CreateFrom() returns (pkt: Packet?, failed: bool)
      requires Valid()
      ensures failed <==> !HeadOk(Unread())
      ensures pkt != null <==> Complete(Unread()) && !failed
      ensures pkt != null ==>
        fresh(pkt) && fresh(pkt.mem) && pkt.Valid() && pkt.pos == HEAD && pkt.Data() == Unread()[..Announced(Unread())]
    {
      if p - curr < 4 {
        return null, false;
      }
      assert Unread()[..4] == buf[curr..curr + 4];
      Decode4(buf[curr..curr + 4]);
      var sz := Signed32(Word(buf[curr], buf[curr + 1], buf[curr + 2], buf[curr + 3]));
      if sz <= 0 {
        return null, true;
      }
      if p - curr < sz {
        return null, false;
      }
      pkt := Packet.Create(sz - HEAD);
      if pkt == null {
        return null, true;
      }
      forall i | 0 <= i < sz {
        pkt.mem[i] := buf[curr + i];
      }
      failed := false;
    }

    /** Hands over packets until there is none, or one fails. */
    method HandOver() returns (packets: seq<bytes>, failed: bool)
      requires Valid()
      modifies this`p, this`curr, buf
      ensures Valid() && buf == old(buf)
      ensures (failed <==> !Sound(old(Unread()))) && Then(packets, Split(Unread())) == Split(old(Unread()))
      ensures if failed then !HeadOk(Unread()) else (packets, Unread()) == Split(old(Unread()))
    {
      ghost var all := Unread();
      packets := [];
      SplitThen(packets, all);
      var pkt;
      pkt, failed := NextPacket();
      while pkt != null
        invariant Valid() && buf == old(buf) && (Sound(all) <==> !failed && Sound(Unread()))
        invariant pkt != null ==> pkt.Valid() && pkt.mem != buf && !failed
        invariant pkt == null ==> if failed then !HeadOk(Unread()) else !Complete(Unread()) && HeadOk(Unread())
        invariant Split(all) == Then(packets + if pkt == null then [] else [pkt.Data()], Split(Unread()))
        decreases |Unread()|, pkt != null
      {
        packets := packets + [pkt.mem[..pkt.size]];
        SplitThen(packets, Unread());
        pkt, failed := NextPacket();
      }
      SplitThen(packets, Unread());
    }

    /** One readable event: read, then hand over packets until there is none. A head that is
        not sound stops it, when all packets before that head have been handed over. */
    method Poll(ndata: int, incoming: bytes, cuts: seq<nat>)
      returns (ok: bool, taken: nat, packets: seq<bytes>, failed: bool)
      requires Valid()
      modifies this, buf
      ensures Valid() && taken <= |incoming| && (ok <==> ndata > 0)
      ensures ok ==> var all := old(Unread()) + incoming[..taken];
        && taken == Min(Min(|incoming|, buf.Length - old(p)), Offered(cuts))
        && (failed <==> !Sound(all)) && Then(packets, Split(Unread())) == Split(all)
        && if failed then !HeadOk(Unread()) else (packets, Unread()) == Split(all)
      ensures ok && AllCome(ndata, |incoming|, cuts) && Sound(old(Unread()) + incoming) ==>
        !failed && (packets, Unread()) == Split(old(Unread()) + incoming)
    {
      ok, taken := Read(ndata, incoming, cuts);
      if !ok {
        return ok, taken, [], false;
      }
      WholeTaken(incoming, taken);
      packets, failed := HandOver();
    }
  }

  lemma WholeTaken(s: bytes, taken: nat)
    requires taken <= |s|
    ensures taken == |s| ==> s[..taken] == s
  {
  }
}
