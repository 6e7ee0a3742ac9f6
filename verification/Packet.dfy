/** A packet: a head of size, function and request id, then the data, read and written at a
    moving position. */
module Packet {
  import opened Bytes
  import opened Wrappers

  const HEAD := 12
  const FUN_POS := 4
  const REQ_POS := 8
  const MAX_DATA := 0x40_0000
  const MAX_STRING := 0x8000

  /** bs over s from position pos on. */
  function Patch(s: bytes, pos: nat, bs: bytes): (r: bytes)
    requires pos + |bs| <= |s|
    ensures |r| == |s|
  {
    s[..pos] + bs + s[pos + |bs|..]
  }

  /** A string at the front of s: its length in two bytes, then itself. */
  function StringOf(s: bytes): Option<bytes> {
    if |s| < 2 || Signed16(Decode(s[..2])) < 0 || 2 + Decode(s[..2]) > |s| then None
    else Some(s[2..2 + Decode(s[..2])])
  }

  /** The whole packet as it goes over the wire. */
  function Image(fun: uint, req: uint, data: bytes): bytes {
    Encode(HEAD + |data|, 4) + Encode(fun, 4) + Encode(req, 4) + data
  }

  /** The size a stream's next packet announces; the C code reads it as a signed int. */
  function Announced(s: bytes): int
    requires |s| >= 4
  {
    Widths();
    DecodeBound(s[..4]);
    Signed32(Decode(s[..4]))
  }

  lemma ImageAnnounces(fun: uint, req: uint, data: bytes, behind: bytes)
    requires |data| <= MAX_DATA
    ensures Announced(Image(fun, req, data) + behind) == HEAD + |data| == |Image(fun, req, data)|
  {
    Widths();
    assert (Image(fun, req, data) + behind)[..4] == Encode(HEAD + |data|, 4);
    DecodeEncode(HEAD + |data|, 4);
  }

  /** A packet is known by what its size, its three head fields and the bytes behind them say. */
  lemma ImageExact(s: bytes, fun: uint, req: uint, data: bytes)
    requires |data| <= MAX_DATA
    ensures s == Image(fun, req, data) <==>
      && |s| == 12 + |data| && Decode(s[0..4]) == |s|
      && Decode(s[4..8]) == fun && Decode(s[8..12]) == req && s[12..] == data
  {
    if s == Image(fun, req, data) {
      ImageSays(fun, req, data);
    } else if |s| == 12 + |data| {
      Parts(s);
    }
  }

  lemma ImageSays(fun: uint, req: uint, data: bytes)
    requires |data| <= MAX_DATA
    ensures var s := Image(fun, req, data);
      |s| == 12 + |data| && Decode(s[0..4]) == |s| && Decode(s[4..8]) == fun && Decode(s[8..12]) == req && s[12..] == data
  {
    Widths();
    var s := Image(fun, req, data);
    DecodeEncode(|s|, 4);
    DecodeEncode(fun, 4);
    DecodeEncode(req, 4);
    assert s[0..4] == Encode(|s|, 4) && s[4..8] == Encode(fun, 4) && s[8..12] == Encode(req, 4);
  }

  lemma Parts(s: bytes)
    requires |s| >= 12
    ensures s == Encode(Decode(s[0..4]), 4) + Encode(Decode(s[4..8]), 4) + Encode(Decode(s[8..12]), 4) + s[12..]
  {
    EncodeDecode(s[0..4]);
    EncodeDecode(s[4..8]);
    EncodeDecode(s[8..12]);
    assert s == s[0..4] + s[4..8] + s[8..12] + s[12..];
  }

  lemma Sliced(s: bytes, from: nat, at: nat, len: nat, end: nat)
    requires from <= at && at + len <= end <= |s|
    ensures s[at..at + len] == s[from..end][at - from..at - from + len]
  {
    var whole, part := s[from..end], s[from..end][at - from..at - from + len];
    forall k | 0 <= k < len ensures part[k] == s[at..at + len][k] {
      assert part[k] == whole[at - from + k];
    }
  }

  class Packet {
    const size: int
    const mem: array<byte>
    var pos: int

    ghost predicate Valid()
      reads this
    {
      0 < size <= HEAD + MAX_DATA && mem.Length >= size && mem.Length >= HEAD && HEAD <= pos && (size >= HEAD ==> pos <= size)
    }

    /** The packet's bytes. */
    ghost function Data(): bytes
      requires Valid()
      reads this, mem
    {
      mem[..size]
    }

    /** What has been written after the head, and what is still to be read. */
    ghost function Written(): bytes
      requires Valid() && size >= HEAD
      reads this, mem
    {
      mem[HEAD..pos]
    }

    ghost function Rest(): bytes
      requires Valid()
      reads this, mem
    {
      if pos <= size then mem[pos..size] else []
    }

    constructor (dataSize: int)
      requires -HEAD < dataSize <= MAX_DATA
      ensures Valid() && fresh(mem) && size == HEAD + dataSize && pos == HEAD
      ensures mem[..4] == Encode(size, 4)
    {
      size := dataSize + HEAD;
      mem := new byte[if dataSize > 0 then dataSize + HEAD else HEAD];
      pos := HEAD;
      new;
      Encode4(size);
      mem[0], mem[1], mem[2], mem[3] := size % 256, size / 256 % 256, size / 256 / 256 % 256, size / 256 / 256 / 256 % 256;
    }

    /** NULL for more data than a packet may hold. */
    static method Create(dataSize: int) returns (pkt: Packet?)
      requires -HEAD < dataSize
      ensures pkt == null <==> dataSize > MAX_DATA
      ensures pkt != null ==>
        && fresh(pkt) && fresh(pkt.mem) && pkt.Valid() && pkt.size == HEAD + dataSize && pkt.pos == HEAD
        && pkt.mem[..4] == Encode(pkt.size, 4)
    {
      if dataSize > MAX_DATA {
        return null;
      }
      pkt := new Packet(dataSize);
    }

    method Seek(offset: int) returns (ok: bool)
      requires Valid()
      modifies this`pos
      ensures ok <==> 0 <= offset <= size - HEAD
      ensures Valid() && pos == if ok then HEAD + offset else old(pos)
    {
      if offset < 0 || offset > size - HEAD {
        return false;
      }
      pos := offset + HEAD;
      return true;
    }

    // ---- Typed writes: all or nothing at the position ------------------------------------

    method WriteUint(v: uint) returns (ok: bool)
      requires Valid()
      modifies this`pos, mem
      ensures Valid() && (ok <==> old(pos) + 4 <= size)
      ensures if ok then pos == old(pos) + 4 && mem[..pos] == old(mem[..pos]) + Encode(v, 4)
        else pos == old(pos) && mem[..] == old(mem[..])
    {
      if pos + 4 > size {
        return false;
      }
      Encode4(v);
      mem[pos], mem[pos + 1], mem[pos + 2], mem[pos + 3] := v % 256, v / 256 % 256, v / 256 / 256 % 256, v / 256 / 256 / 256 % 256;
      pos := pos + 4;
      return true;
    }

    method WriteInt(i: int) returns (ok: bool)
      requires Valid()
      modifies this`pos, mem
      ensures Valid() && (ok <==> old(pos) + 4 <= size)
      ensures if ok then pos == old(pos) + 4 && mem[..pos] == old(mem[..pos]) + Encode(Unsigned32(i), 4)
        else pos == old(pos) && mem[..] == old(mem[..])
    {
      ok := WriteUint(Unsigned32(i));
    }

    method WriteUshort(v: ushort) returns (ok: bool)
      requires Valid()
      modifies this`pos, mem
      ensures Valid() && (ok <==> old(pos) + 2 <= size)
      ensures if ok then pos == old(pos) + 2 && mem[..pos] == old(mem[..pos]) + Encode(v, 2)
        else pos == old(pos) && mem[..] == old(mem[..])
    {
      if pos + 2 > size {
        return false;
      }
      Encode2(v);
      mem[pos], mem[pos + 1] := v % 256, v / 256 % 256;
      pos := pos + 2;
      return true;
    }

    method WriteString(s: bytes) returns (ok: bool)
      requires Valid()
      modifies this`pos, mem
      ensures Valid() && (ok <==> |s| < MAX_STRING && old(pos) + 2 + |s| <= size)
      ensures if ok then pos == old(pos) + 2 + |s| && mem[..pos] == old(mem[..pos]) + (Encode(|s|, 2) + s)
        else pos == old(pos) && mem[..] == old(mem[..])
    {
      if |s| >= MAX_STRING {
        return false;
      }
      if pos + 2 + |s| > size {
        return false;
      }
      ok := WriteUshort(|s|);
      forall i | 0 <= i < |s| {
        mem[pos + i] := s[i];
      }
      pos := pos + |s|;
    }

    // ---- Typed reads --------------------------------------------------------------------------

    method ReadUint() returns (v: Option<uint>)
      requires Valid()
      modifies this`pos
      ensures Valid()
      ensures if |old(Rest())| >= 4
        then v == Some(Decode(old(Rest())[..4])) && Rest() == old(Rest())[4..]
        else v == None && pos == old(pos)
    {
      if pos + 4 > size {
        return None;
      }
      ghost var bs := Rest()[..4];
      Decode4(bs);
      v := Some(Word(mem[pos], mem[pos + 1], mem[pos + 2], mem[pos + 3]));
      pos := pos + 4;
    }

    method ReadInt() returns (v: Option<int>)
      requires Valid()
      modifies this`pos
      ensures Valid()
      ensures if |old(Rest())| >= 4
        then v == Some(Signed32(Decode(old(Rest())[..4]))) && Rest() == old(Rest())[4..]
        else v == None && pos == old(pos)
    {
      var u := ReadUint();
      v := if u.None? then None else Some(Signed32(u.value));
    }

    method ReadUshort() returns (v: Option<ushort>)
      requires Valid()
      modifies this`pos
      ensures Valid()
      ensures if |old(Rest())| >= 2
        then v == Some(Decode(old(Rest())[..2])) && Rest() == old(Rest())[2..]
        else v == None && pos == old(pos)
    {
      if pos + 2 > size {
        return None;
      }
      Decode2(Rest()[..2]);
      v := Some(Half(mem[pos], mem[pos + 1]));
      pos := pos + 2;
    }

    /** The length is read as a signed short, so that 32768 and more is an error. */
    method ReadString() returns (s: Option<bytes>)
      requires Valid()
      modifies this`pos
      ensures Valid()
      ensures s == StringOf(old(Rest()))
      ensures s.Some? ==> Rest() == old(Rest())[2 + |s.value|..]
      ensures s.None? ==> pos == old(pos) + if |old(Rest())| < 2 then 0 else 2
    {
      ghost var r := Rest();
      var u := ReadUshort();
      if u.None? {
        return None;
      }
      var len := Signed16(u.value);
      if len < 0 {
        return None;
      }
      if pos + len > size {
        return None;
      }
      Sliced(mem[..], pos - 2, pos, len, size);
      s := Some(mem[pos..pos + len]);
      pos := pos + len;
    }

    // ---- Head fields ----------------------------------------------------------------------------

    /** A head field through the position, which is put back. */
    method SetField(at: int, v: uint) returns (ok: bool)
      requires Valid() && (at == FUN_POS || at == REQ_POS)
      modifies this`pos, mem
      ensures Valid() && pos == old(pos) && (ok <==> size >= HEAD)
      ensures mem[..] == if ok then Patch(old(mem[..]), at, Encode(v, 4)) else old(mem[..])
    {
      if size < HEAD {
        return false;
      }
      Encode4(v);
      mem[at], mem[at + 1], mem[at + 2], mem[at + 3] := v % 256, v / 256 % 256, v / 256 / 256 % 256, v / 256 / 256 / 256 % 256;
      return true;
    }

    method GetField(at: int) returns (v: uint)
      requires Valid() && (at == FUN_POS || at == REQ_POS)
      ensures size >= HEAD ==> v == Decode(mem[at..at + 4])
      ensures size < HEAD ==> v == 0
    {
      if size < HEAD {
        return 0;
      }
      Decode4(mem[at..at + 4]);
      return Word(mem[at], mem[at + 1], mem[at + 2], mem[at + 3]);
    }
  }
}
