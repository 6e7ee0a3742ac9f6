/** Numbers as bytes, lowest first. */
module Bytes {

  type byte = b: int | 0 <= b < 256
  type bytes = seq<byte>
  type ushort = v: int | 0 <= v < 0x1_0000
  type uint = v: int | 0 <= v < 0x1_0000_0000

  function Pow256(n: nat): (p: nat)
    ensures p > 0
  {
    if n == 0 then 1 else 256 * Pow256(n - 1)
  }

  /** The n low bytes of v. */
  function Encode(v: nat, n: nat): (bs: bytes)
    ensures |bs| == n
  {
    if n == 0 then [] else [v % 256] + Encode(v / 256, n - 1)
  }

  function Decode(bs: bytes): nat {
    if bs == [] then 0 else bs[0] + 256 * Decode(bs[1..])
  }

  lemma {:induction false} DecodeBound(bs: bytes)
    ensures Decode(bs) < Pow256(|bs|)
  {
    if bs != [] {
      DecodeBound(bs[1..]);
    }
  }

  /** n bytes hold any number below 256^n. */
  lemma {:induction false} DecodeEncode(v: nat, n: nat)
    requires v < Pow256(n)
    ensures Decode(Encode(v, n)) == v
  {
    if n > 0 {
      DecodeEncode(v / 256, n - 1);
      assert Encode(v, n)[1..] == Encode(v / 256, n - 1);
    }
  }

  lemma LowByte(b: byte, d: nat)
    ensures (b + 256 * d) % 256 == b && (b + 256 * d) / 256 == d
  {
  }

  lemma {:induction false} EncodeDecode(bs: bytes)
    ensures Encode(Decode(bs), |bs|) == bs
  {
    if bs != [] {
      EncodeDecode(bs[1..]);
      LowByte(bs[0], Decode(bs[1..]));
    }
  }

  lemma Widths()
    ensures Pow256(2) == 0x1_0000 && Pow256(4) == 0x1_0000_0000
  {
  }

  /** The bytes one by one, as shifts and masks give them. */
  lemma Encode4(v: uint)
    ensures Encode(v, 4) == [v % 256, v / 256 % 256, v / 256 / 256 % 256, v / 256 / 256 / 256 % 256]
  {
    var w := v / 256 / 256 / 256;
    assert Encode(w, 1) == [w % 256] + Encode(w / 256, 0);
    assert Encode(v / 256 / 256, 2) == [v / 256 / 256 % 256] + Encode(w, 1);
    assert Encode(v / 256, 3) == [v / 256 % 256] + Encode(v / 256 / 256, 2);
  }

  lemma Encode2(v: ushort)
    ensures Encode(v, 2) == [v % 256, v / 256 % 256]
  {
  }

  /** Four and two bytes put together. */
  function Word(b0: int, b1: int, b2: int, b3: int): int {
    b0 + 0x100 * b1 + 0x1_0000 * b2 + 0x100_0000 * b3
  }

  function Half(b0: int, b1: int): int {
    b0 + 0x100 * b1
  }

  lemma Decode4(bs: bytes)
    requires |bs| == 4
    ensures Decode(bs) == Word(bs[0], bs[1], bs[2], bs[3]) < 0x1_0000_0000
  {
    assert bs[1..][1..] == bs[2..] && bs[2..][1..] == bs[3..] && bs[3..][1..] == [];
    assert Decode(bs[3..]) == bs[3] && Decode(bs[2..]) == Half(bs[2], bs[3]);
    assert Decode(bs[1..]) == bs[1] + 256 * Decode(bs[2..]);
  }

  lemma Decode2(bs: bytes)
    requires |bs| == 2
    ensures Decode(bs) == Half(bs[0], bs[1]) < 0x1_0000
  {
    assert bs[1..][1..] == [] && Decode(bs[1..]) == bs[1];
  }

  /** The signed reading of 32 or 16 bits, and back. */
  function Signed32(v: int): int {
    if v >= 0x8000_0000 then v - 0x1_0000_0000 else v
  }

  function Unsigned32(i: int): uint {
    i % 0x1_0000_0000
  }

  lemma SignedUnsigned32(i: int)
    requires -0x8000_0000 <= i < 0x8000_0000
    ensures Signed32(Unsigned32(i)) == i
  {
  }

  function Signed16(v: int): int {
    if v >= 0x8000 then v - 0x1_0000 else v
  }
}
