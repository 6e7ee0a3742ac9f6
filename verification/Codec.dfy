/** File meta data and meta-meta data in packets. */
module Codec {
  import opened Bytes
  import opened Packet
  import opened Wrappers

  const CREATE_METADATA: uint := 9
  const CREATE_META_META_DATA: uint := 10
  const FIELDS := 20
  const MM_FIELDS := 12

  datatype Block = Block(first: ushort, second: ushort)

  /** struct s_file_meta_data. */
  datatype FileMeta = FileMeta(fname: bytes, fileId: uint, version: uint, sizeHigh: uint, sizeLow: uint, blocks: seq<Block>)

  /** struct s_file_meta_meta_data: nmserv is the count that is sent, mservs the servers. */
  datatype FileMetaMeta = FileMetaMeta(fname: bytes, fileId: uint, version: uint, nmserv: int, mservs: seq<ushort>)

  // ---- What is written ------------------------------------------------------------------

  /** A string too long for its length field is left out, and nobody notices. */
  function StringBytes(s: bytes): bytes {
    if |s| < MAX_STRING then Encode(|s|, 2) + s else []
  }

  function BlockBytes(blocks: seq<Block>): (bs: bytes)
    ensures |bs| == 4 * |blocks|
  {
    if blocks == [] then []
    else Encode(blocks[0].first, 2) + Encode(blocks[0].second, 2) + BlockBytes(blocks[1..])
  }

  function ServBytes(mservs: seq<ushort>): (bs: bytes)
    ensures |bs| == 2 * |mservs|
  {
    if mservs == [] then [] else Encode(mservs[0], 2) + ServBytes(mservs[1..])
  }

  function FieldBytes(m: FileMeta): (bs: bytes)
    requires |m.blocks| < 0x1_0000_0000
    ensures |bs| == FIELDS
  {
    Encode(m.fileId, 4) + Encode(m.version, 4) + Encode(m.sizeHigh, 4) + Encode(m.sizeLow, 4) + Encode(|m.blocks|, 4)
  }

  function MetaBytes(m: FileMeta): bytes
    requires |m.blocks| < 0x1_0000_0000
  {
    StringBytes(m.fname) + (FieldBytes(m) + BlockBytes(m.blocks))
  }

  function MmFieldBytes(m: FileMetaMeta): (bs: bytes)
    ensures |bs| == MM_FIELDS
  {
    Encode(m.fileId, 4) + Encode(m.version, 4) + Encode(Unsigned32(m.nmserv), 4)
  }

  function MetaMetaBytes(m: FileMetaMeta): bytes {
    StringBytes(m.fname) + (MmFieldBytes(m) + ServBytes(m.mservs))
  }

  // ---- What is read -----------------------------------------------------------------------

  function ReadBlocks(s: bytes, n: nat): Option<seq<Block>> {
    if n == 0 then Some([])
    else if |s| < 4 then None
    else
      var rest := ReadBlocks(s[4..], n - 1);
      Decode2(s[..2]);
      Decode2(s[2..4]);
      if rest.None? then None else Some([Block(Decode(s[..2]), Decode(s[2..4]))] + rest.value)
  }

  function ReadServs(s: bytes, n: nat): Option<seq<ushort>> {
    if n == 0 then Some([])
    else if |s| < 2 then None
    else
      var rest := ReadServs(s[2..], n - 1);
      Decode2(s[..2]);
      if rest.None? then None else Some([Decode(s[..2])] + rest.value)
  }

  function Uint(s: bytes, at: nat): uint
    requires at + 4 <= |s|
  {
    Decode4(s[at..at + 4]);
    Decode(s[at..at + 4])
  }

  /** The record after its name. */
  function ReadFields(name: bytes, r: bytes): Option<FileMeta> {
    if |r| < FIELDS then None
    else
      var blocks := ReadBlocks(r[FIELDS..], Uint(r, 16));
      if blocks.None? then None
      else Some(FileMeta(name, Uint(r, 0), Uint(r, 4), Uint(r, 8), Uint(r, 12), blocks.value))
  }

  function ReadMeta(s: bytes): Option<FileMeta> {
    var name := StringOf(s);
    if name.None? then None else ReadFields(name.value, s[2 + |name.value|..])
  }

  /** A negative count is kept, with no servers read. */
  function ReadMmFields(name: bytes, r: bytes): Option<FileMetaMeta> {
    if |r| < MM_FIELDS then None
    else
      var n := Signed32(Uint(r, 8));
      var mservs := ReadServs(r[MM_FIELDS..], if n > 0 then n else 0);
      if mservs.None? then None
      else Some(FileMetaMeta(name, Uint(r, 0), Uint(r, 4), n, mservs.value))
  }

  function ReadMetaMeta(s: bytes): Option<FileMetaMeta> {
    var name := StringOf(s);
    if name.None? then None else ReadMmFields(name.value, s[2 + |name.value|..])
  }

  // ---- Round trips --------------------------------------------------------------------------

  lemma StringReads(s: bytes, behind: bytes)
    requires |s| < MAX_STRING
    ensures StringOf(StringBytes(s) + behind) == Some(s)
    ensures (StringBytes(s) + behind)[2 + |s|..] == behind
  {
    var all := StringBytes(s) + behind;
    Widths();
    DecodeEncode(|s|, 2);
    assert all[..2] == Encode(|s|, 2);
    assert all[2..2 + |s|] == s;
  }

  lemma UshortReads(bs: bytes, v: ushort)
    requires bs == Encode(v, 2)
    ensures Decode(bs) == v
  {
    Widths();
    DecodeEncode(v, 2);
  }

  lemma InFront(a: bytes, b: bytes, c: bytes)
    ensures a + b + c == a + (b + c)
  {
  }

  lemma BlockReads(first: bytes, second: bytes, rest: bytes, b: Block, n: nat)
    requires |first| == |second| == 2 && Decode(first) == b.first && Decode(second) == b.second
    ensures ReadBlocks(first + second + rest, n + 1) == Onto([b], ReadBlocks(rest, n))
  {
    var s := first + second + rest;
    assert s[..2] == first && s[2..4] == second && s[4..] == rest;
  }

  lemma {:induction false} BlocksRead(blocks: seq<Block>, behind: bytes)
    ensures ReadBlocks(BlockBytes(blocks) + behind, |blocks|) == Some(blocks)
  {
    if blocks != [] {
      var b, rest := blocks[0], BlockBytes(blocks[1..]) + behind;
      var first, second := Encode(b.first, 2), Encode(b.second, 2);
      UshortReads(first, b.first);
      UshortReads(second, b.second);
      BlocksRead(blocks[1..], behind);
      BlockReads(first, second, rest, b, |blocks| - 1);
      InFront(first + second, BlockBytes(blocks[1..]), behind);
      assert [b] + blocks[1..] == blocks;
    }
  }

  lemma ServReads(first: bytes, rest: bytes, v: ushort, n: nat)
    requires |first| == 2 && Decode(first) == v
    ensures ReadServs(first + rest, n + 1) == Onto([v], ReadServs(rest, n))
  {
    var s := first + rest;
    assert s[..2] == first && s[2..] == rest;
  }

  lemma {:induction false} ServsRead(mservs: seq<ushort>, behind: bytes)
    ensures ReadServs(ServBytes(mservs) + behind, |mservs|) == Some(mservs)
  {
    if mservs != [] {
      var first, rest := Encode(mservs[0], 2), ServBytes(mservs[1..]) + behind;
      UshortReads(first, mservs[0]);
      ServsRead(mservs[1..], behind);
      ServReads(first, rest, mservs[0], |mservs| - 1);
      InFront(first, ServBytes(mservs[1..]), behind);
      assert [mservs[0]] + mservs[1..] == mservs;
    }
  }

  lemma UintReads(s: bytes, at: nat, v: uint)
    requires at + 4 <= |s| && s[at..at + 4] == Encode(v, 4)
    ensures Uint(s, at) == v
  {
    Widths();
    DecodeEncode(v, 4);
  }

  lemma Slices(a: bytes, b: bytes, c: bytes, d: bytes, e: bytes, behind: bytes)
    requires |a| == |b| == |c| == |d| == |e| == 4
    ensures var r := a + b + c + d + e + behind;
      r[0..4] == a && r[4..8] == b && r[8..12] == c && r[12..16] == d && r[16..20] == e && r[20..] == behind
  {
  }

  lemma FieldsRead(m: FileMeta, behind: bytes)
    requires |m.blocks| < 0x1_0000_0000
    ensures var r := FieldBytes(m) + behind;
      && Uint(r, 0) == m.fileId && Uint(r, 4) == m.version && Uint(r, 8) == m.sizeHigh && Uint(r, 12) == m.sizeLow
      && Uint(r, 16) == |m.blocks| && r[FIELDS..] == behind
  {
    var r := FieldBytes(m) + behind;
    Slices(Encode(m.fileId, 4), Encode(m.version, 4), Encode(m.sizeHigh, 4), Encode(m.sizeLow, 4), Encode(|m.blocks|, 4), behind);
    UintReads(r, 0, m.fileId);
    UintReads(r, 4, m.version);
    UintReads(r, 8, m.sizeHigh);
    UintReads(r, 12, m.sizeLow);
    UintReads(r, 16, |m.blocks|);
  }

  lemma MmFieldsRead(m: FileMetaMeta, behind: bytes)
    ensures var r := MmFieldBytes(m) + behind;
      && Uint(r, 0) == m.fileId && Uint(r, 4) == m.version && Uint(r, 8) == Unsigned32(m.nmserv) && r[MM_FIELDS..] == behind
  {
    var r := MmFieldBytes(m) + behind;
    UintReads(r, 0, m.fileId);
    UintReads(r, 4, m.version);
    UintReads(r, 8, Unsigned32(m.nmserv));
  }

  lemma ShortName(s: bytes)
    ensures StringOf(s).Some? ==> |StringOf(s).value| < MAX_STRING
  {
    if |s| >= 2 { Decode2(s[..2]); }
  }

  lemma FieldsRoundTrip(m: FileMeta, behind: bytes)
    requires |m.blocks| < 0x1_0000_0000
    ensures ReadFields(m.fname, FieldBytes(m) + BlockBytes(m.blocks) + behind) == Some(m)
  {
    assert FieldBytes(m) + BlockBytes(m.blocks) + behind == FieldBytes(m) + (BlockBytes(m.blocks) + behind);
    FieldsRead(m, BlockBytes(m.blocks) + behind);
    BlocksRead(m.blocks, behind);
  }

  /** A meta data record comes back, whatever is behind it, exactly if its name fits. */
  lemma MetaRoundTrip(m: FileMeta, behind: bytes)
    requires |m.blocks| < 0x1_0000_0000
    ensures ReadMeta(MetaBytes(m) + behind) == Some(m) <==> |m.fname| < MAX_STRING
  {
    var rest := FieldBytes(m) + BlockBytes(m.blocks) + behind;
    assert MetaBytes(m) + behind == StringBytes(m.fname) + rest;
    if |m.fname| < MAX_STRING {
      StringReads(m.fname, rest);
      FieldsRoundTrip(m, behind);
    } else {
      ShortName(MetaBytes(m) + behind);
    }
  }

  lemma MmFieldsRoundTrip(m: FileMetaMeta, behind: bytes)
    requires m.nmserv == |m.mservs| < 0x8000_0000
    ensures ReadMmFields(m.fname, MmFieldBytes(m) + ServBytes(m.mservs) + behind) == Some(m)
  {
    assert MmFieldBytes(m) + ServBytes(m.mservs) + behind == MmFieldBytes(m) + (ServBytes(m.mservs) + behind);
    MmFieldsRead(m, ServBytes(m.mservs) + behind);
    SignedUnsigned32(m.nmserv);
    ServsRead(m.mservs, behind);
  }

  /** So does a meta-meta data record, if its count is right. */
  lemma MetaMetaRoundTrip(m: FileMetaMeta, behind: bytes)
    requires m.nmserv == |m.mservs| < 0x8000_0000
    ensures ReadMetaMeta(MetaMetaBytes(m) + behind) == Some(m) <==> |m.fname| < MAX_STRING
  {
    var rest := MmFieldBytes(m) + ServBytes(m.mservs) + behind;
    assert MetaMetaBytes(m) + behind == StringBytes(m.fname) + rest;
    if |m.fname| < MAX_STRING {
      StringReads(m.fname, rest);
      MmFieldsRoundTrip(m, behind);
    } else {
      ShortName(MetaMetaBytes(m) + behind);
    }
  }

  // ---- Layout ---------------------------------------------------------------------------------

  /** Two bytes of s from position at on, as a number. */
  function Ushort(s: bytes, at: nat): int
    requires at + 2 <= |s|
  {
    Decode(s[at..at + 2])
  }

  lemma {:induction false} BlocksLayout(blocks: seq<Block>, i: nat)
    requires i < |blocks|
    ensures var s := BlockBytes(blocks); Ushort(s, 4 * i) == blocks[i].first && Ushort(s, 4 * i + 2) == blocks[i].second
  {
    var s, first, second := BlockBytes(blocks), Encode(blocks[0].first, 2), Encode(blocks[0].second, 2);
    if i == 0 {
      UshortReads(first, blocks[0].first);
      UshortReads(second, blocks[0].second);
      assert s[0..2] == first && s[2..4] == second;
    } else {
      BlocksLayout(blocks[1..], i - 1);
      Moved(first + second, BlockBytes(blocks[1..]), 4 * i - 4);
      Moved(first + second, BlockBytes(blocks[1..]), 4 * i - 2);
    }
  }

  lemma {:induction false} ServsLayout(mservs: seq<ushort>, i: nat)
    requires i < |mservs|
    ensures Ushort(ServBytes(mservs), 2 * i) == mservs[i]
  {
    var s, first := ServBytes(mservs), Encode(mservs[0], 2);
    if i == 0 {
      UshortReads(first, mservs[0]);
      assert s[0..2] == first;
    } else {
      ServsLayout(mservs[1..], i - 1);
      Moved(first, ServBytes(mservs[1..]), 2 * i - 2);
    }
  }

  lemma Moved(front: bytes, s: bytes, at: nat)
    requires at + 2 <= |s|
    ensures Ushort(front + s, |front| + at) == Ushort(s, at)
  {
    assert (front + s)[|front| + at..|front| + at + 2] == s[at..at + 2];
  }

  lemma MovedUint(front: bytes, s: bytes, at: nat)
    requires at + 4 <= |s|
    ensures Uint(front + s, |front| + at) == Uint(s, at)
  {
    assert (front + s)[|front| + at..|front| + at + 4] == s[at..at + 4];
  }

  /** Where the bytes of a record hold what: its name's length and its name, five numbers of
      four bytes, and two numbers of two bytes for every block. */
  lemma MetaLayout(m: FileMeta)
    requires |m.blocks| < 0x1_0000_0000 && |m.fname| < MAX_STRING
    ensures var s, n := MetaBytes(m), 2 + |m.fname|;
      && |s| == n + 20 + 4 * |m.blocks| && Ushort(s, 0) == |m.fname| && s[2..n] == m.fname
      && Uint(s, n) == m.fileId && Uint(s, n + 4) == m.version && Uint(s, n + 8) == m.sizeHigh
      && Uint(s, n + 12) == m.sizeLow && Uint(s, n + 16) == |m.blocks|
      && forall i :: 0 <= i < |m.blocks| ==>
        Ushort(s, n + 20 + 4 * i) == m.blocks[i].first && Ushort(s, n + 22 + 4 * i) == m.blocks[i].second
  {
    var name, fields, blocks := StringBytes(m.fname), FieldBytes(m), BlockBytes(m.blocks);
    NameLayout(m.fname, fields + blocks);
    NumbersLayout(m, name, blocks);
    InFront(name, fields, blocks);
    forall i | 0 <= i < |m.blocks|
      ensures Ushort(MetaBytes(m), 2 + |m.fname| + 20 + 4 * i) == m.blocks[i].first
      ensures Ushort(MetaBytes(m), 2 + |m.fname| + 22 + 4 * i) == m.blocks[i].second
    {
      BlocksLayout(m.blocks, i);
      UshortBehind(name + fields, blocks, 4 * i, 2 + |m.fname| + 20 + 4 * i);
    }
  }

  /** Two bytes of bs, and two more, seen behind front. */
  lemma UshortBehind(front: bytes, bs: bytes, at: nat, end: nat)
    requires at + 2 <= |bs| && end == |front| + at
    ensures Ushort(front + bs, end) == Ushort(bs, at)
    ensures at + 4 <= |bs| ==> Ushort(front + bs, end + 2) == Ushort(bs, at + 2)
  {
    Moved(front, bs, at);
    if at + 4 <= |bs| {
      Moved(front, bs, at + 2);
    }
  }

  lemma NumbersLayout(m: FileMeta, name: bytes, behind: bytes)
    requires |m.blocks| < 0x1_0000_0000
    ensures var s, n := name + (FieldBytes(m) + behind), |name|;
      && Uint(s, n) == m.fileId && Uint(s, n + 4) == m.version && Uint(s, n + 8) == m.sizeHigh
      && Uint(s, n + 12) == m.sizeLow && Uint(s, n + 16) == |m.blocks|
  {
    var r := FieldBytes(m) + behind;
    FieldsRead(m, behind);
    MovedUint(name, r, 0);
    MovedUint(name, r, 4);
    MovedUint(name, r, 8);
    MovedUint(name, r, 12);
    MovedUint(name, r, 16);
  }

  lemma NameLayout(fname: bytes, behind: bytes)
    requires |fname| < MAX_STRING
    ensures var s := StringBytes(fname) + behind; Ushort(s, 0) == |fname| && s[2..2 + |fname|] == fname
  {
    var s := StringBytes(fname) + behind;
    assert s[0..2] == Encode(|fname|, 2);
    UshortReads(s[0..2], |fname|);
  }

  /** And those of a meta-meta record: three numbers of four bytes, and two bytes a server. */
  lemma MetaMetaLayout(m: FileMetaMeta)
    requires 0 <= m.nmserv < 0x1_0000_0000 && |m.fname| < MAX_STRING
    ensures var s, n := MetaMetaBytes(m), 2 + |m.fname|;
      && |s| == n + 12 + 2 * |m.mservs| && Ushort(s, 0) == |m.fname| && s[2..n] == m.fname
      && Uint(s, n) == m.fileId && Uint(s, n + 4) == m.version && Uint(s, n + 8) == m.nmserv
      && forall i :: 0 <= i < |m.mservs| ==> Ushort(s, n + 12 + 2 * i) == m.mservs[i]
  {
    var name, fields, servs := StringBytes(m.fname), MmFieldBytes(m), ServBytes(m.mservs);
    NameLayout(m.fname, fields + servs);
    MmFieldsRead(m, servs);
    InFront(name, fields, servs);
    MovedUint(name, fields + servs, 0);
    MovedUint(name, fields + servs, 4);
    MovedUint(name, fields + servs, 8);
    forall i | 0 <= i < |m.mservs| ensures Ushort(MetaMetaBytes(m), 2 + |m.fname| + 12 + 2 * i) == m.mservs[i] {
      ServsLayout(m.mservs, i);
      UshortBehind(name + fields, servs, 2 * i, 2 + |m.fname| + 12 + 2 * i);
    }
  }

  // ---- Cut records --------------------------------------------------------------------------

  lemma {:induction false} BlocksCut(blocks: seq<Block>, k: nat)
    requires k < 4 * |blocks|
    ensures ReadBlocks(BlockBytes(blocks)[..k], |blocks|) == None
  {
    if k >= 4 {
      assert BlockBytes(blocks)[..k][4..] == BlockBytes(blocks[1..])[..k - 4];
      BlocksCut(blocks[1..], k - 4);
    }
  }

  lemma StringCut(s: bytes, k: nat)
    requires |s| < MAX_STRING && k < 2 + |s|
    ensures StringOf(StringBytes(s)[..k]) == None
  {
    if k >= 2 {
      Widths();
      DecodeEncode(|s|, 2);
      assert StringBytes(s)[..k][..2] == Encode(|s|, 2);
    }
  }

  /** A record that is cut short is refused, wherever the cut. */
  lemma CutMetaRefused(m: FileMeta, k: nat)
    requires |m.blocks| < 0x1_0000_0000 && |m.fname| < MAX_STRING && k < |MetaBytes(m)|
    ensures ReadMeta(MetaBytes(m)[..k]) == None
  {
    var s, n := MetaBytes(m)[..k], 2 + |m.fname|;
    if k < n {
      StringCut(m.fname, k);
      assert s == StringBytes(m.fname)[..k];
    } else {
      var rest := (FieldBytes(m) + BlockBytes(m.blocks))[..k - n];
      assert s == StringBytes(m.fname) + rest;
      StringReads(m.fname, rest);
      if |rest| >= FIELDS {
        var behind := BlockBytes(m.blocks)[..k - n - FIELDS];
        assert rest == FieldBytes(m) + behind;
        FieldsRead(m, behind);
        BlocksCut(m.blocks, |behind|);
      }
    }
  }

  // ---- Through a packet -----------------------------------------------------------------------

  lemma {:induction false} BlocksGrow(blocks: seq<Block>, i: nat)
    requires i < |blocks|
    ensures BlockBytes(blocks[..i + 1]) == BlockBytes(blocks[..i]) + Encode(blocks[i].first, 2) + Encode(blocks[i].second, 2)
  {
    if i > 0 {
      BlocksGrow(blocks[1..], i - 1);
      assert blocks[..i + 1][1..] == blocks[1..][..i] && blocks[..i][1..] == blocks[1..][..i - 1];
    } else {
      assert blocks[..1][1..] == [] && blocks[..0] == [];
    }
  }

  lemma {:induction false} ServsGrow(mservs: seq<ushort>, i: nat)
    requires i < |mservs|
    ensures ServBytes(mservs[..i + 1]) == ServBytes(mservs[..i]) + Encode(mservs[i], 2)
  {
    if i > 0 {
      ServsGrow(mservs[1..], i - 1);
      assert mservs[..i + 1][1..] == mservs[1..][..i] && mservs[..i][1..] == mservs[1..][..i - 1];
    } else {
      assert mservs[..1][1..] == [] && mservs[..0] == [];
    }
  }

  /** A new packet with its function set; NULL if there is too much data. */
  method Easy(fun: uint, dataSize: nat) returns (pkt: Packet?)
    ensures pkt == null <==> dataSize > MAX_DATA
    ensures pkt != null ==>
      && fresh(pkt) && fresh(pkt.mem) && pkt.Valid() && pkt.size == HEAD + dataSize && pkt.pos == HEAD
      && pkt.mem[..8] == Encode(pkt.size, 4) + Encode(fun, 4)
  {
    pkt := Packet.Create(dataSize);
    if pkt != null {
      ghost var was := pkt.mem[..];
      assert was[..4] == Encode(pkt.size, 4);
      var ok := pkt.SetField(FUN_POS, fun);
      assert pkt.mem[..8] == was[..4] + Encode(fun, 4);
    }
  }

  method WriteBlocks(pkt: Packet, blocks: seq<Block>)
    requires pkt.Valid() && pkt.pos + 4 * |blocks| <= pkt.size
    modifies pkt`pos, pkt.mem
    ensures pkt.Valid() && pkt.pos == old(pkt.pos) + 4 * |blocks|
    ensures pkt.mem[..pkt.pos] == old(pkt.mem[..pkt.pos]) + BlockBytes(blocks)
  {
    var i := 0;
    assert blocks[..0] == [];
    while i < |blocks|
      invariant 0 <= i <= |blocks| && pkt.Valid() && pkt.pos == old(pkt.pos) + 4 * i
      invariant pkt.mem[..pkt.pos] == old(pkt.mem[..pkt.pos]) + BlockBytes(blocks[..i])
    {
      BlocksGrow(blocks, i);
      var ok := pkt.WriteUshort(blocks[i].first);
      ok := pkt.WriteUshort(blocks[i].second);
      i := i + 1;
    }
    assert blocks[..i] == blocks;
  }

  method WriteServs(pkt: Packet, mservs: seq<ushort>)
    requires pkt.Valid() && pkt.pos + 2 * |mservs| <= pkt.size
    modifies pkt`pos, pkt.mem
    ensures pkt.Valid() && pkt.pos == old(pkt.pos) + 2 * |mservs|
    ensures pkt.mem[..pkt.pos] == old(pkt.mem[..pkt.pos]) + ServBytes(mservs)
  {
    var i := 0;
    assert mservs[..0] == [];
    while i < |mservs|
      invariant 0 <= i <= |mservs| && pkt.Valid() && pkt.pos == old(pkt.pos) + 2 * i
      invariant pkt.mem[..pkt.pos] == old(pkt.mem[..pkt.pos]) + ServBytes(mservs[..i])
    {
      ServsGrow(mservs, i);
      var ok := pkt.WriteUshort(mservs[i]);
      i := i + 1;
    }
    assert mservs[..i] == mservs;
  }

  lemma Join3(a: bytes, b: bytes, c: bytes, d: bytes)
    ensures a + b + c + d == a + (b + (c + d))
  {
  }

  lemma Join5(a: bytes, b1: bytes, b2: bytes, b3: bytes, b4: bytes, b5: bytes)
    ensures a + b1 + b2 + b3 + b4 + b5 == a + (b1 + b2 + b3 + b4 + b5)
  {
  }

  method WriteFields(pkt: Packet, m: FileMeta)
    requires |m.blocks| < 0x1_0000_0000 && pkt.Valid() && pkt.pos + FIELDS <= pkt.size
    modifies pkt`pos, pkt.mem
    ensures pkt.Valid() && pkt.pos == old(pkt.pos) + FIELDS
    ensures pkt.mem[..pkt.pos] == old(pkt.mem[..pkt.pos]) + FieldBytes(m)
  {
    Join5(pkt.mem[..pkt.pos], Encode(m.fileId, 4), Encode(m.version, 4), Encode(m.sizeHigh, 4), Encode(m.sizeLow, 4),
          Encode(|m.blocks|, 4));
    var ok := pkt.WriteUint(m.fileId);
    ok := pkt.WriteUint(m.version);
    ok := pkt.WriteUint(m.sizeHigh);
    ok := pkt.WriteUint(m.sizeLow);
    ok := pkt.WriteUint(|m.blocks|);
  }

  method WriteMmFields(pkt: Packet, m: FileMetaMeta)
    requires pkt.Valid() && pkt.pos + MM_FIELDS <= pkt.size
    modifies pkt`pos, pkt.mem
    ensures pkt.Valid() && pkt.pos == old(pkt.pos) + MM_FIELDS
    ensures pkt.mem[..pkt.pos] == old(pkt.mem[..pkt.pos]) + MmFieldBytes(m)
  {
    Join5(pkt.mem[..pkt.pos], Encode(m.fileId, 4), Encode(m.version, 4), Encode(Unsigned32(m.nmserv), 4), [], []);
    var ok := pkt.WriteUint(m.fileId);
    ok := pkt.WriteUint(m.version);
    ok := pkt.WriteInt(m.nmserv);
  }

  method WriteName(pkt: Packet, fname: bytes)
    requires pkt.Valid() && pkt.pos + 2 + |fname| <= pkt.size
    modifies pkt`pos, pkt.mem
    ensures pkt.Valid() && pkt.pos == old(pkt.pos) + |StringBytes(fname)|
    ensures pkt.mem[..pkt.pos] == old(pkt.mem[..pkt.pos]) + StringBytes(fname)
  {
    var ok := pkt.WriteString(fname);
  }

  lemma After(mem: bytes, pos: nat, head: bytes, bs: bytes)
    requires pos <= |mem| && |head| == HEAD && mem[..pos] == head + bs
    ensures HEAD <= pos && mem[HEAD..pos] == bs && mem[..8] == head[..8]
  {
  }

  /** Room is reserved for the whole name even if the name will not be written. */
  method PacketFromMeta(m: FileMeta) returns (pkt: Packet?)
    ensures pkt == null <==> 2 + |m.fname| + FIELDS + 4 * |m.blocks| > MAX_DATA
    ensures pkt != null ==>
      && fresh(pkt) && pkt.Valid() && pkt.size == HEAD + 2 + |m.fname| + FIELDS + 4 * |m.blocks|
      && pkt.mem[..8] == Encode(pkt.size, 4) + Encode(CREATE_METADATA, 4)
      && pkt.mem[HEAD..pkt.pos] == MetaBytes(m)
  {
    pkt := Easy(CREATE_METADATA, 2 + |m.fname| + FIELDS + 4 * |m.blocks|);
    if pkt != null {
      ghost var head := pkt.mem[..HEAD];
      assert head[..8] == pkt.mem[..8];
      WriteName(pkt, m.fname);
      WriteFields(pkt, m);
      WriteBlocks(pkt, m.blocks);
      Join3(head, StringBytes(m.fname), FieldBytes(m), BlockBytes(m.blocks));
      After(pkt.mem[..], pkt.pos, head, MetaBytes(m));
    }
  }

  /** The servers take two bytes each, though four are reserved. */
  method PacketFromMetaMeta(m: FileMetaMeta) returns (pkt: Packet?)
    requires m.nmserv == |m.mservs|
    ensures pkt == null <==> 2 + |m.fname| + MM_FIELDS + 4 * |m.mservs| > MAX_DATA
    ensures pkt != null ==>
      && fresh(pkt) && pkt.Valid() && pkt.size == HEAD + 2 + |m.fname| + MM_FIELDS + 4 * |m.mservs|
      && pkt.mem[..8] == Encode(pkt.size, 4) + Encode(CREATE_META_META_DATA, 4)
      && pkt.mem[HEAD..pkt.pos] == MetaMetaBytes(m)
  {
    pkt := Easy(CREATE_META_META_DATA, 2 + |m.fname| + MM_FIELDS + 4 * |m.mservs|);
    if pkt != null {
      ghost var head := pkt.mem[..HEAD];
      assert head[..8] == pkt.mem[..8];
      WriteName(pkt, m.fname);
      WriteMmFields(pkt, m);
      WriteServs(pkt, m.mservs);
      Join3(head, StringBytes(m.fname), MmFieldBytes(m), ServBytes(m.mservs));
      After(pkt.mem[..], pkt.pos, head, MetaMetaBytes(m));
    }
  }

  function Onto<T>(read: seq<T>, rest: Option<seq<T>>): Option<seq<T>> {
    if rest.None? then None else Some(read + rest.value)
  }

  lemma OntoMore<T>(read: seq<T>, x: T, rest: Option<seq<T>>)
    ensures Onto(read, Onto([x], rest)) == Onto(read + [x], rest)
    ensures Onto([], rest) == rest && Onto(read, Some([])) == Some(read)
  {
    assert read + [] == read;
    if rest.Some? {
      assert read + ([x] + rest.value) == read + [x] + rest.value;
      assert [] + rest.value == rest.value;
    }
  }

  lemma NextBlock(s: bytes, n: nat) returns (b: Block)
    requires n > 0 && |s| >= 4
    ensures b.first == Decode(s[..2]) && b.second == Decode(s[2..][..2])
    ensures ReadBlocks(s, n) == Onto([b], ReadBlocks(s[2..][2..], n - 1))
  {
    assert s[2..][..2] == s[2..4] && s[2..][2..] == s[4..];
    Decode2(s[..2]);
    Decode2(s[2..4]);
    b := Block(Decode(s[..2]), Decode(s[2..4]));
  }

  lemma NextServ(s: bytes, n: nat) returns (serv: ushort)
    requires n > 0 && |s| >= 2
    ensures serv == Decode(s[..2]) && ReadServs(s, n) == Onto([serv], ReadServs(s[2..], n - 1))
  {
    Decode2(s[..2]);
    serv := Decode(s[..2]);
  }

  method BlocksFrom(pkt: Packet, n: uint) returns (blocks: Option<seq<Block>>)
    requires pkt.Valid()
    modifies pkt`pos
    ensures pkt.Valid() && blocks == ReadBlocks(old(pkt.Rest()), n)
  {
    var read := [];
    var i := 0;
    OntoMore(read, Block(0, 0), ReadBlocks(pkt.Rest(), n));
    while i < n
      invariant 0 <= i <= n && pkt.Valid()
      invariant ReadBlocks(old(pkt.Rest()), n) == Onto(read, ReadBlocks(pkt.Rest(), n - i))
    {
      if |pkt.Rest()| >= 4 {
        ghost var b := NextBlock(pkt.Rest(), n - i);
        OntoMore(read, b, ReadBlocks(pkt.Rest()[2..][2..], n - i - 1));
      }
      var first := pkt.ReadUshort();
      if first.None? { return None; }
      var second := pkt.ReadUshort();
      if second.None? { return None; }
      read := read + [Block(first.value, second.value)];
      i := i + 1;
    }
    OntoMore(read, Block(0, 0), None);
    blocks := Some(read);
  }

  method ServsFrom(pkt: Packet, n: int) returns (mservs: Option<seq<ushort>>)
    requires pkt.Valid()
    modifies pkt`pos
    ensures pkt.Valid() && mservs == ReadServs(old(pkt.Rest()), if n > 0 then n else 0)
  {
    var read := [];
    var i := 0;
    OntoMore(read, 0, ReadServs(pkt.Rest(), if n > 0 then n else 0));
    while i < n
      invariant 0 <= i <= if n > 0 then n else 0
      invariant pkt.Valid()
      invariant ReadServs(old(pkt.Rest()), if n > 0 then n else 0) ==
        Onto(read, ReadServs(pkt.Rest(), (if n > 0 then n else 0) - i))
    {
      if |pkt.Rest()| >= 2 {
        ghost var b := NextServ(pkt.Rest(), n - i);
        OntoMore(read, b, ReadServs(pkt.Rest()[2..], n - i - 1));
      }
      var serv := pkt.ReadUshort();
      if serv.None? { return None; }
      read := read + [serv.value];
      i := i + 1;
    }
    OntoMore(read, 0, None);
    mservs := Some(read);
  }

  lemma Skip(r: bytes, at: nat)
    requires at <= |r|
    ensures |r[at..]| == |r| - at
    ensures at + 4 <= |r| ==> r[at..][4..] == r[at + 4..] && Decode(r[at..][..4]) == Uint(r, at)
  {
    if at + 4 <= |r| {
      assert r[at..][..4] == r[at..at + 4];
    }
  }

  /** The five numbers after a name. */
  method FieldsFrom(pkt: Packet) returns (fields: Option<(uint, uint, uint, uint, uint)>)
    requires pkt.Valid()
    modifies pkt`pos
    ensures pkt.Valid()
    ensures var r := old(pkt.Rest());
      if |r| < FIELDS then fields == None
      else fields == Some((Uint(r, 0), Uint(r, 4), Uint(r, 8), Uint(r, 12), Uint(r, 16))) && pkt.Rest() == r[FIELDS..]
  {
    ghost var r := pkt.Rest();
    assert r[0..] == r;
    Skip(r, 0);
    var fileId := pkt.ReadUint();
    if fileId.None? { return None; }
    Skip(r, 4);
    var version := pkt.ReadUint();
    if version.None? { return None; }
    Skip(r, 8);
    var high := pkt.ReadUint();
    if high.None? { return None; }
    Skip(r, 12);
    var low := pkt.ReadUint();
    if low.None? { return None; }
    Skip(r, 16);
    var nblocks := pkt.ReadUint();
    if nblocks.None? { return None; }
    fields := Some((fileId.value, version.value, high.value, low.value, nblocks.value));
  }

  /** The three numbers after a name, the last one signed. */
  method MmFieldsFrom(pkt: Packet) returns (fields: Option<(uint, uint, int)>)
    requires pkt.Valid()
    modifies pkt`pos
    ensures pkt.Valid()
    ensures var r := old(pkt.Rest());
      if |r| < MM_FIELDS then fields == None
      else fields == Some((Uint(r, 0), Uint(r, 4), Signed32(Uint(r, 8)))) && pkt.Rest() == r[MM_FIELDS..]
  {
    ghost var r := pkt.Rest();
    assert r[0..] == r;
    Skip(r, 0);
    var fileId := pkt.ReadUint();
    if fileId.None? { return None; }
    Skip(r, 4);
    var version := pkt.ReadUint();
    if version.None? { return None; }
    Skip(r, 8);
    var nmserv := pkt.ReadInt();
    if nmserv.None? { return None; }
    fields := Some((fileId.value, version.value, nmserv.value));
  }

  method MetaFromHere(pkt: Packet) returns (m: Option<FileMeta>)
    requires pkt.Valid()
    modifies pkt`pos
    ensures pkt.Valid() && m == ReadMeta(old(pkt.Rest()))
  {
    var fname := pkt.ReadString();
    if fname.None? { return None; }
    var fields := FieldsFrom(pkt);
    if fields.None? { return None; }
    var blocks := BlocksFrom(pkt, fields.value.4);
    if blocks.None? { return None; }
    m := Some(FileMeta(fname.value, fields.value.0, fields.value.1, fields.value.2, fields.value.3, blocks.value));
  }

  /** Reads from the start of the data. */
  method MetaFromPacket(pkt: Packet) returns (m: Option<FileMeta>)
    requires pkt.Valid()
    modifies pkt`pos
    ensures pkt.Valid()
    ensures m == ReadMeta(if pkt.size >= HEAD then pkt.mem[HEAD..pkt.size] else [])
  {
    var ok := pkt.Seek(0);
    m := MetaFromHere(pkt);
  }

  /** Reads from where the packet stands. */
  method MetaMetaFromPacket(pkt: Packet) returns (m: Option<FileMetaMeta>)
    requires pkt.Valid()
    modifies pkt`pos
    ensures pkt.Valid() && m == ReadMetaMeta(old(pkt.Rest()))
  {
    var fname := pkt.ReadString();
    if fname.None? { return None; }
    var fields := MmFieldsFrom(pkt);
    if fields.None? { return None; }
    var mservs := ServsFrom(pkt, fields.value.2);
    if mservs.None? { return None; }
    m := Some(FileMetaMeta(fname.value, fields.value.0, fields.value.1, fields.value.2, mservs.value));
  }

  // ---- There and back ---------------------------------------------------------------------

  lemma Behind(mem: bytes, pos: nat, size: nat, bs: bytes)
    requires HEAD <= pos <= size <= |mem| && mem[HEAD..pos] == bs
    ensures mem[HEAD..size] == bs + mem[pos..size]
  {
  }

  /** A record that is written into a packet and read from it again comes back exactly if
      there is a packet for it and its name fits. */
  method MetaThere(m: FileMeta) returns (back: Option<FileMeta>)
    ensures back == Some(m) <==> 2 + |m.fname| + FIELDS + 4 * |m.blocks| <= MAX_DATA && |m.fname| < MAX_STRING
  {
    var pkt := PacketFromMeta(m);
    if pkt == null {
      return None;
    }
    Behind(pkt.mem[..], pkt.pos, pkt.size, MetaBytes(m));
    MetaRoundTrip(m, pkt.mem[pkt.pos..pkt.size]);
    back := MetaFromPacket(pkt);
  }

  /** So does a meta-meta record, also with the bytes that are reserved and not written. */
  method MetaMetaThere(m: FileMetaMeta) returns (back: Option<FileMetaMeta>)
    requires m.nmserv == |m.mservs|
    ensures back == Some(m) <==> 2 + |m.fname| + MM_FIELDS + 4 * |m.mservs| <= MAX_DATA && |m.fname| < MAX_STRING
  {
    var pkt := PacketFromMetaMeta(m);
    if pkt == null {
      return None;
    }
    Behind(pkt.mem[..], pkt.pos, pkt.size, MetaMetaBytes(m));
    MetaMetaRoundTrip(m, pkt.mem[pkt.pos..pkt.size]);
    var ok := pkt.Seek(0);
    back := MetaMetaFromPacket(pkt);
  }
}
