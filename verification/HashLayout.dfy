/** How the slots of the hash table hang together: every key sits on the chain that starts
    at its main position, and the slots on no chain are the free list. */
module HashLayout {
  import opened Seqs
  import opened Wrappers

  const NIL := -1

  /** The slots' keys and chain links, the free list, and, as a record of the links, the
      chain of every main position. */
  datatype Table<K> = Table(keys: seq<Option<K>>, next: seq<int>, free: seq<int>, chains: seq<seq<int>>)

  function Main<K>(hash: K -> nat, n: nat, k: K): nat
    requires n > 0
  {
    hash(k) % n
  }

  predicate Slot<K>(t: Table<K>, i: int) {
    0 <= i < |t.keys|
  }

  predicate Used<K>(t: Table<K>, i: int) {
    Slot(t, i) && t.keys[i].Some?
  }

  ghost predicate Sizes<K>(t: Table<K>) {
    |t.keys| > 0 && |t.next| == |t.keys| && |t.chains| == |t.keys|
  }

  /** Main position of the key in a used slot. */
  function Home<K>(t: Table<K>, hash: K -> nat, i: int): nat
    requires Used(t, i)
  {
    Main(hash, |t.keys|, t.keys[i].value)
  }

  /** The j-th slot of chain c holds a key at home in m and links to the one after it. */
  ghost predicate LinkOk<K>(t: Table<K>, hash: K -> nat, m: int, c: seq<int>, j: int)
    requires Sizes(t) && 0 <= j < |c|
  {
    && Used(t, c[j]) && Home(t, hash, c[j]) == m
    && t.next[c[j]] == if j + 1 < |c| then c[j + 1] else NIL
  }

  ghost predicate ChainOk<K>(t: Table<K>, hash: K -> nat, m: int)
    requires Sizes(t) && Slot(t, m)
  {
    && (t.chains[m] != [] ==> t.chains[m][0] == m)
    && (forall j :: 0 <= j < |t.chains[m]| ==> LinkOk(t, hash, m, t.chains[m], j))
    && NoDup(t.chains[m])
  }

  ghost predicate FreeOk<K>(t: Table<K>) {
    && (forall i :: i in t.free <==> Slot(t, i) && !Used(t, i))
    && NoDup(t.free)
  }

  ghost predicate Inv<K(!new)>(t: Table<K>, hash: K -> nat) {
    && Sizes(t)
    && (forall m :: Slot(t, m) ==> ChainOk(t, hash, m))
    && (forall i :: Used(t, i) ==> i in t.chains[Home(t, hash, i)])
    && (forall i, j :: Used(t, i) && Used(t, j) && i != j ==> t.keys[i] != t.keys[j])
    && FreeOk(t)
  }

  ghost predicate Has<K>(t: Table<K>, k: K) {
    exists i :: Used(t, i) && t.keys[i].value == k
  }

  lemma Members<K(!new)>(t: Table<K>, hash: K -> nat, m: int)
    requires Sizes(t) && Slot(t, m) && ChainOk(t, hash, m)
    ensures forall i :: i in t.chains[m] ==> Used(t, i) && Home(t, hash, i) == m
  {
    forall i | i in t.chains[m] ensures Used(t, i) && Home(t, hash, i) == m {
      var j :| 0 <= j < |t.chains[m]| && t.chains[m][j] == i;
      assert LinkOk(t, hash, m, t.chains[m], j);
    }
  }

  /** A main position whose slot is free or holds a key from elsewhere has no chain. */
  lemma NoChain<K(!new)>(t: Table<K>, hash: K -> nat, m: int)
    requires Inv(t, hash) && Slot(t, m)
    requires Used(t, m) ==> Home(t, hash, m) != m
    ensures t.chains[m] == []
    ensures forall k :: Main(hash, |t.keys|, k) == m ==> !Has(t, k)
  {
    assert ChainOk(t, hash, m);
    Members(t, hash, m);
  }

  /** Slots of different chains are different. */
  lemma Apart<K(!new)>(t: Table<K>, hash: K -> nat, m: int, n: int, i: int)
    requires Inv(t, hash) && Slot(t, m) && Slot(t, n) && i in t.chains[m] && i in t.chains[n]
    ensures m == n && Used(t, i) && Home(t, hash, i) == m
  {
    Members(t, hash, m);
    Members(t, hash, n);
  }

  // ---- Adding a key ---------------------------------------------------------------

  /** The key's main position is free: put it there. */
  function PutMain<K>(t: Table<K>, m: int, k: K): Table<K>
    requires Slot(t, m) && |t.next| == |t.keys| && |t.chains| == |t.keys|
  {
    Table(t.keys[m := Some(k)], t.next[m := NIL], Without(t.free, m), t.chains[m := [m]])
  }

  /** A chain whose slots are not touched stays as it is. */
  lemma ChainFrame<K(!new)>(t: Table<K>, t': Table<K>, hash: K -> nat, n: int)
    requires Sizes(t) && Sizes(t') && |t'.keys| == |t.keys| && Slot(t, n) && ChainOk(t, hash, n)
    requires t'.chains[n] == t.chains[n]
    requires forall i :: i in t.chains[n] && Slot(t, i) ==> t'.keys[i] == t.keys[i] && t'.next[i] == t.next[i]
    ensures ChainOk(t', hash, n)
  {
    forall j | 0 <= j < |t.chains[n]| ensures LinkOk(t', hash, n, t.chains[n], j) {
      assert LinkOk(t, hash, n, t.chains[n], j) && t.chains[n][j] in t.chains[n];
    }
  }

  /** Moving one slot out of the free list. */
  lemma FreeShrinks<K>(t: Table<K>, t': Table<K>, f: int)
    requires FreeOk(t) && |t'.keys| == |t.keys| && Slot(t, f) && t'.free == Without(t.free, f)
    requires forall i :: Slot(t, i) ==> (Used(t', i) <==> Used(t, i) || i == f)
    ensures FreeOk(t')
  {
    WithoutNoDup(t.free, f);
  }

  lemma PutMainKeeps<K(!new)>(t: Table<K>, hash: K -> nat, m: int, k: K)
    requires Inv(t, hash) && !Has(t, k) && Slot(t, m) && !Used(t, m) && Main(hash, |t.keys|, k) == m
    ensures Inv(PutMain(t, m, k), hash)
  {
    var t' := PutMain(t, m, k);
    NoChain(t, hash, m);
    FreeShrinks(t, t', m);
    forall n | Slot(t', n) ensures ChainOk(t', hash, n) {
      assert ChainOk(t, hash, n);
      Members(t, hash, n);
      if n != m { ChainFrame(t, t', hash, n); }
    }
  }

  /** The main position holds a key of its own: chain the free slot f behind it. */
  function PutBehind<K>(t: Table<K>, m: int, f: int, k: K): Table<K>
    requires Slot(t, m) && Slot(t, f) && |t.next| == |t.keys| && |t.chains| == |t.keys| && t.chains[m] != []
  {
    Table(t.keys[f := Some(k)], t.next[f := t.next[m]][m := f], Without(t.free, f),
          t.chains[m := [m, f] + t.chains[m][1..]])
  }

  lemma PutBehindChains<K(!new)>(t: Table<K>, hash: K -> nat, m: int, f: int, k: K, n: int)
    requires Sizes(t) && forall n :: Slot(t, n) ==> ChainOk(t, hash, n)
    requires Main(hash, |t.keys|, k) == m
    requires Used(t, m) && Home(t, hash, m) == m && m in t.chains[m] && Slot(t, f) && !Used(t, f)
    requires Slot(t, n)
    ensures ChainOk(PutBehind(t, m, f, k), hash, n)
  {
    var t', c := PutBehind(t, m, f, k), t.chains[m];
    assert ChainOk(t, hash, m) && ChainOk(t, hash, n);
    Members(t, hash, m);
    Members(t, hash, n);
    assert f !in c && f !in t.chains[n];
    if n == m {
      var c' := t'.chains[m];
      forall j | 0 <= j < |c'| ensures LinkOk(t', hash, m, c', j) {
        if j != 1 {
          assert LinkOk(t, hash, m, c, if j == 0 then 0 else j - 1);
        }
        assert LinkOk(t, hash, m, c, 0);
      }
    } else {
      ChainFrame(t, t', hash, n);
    }
  }

  lemma PutBehindKeeps<K(!new)>(t: Table<K>, hash: K -> nat, m: int, f: int, k: K)
    requires Inv(t, hash) && !Has(t, k) && Main(hash, |t.keys|, k) == m
    requires Used(t, m) && Home(t, hash, m) == m && Slot(t, f) && !Used(t, f)
    ensures t.chains[m] != [] && Inv(PutBehind(t, m, f, k), hash)
  {
    assert m in t.chains[m];
    var t', c := PutBehind(t, m, f, k), t.chains[m];
    FreeShrinks(t, t', f);
    forall n | Slot(t', n) ensures ChainOk(t', hash, n) {
      PutBehindChains(t, hash, m, f, k, n);
    }
    forall i | Used(t', i) ensures i in t'.chains[Home(t', hash, i)] {
      if i == f {
        assert t'.chains[m][1] == f;
      } else {
        var n := Home(t, hash, i);
        assert i in t.chains[n];
        if n == m {
          var j :| 0 <= j < |c| && c[j] == i;
          assert t'.chains[m][if j == 0 then 0 else j + 1] == i by { assert ChainOk(t, hash, m); }
        }
      }
    }
  }

  /** The main position m holds a key at home in h: that key moves to the free slot f and
      the new key takes m. Position m is the j-th of chain h. */
  function PutMoved<K>(t: Table<K>, h: int, j: int, f: int, k: K): Table<K>
    requires Slot(t, h) && Slot(t, f) && |t.next| == |t.keys| && |t.chains| == |t.keys|
    requires 0 < j < |t.chains[h]| && Slot(t, t.chains[h][j]) && Slot(t, t.chains[h][j - 1])
  {
    var m := t.chains[h][j];
    Table(t.keys[f := t.keys[m]][m := Some(k)],
          t.next[f := t.next[m]][t.chains[h][j - 1] := f][m := NIL],
          Without(t.free, f),
          t.chains[h := t.chains[h][j := f]][m := [m]])
  }

  ghost predicate CanMove<K(!new)>(t: Table<K>, hash: K -> nat, h: int, j: int, f: int) {
    && Inv(t, hash) && Slot(t, h) && 0 < j < |t.chains[h]| && Slot(t, f) && !Used(t, f)
    && Slot(t, t.chains[h][j]) && Slot(t, t.chains[h][j - 1])
  }

  lemma PutMovedChains<K(!new)>(t: Table<K>, hash: K -> nat, h: int, j: int, f: int, k: K, n: int)
    requires CanMove(t, hash, h, j, f) && Main(hash, |t.keys|, k) == t.chains[h][j] && Slot(t, n)
    ensures ChainOk(PutMoved(t, h, j, f, k), hash, n)
  {
    var t', c, m := PutMoved(t, h, j, f, k), t.chains[h], t.chains[h][j];
    Members(t, hash, h);
    Members(t, hash, n);
    assert c[j] in c && c[j - 1] in c && f !in c && f !in t.chains[n];
    assert ChainOk(t, hash, h);
    assert m != h;
    if n == m {
      assert LinkOk(t', hash, m, [m], 0);
    } else if n == h {
      var c' := t'.chains[h];
      forall x | 0 <= x < |c'| ensures LinkOk(t', hash, h, c', x) {
        assert LinkOk(t, hash, h, c, x);
        assert x != j ==> c[x] != m;
        assert x != j - 1 ==> c[x] != c[j - 1];
      }
    } else {
      ChainFrame(t, t', hash, n);
    }
  }

  lemma PutMovedKeeps<K(!new)>(t: Table<K>, hash: K -> nat, h: int, j: int, f: int, k: K)
    requires CanMove(t, hash, h, j, f) && !Has(t, k) && Main(hash, |t.keys|, k) == t.chains[h][j]
    ensures Inv(PutMoved(t, h, j, f, k), hash)
  {
    var t', c, m := PutMoved(t, h, j, f, k), t.chains[h], t.chains[h][j];
    Members(t, hash, h);
    assert c[j] in c && m != h by { assert ChainOk(t, hash, h); }
    FreeShrinks(t, t', f);
    forall n | Slot(t', n) ensures ChainOk(t', hash, n) {
      PutMovedChains(t, hash, h, j, f, k, n);
    }
    forall i | Used(t', i) ensures i in t'.chains[Home(t', hash, i)] {
      if i == f {
        assert t'.chains[h][j] == f;
      } else if i != m {
        var n := Home(t, hash, i);
        assert i in t.chains[n];
        NoChain(t, hash, m);
        if n == h {
          var x :| 0 <= x < |c| && c[x] == i;
          assert t'.chains[h][x] == i;
        }
      }
    }
  }

  // ---- Removing a key ----------------------------------------------------------------

  lemma FreeGrows<K>(t: Table<K>, t': Table<K>, f: int)
    requires FreeOk(t) && |t'.keys| == |t.keys| && Used(t, f) && t'.free == [f] + t.free
    requires forall i :: Slot(t, i) ==> (Used(t', i) <==> Used(t, i) && i != f)
    ensures FreeOk(t')
  {
  }

  /** Unlink the j-th slot of chain m, which is not the first. */
  function DropInner<K>(t: Table<K>, m: int, j: int): Table<K>
    requires Slot(t, m) && |t.next| == |t.keys| && |t.chains| == |t.keys|
    requires 0 < j < |t.chains[m]| && Slot(t, t.chains[m][j]) && Slot(t, t.chains[m][j - 1])
  {
    var i := t.chains[m][j];
    Table(t.keys[i := None], t.next[t.chains[m][j - 1] := t.next[i]], [i] + t.free,
          t.chains[m := t.chains[m][..j] + t.chains[m][j + 1..]])
  }

  /** Copy the second slot of chain m over the first and free the second. */
  function DropFirst<K>(t: Table<K>, m: int): Table<K>
    requires Slot(t, m) && |t.next| == |t.keys| && |t.chains| == |t.keys|
    requires |t.chains[m]| > 1 && Slot(t, t.chains[m][1])
  {
    var i := t.chains[m][1];
    Table(t.keys[m := t.keys[i]][i := None], t.next[m := t.next[i]], [i] + t.free,
          t.chains[m := [m] + t.chains[m][2..]])
  }

  /** Free the only slot of chain m. */
  function DropOnly<K>(t: Table<K>, m: int): Table<K>
    requires Slot(t, m) && |t.chains| == |t.keys|
  {
    Table(t.keys[m := None], t.next, [m] + t.free, t.chains[m := []])
  }

  ghost predicate CanDrop<K(!new)>(t: Table<K>, hash: K -> nat, m: int, j: int) {
    && Inv(t, hash) && Slot(t, m) && 0 <= j < |t.chains[m]|
    && (forall x :: 0 <= x < |t.chains[m]| ==> Slot(t, t.chains[m][x]))
  }

  lemma DropInnerChains<K(!new)>(t: Table<K>, hash: K -> nat, m: int, j: int, n: int)
    requires CanDrop(t, hash, m, j) && j > 0 && Slot(t, n)
    ensures ChainOk(DropInner(t, m, j), hash, n)
  {
    var t', c := DropInner(t, m, j), t.chains[m];
    Members(t, hash, m);
    assert ChainOk(t, hash, m) && c[j] in c && c[j - 1] in c;
    if n == m {
      var c' := t'.chains[m];
      forall x | 0 <= x < |c'| ensures LinkOk(t', hash, m, c', x) {
        assert LinkOk(t, hash, m, c, if x < j then x else x + 1);
        assert LinkOk(t, hash, m, c, j);
      }
    } else {
      Members(t, hash, n);
      ChainFrame(t, t', hash, n);
    }
  }

  lemma DropInnerKeeps<K(!new)>(t: Table<K>, hash: K -> nat, m: int, j: int)
    requires CanDrop(t, hash, m, j) && j > 0
    ensures Inv(DropInner(t, m, j), hash)
  {
    var t', c, i := DropInner(t, m, j), t.chains[m], t.chains[m][j];
    Members(t, hash, m);
    assert ChainOk(t, hash, m) && c[j] in c;
    FreeGrows(t, t', i);
    forall n | Slot(t', n) ensures ChainOk(t', hash, n) {
      DropInnerChains(t, hash, m, j, n);
    }
    forall y | Used(t', y) ensures y in t'.chains[Home(t', hash, y)] {
      assert y in t.chains[Home(t, hash, y)];
      if Home(t, hash, y) == m {
        var x :| 0 <= x < |c| && c[x] == y;
        assert t'.chains[m][if x < j then x else x - 1] == y;
      }
    }
  }

  lemma DropFirstKeeps<K(!new)>(t: Table<K>, hash: K -> nat, m: int)
    requires CanDrop(t, hash, m, 0) && |t.chains[m]| > 1
    ensures Inv(DropFirst(t, m), hash)
  {
    var t', c, i := DropFirst(t, m), t.chains[m], t.chains[m][1];
    Members(t, hash, m);
    assert ChainOk(t, hash, m) && c[0] in c && c[1] in c && c[0] == m;
    FreeGrows(t, t', i);
    forall n | Slot(t', n) ensures ChainOk(t', hash, n) {
      if n == m {
        var c' := t'.chains[m];
        forall x | 0 <= x < |c'| ensures LinkOk(t', hash, m, c', x) {
          assert LinkOk(t, hash, m, c, x + 1);
        }
      } else {
        Members(t, hash, n);
        ChainFrame(t, t', hash, n);
      }
    }
    forall y | Used(t', y) ensures y in t'.chains[Home(t', hash, y)] {
      DropFirstChained(t, hash, m, y);
    }
  }

  lemma DropFirstChained<K(!new)>(t: Table<K>, hash: K -> nat, m: int, y: int)
    requires CanDrop(t, hash, m, 0) && |t.chains[m]| > 1 && Used(DropFirst(t, m), y)
    requires ChainOk(t, hash, m) && t.chains[m][0] == m
    ensures y in DropFirst(t, m).chains[Home(DropFirst(t, m), hash, y)]
  {
    var t', c := DropFirst(t, m), t.chains[m];
    Members(t, hash, m);
    FreeGrows(t, t', c[1]);
    if y == m {
      assert t'.chains[m][0] == m;
    } else {
      assert y in t.chains[Home(t, hash, y)];
      if Home(t, hash, y) == m {
        var x :| 0 <= x < |c| && c[x] == y;
        assert t'.chains[m][x - 1] == y;
      }
    }
  }

  lemma DropOnlyKeeps<K(!new)>(t: Table<K>, hash: K -> nat, m: int)
    requires CanDrop(t, hash, m, 0) && |t.chains[m]| == 1
    ensures Inv(DropOnly(t, m), hash)
  {
    var t' := DropOnly(t, m);
    Members(t, hash, m);
    assert ChainOk(t, hash, m) && t.chains[m][0] in t.chains[m] && t.chains[m] == [m];
    FreeGrows(t, t', m);
    forall n | Slot(t', n) ensures ChainOk(t', hash, n) {
      if n != m {
        Members(t, hash, n);
        ChainFrame(t, t', hash, n);
      }
    }
  }
}
