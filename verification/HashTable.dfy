/** The hash table on its real arrays: it denotes a finite map, whatever the hash function
    and however often it has doubled. */
module HashTable {
  import opened Seqs
  import opened HashLayout
  import opened Wrappers

  const MIN_ALLOC := 16

  /** The entries of the table: every used slot's key with the value beside it. */
  ghost predicate Denotes<K(!new), V>(t: Table<K>, vals: seq<V>, m: map<K, V>) {
    && |vals| == |t.keys|
    && (forall i :: Used(t, i) ==> t.keys[i].value in m && m[t.keys[i].value] == vals[i])
    && (forall k :: k in m ==> Has(t, k))
  }

  /** Every entry of the second table is one of the first, except the one at slot i. */
  ghost predicate OnlyAdds<K(!new), V>(t: Table<K>, vals: seq<V>, t': Table<K>, vals': seq<V>, i: int)
    requires |vals| == |t.keys| && |vals'| == |t'.keys|
  {
    forall x :: Used(t', x) && x != i ==>
      exists y :: Used(t, y) && t.keys[y] == t'.keys[x] && vals[y] == vals'[x]
  }

  /** Every key of the first table is in the second, at a slot other than i. */
  ghost predicate KeepsKeys<K(!new)>(t: Table<K>, t': Table<K>, i: int) {
    forall y :: Used(t, y) ==> exists x :: Used(t', x) && x != i && t'.keys[x] == t.keys[y]
  }

  lemma KeysKept<K(!new)>(t: Table<K>, t': Table<K>, i: int, k: K)
    requires KeepsKeys(t, t', i) && Has(t, k)
    ensures Has(t', k)
  {
  }

  lemma OnlyAddsDenotes<K(!new), V>(t: Table<K>, vals: seq<V>, t': Table<K>, vals': seq<V>, i: int, m: map<K, V>)
    requires Denotes(t, vals, m) && Used(t', i) && !Has(t, t'.keys[i].value)
    requires |vals'| == |t'.keys| && OnlyAdds(t, vals, t', vals', i)
    ensures var m' := m[t'.keys[i].value := vals'[i]];
      forall x :: Used(t', x) ==> t'.keys[x].value in m' && m'[t'.keys[x].value] == vals'[x]
  {
  }

  lemma OneMoreDenotes<K(!new), V>(t: Table<K>, vals: seq<V>, t': Table<K>, vals': seq<V>, i: int, m: map<K, V>)
    requires Denotes(t, vals, m) && Used(t', i) && !Has(t, t'.keys[i].value)
    requires |vals'| == |t'.keys| && OnlyAdds(t, vals, t', vals', i) && KeepsKeys(t, t', i)
    ensures Denotes(t', vals', m[t'.keys[i].value := vals'[i]])
  {
    OnlyAddsDenotes(t, vals, t', vals', i, m);
    forall k | k in m ensures Has(t', k) {
      KeysKept(t, t', i, k);
    }
  }

  lemma PutMainDenotes<K(!new), V>(t: Table<K>, vals: seq<V>, m: int, k: K, c: map<K, V>)
    requires Sizes(t) && Slot(t, m) && !Used(t, m) && !Has(t, k) && Denotes(t, vals, c)
    ensures Denotes(PutMain(t, m, k), vals, c[k := vals[m]])
  {
    var t' := PutMain(t, m, k);
    forall y | Used(t, y) ensures Used(t', y) && y != m && t'.keys[y] == t.keys[y] {}
    OneMoreDenotes(t, vals, t', vals, m, c);
  }

  lemma PutBehindDenotes<K(!new), V>(t: Table<K>, vals: seq<V>, m: int, f: int, k: K, c: map<K, V>)
    requires Sizes(t) && Slot(t, m) && Slot(t, f) && !Used(t, f) && t.chains[m] != []
    requires !Has(t, k) && Denotes(t, vals, c)
    ensures Denotes(PutBehind(t, m, f, k), vals, c[k := vals[f]])
  {
    var t' := PutBehind(t, m, f, k);
    forall y | Used(t, y) ensures Used(t', y) && y != f && t'.keys[y] == t.keys[y] {}
    OneMoreDenotes(t, vals, t', vals, f, c);
  }

  lemma PutMovedDenotes<K(!new), V>(t: Table<K>, vals: seq<V>, hash: K -> nat, h: int, j: int, f: int, k: K, c: map<K, V>)
    requires CanMove(t, hash, h, j, f) && Used(t, t.chains[h][j]) && !Has(t, k) && Denotes(t, vals, c)
    ensures var m := t.chains[h][j];
      Denotes(PutMoved(t, h, j, f, k), vals[f := vals[m]], c[k := vals[m]])
  {
    var t', m := PutMoved(t, h, j, f, k), t.chains[h][j];
    var vals' := vals[f := vals[m]];
    assert f != m;
    forall x | Used(t', x) && x != m ensures exists y :: Used(t, y) && t.keys[y] == t'.keys[x] && vals[y] == vals'[x] {
      var y := if x == f then m else x;
      assert Used(t, y) && t.keys[y] == t'.keys[x] && vals[y] == vals'[x];
    }
    forall y | Used(t, y) ensures exists x :: Used(t', x) && x != m && t'.keys[x] == t.keys[y] {
      var x := if y == m then f else y;
      assert Used(t', x) && x != m && t'.keys[x] == t.keys[y];
    }
    OneMoreDenotes(t, vals, t', vals', m, c);
  }

  /** Every entry of the second table is one of the first, and none is k's. */
  ghost predicate OnlyDrops<K(!new), V>(t: Table<K>, vals: seq<V>, t': Table<K>, vals': seq<V>, k: K)
    requires |vals| == |t.keys| && |vals'| == |t'.keys|
  {
    forall x :: Used(t', x) ==>
      t'.keys[x].value != k && exists y :: Used(t, y) && t.keys[y] == t'.keys[x] && vals[y] == vals'[x]
  }

  ghost predicate KeepsOthers<K(!new)>(t: Table<K>, t': Table<K>, k: K) {
    forall y :: Used(t, y) && t.keys[y].value != k ==> exists x :: Used(t', x) && t'.keys[x] == t.keys[y]
  }

  lemma OthersKept<K(!new)>(t: Table<K>, t': Table<K>, k: K, k': K)
    requires KeepsOthers(t, t', k) && Has(t, k') && k' != k
    ensures Has(t', k')
  {
  }

  lemma OnlyDropsDenotes<K(!new), V>(t: Table<K>, vals: seq<V>, t': Table<K>, vals': seq<V>, k: K, c: map<K, V>)
    requires Denotes(t, vals, c) && |vals'| == |t'.keys| && OnlyDrops(t, vals, t', vals', k)
    ensures forall x :: Used(t', x) ==> t'.keys[x].value in c - {k} && (c - {k})[t'.keys[x].value] == vals'[x]
  {
  }

  /** Taking a slot's key away, or overwriting it with another slot's key that goes away. */
  lemma DropDenotes<K(!new), V>(t: Table<K>, vals: seq<V>, t': Table<K>, vals': seq<V>, k: K, c: map<K, V>)
    requires Denotes(t, vals, c) && |vals'| == |t'.keys|
    requires OnlyDrops(t, vals, t', vals', k) && KeepsOthers(t, t', k)
    ensures Denotes(t', vals', c - {k})
  {
    OnlyDropsDenotes(t, vals, t', vals', k, c);
    forall k' | k' in c - {k} ensures Has(t', k') {
      OthersKept(t, t', k, k');
    }
  }

  lemma DropInnerDenotes<K(!new), V>(t: Table<K>, vals: seq<V>, hash: K -> nat, m: int, j: int, c: map<K, V>)
    requires CanDrop(t, hash, m, j) && j > 0 && Denotes(t, vals, c) && Used(t, t.chains[m][j])
    ensures Denotes(DropInner(t, m, j), vals, c - {t.keys[t.chains[m][j]].value})
  {
    var t', i := DropInner(t, m, j), t.chains[m][j];
    forall x | Used(t', x) ensures Used(t, x) && x != i && t.keys[x] == t'.keys[x] {}
    forall y | Used(t, y) && t.keys[y] != t.keys[i] ensures Used(t', y) && t'.keys[y] == t.keys[y] {}
    DropDenotes(t, vals, t', vals, t.keys[i].value, c);
  }

  lemma DropFirstDenotes<K(!new), V>(t: Table<K>, vals: seq<V>, hash: K -> nat, m: int, c: map<K, V>)
    requires CanDrop(t, hash, m, 0) && |t.chains[m]| > 1 && Denotes(t, vals, c)
    requires Used(t, m) && Used(t, t.chains[m][1]) && m != t.chains[m][1]
    ensures Denotes(DropFirst(t, m), vals[m := vals[t.chains[m][1]]], c - {t.keys[m].value})
  {
    var t', i := DropFirst(t, m), t.chains[m][1];
    var vals' := vals[m := vals[i]];
    forall x | Used(t', x) ensures t'.keys[x].value != t.keys[m].value && exists y :: Used(t, y) && t.keys[y] == t'.keys[x] && vals[y] == vals'[x] {
      var y := if x == m then i else x;
      assert Used(t, y) && y != m && t.keys[y] == t'.keys[x] && vals[y] == vals'[x];
    }
    forall y | Used(t, y) && t.keys[y].value != t.keys[m].value ensures exists x :: Used(t', x) && t'.keys[x] == t.keys[y] {
      var x := if y == i then m else y;
      assert Used(t', x) && t'.keys[x] == t.keys[y];
    }
    DropDenotes(t, vals, t', vals', t.keys[m].value, c);
  }

  lemma DropOnlyDenotes<K(!new), V>(t: Table<K>, vals: seq<V>, hash: K -> nat, m: int, c: map<K, V>)
    requires Inv(t, hash) && Slot(t, m) && Denotes(t, vals, c) && Used(t, m)
    ensures Denotes(DropOnly(t, m), vals, c - {t.keys[m].value})
  {
  }

  // ---- Walking ----------------------------------------------------------------------

  /** node is the j-th slot of chain c, or NIL past its end. */
  ghost predicate At<K>(t: Table<K>, c: int, j: int, node: int)
    requires Sizes(t)
  {
    && Slot(t, c) && 0 <= j <= |t.chains[c]|
    && node == if j < |t.chains[c]| then t.chains[c][j] else NIL
  }

  lemma Advance<K(!new)>(t: Table<K>, hash: K -> nat, c: int, j: int, node: int)
    requires Inv(t, hash) && At(t, c, j, node) && node != NIL
    ensures j < |t.chains[c]| && Used(t, node) && Home(t, hash, node) == c && At(t, c, j + 1, t.next[node])
  {
    assert ChainOk(t, hash, c);
    assert LinkOk(t, hash, c, t.chains[c], j);
  }

  /** A search for k has walked from k's main position m to slot, the j-th of chain c,
      without meeting k. It may be walking a chain that only passes through m. */
  ghost predicate Walking<K(!new)>(t: Table<K>, hash: K -> nat, m: int, k: K, c: int, j: int, slot: int)
    requires Sizes(t)
  {
    && Slot(t, m) && Main(hash, |t.keys|, k) == m
    && if Used(t, m)
       then
         && c == Home(t, hash, m) && At(t, c, j, slot)
         && (c != m ==> !Has(t, k))
         && (c == m ==> forall x :: 0 <= x < j ==> Slot(t, t.chains[m][x]) && t.keys[t.chains[m][x]] != Some(k))
       else slot == m && !Has(t, k)
  }

  lemma WalkStarts<K(!new)>(t: Table<K>, hash: K -> nat, m: int, k: K) returns (c: int, j: int)
    requires Inv(t, hash) && Slot(t, m) && Main(hash, |t.keys|, k) == m
    ensures Walking(t, hash, m, k, c, j, m)
    ensures c == m ==> j == 0
  {
    c, j := m, 0;
    if Used(t, m) && Home(t, hash, m) == m {
      assert m in t.chains[m] && ChainOk(t, hash, m);
    } else {
      NoChain(t, hash, m);
      if Used(t, m) {
        c := Home(t, hash, m);
        j :| 0 <= j < |t.chains[c]| && t.chains[c][j] == m;
      }
    }
  }

  lemma WalkStep<K(!new)>(t: Table<K>, hash: K -> nat, m: int, k: K, c: int, j: int, slot: int)
    requires Inv(t, hash) && Walking(t, hash, m, k, c, j, slot)
    requires Used(t, slot) && t.keys[slot] != Some(k)
    ensures Walking(t, hash, m, k, c, j + 1, t.next[slot])
    ensures Used(t, m) && j < |t.chains[c]|
  {
    Advance(t, hash, c, j, slot);
  }

  lemma WalkInside<K(!new)>(t: Table<K>, hash: K -> nat, m: int, k: K, c: int, j: int, slot: int)
    requires Inv(t, hash) && Walking(t, hash, m, k, c, j, slot) && slot != NIL
    ensures Slot(t, slot)
  {
    if Used(t, m) { Advance(t, hash, c, j, slot); }
  }

  /** The walk meets k only on k's own chain. */
  lemma WalkFound<K(!new)>(t: Table<K>, hash: K -> nat, m: int, k: K, c: int, j: int, slot: int)
    requires Inv(t, hash) && Walking(t, hash, m, k, c, j, slot) && Used(t, slot) && t.keys[slot] == Some(k)
    ensures c == m && j < |t.chains[m]| && t.chains[m][j] == slot
  {
  }

  lemma WalkEnds<K(!new)>(t: Table<K>, hash: K -> nat, m: int, k: K, c: int, j: int, slot: int)
    requires Inv(t, hash) && Walking(t, hash, m, k, c, j, slot) && !Used(t, slot)
    ensures !Has(t, k)
  {
    if Used(t, m) && c == m {
      assert ChainOk(t, hash, c);
      assert j < |t.chains[c]| ==> LinkOk(t, hash, c, t.chains[c], j);
      NotOnChain(t, hash, m, k);
    }
  }

  lemma NotOnChain<K(!new)>(t: Table<K>, hash: K -> nat, m: int, k: K)
    requires Inv(t, hash) && Slot(t, m) && Main(hash, |t.keys|, k) == m
    requires forall x :: 0 <= x < |t.chains[m]| ==> Slot(t, t.chains[m][x]) && t.keys[t.chains[m][x]] != Some(k)
    ensures !Has(t, k)
  {
  }

  /** A key away from home is on its chain, but not at the front. */
  lemma OnChain<K(!new)>(t: Table<K>, hash: K -> nat, m: int, h: int) returns (j: int)
    requires Inv(t, hash) && Used(t, m) && Home(t, hash, m) == h && h != m
    ensures 0 < j < |t.chains[h]| && t.chains[h][j] == m && t.chains[h][0] == h
  {
    assert m in t.chains[h] && ChainOk(t, hash, h);
    j :| 0 <= j < |t.chains[h]| && t.chains[h][j] == m;
  }

  lemma Between<K(!new)>(t: Table<K>, hash: K -> nat, h: int, x: int, j: int)
    requires Inv(t, hash) && Slot(t, h) && 0 <= x < j < |t.chains[h]|
    ensures Used(t, t.chains[h][x]) && t.next[t.chains[h][x]] == t.chains[h][x + 1]
    ensures Used(t, t.chains[h][x + 1]) && (t.chains[h][x + 1] == t.chains[h][j] ==> x + 1 == j)
  {
    assert ChainOk(t, hash, h);
    assert LinkOk(t, hash, h, t.chains[h], x) && LinkOk(t, hash, h, t.chains[h], x + 1);
  }

  lemma ChainSlots<K(!new)>(t: Table<K>, hash: K -> nat, m: int, j: int)
    requires Inv(t, hash) && Slot(t, m) && 0 <= j < |t.chains[m]|
    ensures CanDrop(t, hash, m, j) && t.chains[m][0] == m
    ensures forall x :: 0 <= x < |t.chains[m]| ==> Used(t, t.chains[m][x])
    ensures t.next[t.chains[m][j]] == if j + 1 < |t.chains[m]| then t.chains[m][j + 1] else NIL
    ensures j + 1 < |t.chains[m]| ==> t.chains[m][j] != t.chains[m][j + 1]
  {
    Members(t, hash, m);
    assert ChainOk(t, hash, m);
    forall x | 0 <= x < |t.chains[m]| ensures Used(t, t.chains[m][x]) {
      assert t.chains[m][x] in t.chains[m];
    }
    assert LinkOk(t, hash, m, t.chains[m], j);
  }

  lemma EmptyTable<K(!new), V>(t: Table<K>, hash: K -> nat, vals: seq<V>)
    requires Sizes(t) && |vals| == |t.keys| && FreeOk(t)
    requires forall i :: Slot(t, i) ==> t.keys[i] == None && t.chains[i] == []
    ensures Inv(t, hash) && Denotes(t, vals, map[])
  {
  }

  /** The keys of the first i slots, with their values in all, are what now holds. */
  ghost predicate Copied<K(!new), V>(keys: seq<Option<K>>, i: nat, all: map<K, V>, now: map<K, V>)
    requires i <= |keys|
  {
    && (forall k :: k in now ==> k in all && now[k] == all[k])
    && (forall k :: k in now <==> Some(k) in keys[..i])
  }

  lemma CopyMore<K(!new), V>(keys: seq<Option<K>>, i: nat, all: map<K, V>, now: map<K, V>, k: K)
    requires i < |keys| && keys[i] == Some(k) && Copied(keys, i, all, now) && k in all
    ensures Copied(keys, i + 1, all, now[k := all[k]])
  {
  }

  lemma CopyDone<K(!new), V>(t: Table<K>, vals: seq<V>, all: map<K, V>, now: map<K, V>)
    requires Denotes(t, vals, all) && Copied(t.keys, |t.keys|, all, now)
    ensures now == all
  {
  }

  /** With no free slot every slot is used, each by another key. */
  lemma Full<K(!new)>(t: Table<K>, hash: K -> nat)
    requires Inv(t, hash) && t.free == []
    ensures forall i :: Slot(t, i) ==> t.keys[i].Some? && t.keys[i] !in t.keys[..i]
  {
  }

  lemma WriteDenotes<K(!new), V>(t: Table<K>, hash: K -> nat, vals: seq<V>, m: map<K, V>, i: int, v: V)
    requires Inv(t, hash) && Denotes(t, vals, m) && Used(t, i)
    ensures Denotes(t, vals[i := v], m[t.keys[i].value := v])
  {
  }

  // ---- Iteration ---------------------------------------------------------------------

  /** The first used slot from i on. */
  function NextUsed<K>(t: Table<K>, i: nat): (r: int)
    ensures r == NIL || (i <= r && Used(t, r))
    ensures forall x :: i <= x && Used(t, x) ==> r != NIL && r <= x
    decreases |t.keys| - i
  {
    if i >= |t.keys| then NIL else if t.keys[i].Some? then i else NextUsed(t, i + 1)
  }

  /** The slots an iteration that starts at i visits, in order. */
  function Visits<K>(t: Table<K>, i: nat): seq<int>
    decreases |t.keys| - i
  {
    var r := NextUsed(t, i);
    if r == NIL then [] else [r] + Visits(t, r + 1)
  }

  /** What is still to be visited when slot has been reached. */
  function From<K>(t: Table<K>, slot: int): seq<int> {
    if slot < 0 then [] else [slot] + Visits(t, slot + 1)
  }

  lemma FromStep<K>(t: Table<K>, slots: seq<int>, slot: int)
    requires slot >= 0
    ensures slots + From(t, slot) == slots + [slot] + From(t, NextUsed(t, slot + 1))
  {
  }

  /** An iteration visits every used slot exactly once. */
  lemma {:induction false} VisitsOnce<K>(t: Table<K>, i: nat)
    ensures NoDup(Visits(t, i))
    ensures forall x :: x in Visits(t, i) <==> i <= x && Used(t, x)
    decreases |t.keys| - i
  {
    var r := NextUsed(t, i);
    if r != NIL {
      VisitsOnce(t, r + 1);
    }
  }

  /** An iteration meets every entry of the table exactly once. */
  lemma VisitsEntries<K(!new), V>(t: Table<K>, hash: K -> nat, vals: seq<V>, m: map<K, V>)
    requires Inv(t, hash) && Denotes(t, vals, m)
    ensures var s := Visits(t, 0);
      && (forall x :: 0 <= x < |s| ==> Used(t, s[x]) && t.keys[s[x]].value in m && m[t.keys[s[x]].value] == vals[s[x]])
      && (forall x, y :: 0 <= x < y < |s| ==> t.keys[s[x]] != t.keys[s[y]])
      && (forall k :: k in m ==> exists x :: 0 <= x < |s| && t.keys[s[x]] == Some(k))
  {
    VisitsOnce(t, 0);
    var s := Visits(t, 0);
    forall x | 0 <= x < |s| ensures Used(t, s[x]) {
      assert s[x] in s;
    }
    forall k | k in m ensures exists x :: 0 <= x < |s| && t.keys[s[x]] == Some(k) {
      var i :| Used(t, i) && t.keys[i].value == k;
      assert i in s;
    }
  }

  /** The slots visited and the free list together are all the slots, each once. */
  lemma SlotsPartition<K(!new)>(t: Table<K>, hash: K -> nat)
    requires Inv(t, hash)
    ensures NoDup(Visits(t, 0) + t.free)
    ensures forall i :: i in Visits(t, 0) + t.free <==> Slot(t, i)
  {
    VisitsOnce(t, 0);
    var all, n := Visits(t, 0) + t.free, |Visits(t, 0)|;
    forall i, j | 0 <= i < j < |all| ensures all[i] != all[j] {
      assert i < n ==> all[i] == Visits(t, 0)[i] && all[i] in Visits(t, 0);
      assert j >= n ==> all[j] == t.free[j - n] && all[j] in t.free;
    }
  }

  // ---- The table in memory -------------------------------------------------------------

  class HashTable<K(==, !new), V(0)> {
    const hash: K -> nat
    var keys: array<Option<K>>
    var vals: array<V>
    var next: array<int>
    var free: seq<int>
    ghost var chains: seq<seq<int>>
    ghost var content: map<K, V>

    /** The slots as they are, with fr as the free list. */
    ghost function Layout(fr: seq<int>): Table<K>
      reads this, keys, next
    {
      Table(keys[..], next[..], fr, chains)
    }

    ghost predicate ValidWith(fr: seq<int>)
      reads this, keys, vals, next
    {
      && (vals as object) != keys && (vals as object) != next
      && keys.Length == next.Length
      && Inv(Layout(fr), hash)
      && Denotes(Layout(fr), vals[..], content)
    }

    ghost predicate Valid()
      reads this, keys, vals, next
    {
      ValidWith(free)
    }

    constructor (hash: K -> nat, nelem: int)
      ensures Valid() && fresh(keys) && fresh(vals) && fresh(next) && this.hash == hash
      ensures content == map[]
      ensures keys.Length == if nelem > MIN_ALLOC then nelem else MIN_ALLOC
    {
      var n := if nelem > MIN_ALLOC then nelem else MIN_ALLOC;
      this.hash := hash;
      keys := new Option<K>[n];
      vals := new V[n];
      next := new int[n];
      new;
      Clear();
    }

    /** Mark every slot unused and put it in front of the free list. */
    method Clear()
      requires (vals as object) != keys && (vals as object) != next
      requires keys.Length == next.Length == vals.Length && keys.Length > 0
      modifies this`free, this`chains, this`content, keys
      ensures Valid() && content == map[] && |free| == keys.Length
    {
      free := [];
      var i := 0;
      while i < keys.Length
        invariant 0 <= i <= keys.Length
        invariant forall x :: 0 <= x < i ==> keys[x] == None
        invariant forall x :: x in free <==> 0 <= x < i
        invariant NoDup(free) && |free| == i
      {
        NoDupPush(free, i);
        free := [i] + free;
        keys[i] := None;
        i := i + 1;
      }
      chains := seq(keys.Length, x => []);
      content := map[];
      EmptyTable(Layout(free), hash, vals[..]);
    }

    /** The slot of key k, or NIL. */
    method Get(k: K) returns (slot: int)
      requires Valid()
      ensures if k in content
        then 0 <= slot < keys.Length && keys[slot] == Some(k) && content[k] == vals[slot]
        else slot == NIL
    {
      ghost var t := Layout(free);
      var m := hash(k) % keys.Length;
      ghost var c, j := WalkStarts(t, hash, m, k);
      slot := m;
      WalkInside(t, hash, m, k, c, j, slot);
      while slot != NIL && keys[slot].Some?
        invariant Walking(t, hash, m, k, c, j, slot)
        invariant slot != NIL ==> 0 <= slot < keys.Length
        decreases if Used(t, m) then |t.chains[c]| - j else 0
      {
        if keys[slot].value == k {
          return;
        }
        WalkStep(t, hash, m, k, c, j, slot);
        slot := next[slot];
        j := j + 1;
        if slot != NIL { WalkInside(t, hash, m, k, c, j, slot); }
      }
      WalkEnds(t, hash, m, k, c, j, slot);
      slot := NIL;
    }

    /** The caller stores a value through the pointer to the slot of a key. */
    method Write(slot: int, v: V)
      requires Valid() && 0 <= slot < keys.Length && keys[slot].Some?
      modifies vals, this`content
      ensures Valid() && content == old(content)[keys[slot].value := v]
    {
      WriteDenotes(Layout(free), hash, vals[..], content, slot, v);
      content := content[keys[slot].value := v];
      vals[slot] := v;
    }

    /** The arrays are now those of table t, with entries c. */
    ghost method Adopt(t: Table<K>, c: map<K, V>)
      requires (vals as object) != keys && (vals as object) != next && keys.Length == next.Length
      requires Inv(t, hash) && Denotes(t, vals[..], c)
      requires keys[..] == t.keys && next[..] == t.next && free == t.free
      modifies this`chains, this`content
      ensures Valid() && chains == t.chains && content == c
    {
      chains := t.chains;
      content := c;
      assert Layout(free) == t;
    }

    /** k has been entered at the slot; the value there is whatever the slot held. */
    twostate predicate Entered(k: K, slot: int)
      reads this, keys, vals, next
    {
      && Valid() && |free| == |old(free)|
      && 0 <= slot < keys.Length && keys[slot] == Some(k)
      && content == old(content)[k := vals[slot]]
    }

    /** The slot of k, taking a free one if k is new; what a new slot holds as its value is
        whatever was there. */
    method Set(k: K) returns (slot: int)
      requires Valid()
      modifies this, keys, vals, next
      ensures Valid()
      ensures 0 <= slot < keys.Length && keys[slot] == Some(k)
      ensures content == if k in old(content) then old(content) else old(content)[k := vals[slot]]
      ensures k in old(content) ==> unchanged(this, old(keys), old(vals), old(next))
      ensures old(free) != [] ==> keys == old(keys) && vals == old(vals) && next == old(next)
      ensures old(free) != [] && k !in old(content) ==> |free| == |old(free)| - 1
      ensures old(free) == [] && k !in old(content) ==>
        fresh(keys) && fresh(vals) && fresh(next) && keys.Length == 2 * old(keys.Length)
      decreases free == [], 2
    {
      slot := Get(k);
      if slot != NIL {
        return;
      }
      var f := FreeNode();
      slot := Place(k, f);
    }

    /** Enter the new key k, given the slot f taken off the free list. */
    method Place(k: K, f: int) returns (slot: int)
      requires ValidWith([f] + free) && k !in content
      modifies this`free, this`chains, this`content, keys, vals, next
      ensures Entered(k, slot)
    {
      assert f in Layout([f] + free).free;
      var m := hash(k) % keys.Length;
      if keys[m].None? {
        slot := PlaceMain(k, f, m);
        return;
      }
      var h := hash(keys[m].value) % keys.Length;
      if h == m {
        slot := PlaceBehind(k, f, m);
      } else {
        slot := PlaceMoved(k, f, m, h);
      }
    }

    method PlaceMain(k: K, f: int, m: int) returns (slot: int)
      requires ValidWith([f] + free) && k !in content
      requires 0 <= m < keys.Length && m == hash(k) % keys.Length && keys[m].None?
      modifies this`free, this`chains, this`content, keys, next
      ensures Entered(k, slot)
    {
      ghost var t := Layout([f] + free);
      PutMainKeeps(t, hash, m, k);
      PutMainDenotes(t, vals[..], m, k, content);
      assert m in t.free;
      free := [f] + free;
      free := Without(free, m);
      keys[m] := Some(k);
      next[m] := NIL;
      slot := m;
      Adopt(PutMain(t, m, k), content[k := vals[m]]);
    }

    /** Key k into slot f, linked in behind slot m. */
    method LinkBehind(k: K, f: int, m: int)
      requires 0 <= m < keys.Length == next.Length && 0 <= f < keys.Length
      modifies keys, next
      ensures keys[..] == old(keys[..])[f := Some(k)]
      ensures next[..] == old(next[..])[f := old(next[m])][m := f]
    {
      keys[f] := Some(k);
      next[f] := next[m];
      next[m] := f;
    }

    method PlaceBehind(k: K, f: int, m: int) returns (slot: int)
      requires ValidWith([f] + free) && k !in content && Slot(Layout(free), f) && keys[f].None?
      requires 0 <= m < keys.Length && m == hash(k) % keys.Length
      requires keys[m].Some? && hash(keys[m].value) % keys.Length == m
      modifies this`chains, this`content, keys, next
      ensures Entered(k, slot)
    {
      ghost var t := Layout([f] + free);
      PutBehindKeeps(t, hash, m, f, k);
      PutBehindDenotes(t, vals[..], m, f, k, content);
      LinkBehind(k, f, m);
      slot := f;
      Adopt(PutBehind(t, m, f, k), content[k := vals[f]]);
    }

    /** The slot before m on the chain that m's key belongs to. */
    method Predecessor(m: int, h: int, ghost fr: seq<int>) returns (p: int, ghost j: int)
      requires Inv(Layout(fr), hash)
      requires Used(Layout(fr), m) && h == Home(Layout(fr), hash, m) && h != m
      ensures 0 < j < |chains[h]| && chains[h][j] == m && chains[h][j - 1] == p
      ensures 0 <= p < keys.Length
    {
      ghost var t := Layout(fr);
      j := OnChain(t, hash, m, h);
      p := h;
      ghost var x := 0;
      while next[p] != NIL && next[p] != m
        invariant 0 <= x < j && p == t.chains[h][x] && 0 <= p < keys.Length
        decreases j - x
      {
        Between(t, hash, h, x, j);
        p := next[p];
        x := x + 1;
      }
      Between(t, hash, h, x, j);
      assert next[p] == m;
      j := x + 1;
    }

    /** Slot m, with its value, over to slot f; f takes m's place behind p, and k takes m. */
    method MoveOver(k: K, f: int, m: int, p: int)
      requires 0 <= m < keys.Length == next.Length == vals.Length && 0 <= f < keys.Length && 0 <= p < keys.Length
      requires (vals as object) != keys && (vals as object) != next && f != m
      modifies keys, vals, next
      ensures keys[..] == old(keys[..])[f := old(keys[m])][m := Some(k)]
      ensures vals[..] == old(vals[..])[f := old(vals[m])]
      ensures next[..] == old(next[..])[f := old(next[m])][p := f][m := NIL]
    {
      keys[f], vals[f], next[f] := keys[m], vals[m], next[m];
      next[p] := f;
      next[m] := NIL;
      keys[m] := Some(k);
    }

    method PlaceMoved(k: K, f: int, m: int, h: int) returns (slot: int)
      requires ValidWith([f] + free) && k !in content && Slot(Layout(free), f) && keys[f].None?
      requires 0 <= m < keys.Length && m == hash(k) % keys.Length
      requires keys[m].Some? && hash(keys[m].value) % keys.Length == h && h != m
      modifies this`chains, this`content, keys, vals, next
      ensures Entered(k, slot)
    {
      ghost var t := Layout([f] + free);
      var p;
      ghost var j;
      p, j := Predecessor(m, h, [f] + free);
      PutMovedKeeps(t, hash, h, j, f, k);
      PutMovedDenotes(t, vals[..], hash, h, j, f, k, content);
      MoveOver(k, f, m, p);
      slot := m;
      Adopt(PutMoved(t, h, j, f, k), content[k := vals[m]]);
    }

    /** The first free slot, taken off the free list. When there is none, the slots are
        copied to twice as many first. */
    method FreeNode() returns (f: int)
      requires Valid()
      modifies this, keys, vals, next
      ensures ValidWith([f] + free) && content == old(content)
      ensures old(free) != [] ==>
        [f] + free == old(free) && unchanged(this`keys, this`vals, this`next, this`chains, old(keys), old(vals), old(next))
      ensures old(free) == [] ==>
        fresh(keys) && fresh(vals) && fresh(next) && keys.Length == 2 * old(keys.Length)
      decreases free == [], 1
    {
      if free != [] {
        f := free[0];
        free := free[1..];
        assert [f] + free == old(free);
        return;
      }
      Expand();
      f := FreeNode();
    }

    method Expand()
      requires Valid() && free == []
      modifies this
      ensures Valid() && free != [] && content == old(content)
      ensures fresh(keys) && fresh(vals) && fresh(next) && keys.Length == 2 * old(keys.Length)
      decreases free == [], 0
    {
      var old_keys, old_vals := keys, vals;
      ghost var t, all := Layout(free), content;
      Full(t, hash);
      keys := new Option<K>[2 * old_keys.Length];
      vals := new V[2 * old_keys.Length];
      next := new int[2 * old_keys.Length];
      Clear();
      var i := 0;
      while i < old_keys.Length
        invariant 0 <= i <= old_keys.Length && keys.Length == 2 * old_keys.Length
        invariant fresh(keys) && fresh(vals) && fresh(next) && Valid()
        invariant |free| == keys.Length - i && Copied(t.keys, i, all, content)
      {
        assert t.keys[i] == old_keys[i];
        if old_keys[i].Some? {
          CopySlot(old_keys[i].value, old_vals[i], t.keys, i, all);
        }
        i := i + 1;
      }
      CopyDone(t, old_vals[..], all, content);
    }

    /** One key of the old slots, and its value, into the new ones. */
    method CopySlot(k: K, v: V, ghost from: seq<Option<K>>, ghost i: nat, ghost all: map<K, V>)
      requires Valid() && free != []
      requires i < |from| && from[i] == Some(k) && from[i] !in from[..i]
      requires Copied(from, i, all, content) && k in all && all[k] == v
      modifies this, keys, vals, next
      ensures Valid() && keys == old(keys) && vals == old(vals) && next == old(next)
      ensures |free| == |old(free)| - 1 && Copied(from, i + 1, all, content)
      decreases free == [], 3
    {
      CopyMore(from, i, all, content, k);
      var slot := Set(k);
      Write(slot, v);
    }

    /** k's slot and the one before it on its chain; NIL where there is none. */
    method Search(k: K) returns (slot: int, prev: int, ghost j: int)
      requires Valid()
      ensures slot == NIL <==> k !in content
      ensures slot != NIL ==>
        var m := hash(k) % keys.Length;
        && 0 <= slot < keys.Length && keys[slot] == Some(k)
        && 0 <= j < |chains[m]| && chains[m][j] == slot
        && chains[m][0] == m
        && if j == 0 then prev == NIL else prev != NIL && prev == chains[m][j - 1]
    {
      ghost var t := Layout(free);
      var m := hash(k) % keys.Length;
      ghost var c;
      c, j := WalkStarts(t, hash, m, k);
      slot, prev := m, NIL;
      WalkInside(t, hash, m, k, c, j, slot);
      while slot != NIL && keys[slot].Some?
        invariant Walking(t, hash, m, k, c, j, slot)
        invariant slot != NIL ==> 0 <= slot < keys.Length
        invariant c == m && Used(t, m) ==> prev == if j == 0 then NIL else t.chains[m][j - 1]
        decreases if Used(t, m) then |t.chains[c]| - j else 0
      {
        if keys[slot].value == k {
          WalkFound(t, hash, m, k, c, j, slot);
          ChainSlots(t, hash, m, j);
          return;
        }
        WalkStep(t, hash, m, k, c, j, slot);
        prev := slot;
        slot := next[slot];
        j := j + 1;
        if slot != NIL { WalkInside(t, hash, m, k, c, j, slot); }
      }
      WalkEnds(t, hash, m, k, c, j, slot);
      slot := NIL;
    }

    /** Take k's entry away, if there is one. */
    method Del(k: K)
      requires Valid()
      modifies this`free, this`chains, this`content, keys, vals, next
      ensures Valid() && content == old(content) - {k}
      ensures |free| == |old(free)| + if k in old(content) then 1 else 0
    {
      var slot, prev;
      ghost var j;
      slot, prev, j := Search(k);
      if slot == NIL {
        assert content - {k} == content;
        return;
      }
      var m := hash(k) % keys.Length;
      if prev != NIL {
        UnlinkInner(k, m, slot, prev, j);
      } else {
        UnlinkFirst(k, m);
      }
    }

    /** k, at slot, has prev before it on its chain: unlink the slot. */
    method UnlinkInner(k: K, m: int, slot: int, prev: int, ghost j: int)
      requires Valid() && 0 <= m < keys.Length && 0 <= slot < keys.Length && keys[slot] == Some(k)
      requires 0 < j < |chains[m]| && chains[m][j] == slot && prev == chains[m][j - 1]
      modifies this`free, this`chains, this`content, keys, next
      ensures Valid() && content == old(content) - {k}
      ensures |free| == |old(free)| + 1
    {
      ghost var t := Layout(free);
      ChainSlots(t, hash, m, j);
      DropInnerKeeps(t, hash, m, j);
      DropInnerDenotes(t, vals[..], hash, m, j, content);
      next[prev] := next[slot];
      keys[slot] := None;
      free := [slot] + free;
      Adopt(DropInner(t, m, j), content - {k});
    }

    /** k is at its main position: copy the next slot of the chain over it and free that
        one, or free the main slot if it is alone. */
    method UnlinkFirst(k: K, m: int)
      requires Valid() && 0 <= m < keys.Length && keys[m] == Some(k) && chains[m] != [] && chains[m][0] == m
      modifies this`free, this`chains, this`content, keys, vals, next
      ensures Valid() && content == old(content) - {k}
      ensures |free| == |old(free)| + 1
    {
      ghost var t := Layout(free);
      ChainSlots(t, hash, m, 0);
      var n := next[m];
      if n != NIL {
        DropFirstKeeps(t, hash, m);
        DropFirstDenotes(t, vals[..], hash, m, content);
        keys[m], vals[m], next[m] := keys[n], vals[n], next[n];
        keys[n] := None;
        free := [n] + free;
        Adopt(DropFirst(t, m), content - {k});
      } else {
        DropOnlyKeeps(t, hash, m);
        DropOnlyDenotes(t, vals[..], hash, m, content);
        keys[m] := None;
        free := [m] + free;
        Adopt(DropOnly(t, m), content - {k});
      }
    }

    /** The first used slot from id on, and where to go on from; NIL when there is none. */
    method Next(id: int) returns (slot: int, id': int)
      requires Valid()
      ensures slot == NextUsed(Layout(free), if id > 0 then id else 0)
      ensures id' == if slot == NIL then id else slot + 1
    {
      var i := if id > 0 then id else 0;
      ghost var t, first := Layout(free), NextUsed(Layout(free), i);
      while i < keys.Length
        invariant 0 <= i && NextUsed(t, i) == first
      {
        if keys[i].Some? {
          return i, i + 1;
        }
        i := i + 1;
      }
      return NIL, id;
    }

    /** A whole iteration over an unmodified table. */
    method Iterate() returns (slots: seq<int>)
      requires Valid()
      ensures slots == Visits(Layout(free), 0)
    {
      ghost var t := Layout(free);
      slots := [];
      var slot, id := Next(-1);
      while slot != NIL
        invariant slot != NIL ==> id == slot + 1 && 0 <= slot < keys.Length
        invariant slots + From(t, slot) == Visits(t, 0)
        decreases if slot == NIL then 0 else keys.Length - slot
      {
        FromStep(t, slots, slot);
        slots := slots + [slot];
        slot, id := Next(id);
      }
    }
  }
}
