/** The loops of ConcurrentHashMap.rehash (lines 608-642): every bin of a table split between two of a
    table of twice the size, with the entries of each bin's trailing run reused and the others cloned. */
module Rehash {
  import opened PowersOfTwo
  import opened EntryChains

  /** A table of chains that hold the map m. */
  ghost predicate TableOk<K, V>(t: seq<Entry?<K, V>>, hashOf: K -> int, m: map<K, V>, repr: set<Entry<K, V>>)
    reads repr
  {
    && |t| > 0
    && (forall i {:trigger BinOk(t, i, hashOf, m, repr)} :: 0 <= i < |t| ==> BinOk(t, i, hashOf, m, repr))
    && (forall k {:trigger KeyOk(t, hashOf, k)} :: k in m ==> KeyOk(t, hashOf, k))
  }

  ghost predicate BinOk<K, V>(t: seq<Entry?<K, V>>, i: nat, hashOf: K -> int, m: map<K, V>, repr: set<Entry<K, V>>)
    requires i < |t|
    reads repr
  {
    BinShape(t[i], i, |t|, hashOf) && BinHolds(t[i], m, repr)
  }

  ghost predicate KeyOk<K, V>(t: seq<Entry?<K, V>>, hashOf: K -> int, key: K)
    requires |t| > 0
  {
    HasKey(Chain(t[BinOf(hashOf(key), |t|)]), key)
  }

  // ---------- Moving one bin ----------

  /** Bin b of the new table has the keys of its entries among the first j of c in front of those of
      the run from r on. */
  ghost predicate BinMoved<K, V>(e: Entry?<K, V>, c: seq<Entry<K, V>>, cap: nat, b: nat, r: nat, j: nat)
    requires cap > 0 && j <= r < |c|
  {
    Linked(e) && SameKeys(Chain(e), Moved(c, cap, b, r, j))
  }

  /** Entry x itself, with the n - 1 that follow it, ends the chain of e. */
  ghost predicate Shares<K, V>(e: Entry?<K, V>, x: Entry<K, V>, n: nat) {
    0 < n <= |Chain(e)| && Chain(e)[|Chain(e)| - n] == x
  }

  /** Lines 623-631: the start of the trailing entries that all go to one bin. */
  method FindRun<K, V>(e: Entry<K, V>, cap: nat) returns (lastRun: Entry<K, V>, lastIdx: nat)
    requires Linked(e) && cap > 0
    ensures Reached(Chain(e), RunStart(Chain(e), cap, |Chain(e)|), lastRun)
    ensures lastIdx == BinOf(lastRun.hash, cap)
  {
    hide Linked, Chain, BinOf;
    lastRun, lastIdx := e, BinOf(e.hash, cap);
    Begin(e);
    ghost var c, n, r := Chain(e), 1, 0;
    Advance(c, 0, e);
    var last := e.next;
    while last != null
      invariant 1 <= n && Reached(c, n, last)
      invariant r == RunStart(c, cap, n) && Reached(c, r, lastRun)
      invariant lastIdx == BinOf(lastRun.hash, cap)
      decreases |c| - n
    {
      Advance(c, n, last);
      Advance(c, r, lastRun);
      var k := BinOf(last.hash, cap);
      if k != lastIdx {
        lastIdx := k;
        lastRun := last;
        r := n;
      }
      last := last.next;
      n := n + 1;
    }
    End(c, n, last);
  }

  /** Before any clone, the trailing run is in its bin and the other one is empty. */
  lemma RunPlaced<K, V>(c: seq<Entry<K, V>>, cap: nat, run: Entry<K, V>, b: nat, r: nat)
    requires cap > 0 && r < |c| && Reached(c, r, run)
    ensures BinMoved(if BinOf(run.hash, cap) == b then run else null, c, cap, b, r, 0)
  {
    Advance(c, r, run);
  }

  /** An entry with the key and hash code of c[j] in front of its bin moves the bin on. */
  lemma CloneMoves<K, V>(copy: Entry<K, V>, c: seq<Entry<K, V>>, cap: nat, b: nat, r: nat, j: nat)
    requires cap > 0 && j < r < |c| && BinOf(c[j].hash, cap) == b
    requires BinMoved(copy.next, c, cap, b, r, j) && Linked(copy) && copy.key == c[j].key && copy.hash == c[j].hash
    ensures BinMoved(copy, c, cap, b, r, j + 1)
  {
    var d, src := Chain(copy), Moved(c, cap, b, r, j + 1);
    assert src == [c[j]] + Moved(c, cap, b, r, j);
    assert d == [copy] + Chain(copy.next);
    forall l | 0 <= l < |d| ensures d[l].key == src[l].key && d[l].hash == src[l].hash {
      if l > 0 {
        assert d[l] == Chain(copy.next)[l - 1] && src[l] == Moved(c, cap, b, r, j)[l - 1];
      }
    }
  }

  /** The two bins of the new table that the entries of c go to, after the first j clones. */
  ghost predicate BothMoved<K, V>(low: Entry?<K, V>, high: Entry?<K, V>, c: seq<Entry<K, V>>, i: nat, cap: nat,
                                  r: nat, j: nat, m: map<K, V>, repr: set<Entry<K, V>>)
    requires cap > 0 && j <= r < |c|
    reads repr
  {
    && BinMoved(low, c, 2 * cap, i, r, j) && BinHolds(low, m, repr)
    && BinMoved(high, c, 2 * cap, i + cap, r, j) && BinHolds(high, m, repr)
    && (Shares(low, c[r], |c| - r) || Shares(high, c[r], |c| - r))
  }

  lemma BothMovedOn<K, V>(copy: Entry<K, V>, low: Entry?<K, V>, high: Entry?<K, V>, c: seq<Entry<K, V>>,
                          i: nat, cap: nat, r: nat, j: nat, m: map<K, V>, repr: set<Entry<K, V>>, more: set<Entry<K, V>>)
    requires cap > 0 && j < r < |c| && TwoBins(c, i, cap) && repr <= more
    requires BothMoved(low, high, c, i, cap, r, j, m, repr) && EntryHolds(copy, m, more) && Linked(copy)
    requires copy.key == c[j].key && copy.hash == c[j].hash
    requires copy.next == if BinOf(copy.hash, 2 * cap) == i then low else high
    ensures if BinOf(copy.hash, 2 * cap) == i then BothMoved(copy, high, c, i, cap, r, j + 1, m, more)
            else BinOf(copy.hash, 2 * cap) == i + cap && BothMoved(low, copy, c, i, cap, r, j + 1, m, more)
  {
    hide BinMoved, BinHolds, Shares, Linked, EntryHolds;
    assert InOneOf(c[j], i, cap);
    HoldsMore(low, m, repr, more);
    HoldsMore(high, m, repr, more);
    HoldsFront(copy, m, more);
    CloneMoves(copy, c, 2 * cap, BinOf(copy.hash, 2 * cap), r, j);
    if BinOf(copy.hash, 2 * cap) == i {
      OtherStays(high, c, 2 * cap, i + cap, r, j);
    } else {
      OtherStays(low, c, 2 * cap, i, r, j);
    }
    SharesOn(copy, c[r], |c| - r);
  }

  /** The bin that entry j is not for stays as it is. */
  lemma OtherStays<K, V>(e: Entry?<K, V>, c: seq<Entry<K, V>>, cap: nat, b: nat, r: nat, j: nat)
    requires cap > 0 && j < r < |c| && BinOf(c[j].hash, cap) != b && BinMoved(e, c, cap, b, r, j)
    ensures BinMoved(e, c, cap, b, r, j + 1)
  {
  }

  lemma SharesOn<K, V>(copy: Entry<K, V>, x: Entry<K, V>, n: nat)
    requires Linked(copy)
    ensures Shares(copy.next, x, n) ==> Shares(copy, x, n)
  {
    if Shares(copy.next, x, n) {
      var l := |Chain(copy.next)| - n;
      assert Chain(copy)[l + 1] == Chain(copy.next)[l];
    }
  }

  /** Lines 636-638: clones one entry to the front of its bin. */
  method CloneOne<K, V>(newTable: array<Entry?<K, V>>, p: Entry<K, V>, ghost c: seq<Entry<K, V>>, ghost i: nat,
                        ghost cap: nat, ghost r: nat, ghost j: nat, ghost m: map<K, V>, ghost repr: set<Entry<K, V>>)
    returns (ghost copy: Entry<K, V>)
    requires newTable.Length == 2 * cap && i < cap && j < r < |c| && c[j] == p
    requires TwoBins(c, i, cap) && EntryHolds(p, m, repr)
    requires BothMoved(newTable[i], newTable[i + cap], c, i, cap, r, j, m, repr)
    modifies newTable
    ensures fresh(copy)
    ensures forall b :: 0 <= b < 2 * cap && b != i && b != i + cap ==> newTable[b] == old(newTable[b])
    ensures BothMoved(newTable[i], newTable[i + cap], c, i, cap, r, j + 1, m, repr + {copy})
  {
    hide BinHolds, SameKeys, Moved, Shares, Linked;
    assert InOneOf(c[j], i, cap);
    var k := BinOf(p.hash, newTable.Length);
    var clone := new Entry(p.hash, p.key, p.value, newTable[k]);
    copy := clone;
    BothMovedOn(copy, newTable[i], newTable[i + cap], c, i, cap, r, j, m, repr, repr + {copy});
    newTable[k] := clone;
  }

  /** Lines 635-639: clones the entries before the trailing run. */
  method CloneAll<K, V>(e: Entry<K, V>, lastRun: Entry<K, V>, newTable: array<Entry?<K, V>>, ghost c: seq<Entry<K, V>>,
                        ghost i: nat, ghost cap: nat, ghost r: nat, ghost m: map<K, V>, ghost repr: set<Entry<K, V>>)
    returns (ghost made: set<Entry<K, V>>)
    requires newTable.Length == 2 * cap && i < cap && TwoBins(c, i, cap) && AllHold(c, m, repr)
    requires r < |c| && Reached(c, 0, e) && Reached(c, r, lastRun) && NotBefore(c, r, lastRun)
    requires BothMoved(newTable[i], newTable[i + cap], c, i, cap, r, 0, m, repr)
    modifies newTable
    ensures fresh(made)
    ensures forall b :: 0 <= b < 2 * cap && b != i && b != i + cap ==> newTable[b] == old(newTable[b])
    ensures BothMoved(newTable[i], newTable[i + cap], c, i, cap, r, r, m, repr + made)
  {
    hide BothMoved, TwoBins, AllHold, NotBefore, EntryHolds, BinOf;
    made := {};
    assert repr + made == repr;
    var p := e;
    ghost var j := 0;
    while p != lastRun
      invariant fresh(made)
      invariant 0 <= j <= r && Reached(c, j, p)
      invariant forall b :: 0 <= b < 2 * cap && b != i && b != i + cap ==> newTable[b] == old(newTable[b])
      invariant BothMoved(newTable[i], newTable[i + cap], c, i, cap, r, j, m, repr + made)
      decreases r - j
      modifies newTable
    {
      MoreToGo(c, j, p, r, lastRun);
      HoldsAt(c, j, m, repr, repr + made);
      ghost var copy := CloneOne(newTable, p, c, i, cap, r, j, m, repr + made);
      assert repr + made + {copy} == repr + (made + {copy});
      made := made + {copy};
      p := p.next;
      j := j + 1;
    }
    NoMore(c, j, p, r);
  }

  lemma RunInPlace<K, V>(c: seq<Entry<K, V>>, run: Entry<K, V>, i: nat, cap: nat, r: nat, m: map<K, V>, repr: set<Entry<K, V>>)
    requires cap > 0 && TwoBins(c, i, cap) && i < cap && r < |c| && Reached(c, r, run)
    requires AllHold(c, m, repr)
    ensures
      if BinOf(run.hash, 2 * cap) == i then BothMoved(run, null, c, i, cap, r, 0, m, repr)
      else BinOf(run.hash, 2 * cap) == i + cap && BothMoved(null, run, c, i, cap, r, 0, m, repr)
  {
    Advance(c, r, run);
    assert InOneOf(c[r], i, cap);
    RunPlaced(c, 2 * cap, run, i, r);
    RunPlaced(c, 2 * cap, run, i + cap, r);
    forall j | 0 <= j < |Chain(run)| ensures EntryHolds(Chain(run)[j], m, repr) {
      assert Chain(run)[j] == c[r + j];
      assert EntryHolds(c[r + j], m, repr);
    }
  }

  /** Lines 619 and 632: the run goes to its bin as it is. */
  method PlaceRun<K, V>(newTable: array<Entry?<K, V>>, run: Entry<K, V>, idx: nat, ghost c: seq<Entry<K, V>>,
                        ghost i: nat, ghost cap: nat, ghost r: nat, ghost m: map<K, V>, ghost repr: set<Entry<K, V>>)
    requires newTable.Length == 2 * cap && i < cap && TwoBins(c, i, cap) && r < |c| && Reached(c, r, run)
    requires AllHold(c, m, repr)
    requires idx == BinOf(run.hash, 2 * cap) && newTable[i] == null && newTable[i + cap] == null
    modifies newTable
    ensures forall b :: 0 <= b < 2 * cap && b != i && b != i + cap ==> newTable[b] == old(newTable[b])
    ensures BothMoved(newTable[i], newTable[i + cap], c, i, cap, r, 0, m, repr)
  {
    RunInPlace(c, run, i, cap, r, m, repr);
    newTable[idx] := run;
  }

  /** Lines 613-641: what bin i of the old table becomes in the new one. The clones are new entries,
      and only the new table is written, so any traversal of the old one can go on. */
  method MoveBin<K, V>(e: Entry<K, V>, newTable: array<Entry?<K, V>>, ghost i: nat, ghost cap: nat,
                       ghost m: map<K, V>, ghost repr: set<Entry<K, V>>)
    returns (ghost made: set<Entry<K, V>>)
    requires newTable.Length == 2 * cap && i < cap && TwoBins(Chain(e), i, cap)
    requires Linked(e) && DistinctKeys(Chain(e)) && BinHolds(e, m, repr)
    requires newTable[i] == null && newTable[i + cap] == null
    modifies newTable
    ensures fresh(made)
    ensures forall b :: 0 <= b < 2 * cap && b != i && b != i + cap ==> newTable[b] == old(newTable[b])
    ensures
      var r := RunStart(Chain(e), 2 * cap, |Chain(e)|);
      BothMoved(newTable[i], newTable[i + cap], Chain(e), i, cap, r, r, m, repr + made)
  {
    ghost var c := Chain(e);
    var idx := BinOf(e.hash, newTable.Length);
    var next := e.next;
    if next == null {
      made := {};
      assert repr + made == repr;
      PlaceRun(newTable, e, idx, c, i, cap, 0, m, repr);
    } else {
      var lastRun, lastIdx := FindRun(e, newTable.Length);
      ghost var r := RunStart(c, 2 * cap, |c|);
      PlaceRun(newTable, lastRun, lastIdx, c, i, cap, r, m, repr);
      FirstAt(c, r, lastRun);
      made := CloneAll(e, lastRun, newTable, c, i, cap, r, m, repr);
    }
  }

  // ---------- Moving the table ----------

  /** Bin b of the new table holds what rehash makes of the chain c. */
  ghost predicate BinDone<K, V>(e: Entry?<K, V>, c: seq<Entry<K, V>>, cap: nat, b: nat, m: map<K, V>, repr: set<Entry<K, V>>)
    requires cap > 0
    reads repr
  {
    Linked(e) && SameKeys(Chain(e), Rehashed(c, cap, b)) && BinHolds(e, m, repr)
  }

  /** The trailing run of a bin is not copied. */
  ghost predicate RunReused<K, V>(low: Entry?<K, V>, high: Entry?<K, V>, c: seq<Entry<K, V>>, cap: nat)
    requires cap > 0
  {
    c != [] ==>
      var r := RunStart(c, cap, |c|);
      Shares(low, c[r], |c| - r) || Shares(high, c[r], |c| - r)
  }

  ghost predicate BothDone<K, V>(t: seq<Entry?<K, V>>, t': seq<Entry?<K, V>>, i: nat, m: map<K, V>, repr: set<Entry<K, V>>)
    requires |t'| == 2 * |t| && i < |t|
    reads repr
  {
    && BinDone(t'[i], Chain(t[i]), |t'|, i, m, repr) && BinDone(t'[i + |t|], Chain(t[i]), |t'|, i + |t|, m, repr)
    && RunReused(t'[i], t'[i + |t|], Chain(t[i]), |t'|)
  }

  lemma DoneMore<K, V>(t: seq<Entry?<K, V>>, t': seq<Entry?<K, V>>, i: nat, m: map<K, V>,
                       repr: set<Entry<K, V>>, more: set<Entry<K, V>>)
    requires |t'| == 2 * |t| && i < |t| && BothDone(t, t', i, m, repr) && repr <= more
    ensures BothDone(t, t', i, m, more)
  {
    HoldsMore(t'[i], m, repr, more);
    HoldsMore(t'[i + |t|], m, repr, more);
  }

  lemma BinSplits<K, V>(e: Entry?<K, V>, i: nat, cap: nat, hashOf: K -> int)
    requires cap > 0 && BinShape(e, i, cap, hashOf)
    ensures TwoBins(Chain(e), i, cap)
  {
    var c := Chain(e);
    forall j | 0 <= j < |c| ensures InOneOf(c[j], i, cap) {
      assert Belongs(c[j], i, cap, hashOf);
      DoubledBin(c[j].hash, cap);
    }
  }

  /** The bins that bin i will move to are still empty. */
  ghost predicate BothNull<K, V>(t': seq<Entry?<K, V>>, i: nat, cap: nat)
    requires |t'| == 2 * cap && i < cap
  {
    t'[i] == null && t'[i + cap] == null
  }

  /** Lines 611-641: moves bin i. */
  method MoveOne<K, V>(oldTable: array<Entry?<K, V>>, newTable: array<Entry?<K, V>>, i: nat,
                       ghost hashOf: K -> int, ghost m: map<K, V>, ghost repr: set<Entry<K, V>>, ghost made: set<Entry<K, V>>)
    returns (ghost more: set<Entry<K, V>>)
    requires oldTable != newTable && newTable.Length == 2 * oldTable.Length && i < oldTable.Length
    requires BinShape(oldTable[i], i, oldTable.Length, hashOf) && BinHolds(oldTable[i], m, repr)
    requires BothNull(newTable[..], i, oldTable.Length)
    requires forall b :: 0 <= b < i ==> BothDone(oldTable[..], newTable[..], b, m, repr + made)
    modifies newTable
    ensures fresh(more)
    ensures forall b :: 0 <= b < newTable.Length && b != i && b != i + oldTable.Length ==> newTable[b] == old(newTable[b])
    ensures forall b :: 0 <= b < i + 1 ==> BothDone(oldTable[..], newTable[..], b, m, repr + (made + more))
  {
    hide BinDone, RunReused, BothMoved, BinHolds, TwoBins, Linked;
    var e := oldTable[i];
    ghost var t, before := oldTable[..], newTable[..];
    more := {};
    if e != null {
      BinSplits(e, i, oldTable.Length, hashOf);
      assert before[i] == null && before[i + |t|] == null;
      more := MoveBin(e, newTable, i, oldTable.Length, m, repr);
      MovedIsDone(newTable[i], newTable[i + |t|], Chain(e), i, |t|, m, repr + more);
      assert BothDone(t, newTable[..], i, m, repr + more);
    } else {
      NullDone(t, before, i, m, repr + more);
    }
    ghost var t' := newTable[..];
    forall b | 0 <= b < i ensures BothDone(t, before, b, m, repr + made) {
      assert old(BothDone(oldTable[..], newTable[..], b, m, repr + made));
    }
    OneMoreDone(t, before, t', i, m, repr, made, more);
  }

  /** Lines 608-642. */
  method MoveAll<K, V>(oldTable: array<Entry?<K, V>>, newTable: array<Entry?<K, V>>,
                       ghost hashOf: K -> int, ghost m: map<K, V>, ghost repr: set<Entry<K, V>>)
    returns (ghost made: set<Entry<K, V>>)
    requires oldTable != newTable && newTable.Length == 2 * oldTable.Length
    requires TableOk(oldTable[..], hashOf, m, repr)
    requires forall b :: 0 <= b < newTable.Length ==> newTable[b] == null
    modifies newTable
    ensures fresh(made)
    ensures forall i :: 0 <= i < oldTable.Length ==> BothDone(oldTable[..], newTable[..], i, m, repr + made)
  {
    made := {};
    for i := 0 to oldTable.Length
      invariant fresh(made)
      invariant forall b :: i <= b < oldTable.Length ==> BothNull(newTable[..], b, oldTable.Length)
      invariant forall b :: 0 <= b < i ==> BothDone(oldTable[..], newTable[..], b, m, repr + made)
      modifies newTable
    {
      assert BinOk(oldTable[..], i, hashOf, m, repr);
      ghost var before := newTable[..];
      ghost var more := MoveOne(oldTable, newTable, i, hashOf, m, repr, made);
      made := made + more;
      forall b | i + 1 <= b < oldTable.Length ensures BothNull(newTable[..], b, oldTable.Length) {
        assert BothNull(before, b, oldTable.Length);
      }
    }
  }

  lemma MovedIsDone<K, V>(low: Entry?<K, V>, high: Entry?<K, V>, c: seq<Entry<K, V>>, i: nat, cap: nat, m: map<K, V>,
                          repr: set<Entry<K, V>>)
    requires c != [] && cap > 0
    requires
      var r := RunStart(c, 2 * cap, |c|);
      BothMoved(low, high, c, i, cap, r, r, m, repr)
    ensures BinDone(low, c, 2 * cap, i, m, repr) && BinDone(high, c, 2 * cap, i + cap, m, repr)
    ensures RunReused(low, high, c, 2 * cap)
  {
  }

  lemma NullDone<K, V>(t: seq<Entry?<K, V>>, t': seq<Entry?<K, V>>, i: nat, m: map<K, V>, repr: set<Entry<K, V>>)
    requires |t'| == 2 * |t| && i < |t| && t[i] == null && BothNull(t', i, |t|)
    ensures BothDone(t, t', i, m, repr)
  {
  }

  /** One more bin is done, and the others still are. */
  lemma OneMoreDone<K, V>(t: seq<Entry?<K, V>>, before: seq<Entry?<K, V>>, t': seq<Entry?<K, V>>, i: nat,
                          m: map<K, V>, repr: set<Entry<K, V>>, made: set<Entry<K, V>>, more: set<Entry<K, V>>)
    requires |t'| == |before| == 2 * |t| && i < |t| && BothDone(t, t', i, m, repr + more)
    requires forall b :: 0 <= b < |t'| && b != i && b != i + |t| ==> t'[b] == before[b]
    requires forall b :: 0 <= b < i ==> BothDone(t, before, b, m, repr + made)
    ensures forall b :: 0 <= b < i + 1 ==> BothDone(t, t', b, m, repr + (made + more))
  {
    forall b | 0 <= b < i + 1 ensures BothDone(t, t', b, m, repr + (made + more)) {
      if b < i {
        assert BothDone(t, before, b, m, repr + made);
        assert BothDone(t, t', b, m, repr + made);
        DoneMore(t, t', b, m, repr + made, repr + (made + more));
      } else {
        DoneMore(t, t', b, m, repr + more, repr + (made + more));
      }
    }
  }

  // ---------- The new table holds the same map ----------

  /** A bin that is done has the right shape. */
  lemma DoneShape<K, V>(e: Entry?<K, V>, c: seq<Entry<K, V>>, cap: nat, b: nat, hashOf: K -> int)
    requires cap > 0 && Linked(e) && DistinctKeys(c) && SameKeys(Chain(e), Rehashed(c, cap, b))
    requires forall i :: 0 <= i < |c| ==> c[i].hash == hashOf(c[i].key)
    ensures BinShape(e, b, cap, hashOf)
  {
    RehashedExactly(c, cap, b);
    var d, src := Chain(e), Rehashed(c, cap, b);
    forall l | 0 <= l < |d| ensures Belongs(d[l], b, cap, hashOf) {
      var i :| 0 <= i < |c| && c[i] == src[l];
      assert d[l].hash == c[i].hash == hashOf(c[i].key);
    }
  }

  /** A key of the old bin that belongs in bin b is found there. */
  lemma KeyMoves<K, V>(e: Entry?<K, V>, c: seq<Entry<K, V>>, cap: nat, b: nat, i: nat)
    requires cap > 0 && DistinctKeys(c) && SameKeys(Chain(e), Rehashed(c, cap, b))
    requires i < |c| && BinOf(c[i].hash, cap) == b
    ensures HasKey(Chain(e), c[i].key)
  {
    RehashedExactly(c, cap, b);
    var src := Rehashed(c, cap, b);
    var l :| 0 <= l < |src| && src[l] == c[i];
    assert Chain(e)[l].key == c[i].key;
  }

  lemma HashesRight<K, V>(e: Entry?<K, V>, i: nat, cap: nat, hashOf: K -> int)
    requires cap > 0 && BinShape(e, i, cap, hashOf)
    ensures forall j :: 0 <= j < |Chain(e)| ==> Chain(e)[j].hash == hashOf(Chain(e)[j].key)
  {
    forall j | 0 <= j < |Chain(e)| ensures Chain(e)[j].hash == hashOf(Chain(e)[j].key) {
      assert Belongs(Chain(e)[j], i, cap, hashOf);
    }
  }

  /** The bin of the old table whose entries go to bin b. */
  function OldBin(b: nat, cap: nat): (i: nat)
    requires b < 2 * cap
    ensures i < cap
  {
    if b < cap then b else b - cap
  }

  lemma DoneBinOk<K, V>(t: seq<Entry?<K, V>>, t': seq<Entry?<K, V>>, b: nat, hashOf: K -> int, m: map<K, V>,
                        more: set<Entry<K, V>>)
    requires |t'| == 2 * |t| && b < |t'|
    requires BinShape(t[OldBin(b, |t|)], OldBin(b, |t|), |t|, hashOf) && BothDone(t, t', OldBin(b, |t|), m, more)
    ensures BinShape(t'[b], b, |t'|, hashOf) && BinHolds(t'[b], m, more)
  {
    var i := OldBin(b, |t|);
    HashesRight(t[i], i, |t|, hashOf);
    DoneShape(t'[b], Chain(t[i]), |t'|, b, hashOf);
  }

  lemma DoneKeyAt<K, V>(t: seq<Entry?<K, V>>, t': seq<Entry?<K, V>>, i: nat, j: nat, b: nat, m: map<K, V>,
                        more: set<Entry<K, V>>)
    requires |t'| == 2 * |t| && i < |t| && DistinctKeys(Chain(t[i])) && BothDone(t, t', i, m, more)
    requires j < |Chain(t[i])| && BinOf(Chain(t[i])[j].hash, |t'|) == b && (b == i || b == i + |t|)
    ensures HasKey(Chain(t'[b]), Chain(t[i])[j].key)
  {
    KeyMoves(t'[b], Chain(t[i]), |t'|, b, j);
  }

  lemma DoneKeyOk<K, V>(t: seq<Entry?<K, V>>, t': seq<Entry?<K, V>>, i: nat, key: K, hashOf: K -> int, m: map<K, V>,
                        more: set<Entry<K, V>>)
    requires |t'| == 2 * |t| && i < |t| && BinShape(t[i], i, |t|, hashOf) && BothDone(t, t', i, m, more)
    requires HasKey(Chain(t[i]), key)
    ensures HasKey(Chain(t'[BinOf(hashOf(key), |t'|)]), key)
  {
    var c := Chain(t[i]);
    var j :| 0 <= j < |c| && c[j].key == key;
    assert Belongs(c[j], i, |t|, hashOf);
    DoubledBin(c[j].hash, |t|);
    DoneKeyAt(t, t', i, j, BinOf(c[j].hash, 2 * |t|), m, more);
  }

  /** Rehash keeps the map: the doubled table holds exactly the same keys and values, each once, in the
      bin of its hash code. */
  lemma RehashKeepsMap<K, V>(t: seq<Entry?<K, V>>, t': seq<Entry?<K, V>>, hashOf: K -> int, m: map<K, V>,
                             repr: set<Entry<K, V>>, more: set<Entry<K, V>>)
    requires |t'| == 2 * |t| && TableOk(t, hashOf, m, repr)
    requires forall i :: 0 <= i < |t| ==> BothDone(t, t', i, m, more)
    ensures TableOk(t', hashOf, m, more)
  {
    forall b | 0 <= b < |t'| ensures BinOk(t', b, hashOf, m, more) {
      var i := OldBin(b, |t|);
      assert BothDone(t, t', i, m, more) && BinOk(t, i, hashOf, m, repr);
      DoneBinOk(t, t', b, hashOf, m, more);
    }
    forall k | k in m ensures KeyOk(t', hashOf, k) {
      var i := BinOf(hashOf(k), |t|);
      assert BothDone(t, t', i, m, more) && BinOk(t, i, hashOf, m, repr) && KeyOk(t, hashOf, k);
      DoneKeyOk(t, t', i, k, hashOf, m, more);
    }
  }

  // ---------- Every entry stays in its segment ----------

  ghost predicate SizesSplit<K, V>(t: seq<Entry?<K, V>>, t': seq<Entry?<K, V>>, i: nat)
    requires |t'| == 2 * |t| && i < |t|
  {
    |Chain(t'[i])| + |Chain(t'[|t| + i])| == |Chain(t[i])|
  }

  lemma DoneSizes<K, V>(t: seq<Entry?<K, V>>, t': seq<Entry?<K, V>>, i: nat, hashOf: K -> int, m: map<K, V>,
                        more: set<Entry<K, V>>)
    requires |t'| == 2 * |t| && i < |t| && BinShape(t[i], i, |t|, hashOf) && BothDone(t, t', i, m, more)
    ensures SizesSplit(t, t', i)
  {
    hide BinShape, BinHolds, Linked, Rehashed, TwoBins, RunReused;
    BinSplits(t[i], i, |t|, hashOf);
    RehashedSizes(Chain(t[i]), i, |t|);
  }

  /** The two bins that a bin splits into are in its segment. */
  lemma SameSegment(i: nat, cap: nat)
    requires PowerOfTwo(cap) && SEGMENTS <= cap
    ensures BinOf(cap + i, SEGMENTS) == BinOf(i, SEGMENTS)
  {
    assert PowerOfTwo(SEGMENTS) by { assert PowerOfTwo(4) && PowerOfTwo(16); }
    var k := Divides(SEGMENTS, cap);
    AddMultiple(i, SEGMENTS, k);
    assert i + k * SEGMENTS == cap + i;
  }

  ghost predicate Aligned(i: nat, cap: nat) {
    BinOf(cap + i, SEGMENTS) == BinOf(i, SEGMENTS)
  }

  lemma {:induction false} UpperHalf<K, V>(t: seq<Entry?<K, V>>, t': seq<Entry?<K, V>>, seg: nat, n: nat)
    requires |t'| == 2 * |t| && n <= |t|
    requires forall i :: 0 <= i < |t| ==> SizesSplit(t, t', i) && Aligned(i, |t|)
    ensures SegmentSize(t', seg, n) + SegmentSize(t', seg, |t| + n) == SegmentSize(t, seg, n) + SegmentSize(t', seg, |t|)
  {
    if n > 0 {
      var i := n - 1;
      UpperHalf(t, t', seg, i);
      assert SizesSplit(t, t', i) && Aligned(i, |t|);
      LastBin(t, seg, i);
      LastBin(t', seg, i);
      LastBin(t', seg, |t| + i);
    }
  }

  lemma LastBin<K, V>(t: seq<Entry?<K, V>>, seg: nat, i: nat)
    requires i < |t|
    ensures SegmentSize(t, seg, i + 1) == SegmentSize(t, seg, i) + if BinOf(i, SEGMENTS) == seg then |Chain(t[i])| else 0
  {
  }

  /** Rehash leaves the number of entries in each segment. */
  lemma SegmentsKept<K, V>(t: seq<Entry?<K, V>>, t': seq<Entry?<K, V>>, seg: nat)
    requires |t'| == 2 * |t| && PowerOfTwo(|t|) && SEGMENTS <= |t|
    requires forall i :: 0 <= i < |t| ==> SizesSplit(t, t', i)
    ensures SegmentSize(t', seg, |t'|) == SegmentSize(t, seg, |t|)
  {
    forall i | 0 <= i < |t| ensures Aligned(i, |t|) { SameSegment(i, |t|); }
    UpperHalf(t, t', seg, |t|);
  }
}
