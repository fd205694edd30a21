/** The entries of concurrent-hashmap/ConcurrentHashMap.java and the chains they form. Key, hash code
    and next entry never change, so neither does the chain that starts at an entry. */
module EntryChains {
  import opened PowersOfTwo

  datatype Option<T> = None | Some(value: T)

  /** A value of None is null: the entry has been removed. */
  class Entry<K, V> {
    const hash: int
    const key: K
    const next: Entry?<K, V>
    var value: Option<V>

    /** All the entries that follow this one. */
    ghost const rest: seq<Entry<K, V>>

    constructor (hash: int, key: K, value: Option<V>, next: Entry?<K, V>)
      requires Linked(next)
      ensures this.hash == hash && this.key == key && this.value == value && this.next == next
      ensures Linked(this) && Chain(this) == [this] + Chain(next)
    {
      this.hash, this.key, this.value, this.next := hash, key, value, next;
      rest := Chain(next);
    }
  }

  ghost function Chain<K, V>(e: Entry?<K, V>): seq<Entry<K, V>> {
    if e == null then [] else [e] + e.rest
  }

  /** The chain recorded with an entry is the one its links make. */
  ghost predicate Linked<K, V>(e: Entry?<K, V>)
    decreases |Chain(e)|
  {
    e != null ==> e.rest == Chain(e.next) && Linked(e.next)
  }

  /** A walk along a chain: the entry reached heads what is left of it. */
  ghost predicate Reached<K, V>(c: seq<Entry<K, V>>, n: nat, e: Entry?<K, V>) {
    n <= |c| && Linked(e) && Chain(e) == c[n..]
  }

  lemma Advance<K, V>(c: seq<Entry<K, V>>, n: nat, e: Entry<K, V>)
    requires Reached(c, n, e)
    ensures n < |c| && c[n] == e && Reached(c, n + 1, e.next)
  {
    assert c[n] == c[n..][0];
    assert c[n + 1..] == c[n..][1..];
  }

  lemma Begin<K, V>(e: Entry?<K, V>)
    requires Linked(e)
    ensures Reached(Chain(e), 0, e)
  {
  }

  lemma End<K, V>(c: seq<Entry<K, V>>, n: nat, e: Entry?<K, V>)
    requires Reached(c, n, e)
    ensures e == null <==> n == |c|
    ensures n <= |c|
  {
  }

  /** The walk has not met the entry at j before. */
  ghost predicate NotBefore<K, V>(c: seq<Entry<K, V>>, j: nat, e: Entry<K, V>) {
    j < |c| && forall i :: 0 <= i < j ==> c[i] != e
  }

  /** A walk that has not come to x yet. */
  lemma MoreToGo<K, V>(c: seq<Entry<K, V>>, j: nat, p: Entry<K, V>, r: nat, x: Entry<K, V>)
    requires j <= r && Reached(c, j, p) && Reached(c, r, x) && p != x
    ensures j < r < |c| && p.next != null && Reached(c, j + 1, p.next) && c[j] == p
  {
    Advance(c, j, p);
    Advance(c, r, x);
  }

  /** A walk that has come to x. */
  lemma NoMore<K, V>(c: seq<Entry<K, V>>, j: nat, x: Entry<K, V>, r: nat)
    requires j <= r && Reached(c, j, x) && NotBefore(c, r, x)
    ensures j == r
  {
    Advance(c, j, x);
  }

  lemma FirstAt<K, V>(c: seq<Entry<K, V>>, j: nat, e: Entry<K, V>)
    requires DistinctKeys(c) && Reached(c, j, e)
    ensures NotBefore(c, j, e)
  {
    Advance(c, j, e);
  }

  // ---------- Bins ----------

  ghost predicate DistinctKeys<K, V>(c: seq<Entry<K, V>>) {
    forall i, j :: 0 <= i < j < |c| ==> c[i].key != c[j].key
  }

  ghost predicate HasKey<K, V>(c: seq<Entry<K, V>>, key: K) {
    exists i :: 0 <= i < |c| && c[i].key == key
  }

  /** What is fixed about the entries of bin i of a table: they belong there, one for each key. */
  ghost predicate BinShape<K, V>(e: Entry?<K, V>, i: nat, cap: nat, hashOf: K -> int)
    requires cap > 0
  {
    && Linked(e) && DistinctKeys(Chain(e))
    && forall j {:trigger Belongs(Chain(e)[j], i, cap, hashOf)} :: 0 <= j < |Chain(e)| ==>
      Belongs(Chain(e)[j], i, cap, hashOf)
  }

  ghost predicate Belongs<K, V>(x: Entry<K, V>, i: nat, cap: nat, hashOf: K -> int)
    requires cap > 0
  {
    x.hash == hashOf(x.key) && BinOf(x.hash, cap) == i
  }

  /** The entries of a bin are live and hold what the map holds. */
  ghost predicate BinHolds<K, V>(e: Entry?<K, V>, m: map<K, V>, repr: set<Entry<K, V>>)
    reads repr
  {
    AllHold(Chain(e), m, repr)
  }

  ghost predicate AllHold<K, V>(c: seq<Entry<K, V>>, m: map<K, V>, repr: set<Entry<K, V>>)
    reads repr
  {
    forall j {:trigger EntryHolds(c[j], m, repr)} :: 0 <= j < |c| ==> EntryHolds(c[j], m, repr)
  }

  ghost predicate EntryHolds<K, V>(x: Entry<K, V>, m: map<K, V>, repr: set<Entry<K, V>>)
    reads repr
  {
    x in repr && x.key in m && x.value == Some(m[x.key])
  }

  lemma HoldsAt<K, V>(c: seq<Entry<K, V>>, j: nat, m: map<K, V>, repr: set<Entry<K, V>>, more: set<Entry<K, V>>)
    requires AllHold(c, m, repr) && j < |c| && repr <= more
    ensures EntryHolds(c[j], m, more)
  {
    assert EntryHolds(c[j], m, repr);
  }

  lemma HoldsMore<K, V>(e: Entry?<K, V>, m: map<K, V>, repr: set<Entry<K, V>>, more: set<Entry<K, V>>)
    requires BinHolds(e, m, repr) && repr <= more
    ensures BinHolds(e, m, more)
  {
    forall j | 0 <= j < |Chain(e)| ensures EntryHolds(Chain(e)[j], m, more) {
      assert EntryHolds(Chain(e)[j], m, repr);
    }
  }

  /** An entry in front of a bin that holds what the map holds. */
  lemma HoldsFront<K, V>(e: Entry<K, V>, m: map<K, V>, repr: set<Entry<K, V>>)
    requires Linked(e) && EntryHolds(e, m, repr) && BinHolds(e.next, m, repr)
    ensures BinHolds(e, m, repr)
  {
    forall j | 0 <= j < |Chain(e)| ensures EntryHolds(Chain(e)[j], m, repr) {
      if j > 0 { assert EntryHolds(Chain(e.next)[j - 1], m, repr); }
    }
  }

  // ---------- Counting ----------

  /** The entries in those of the first n bins that one segment covers. */
  ghost function SegmentSize<K, V>(t: seq<Entry?<K, V>>, seg: nat, n: nat): nat
    requires n <= |t|
  {
    if n == 0 then 0 else
    SegmentSize(t, seg, n - 1) + if BinOf(n - 1, SEGMENTS) == seg then |Chain(t[n - 1])| else 0
  }

  const SEGMENTS := 32

  lemma {:induction false} SegmentSizeUpdate<K, V>(t: seq<Entry?<K, V>>, i: nat, e: Entry?<K, V>, seg: nat, n: nat)
    requires i < |t| && n <= |t|
    ensures SegmentSize(t[i := e], seg, n) ==
      SegmentSize(t, seg, n) + if i < n && BinOf(i, SEGMENTS) == seg then |Chain(e)| - |Chain(t[i])| else 0
  {
    if n > 0 { SegmentSizeUpdate(t, i, e, seg, n - 1); }
  }

  // ---------- What rehash makes of a bin ----------

  /** Where the run of entries for one bin that ends the first n entries begins. */
  ghost function RunStart<K, V>(c: seq<Entry<K, V>>, cap: nat, n: nat): (r: nat)
    requires 0 < n <= |c| && cap > 0
    ensures r < n
  {
    if n == 1 then 0 else
    var r := RunStart(c, cap, n - 1);
    if BinOf(c[n - 1].hash, cap) != BinOf(c[r].hash, cap) then n - 1 else r
  }

  /** Bin b once the first j entries have been cloned to its front, if they belong there, before the
      run from r on. */
  ghost function Moved<K, V>(c: seq<Entry<K, V>>, cap: nat, b: nat, r: nat, j: nat): seq<Entry<K, V>>
    requires cap > 0 && j <= r < |c|
  {
    if j == 0 then if BinOf(c[r].hash, cap) == b then c[r..] else []
    else if BinOf(c[j - 1].hash, cap) == b then [c[j - 1]] + Moved(c, cap, b, r, j - 1)
    else Moved(c, cap, b, r, j - 1)
  }

  /** The entries of a bin that rehash puts into bin b of a table of size cap, in their new order. */
  ghost function Rehashed<K, V>(c: seq<Entry<K, V>>, cap: nat, b: nat): seq<Entry<K, V>>
    requires cap > 0
  {
    if c == [] then [] else
    var r := RunStart(c, cap, |c|);
    Moved(c, cap, b, r, r)
  }

  /** d has the keys and hash codes of src, entry by entry. */
  ghost predicate SameKeys<K, V>(d: seq<Entry<K, V>>, src: seq<Entry<K, V>>) {
    && |d| == |src|
    && forall l :: 0 <= l < |d| ==> d[l].key == src[l].key && d[l].hash == src[l].hash
  }

  /** The trailing run is for one bin, and the entry before it is not. */
  lemma {:induction false} RunIsMaximal<K, V>(c: seq<Entry<K, V>>, cap: nat, n: nat)
    requires 0 < n <= |c| && cap > 0
    ensures
      var r := RunStart(c, cap, n);
      && (forall j :: r <= j < n ==> BinOf(c[j].hash, cap) == BinOf(c[r].hash, cap))
      && (r > 0 ==> BinOf(c[r - 1].hash, cap) != BinOf(c[r].hash, cap))
  {
    if n > 1 { RunIsMaximal(c, cap, n - 1); }
  }

  /** The entries from r on are all for one bin. */
  ghost predicate IsRun<K, V>(c: seq<Entry<K, V>>, cap: nat, r: nat)
    requires cap > 0 && r < |c|
  {
    forall j :: r <= j < |c| ==> BinOf(c[j].hash, cap) == BinOf(c[r].hash, cap)
  }

  /** x is an entry for bin b, from the run or among the first j. */
  ghost predicate FromBin<K, V>(c: seq<Entry<K, V>>, cap: nat, b: nat, r: nat, j: nat, x: Entry<K, V>)
    requires cap > 0
  {
    exists i :: 0 <= i < |c| && (i < j || r <= i) && c[i] == x && BinOf(x.hash, cap) == b
  }

  lemma {:induction false} MovedSound<K, V>(c: seq<Entry<K, V>>, cap: nat, b: nat, r: nat, j: nat, l: nat)
    requires cap > 0 && j <= r < |c| && IsRun(c, cap, r) && l < |Moved(c, cap, b, r, j)|
    ensures FromBin(c, cap, b, r, j, Moved(c, cap, b, r, j)[l])
  {
    if j == 0 {
      assert c[r + l] == Moved(c, cap, b, r, j)[l];
    } else if BinOf(c[j - 1].hash, cap) == b {
      if l == 0 { assert c[j - 1] == Moved(c, cap, b, r, j)[l]; } else { MovedSound(c, cap, b, r, j - 1, l - 1); }
    } else {
      MovedSound(c, cap, b, r, j - 1, l);
    }
  }

  lemma {:induction false} MovedComplete<K, V>(c: seq<Entry<K, V>>, cap: nat, b: nat, r: nat, j: nat, x: Entry<K, V>)
    requires cap > 0 && j <= r < |c| && IsRun(c, cap, r) && FromBin(c, cap, b, r, j, x)
    ensures x in Moved(c, cap, b, r, j)
  {
    if j == 0 {
      var i :| 0 <= i < |c| && r <= i && c[i] == x && BinOf(x.hash, cap) == b;
      assert c[r..][i - r] == x;
    } else if BinOf(c[j - 1].hash, cap) != b || c[j - 1] != x {
      MovedComplete(c, cap, b, r, j - 1, x);
    }
  }

  /** A moved bin has one entry for each key. */
  lemma {:induction false} MovedDistinct<K, V>(c: seq<Entry<K, V>>, cap: nat, b: nat, r: nat, j: nat)
    requires cap > 0 && j <= r < |c| && IsRun(c, cap, r) && DistinctKeys(c)
    ensures DistinctKeys(Moved(c, cap, b, r, j))
  {
    if j > 0 {
      MovedDistinct(c, cap, b, r, j - 1);
      var m := Moved(c, cap, b, r, j - 1);
      forall l | 0 <= l < |m| ensures m[l].key != c[j - 1].key {
        MovedSound(c, cap, b, r, j - 1, l);
      }
    }
  }

  /** Every entry is for bin i or bin i + cap of a table of twice the size. */
  ghost predicate TwoBins<K, V>(c: seq<Entry<K, V>>, i: nat, cap: nat)
    requires cap > 0
  {
    forall j {:trigger InOneOf(c[j], i, cap)} :: 0 <= j < |c| ==> InOneOf(c[j], i, cap)
  }

  ghost predicate InOneOf<K, V>(x: Entry<K, V>, i: nat, cap: nat)
    requires cap > 0
  {
    BinOf(x.hash, 2 * cap) == i || BinOf(x.hash, 2 * cap) == i + cap
  }

  lemma {:induction false} MovedSizes<K, V>(c: seq<Entry<K, V>>, i: nat, cap: nat, r: nat, j: nat)
    requires cap > 0 && j <= r < |c| && TwoBins(c, i, cap)
    ensures |Moved(c, 2 * cap, i, r, j)| + |Moved(c, 2 * cap, i + cap, r, j)| == |c| - r + j
  {
    if j == 0 {
      assert InOneOf(c[r], i, cap);
    } else {
      assert InOneOf(c[j - 1], i, cap);
      MovedSizes(c, i, cap, r, j - 1);
    }
  }

  // ---------- What rehash preserves ----------

  /** Bin b of the doubled table gets exactly the entries that belong there, once each. */
  lemma RehashedExactly<K, V>(c: seq<Entry<K, V>>, cap: nat, b: nat)
    requires cap > 0 && DistinctKeys(c)
    ensures forall l :: 0 <= l < |Rehashed(c, cap, b)| ==>
      Rehashed(c, cap, b)[l] in c && BinOf(Rehashed(c, cap, b)[l].hash, cap) == b
    ensures forall i :: 0 <= i < |c| && BinOf(c[i].hash, cap) == b ==> c[i] in Rehashed(c, cap, b)
    ensures DistinctKeys(Rehashed(c, cap, b))
  {
    if c != [] {
      var r := RunStart(c, cap, |c|);
      RunIsMaximal(c, cap, |c|);
      MovedDistinct(c, cap, b, r, r);
      var d := Rehashed(c, cap, b);
      forall l | 0 <= l < |d| ensures d[l] in c && BinOf(d[l].hash, cap) == b { MovedSound(c, cap, b, r, r, l); }
      forall i | 0 <= i < |c| && BinOf(c[i].hash, cap) == b ensures c[i] in d {
        assert FromBin(c, cap, b, r, r, c[i]);
        MovedComplete(c, cap, b, r, r, c[i]);
      }
    }
  }

  /** The two bins that a bin splits into share its entries between them. */
  lemma RehashedSizes<K, V>(c: seq<Entry<K, V>>, i: nat, cap: nat)
    requires cap > 0 && TwoBins(c, i, cap)
    ensures |Rehashed(c, 2 * cap, i)| + |Rehashed(c, 2 * cap, i + cap)| == |c|
  {
    if c != [] {
      var r := RunStart(c, 2 * cap, |c|);
      MovedSizes(c, i, cap, r, r);
    }
  }
}
