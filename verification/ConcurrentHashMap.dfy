/** The map of concurrent-hashmap/ConcurrentHashMap.java: a table of chains, updated in place. */
module ConcurrentMap {
  import opened BitCount
  import opened EntryChains
  import opened PowersOfTwo
  import opened Rehash
  import opened SegmentBits
  import opened Tables

  const MINIMUM_CAPACITY := 32
  const MAXIMUM_CAPACITY := 0x4000_0000
  const MAX_INT := 0x7fff_ffff

  predicate Capacity(n: int) {
    MINIMUM_CAPACITY <= n <= MAXIMUM_CAPACITY && PowerOfTwo(n)
  }

  lemma Capacities()
    ensures Capacity(MINIMUM_CAPACITY) && Capacity(MAXIMUM_CAPACITY)
  {
    Times32(1);
    Times32(0x20);
    Times32(0x400);
    Times32(0x8000);
    Times32(0x10_0000);
    Times32(0x200_0000);
  }

  lemma Doubled(n: nat)
    requires PowerOfTwo(n)
    ensures PowerOfTwo(2 * n)
  {
    assert 2 * n / 2 == n;
  }

  lemma Times32(n: nat)
    requires PowerOfTwo(n)
    ensures PowerOfTwo(32 * n)
  {
    Doubled(n);
    Doubled(2 * n);
    Doubled(4 * n);
    Doubled(8 * n);
    Doubled(16 * n);
  }

  /** What is left of a product in 32 bits. */
  function Int32(x: int): int {
    (x + 0x8000_0000) % 0x1_0000_0000 - 0x8000_0000
  }

  /** Lines 295-308: the least capacity that is large enough, if there is one. */
  method P2Capacity(initialCapacity: int) returns (result: nat)
    ensures Capacity(result)
    ensures 0 <= initialCapacity <= MAXIMUM_CAPACITY ==>
      initialCapacity <= result && forall c :: Capacity(c) && initialCapacity <= c ==> result <= c
    ensures !(0 <= initialCapacity <= MAXIMUM_CAPACITY) ==> result == MAXIMUM_CAPACITY
  {
    Capacities();
    var cap := initialCapacity;
    if cap > MAXIMUM_CAPACITY || cap < 0 {
      result := MAXIMUM_CAPACITY;
    } else {
      result := MINIMUM_CAPACITY;
      while result < cap
        invariant Capacity(result)
        invariant forall c :: Capacity(c) && cap <= c ==> result <= c
        decreases MAXIMUM_CAPACITY - result
      {
        NextPower(result, MAXIMUM_CAPACITY);
        forall c | Capacity(c) && cap <= c ensures 2 * result <= c { NextPower(result, c); }
        result := 2 * result;
      }
    }
  }

  // ---------- Counts ----------

  ghost function Total(counts: seq<nat>): nat {
    if counts == [] then 0 else Total(counts[..|counts| - 1]) + counts[|counts| - 1]
  }

  lemma {:induction false} TotalUpdate(counts: seq<nat>, i: nat, n: nat)
    requires i < |counts|
    ensures Total(counts[i := n]) == Total(counts) - counts[i] + n
  {
    var last := |counts| - 1;
    if i < last {
      assert counts[i := n][..last] == counts[..last][i := n];
      TotalUpdate(counts[..last], i, n);
    } else {
      assert counts[i := n][..last] == counts[..last];
    }
  }

  ghost predicate CountsOk<K, V>(counts: seq<nat>, t: seq<Entry?<K, V>>) {
    |counts| == SEGMENTS && forall s :: 0 <= s < SEGMENTS ==> CountOk(counts, t, s)
  }

  ghost predicate CountOk<K, V>(counts: seq<nat>, t: seq<Entry?<K, V>>, s: nat)
    requires s < |counts|
  {
    counts[s] == SegmentSize(t, s, |t|)
  }

  /** A bin and the keys in it belong to one segment. */
  lemma SegmentOf(hash: int, cap: nat)
    requires Capacity(cap)
    ensures BinOf(BinOf(hash, cap), SEGMENTS) == BinOf(hash, SEGMENTS)
  {
    Capacities();
    LowBits(hash, SEGMENTS, cap);
  }

  /** The counts follow a change of one bin. */
  lemma CountsChange<K, V>(counts: seq<nat>, t: seq<Entry?<K, V>>, i: nat, e: Entry?<K, V>)
    requires CountsOk(counts, t) && i < |t|
    ensures
      var s := BinOf(i, SEGMENTS);
      var n := counts[s] + |Chain(e)| - |Chain(t[i])|;
      n >= 0 && CountsOk(counts[s := n], t[i := e]) && Total(counts[s := n]) == Total(counts) + |Chain(e)| - |Chain(t[i])|
  {
    var s := BinOf(i, SEGMENTS);
    SegmentSizeUpdate(t, i, e, s, |t|);
    assert CountOk(counts, t, s);
    var n := counts[s] + |Chain(e)| - |Chain(t[i])|;
    var counts', t' := counts[s := n], t[i := e];
    forall s' | 0 <= s' < SEGMENTS ensures CountOk(counts', t', s') {
      assert CountOk(counts, t, s');
      SegmentSizeUpdate(t, i, e, s', |t|);
    }
    TotalUpdate(counts, s, n);
  }

  lemma AddedSize<K, V>(m: map<K, V>, key: K, value: V)
    ensures |m[key := value]| == |m| + if key in m then 0 else 1
  {
    assert m[key := value].Keys == m.Keys + {key};
  }

  // ---------- The invariant ----------

  /** A table and the counts of its segments hold the map m. */
  ghost predicate Good<K, V>(t: seq<Entry?<K, V>>, counts: seq<nat>, hashOf: K -> int, m: map<K, V>, repr: set<Entry<K, V>>)
    reads repr
  {
    Capacity(|t|) && TableOk(t, hashOf, m, repr) && CountsOk(counts, t) && Total(counts) == |m|
  }

  /** A bin that grows or shrinks by d entries, with the count of its segment. */
  lemma CountsFollow<K, V>(t: seq<Entry?<K, V>>, counts: seq<nat>, hash: int, e: Entry?<K, V>, d: int)
    requires Capacity(|t|) && CountsOk(counts, t)
    requires |Chain(e)| == |Chain(t[BinOf(hash, |t|)])| + d
    ensures
      var s := BinOf(hash, SEGMENTS);
      counts[s] + d >= 0 && CountsOk(counts[s := counts[s] + d], t[BinOf(hash, |t|) := e])
      && Total(counts[s := counts[s] + d]) == Total(counts) + d
  {
    SegmentOf(hash, |t|);
    CountsChange(counts, t, BinOf(hash, |t|), e);
  }

  /** The counts after a new entry in front of its bin. */
  lemma FrontCounts<K, V>(t: seq<Entry?<K, V>>, counts: seq<nat>, m: map<K, V>, e: Entry<K, V>, value: V, index: nat)
    requires Capacity(|t|) && CountsOk(counts, t) && Total(counts) == |m| && e.key !in m
    requires Linked(e) && index == BinOf(e.hash, |t|) && e.next == t[index]
    ensures
      var s := BinOf(e.hash, SEGMENTS);
      CountsOk(counts[s := counts[s] + 1], t[index := e]) && Total(counts[s := counts[s] + 1]) == |m[e.key := value]|
  {
    assert |Chain(e)| == |Chain(t[index])| + 1;
    CountsFollow(t, counts, e.hash, e, 1);
    AddedSize(m, e.key, value);
  }

  /** A table of chains of entries in the right bins, whatever their values. */
  ghost predicate Shaped<K, V>(t: seq<Entry?<K, V>>, hashOf: K -> int) {
    && |t| > 0
    && forall b {:trigger BinShape(t[b], b, |t|, hashOf)} :: 0 <= b < |t| ==> BinShape(t[b], b, |t|, hashOf)
  }

  lemma TableShape<K, V>(t: seq<Entry?<K, V>>, hashOf: K -> int, m: map<K, V>, repr: set<Entry<K, V>>)
    requires TableOk(t, hashOf, m, repr)
    ensures Shaped(t, hashOf)
  {
    forall b | 0 <= b < |t| ensures BinShape(t[b], b, |t|, hashOf) { assert BinOk(t, b, hashOf, m, repr); }
  }

  lemma FrontGood<K, V>(t: seq<Entry?<K, V>>, counts: seq<nat>, hashOf: K -> int, m: map<K, V>, repr: set<Entry<K, V>>,
                        e: Entry<K, V>, value: V, index: nat, seg: nat)
    requires Good(t, counts, hashOf, m, repr) && e.key !in m
    requires e.hash == hashOf(e.key) && e.value == Some(value) && Linked(e)
    requires index == BinOf(e.hash, |t|) && seg == BinOf(e.hash, SEGMENTS) && e.next == t[index]
    ensures Good(t[index := e], counts[seg := counts[seg] + 1], hashOf, m[e.key := value], repr + {e})
  {
    hide TableOk, CountsOk, Total, Linked, Chain, PowerOfTwo, BinOf;
    FrontAdded(t, hashOf, m, repr, e, value);
    FrontCounts(t, counts, m, e, value, index);
    assert |t[index := e]| == |t|;
  }

  /** The doubled table is as good as the old one, with the same counts. */
  lemma RehashGood<K, V>(t: seq<Entry?<K, V>>, t': seq<Entry?<K, V>>, counts: seq<nat>, hashOf: K -> int, m: map<K, V>,
                         repr: set<Entry<K, V>>, more: set<Entry<K, V>>)
    requires Good(t, counts, hashOf, m, repr) && |t| < MAXIMUM_CAPACITY && |t'| == 2 * |t|
    requires forall i :: 0 <= i < |t| ==> BothDone(t, t', i, m, more)
    ensures Good(t', counts, hashOf, m, more)
  {
    RehashKeepsMap(t, t', hashOf, m, repr, more);
    RehashCounts(t, t', counts, hashOf, m, repr, more);
    DoubledCapacity(|t|);
  }

  lemma DoubledCapacity(cap: nat)
    requires Capacity(cap) && cap < MAXIMUM_CAPACITY
    ensures Capacity(2 * cap)
  {
    Capacities();
    NextPower(cap, MAXIMUM_CAPACITY);
    Doubled(cap);
  }

  lemma RehashCounts<K, V>(t: seq<Entry?<K, V>>, t': seq<Entry?<K, V>>, counts: seq<nat>, hashOf: K -> int, m: map<K, V>,
                           repr: set<Entry<K, V>>, more: set<Entry<K, V>>)
    requires Capacity(|t|) && |t'| == 2 * |t| && TableOk(t, hashOf, m, repr) && CountsOk(counts, t)
    requires forall i :: 0 <= i < |t| ==> BothDone(t, t', i, m, more)
    ensures CountsOk(counts, t')
  {
    forall i | 0 <= i < |t| ensures SizesSplit(t, t', i) {
      assert BinOk(t, i, hashOf, m, repr);
      DoneSizes(t, t', i, hashOf, m, more);
    }
    forall s | 0 <= s < SEGMENTS ensures CountOk(counts, t', s) {
      assert CountOk(counts, t, s);
      SegmentsKept(t, t', s);
    }
  }

  /** The counts after the entry of a key has left its bin. */
  lemma RemovedCounts<K, V>(t: seq<Entry?<K, V>>, counts: seq<nat>, m: map<K, V>, key: K, hash: int, e: Entry?<K, V>)
    requires Capacity(|t|) && CountsOk(counts, t) && Total(counts) == |m| && key in m
    requires |Chain(e)| == |Chain(t[BinOf(hash, |t|)])| - 1
    ensures
      var s := BinOf(hash, SEGMENTS);
      counts[s] > 0 && CountsOk(counts[s := counts[s] - 1], t[BinOf(hash, |t|) := e])
      && Total(counts[s := counts[s] - 1]) == |m - {key}|
  {
    CountsFollow(t, counts, hash, e, -1);
    assert (m - {key}).Keys == m.Keys - {key};
  }

  lemma RemovedGood<K, V>(t: seq<Entry?<K, V>>, counts: seq<nat>, hashOf: K -> int, m: map<K, V>, b: nat, j: nat,
                          head: Entry?<K, V>, repr: set<Entry<K, V>>, more: set<Entry<K, V>>)
    requires Capacity(|t|) && CountsOk(counts, t) && Total(counts) == |m| && repr <= more
    requires b < |t| && j < |Chain(t[b])| && BinShape(t[b], b, |t|, hashOf)
    requires Chain(t[b])[j].key in m && b == BinOf(Chain(t[b])[j].hash, |t|)
    requires AllBut(t, b, j, hashOf, m - {Chain(t[b])[j].key}, repr)
    requires forall k {:trigger KeyOk(t, hashOf, k)} :: k in m ==> KeyOk(t, hashOf, k)
    requires Rebuilt(head, Chain(t[b]), j, j, m - {Chain(t[b])[j].key}, more)
    ensures
      var x := Chain(t[b])[j];
      var s := BinOf(x.hash, SEGMENTS);
      && counts[s] > 0
      && Good(t[b := head], counts[s := counts[s] - 1], hashOf, m - {x.key}, more)
  {
    var x := Chain(t[b])[j];
    RemovedOk(t, hashOf, m, b, j, head, repr, more);
    RemovedCounts(t, counts, m, x.key, x.hash, head);
    assert |t[b := head]| == |t|;
  }

  /** Lines 710-714: marks e as removed and rebuilds its bin without it. */
  method Detach<K(==), V>(e: Entry<K, V>, first: Entry<K, V>, ghost t: seq<Entry?<K, V>>, ghost counts: seq<nat>,
                          ghost b: nat, ghost j: nat, ghost hashOf: K -> int, ghost m: map<K, V>, ghost repr: set<Entry<K, V>>)
    returns (head: Entry?<K, V>, ghost made: set<Entry<K, V>>)
    requires Good(t, counts, hashOf, m, repr) && b < |t| && t[b] == first && b == BinOf(e.hash, |t|)
    requires j < |Chain(first)| && Chain(first)[j] == e && Reached(Chain(first), j, e) && e in repr && e.key in m
    modifies e
    ensures fresh(made) && e.value == None
    ensures
      var s := BinOf(e.hash, SEGMENTS);
      && counts[s] > 0
      && Good(t[b := head], counts[s := counts[s] - 1], hashOf, m - {e.key}, repr + made)
  {
    assert BinOk(t, b, hashOf, m, repr);
    FirstAt(Chain(first), j, e);
    Invalidate(e, t, b, j, hashOf, m, repr);
    head, made := CloneBefore(first, e, j, m - {e.key}, repr);
    RemovedGood(t, counts, hashOf, m, b, j, head, repr, repr + made);
  }

  lemma {:induction false} NothingIn<K, V>(t: seq<Entry?<K, V>>, seg: nat, n: nat)
    requires n <= |t| && forall i :: 0 <= i < n ==> t[i] == null
    ensures SegmentSize(t, seg, n) == 0
  {
    if n > 0 { NothingIn(t, seg, n - 1); }
  }

  lemma {:induction false} AllZero(counts: seq<nat>)
    requires forall i :: 0 <= i < |counts| ==> counts[i] == 0
    ensures Total(counts) == 0
  {
    if counts != [] { AllZero(counts[..|counts| - 1]); }
  }

  lemma SegmentExists<K, V>(t: seq<Entry?<K, V>>, counts: seq<nat>, hashOf: K -> int, m: map<K, V>,
                            repr: set<Entry<K, V>>, hash: int)
    requires Good(t, counts, hashOf, m, repr)
    ensures BinOf(hash, SEGMENTS) < |counts|
  {
  }

  lemma BinLinked<K, V>(t: seq<Entry?<K, V>>, counts: seq<nat>, hashOf: K -> int, m: map<K, V>, repr: set<Entry<K, V>>,
                        b: nat)
    requires Good(t, counts, hashOf, m, repr) && b < |t|
    ensures Linked(t[b])
  {
    assert BinOk(t, b, hashOf, m, repr);
  }

  // ---------- Clearing ----------

  ghost predicate Within<K, V>(e: Entry?<K, V>, repr: set<Entry<K, V>>) {
    Linked(e) && forall j :: 0 <= j < |Chain(e)| ==> Chain(e)[j] in repr
  }

  ghost predicate AllIn<K, V>(e: Entry?<K, V>, dead: set<Entry<K, V>>) {
    forall j :: 0 <= j < |Chain(e)| ==> Chain(e)[j] in dead
  }

  lemma AllInMore<K, V>(e: Entry?<K, V>, dead: set<Entry<K, V>>, more: set<Entry<K, V>>)
    requires AllIn(e, dead) && dead <= more
    ensures AllIn(e, more)
  {
  }

  /** Lines 820-821: every entry of a chain is marked as removed. */
  method KillChain<K, V>(first: Entry?<K, V>, ghost repr: set<Entry<K, V>>, ghost before: set<Entry<K, V>>)
    returns (ghost dead: set<Entry<K, V>>)
    requires Within(first, repr) && before <= repr
    requires forall x :: x in before ==> x.value == None
    modifies repr
    ensures before <= dead <= repr && AllIn(first, dead)
    ensures forall x :: x in dead ==> x.value == None
    ensures forall x :: x in repr ==> x.value == old(x.value) || x.value == None
  {
    hide Linked, Chain, Reached;
    ghost var c, j := Chain(first), 0;
    var e := first;
    dead := before;
    Begin(first);
    while e != null
      invariant Reached(c, j, e)
      invariant before <= dead <= repr && forall x :: x in dead ==> x.value == None
      invariant forall x :: x in repr ==> x.value == old(x.value) || x.value == None
      invariant forall i :: 0 <= i < j && i < |c| ==> c[i] in dead
      decreases |c| - j
    {
      Advance(c, j, e);
      e.value := None;
      dead := dead + {e};
      e := e.next;
      j := j + 1;
    }
    End(c, j, e);
  }

  /** Nothing is left of a map whose bins are all empty. */
  lemma EmptyGood<K, V>(t: seq<Entry?<K, V>>, counts: seq<nat>, hashOf: K -> int, repr: set<Entry<K, V>>)
    requires Capacity(|t|) && |counts| == SEGMENTS
    requires forall b :: 0 <= b < |t| ==> t[b] == null
    requires forall s :: 0 <= s < SEGMENTS ==> counts[s] == 0
    ensures Good(t, counts, hashOf, map[], repr)
  {
    forall s | 0 <= s < SEGMENTS ensures CountOk(counts, t, s) { NothingIn(t, s, |t|); }
    AllZero(counts);
  }

  // ---------- Walking a bin ----------

  /** The loop of lines 522-528, 462-465 and 698-704. */
  method Find<K(==), V>(first: Entry?<K, V>, hash: int, key: K) returns (e: Entry?<K, V>, ghost j: nat)
    requires Linked(first)
    ensures e != null ==> j < |Chain(first)| && Chain(first)[j] == e && e.hash == hash && e.key == key
    ensures e != null ==> Reached(Chain(first), j, e)
    ensures e == null ==> forall i :: 0 <= i < |Chain(first)| ==>
      !(Chain(first)[i].hash == hash && Chain(first)[i].key == key)
  {
    hide Linked, Chain, Reached;
    e, j := first, 0;
    ghost var c := Chain(first);
    Begin(first);
    while e != null
      invariant Reached(c, j, e)
      invariant forall i :: 0 <= i < j && i < |c| ==> !(c[i].hash == hash && c[i].key == key)
      decreases |c| - j
    {
      Advance(c, j, e);
      if e.hash == hash && e.key == key { return; }
      e := e.next;
      j := j + 1;
    }
    End(c, j, e);
  }

  /** The loop of lines 445-453, without the lock: stops at an entry with the key, live or not. */
  method Probe<K(==), V>(first: Entry?<K, V>, hash: int, key: K) returns (e: Entry?<K, V>, value: Option<V>)
    requires Linked(first)
    ensures value.Some? ==>
      exists j :: 0 <= j < |Chain(first)| && Chain(first)[j].key == key && Chain(first)[j].value == value
    ensures e == null ==> value.None? && forall i :: 0 <= i < |Chain(first)| ==>
      !(Chain(first)[i].hash == hash && Chain(first)[i].key == key)
  {
    ghost var j;
    e, j := Find(first, hash, key);
    value := if e != null then e.value else None;
  }

  function Lookup<K, V>(m: map<K, V>, key: K): Option<V> {
    if key in m then Some(m[key]) else None
  }

  class ConcurrentHashMap<K(==), V(==)> {
    var table: array<Entry?<K, V>>
    const counts: array<nat>
    var threshold: int
    var votesForResize: bv32

    /** The hash code of a key, and the threshold that the load factor gives for a capacity. */
    const hashOf: K -> int
    const thresholdFor: nat -> int

    /** The map this represents, and every entry it can reach. */
    ghost var contents: map<K, V>
    ghost var repr: set<Entry<K, V>>

    ghost predicate Valid()
      reads this, table, counts, repr
    {
      Good(table[..], counts[..], hashOf, contents, repr)
    }

    /** Lines 354-364. */
    constructor (initialCapacity: int, hashOf: K -> int, thresholdFor: nat -> int)
      ensures Valid() && contents == map[] && this.hashOf == hashOf && this.thresholdFor == thresholdFor
      ensures fresh(table) && fresh(counts) && fresh(repr)
    {
      var cap := P2Capacity(initialCapacity);
      this.hashOf, this.thresholdFor := hashOf, thresholdFor;
      counts := new nat[SEGMENTS](_ => 0);
      table := new Entry?<K, V>[cap](_ => null);
      threshold, votesForResize := thresholdFor(cap), 0;
      contents, repr := map[], {};
      new;
      hide PowerOfTwo, Total, CountsOk, TableOk;
      EmptyGood(table[..], counts[..], hashOf, repr);
    }

    /** The bin a key belongs in. */
    ghost function Home(key: K): nat
      reads this, table
      requires table.Length > 0
    {
      BinOf(hashOf(key), table.Length)
    }

    /** A search of a bin that starts with the key's hash code finds the key if the map has it. */
    lemma Missed(key: K)
      requires Valid()
      requires forall i :: 0 <= i < |Chain(table[Home(key)])| ==>
        !(Chain(table[Home(key)])[i].hash == hashOf(key) && Chain(table[Home(key)])[i].key == key)
      ensures key !in contents
    {
      var b := Home(key);
      var c := Chain(table[..][b]);
      assert BinOk(table[..], b, hashOf, contents, repr);
      forall j | 0 <= j < |c| ensures c[j].key != key {
        assert Belongs(c[j], b, table.Length, hashOf);
      }
      FoundInBin(table[..], hashOf, contents, repr, key);
    }

    lemma Hit(b: nat, j: nat)
      requires Valid() && b < table.Length && j < |Chain(table[b])|
      ensures EntryHolds(Chain(table[b])[j], contents, repr)
    {
      assert BinOk(table[..], b, hashOf, contents, repr);
    }

    /** Lines 436-469. */
    method Get(key: K) returns (r: Option<V>)
      requires Valid()
      ensures r == Lookup(contents, key)
    {
      hide TableOk, CountsOk, Total, Linked, Chain, PowerOfTwo;
      var hash := hashOf(key);
      var tab := table;
      var index := BinOf(hash, tab.Length);
      var first := tab[index];
      BinLinked(table[..], counts[..], hashOf, contents, repr, index);
      var e, value := Probe(first, hash, key);
      if value.Some? {
        ghost var j :| 0 <= j < |Chain(first)| && Chain(first)[j].key == key && Chain(first)[j].value == value;
        Hit(index, j);
        return value;
      }
      tab := table;
      index := BinOf(hash, tab.Length);
      var newFirst := tab[index];
      if e != null || first != newFirst {
        ghost var j;
        e, j := Find(newFirst, hash, key);
        if e != null {
          Hit(index, j);
          return e.value;
        }
      }
      Missed(key);
      return None;
    }

    /** Lines 405-410. */
    method Size() returns (c: nat)
      requires Valid()
      ensures c == |contents|
    {
      c := 0;
      for i := 0 to counts.Length
        invariant c == Total(counts[..i])
      {
        assert counts[..i + 1][..i] == counts[..i];
        c := c + counts[i];
      }
      assert counts[..counts.Length] == counts[..];
    }

    /** Lines 517-528: the key is there, and its entry gets the new value. */
    method PutOver(e: Entry<K, V>, ghost b: nat, ghost j: nat, value: V)
      requires Valid() && b < table.Length && j < |Chain(table[b])| && Chain(table[b])[j] == e
      modifies this`contents, e
      ensures Valid() && contents == old(contents)[e.key := value] && e.value == Some(value)
    {
      Hit(b, j);
      ghost var t, c := table[..], counts[..];
      assert t[b] == table[b];
      SetValue(e, value, t, b, j, hashOf, contents, repr);
      AddedSize(contents, e.key, value);
      contents := contents[e.key := value];
      assert table[..] == t && counts[..] == c;
    }

    /** Lines 531-534: a new entry in front of its bin, counted by its segment. */
    method PutFront(hash: int, key: K, value: V) returns (segcount: nat)
      requires Valid() && key !in contents && hash == hashOf(key)
      modifies this`contents, this`repr, table, counts
      ensures Valid() && contents == old(contents)[key := value] && segcount == counts[BinOf(hash, SEGMENTS)]
      ensures old(repr) <= repr && fresh(repr - old(repr))
    {
      hide TableOk, CountsOk, Total, Linked, PowerOfTwo;
      var seg := BinOf(hash, SEGMENTS);
      var tab := table;
      var index := BinOf(hash, tab.Length);
      var first := tab[index];
      ghost var t, c := table[..], counts[..];
      BinLinked(t, c, hashOf, contents, repr, index);
      SegmentExists(t, c, hashOf, contents, repr, hash);
      var newEntry := new Entry(hash, key, Some(value), first);
      FrontGood(t, c, hashOf, contents, repr, newEntry, value, index, seg);
      tab[index] := newEntry;
      counts[seg] := counts[seg] + 1;
      segcount := counts[seg];
      contents := contents[key := value];
      repr := repr + {newEntry};
      assert table[..] == t[index := newEntry];
      assert counts[..] == c[seg := c[seg] + 1];
    }

    /** Lines 507-551. */
    method Put(key: K, value: V) returns (r: Option<V>)
      requires Valid()
      modifies this, table, counts, repr
      ensures Valid() && contents == old(contents)[key := value] && r == Lookup(old(contents), key)
      ensures old(repr) <= repr && fresh(repr - old(repr))
      ensures table == old(table) || (fresh(table) && table.Length == 2 * old(table.Length))
      ensures forall x :: x in old(repr) ==> x.value == old(x.value) || x.value == Lookup(contents, x.key)
      ensures TableOk(old(table)[..], hashOf, contents, repr)
    {
      hide TableOk, CountsOk, Total, Linked, Chain, Reached, PowerOfTwo;
      var hash := hashOf(key);
      var tab := table;
      var index := BinOf(hash, tab.Length);
      var first := tab[index];
      BinLinked(table[..], counts[..], hashOf, contents, repr, index);
      ghost var j;
      var e;
      e, j := Find(first, hash, key);
      if e != null {
        Hit(index, j);
        r := e.value;
        PutOver(e, index, j, value);
        return;
      }
      Missed(key);
      r := None;
      var segcount := PutFront(hash, key, value);
      if segcount >= threshold {
        ghost var before := repr;
        Vote(hash, segcount, tab);
        TableMore(tab[..], hashOf, contents, before, repr);
      }
    }

    /** Lines 537-548: a full segment votes, and a quarter of them bring a resize. */
    method Vote(hash: int, segcount: nat, tab: array<Entry?<K, V>>)
      requires Valid()
      modifies this
      ensures Valid() && contents == old(contents)
      ensures old(repr) <= repr && fresh(repr - old(repr))
      ensures table == old(table) || (fresh(table) && table.Length == 2 * old(table.Length))
      ensures
        var votes := SetBit(old(votesForResize), BinOf(hash, SEGMENTS));
        var full := SumOfBits(votes) >= 8 || segcount > Int32(old(threshold) * SEGMENTS);
        && (full && tab == old(table) && old(table.Length) < MAXIMUM_CAPACITY <==> table != old(table))
        && (!full ==> votesForResize == votes && threshold == old(threshold))
    {
      hide Good, SumOfBits, Count, HasBit, SetBit;
      var seg := BinOf(hash, SEGMENTS);
      var votes := votesForResize;
      if !HasBit(votes, seg) {
        votesForResize := SetBit(votesForResize, seg);
        votes := votesForResize;
      } else {
        SetAgain(votes, seg);
      }
      if Count(votes) >= 8 || segcount > Int32(threshold * SEGMENTS) {
        Resize(0, tab);
      }
    }

    /** Lines 562-573: takes the lock of every segment in turn, and gives up if the table has already
        been replaced. */
    method Resize(index: nat, assumedTab: array<Entry?<K, V>>)
      requires Valid() && index < SEGMENTS
      modifies this
      ensures Valid() && contents == old(contents)
      ensures old(repr) <= repr && fresh(repr - old(repr))
      ensures table == old(table) || (fresh(table) && table.Length == 2 * old(table.Length))
      ensures assumedTab == old(table) && old(table.Length) < MAXIMUM_CAPACITY <==> table != old(table)
      ensures assumedTab != old(table) ==> threshold == old(threshold) && votesForResize == old(votesForResize)
      decreases SEGMENTS - index
    {
      if assumedTab == table {
        var next := index + 1;
        if next < SEGMENTS {
          Resize(next, assumedTab);
        } else {
          Rehash();
        }
      }
    }

    /** Lines 332-335. */
    method NewTable(capacity: nat) returns (t: array<Entry?<K, V>>)
      modifies this`threshold
      ensures fresh(t) && t.Length == capacity && threshold == thresholdFor(capacity)
      ensures forall b :: 0 <= b < capacity ==> t[b] == null
    {
      threshold := thresholdFor(capacity);
      t := new Entry?<K, V>[capacity](_ => null);
    }

    /** Lines 579-645. Neither the old table nor any entry in it is written. */
    method Rehash()
      requires Valid()
      modifies this
      ensures Valid() && contents == old(contents) && votesForResize == 0
      ensures old(repr) <= repr && fresh(repr - old(repr))
      ensures old(table)[..] == old(table[..]) && forall x :: x in old(repr) ==> x.value == old(x.value)
      ensures old(table.Length) == MAXIMUM_CAPACITY ==> table == old(table) && threshold == MAX_INT
      ensures old(table.Length) < MAXIMUM_CAPACITY ==>
        && fresh(table) && table.Length == 2 * old(table.Length) && threshold == thresholdFor(table.Length)
        && forall i :: 0 <= i < old(table.Length) ==> BothDone(old(table[..]), table[..], i, contents, repr)
    {
      hide TableOk, CountsOk, Total, BothDone, PowerOfTwo;
      votesForResize := 0;
      var oldTable := table;
      var oldCapacity := oldTable.Length;
      if oldCapacity >= MAXIMUM_CAPACITY {
        threshold := MAX_INT;
        return;
      }
      var newCapacity := 2 * oldCapacity;
      var newTable := NewTable(newCapacity);
      ghost var made := MoveAll(oldTable, newTable, hashOf, contents, repr);
      RehashGood(oldTable[..], newTable[..], counts[..], hashOf, contents, repr, repr + made);
      table := newTable;
      repr := repr + made;
    }

    /** Lines 706-717: takes entry e out of its bin, and out of the count of its segment. */
    method Unlink(e: Entry<K, V>, first: Entry<K, V>, index: nat, ghost j: nat)
      requires Valid() && index < table.Length && table[index] == first && index == BinOf(e.hash, table.Length)
      requires j < |Chain(first)| && Chain(first)[j] == e && Reached(Chain(first), j, e)
      modifies this`contents, this`repr, table, counts, e
      ensures Valid() && contents == old(contents) - {e.key} && e.value == None
      ensures old(repr) <= repr && fresh(repr - old(repr))
    {
      hide TableOk, CountsOk, Total, Linked, Reached;
      ghost var t, c := table[..], counts[..];
      Hit(index, j);
      SegmentExists(t, c, hashOf, contents, repr, e.hash);
      var head;
      ghost var made;
      head, made := Detach(e, first, t, c, index, j, hashOf, contents, repr);
      var seg := BinOf(e.hash, SEGMENTS);
      table[index] := head;
      counts[seg] := counts[seg] - 1;
      contents := contents - {e.key};
      repr := repr + made;
      assert table[..] == t[index := head];
      assert counts[..] == c[seg := c[seg] - 1];
    }

    /** Lines 678-719; no value means any value. */
    method Remove(key: K, value: Option<V>) returns (r: Option<V>)
      requires Valid()
      modifies this, table, counts, repr
      ensures Valid() && table == old(table)
      ensures r == if value.None? || value == Lookup(old(contents), key) then Lookup(old(contents), key) else None
      ensures contents == if r.Some? then old(contents) - {key} else old(contents)
      ensures old(repr) <= repr && fresh(repr - old(repr))
      ensures forall x :: x in old(repr) ==> x.value == old(x.value) || x.value == Lookup(contents, x.key)
    {
      hide TableOk, CountsOk, Total, Linked, Reached, PowerOfTwo;
      var hash := hashOf(key);
      var tab := table;
      var index := BinOf(hash, tab.Length);
      var first := tab[index];
      BinLinked(table[..], counts[..], hashOf, contents, repr, index);
      ghost var j;
      var e;
      e, j := Find(first, hash, key);
      if e == null {
        Missed(key);
        return None;
      }
      Hit(index, j);
      var oldValue := e.value;
      if value.Some? && value != oldValue { return None; }
      Unlink(e, first, index, j);
      return oldValue;
    }

    /** Lines 819-823: the bins of one segment. */
    method ClearSegment(s: nat, ghost t: seq<Entry?<K, V>>, ghost before: set<Entry<K, V>>) returns (ghost dead: set<Entry<K, V>>)
      requires s < SEGMENTS == counts.Length && SEGMENTS <= table.Length == |t| && before <= repr
      requires forall b :: 0 <= b < |t| ==> Within(t[b], repr)
      requires forall b :: 0 <= b < |t| ==>
        if BinOf(b, SEGMENTS) < s then table[b] == null && AllIn(t[b], before) else table[b] == t[b]
      requires forall x :: x in before ==> x.value == None
      requires forall u :: 0 <= u < s ==> counts[u] == 0
      modifies table, counts, repr
      ensures before <= dead <= repr && forall x :: x in dead ==> x.value == None
      ensures forall x :: x in repr ==> x.value == old(x.value) || x.value == None
      ensures forall b :: 0 <= b < |t| ==>
        if BinOf(b, SEGMENTS) < s + 1 then table[b] == null && AllIn(t[b], dead) else table[b] == t[b]
      ensures forall u :: 0 <= u < s + 1 ==> counts[u] == 0
    {
      hide Linked, Chain, Within;
      dead := before;
      var tab := table;
      var i := s;
      while i < tab.Length
        invariant s <= i && BinOf(i, SEGMENTS) == s && (i > s ==> counts[s] == 0)
        invariant before <= dead <= repr && forall x :: x in dead ==> x.value == None
        invariant forall x :: x in repr ==> x.value == old(x.value) || x.value == None
        invariant forall b :: 0 <= b < |t| ==>
          if BinOf(b, SEGMENTS) < s || (BinOf(b, SEGMENTS) == s && b < i) then table[b] == null && AllIn(t[b], dead)
          else table[b] == t[b]
        invariant forall u :: 0 <= u < s ==> counts[u] == 0
      {
        ghost var more := KillChain(tab[i], repr, dead);
        forall b | 0 <= b < |t| && AllIn(t[b], dead) ensures AllIn(t[b], more) { AllInMore(t[b], dead, more); }
        dead := more;
        tab[i] := null;
        counts[s] := 0;
        forall b | i < b < i + SEGMENTS ensures BinOf(b, SEGMENTS) != s { Between(i, b, SEGMENTS); }
        AddOne(i, SEGMENTS);
        i := i + SEGMENTS;
      }
    }

    /** Lines 812-827: an empty map, and every entry there was is marked as removed. */
    method Clear()
      requires Valid()
      modifies this`contents, table, counts, repr
      ensures Valid() && contents == map[]
      ensures forall b, j :: 0 <= b < table.Length && 0 <= j < |Chain(old(table[b]))| ==>
        Chain(old(table[b]))[j] in repr && Chain(old(table[b]))[j].value == None
      ensures forall x :: x in repr ==> x.value == old(x.value) || x.value == None
    {
      hide Linked, Chain;
      ghost var t, dead: set<Entry<K, V>> := table[..], {};
      forall b | 0 <= b < |t| ensures Within(t[b], repr) {
        assert BinOk(t, b, hashOf, contents, repr);
        forall j | 0 <= j < |Chain(t[b])| ensures Chain(t[b])[j] in repr { Hit(b, j); }
      }
      for s := 0 to counts.Length
        invariant dead <= repr && forall x :: x in dead ==> x.value == None
        invariant forall x :: x in repr ==> x.value == old(x.value) || x.value == None
        invariant forall b :: 0 <= b < |t| ==>
          if BinOf(b, SEGMENTS) < s then table[b] == null && AllIn(t[b], dead) else table[b] == t[b]
        invariant forall u :: 0 <= u < s ==> counts[u] == 0
      {
        dead := ClearSegment(s, t, dead);
      }
      forall b, j | 0 <= b < |t| && 0 <= j < |Chain(t[b])| ensures Chain(t[b])[j] in dead { assert AllIn(t[b], dead); }
      contents := map[];
      EmptyGood(table[..], counts[..], hashOf, repr);
    }

    // ---------- Any sequence of operations ----------

    /** One operation answers, and changes the map, as it does on a finite map. An entry whose value it
        changes then has what the map has for its key, and the table there was before still holds the
        map even if a new one took its place: so readers of old chains can go on. */
    method Perform(op: Op<K, V>) returns (r: Reply<V>)
      requires Valid()
      modifies this, table, counts, repr
      ensures Valid() && contents == After(old(contents), op) && r == Answer(old(contents), op)
      ensures old(repr) <= repr && fresh(repr - old(repr))
      ensures (table == old(table) || fresh(table)) && table.Length >= old(table.Length)
      ensures forall x :: x in old(repr) ==> x.value == old(x.value) || x.value == Lookup(contents, x.key)
      ensures TableOk(old(table)[..], hashOf, contents, repr)
    {
      match op {
        case GetOp(k) =>
          var v := Get(k);
          r := Found(v);
        case PutOp(k, v) =>
          var was := Put(k, v);
          r := Found(was);
        case RemoveOp(k, v) =>
          var was := Remove(k, v);
          r := Found(was);
        case SizeOp =>
          var n := Size();
          r := Number(n);
        case ClearOp =>
          Clear();
          r := Nothing;
      }
    }

    /** So does any sequence of operations, through all the resizes it brings. */
    method PerformAll(ops: seq<Op<K, V>>) returns (rs: seq<Reply<V>>)
      requires Valid()
      modifies this, table, counts, repr
      ensures Valid() && contents == AfterAll(old(contents), ops) && rs == Answers(old(contents), ops)
      ensures Capacity(table.Length) && table.Length >= old(table.Length)
    {
      rs := [];
      ghost var t := table;
      for i := 0 to |ops|
        invariant Valid() && table.Length >= old(table.Length)
        invariant contents == AfterAll(old(contents), ops[..i]) && rs == Answers(old(contents), ops[..i])
        invariant (table == old(table) || fresh(table)) && fresh(repr - old(repr))
      {
        assert ops[..i + 1][..i] == ops[..i];
        var r := Perform(ops[i]);
        rs := rs + [r];
      }
      assert ops[..|ops|] == ops;
    }
  }

  // ---------- The finite map the operations follow ----------

  datatype Op<K, V> = GetOp(key: K) | PutOp(key: K, value: V) | RemoveOp(key: K, only: Option<V>) | SizeOp | ClearOp

  datatype Reply<V> = Found(value: Option<V>) | Number(n: nat) | Nothing

  /** A removal with a value takes only that value. */
  predicate Removes<K, V(==)>(m: map<K, V>, key: K, value: Option<V>) {
    key in m && (value.None? || value.value == m[key])
  }

  function After<K, V(==)>(m: map<K, V>, op: Op<K, V>): map<K, V> {
    match op
    case PutOp(k, v) => m[k := v]
    case RemoveOp(k, v) => if Removes(m, k, v) then m - {k} else m
    case ClearOp => map[]
    case _ => m
  }

  function Answer<K, V(==)>(m: map<K, V>, op: Op<K, V>): Reply<V> {
    match op
    case GetOp(k) => Found(Lookup(m, k))
    case PutOp(k, _) => Found(Lookup(m, k))
    case RemoveOp(k, v) => Found(if Removes(m, k, v) then Some(m[k]) else None)
    case SizeOp => Number(|m|)
    case ClearOp => Nothing
  }

  function AfterAll<K, V(==)>(m: map<K, V>, ops: seq<Op<K, V>>): map<K, V> {
    if ops == [] then m else After(AfterAll(m, ops[..|ops| - 1]), ops[|ops| - 1])
  }

  function Answers<K, V(==)>(m: map<K, V>, ops: seq<Op<K, V>>): seq<Reply<V>> {
    if ops == [] then [] else
    var before := ops[..|ops| - 1];
    Answers(m, before) + [Answer(AfterAll(m, before), ops[|ops| - 1])]
  }
}
