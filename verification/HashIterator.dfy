/** The iterators of concurrent-hashmap/ConcurrentHashMap.java, lines 1078-1147: they walk the table that
    was there when they were made, whatever happens to the map meanwhile. */
module HashIterators {
  import opened ConcurrentMap
  import opened EntryChains
  import opened PowersOfTwo
  import opened Rehash

  ghost predicate NoDuplicates<K>(s: seq<K>) {
    forall i, j :: 0 <= i < j < |s| ==> s[i] != s[j]
  }

  /** What follows an entry of a bin has the shape of one. */
  lemma TailShape<K, V>(e: Entry<K, V>, b: nat, cap: nat, hashOf: K -> int)
    requires cap > 0 && BinShape(e, b, cap, hashOf)
    ensures Linked(e) && BinShape(e.next, b, cap, hashOf) && Belongs(e, b, cap, hashOf)
    ensures !HasKey(Chain(e.next), e.key)
    ensures forall k :: HasKey(Chain(e), k) <==> k == e.key || HasKey(Chain(e.next), k)
  {
    var c, d := Chain(e), Chain(e.next);
    assert c == [e] + d;
    assert Belongs(c[0], b, cap, hashOf);
    forall j | 0 <= j < |d| ensures Belongs(d[j], b, cap, hashOf) && d[j].key != e.key {
      assert Belongs(c[j + 1], b, cap, hashOf);
      assert d[j] == c[j + 1];
    }
    forall i, j | 0 <= i < j < |d| ensures d[i].key != d[j].key {
      assert d[i] == c[i + 1] && d[j] == c[j + 1];
    }
    forall k ensures HasKey(c, k) <==> k == e.key || HasKey(d, k) {
      if HasKey(d, k) {
        var j :| 0 <= j < |d| && d[j].key == k;
        assert c[j + 1].key == k;
      }
      if k == e.key { assert c[0].key == k; }
    }
  }

  /** A key in a lower bin, or on what is left of the current one. */
  ghost predicate AheadAt<K, V>(key: K, index: int, c: seq<Entry<K, V>>, cap: nat, hashOf: K -> int)
    requires cap > 0
  {
    BinOf(hashOf(key), cap) <= index || (BinOf(hashOf(key), cap) == index + 1 && HasKey(c, key))
  }

  /** Once an entry is taken, its key is returned and the others that were ahead still are. */
  lemma StillCovered<K, V>(before: seq<K>, e: Entry<K, V>, k: K, index: int, cap: nat, hashOf: K -> int)
    requires cap > 0 && Linked(e)
    requires k in before || AheadAt(k, index, Chain(e), cap, hashOf)
    ensures k in before + [e.key] || AheadAt(k, index, Chain(e.next), cap, hashOf)
  {
    if k == e.key {
      assert (before + [e.key])[|before|] == k;
    } else if HasKey(Chain(e), k) {
      var j :| 0 <= j < |Chain(e)| && Chain(e)[j].key == k;
      assert Chain(e.next)[j - 1].key == k;
    }
  }

  /** A key that is ahead of an exhausted bin is ahead when the walk turns to the next. */
  lemma AheadNext<K, V>(k: K, index: nat, t: seq<Entry?<K, V>>, hashOf: K -> int)
    requires index < |t| && KeyOk(t, hashOf, k) && AheadAt<K, V>(k, index, [], |t|, hashOf)
    ensures AheadAt(k, index - 1, Chain(t[index]), |t|, hashOf)
  {
  }

  // ---------- The maps there were ----------

  /** At some moment the map gave the key this value. */
  ghost predicate Was<K, V>(hist: seq<map<K, V>>, key: K, value: V) {
    exists i :: 0 <= i < |hist| && key in hist[i] && hist[i][key] == value
  }

  /** At every moment the map had the key. */
  ghost predicate Always<K, V>(hist: seq<map<K, V>>, key: K) {
    |hist| > 0 && forall i :: 0 <= i < |hist| ==> key in hist[i]
  }

  /** A value of an entry is one its key had; and only a key that was removed has an entry marked so. */
  ghost predicate Fits<K, V>(hist: seq<map<K, V>>, key: K, value: Option<V>) {
    if value.Some? then Was(hist, key, value.value) else !Always(hist, key)
  }

  lemma WasOn<K, V>(hist: seq<map<K, V>>, m: map<K, V>, key: K, value: V)
    requires Was(hist, key, value) || (key in m && m[key] == value)
    ensures Was(hist + [m], key, value)
  {
    var more := hist + [m];
    if Was(hist, key, value) {
      var i :| 0 <= i < |hist| && key in hist[i] && hist[i][key] == value;
      assert key in more[i] && more[i][key] == value;
    } else {
      assert key in more[|hist|] && more[|hist|][key] == value;
    }
  }

  lemma AlwaysOn<K, V>(hist: seq<map<K, V>>, m: map<K, V>, key: K)
    requires |hist| > 0
    ensures Always(hist + [m], key) <==> Always(hist, key) && key in m
  {
    var more := hist + [m];
    if Always(more, key) {
      assert key in more[|hist|];
      forall i | 0 <= i < |hist| ensures key in hist[i] { assert key in more[i]; }
    }
  }

  lemma FitsOn<K, V>(hist: seq<map<K, V>>, m: map<K, V>, key: K, was: Option<V>, now: Option<V>)
    requires |hist| > 0 && Fits(hist, key, was) && (now == was || now == Lookup(m, key))
    ensures Fits(hist + [m], key, now)
  {
    if now.Some? { WasOn(hist, m, key, now.value); } else { AlwaysOn(hist, m, key); }
  }

  ghost predicate Traced<K, V>(x: Entry<K, V>, hist: seq<map<K, V>>, repr: set<Entry<K, V>>)
    reads repr
  {
    x in repr && Fits(hist, x.key, x.value)
  }

  ghost predicate AllTraced<K, V>(c: seq<Entry<K, V>>, hist: seq<map<K, V>>, repr: set<Entry<K, V>>)
    reads repr
  {
    forall j {:trigger Traced(c[j], hist, repr)} :: 0 <= j < |c| ==> Traced(c[j], hist, repr)
  }

  lemma InRepr<K, V>(c: seq<Entry<K, V>>, hist: seq<map<K, V>>, repr: set<Entry<K, V>>)
    requires AllTraced(c, hist, repr)
    ensures forall j :: 0 <= j < |c| ==> c[j] in repr
  {
    forall j | 0 <= j < |c| ensures c[j] in repr { assert Traced(c[j], hist, repr); }
  }

  /** A table, current or not, whose entries are traced, with an entry for every key there always was. */
  ghost predicate TabTraced<K, V>(t: seq<Entry?<K, V>>, hashOf: K -> int, hist: seq<map<K, V>>, repr: set<Entry<K, V>>)
    requires |t| > 0 && |hist| > 0
    reads repr
  {
    && (forall b {:trigger AllTraced(Chain(t[b]), hist, repr)} :: 0 <= b < |t| ==> AllTraced(Chain(t[b]), hist, repr))
    && (forall k {:trigger KeyOk(t, hashOf, k)} :: k in hist[0] && Always(hist, k) ==> KeyOk(t, hashOf, k))
  }

  lemma TableTraced<K, V>(t: seq<Entry?<K, V>>, hashOf: K -> int, hist: seq<map<K, V>>, repr: set<Entry<K, V>>)
    requires |hist| > 0 && TableOk(t, hashOf, hist[|hist| - 1], repr)
    ensures TabTraced(t, hashOf, hist, repr)
  {
    hide BinShape, Chain;
    var m := hist[|hist| - 1];
    forall b | 0 <= b < |t| ensures AllTraced(Chain(t[b]), hist, repr) {
      assert BinOk(t, b, hashOf, m, repr);
      forall j | 0 <= j < |Chain(t[b])| ensures Traced(Chain(t[b])[j], hist, repr) {
        assert EntryHolds(Chain(t[b])[j], m, repr);
      }
    }
    forall k | k in hist[0] && Always(hist, k) ensures KeyOk(t, hashOf, k) { assert k in m; }
  }

  lemma FirstTraced<K, V>(e: Entry<K, V>, hist: seq<map<K, V>>, repr: set<Entry<K, V>>)
    requires Linked(e) && AllTraced(Chain(e), hist, repr)
    ensures Traced(e, hist, repr) && AllTraced(Chain(e.next), hist, repr)
  {
    assert Traced(Chain(e)[0], hist, repr);
    forall j | 0 <= j < |Chain(e.next)| ensures Traced(Chain(e.next)[j], hist, repr) {
      assert Traced(Chain(e)[j + 1], hist, repr);
    }
  }

  class HashIterator<K(==), V(==)> {
    const tab: array<Entry?<K, V>>
    const hashOf: K -> int
    var index: int
    var entry: Entry?<K, V>
    var currentKey: Option<K>
    var currentValue: Option<V>
    var lastReturned: Entry?<K, V>

    /** The keys of the entries that next has returned. */
    ghost var returned: seq<K>

    ghost predicate Valid()
      reads this, tab
    {
      && Shaped(tab[..], hashOf) && Walking()
      && (currentKey.Some? ==> entry != null && entry.key == currentKey.value && currentValue.Some?)
    }

    /** The keys returned are all different, and none of them is ahead. */
    ghost predicate Walking()
      reads this`index, this`entry, this`returned
      requires tab.Length > 0
    {
      && -1 <= index < tab.Length && BinShape(entry, index + 1, tab.Length, hashOf)
      && NoDuplicates(returned)
      && (forall i {:trigger Behind(returned[i])} :: 0 <= i < |returned| ==> Behind(returned[i]))
    }

    ghost predicate Behind(key: K)
      reads this`index, this`entry
      requires tab.Length > 0
    {
      BinOf(hashOf(key), tab.Length) >= index + 1 && !Ahead(key)
    }

    /** The walk will still come to an entry with this key, if the bins stay as they are. */
    ghost predicate Ahead(key: K)
      reads this`index, this`entry
      requires tab.Length > 0
    {
      AheadAt(key, index, Chain(entry), tab.Length, hashOf)
    }

    /** Whatever happened to the map, resizes included: the values ahead were in it, and the keys that
        were always there are returned or ahead. */
    ghost predicate Covers(hist: seq<map<K, V>>, repr: set<Entry<K, V>>)
      reads this, tab, repr
      requires tab.Length > 0
    {
      && |hist| > 0 && TabTraced(tab[..], hashOf, hist, repr) && AllTraced(Chain(entry), hist, repr)
      && (forall k {:trigger Ahead(k)} :: k in hist[0] && Always(hist, k) ==> k in returned || Ahead(k))
      && (currentKey.Some? && currentValue.Some? ==> Was(hist, currentKey.value, currentValue.value))
    }

    /** Lines 1086-1091. */
    constructor (chm: ConcurrentHashMap<K, V>)
      requires chm.Valid()
      ensures Valid() && tab == chm.table && hashOf == chm.hashOf && returned == [] && currentKey == None
      ensures lastReturned == null && Covers([chm.contents], chm.repr)
    {
      tab := chm.table;
      hashOf := chm.hashOf;
      index := chm.table.Length - 1;
      entry, lastReturned := null, null;
      currentKey, currentValue := None, None;
      returned := [];
      new;
      TableShape(chm.table[..], chm.hashOf, chm.contents, chm.repr);
      TableTraced(chm.table[..], chm.hashOf, [chm.contents], chm.repr);
    }

    /** Line 1114: past an entry that has been removed. */
    method Skip(ghost hist: seq<map<K, V>>, ghost repr: set<Entry<K, V>>)
      requires tab.Length > 0 && Shaped(tab[..], hashOf) && Walking() && entry != null && entry.value == None
      requires Covers(hist, repr)
      modifies this`entry
      ensures Walking() && entry == old(entry).next && Covers(hist, repr)
    {
      hide Linked, Chain, TabTraced, Shaped;
      TailShape(entry, index + 1, tab.Length, hashOf);
      FirstTraced(entry, hist, repr);
      ghost var e := entry;
      entry := entry.next;
      forall i | 0 <= i < |returned| ensures Behind(returned[i]) { assert old(Behind(returned[i])); }
      forall k | k in hist[0] && Always(hist, k) ensures k in returned || Ahead(k) {
        assert k in returned || old(Ahead(k));
        StillCovered(returned, e, k, index, tab.Length, hashOf);
      }
    }

    /** Line 1118: the next bin down. */
    method NextBin(ghost hist: seq<map<K, V>>, ghost repr: set<Entry<K, V>>)
      requires tab.Length > 0 && Shaped(tab[..], hashOf) && Walking() && entry == null && index >= 0
      requires Covers(hist, repr)
      modifies this`entry, this`index
      ensures Walking() && index == old(index) - 1 && Covers(hist, repr)
    {
      hide Linked, BinOf, Belongs, AllTraced;
      assert BinShape(tab[..][index], index, tab.Length, hashOf);
      ghost var b := index;
      entry := tab[index];
      index := index - 1;
      forall i | 0 <= i < |returned| ensures Behind(returned[i]) { assert old(Behind(returned[i])); }
      assert AllTraced(Chain(tab[..][b]), hist, repr);
      forall k | k in hist[0] && Always(hist, k) ensures k in returned || Ahead(k) {
        assert old(Ahead(k)) || k in returned;
        assert KeyOk(tab[..], hashOf, k);
        if k !in returned { AheadNext(k, b, tab[..], hashOf); }
      }
    }

    /** Lines 1096-1125. */
    method HasNext(ghost hist: seq<map<K, V>>, ghost repr: set<Entry<K, V>>) returns (more: bool)
      requires Valid() && Covers(hist, repr)
      modifies this`entry, this`index, this`currentKey, this`currentValue
      ensures Valid() && Covers(hist, repr) && more == currentKey.Some?
      ensures more ==> entry.value == currentValue
      ensures !more ==> entry == null && index == -1
    {
      hide Linked, Chain, TabTraced, AllTraced, BinShape;
      while true
        invariant tab.Length > 0 && Shaped(tab[..], hashOf) && Walking() && Covers(hist, repr)
        decreases index, |Chain(entry)|
      {
        if entry != null {
          var v := entry.value;
          if v.Some? {
            FirstValue(hist, repr);
            currentKey := Some(entry.key);
            currentValue := v;
            return true;
          }
          ShorterTail(entry, index + 1, tab.Length, hashOf);
          Skip(hist, repr);
        }
        ghost var i, e := index, entry;
        while entry == null && index >= 0
          invariant Walking() && index <= i && (index == i ==> entry == e) && Covers(hist, repr)
          decreases index + 1
        {
          NextBin(hist, repr);
        }
        if entry == null {
          currentKey, currentValue := None, None;
          return false;
        }
      }
    }

    lemma FirstValue(hist: seq<map<K, V>>, repr: set<Entry<K, V>>)
      requires tab.Length > 0 && Walking() && Covers(hist, repr) && entry != null && entry.value.Some?
      ensures Was(hist, entry.key, entry.value.value)
    {
      FirstTraced(entry, hist, repr);
    }

    /** Lines 1129-1138; no result stands for NoSuchElementException. */
    method Next(ghost hist: seq<map<K, V>>, ghost repr: set<Entry<K, V>>) returns (r: Option<(K, V)>)
      requires Valid() && Covers(hist, repr)
      modifies this
      ensures Valid() && Covers(hist, repr)
      ensures r.Some? ==> returned == old(returned) + [r.value.0] && r.value.0 !in old(returned)
      ensures r.Some? ==> Was(hist, r.value.0, r.value.1) && lastReturned != null && lastReturned.key == r.value.0
      ensures r.None? ==> returned == old(returned) && entry == null && index == -1 && lastReturned == old(lastReturned)
      ensures r.None? ==> forall k :: k in hist[0] && Always(hist, k) ==> k in returned
    {
      if currentKey.None? {
        var more := HasNext(hist, repr);
        if !more {
          forall k | k in hist[0] && Always(hist, k) ensures k in returned {
            assert k in returned || Ahead(k);
            NothingAhead(this, k);
          }
          return None;
        }
      }
      r := Some((currentKey.value, currentValue.value));
      Take(hist, repr);
    }

    /** Lines 1134-1136. */
    method Take(ghost hist: seq<map<K, V>>, ghost repr: set<Entry<K, V>>)
      requires Valid() && currentKey.Some? && Covers(hist, repr)
      modifies this
      ensures Valid() && returned == old(returned) + [old(currentKey.value)] && Covers(hist, repr)
      ensures old(currentKey.value) !in old(returned)
      ensures lastReturned == old(entry) != null && lastReturned.key == old(currentKey.value)
    {
      hide Linked, TabTraced, BinOf, Was, Always, Fits;
      TailShape(entry, index + 1, tab.Length, hashOf);
      FirstTraced(entry, hist, repr);
      ghost var e := entry;
      assert HasKey(Chain(entry), entry.key) && Ahead(entry.key);
      forall i | 0 <= i < |returned| ensures returned[i] != entry.key { assert Behind(returned[i]); }
      lastReturned := entry;
      currentKey, currentValue := None, None;
      entry := entry.next;
      returned := returned + [e.key];
      forall i | 0 <= i < |returned| ensures Behind(returned[i]) {
        if i < |returned| - 1 { assert old(Behind(returned[i])); }
      }
      forall k | k in hist[0] && Always(hist, k) ensures k in returned || Ahead(k) {
        assert k in old(returned) || old(Ahead(k));
        StillCovered(old(returned), e, k, index, tab.Length, hashOf);
      }
    }
  }

  lemma ShorterTail<K, V>(e: Entry<K, V>, b: nat, cap: nat, hashOf: K -> int)
    requires cap > 0 && BinShape(e, b, cap, hashOf)
    ensures |Chain(e.next)| < |Chain(e)|
  {
  }

  lemma NothingAhead<K, V>(it: HashIterator<K, V>, k: K)
    requires it.Valid() && it.entry == null && it.index == -1
    ensures !it.Ahead(k)
  {
  }

  // ---------- Iterations ----------

  /** Over a map left alone, an iteration returns exactly the map's keys, each once, with their values. */
  method AllPairs<K(==), V(==)>(chm: ConcurrentHashMap<K, V>) returns (pairs: seq<(K, V)>)
    requires chm.Valid()
    ensures NoDuplicates(Keys(pairs))
    ensures forall i :: 0 <= i < |pairs| ==> pairs[i].0 in chm.contents && chm.contents[pairs[i].0] == pairs[i].1
    ensures forall k :: k in chm.contents ==> k in Keys(pairs)
  {
    hide Good, BinShape, NoDuplicates, BinOf, HasKey, Chain, TabTraced, AllTraced;
    var it := new HashIterator(chm);
    pairs := [];
    ghost var m, repr := chm.contents, chm.repr;
    var last := false;
    while !last
      invariant it.Valid() && it.Covers([m], repr) && Keys(pairs) == it.returned && fresh(it)
      invariant forall i :: 0 <= i < |pairs| ==> pairs[i].0 in m && m[pairs[i].0] == pairs[i].1
      invariant last ==> forall k :: k in m ==> k in it.returned
      decreases |m| - |pairs|, !last
    {
      DistinctFit(Keys(pairs), m);
      var r := it.Next([m], repr);
      if r.Some? {
        KeysAdd(pairs, r.value);
        pairs := pairs + [r.value];
        DistinctFit(Keys(pairs), m);
      } else {
        last := true;
        forall k | k in m ensures k in it.returned { assert k in [m][0] && Always([m], k); }
      }
    }
  }

  /** The keys of what an iteration returned. */
  function Keys<K, V>(pairs: seq<(K, V)>): (ks: seq<K>)
    ensures |ks| == |pairs| && forall i :: 0 <= i < |ks| ==> ks[i] == pairs[i].0
  {
    seq(|pairs|, i requires 0 <= i < |pairs| => pairs[i].0)
  }

  lemma KeysAdd<K, V>(pairs: seq<(K, V)>, p: (K, V))
    ensures Keys(pairs + [p]) == Keys(pairs) + [p.0]
  {
  }

  lemma {:induction false} DistinctFit<K, V>(keys: seq<K>, m: map<K, V>)
    requires NoDuplicates(keys) && forall i :: 0 <= i < |keys| ==> keys[i] in m
    ensures |keys| <= |m|
    decreases |keys|
  {
    if keys != [] {
      var k := keys[|keys| - 1];
      DistinctFit(keys[..|keys| - 1], m - {k});
      assert (m - {k}).Keys == m.Keys - {k};
    }
  }

  datatype Command<K, V> = Do(op: Op<K, V>) | Ask | TakeNext | RemoveLast

  /** An operation of the map leaves an iterator its table in shape, and what is ahead of it traced. */
  method PerformDuring<K(==), V(==)>(chm: ConcurrentHashMap<K, V>, op: Op<K, V>, ghost it: HashIterator<K, V>,
                                     ghost hist: seq<map<K, V>>)
    requires chm.Valid() && it.Valid() && it.hashOf == chm.hashOf
    requires it.Covers(hist, chm.repr) && hist[|hist| - 1] == chm.contents
    modifies chm, chm.table, chm.counts, chm.repr
    ensures chm.Valid() && it.Valid() && chm.contents == After(old(chm.contents), op)
    ensures it.Covers(hist + [chm.contents], chm.repr)
    ensures chm.table == old(chm.table) || fresh(chm.table)
    ensures fresh(chm.repr - old(chm.repr))
  {
    hide Good, BinShape, NoDuplicates, BinOf, HasKey, Chain, Fits, Always, TableOk;
    ghost var before, repr, c := chm.table, chm.repr, Chain(it.entry);
    assert forall j :: 0 <= j < |c| ==> c[j] in repr by { InRepr(c, hist, repr); }
    var _ := chm.Perform(op);
    ghost var more := hist + [chm.contents];
    forall x | x in repr && old(Fits(hist, x.key, x.value)) ensures Fits(more, x.key, x.value) {
      FitsOn(hist, chm.contents, x.key, old(x.value), x.value);
    }
    if it.currentKey.Some? { WasOn(hist, chm.contents, it.currentKey.value, it.currentValue.value); }
    forall k | k in more[0] && Always(more, k) ensures Always(hist, k) && (k in it.returned || it.Ahead(k)) {
      AlwaysOn(hist, chm.contents, k);
      assert old(it.Ahead(k)) || k in it.returned;
    }
    forall j | 0 <= j < |c| ensures Traced(c[j], more, chm.repr) { assert old(Traced(c[j], hist, chm.repr)); }
    if it.tab == before {
      TableShape(before[..], chm.hashOf, chm.contents, chm.repr);
      TableTraced(before[..], chm.hashOf, more, chm.repr);
    } else {
      forall b | 0 <= b < it.tab.Length ensures AllTraced(Chain(it.tab[..][b]), more, chm.repr) {
        assert old(AllTraced(Chain(it.tab[..][b]), hist, chm.repr));
        forall j | 0 <= j < |Chain(it.tab[..][b])| ensures Traced(Chain(it.tab[..][b])[j], more, chm.repr) {
          assert old(Traced(Chain(it.tab[..][b])[j], hist, chm.repr));
        }
      }
    }
  }

  /** While nothing happens to the map, its history only repeats itself. */
  lemma StillCovers<K, V>(it: HashIterator<K, V>, hist: seq<map<K, V>>, m: map<K, V>, repr: set<Entry<K, V>>)
    requires it.Valid() && it.Covers(hist, repr) && hist[|hist| - 1] == m
    ensures it.Covers(hist + [m], repr)
  {
    hide BinShape, NoDuplicates, BinOf, HasKey, Chain, Fits, Always;
    var more := hist + [m];
    forall x | x in repr && Fits(hist, x.key, x.value) ensures Fits(more, x.key, x.value) {
      FitsOn(hist, m, x.key, x.value, x.value);
    }
    forall k | k in more[0] && Always(more, k) ensures Always(hist, k) { AlwaysOn(hist, m, k); }
    if it.currentKey.Some? { WasOn(hist, m, it.currentKey.value, it.currentValue.value); }
    var c := Chain(it.entry);
    forall j | 0 <= j < |c| ensures Traced(c[j], more, repr) { assert Traced(c[j], hist, repr); }
    forall b | 0 <= b < it.tab.Length ensures AllTraced(Chain(it.tab[..][b]), more, repr) {
      assert AllTraced(Chain(it.tab[..][b]), hist, repr);
      forall j | 0 <= j < |Chain(it.tab[..][b])| ensures Traced(Chain(it.tab[..][b])[j], more, repr) {
        assert Traced(Chain(it.tab[..][b])[j], hist, repr);
      }
    }
  }

  /** Lines 1140-1145; without an entry last returned, which is an IllegalStateException, nothing happens. */
  method RemoveReturned<K(==), V(==)>(chm: ConcurrentHashMap<K, V>, it: HashIterator<K, V>, ghost hist: seq<map<K, V>>)
    requires chm.Valid() && it.Valid() && it.hashOf == chm.hashOf
    requires it.Covers(hist, chm.repr) && hist[|hist| - 1] == chm.contents
    modifies chm, chm.table, chm.counts, chm.repr, it`lastReturned
    ensures chm.Valid() && it.Valid() && it.Covers(hist + [chm.contents], chm.repr)
    ensures chm.table == old(chm.table) || fresh(chm.table)
    ensures fresh(chm.repr - old(chm.repr))
    ensures it.lastReturned == null
    ensures chm.contents ==
      if old(it.lastReturned) == null then old(chm.contents) else old(chm.contents) - {old(it.lastReturned).key}
  {
    hide Good, BinShape, NoDuplicates, BinOf, HasKey, Chain, TabTraced, AllTraced;
    if it.lastReturned != null {
      PerformDuring(chm, RemoveOp(it.lastReturned.key, None), it, hist);
      it.lastReturned := null;
    } else {
      StillCovers(it, hist, chm.contents, chm.repr);
    }
  }

  /** What a command does to the map: a removal by the iterator takes out a key that it returned. */
  ghost predicate MapStep<K, V>(c: Command<K, V>, m: map<K, V>, m': map<K, V>, keys: seq<K>) {
    match c
    case Do(op) => m' == After(m, op)
    case RemoveLast => m' == m || exists k :: k in keys && m' == m - {k}
    case _ => m' == m
  }

  /** A pair returned by command w was in the map at some moment before. */
  ghost predicate Timely<K, V>(hist: seq<map<K, V>>, w: nat, p: (K, V)) {
    w < |hist| && Was(hist[..w + 1], p.0, p.1)
  }

  lemma TimelyOn<K, V>(hist: seq<map<K, V>>, m: map<K, V>, w: nat, p: (K, V))
    requires Timely(hist, w, p)
    ensures Timely(hist + [m], w, p)
  {
    assert (hist + [m])[..w + 1] == hist[..w + 1];
  }

  /** One command. */
  method Obey<K(==), V(==)>(chm: ConcurrentHashMap<K, V>, it: HashIterator<K, V>, c: Command<K, V>,
                            ghost hist: seq<map<K, V>>)
    returns (r: Option<(K, V)>)
    requires chm.Valid() && it.Valid() && it.hashOf == chm.hashOf
    requires it.Covers(hist, chm.repr) && hist[|hist| - 1] == chm.contents
    requires it.lastReturned != null ==> it.lastReturned.key in it.returned
    modifies chm, chm.table, chm.counts, chm.repr, it
    ensures chm.Valid() && it.Valid() && it.Covers(hist + [chm.contents], chm.repr)
    ensures chm.table == old(chm.table) || fresh(chm.table)
    ensures fresh(chm.repr - old(chm.repr))
    ensures MapStep(c, old(chm.contents), chm.contents, it.returned)
    ensures it.lastReturned != null ==> it.lastReturned.key in it.returned
    ensures r.Some? ==> c.TakeNext? && it.returned == old(it.returned) + [r.value.0] && Was(hist, r.value.0, r.value.1)
    ensures r.None? ==> it.returned == old(it.returned)
    ensures c.TakeNext? && r.None? ==> forall k :: k in hist[0] && Always(hist, k) ==> k in it.returned
  {
    hide Good, BinShape, NoDuplicates, BinOf, HasKey, Chain, Was, Always, TabTraced, AllTraced;
    r := None;
    match c {
      case Do(op) =>
        PerformDuring(chm, op, it, hist);
      case Ask =>
        var _ := it.HasNext(hist, chm.repr);
        StillCovers(it, hist, chm.contents, chm.repr);
      case TakeNext =>
        r := it.Next(hist, chm.repr);
        StillCovers(it, hist, chm.contents, chm.repr);
      case RemoveLast =>
        RemoveReturned(chm, it, hist);
    }
  }

  /** An iteration while the map changes, resizes included: no key is returned twice; every pair returned
      was in the map at some moment between the start of the iteration and its return; and once the
      iteration has ended every key that was there throughout has been returned. */
  method Interleave<K(==), V(==)>(chm: ConcurrentHashMap<K, V>, commands: seq<Command<K, V>>)
    returns (pairs: seq<(K, V)>, ended: bool, ghost hist: seq<map<K, V>>, ghost when: seq<nat>)
    requires chm.Valid()
    modifies chm, chm.table, chm.counts, chm.repr
    ensures chm.Valid() && |hist| == |commands| + 1
    ensures hist[0] == old(chm.contents) && hist[|commands|] == chm.contents
    ensures forall i :: 0 <= i < |commands| ==> MapStep(commands[i], hist[i], hist[i + 1], Keys(pairs))
    ensures NoDuplicates(Keys(pairs)) && |when| == |pairs|
    ensures forall j :: 0 <= j < |pairs| ==>
      when[j] < |commands| && commands[when[j]].TakeNext? && Timely(hist, when[j], pairs[j])
    ensures ended ==> forall k :: k in hist[0] && Always(hist, k) ==> k in Keys(pairs)
  {
    hide Good, BinShape, NoDuplicates, BinOf, HasKey, Chain, Was, Always, TabTraced, AllTraced, After;
    var it := new HashIterator(chm);
    pairs, ended := [], false;
    hist, when := [chm.contents], [];
    for i := 0 to |commands|
      invariant chm.Valid() && it.Valid() && fresh(it) && Keys(pairs) == it.returned && it.hashOf == chm.hashOf
      invariant chm.table == old(chm.table) || fresh(chm.table)
      invariant fresh(chm.repr - old(chm.repr))
      invariant |hist| == i + 1 && hist[0] == old(chm.contents) && hist[i] == chm.contents
      invariant it.Covers(hist, chm.repr)
      invariant it.lastReturned != null ==> it.lastReturned.key in Keys(pairs)
      invariant forall l :: 0 <= l < i ==> MapStep(commands[l], hist[l], hist[l + 1], Keys(pairs))
      invariant |when| == |pairs|
      invariant forall j :: 0 <= j < |pairs| ==>
        when[j] < i && commands[when[j]].TakeNext? && Timely(hist, when[j], pairs[j])
      invariant ended ==> forall k :: k in hist[0] && Always(hist, k) ==> k in Keys(pairs)
    {
      var r := Obey(chm, it, commands[i], hist);
      if r.Some? {
        KeysAdd(pairs, r.value);
        pairs, when := pairs + [r.value], when + [i];
        assert hist[..i + 1] == hist;
      } else if commands[i].TakeNext? {
        ended := true;
      }
      forall j | 0 <= j < |pairs| ensures Timely(hist + [chm.contents], when[j], pairs[j]) {
        TimelyOn(hist, chm.contents, when[j], pairs[j]);
      }
      forall k | Always(hist + [chm.contents], k) ensures Always(hist, k) { AlwaysOn(hist, chm.contents, k); }
      hist := hist + [chm.contents];
    }
  }
}
