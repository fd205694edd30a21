/** What a table of chains promises about the map it holds, and how single changes to a bin change
    that map. */
module Tables {
  import opened EntryChains
  import opened PowersOfTwo
  import opened Rehash

  /** A search of its bin finds a key exactly when the map has it. */
  lemma FoundInBin<K, V>(t: seq<Entry?<K, V>>, hashOf: K -> int, m: map<K, V>, repr: set<Entry<K, V>>, key: K)
    requires TableOk(t, hashOf, m, repr)
    ensures HasKey(Chain(t[BinOf(hashOf(key), |t|)]), key) <==> key in m
  {
    var b := BinOf(hashOf(key), |t|);
    var c := Chain(t[b]);
    assert BinOk(t, b, hashOf, m, repr);
    if key in m { assert KeyOk(t, hashOf, key); }
    if HasKey(c, key) {
      var j :| 0 <= j < |c| && c[j].key == key;
      assert EntryHolds(c[j], m, repr);
    }
  }

  /** A key has one entry in the whole table, in the bin of its hash code. */
  lemma OneEntry<K, V>(t: seq<Entry?<K, V>>, hashOf: K -> int, b: nat, j: nat, b': nat, j': nat)
    requires b < |t| && b' < |t| && j < |Chain(t[b])| && j' < |Chain(t[b'])|
    requires BinShape(t[b], b, |t|, hashOf) && BinShape(t[b'], b', |t|, hashOf)
    requires Chain(t[b])[j].key == Chain(t[b'])[j'].key
    ensures b == b' && j == j'
  {
    assert Belongs(Chain(t[b])[j], b, |t|, hashOf);
    assert Belongs(Chain(t[b'])[j'], b', |t|, hashOf);
  }

  lemma OtherBins<K, V>(t: seq<Entry?<K, V>>, hashOf: K -> int, b: nat, j: nat, b': nat, j': nat)
    requires b < |t| && b' < |t| && b != b' && j < |Chain(t[b])| && j' < |Chain(t[b'])|
    requires BinShape(t[b], b, |t|, hashOf) && BinShape(t[b'], b', |t|, hashOf)
    ensures Chain(t[b])[j].key != Chain(t[b'])[j'].key
  {
    assert Belongs(Chain(t[b])[j], b, |t|, hashOf);
    assert Belongs(Chain(t[b'])[j'], b', |t|, hashOf);
  }

  /** Stores a value in the entry of a key. */
  method SetValue<K(==), V>(e: Entry<K, V>, value: V, ghost t: seq<Entry?<K, V>>, ghost b: nat, ghost j: nat,
                            ghost hashOf: K -> int, ghost m: map<K, V>, ghost repr: set<Entry<K, V>>)
    requires TableOk(t, hashOf, m, repr) && b < |t| && j < |Chain(t[b])| && Chain(t[b])[j] == e
    modifies e
    ensures TableOk(t, hashOf, m[e.key := value], repr) && e.value == Some(value)
  {
    hide Linked, BinOf, Belongs, KeyOk;
    ghost var m' := m[e.key := value];
    assert BinOk(t, b, hashOf, m, repr) && EntryHolds(Chain(t[b])[j], m, repr);
    forall b' | 0 <= b' < |t| ensures BinOk(t, b', hashOf, m, repr) {}
    forall k | k in m' ensures KeyOk(t, hashOf, k) {
      if k == e.key { assert KeyOk(t, hashOf, e.key); }
    }
    e.value := Some(value);
    forall b' | 0 <= b' < |t| ensures BinOk(t, b', hashOf, m', repr) {
      assert old(BinOk(t, b', hashOf, m, repr));
      forall j' | 0 <= j' < |Chain(t[b'])| ensures EntryHolds(Chain(t[b'])[j'], m', repr) {
        assert old(EntryHolds(Chain(t[b'])[j'], m, repr));
        if Chain(t[b'])[j'].key == e.key { OneEntry(t, hashOf, b, j, b', j'); }
      }
    }
  }

  /** A new entry in front of the bin of a new key. */
  lemma FrontAdded<K, V>(t: seq<Entry?<K, V>>, hashOf: K -> int, m: map<K, V>, repr: set<Entry<K, V>>,
                         e: Entry<K, V>, value: V)
    requires TableOk(t, hashOf, m, repr) && e.key !in m
    requires e.hash == hashOf(e.key) && e.value == Some(value) && Linked(e)
    requires e.next == t[BinOf(hashOf(e.key), |t|)]
    ensures
      var b := BinOf(hashOf(e.key), |t|);
      TableOk(t[b := e], hashOf, m[e.key := value], repr + {e}) && |Chain(e)| == |Chain(t[b])| + 1
  {
    var b := BinOf(hashOf(e.key), |t|);
    var t', m', repr' := t[b := e], m[e.key := value], repr + {e};
    FoundInBin(t, hashOf, m, repr, e.key);
    forall b' | 0 <= b' < |t| ensures BinOk(t', b', hashOf, m', repr') {
      assert BinOk(t, b', hashOf, m, repr);
      HoldsStill(t[b'], m, repr, m', repr');
      if b' == b {
        FrontShape(e, b, |t|, hashOf);
        HoldsFront(e, m', repr');
      }
    }
    forall k | k in m' ensures KeyOk(t', hashOf, k) {
      if k in m { assert KeyOk(t, hashOf, k); }
      KeyBehind(t, e, b, BinOf(hashOf(k), |t|), k);
    }
  }

  /** Entries hold what they held when the map changes at other keys only. */
  lemma HoldsStill<K, V>(e: Entry?<K, V>, m: map<K, V>, repr: set<Entry<K, V>>, m': map<K, V>, repr': set<Entry<K, V>>)
    requires BinHolds(e, m, repr) && repr <= repr'
    requires forall j :: 0 <= j < |Chain(e)| ==>
      Chain(e)[j].key in m ==> Chain(e)[j].key in m' && m'[Chain(e)[j].key] == m[Chain(e)[j].key]
    ensures BinHolds(e, m', repr')
  {
    forall j | 0 <= j < |Chain(e)| ensures EntryHolds(Chain(e)[j], m', repr') {
      assert EntryHolds(Chain(e)[j], m, repr);
    }
  }

  lemma FrontShape<K, V>(e: Entry<K, V>, b: nat, cap: nat, hashOf: K -> int)
    requires cap > 0 && Linked(e) && BinShape(e.next, b, cap, hashOf) && Belongs(e, b, cap, hashOf)
    requires !HasKey(Chain(e.next), e.key)
    ensures BinShape(e, b, cap, hashOf)
  {
    var c, d := Chain(e.next), Chain(e);
    forall j | 0 <= j < |d| ensures Belongs(d[j], b, cap, hashOf) && (j > 0 ==> d[j].key != e.key) {
      if j > 0 { assert d[j] == c[j - 1] && Belongs(c[j - 1], b, cap, hashOf); }
    }
    forall i, j | 0 <= i < j < |d| ensures d[i].key != d[j].key {
      if i > 0 { assert d[i] == c[i - 1] && d[j] == c[j - 1]; }
    }
  }

  lemma KeyBehind<K, V>(t: seq<Entry?<K, V>>, e: Entry<K, V>, b: nat, b': nat, k: K)
    requires b < |t| && b' < |t| && Linked(e) && e.next == t[b]
    requires (k == e.key && b' == b) || HasKey(Chain(t[b']), k)
    ensures HasKey(Chain(t[b := e][b']), k)
  {
    if b' == b {
      assert Chain(e)[0] == e;
      if k != e.key {
        var j :| 0 <= j < |Chain(t[b])| && Chain(t[b])[j].key == k;
        assert Chain(e)[j + 1].key == k;
      }
    }
  }

  // ---------- Removing an entry ----------

  /** The bin without its entry j: the first q of the entries before it cloned in front of what follows
      it. */
  ghost function Removed<K, V>(c: seq<Entry<K, V>>, j: nat, q: nat): (d: seq<Entry<K, V>>)
    requires q <= j < |c|
    ensures |d| == |c| - j - 1 + q
  {
    seq(|c| - j - 1 + q, l requires 0 <= l < |c| - j - 1 + q => if l < q then c[q - 1 - l] else c[l - q + j + 1])
  }

  /** Where entry l of the rebuilt bin was. */
  function WasAt(l: nat, j: nat): nat { if l < j then j - 1 - l else l + 1 }

  lemma RemovedAt<K, V>(c: seq<Entry<K, V>>, j: nat, l: nat)
    requires j < |c| && l < |c| - 1
    ensures Removed(c, j, j)[l] == c[WasAt(l, j)] && WasAt(l, j) != j
  {
  }

  /** A bin without one entry has the others, once each. */
  lemma RemovedShape<K, V>(e: Entry?<K, V>, c: seq<Entry<K, V>>, j: nat, b: nat, cap: nat, hashOf: K -> int)
    requires cap > 0 && j < |c| && Linked(e) && SameKeys(Chain(e), Removed(c, j, j)) && DistinctKeys(c)
    requires forall i {:trigger Belongs(c[i], b, cap, hashOf)} :: 0 <= i < |c| ==> Belongs(c[i], b, cap, hashOf)
    ensures BinShape(e, b, cap, hashOf) && |Chain(e)| == |c| - 1
  {
    var d := Chain(e);
    forall l | 0 <= l < |d| ensures Belongs(d[l], b, cap, hashOf) {
      RemovedAt(c, j, l);
      assert Belongs(c[WasAt(l, j)], b, cap, hashOf);
    }
    forall l, l' | 0 <= l < l' < |d| ensures d[l].key != d[l'].key {
      RemovedAt(c, j, l);
      RemovedAt(c, j, l');
    }
  }

  lemma RemovedKeys<K, V>(e: Entry?<K, V>, c: seq<Entry<K, V>>, j: nat, i: nat)
    requires j < |c| && SameKeys(Chain(e), Removed(c, j, j)) && i < |c| && i != j
    ensures HasKey(Chain(e), c[i].key)
  {
    var l := if i < j then j - 1 - i else i - 1;
    RemovedAt(c, j, l);
    assert Chain(e)[l].key == c[i].key;
  }

  /** The bin of a removed key without its entry. */
  lemma BinRemoved<K, V>(t: seq<Entry?<K, V>>, hashOf: K -> int, m: map<K, V>, b: nat, j: nat, e: Entry?<K, V>,
                         repr: set<Entry<K, V>>)
    requires |t| > 0 && b < |t| && j < |Chain(t[b])|
    requires BinShape(t[b], b, |t|, hashOf) && BinHolds(e, m - {Chain(t[b])[j].key}, repr)
    requires forall i {:trigger BinOk(t, i, hashOf, m - {Chain(t[b])[j].key}, repr)} :: 0 <= i < |t| && i != b ==>
      BinOk(t, i, hashOf, m - {Chain(t[b])[j].key}, repr)
    requires forall k {:trigger KeyOk(t, hashOf, k)} :: k in m ==> KeyOk(t, hashOf, k)
    requires Linked(e) && SameKeys(Chain(e), Removed(Chain(t[b]), j, j))
    ensures TableOk(t[b := e], hashOf, m - {Chain(t[b])[j].key}, repr)
    ensures |Chain(e)| == |Chain(t[b])| - 1
  {
    var c := Chain(t[b]);
    var t', m' := t[b := e], m - {c[j].key};
    RemovedShape(e, c, j, b, |t|, hashOf);
    forall i | 0 <= i < |t| ensures BinOk(t', i, hashOf, m', repr) {
      if i != b { assert BinOk(t, i, hashOf, m', repr); }
    }
    forall k | k in m' ensures KeyOk(t', hashOf, k) {
      assert KeyOk(t, hashOf, k);
      if BinOf(hashOf(k), |t|) == b {
        var i :| 0 <= i < |c| && c[i].key == k;
        RemovedKeys(e, c, j, i);
      }
    }
  }

  /** Every bin but b, and bin b but for its entry j, holds the map m. */
  ghost predicate AllBut<K, V>(t: seq<Entry?<K, V>>, b: nat, j: nat, hashOf: K -> int, m: map<K, V>, repr: set<Entry<K, V>>)
    requires b < |t|
    reads repr
  {
    && (forall i {:trigger BinOk(t, i, hashOf, m, repr)} :: 0 <= i < |t| && i != b ==> BinOk(t, i, hashOf, m, repr))
    && HoldsBut(Chain(t[b]), j, m, repr)
  }

  ghost predicate HoldsBut<K, V>(c: seq<Entry<K, V>>, j: nat, m: map<K, V>, repr: set<Entry<K, V>>)
    reads repr
  {
    forall i {:trigger EntryHolds(c[i], m, repr)} :: 0 <= i < |c| && i != j ==> EntryHolds(c[i], m, repr)
  }

  /** Line 710: the entry of a key is marked as removed; all others hold the map without the key. */
  method Invalidate<K(==), V>(e: Entry<K, V>, ghost t: seq<Entry?<K, V>>, ghost b: nat, ghost j: nat,
                              ghost hashOf: K -> int, ghost m: map<K, V>, ghost repr: set<Entry<K, V>>)
    requires TableOk(t, hashOf, m, repr) && b < |t| && j < |Chain(t[b])| && Chain(t[b])[j] == e
    modifies e
    ensures AllBut(t, b, j, hashOf, m - {e.key}, repr) && e.value == None
  {
    hide Linked, BinOf, Belongs;
    ghost var m' := m - {e.key};
    assert BinOk(t, b, hashOf, m, repr) && EntryHolds(Chain(t[b])[j], m, repr);
    forall i | 0 <= i < |t| ensures BinOk(t, i, hashOf, m, repr) {}
    e.value := None;
    forall i | 0 <= i < |t| && i != b ensures BinOk(t, i, hashOf, m', repr) {
      assert old(BinOk(t, i, hashOf, m, repr));
      forall l | 0 <= l < |Chain(t[i])| ensures EntryHolds(Chain(t[i])[l], m', repr) {
        assert old(EntryHolds(Chain(t[i])[l], m, repr));
        OtherBins(t, hashOf, b, j, i, l);
      }
    }
    forall i | 0 <= i < |Chain(t[b])| && i != j ensures EntryHolds(Chain(t[b])[i], m', repr) {
      assert old(EntryHolds(Chain(t[b])[i], m, repr));
    }
  }

  /** A bin with the first q entries of c cloned in front of what follows the entry at j. */
  ghost predicate Rebuilt<K, V>(head: Entry?<K, V>, c: seq<Entry<K, V>>, j: nat, q: nat, m: map<K, V>, repr: set<Entry<K, V>>)
    reads repr
  {
    q <= j < |c| && Linked(head) && SameKeys(Chain(head), Removed(c, j, q)) && BinHolds(head, m, repr)
  }

  /** Line 714: a clone of one entry in front. */
  method CloneFront<K, V>(p: Entry<K, V>, head: Entry?<K, V>, ghost c: seq<Entry<K, V>>, ghost j: nat, ghost q: nat,
                          ghost m: map<K, V>, ghost repr: set<Entry<K, V>>, ghost made: set<Entry<K, V>>)
    returns (copy: Entry<K, V>)
    requires q < j < |c| && Reached(c, q, p) && HoldsBut(c, j, m, repr) && Rebuilt(head, c, j, q, m, repr + made)
    ensures fresh(copy) && Rebuilt(copy, c, j, q + 1, m, repr + (made + {copy}))
  {
    Advance(c, q, p);
    assert EntryHolds(c[q], m, repr);
    copy := new Entry(p.hash, p.key, p.value, head);
    ghost var more := repr + (made + {copy});
    RemovedStep(c, j, q, copy);
    HoldsMore(head, m, repr + made, more);
    HoldsFront(copy, m, more);
  }

  /** Lines 712-714: what follows e, with clones of what precedes it in front. */
  method CloneBefore<K, V>(first: Entry<K, V>, e: Entry<K, V>, ghost j: nat, ghost m: map<K, V>, ghost repr: set<Entry<K, V>>)
    returns (head: Entry?<K, V>, ghost made: set<Entry<K, V>>)
    requires Linked(first) && Reached(Chain(first), j, e) && NotBefore(Chain(first), j, e)
    requires HoldsBut(Chain(first), j, m, repr)
    ensures fresh(made) && Rebuilt(head, Chain(first), j, j, m, repr + made)
  {
    hide NotBefore, HoldsBut, Rebuilt;
    ghost var c, q := Chain(first), 0;
    Begin(first);
    Advance(c, j, e);
    head := e.next;
    made := {};
    var p := first;
    RemovedStart(c, j, head, m, repr);
    assert repr + made == repr;
    while p != e
      invariant fresh(made)
      invariant 0 <= q <= j && Reached(c, q, p)
      invariant Rebuilt(head, c, j, q, m, repr + made)
      decreases j - q
    {
      MoreToGo(c, q, p, j, e);
      var copy := CloneFront(p, head, c, j, q, m, repr, made);
      head := copy;
      made := made + {copy};
      p := p.next;
      q := q + 1;
    }
    NoMore(c, q, p, j);
  }

  lemma RemovedStart<K, V>(c: seq<Entry<K, V>>, j: nat, head: Entry?<K, V>, m: map<K, V>, repr: set<Entry<K, V>>)
    requires j < |c| && Reached(c, j + 1, head) && HoldsBut(c, j, m, repr)
    ensures Rebuilt(head, c, j, 0, m, repr)
  {
    var d := Chain(head);
    forall l | 0 <= l < |d| ensures d[l] == Removed(c, j, 0)[l] && EntryHolds(d[l], m, repr) {
      assert d[l] == c[l + j + 1];
    }
  }

  lemma RemovedNext<K, V>(c: seq<Entry<K, V>>, j: nat, q: nat, l: nat)
    requires q < j < |c| && 0 < l < |c| - j + q
    ensures Removed(c, j, q + 1)[l] == Removed(c, j, q)[l - 1]
  {
  }

  lemma RemovedStep<K, V>(c: seq<Entry<K, V>>, j: nat, q: nat, copy: Entry<K, V>)
    requires q < j < |c| && Linked(copy) && copy.key == c[q].key && copy.hash == c[q].hash
    requires SameKeys(Chain(copy.next), Removed(c, j, q))
    ensures SameKeys(Chain(copy), Removed(c, j, q + 1))
  {
    var d, src, before := Chain(copy), Removed(c, j, q + 1), Removed(c, j, q);
    assert d == [copy] + Chain(copy.next);
    assert src[0] == c[q];
    hide Linked, Chain, Removed;
    forall l | 0 <= l < |d| ensures d[l].key == src[l].key && d[l].hash == src[l].hash {
      if l > 0 {
        RemovedNext(c, j, q, l);
        assert d[l] == Chain(copy.next)[l - 1];
      }
    }
  }

  /** A table holds its map whatever other entries there are. */
  lemma TableMore<K, V>(t: seq<Entry?<K, V>>, hashOf: K -> int, m: map<K, V>, repr: set<Entry<K, V>>,
                        more: set<Entry<K, V>>)
    requires TableOk(t, hashOf, m, repr) && repr <= more
    ensures TableOk(t, hashOf, m, more)
  {
    forall i | 0 <= i < |t| ensures BinOk(t, i, hashOf, m, more) {
      assert BinOk(t, i, hashOf, m, repr);
      HoldsMore(t[i], m, repr, more);
    }
  }

  lemma AllButMore<K, V>(t: seq<Entry?<K, V>>, b: nat, j: nat, hashOf: K -> int, m: map<K, V>, repr: set<Entry<K, V>>,
                         more: set<Entry<K, V>>)
    requires b < |t| && AllBut(t, b, j, hashOf, m, repr) && repr <= more
    ensures forall i {:trigger BinOk(t, i, hashOf, m, more)} :: 0 <= i < |t| && i != b ==> BinOk(t, i, hashOf, m, more)
  {
    forall i | 0 <= i < |t| && i != b ensures BinOk(t, i, hashOf, m, more) {
      assert BinOk(t, i, hashOf, m, repr);
      HoldsMore(t[i], m, repr, more);
    }
  }

  /** The table with the rebuilt bin holds the map without the key. */
  lemma RemovedOk<K, V>(t: seq<Entry?<K, V>>, hashOf: K -> int, m: map<K, V>, b: nat, j: nat, e: Entry?<K, V>,
                        repr: set<Entry<K, V>>, more: set<Entry<K, V>>)
    requires b < |t| && j < |Chain(t[b])| && BinShape(t[b], b, |t|, hashOf) && repr <= more
    requires AllBut(t, b, j, hashOf, m - {Chain(t[b])[j].key}, repr)
    requires forall k {:trigger KeyOk(t, hashOf, k)} :: k in m ==> KeyOk(t, hashOf, k)
    requires Rebuilt(e, Chain(t[b]), j, j, m - {Chain(t[b])[j].key}, more)
    ensures TableOk(t[b := e], hashOf, m - {Chain(t[b])[j].key}, more) && |Chain(e)| == |Chain(t[b])| - 1
  {
    AllButMore(t, b, j, hashOf, m - {Chain(t[b])[j].key}, repr, more);
    BinRemoved(t, hashOf, m, b, j, e, more);
  }
}
