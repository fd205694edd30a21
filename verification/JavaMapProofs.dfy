/** Every step of the map, with readers that take no lock, keeps its invariant. */
module JavaMapProofs {
  import opened PowersOfTwo
  import opened JavaMapModel

  // ---------- Chains ----------

  /** b extends a and changes no more than values. */
  ghost predicate SameLinks(a: seq<Node>, b: seq<Node>) {
    |a| <= |b| && forall p :: 0 <= p < |a| ==> a[p].key == b[p].key && a[p].next == b[p].next
  }

  lemma {:induction false} FindFrame(a: seq<Node>, b: seq<Node>, p: nat, key: Key)
    requires SameLinks(a, b) && p < |a|
    ensures Find(a, p, key) == Find(b, p, key)
  {
    if Links(a, p) && a[p].key != key { FindFrame(a, b, a[p].next, key); }
  }

  lemma {:induction false} ChainFrame(a: seq<Node>, b: seq<Node>, p: nat, q: nat)
    requires SameLinks(a, b) && p < |a|
    ensures OnChain(a, p, q) <==> OnChain(b, p, q)
  {
    if Links(a, p) && p != q { ChainFrame(a, b, a[p].next, q); }
  }

  lemma {:induction false} BelongFrame(a: seq<Node>, b: seq<Node>, p: nat, i: nat, cap: nat)
    requires SameLinks(a, b) && p < |a| && cap > 0
    ensures Belong(a, p, i, cap) <==> Belong(b, p, i, cap)
  {
    if Links(a, p) { BelongFrame(a, b, a[p].next, i, cap); }
  }

  /** What follows a node of a chain is on the chain. */
  lemma {:induction false} ChainNext(heap: seq<Node>, p: nat, q: nat)
    requires OnChain(heap, p, q) && Links(heap, q) && Links(heap, heap[q].next)
    ensures OnChain(heap, p, heap[q].next)
  {
    if p != q { ChainNext(heap, heap[p].next, q); }
  }

  lemma {:induction false} FoundIsOn(heap: seq<Node>, p: nat, q: nat, key: Key)
    requires OnChain(heap, p, q) && q < |heap| && heap[q].key == key
    ensures Find(heap, p, key) != 0
  {
    if heap[p].key != key { FoundIsOn(heap, heap[p].next, q, key); }
  }

  /** No two nodes of a chain share a key, so one that has the key is the one a search finds. */
  lemma {:induction false} OnlyOne(heap: seq<Node>, p: nat, q: nat, key: Key)
    requires forall i :: 0 < i < |heap| ==> NodeOk(heap, i)
    requires OnChain(heap, p, q) && q < |heap| && heap[q].key == key
    ensures Find(heap, p, key) == q
  {
    if p != q {
      assert NodeOk(heap, p);
      FoundIsOn(heap, heap[p].next, q, key);
      OnlyOne(heap, heap[p].next, q, key);
    }
  }

  lemma {:induction false} InItsBin(heap: seq<Node>, p: nat, q: nat, b: nat, cap: nat)
    requires cap > 0 && Belong(heap, p, b, cap) && OnChain(heap, p, q) && q < |heap|
    ensures Bin(heap[q].key, cap) == b
  {
    if p != q { InItsBin(heap, heap[p].next, q, b, cap); }
  }

  /** The bin of a key is in the key's segment, before and after any resize. */
  lemma BinSegment(key: Key, cap: nat)
    requires PowerOfTwo(cap) && SEGMENTS <= cap
    ensures BinOf(Bin(key, cap), SEGMENTS) == Seg(key)
  {
    assert PowerOfTwo(SEGMENTS) by { assert PowerOfTwo(4) && PowerOfTwo(16); }
    LowBits(key.hash, SEGMENTS, cap);
  }

  // ---------- What a step of one thread leaves to the others ----------

  /** A node keeps its value or gets what the map now has for its key. */
  ghost predicate ValueKept(s: State, s': State, p: nat)
    requires p < |s.heap| <= |s'.heap| && |s'.hist| > 0
  {
    s'.heap[p].value == s.heap[p].value || s'.heap[p].value == Lookup(Now(s'), s.heap[p].key)
  }

  /** Thread t, who holds its lock, may change what the map has for a key. */
  ghost predicate MapKept(s: State, s': State, t: nat, key: Key)
    requires |s.locks| == SEGMENTS && |s.hist| > 0 && |s'.hist| > 0
  {
    Lookup(Now(s'), key) == Lookup(Now(s), key) || s.locks[Seg(key)] == By(t)
  }

  ghost predicate BinKept(s: State, s': State, t: nat, b: nat)
    requires |s.locks| == SEGMENTS && |s.tabs| == |s'.tabs| > 0 && b < |Cur(s)| == |Cur(s')|
  {
    Cur(s')[b] == Cur(s)[b] || s.locks[BinOf(b, SEGMENTS)] == By(t)
  }

  ghost predicate TabsKept(s: State, s': State, t: nat)
    requires Sized(s)
  {
    && |s.tabs| <= |s'.tabs| && (forall i :: 0 <= i < |s.tabs| - 1 ==> s'.tabs[i] == s.tabs[i])
    && if |s'.tabs| == |s.tabs| then |Cur(s')| == |Cur(s)| && forall b :: 0 <= b < |Cur(s)| ==> BinKept(s, s', t, b)
       else s'.tabs[|s.tabs| - 1] == Cur(s) && forall g :: 0 <= g < SEGMENTS ==> s.locks[g] == By(t)
  }

  ghost predicate LockKept(s: State, s': State, t: nat, g: nat)
    requires |s.locks| == |s'.locks| == SEGMENTS && g < SEGMENTS
  {
    s'.locks[g] == s.locks[g] || s.locks[g] == By(t) || s.locks[g] == Nobody
  }

  ghost predicate Local(s: State, s': State, t: nat)
    requires Sized(s)
  {
    && |s'.locks| == SEGMENTS && |s'.th| == |s.th| == |s'.mark|
    && (forall u :: 0 <= u < |s.th| && u != t ==> s'.th[u] == s.th[u] && s'.mark[u] == s.mark[u])
    && s.hist <= s'.hist && SameLinks(s.heap, s'.heap)
    && (forall p :: 0 <= p < |s.heap| ==> ValueKept(s, s', p))
    && (forall k :: MapKept(s, s', t, k))
    && TabsKept(s, s', t)
    && (forall g :: 0 <= g < SEGMENTS ==> LockKept(s, s', t, g))
  }

  lemma SeenOn(hist: seq<Contents>, more: seq<Contents>, since: nat, key: Key, res: Option<int>)
    requires hist <= more && SeenSince(hist, since, key, res)
    ensures SeenSince(more, since, key, res)
  {
    var i :| since <= i < |hist| && Lookup(hist[i], key) == res;
    assert Lookup(more[i], key) == res;
  }

  /** A walk without a lock can go on: what it would return was there at some moment of the call. */
  lemma ReadOn(s: State, s': State, t: nat, u: nat, p: nat, key: Key)
    requires Sized(s) && Local(s, s', t) && u < |s.th| && u != t && s.mark[u].since < |s.hist|
    requires p < |s.heap| && ReadOk(s, u, p, key)
    ensures ReadOk(s', u, p, key)
  {
    FindFrame(s.heap, s'.heap, p, key);
    var x := Find(s.heap, p, key);
    if x != 0 && s'.heap[x].value.Some? {
      assert ValueKept(s, s', x);
      if s'.heap[x].value == s.heap[x].value {
        SeenOn(s.hist, s'.hist, s.mark[u].since, key, s.heap[x].value);
      } else {
        assert Lookup(s'.hist[|s'.hist| - 1], key) == s'.heap[x].value;
      }
    }
  }

  /** What the current table has, a reader may return. */
  lemma CurrentIsRead(s: State, u: nat, key: Key)
    requires Sized(s) && KeyOk(s, key) && u < |s.th| && s.mark[u].since < |s.hist|
    ensures ReadOk(s, u, First(s, key), key)
  {
    assert Lookup(s.hist[|s.hist| - 1], key) == Lookup(Now(s), key);
  }

  lemma FirstOn(s: State, s': State, t: nat, u: nat, key: Key)
    requires Sized(s) && Sized(s') && Local(s, s', t) && KeyOk(s, key) && u < |s.th| && u != t
    requires s.th[u].GFirst? && s.th[u].key == key && ThreadOk(s, u)
    ensures ThreadOk(s', u)
  {
    var tab := s.th[u].tab;
    assert TabOk(s.tabs[tab], |s.heap|);
    CurrentIsRead(s, u, key);
    LocksOn(s, s', t, u);
    ReadOn(s, s', t, u, s.tabs[tab][Bin(key, |s.tabs[tab]|)], key);
  }

  /** A thread that holds the lock of a segment finds its bins and the keys in them as they were. */
  lemma SegmentKept(s: State, s': State, t: nat, u: nat, g: nat)
    requires Sized(s) && Sized(s') && Local(s, s', t) && u != t && g < SEGMENTS && s.locks[g] == By(u)
    ensures |s'.tabs| == |s.tabs| && |Cur(s')| == |Cur(s)|
    ensures forall b :: 0 <= b < |Cur(s)| && BinOf(b, SEGMENTS) == g ==> Cur(s')[b] == Cur(s)[b]
    ensures forall k :: Seg(k) == g ==> (k in Now(s') <==> k in Now(s)) && NodeOf(s', k) == NodeOf(s, k)
  {
    assert TabOk(Cur(s), |s.heap|);
    forall b | 0 <= b < |Cur(s)| && BinOf(b, SEGMENTS) == g ensures Cur(s')[b] == Cur(s)[b] { assert BinKept(s, s', t, b); }
    forall k | Seg(k) == g ensures (k in Now(s') <==> k in Now(s)) && NodeOf(s', k) == NodeOf(s, k) {
      assert MapKept(s, s', t, k);
      BinSegment(k, |Cur(s)|);
      FindFrame(s.heap, s'.heap, First(s, k), k);
    }
  }

  lemma LocksOn(s: State, s': State, t: nat, u: nat)
    requires Sized(s) && Local(s, s', t) && u < |s.th| && u != t && OwnsLocks(s, u)
    ensures OwnsLocks(s', u)
  {
    forall g | 0 <= g < SEGMENTS && Locked(s'.th[u], g) ensures s'.locks[g] == By(u) {
      assert LockKept(s, s', t, g) && s.locks[g] == By(u);
    }
  }

  lemma ClearOn(s: State, s': State, t: nat, u: nat)
    requires Sized(s) && Sized(s') && Local(s, s', t) && u < |s.th| && u != t && ThreadOk(s, u)
    requires s.th[u].CBin? || s.th[u].CKill? || s.th[u].CUnlock?
    ensures ThreadOk(s', u)
  {
    var g := s.th[u].seg;
    assert Locked(s.th[u], g);
    SegmentKept(s, s', t, u, g);
    LocksOn(s, s', t, u);
    hide Local, OwnsLocks;
    if s.th[u].CKill? {
      var i, e := s.th[u].i, s.th[u].e;
      assert TabOk(Cur(s), |s.heap|);
      if e != 0 { ChainFrame(s.heap, s'.heap, Cur(s)[i], e); }
      forall k | k in Now(s') && Bin(k, |Cur(s')|) == i ensures Find(s'.heap, e, k) == NodeOf(s', k) {
        BinSegment(k, |Cur(s)|);
        FindFrame(s.heap, s'.heap, e, k);
      }
    }
  }

  lemma GetOn(s: State, s': State, t: nat, u: nat)
    requires Sized(s) && Sized(s') && Local(s, s', t) && u < |s.th| && u != t && ThreadOk(s, u)
    requires s.th[u].GWalk? || s.th[u].GValue? || s.th[u].GLock? || s.th[u].GRecheck? || s.th[u].GUnlock? || s.th[u].GDone?
    ensures ThreadOk(s', u)
  {
    LocksOn(s, s', t, u);
    hide OwnsLocks;
    match s.th[u] {
      case GWalk(k, first, e) =>
        ReadOn(s, s', t, u, e, k);
        FindFrame(s.heap, s'.heap, first, k);
        FindFrame(s.heap, s'.heap, e, k);
      case GValue(k, first, e) => ReadOn(s, s', t, u, e, k);
      case GLock(k, first, e) => FindFrame(s.heap, s'.heap, first, k);
      case GRecheck(k, first, e) => FindFrame(s.heap, s'.heap, first, k);
      case GUnlock(k, r) => SeenOn(s.hist, s'.hist, s.mark[u].since, k, r);
      case GDone(k, r) => SeenOn(s.hist, s'.hist, s.mark[u].since, k, r);
    }
  }

  /** A step of one thread keeps what is known of every other. */
  lemma OtherOk(s: State, s': State, t: nat, u: nat)
    requires Sized(s) && Sized(s') && Local(s, s', t) && u < |s.th| && u != t && ThreadOk(s, u)
    requires forall k :: KeyOk(s, k)
    ensures ThreadOk(s', u)
  {
    var th := s.th[u];
    if th.GFirst? {
      FirstOn(s, s', t, u, th.key);
    } else if th.CBin? || th.CKill? || th.CUnlock? {
      ClearOn(s, s', t, u);
    } else if th.GWalk? || th.GValue? || th.GLock? || th.GRecheck? || th.GUnlock? || th.GDone? {
      GetOn(s, s', t, u);
    } else {
      if th.RPublish? {
        assert Locked(th, Seg(th.key)) && MapKept(s, s', t, th.key);
      }
      if th.ZRehash? { assert Locked(th, 0); }
      LocksOn(s, s', t, u);
      hide OwnsLocks, Sized;
    }
  }

  // ---------- One lemma per kind of step ----------

  /** The parts of the invariant after a step of t. */
  lemma After(s: State, s': State, t: nat)
    requires Inv(s) && t < |s.th| && Sized(s') && Local(s, s', t) && ThreadOk(s', t)
    requires BinsOk(s'.heap, Cur(s')) && forall k :: KeyOk(s', k)
    ensures Inv(s')
  {
    forall u | 0 <= u < |s'.th| ensures ThreadOk(s', u) {
      if u != t { assert ThreadOk(s, u); OtherOk(s, s', t, u); }
    }
  }

  /** An excuse that another thread has stays. */
  lemma ExcuseOn(s: State, s': State, t: nat, key: Key)
    requires Sized(s) && Sized(s') && Local(s, s', t) && Excused(s, key) && t < |s.th|
    requires |Cur(s')| == |Cur(s)|
    requires s.locks[Seg(key)] == By(t) ==>
      s'.locks[Seg(key)] == By(t) && Removing(s'.th[t], key, |Cur(s')|)
    ensures Excused(s', key)
  {
    assert LockKept(s, s', t, Seg(key));
  }

  /** A step that changes no more than its thread's position, its mark and free locks or its own. */
  lemma MoveInv(s: State, s': State, t: nat)
    requires Inv(s) && t < |s.th| && s'.heap == s.heap && s'.tabs == s.tabs && s'.hist == s.hist
    requires |s'.locks| == SEGMENTS && |s'.th| == |s.th| == |s'.mark|
    requires forall u :: 0 <= u < |s.th| && u != t ==> s'.th[u] == s.th[u] && s'.mark[u] == s.mark[u]
    requires forall g :: 0 <= g < SEGMENTS ==> LockKept(s, s', t, g)
    requires !s.th[t].RPublish? && !s.th[t].CKill?
    requires ThreadOk(s', t)
    ensures Inv(s')
  {
    assert Sized(s') && Local(s, s', t);
    forall k ensures KeyOk(s', k) {
      assert KeyOk(s, k) && NodeOf(s', k) == NodeOf(s, k);
      if Excused(s, k) { ExcuseOn(s, s', t, k); }
    }
    After(s, s', t);
  }

  lemma StartInv(s: State, t: nat, th: Thread)
    requires Inv(s) && t < |s.th| && CanStart(s.th[t])
    requires th.GTable? || th.PLock? || th.RLock? || th == CLock(0) || (th.ZLock? && th.n == 0 && th.tab < |s.tabs|)
    ensures Inv(Begin(s, t, th))
  {
    assert ThreadOk(s, t);
    MoveInv(s, Begin(s, t, th), t);
  }

  lemma GetTableInv(s: State, t: nat)
    requires Inv(s) && t < |s.th| && s.th[t].GTable?
    ensures Inv(GetTable(s, t))
  {
    assert ThreadOk(s, t);
    MoveInv(s, GetTable(s, t), t);
  }

  lemma GetFirstInv(s: State, t: nat)
    requires Inv(s) && t < |s.th| && Safe(s, t) && s.th[t].GFirst?
    ensures Inv(GetFirst(s, t))
  {
    assert ThreadOk(s, t);
    var GFirst(k, tab) := s.th[t];
    assert KeyOk(s, k) && TabOk(s.tabs[tab], |s.heap|);
    CurrentIsRead(s, t, k);
    MoveInv(s, GetFirst(s, t), t);
  }

  lemma GetWalkInv(s: State, t: nat)
    requires Inv(s) && t < |s.th| && Safe(s, t) && s.th[t].GWalk?
    ensures Inv(GetWalk(s, t))
  {
    assert ThreadOk(s, t);
    if s.th[t].e != 0 { assert NodeOk(s.heap, s.th[t].e); }
    MoveInv(s, GetWalk(s, t), t);
  }

  lemma GetValueInv(s: State, t: nat)
    requires Inv(s) && t < |s.th| && Safe(s, t) && s.th[t].GValue?
    ensures Inv(GetValue(s, t))
  {
    assert ThreadOk(s, t) && NodeOk(s.heap, s.th[t].e);
    MoveInv(s, GetValue(s, t), t);
  }

  /** A thread that holds the lock of a key's segment and is not taking keys out sees no removed node. */
  lemma HeldIsNow(s: State, t: nat, key: Key)
    requires Inv(s) && t < |s.th| && s.locks[Seg(key)] == By(t) && !s.th[t].RPublish? && !s.th[t].CKill?
    ensures Held(s, key) == Lookup(Now(s), key)
    ensures NodeOf(s, key) != 0 <==> key in Now(s)
  {
    assert KeyOk(s, key);
  }

  lemma GetRecheckInv(s: State, t: nat)
    requires Inv(s) && t < |s.th| && s.th[t].GRecheck?
    ensures Inv(GetRecheck(s, t))
  {
    assert ThreadOk(s, t);
    var k := s.th[t].key;
    assert Locked(s.th[t], Seg(k));
    HeldIsNow(s, t, k);
    assert Lookup(s.hist[|s.hist| - 1], k) == Lookup(Now(s), k);
    MoveInv(s, GetRecheck(s, t), t);
  }

  lemma LockInv(s: State, t: nat)
    requires Inv(s) && t < |s.th| && Safe(s, t) && (s.th[t].GLock? || s.th[t].PLock? || s.th[t].RLock? || s.th[t].CLock?)
    ensures Inv(Lock(s, t))
  {
    assert ThreadOk(s, t);
    if Lock(s, t) != s { MoveInv(s, Lock(s, t), t); }
  }

  lemma UnlockInv(s: State, t: nat)
    requires Inv(s) && t < |s.th| && Safe(s, t)
    requires s.th[t].GUnlock? || s.th[t].PUnlock? || s.th[t].RUnlock? || s.th[t].CUnlock?
    ensures Inv(Unlock(s, t))
  {
    assert ThreadOk(s, t);
    assert Locked(s.th[t], if s.th[t].CUnlock? then s.th[t].seg else Seg(s.th[t].key));
    MoveInv(s, Unlock(s, t), t);
  }

  lemma ResizeLockInv(s: State, t: nat)
    requires Inv(s) && t < |s.th| && Safe(s, t) && s.th[t].ZLock?
    ensures Inv(ResizeLock(s, t))
  {
    assert ThreadOk(s, t);
    if ResizeLock(s, t) != s { MoveInv(s, ResizeLock(s, t), t); }
  }

  lemma ResizeUnlockInv(s: State, t: nat)
    requires Inv(s) && t < |s.th| && Safe(s, t) && s.th[t].ZUnlock?
    ensures Inv(ResizeUnlock(s, t))
  {
    assert ThreadOk(s, t);
    if s.th[t].n > 0 { assert Locked(s.th[t], s.th[t].n - 1); }
    MoveInv(s, ResizeUnlock(s, t), t);
  }

  lemma ClearBinInv(s: State, t: nat)
    requires Inv(s) && t < |s.th| && s.th[t].CBin?
    ensures Inv(ClearBin(s, t))
  {
    assert ThreadOk(s, t) && TabOk(Cur(s), |s.heap|);
    var CBin(g, i) := s.th[t];
    assert Locked(s.th[t], g);
    if i < |Cur(s)| && Cur(s)[i] != 0 { assert NodeOk(s.heap, Cur(s)[i]); }
    MoveInv(s, ClearBin(s, t), t);
  }

  // ---------- Stores that readers see ----------

  /** A change of values keeps the shape of chains. */
  lemma SizedOn(s: State, s': State)
    requires Sized(s) && SameLinks(s.heap, s'.heap) && |s'.heap| == |s.heap| && s'.tabs == s.tabs
    requires |s'.hist| > 0 && |s'.locks| == SEGMENTS && |s'.mark| == |s'.th|
    ensures Sized(s') && (BinsOk(s.heap, Cur(s)) ==> BinsOk(s'.heap, Cur(s')))
  {
    forall p | 0 < p < |s.heap| ensures NodeOk(s'.heap, p) {
      assert NodeOk(s.heap, p);
      FindFrame(s.heap, s'.heap, s.heap[p].next, s.heap[p].key);
    }
    assert TabOk(Cur(s), |s.heap|);
    forall b | 0 <= b < |Cur(s)| ensures Belong(s.heap, Cur(s)[b], b, |Cur(s)|) ==> Belong(s'.heap, Cur(s)[b], b, |Cur(s)|) {
      BelongFrame(s.heap, s'.heap, Cur(s)[b], b, |Cur(s)|);
    }
  }

  /** Thread t stores a value in the node of a key, and the map changes at that key to what the node
      then has. */
  ghost predicate StoresAt(s: State, s': State, t: nat, key: Key)
    requires Sized(s) && t < |s.th|
  {
    var x := NodeOf(s, key);
    && s.locks[Seg(key)] == By(t) && x != 0
    && |s'.hist| == |s.hist| + 1 && s.hist <= s'.hist
    && (forall k :: k != key ==> Lookup(Now(s'), k) == Lookup(Now(s), k))
    && s'.heap == s.heap[x := s.heap[x].(value := Lookup(Now(s'), key))]
    && s'.tabs == s.tabs && s'.locks == s.locks && |s'.th| == |s.th| == |s'.mark|
    && (forall u :: 0 <= u < |s.th| && u != t ==> s'.th[u] == s.th[u] && s'.mark[u] == s.mark[u])
  }

  lemma StoreKeeps(s: State, s': State, t: nat, key: Key)
    requires Inv(s) && t < |s.th| && StoresAt(s, s', t, key)
    requires
      var cap := |Cur(s)|;
      && cap > 0
      && (forall k :: Removing(s.th[t], k, cap) ==> Removing(s'.th[t], k, cap))
      && (key !in Now(s') ==> Removing(s'.th[t], key, cap))
    ensures Sized(s') && Local(s, s', t) && BinsOk(s'.heap, Cur(s')) && forall k :: KeyOk(s', k)
  {
    SizedOn(s, s');
    assert TabOk(Cur(s), |s.heap|);
    assert Local(s, s', t);
    forall k ensures KeyOk(s', k) {
      assert KeyOk(s, k);
      FindFrame(s.heap, s'.heap, First(s, k), k);
      assert k != key ==> Lookup(Now(s'), k) == Lookup(Now(s), k);
      if k != key && Excused(s, k) { ExcuseOn(s, s', t, k); }
    }
  }

  /** Thread t puts a chain that holds the map in the place of a bin of a segment it has locked. */
  ghost predicate Replaces(s: State, s': State, t: nat, b: nat)
    requires Sized(s) && t < |s.th|
  {
    && b < |Cur(s)| && s.locks[BinOf(b, SEGMENTS)] == By(t)
    && s.heap <= s'.heap && Extends(s.heap, s'.heap[|s.heap|..])
    && s.hist <= s'.hist && (forall k :: MapKept(s, s', t, k))
    && (forall k :: Bin(k, |Cur(s)|) != b ==> Lookup(Now(s'), k) == Lookup(Now(s), k))
    && |s'.tabs| == |s.tabs| && |Cur(s')| == |Cur(s)| && s'.tabs == s.tabs[|s.tabs| - 1 := Cur(s)[b := Cur(s')[b]]]
    && Cur(s')[b] < |s'.heap| && Belong(s'.heap, Cur(s')[b], b, |Cur(s)|)
    && (forall k :: Bin(k, |Cur(s)|) == b ==> Holds(s'.heap, Cur(s')[b], k, Now(s')))
    && s'.locks == s.locks && |s'.th| == |s.th| == |s'.mark|
    && (forall u :: 0 <= u < |s.th| && u != t ==> s'.th[u] == s.th[u] && s'.mark[u] == s.mark[u])
  }

  lemma Prefix(heap: seq<Node>, more: seq<Node>)
    requires heap <= more && Extends(heap, more[|heap|..]) && forall p :: 0 < p < |heap| ==> NodeOk(heap, p)
    ensures SameLinks(heap, more) && forall p :: 0 < p < |more| ==> NodeOk(more, p)
  {
    assert more == heap + more[|heap|..];
    forall p | 0 < p < |more| ensures NodeOk(more, p) {
      if p < |heap| {
        assert NodeOk(heap, p);
        FindFrame(heap, more, heap[p].next, heap[p].key);
      }
    }
  }

  lemma ReplaceKeeps(s: State, s': State, t: nat, b: nat)
    requires Inv(s) && t < |s.th| && Replaces(s, s', t, b)
    requires forall k :: Removing(s.th[t], k, |Cur(s)|) ==> Bin(k, |Cur(s)|) == b
    ensures Sized(s') && Local(s, s', t) && BinsOk(s'.heap, Cur(s')) && forall k :: KeyOk(s', k)
  {
    Prefix(s.heap, s'.heap);
    assert TabOk(Cur(s), |s.heap|);
    forall i | 0 <= i < |s'.tabs| ensures TabOk(s'.tabs[i], |s'.heap|) { assert TabOk(s.tabs[i], |s.heap|); }
    assert Sized(s');
    assert Local(s, s', t);
    forall c | 0 <= c < |Cur(s')| ensures Belong(s'.heap, Cur(s')[c], c, |Cur(s')|) {
      if c != b { BelongFrame(s.heap, s'.heap, Cur(s)[c], c, |Cur(s)|); }
    }
    forall k ensures KeyOk(s', k) {
      assert KeyOk(s, k);
      if Bin(k, |Cur(s)|) == b {
        assert Holds(s'.heap, Cur(s')[b], k, Now(s'));
      } else {
        FindFrame(s.heap, s'.heap, First(s, k), k);
        if Excused(s, k) { ExcuseOn(s, s', t, k); }
      }
    }
  }

  lemma PutOverInv(s: State, t: nat)
    requires Inv(s) && t < |s.th| && Safe(s, t) && s.th[t].PWrite? && NodeOf(s, s.th[t].key) != 0
    ensures Inv(PutWrite(s, t))
  {
    assert ThreadOk(s, t);
    var PWrite(k, v) := s.th[t];
    var s' := PutWrite(s, t);
    assert Locked(s.th[t], Seg(k));
    HeldIsNow(s, t, k);
    assert TabOk(Cur(s), |s.heap|);
    StoreKeeps(s, s', t, k);
    After(s, s', t);
  }

  lemma PutFrontInv(s: State, t: nat)
    requires Inv(s) && t < |s.th| && Safe(s, t) && s.th[t].PWrite? && NodeOf(s, s.th[t].key) == 0
    ensures Inv(PutWrite(s, t))
  {
    assert ThreadOk(s, t) && TabOk(Cur(s), |s.heap|);
    var PWrite(k, v) := s.th[t];
    var s' := PutWrite(s, t);
    assert Locked(s.th[t], Seg(k));
    HeldIsNow(s, t, k);
    BinSegment(k, |Cur(s)|);
    var b := Bin(k, |Cur(s)|);
    forall j | Bin(j, |Cur(s)|) == b ensures !Excused(s, j) { BinSegment(j, |Cur(s)|); }
    FrontHolds(s, s', k, v, b);
    ReplaceKeeps(s, s', t, b);
    After(s, s', t);
  }

  /** A new node in front of its bin. */
  lemma FrontHolds(s: State, s': State, key: Key, val: int, b: nat)
    requires Inv(s) && b == Bin(key, |Cur(s)|) && NodeOf(s, key) == 0 && |s'.hist| > 0 && |s'.tabs| > 0 && b < |Cur(s')|
    requires s'.heap == s.heap + [Node(key, First(s, key), Some(val))] && Cur(s')[b] == |s.heap|
    requires Now(s') == Now(s)[key := val] && forall k :: Bin(k, |Cur(s)|) == b && k !in Now(s) ==> !Excused(s, k)
    ensures Extends(s.heap, s'.heap[|s.heap|..]) && Belong(s'.heap, |s.heap|, b, |Cur(s)|)
    ensures forall k :: Bin(k, |Cur(s)|) == b ==> Holds(s'.heap, |s.heap|, k, Now(s'))
  {
    var n, first := |s.heap|, First(s, key);
    assert TabOk(Cur(s), |s.heap|);
    assert s'.heap[n..] == [s'.heap[n]] && s.heap + s'.heap[n..] == s'.heap;
    assert SameLinks(s.heap, s'.heap);
    FindFrame(s.heap, s'.heap, first, key);
    BelongFrame(s.heap, s'.heap, first, b, |Cur(s)|);
    forall k | Bin(k, |Cur(s)|) == b ensures Holds(s'.heap, n, k, Now(s')) {
      assert KeyOk(s, k);
      FindFrame(s.heap, s'.heap, first, k);
    }
  }

  lemma RemoveKillInv(s: State, t: nat)
    requires Inv(s) && t < |s.th| && Safe(s, t) && s.th[t].RKill?
    ensures Inv(RemoveKill(s, t))
  {
    assert ThreadOk(s, t) && TabOk(Cur(s), |s.heap|);
    var k, s' := s.th[t].key, RemoveKill(s, t);
    assert Locked(s.th[t], Seg(k));
    HeldIsNow(s, t, k);
    if s'.th[t].RPublish? {
      StoreKeeps(s, s', t, k);
      After(s, s', t);
    } else {
      MoveInv(s, s', t);
    }
  }

  lemma RemovePublishInv(s: State, t: nat, nodes: seq<Node>, bins: seq<nat>)
    requires Inv(s) && t < |s.th| && s.th[t].RPublish? && Safe(s, t)
    ensures Inv(RemovePublish(s, t, nodes, bins))
  {
    assert ThreadOk(s, t) && TabOk(Cur(s), |s.heap|);
    var k, s' := s.th[t].key, RemovePublish(s, t, nodes, bins);
    if s' != s {
      assert Locked(s.th[t], Seg(k));
      BinSegment(k, |Cur(s)|);
      assert s'.heap[|s.heap|..] == nodes;
      ReplaceKeeps(s, s', t, Bin(k, |Cur(s)|));
      After(s, s', t);
    }
  }

  lemma AheadOn(s: State, s': State, i: nat, e: nat, key: Key)
    requires Sized(s) && Sized(s') && i < |Cur(s)| && OnlyAhead(s, i, e) && s'.tabs == s.tabs
    requires SameLinks(s.heap, s'.heap) && Now(s') == Now(s) - {key} && Links(s.heap, e) && s.heap[e].key == key
    ensures OnlyAhead(s', i, s.heap[e].next)
  {
    assert TabOk(Cur(s), |s.heap|);
    var next := s.heap[e].next;
    forall j | j in Now(s') && Bin(j, |Cur(s')|) == i ensures Find(s'.heap, next, j) == NodeOf(s', j) {
      FindFrame(s.heap, s'.heap, next, j);
      FindFrame(s.heap, s'.heap, First(s, j), j);
    }
  }

  lemma ClearNodeInv(s: State, t: nat)
    requires Inv(s) && t < |s.th| && Safe(s, t) && s.th[t].CKill? && s.th[t].e != 0
    ensures Inv(ClearKill(s, t))
  {
    assert ThreadOk(s, t) && TabOk(Cur(s), |s.heap|);
    var CKill(g, i, e) := s.th[t];
    var s' := ClearKill(s, t);
    var k, next := s.heap[e].key, s.heap[e].next;
    assert Locked(s.th[t], g) && NodeOk(s.heap, e);
    OnlyOne(s.heap, Cur(s)[i], e, k);
    InItsBin(s.heap, Cur(s)[i], e, i, |Cur(s)|);
    BinSegment(k, |Cur(s)|);
    StoreKeeps(s, s', t, k);
    if next != 0 {
      assert NodeOk(s.heap, next);
      ChainNext(s.heap, Cur(s)[i], e);
      ChainFrame(s.heap, s'.heap, Cur(s)[i], next);
    }
    AheadOn(s, s', i, e, k);
    After(s, s', t);
  }

  /** A bin whose nodes are all marked has no key left. */
  lemma BinCleared(s: State, t: nat)
    requires Inv(s) && t < |s.th| && s.th[t].CKill? && s.th[t].e == 0
    ensures s.th[t].i < |Cur(s)|
    ensures forall k :: Bin(k, |Cur(s)|) == s.th[t].i ==> k !in Now(s)
  {
    assert ThreadOk(s, t) && TabOk(Cur(s), |s.heap|);
    forall k | Bin(k, |Cur(s)|) == s.th[t].i ensures k !in Now(s) { assert KeyOk(s, k); }
  }

  lemma ClearEmptyInv(s: State, t: nat)
    requires Inv(s) && t < |s.th| && Safe(s, t) && s.th[t].CKill? && s.th[t].e == 0
    ensures Inv(ClearKill(s, t))
  {
    assert ThreadOk(s, t) && TabOk(Cur(s), |s.heap|);
    var CKill(g, i, e) := s.th[t];
    var s' := ClearKill(s, t);
    assert Locked(s.th[t], g);
    BinCleared(s, t);
    assert s'.heap[|s.heap|..] == [];
    ReplaceKeeps(s, s', t, i);
    AddOne(i, SEGMENTS);
    forall b | i < b < i + SEGMENTS ensures BinOf(b, SEGMENTS) != g { Between(i, b, SEGMENTS); }
    After(s, s', t);
  }

  lemma ResizePublishInv(s: State, t: nat, nodes: seq<Node>, bins: seq<nat>)
    requires Inv(s) && t < |s.th| && s.th[t].ZRehash? && Safe(s, t)
    ensures Inv(ResizePublish(s, t, nodes, bins))
  {
    assert ThreadOk(s, t) && TabOk(Cur(s), |s.heap|);
    var s' := ResizePublish(s, t, nodes, bins);
    forall g | 0 <= g < SEGMENTS ensures s.locks[g] == By(t) { assert Locked(s.th[t], g); }
    if |s'.tabs| == |s.tabs| {
      if s' != s { MoveInv(s, s', t); }
    } else {
      assert s'.heap[|s.heap|..] == nodes;
      Prefix(s.heap, s'.heap);
      DoubledPower(|Cur(s)|);
      forall i | 0 <= i < |s'.tabs| ensures TabOk(s'.tabs[i], |s'.heap|) {
        if i < |s.tabs| { assert TabOk(s.tabs[i], |s.heap|); }
      }
      assert Sized(s') && Local(s, s', t);
      forall k ensures KeyOk(s', k) { assert Holds(s'.heap, bins[Bin(k, |bins|)], k, Now(s)); }
      After(s, s', t);
    }
  }

  lemma DoubledPower(n: nat)
    requires PowerOfTwo(n)
    ensures PowerOfTwo(2 * n)
  {
    assert 2 * n / 2 == n;
  }

  lemma GoInv(s: State, t: nat, nodes: seq<Node>, bins: seq<nat>)
    requires Inv(s) && t < |s.th| && Safe(s, t)
    ensures Inv(GoStep(s, t, nodes, bins))
  {
    match s.th[t] {
      case GTable(_) => GetTableInv(s, t);
      case GFirst(_, _) => GetFirstInv(s, t);
      case GWalk(_, _, _) => GetWalkInv(s, t);
      case GValue(_, _, _) => GetValueInv(s, t);
      case GRecheck(_, _, _) => GetRecheckInv(s, t);
      case PWrite(k, _) => if NodeOf(s, k) != 0 { PutOverInv(s, t); } else { PutFrontInv(s, t); }
      case RKill(_, _) => RemoveKillInv(s, t);
      case RPublish(_, _, _) => RemovePublishInv(s, t, nodes, bins);
      case CBin(_, _) => ClearBinInv(s, t);
      case CKill(_, _, e) => if e != 0 { ClearNodeInv(s, t); } else { ClearEmptyInv(s, t); }
      case ZLock(_, _) => ResizeLockInv(s, t);
      case ZRehash(_) => ResizePublishInv(s, t, nodes, bins);
      case ZUnlock(_) => ResizeUnlockInv(s, t);
      case GLock(_, _, _) => LockInv(s, t);
      case PLock(_, _) => LockInv(s, t);
      case RLock(_, _) => LockInv(s, t);
      case CLock(_) => LockInv(s, t);
      case GUnlock(_, _) => UnlockInv(s, t);
      case PUnlock(_, _, _) => UnlockInv(s, t);
      case RUnlock(_, _, _) => UnlockInv(s, t);
      case CUnlock(_) => UnlockInv(s, t);
      case _ =>
    }
  }

  /** Every action keeps the invariant. */
  lemma StepInv(s: State, a: Action)
    requires Inv(s)
    ensures Inv(Step(s, a))
  {
    if a.tid < |s.th| {
      assert ThreadOk(s, a.tid);
      hide GoStep, ThreadOk, KeyOk, Sized, BinsOk;
      match a {
        case Go(t, nodes, bins) => assert Safe(s, t); GoInv(s, t, nodes, bins);
        case StartGet(t, k) => if CanStart(s.th[t]) { StartInv(s, t, GTable(k)); }
        case StartPut(t, k, v) => if CanStart(s.th[t]) { StartInv(s, t, PLock(k, v)); }
        case StartRemove(t, k, only) => if CanStart(s.th[t]) { StartInv(s, t, RLock(k, only)); }
        case StartClear(t) => if CanStart(s.th[t]) { StartInv(s, t, CLock(0)); }
        case StartResize(t, tab) => if CanStart(s.th[t]) && tab < |s.tabs| { StartInv(s, t, ZLock(0, tab)); }
      }
    }
  }

  lemma InitInv(cap: nat, threads: nat)
    requires SEGMENTS <= cap && PowerOfTwo(cap)
    ensures Inv(Init(cap, threads))
  {
    var s := Init(cap, threads);
    forall k ensures KeyOk(s, k) {}
  }

  /** The state after a schedule: any interleaving of the threads. */
  ghost function Run(s: State, sched: seq<Action>): (s': State)
    requires Inv(s)
    ensures Inv(s')
    decreases |sched|
  {
    if sched == [] then s else
    StepInv(s, sched[0]);
    Run(Step(s, sched[0]), sched[1..])
  }
}
