/** The concurrency of concurrent-hashmap/ConcurrentHashMap.java as a state machine: `get` walks a bin
    without a lock while `put`, `remove`, `clear` and the rehash of a resize change the table.

    A step makes at most one store that a reader without a lock can see, and such a reader makes one
    load in a step. What a thread does under the lock of a segment between two such stores is one
    step, as nobody else may write there. Nodes are named by their index in `heap`, in the order they
    were allocated; index 0 is null. Tables are named by their index in `tabs`; the last one is
    current. */
module JavaMapModel {
  import opened PowersOfTwo

  const SEGMENTS := 32
  const MAXIMUM_CAPACITY := 0x4000_0000

  datatype Option<T> = None | Some(value: T)

  /** Keys may have hash codes in common. */
  datatype Key = Key(hash: int, id: int)

  /** No value means that the node was removed. */
  datatype Node = Node(key: Key, next: nat, value: Option<int>)

  type Contents = map<Key, int>

  datatype Thread =
    | Idle
    // get
    | GTable(key: Key)
    | GFirst(key: Key, tab: nat)
    | GWalk(key: Key, first: nat, e: nat)
    | GValue(key: Key, first: nat, e: nat)
    | GLock(key: Key, first: nat, e: nat)
    | GRecheck(key: Key, first: nat, e: nat)
    | GUnlock(key: Key, res: Option<int>)
    | GDone(key: Key, res: Option<int>)
    // put
    | PLock(key: Key, val: int)
    | PWrite(key: Key, val: int)
    | PUnlock(key: Key, val: int, res: Option<int>)
    | PDone(key: Key, val: int, res: Option<int>)
    // remove, of any value if `only` is None
    | RLock(key: Key, only: Option<int>)
    | RKill(key: Key, only: Option<int>)
    | RPublish(key: Key, only: Option<int>, res: Option<int>)
    | RUnlock(key: Key, only: Option<int>, res: Option<int>)
    | RDone(key: Key, only: Option<int>, res: Option<int>)
    // clear
    | CLock(seg: nat)
    | CBin(seg: nat, i: nat)
    | CKill(seg: nat, i: nat, e: nat)
    | CUnlock(seg: nat)
    | CDone
    // resize, with the locks of the segments below n
    | ZLock(n: nat, tab: nat)
    | ZRehash(tab: nat)
    | ZUnlock(n: nat)

  datatype Holder = Nobody | By(tid: nat)

  /** The moments when an operation began and when it took effect. */
  datatype Mark = Mark(since: nat, at: nat)

  /** `hist`, the maps there have been, `who`, the thread that changed each into the next, and `mark` only observe. */
  datatype State = State(
    heap: seq<Node>, tabs: seq<seq<nat>>, locks: seq<Holder>, th: seq<Thread>,
    hist: seq<Contents>, who: seq<nat>, mark: seq<Mark>)

  /** `nodes` and `bins` are what a rehash, or the rebuilding of a bin with its new first node in
      `bins[0]`, makes privately before it publishes. */
  datatype Action =
    | StartGet(tid: nat, key: Key)
    | StartPut(tid: nat, key: Key, val: int)
    | StartRemove(tid: nat, key: Key, only: Option<int>)
    | StartClear(tid: nat)
    | StartResize(tid: nat, tab: nat)
    | Go(tid: nat, nodes: seq<Node>, bins: seq<nat>)

  // ---------- Chains ----------

  /** A link leads to an older node, so every walk ends. */
  predicate Links(heap: seq<Node>, p: nat) {
    0 < p < |heap| && heap[p].next < p
  }

  /** The first node with this key on the chain from p; 0 if there is none. */
  function Find(heap: seq<Node>, p: nat, key: Key): (e: nat)
    ensures e != 0 ==> e < |heap| && heap[e].key == key
  {
    if !Links(heap, p) then 0
    else if heap[p].key == key then p
    else Find(heap, heap[p].next, key)
  }

  /** Node q is on the chain from p. */
  predicate OnChain(heap: seq<Node>, p: nat, q: nat) {
    Links(heap, p) && (p == q || OnChain(heap, heap[p].next, q))
  }

  function Bin(key: Key, cap: nat): (b: nat)
    requires cap > 0
    ensures b < cap
  {
    BinOf(key.hash, cap)
  }

  function Seg(key: Key): (s: nat)
    ensures s < SEGMENTS
  {
    BinOf(key.hash, SEGMENTS)
  }

  /** Every node on the chain from p belongs in bin b of a table of size cap. */
  predicate Belong(heap: seq<Node>, p: nat, b: nat, cap: nat)
    requires cap > 0
  {
    Links(heap, p) ==> Bin(heap[p].key, cap) == b && Belong(heap, heap[p].next, b, cap)
  }

  function Lookup(m: Contents, key: Key): Option<int> {
    if key in m then Some(m[key]) else None
  }

  predicate Removes(m: Contents, key: Key, only: Option<int>) {
    key in m && (only == None || only.value == m[key])
  }

  // ---------- The invariant ----------

  /** Nodes link to older ones and are the only ones with their key from there on. */
  ghost predicate NodeOk(heap: seq<Node>, p: nat) {
    Links(heap, p) && Find(heap, heap[p].next, heap[p].key) == 0
  }

  ghost predicate TabOk(tab: seq<nat>, n: nat) {
    SEGMENTS <= |tab| && PowerOfTwo(|tab|) && forall b :: 0 <= b < |tab| ==> tab[b] < n
  }

  ghost predicate Sized(s: State) {
    && |s.tabs| > 0 && |s.hist| > 0 && |s.heap| > 0 && |s.locks| == SEGMENTS && |s.mark| == |s.th|
    && (forall p :: 0 < p < |s.heap| ==> NodeOk(s.heap, p))
    && (forall i :: 0 <= i < |s.tabs| ==> TabOk(s.tabs[i], |s.heap|))
  }

  /** The current table. */
  function Cur(s: State): seq<nat>
    requires |s.tabs| > 0
  {
    s.tabs[|s.tabs| - 1]
  }

  /** The current map. */
  function Now(s: State): Contents
    requires |s.hist| > 0
  {
    s.hist[|s.hist| - 1]
  }

  ghost function First(s: State, key: Key): (p: nat)
    requires Sized(s)
    ensures p < |s.heap|
  {
    assert TabOk(Cur(s), |s.heap|);
    Cur(s)[Bin(key, |Cur(s)|)]
  }

  /** The node of a key in the current table. */
  ghost function NodeOf(s: State, key: Key): (x: nat)
    requires Sized(s)
    ensures x < |s.heap|
  {
    Find(s.heap, First(s, key), key)
  }

  /** Whether a thread has marked the node of a key as removed and not yet taken it out. */
  predicate Removing(th: Thread, key: Key, cap: nat)
    requires cap > 0
  {
    match th
    case RPublish(k, _, _) => k == key
    case CKill(_, i, _) => Bin(key, cap) == i
    case _ => false
  }

  ghost predicate Excused(s: State, key: Key)
    requires Sized(s)
  {
    assert TabOk(Cur(s), |s.heap|);
    var h := s.locks[Seg(key)];
    h.By? && h.tid < |s.th| && Removing(s.th[h.tid], key, |Cur(s)|)
  }

  /** What the current table has for a key; only while its segment is locked by a thread that is taking
      it out may it still have a removed node. */
  ghost predicate KeyOk(s: State, key: Key)
    requires Sized(s)
  {
    var x := NodeOf(s, key);
    if x == 0 then key !in Now(s)
    else s.heap[x].value == Lookup(Now(s), key) && (key !in Now(s) ==> Excused(s, key))
  }

  ghost predicate BinsOk(heap: seq<Node>, tab: seq<nat>) {
    |tab| > 0 && forall b :: 0 <= b < |tab| ==> Belong(heap, tab[b], b, |tab|)
  }

  /** At some moment since an operation began the map had this for the key. */
  ghost predicate SeenSince(hist: seq<Contents>, since: nat, key: Key, res: Option<int>) {
    exists i :: since <= i < |hist| && Lookup(hist[i], key) == res
  }

  /** What a walk from p would return without a lock was there since the call began. */
  ghost predicate ReadOk(s: State, t: nat, p: nat, key: Key)
    requires t < |s.mark|
  {
    var x := Find(s.heap, p, key);
    x != 0 && s.heap[x].value.Some? ==> SeenSince(s.hist, s.mark[t].since, key, s.heap[x].value)
  }

  /** A put took effect in its call and returns what was there. */
  ghost predicate PutAt(hist: seq<Contents>, m: Mark, key: Key, val: int, res: Option<int>) {
    && m.since <= m.at && m.at + 1 < |hist|
    && res == Lookup(hist[m.at], key) && hist[m.at + 1] == hist[m.at][key := val]
  }

  /** A remove took effect in its call and returns what it took out, or found nothing to take out. */
  ghost predicate RemovedAt(hist: seq<Contents>, m: Mark, key: Key, only: Option<int>, res: Option<int>) {
    && m.since <= m.at < |hist|
    && res == (if Removes(hist[m.at], key, only) then Lookup(hist[m.at], key) else None)
    && (res.Some? ==> m.at + 1 < |hist| && hist[m.at + 1] == hist[m.at] - {key})
  }

  /** Whether a program point is between lock and unlock of a segment. */
  predicate Locked(th: Thread, s: nat) {
    match th
    case GRecheck(k, _, _) => s == Seg(k)
    case GUnlock(k, _) => s == Seg(k)
    case PWrite(k, _) => s == Seg(k)
    case PUnlock(k, _, _) => s == Seg(k)
    case RKill(k, _) => s == Seg(k)
    case RPublish(k, _, _) => s == Seg(k)
    case RUnlock(k, _, _) => s == Seg(k)
    case CBin(seg, _) => s == seg
    case CKill(seg, _, _) => s == seg
    case CUnlock(seg) => s == seg
    case ZLock(n, _) => s < n
    case ZRehash(_) => true
    case ZUnlock(n) => s < n
    case _ => false
  }

  ghost predicate OwnsLocks(s: State, t: nat)
    requires |s.locks| == SEGMENTS && t < |s.th|
  {
    forall g :: 0 <= g < SEGMENTS && Locked(s.th[t], g) ==> s.locks[g] == By(t)
  }

  /** The bins of a segment below i are empty. */
  ghost predicate Emptied(s: State, seg: nat, i: nat)
    requires Sized(s)
  {
    forall b :: 0 <= b < i && b < |Cur(s)| && BinOf(b, SEGMENTS) == seg ==> Cur(s)[b] == 0
  }

  /** The keys of bin i that the map still has are on the chain from e. */
  ghost predicate OnlyAhead(s: State, i: nat, e: nat)
    requires Sized(s) && i < |Cur(s)|
  {
    assert TabOk(Cur(s), |s.heap|);
    forall k :: k in Now(s) && Bin(k, |Cur(s)|) == i ==> Find(s.heap, e, k) == NodeOf(s, k)
  }

  ghost predicate ThreadOk(s: State, t: nat)
    requires Sized(s) && t < |s.th|
  {
    && s.mark[t].since < |s.hist|
    && OwnsLocks(s, t)
    && match s.th[t]
       case GFirst(k, tab) =>
         assert tab < |s.tabs| ==> TabOk(s.tabs[tab], |s.heap|);
         tab < |s.tabs| && (tab + 1 < |s.tabs| ==> ReadOk(s, t, s.tabs[tab][Bin(k, |s.tabs[tab]|)], k))
       case GWalk(k, first, e) =>
         first < |s.heap| && e < |s.heap| && ReadOk(s, t, e, k) && Find(s.heap, first, k) == Find(s.heap, e, k)
       case GValue(k, first, e) =>
         0 < e < |s.heap| && first < |s.heap| && s.heap[e].key == k && ReadOk(s, t, e, k)
       case GLock(k, first, e) => first < |s.heap| && (e == 0 ==> Find(s.heap, first, k) == 0)
       case GRecheck(k, first, e) => first < |s.heap| && (e == 0 ==> Find(s.heap, first, k) == 0)
       case GUnlock(k, r) => SeenSince(s.hist, s.mark[t].since, k, r)
       case GDone(k, r) => SeenSince(s.hist, s.mark[t].since, k, r)
       case PUnlock(k, v, r) => PutAt(s.hist, s.mark[t], k, v, r)
       case PDone(k, v, r) => PutAt(s.hist, s.mark[t], k, v, r)
       case RPublish(k, only, r) => RemovedAt(s.hist, s.mark[t], k, only, r) && r.Some? && k !in Now(s)
       case RUnlock(k, only, r) => RemovedAt(s.hist, s.mark[t], k, only, r)
       case RDone(k, only, r) => RemovedAt(s.hist, s.mark[t], k, only, r)
       case CLock(g) => g < SEGMENTS
       case CBin(g, i) => g < SEGMENTS && BinOf(i, SEGMENTS) == g && Emptied(s, g, i)
       case CKill(g, i, e) =>
         g < SEGMENTS && BinOf(i, SEGMENTS) == g && Emptied(s, g, i) && i < |Cur(s)| && e < |s.heap|
         && (e != 0 ==> OnChain(s.heap, Cur(s)[i], e)) && OnlyAhead(s, i, e)
       case CUnlock(g) => g < SEGMENTS && Emptied(s, g, |Cur(s)|)
       case ZLock(n, tab) => n < SEGMENTS && tab < |s.tabs|
       case ZRehash(tab) => tab + 1 == |s.tabs|
       case ZUnlock(n) => n <= SEGMENTS
       case _ => true
  }

  ghost predicate Inv(s: State) {
    && Sized(s) && BinsOk(s.heap, Cur(s))
    && (forall k :: KeyOk(s, k))
    && (forall t :: 0 <= t < |s.th| ==> ThreadOk(s, t))
  }

  // ---------- The steps ----------

  predicate CanStart(th: Thread) {
    th.Idle? || th.GDone? || th.PDone? || th.RDone? || th.CDone?
  }

  /** Every node, bin and lock the thread's next step uses exists. */
  ghost predicate Safe(s: State, t: nat) {
    && Sized(s) && t < |s.th|
    && match s.th[t]
       case GFirst(_, tab) => tab < |s.tabs|
       case GWalk(_, _, e) => e < |s.heap|
       case GValue(_, _, e) => e < |s.heap|
       case CLock(g) => g < SEGMENTS
       case CKill(g, i, e) => e < |s.heap| && i < |Cur(s)|
       case CUnlock(g) => g < SEGMENTS
       case ZLock(n, _) => n < SEGMENTS
       case ZUnlock(n) => n <= SEGMENTS
       case _ => true
  }

  function SetTh(s: State, t: nat, th: Thread): State
    requires t < |s.th|
  {
    s.(th := s.th[t := th])
  }

  /** The map changes: the operation takes effect. */
  function Change(s: State, t: nat, m: Contents): State
    requires t < |s.mark| && |s.hist| > 0
  {
    s.(hist := s.hist + [m], who := s.who + [t], mark := s.mark[t := s.mark[t].(at := |s.hist| - 1)])
  }

  /** The operation takes effect without changing the map. */
  function Settle(s: State, t: nat): State
    requires t < |s.mark| && |s.hist| > 0
  {
    s.(mark := s.mark[t := s.mark[t].(at := |s.hist| - 1)])
  }

  function SetLock(s: State, g: nat, h: Holder): State
    requires g < |s.locks|
  {
    s.(locks := s.locks[g := h])
  }

  function SetBin(s: State, b: nat, p: nat): State
    requires |s.tabs| > 0 && b < |Cur(s)|
  {
    s.(tabs := s.tabs[|s.tabs| - 1 := Cur(s)[b := p]])
  }

  function SetValue(s: State, x: nat, v: Option<int>): State
    requires x < |s.heap|
  {
    s.(heap := s.heap[x := s.heap[x].(value := v)])
  }

  /** The call of an operation. */
  function Begin(s: State, t: nat, th: Thread): State
    requires t < |s.th| == |s.mark| && |s.hist| > 0
  {
    SetTh(s, t, th).(mark := s.mark[t := Mark(|s.hist| - 1, |s.hist| - 1)])
  }

  /** Line 440. */
  ghost function GetTable(s: State, t: nat): State
    requires Safe(s, t) && s.th[t].GTable?
  {
    SetTh(s, t, GFirst(s.th[t].key, |s.tabs| - 1))
  }

  /** Lines 441-442; the table may have been replaced since it was read. */
  ghost function GetFirst(s: State, t: nat): State
    requires Safe(s, t) && s.th[t].GFirst?
  {
    var GFirst(k, tab) := s.th[t];
    assert TabOk(s.tabs[tab], |s.heap|);
    var first := s.tabs[tab][Bin(k, |s.tabs[tab]|)];
    SetTh(s, t, GWalk(k, first, first))
  }

  /** Lines 445-446. */
  ghost function GetWalk(s: State, t: nat): State
    requires Safe(s, t) && s.th[t].GWalk?
  {
    var GWalk(k, first, e) := s.th[t];
    SetTh(s, t, if e == 0 then GLock(k, first, 0)
                else if s.heap[e].key == k then GValue(k, first, e)
                else GWalk(k, first, s.heap[e].next))
  }

  /** Lines 447-451: a node that was removed sends the reader to the lock. */
  ghost function GetValue(s: State, t: nat): State
    requires Safe(s, t) && s.th[t].GValue?
  {
    var GValue(k, first, e) := s.th[t];
    SetTh(s, t, if s.heap[e].value.Some? then GDone(k, s.heap[e].value) else GLock(k, first, e))
  }

  /** What is in the node of a key. */
  ghost function Held(s: State, key: Key): Option<int>
    requires Sized(s)
  {
    if NodeOf(s, key) == 0 then None else s.heap[NodeOf(s, key)].value
  }

  /** Lines 458-468, under the lock. */
  ghost function GetRecheck(s: State, t: nat): State
    requires Safe(s, t) && s.th[t].GRecheck?
  {
    var GRecheck(k, first, e) := s.th[t];
    SetTh(s, t, GUnlock(k, if e != 0 || first != First(s, k) then Held(s, k) else None))
  }

  /** Lines 456, 512, 692 and 816. */
  ghost function Lock(s: State, t: nat): State
    requires Safe(s, t) && (s.th[t].GLock? || s.th[t].PLock? || s.th[t].RLock? || s.th[t].CLock?)
  {
    var (g, th) :=
      match s.th[t]
      case GLock(k, first, e) => (Seg(k), GRecheck(k, first, e))
      case PLock(k, v) => (Seg(k), PWrite(k, v))
      case RLock(k, only) => (Seg(k), RKill(k, only))
      case CLock(seg) => (seg, CBin(seg, seg));
    if s.locks[g] != Nobody then s else SetLock(SetTh(s, t, th), g, By(t))
  }

  ghost function Unlock(s: State, t: nat): State
    requires Safe(s, t) && (s.th[t].GUnlock? || s.th[t].PUnlock? || s.th[t].RUnlock? || s.th[t].CUnlock?)
  {
    var (g, th) :=
      match s.th[t]
      case GUnlock(k, r) => (Seg(k), GDone(k, r))
      case PUnlock(k, v, r) => (Seg(k), PDone(k, v, r))
      case RUnlock(k, only, r) => (Seg(k), RDone(k, only, r))
      case CUnlock(seg) => (seg, if seg + 1 < SEGMENTS then CLock(seg + 1) else CDone);
    SetLock(SetTh(s, t, th), g, Nobody)
  }

  /** Lines 513-534: a store over the old value, or a new node in front of the bin. */
  ghost function PutWrite(s: State, t: nat): State
    requires Safe(s, t) && s.th[t].PWrite?
  {
    var PWrite(k, v) := s.th[t];
    var s' := Change(SetTh(s, t, PUnlock(k, v, Held(s, k))), t, Now(s)[k := v]);
    var x := NodeOf(s, k);
    if x != 0 then SetValue(s', x, Some(v)) else
    assert TabOk(Cur(s), |s.heap|);
    SetBin(s'.(heap := s.heap + [Node(k, First(s, k), Some(v))]), Bin(k, |Cur(s)|), |s.heap|)
  }

  /** Lines 693-710: the node is marked as removed, if there is one with that value. */
  ghost function RemoveKill(s: State, t: nat): State
    requires Safe(s, t) && s.th[t].RKill?
  {
    var RKill(k, only) := s.th[t];
    var (x, was) := (NodeOf(s, k), Held(s, k));
    if x == 0 || (only.Some? && only != was) then Settle(SetTh(s, t, RUnlock(k, only, None)), t) else
    SetValue(Change(SetTh(s, t, RPublish(k, only, was)), t, Now(s) - {k}), x, None)
  }

  /** What a chain has for a key is what the map has. */
  ghost predicate Holds(heap: seq<Node>, p: nat, key: Key, m: Contents) {
    var x := Find(heap, p, key);
    if x == 0 then key !in m else heap[x].value == Lookup(m, key) && key in m
  }

  /** The heap with new nodes that link only to older ones, one for each key of a chain. */
  ghost predicate Extends(heap: seq<Node>, nodes: seq<Node>) {
    forall p :: |heap| <= p < |heap| + |nodes| ==> NodeOk(heap + nodes, p)
  }

  /** What `Tables.RemovedOk` proves of lines 712-714: a chain for bin b that holds the map. */
  ghost predicate Rebuilt(s: State, nodes: seq<Node>, head: nat, b: nat)
    requires |s.tabs| > 0 && |s.hist| > 0 && b < |Cur(s)|
  {
    var heap := s.heap + nodes;
    && Extends(s.heap, nodes) && head < |heap| && Belong(heap, head, b, |Cur(s)|)
    && forall k :: Bin(k, |Cur(s)|) == b ==> Holds(heap, head, k, Now(s))
  }

  /** Line 715. */
  ghost function RemovePublish(s: State, t: nat, nodes: seq<Node>, bins: seq<nat>): State
    requires Safe(s, t) && s.th[t].RPublish?
  {
    var RPublish(k, only, r) := s.th[t];
    assert TabOk(Cur(s), |s.heap|);
    var b := Bin(k, |Cur(s)|);
    if |bins| == 0 || !Rebuilt(s, nodes, bins[0], b) then s else
    SetBin(SetTh(s, t, RUnlock(k, only, r)).(heap := s.heap + nodes), b, bins[0])
  }

  /** Line 819: the next bin of the segment. */
  ghost function ClearBin(s: State, t: nat): State
    requires Safe(s, t) && s.th[t].CBin?
  {
    var CBin(g, i) := s.th[t];
    assert TabOk(Cur(s), |s.heap|);
    SetTh(s, t, if i < |Cur(s)| then CKill(g, i, Cur(s)[i]) else CUnlock(g))
  }

  /** Lines 820-821: marks one node as removed, or empties the bin when all are. */
  ghost function ClearKill(s: State, t: nat): State
    requires Safe(s, t) && s.th[t].CKill?
  {
    var CKill(g, i, e) := s.th[t];
    if e == 0 then SetBin(SetTh(s, t, CBin(g, i + SEGMENTS)), i, 0) else
    SetValue(Change(SetTh(s, t, CKill(g, i, s.heap[e].next)), t, Now(s) - {s.heap[e].key}), e, None)
  }

  /** Lines 563-569: gathers the locks in order, as long as the table is the assumed one. */
  ghost function ResizeLock(s: State, t: nat): State
    requires Safe(s, t) && s.th[t].ZLock?
  {
    var ZLock(n, tab) := s.th[t];
    if s.locks[n] != Nobody then s else
    SetLock(SetTh(s, t, if tab + 1 != |s.tabs| then ZUnlock(n + 1)
                        else if n + 1 < SEGMENTS then ZLock(n + 1, tab) else ZRehash(tab)), n, By(t))
  }

  /** What `Rehash.RehashKeepsMap` proves of lines 590-641: a table of twice the size that holds the
      map. No old node is written. */
  ghost predicate Rehashed(s: State, nodes: seq<Node>, bins: seq<nat>)
    requires |s.tabs| > 0 && |s.hist| > 0
  {
    var heap := s.heap + nodes;
    && Extends(s.heap, nodes) && |bins| == 2 * |Cur(s)| > 0
    && (forall b :: 0 <= b < |bins| ==> bins[b] < |heap|) && BinsOk(heap, bins)
    && forall k :: Holds(heap, bins[Bin(k, |bins|)], k, Now(s))
  }

  /** Lines 579-644: the new table replaces the old one in one store. */
  ghost function ResizePublish(s: State, t: nat, nodes: seq<Node>, bins: seq<nat>): State
    requires Safe(s, t) && s.th[t].ZRehash?
  {
    if |Cur(s)| >= MAXIMUM_CAPACITY then SetTh(s, t, ZUnlock(SEGMENTS))
    else if !Rehashed(s, nodes, bins) then s
    else SetTh(s, t, ZUnlock(SEGMENTS)).(heap := s.heap + nodes, tabs := s.tabs + [bins])
  }

  ghost function ResizeUnlock(s: State, t: nat): State
    requires Safe(s, t) && s.th[t].ZUnlock?
  {
    var n := s.th[t].n;
    if n == 0 then SetTh(s, t, Idle) else SetLock(SetTh(s, t, ZUnlock(n - 1)), n - 1, Nobody)
  }

  ghost function GoStep(s: State, t: nat, nodes: seq<Node>, bins: seq<nat>): State
    requires Safe(s, t)
  {
    match s.th[t]
    case GTable(_) => GetTable(s, t)
    case GFirst(_, _) => GetFirst(s, t)
    case GWalk(_, _, _) => GetWalk(s, t)
    case GValue(_, _, _) => GetValue(s, t)
    case GLock(_, _, _) => Lock(s, t)
    case GRecheck(_, _, _) => GetRecheck(s, t)
    case GUnlock(_, _) => Unlock(s, t)
    case PLock(_, _) => Lock(s, t)
    case PWrite(_, _) => PutWrite(s, t)
    case PUnlock(_, _, _) => Unlock(s, t)
    case RLock(_, _) => Lock(s, t)
    case RKill(_, _) => RemoveKill(s, t)
    case RPublish(_, _, _) => RemovePublish(s, t, nodes, bins)
    case RUnlock(_, _, _) => Unlock(s, t)
    case CLock(_) => Lock(s, t)
    case CBin(_, _) => ClearBin(s, t)
    case CKill(_, _, _) => ClearKill(s, t)
    case CUnlock(_) => Unlock(s, t)
    case ZLock(_, _) => ResizeLock(s, t)
    case ZRehash(_) => ResizePublish(s, t, nodes, bins)
    case ZUnlock(_) => ResizeUnlock(s, t)
    case _ => s
  }

  /** One scheduled action; one that is not enabled leaves the state alone. A resize may be called at
      any time, with any table there has been: whether a put calls one is only a heuristic. */
  ghost function Step(s: State, a: Action): State
    requires Inv(s)
  {
    if a.tid >= |s.th| then s else
    assert ThreadOk(s, a.tid);
    match a
    case StartGet(t, k) => if CanStart(s.th[t]) then Begin(s, t, GTable(k)) else s
    case StartPut(t, k, v) => if CanStart(s.th[t]) then Begin(s, t, PLock(k, v)) else s
    case StartRemove(t, k, only) => if CanStart(s.th[t]) then Begin(s, t, RLock(k, only)) else s
    case StartClear(t) => if CanStart(s.th[t]) then Begin(s, t, CLock(0)) else s
    case StartResize(t, tab) => if CanStart(s.th[t]) && tab < |s.tabs| then Begin(s, t, ZLock(0, tab)) else s
    case Go(t, nodes, bins) => GoStep(s, t, nodes, bins)
  }

  function Init(cap: nat, threads: nat): State {
    State([Node(Key(0, 0), 0, None)], [seq(cap, _ => 0)], seq(SEGMENTS, _ => Nobody), seq(threads, _ => Idle),
          [map[]], [], seq(threads, _ => Mark(0, 0)))
  }
}
