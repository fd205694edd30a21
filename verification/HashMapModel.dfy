/** The concurrent hash map of concurrent-hashmap/hashmap.cc as a state machine: `get` walks a bin
    without a lock and rechecks under the segment lock, `put` holds it throughout.

    One step is one load or store of shared memory, one allocation, or one operation on a segment's
    mutex; the fields of an entry that never change once it is published are read together with the
    load that follows. Entries are named by their index in `entries`, in the order they were
    allocated; index 0 is null. */
module HashMapModel {
  const CAPACITY := 16
  const SEGMENTS := 16

  datatype Entry = Entry(key: int, value: int, hash: int, next: nat)

  datatype Thread =
    | Idle
    // get
    | GFirst(key: int)
    | GWalk(key: int, first: nat, e: nat)
    | GValue(key: int, first: nat, e: nat)
    | GLock(key: int, first: nat, e: nat)
    | GRecheck(key: int, first: nat, e: nat)
    | GRewalk(key: int, e: nat)
    | GUnlock(key: int, res: int)
    | GDone(key: int, res: int)
    // put
    | PLock(key: int, val: int)
    | PFirst(key: int, val: int)
    | PWalk(key: int, val: int, first: nat, e: nat)
    | PReadOld(key: int, val: int, e: nat)
    | PStore(key: int, val: int, e: nat, res: int)
    | PAlloc(key: int, val: int, first: nat)
    | PPublish(key: int, val: int, node: nat)
    | PUnlock(key: int, val: int, res: int)
    | PDone(key: int, val: int, res: int)

  datatype Event = Get(tid: nat, key: int, res: int) | Put(tid: nat, key: int, val: int, res: int)

  datatype Holder = Nobody | By(tid: nat)

  datatype Option<T> = None | Some(value: T)

  /** The history length when an operation began and when it took effect. */
  datatype Mark = Mark(since: nat, at: nat)

  /** `hist` and `mark` only observe. */
  datatype State = State(
    table: seq<nat>, entries: seq<Entry>, locks: seq<Holder>, th: seq<Thread>,
    hist: seq<Event>, mark: seq<Mark>)

  datatype Action = StartGet(tid: nat, key: int) | StartPut(tid: nat, key: int, val: int) | Go(tid: nat)

  // ---------- The sequential map the history must follow ----------

  /** What get returns: the value of a key, 0 if it has none. */
  function Lookup(m: map<int, int>, key: int): int {
    if key in m then m[key] else 0
  }

  function Replay(h: seq<Event>): Option<map<int, int>> {
    if h == [] then Some(map[]) else
    var m := Replay(h[..|h| - 1]);
    if m.None? then None else
    match h[|h| - 1]
    case Get(_, k, r) => if r == Lookup(m.value, k) then m else None
    case Put(_, k, v, r) => if r == Lookup(m.value, k) then Some(m.value[k := v]) else None
  }

  // ---------- Chains ----------

  /** hashKey is the identity, and a mask of the low bits is a remainder, for negative keys too. */
  function Bin(key: int): (i: nat)
    ensures i < CAPACITY
  {
    key % CAPACITY
  }

  /** A link leads to an older entry, so every walk ends. */
  predicate Links(entries: seq<Entry>, p: nat) {
    0 < p < |entries| && entries[p].next < p
  }

  /** The first entry with this key on the chain from p; 0 if there is none. */
  function Find(entries: seq<Entry>, p: nat, key: int): (e: nat)
    ensures e != 0 ==> e < |entries| && entries[e].key == key
  {
    if !Links(entries, p) then 0
    else if entries[p].key == key then p
    else Find(entries, entries[p].next, key)
  }

  /** Entry q is on the chain from p. */
  predicate OnChain(entries: seq<Entry>, p: nat, q: nat) {
    Links(entries, p) && (p == q || OnChain(entries, entries[p].next, q))
  }

  // ---------- The invariant ----------

  ghost predicate Sized(s: State) {
    && |s.table| == CAPACITY && |s.locks| == SEGMENTS && |s.mark| == |s.th|
    && |s.entries| > 0
    && (forall i :: 0 <= i < CAPACITY ==> s.table[i] < |s.entries|)
    && (forall p :: 0 < p < |s.entries| ==> EntryOk(s.entries, p))
  }

  /** Entries link to older ones and are the only ones with their key from there on. */
  ghost predicate EntryOk(entries: seq<Entry>, p: nat) {
    && Links(entries, p) && entries[p].value != 0 && entries[p].hash == entries[p].key
    && Find(entries, entries[p].next, entries[p].key) == 0
  }

  /** The map the table holds, key by key. */
  ghost predicate Holds(s: State, m: map<int, int>)
    requires Sized(s)
  {
    forall k :: (Find(s.entries, s.table[Bin(k)], k) != 0 <==> k in m)
      && (k in m ==> s.entries[Find(s.entries, s.table[Bin(k)], k)].value == m[k])
  }

  ghost predicate HoldsLock(s: State, t: nat, key: int)
    requires Sized(s)
  {
    s.locks[Bin(key)] == By(t)
  }

  /** Whether a program point is between lock and unlock of its key's segment. */
  predicate Locked(th: Thread) {
    th.GRecheck? || th.GRewalk? || th.GUnlock? || th.PFirst? || th.PWalk? || th.PReadOld? || th.PStore?
    || th.PAlloc? || th.PPublish? || th.PUnlock?
  }

  ghost predicate Marked(s: State, t: nat, e: Event)
    requires t < |s.mark|
  {
    s.mark[t].since <= s.mark[t].at < |s.hist| && s.hist[s.mark[t].at] == e
  }

  /** A pointer read from a bin stays on that bin's chain. */
  ghost predicate InBin(s: State, key: int, p: nat)
    requires Sized(s)
  {
    p != 0 ==> OnChain(s.entries, s.table[Bin(key)], p)
  }

  ghost predicate ThreadInv(s: State, t: nat)
    requires Sized(s) && t < |s.th|
  {
    && s.mark[t].since <= |s.hist|
    && (Locked(s.th[t]) ==> HoldsLock(s, t, s.th[t].key))
    && match s.th[t]
       case GWalk(k, first, e) =>
         InBin(s, k, first) && InBin(s, k, e) && first < |s.entries| && e < |s.entries|
         && Find(s.entries, first, k) == Find(s.entries, e, k)
       case GValue(k, first, e) =>
         InBin(s, k, e) && e != 0 && e < |s.entries| && s.entries[e].key == k
       case GLock(k, first, e) => first < |s.entries| && (e == 0 ==> Find(s.entries, first, k) == 0)
       case GRecheck(k, first, e) => first < |s.entries| && (e == 0 ==> Find(s.entries, first, k) == 0)
       case GRewalk(k, e) =>
         e < |s.entries| && Find(s.entries, s.table[Bin(k)], k) == Find(s.entries, e, k)
       case GUnlock(k, r) => Marked(s, t, Get(t, k, r))
       case GDone(k, r) => Marked(s, t, Get(t, k, r))
       case PLock(k, v) => v != 0
       case PFirst(k, v) => v != 0
       case PWalk(k, v, first, e) =>
         v != 0 && first == s.table[Bin(k)] && e < |s.entries|
         && Find(s.entries, first, k) == Find(s.entries, e, k)
       case PReadOld(k, v, e) => v != 0 && e != 0 && e == Find(s.entries, s.table[Bin(k)], k)
       case PStore(k, v, e, r) =>
         v != 0 && e != 0 && e == Find(s.entries, s.table[Bin(k)], k) && r == s.entries[e].value
       case PAlloc(k, v, first) =>
         v != 0 && first == s.table[Bin(k)] && Find(s.entries, first, k) == 0
       case PPublish(k, v, n) =>
         0 < n < |s.entries| && s.entries[n] == Entry(k, v, k, s.table[Bin(k)])
       case PUnlock(k, v, r) => Marked(s, t, Put(t, k, v, r))
       case PDone(k, v, r) => Marked(s, t, Put(t, k, v, r))
       case _ => true
  }

  ghost predicate Inv(s: State) {
    && Sized(s)
    && (forall t :: 0 <= t < |s.th| ==> ThreadInv(s, t))
    && Replay(s.hist).Some? && Holds(s, Replay(s.hist).value)
  }

  // ---------- The steps ----------

  predicate CanStart(th: Thread) { th.Idle? || th.GDone? || th.PDone? }

  predicate Safe(s: State, t: nat) {
    && t < |s.th| == |s.mark| && |s.table| == CAPACITY && |s.locks| == SEGMENTS
    && match s.th[t]
       case GWalk(_, _, e) => e < |s.entries|
       case GValue(_, _, e) => e < |s.entries|
       case GRewalk(_, e) => e < |s.entries|
       case PWalk(_, _, _, e) => e < |s.entries|
       case PReadOld(_, _, e) => e < |s.entries|
       case PStore(_, _, e, _) => e < |s.entries|
       case _ => true
  }

  function SetTh(s: State, t: nat, th: Thread): State
    requires t < |s.th|
  {
    s.(th := s.th[t := th])
  }

  function Log(s: State, t: nat, e: Event): State
    requires t < |s.mark|
  {
    s.(hist := s.hist + [e], mark := s.mark[t := s.mark[t].(at := |s.hist|)])
  }

  function SetLock(s: State, key: int, h: Holder): State
    requires |s.locks| == SEGMENTS
  {
    s.(locks := s.locks[Bin(key) := h])
  }

  /** The test of lines 31, 59 and 93. */
  predicate Matches(e: Entry, key: int) { e.hash == key && e.key == key }

  /** The call of an operation. */
  function Begin(s: State, t: nat, th: Thread): State
    requires t < |s.th| == |s.mark|
  {
    SetTh(s, t, th).(mark := s.mark[t := Mark(|s.hist|, |s.hist|)])
  }

  /** Lines 13-29. */
  function GetFirst(s: State, t: nat): State
    requires Safe(s, t) && s.th[t].GFirst?
  {
    var k := s.th[t].key;
    SetTh(s, t, GWalk(k, s.table[Bin(k)], s.table[Bin(k)]))
  }

  /** Lines 30-46, without a lock. */
  function GetWalk(s: State, t: nat): State
    requires Safe(s, t) && s.th[t].GWalk?
  {
    var GWalk(k, first, e) := s.th[t];
    SetTh(s, t, if e == 0 then GLock(k, first, e)
                else if Matches(s.entries[e], k) then GValue(k, first, e)
                else GWalk(k, first, s.entries[e].next))
  }

  /** Lines 36-41: where a hit takes effect. */
  function GetValue(s: State, t: nat): State
    requires Safe(s, t) && s.th[t].GValue?
  {
    var GValue(k, first, e) := s.th[t];
    var r := s.entries[e].value;
    if r != 0 then Log(SetTh(s, t, GDone(k, r)), t, Get(t, k, r)) else SetTh(s, t, GLock(k, first, e))
  }

  /** Lines 50 and 81. */
  function Lock(s: State, t: nat): State
    requires Safe(s, t) && (s.th[t].GLock? || s.th[t].PLock?)
  {
    var k := s.th[t].key;
    if s.locks[Bin(k)] != Nobody then s else
    SetLock(SetTh(s, t, if s.th[t].GLock? then GRecheck(k, s.th[t].first, s.th[t].e) else PFirst(k, s.th[t].val)),
            k, By(t))
  }

  /** Lines 55-57: with the same first entry and no hit before, the key is absent. */
  function GetRecheck(s: State, t: nat): State
    requires Safe(s, t) && s.th[t].GRecheck?
  {
    var GRecheck(k, first, e) := s.th[t];
    if e != 0 || first != s.table[Bin(k)] then SetTh(s, t, GRewalk(k, s.table[Bin(k)]))
    else Log(SetTh(s, t, GUnlock(k, 0)), t, Get(t, k, 0))
  }

  /** Lines 58-70, under the lock. */
  function GetRewalk(s: State, t: nat): State
    requires Safe(s, t) && s.th[t].GRewalk?
  {
    var GRewalk(k, e) := s.th[t];
    if e == 0 then Log(SetTh(s, t, GUnlock(k, 0)), t, Get(t, k, 0))
    else if Matches(s.entries[e], k) then
      Log(SetTh(s, t, GUnlock(k, s.entries[e].value)), t, Get(t, k, s.entries[e].value))
    else SetTh(s, t, GRewalk(k, s.entries[e].next))
  }

  /** Lines 62, 69, 103 and 123. */
  function Unlock(s: State, t: nat): State
    requires Safe(s, t) && (s.th[t].GUnlock? || s.th[t].PUnlock?)
  {
    match s.th[t]
    case GUnlock(k, r) => SetLock(SetTh(s, t, GDone(k, r)), k, Nobody)
    case PUnlock(k, v, r) => SetLock(SetTh(s, t, PDone(k, v, r)), k, Nobody)
  }

  /** Lines 82-91. */
  function PutFirst(s: State, t: nat): State
    requires Safe(s, t) && s.th[t].PFirst?
  {
    var PFirst(k, v) := s.th[t];
    SetTh(s, t, PWalk(k, v, s.table[Bin(k)], s.table[Bin(k)]))
  }

  /** Lines 92-108. */
  function PutWalk(s: State, t: nat): State
    requires Safe(s, t) && s.th[t].PWalk?
  {
    var PWalk(k, v, first, e) := s.th[t];
    SetTh(s, t, if e == 0 then PAlloc(k, v, first)
                else if Matches(s.entries[e], k) then PReadOld(k, v, e)
                else PWalk(k, v, first, s.entries[e].next))
  }

  /** Line 96. */
  function PutReadOld(s: State, t: nat): State
    requires Safe(s, t) && s.th[t].PReadOld?
  {
    var PReadOld(k, v, e) := s.th[t];
    SetTh(s, t, PStore(k, v, e, s.entries[e].value))
  }

  /** Line 101: where a put over an old value takes effect. */
  function PutStore(s: State, t: nat): State
    requires Safe(s, t) && s.th[t].PStore?
  {
    var PStore(k, v, e, r) := s.th[t];
    Log(SetTh(s, t, PUnlock(k, v, r)), t, Put(t, k, v, r)).(
      entries := s.entries[e := s.entries[e].(value := v)])
  }

  /** Lines 111-116: the new entry is private until it is published. */
  function PutAlloc(s: State, t: nat): State
    requires Safe(s, t) && s.th[t].PAlloc?
  {
    var PAlloc(k, v, first) := s.th[t];
    SetTh(s, t, PPublish(k, v, |s.entries|)).(entries := s.entries + [Entry(k, v, k, first)])
  }

  /** Line 122: where a put of a new key takes effect. */
  function PutPublish(s: State, t: nat): State
    requires Safe(s, t) && s.th[t].PPublish?
  {
    var PPublish(k, v, n) := s.th[t];
    Log(SetTh(s, t, PUnlock(k, v, 0)), t, Put(t, k, v, 0)).(table := s.table[Bin(k) := n])
  }

  function GoStep(s: State, t: nat): State
    requires Safe(s, t)
  {
    match s.th[t]
    case GFirst(_) => GetFirst(s, t)
    case GWalk(_, _, _) => GetWalk(s, t)
    case GValue(_, _, _) => GetValue(s, t)
    case GLock(_, _, _) => Lock(s, t)
    case GRecheck(_, _, _) => GetRecheck(s, t)
    case GRewalk(_, _) => GetRewalk(s, t)
    case GUnlock(_, _) => Unlock(s, t)
    case PLock(_, _) => Lock(s, t)
    case PFirst(_, _) => PutFirst(s, t)
    case PWalk(_, _, _, _) => PutWalk(s, t)
    case PReadOld(_, _, _) => PutReadOld(s, t)
    case PStore(_, _, _, _) => PutStore(s, t)
    case PAlloc(_, _, _) => PutAlloc(s, t)
    case PPublish(_, _, _) => PutPublish(s, t)
    case PUnlock(_, _, _) => Unlock(s, t)
    case _ => s
  }

  /** One scheduled action; one that is not enabled leaves the state alone. Clients use keys and
      values other than 0, as lines 7 and 75 assert. */
  ghost function Step(s: State, a: Action): State
    requires Inv(s)
  {
    if a.tid >= |s.th| then s else
    assert ThreadInv(s, a.tid);
    match a
    case StartGet(t, k) => if CanStart(s.th[t]) && k != 0 then Begin(s, t, GFirst(k)) else s
    case StartPut(t, k, v) => if CanStart(s.th[t]) && k != 0 && v != 0 then Begin(s, t, PLock(k, v)) else s
    case Go(t) => GoStep(s, t)
  }

  function Init(threads: nat): State {
    State(seq(CAPACITY, _ => 0), [Entry(0, 0, 0, 0)], seq(SEGMENTS, _ => Nobody), seq(threads, _ => Idle),
          [], seq(threads, _ => Mark(0, 0)))
  }
}
