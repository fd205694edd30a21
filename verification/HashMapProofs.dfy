/** Every step of the hash map keeps its invariant. */
module HashMapProofs {
  import opened HashMapModel

  // ---------- Chains ----------

  /** b extends a and changes no more than values. */
  ghost predicate SameLinks(a: seq<Entry>, b: seq<Entry>) {
    && |a| <= |b|
    && forall p :: 0 <= p < |a| ==> a[p].key == b[p].key && a[p].hash == b[p].hash && a[p].next == b[p].next
  }

  lemma {:induction false} FindFrame(a: seq<Entry>, b: seq<Entry>, p: nat, key: int)
    requires SameLinks(a, b) && p < |a|
    ensures Find(a, p, key) == Find(b, p, key)
  {
    if Links(a, p) && a[p].key != key { FindFrame(a, b, a[p].next, key); }
  }

  lemma {:induction false} ChainFrame(a: seq<Entry>, b: seq<Entry>, p: nat, q: nat)
    requires SameLinks(a, b) && p < |a|
    ensures OnChain(a, p, q) <==> OnChain(b, p, q)
  {
    if Links(a, p) && p != q { ChainFrame(a, b, a[p].next, q); }
  }

  /** What follows an entry of a chain is on the chain. */
  lemma {:induction false} ChainNext(entries: seq<Entry>, p: nat, q: nat)
    requires OnChain(entries, p, q) && Links(entries, q) && Links(entries, entries[q].next)
    ensures OnChain(entries, p, entries[q].next)
  {
    if p != q { ChainNext(entries, entries[p].next, q); }
  }

  /** A search finds an entry on the chain, if one has the key. */
  lemma {:induction false} FoundIsOn(entries: seq<Entry>, p: nat, q: nat, key: int)
    requires OnChain(entries, p, q) && q < |entries| && entries[q].key == key
    ensures Find(entries, p, key) != 0
  {
    if entries[p].key != key { FoundIsOn(entries, entries[p].next, q, key); }
  }

  /** No two entries of a chain share a key, so one that has the key is the one a search finds. */
  lemma {:induction false} OnlyOne(entries: seq<Entry>, p: nat, q: nat, key: int)
    requires forall i :: 0 < i < |entries| ==> EntryOk(entries, i)
    requires OnChain(entries, p, q) && q < |entries| && entries[q].key == key
    ensures Find(entries, p, key) == q
  {
    if p != q {
      assert EntryOk(entries, p);
      FoundIsOn(entries, entries[p].next, q, key);
      OnlyOne(entries, entries[p].next, q, key);
    }
  }

  // ---------- What a step of one thread leaves to the others ----------

  ghost predicate EntryKept(s: State, s': State, t: nat, p: nat)
    requires Sized(s) && |s.entries| <= |s'.entries| && p < |s.entries|
  {
    s'.entries[p] == s.entries[p] || HoldsLock(s, t, s.entries[p].key)
  }

  /** A bin keeps its first entry, or t, who holds its lock, puts a new one in front. */
  ghost predicate BinKept(s: State, s': State, t: nat, b: nat)
    requires Sized(s) && |s'.table| == CAPACITY && b < CAPACITY
  {
    || s'.table[b] == s.table[b]
    || (s.locks[b] == By(t) && Links(s'.entries, s'.table[b]) && s'.entries[s'.table[b]].next == s.table[b])
  }

  ghost predicate LockKept(s: State, s': State, t: nat, b: nat)
    requires |s.locks| == |s'.locks| == SEGMENTS && b < SEGMENTS
  {
    s'.locks[b] == s.locks[b] || s.locks[b] == By(t) || s.locks[b] == Nobody
  }

  ghost predicate Local(s: State, s': State, t: nat)
    requires Sized(s)
  {
    && |s'.table| == CAPACITY && |s'.locks| == SEGMENTS && |s'.th| == |s.th| == |s'.mark|
    && (forall u :: 0 <= u < |s.th| && u != t ==> s'.th[u] == s.th[u] && s'.mark[u] == s.mark[u])
    && s.hist <= s'.hist
    && SameLinks(s.entries, s'.entries)
    && (forall p :: 0 <= p < |s.entries| ==> EntryKept(s, s', t, p))
    && (forall b :: 0 <= b < CAPACITY ==> BinKept(s, s', t, b))
    && (forall b :: 0 <= b < SEGMENTS ==> LockKept(s, s', t, b))
  }

  /** What is on a bin's chain stays there. */
  lemma StaysIn(s: State, s': State, t: nat, key: int, p: nat)
    requires Sized(s) && Sized(s') && Local(s, s', t) && InBin(s, key, p)
    ensures InBin(s', key, p)
  {
    var b := Bin(key);
    assert BinKept(s, s', t, b);
    if p != 0 { ChainFrame(s.entries, s'.entries, s.table[b], p); }
  }

  lemma FindStays(s: State, s': State, key: int, p: nat)
    requires SameLinks(s.entries, s'.entries) && p < |s.entries|
    ensures Find(s'.entries, p, key) == Find(s.entries, p, key)
  {
    FindFrame(s.entries, s'.entries, p, key);
  }

  /** A step leaves the other threads' invariants alone: before the lock they rely only on links and
      on chains that grow in front, inside it on what no one else may change. */
  lemma OtherInv(s: State, s': State, t: nat, u: nat)
    requires Sized(s) && Sized(s') && Local(s, s', t)
    requires u < |s.th| && u != t && ThreadInv(s, u)
    ensures ThreadInv(s', u)
  {
    var th := s.th[u];
    assert s'.th[u] == th && s'.mark[u] == s.mark[u];
    if Locked(th) { LockedInv(s, s', t, u); } else {
      match th {
        case GWalk(k, first, e) =>
          StaysIn(s, s', t, k, first); StaysIn(s, s', t, k, e);
          FindStays(s, s', k, first); FindStays(s, s', k, e);
        case GValue(k, first, e) => StaysIn(s, s', t, k, e);
        case GLock(k, first, e) => FindStays(s, s', k, first);
        case _ =>
      }
    }
  }

  lemma LockedInv(s: State, s': State, t: nat, u: nat)
    requires Sized(s) && Sized(s') && Local(s, s', t)
    requires u < |s.th| && u != t && Locked(s.th[u]) && ThreadInv(s, u)
    ensures ThreadInv(s', u)
  {
    var th := s.th[u];
    var k := th.key;
    var b := Bin(k);
    assert s'.th[u] == th && s'.mark[u] == s.mark[u];
    assert HoldsLock(s, u, k);
    assert BinKept(s, s', t, b) && LockKept(s, s', t, b);
    assert s'.table[b] == s.table[b];
    FindStays(s, s', k, s.table[b]);
    match th {
      case GRecheck(_, first, e) => FindStays(s, s', k, first);
      case GRewalk(_, e) => FindStays(s, s', k, e);
      case PWalk(_, _, first, e) => FindStays(s, s', k, e);
      case PStore(_, _, e, _) => assert EntryKept(s, s', t, e);
      case PPublish(_, _, n) => assert EntryKept(s, s', t, n);
      case _ =>
    }
  }

  // ---------- The map ----------

  lemma ReplayLast(h: seq<Event>, e: Event)
    ensures Replay(h + [e]) ==
      var m := Replay(h);
      if m.None? then m else
      match e
      case Get(_, k, r) => if r == Lookup(m.value, k) then m else None
      case Put(_, k, v, r) => if r == Lookup(m.value, k) then Some(m.value[k := v]) else None
  {
    assert (h + [e])[..|h|] == h;
  }

  /** The map does not change when no bin and no value does. */
  lemma HoldsFrame(s: State, s': State, m: map<int, int>)
    requires Sized(s) && Sized(s') && Holds(s, m) && SameLinks(s.entries, s'.entries) && s'.table == s.table
    requires forall p :: 0 <= p < |s.entries| ==> s'.entries[p] == s.entries[p]
    ensures Holds(s', m)
  {
    forall k ensures Find(s'.entries, s'.table[Bin(k)], k) == Find(s.entries, s.table[Bin(k)], k) {
      FindStays(s, s', k, s.table[Bin(k)]);
    }
  }

  // ---------- One lemma per kind of step ----------

  /** A step that moves thread t alone. */
  lemma MoveInv(s: State, s': State, t: nat)
    requires Inv(s) && t < |s.th|
    requires s' == s.(th := s'.th, locks := s'.locks, mark := s'.mark)
    requires |s'.mark| == |s'.th| == |s.th| && |s'.locks| == SEGMENTS
    requires forall u :: 0 <= u < |s.th| && u != t ==> s'.th[u] == s.th[u] && s'.mark[u] == s.mark[u]
    requires forall b :: 0 <= b < SEGMENTS ==> LockKept(s, s', t, b)
    requires ThreadInv(s', t)
    ensures Inv(s')
  {
    forall u | 0 <= u < |s.th| ensures ThreadInv(s', u) {
      if u != t { OtherInv(s, s', t, u); }
    }
    HoldsFrame(s, s', Replay(s.hist).value);
  }

  lemma StartInv(s: State, t: nat, key: int, val: int)
    requires Inv(s) && t < |s.th| && CanStart(s.th[t])
    ensures Inv(Begin(s, t, GFirst(key)))
    ensures val != 0 ==> Inv(Begin(s, t, PLock(key, val)))
  {
    MoveInv(s, Begin(s, t, GFirst(key)), t);
    if val != 0 { MoveInv(s, Begin(s, t, PLock(key, val)), t); }
  }

  lemma GetFirstInv(s: State, t: nat)
    requires Inv(s) && Safe(s, t) && s.th[t].GFirst?
    ensures Inv(GetFirst(s, t))
  {
    assert ThreadInv(s, t);
    var p := s.table[Bin(s.th[t].key)];
    if p != 0 { assert EntryOk(s.entries, p); }
    MoveInv(s, GetFirst(s, t), t);
  }

  lemma GetWalkInv(s: State, t: nat)
    requires Inv(s) && Safe(s, t) && s.th[t].GWalk?
    ensures Inv(GetWalk(s, t))
  {
    assert ThreadInv(s, t);
    var GWalk(k, first, e) := s.th[t];
    if e != 0 {
      assert EntryOk(s.entries, e);
      if s.entries[e].next != 0 {
        assert EntryOk(s.entries, s.entries[e].next);
        ChainNext(s.entries, s.table[Bin(k)], e);
      }
    }
    MoveInv(s, GetWalk(s, t), t);
  }

  lemma LockInv(s: State, t: nat)
    requires Inv(s) && Safe(s, t) && (s.th[t].GLock? || s.th[t].PLock?)
    ensures Inv(Lock(s, t))
  {
    assert ThreadInv(s, t);
    if s.locks[Bin(s.th[t].key)] == Nobody { MoveInv(s, Lock(s, t), t); }
  }

  lemma UnlockInv(s: State, t: nat)
    requires Inv(s) && Safe(s, t) && (s.th[t].GUnlock? || s.th[t].PUnlock?)
    ensures Inv(Unlock(s, t))
  {
    assert ThreadInv(s, t);
    MoveInv(s, Unlock(s, t), t);
  }

  lemma PutFirstInv(s: State, t: nat)
    requires Inv(s) && Safe(s, t) && s.th[t].PFirst?
    ensures Inv(PutFirst(s, t))
  {
    assert ThreadInv(s, t);
    MoveInv(s, PutFirst(s, t), t);
  }

  lemma PutWalkInv(s: State, t: nat)
    requires Inv(s) && Safe(s, t) && s.th[t].PWalk?
    ensures Inv(PutWalk(s, t))
  {
    assert ThreadInv(s, t);
    var e := s.th[t].e;
    if e != 0 { assert EntryOk(s.entries, e); }
    MoveInv(s, PutWalk(s, t), t);
  }

  lemma PutReadOldInv(s: State, t: nat)
    requires Inv(s) && Safe(s, t) && s.th[t].PReadOld?
    ensures Inv(PutReadOld(s, t))
  {
    assert ThreadInv(s, t);
    MoveInv(s, PutReadOld(s, t), t);
  }

  /** A get takes effect where the map, at that moment, holds what it will return. */
  lemma GetEventInv(s: State, t: nat, th: Thread, key: int, res: int)
    requires Inv(s) && t < |s.th|
    requires th == GDone(key, res) || (th == GUnlock(key, res) && HoldsLock(s, t, key))
    requires res == Lookup(Replay(s.hist).value, key)
    ensures Inv(Log(SetTh(s, t, th), t, Get(t, key, res)))
  {
    assert ThreadInv(s, t);
    var s' := Log(SetTh(s, t, th), t, Get(t, key, res));
    assert Marked(s', t, Get(t, key, res));
    ReplayLast(s.hist, Get(t, key, res));
    forall u | 0 <= u < |s.th| ensures ThreadInv(s', u) {
      if u != t { OtherInv(s, s', t, u); }
    }
    HoldsFrame(s, s', Replay(s.hist).value);
  }

  lemma GetValueInv(s: State, t: nat)
    requires Inv(s) && Safe(s, t) && s.th[t].GValue?
    ensures Inv(GetValue(s, t))
    ensures GetValue(s, t).th[t] == GDone(s.th[t].key, Lookup(Replay(s.hist).value, s.th[t].key))
  {
    assert ThreadInv(s, t);
    var GValue(k, first, e) := s.th[t];
    assert EntryOk(s.entries, e);
    OnlyOne(s.entries, s.table[Bin(k)], e, k);
    GetEventInv(s, t, GDone(k, s.entries[e].value), k, s.entries[e].value);
  }

  lemma GetRecheckInv(s: State, t: nat)
    requires Inv(s) && Safe(s, t) && s.th[t].GRecheck?
    ensures Inv(GetRecheck(s, t))
  {
    assert ThreadInv(s, t);
    var GRecheck(k, first, e) := s.th[t];
    if e == 0 && first == s.table[Bin(k)] { GetEventInv(s, t, GUnlock(k, 0), k, 0); }
    else { MoveInv(s, GetRecheck(s, t), t); }
  }

  lemma GetRewalkInv(s: State, t: nat)
    requires Inv(s) && Safe(s, t) && s.th[t].GRewalk?
    ensures Inv(GetRewalk(s, t))
  {
    assert ThreadInv(s, t);
    var GRewalk(k, e) := s.th[t];
    if e == 0 { GetEventInv(s, t, GUnlock(k, 0), k, 0); }
    else {
      assert EntryOk(s.entries, e);
      if s.entries[e].key == k {
        GetEventInv(s, t, GUnlock(k, s.entries[e].value), k, s.entries[e].value);
      } else { MoveInv(s, GetRewalk(s, t), t); }
    }
  }

  /** Changing values and appending entries keeps the entries right. */
  lemma SizedFrame(s: State, s': State)
    requires Sized(s) && |s'.table| == CAPACITY && |s'.locks| == SEGMENTS && |s'.mark| == |s'.th|
    requires SameLinks(s.entries, s'.entries)
    requires forall i :: 0 <= i < CAPACITY ==> s'.table[i] < |s'.entries|
    requires forall p :: 0 < p < |s.entries| ==> s'.entries[p].value == s.entries[p].value || s'.entries[p].value != 0
    requires forall p :: |s.entries| <= p < |s'.entries| ==> EntryOk(s'.entries, p)
    ensures Sized(s')
  {
    forall p | 0 < p < |s'.entries| ensures EntryOk(s'.entries, p) {
      if p < |s.entries| {
        assert EntryOk(s.entries, p);
        FindStays(s, s', s.entries[p].key, s.entries[p].next);
      }
    }
  }

  lemma PutStoreInv(s: State, t: nat)
    requires Inv(s) && Safe(s, t) && s.th[t].PStore?
    ensures Inv(PutStore(s, t))
  {
    assert ThreadInv(s, t);
    var PStore(k, v, e, r) := s.th[t];
    var s' := PutStore(s, t);
    SizedFrame(s, s');
    ReplayLast(s.hist, Put(t, k, v, r));
    forall u | 0 <= u < |s.th| ensures ThreadInv(s', u) {
      if u != t { OtherInv(s, s', t, u); }
    }
    forall q ensures Find(s'.entries, s'.table[Bin(q)], q) == Find(s.entries, s.table[Bin(q)], q) {
      FindStays(s, s', q, s.table[Bin(q)]);
    }
    assert Holds(s', Replay(s.hist).value[k := v]);
  }

  lemma PutAllocInv(s: State, t: nat)
    requires Inv(s) && Safe(s, t) && s.th[t].PAlloc?
    ensures Inv(PutAlloc(s, t))
  {
    assert ThreadInv(s, t);
    var PAlloc(k, v, first) := s.th[t];
    var s' := PutAlloc(s, t);
    FindStays(s, s', k, first);
    SizedFrame(s, s');
    forall u | 0 <= u < |s.th| ensures ThreadInv(s', u) {
      if u != t { OtherInv(s, s', t, u); }
    }
    HoldsFrame(s, s', Replay(s.hist).value);
  }

  lemma PutPublishInv(s: State, t: nat)
    requires Inv(s) && Safe(s, t) && s.th[t].PPublish?
    ensures Inv(PutPublish(s, t))
  {
    assert ThreadInv(s, t);
    var PPublish(k, v, n) := s.th[t];
    var s' := PutPublish(s, t);
    assert EntryOk(s.entries, n);
    ReplayLast(s.hist, Put(t, k, v, 0));
    forall u | 0 <= u < |s.th| ensures ThreadInv(s', u) {
      if u != t { OtherInv(s, s', t, u); }
    }
    assert Holds(s', Replay(s.hist).value[k := v]);
  }

  // ---------- Every step and every run ----------

  lemma GoInv(s: State, t: nat)
    requires Inv(s) && t < |s.th|
    ensures Safe(s, t) && Inv(GoStep(s, t))
  {
    assert ThreadInv(s, t);
    match s.th[t] {
      case GFirst(_) => GetFirstInv(s, t);
      case GWalk(_, _, _) => GetWalkInv(s, t);
      case GValue(_, _, _) => GetValueInv(s, t);
      case GLock(_, _, _) => LockInv(s, t);
      case GRecheck(_, _, _) => GetRecheckInv(s, t);
      case GRewalk(_, _) => GetRewalkInv(s, t);
      case GUnlock(_, _) => UnlockInv(s, t);
      case PLock(_, _) => LockInv(s, t);
      case PFirst(_, _) => PutFirstInv(s, t);
      case PWalk(_, _, _, _) => PutWalkInv(s, t);
      case PReadOld(_, _, _) => PutReadOldInv(s, t);
      case PStore(_, _, _, _) => PutStoreInv(s, t);
      case PAlloc(_, _, _) => PutAllocInv(s, t);
      case PPublish(_, _, _) => PutPublishInv(s, t);
      case PUnlock(_, _, _) => UnlockInv(s, t);
      case _ =>
    }
  }

  lemma StepInv(s: State, a: Action)
    requires Inv(s)
    ensures Inv(Step(s, a))
  {
    if a.tid < |s.th| {
      match a {
        case StartGet(t, k) => if CanStart(s.th[t]) { StartInv(s, t, k, 0); }
        case StartPut(t, k, v) => if CanStart(s.th[t]) { StartInv(s, t, k, v); }
        case Go(t) => GoInv(s, t);
      }
    }
  }

  lemma InitInv(threads: nat)
    ensures Inv(Init(threads))
  {
  }

  /** The state after a schedule; every reachable state is one. */
  ghost function Run(s: State, sched: seq<Action>): (s': State)
    requires Inv(s)
    ensures Inv(s')
    decreases |sched|
  {
    if sched == [] then s else
    StepInv(s, sched[0]);
    Run(Step(s, sched[0]), sched[1..])
  }
}
