/** What ConcurrentHashMap promises its readers, for every schedule of any number of threads. */
module JavaMapTheorems {
  import opened PowersOfTwo
  import opened JavaMapModel
  import opened JavaMapProofs

  // ---------- What operations return ----------

  /** In every run a get that returned gives what the map had for its key at some moment of the call,
      however many puts, removes, clears and resizes ran meanwhile. */
  lemma GetReturns(cap: nat, threads: nat, sched: seq<Action>, t: nat)
    requires SEGMENTS <= cap && PowerOfTwo(cap)
    ensures Inv(Init(cap, threads))
    ensures
      var s := Run(Init(cap, threads), sched);
      t < |s.th| && s.th[t].GDone? ==>
        |s.mark| == |s.th| && exists i :: s.mark[t].since <= i < |s.hist| && Lookup(s.hist[i], s.th[t].key) == s.th[t].res
  {
    InitInv(cap, threads);
    var s := Run(Init(cap, threads), sched);
    if t < |s.th| && s.th[t].GDone? {
      assert ThreadOk(s, t);
      var i :| s.mark[t].since <= i < |s.hist| && Lookup(s.hist[i], s.th[t].key) == s.th[t].res;
    }
  }

  /** In every run a put that returned took effect at one moment of its call: it returns what the map
      then had for the key, and gave it the new value. */
  lemma PutReturns(cap: nat, threads: nat, sched: seq<Action>, t: nat)
    requires SEGMENTS <= cap && PowerOfTwo(cap)
    ensures Inv(Init(cap, threads))
    ensures
      var s := Run(Init(cap, threads), sched);
      t < |s.th| && s.th[t].PDone? ==>
        |s.mark| == |s.th| && PutAt(s.hist, s.mark[t], s.th[t].key, s.th[t].val, s.th[t].res)
  {
    InitInv(cap, threads);
    var s := Run(Init(cap, threads), sched);
    if t < |s.th| { assert ThreadOk(s, t); }
  }

  /** In every run a remove that returned took effect at one moment of its call: it took the key out and
      returns its value, if it had the value asked for; otherwise it changed nothing. */
  lemma RemoveReturns(cap: nat, threads: nat, sched: seq<Action>, t: nat)
    requires SEGMENTS <= cap && PowerOfTwo(cap)
    ensures Inv(Init(cap, threads))
    ensures
      var s := Run(Init(cap, threads), sched);
      t < |s.th| && s.th[t].RDone? ==>
        |s.mark| == |s.th| && RemovedAt(s.hist, s.mark[t], s.th[t].key, s.th[t].only, s.th[t].res)
  {
    InitInv(cap, threads);
    var s := Run(Init(cap, threads), sched);
    if t < |s.th| { assert ThreadOk(s, t); }
  }

  /** Only four kinds of store change the map: a put's, the mark on the node of a removed key, and each
      mark that clear puts on a node. Publishing a rebuilt bin or a doubled table never does. */
  lemma StepMap(s: State, a: Action)
    requires Inv(s)
    ensures
      var s' := Step(s, a);
      s'.hist ==
      if a.Go? && a.tid < |s.th| && s.th[a.tid].PWrite? then
        s.hist + [Now(s)[s.th[a.tid].key := s.th[a.tid].val]]
      else if a.Go? && a.tid < |s.th| && s.th[a.tid].RKill? && Removes(Now(s), s.th[a.tid].key, s.th[a.tid].only) then
        s.hist + [Now(s) - {s.th[a.tid].key}]
      else if a.Go? && a.tid < |s.th| && s.th[a.tid].CKill? && 0 < s.th[a.tid].e < |s.heap| then
        s.hist + [Now(s) - {s.heap[s.th[a.tid].e].key}]
      else s.hist
  {
    if a.Go? && a.tid < |s.th| {
      var t := a.tid;
      assert ThreadOk(s, t);
      if s.th[t].RKill? {
        assert Locked(s.th[t], Seg(s.th[t].key));
        HeldIsNow(s, t, s.th[t].key);
      }
    }
  }

  /** The only step that makes a get answer that there is no value is one of its own, under the lock of
      the key's segment, when the map has no such key. */
  lemma NullUnderLock(s: State, a: Action, t: nat)
    requires Inv(s) && t < |s.th|
    requires !s.th[t].GUnlock? && !s.th[t].GDone?
    requires
      var th := Step(s, a).th;
      t < |th| && (th[t].GUnlock? || th[t].GDone?) && th[t].res == None
    ensures a.Go? && a.tid == t && s.th[t].GRecheck? && s.locks[Seg(s.th[t].key)] == By(t)
    ensures s.th[t].key !in Now(s)
  {
    assert a.tid < |s.th| && ThreadOk(s, a.tid) && ThreadOk(s, t);
    assert s.th[t].GRecheck?;
    var k := s.th[t].key;
    assert Locked(s.th[t], Seg(k));
    HeldIsNow(s, t, k);
  }

  // ---------- One change for each call ----------

  /** Whether a put or a remove has changed the map. */
  predicate Changed(th: Thread) {
    th.PUnlock? || th.PDone? || th.RPublish? || ((th.RUnlock? || th.RDone?) && th.res.Some?)
  }

  /** Clear takes out its keys one by one. */
  predicate Clearing(th: Thread) {
    th.CLock? || th.CBin? || th.CKill? || th.CUnlock? || th.CDone?
  }

  /** Since its call began a thread has changed the map only where its mark points, and only if its put
      or remove has taken effect. */
  ghost predicate ThreadOnce(s: State, t: nat)
    requires t < |s.th| == |s.mark|
  {
    && (forall i :: s.mark[t].since <= i < |s.who| && s.who[i] == t && !Clearing(s.th[t]) ==>
         Changed(s.th[t]) && i == s.mark[t].at)
    && (Changed(s.th[t]) ==> s.mark[t].at < |s.who| && s.who[s.mark[t].at] == t)
  }

  ghost predicate Once(s: State)
    requires |s.mark| == |s.th|
  {
    |s.who| + 1 == |s.hist| && forall t :: 0 <= t < |s.th| ==> ThreadOnce(s, t)
  }

  /** What a step adds to the history is its own. */
  ghost predicate Logs(s: State, s': State, t: nat) {
    && |s'.th| == |s.th| == |s'.mark| == |s.mark| && t < |s.th|
    && |s'.who| - |s.who| == |s'.hist| - |s.hist|
    && (forall u :: 0 <= u < |s.th| && u != t ==> s'.th[u] == s.th[u] && s'.mark[u] == s.mark[u])
    && s'.mark[t].since == s.mark[t].since && (Clearing(s'.th[t]) <==> Clearing(s.th[t]))
    && if s'.who == s.who then
         (Changed(s'.th[t]) <==> Changed(s.th[t])) && (Changed(s.th[t]) ==> s'.mark[t] == s.mark[t])
       else
         && s'.who == s.who + [t] && !Changed(s.th[t])
         && (Clearing(s.th[t]) || (Changed(s'.th[t]) && s'.mark[t].at == |s.hist| - 1))
  }

  predicate Writes(th: Thread) {
    th.PWrite? || th.RKill? || th.CKill?
  }

  lemma WriteLogs(s: State, t: nat, nodes: seq<Node>, bins: seq<nat>)
    requires Safe(s, t) && Writes(s.th[t])
    requires s.th[t].RKill? && NodeOf(s, s.th[t].key) != 0 ==> Held(s, s.th[t].key).Some?
    ensures Logs(s, GoStep(s, t, nodes, bins), t)
  {
    hide Find, NodeOk, TabOk;
  }

  lemma LockLogs(s: State, t: nat, nodes: seq<Node>, bins: seq<nat>)
    requires Safe(s, t) && LockStep(s.th[t])
    ensures Logs(s, GoStep(s, t, nodes, bins), t)
  {
    hide Find, NodeOk, TabOk, BinOf;
  }

  lemma QuietLogs(s: State, t: nat, nodes: seq<Node>, bins: seq<nat>)
    requires Safe(s, t) && !Writes(s.th[t]) && !LockStep(s.th[t]) && (s.th[t].RPublish? ==> s.th[t].res.Some?)
    ensures Logs(s, GoStep(s, t, nodes, bins), t)
  {
    hide Find, NodeOk, TabOk, Rebuilt, Rehashed, NodeOf, Held;
  }

  lemma LogsOnce(s: State, s': State, t: nat)
    requires |s.mark| == |s.th| && Once(s) && Logs(s, s', t)
    requires forall u :: 0 <= u < |s.th| ==> s.mark[u].since < |s.hist|
    ensures Once(s')
  {
    forall u | 0 <= u < |s.th| ensures ThreadOnce(s', u) { assert ThreadOnce(s, u); }
  }

  lemma StepOnce(s: State, a: Action)
    requires Inv(s) && Once(s)
    ensures Inv(Step(s, a)) && Once(Step(s, a))
  {
    StepInv(s, a);
    if a.tid < |s.th| {
      var t, s' := a.tid, Step(s, a);
      forall u | 0 <= u < |s.th| ensures s.mark[u].since < |s.hist| { assert ThreadOk(s, u); }
      assert ThreadOk(s, t) && Safe(s, t);
      if !a.Go? {
        hide GoStep, Sized;
        forall u | 0 <= u < |s.th| ensures ThreadOnce(s', u) { assert ThreadOnce(s, u); }
      } else {
        if Writes(s.th[t]) {
          if s.th[t].RKill? { KillHeld(s, t); }
          WriteLogs(s, t, a.nodes, a.bins);
        } else if LockStep(s.th[t]) {
          LockLogs(s, t, a.nodes, a.bins);
        } else {
          QuietLogs(s, t, a.nodes, a.bins);
        }
        hide GoStep, Sized, Logs, Once;
        LogsOnce(s, s', t);
      }
    }
  }

  lemma KillHeld(s: State, t: nat)
    requires Inv(s) && t < |s.th| && s.th[t].RKill?
    ensures Held(s, s.th[t].key) == Lookup(Now(s), s.th[t].key)
    ensures NodeOf(s, s.th[t].key) != 0 <==> s.th[t].key in Now(s)
  {
    assert ThreadOk(s, t);
    assert Locked(s.th[t], Seg(s.th[t].key));
    HeldIsNow(s, t, s.th[t].key);
  }

  lemma {:induction false} KeepsOnce(s: State, sched: seq<Action>)
    requires Inv(s) && Once(s)
    ensures Once(Run(s, sched))
    decreases |sched|
  {
    if sched != [] {
      StepOnce(s, sched[0]);
      KeepsOnce(Step(s, sched[0]), sched[1..]);
    }
  }

  /** In every run a put changes the map exactly once in its call, a remove at most once and just when it
      returns a value, and a get never. */
  lemma RunOnce(cap: nat, threads: nat, sched: seq<Action>)
    requires SEGMENTS <= cap && PowerOfTwo(cap)
    ensures Inv(Init(cap, threads)) && Once(Run(Init(cap, threads), sched))
  {
    InitInv(cap, threads);
    KeepsOnce(Init(cap, threads), sched);
  }

  // ---------- The table and the map ----------

  /** In every run the current table has for each key what the map has, once and with its value; a node
      marked as removed is still there only while its thread holds the lock of the segment. */
  lemma RunHolds(cap: nat, threads: nat, sched: seq<Action>, key: Key)
    requires SEGMENTS <= cap && PowerOfTwo(cap)
    ensures Inv(Init(cap, threads))
    ensures
      var s := Run(Init(cap, threads), sched);
      && Sized(s)
      && (key in Now(s) ==> NodeOf(s, key) != 0 && s.heap[NodeOf(s, key)].value == Some(Now(s)[key]))
      && (key !in Now(s) && s.locks[Seg(key)] == Nobody ==> NodeOf(s, key) == 0)
  {
    InitInv(cap, threads);
    assert KeyOk(Run(Init(cap, threads), sched), key);
  }

  /** When clear has done a segment and still holds its lock, the map has no key of the segment. */
  lemma ClearsSegment(s: State, t: nat, key: Key)
    requires Inv(s) && t < |s.th| && s.th[t].CUnlock? && Seg(key) == s.th[t].seg
    ensures key !in Now(s) && s.locks[Seg(key)] == By(t)
  {
    assert ThreadOk(s, t) && TabOk(Cur(s), |s.heap|) && KeyOk(s, key);
    assert Locked(s.th[t], Seg(key));
    BinSegment(key, |Cur(s)|);
  }

  /** A table that was replaced is never written again, and no node ever changes its key or its link; so
      a reader or an iterator can go on in it. */
  lemma StepFreezes(s: State, a: Action)
    requires Inv(s)
    ensures Frozen(s, Step(s, a))
  {
    if a.Go? && a.tid < |s.th| { assert ThreadOk(s, a.tid); }
  }

  ghost predicate Frozen(s: State, s': State) {
    && 0 < |s.tabs| <= |s'.tabs| && SameLinks(s.heap, s'.heap)
    && forall i :: 0 <= i < |s.tabs| - 1 ==> s'.tabs[i] == s.tabs[i]
  }

  lemma {:induction false} RunFreezes(s: State, sched: seq<Action>)
    requires Inv(s)
    ensures Frozen(s, Run(s, sched))
    decreases |sched|
  {
    if sched != [] {
      var s1 := Step(s, sched[0]);
      StepInv(s, sched[0]);
      StepFreezes(s, sched[0]);
      RunFreezes(s1, sched[1..]);
      var s' := Run(s1, sched[1..]);
      forall i | 0 <= i < |s.tabs| - 1 ensures s'.tabs[i] == s.tabs[i] { assert s1.tabs[i] == s.tabs[i]; }
    }
  }

  // ---------- Locks ----------

  /** At most one thread is between lock and unlock of a segment; so nobody is while a rehash runs. */
  lemma OneInside(s: State, t: nat, u: nat, g: nat)
    requires Inv(s) && t < |s.th| && u < |s.th| && g < SEGMENTS && Locked(s.th[t], g) && Locked(s.th[u], g)
    ensures t == u
  {
    assert ThreadOk(s, t) && ThreadOk(s, u);
  }

  ghost predicate LockOwned(s: State, g: nat)
    requires g < |s.locks|
  {
    s.locks[g].By? ==> s.locks[g].tid < |s.th| && Locked(s.th[s.locks[g].tid], g)
  }

  ghost predicate Owned(s: State)
    requires |s.locks| == SEGMENTS
  {
    forall g :: 0 <= g < SEGMENTS ==> LockOwned(s, g)
  }

  /** Only these steps take or free a lock. */
  predicate LockStep(th: Thread) {
    th.GLock? || th.PLock? || th.RLock? || th.CLock? || th.ZLock?
    || th.GUnlock? || th.PUnlock? || th.RUnlock? || th.CUnlock? || th.ZUnlock?
  }

  lemma WorkOwned(s: State, t: nat, nodes: seq<Node>, bins: seq<nat>)
    requires Safe(s, t) && Owned(s) && !LockStep(s.th[t])
    ensures |GoStep(s, t, nodes, bins).locks| == SEGMENTS && Owned(GoStep(s, t, nodes, bins))
  {
    hide Rebuilt, Rehashed, Held, NodeOf, Find, NodeOk, TabOk;
    var s' := GoStep(s, t, nodes, bins);
    assert s'.locks == s.locks && |s'.th| == |s.th|;
    forall g | 0 <= g < SEGMENTS ensures LockOwned(s', g) { assert LockOwned(s, g); }
  }

  lemma LocksOwned(s: State, t: nat, nodes: seq<Node>, bins: seq<nat>)
    requires Safe(s, t) && Owned(s) && OwnsLocks(s, t) && LockStep(s.th[t])
    ensures |GoStep(s, t, nodes, bins).locks| == SEGMENTS && Owned(GoStep(s, t, nodes, bins))
  {
    hide NodeOk, TabOk;
    var s' := GoStep(s, t, nodes, bins);
    forall g | 0 <= g < SEGMENTS ensures LockOwned(s', g) { assert LockOwned(s, g); }
  }

  lemma StepOwned(s: State, a: Action)
    requires Inv(s) && Owned(s)
    ensures Inv(Step(s, a)) && Owned(Step(s, a))
  {
    StepInv(s, a);
    if a.tid < |s.th| {
      var t := a.tid;
      assert ThreadOk(s, t) && Safe(s, t);
      if a.Go? && LockStep(s.th[t]) {
        LocksOwned(s, t, a.nodes, a.bins);
      } else if a.Go? {
        WorkOwned(s, t, a.nodes, a.bins);
      } else {
        hide NodeOk, TabOk, BinsOk, KeyOk, ThreadOk;
        forall g | 0 <= g < SEGMENTS ensures LockOwned(Step(s, a), g) { assert LockOwned(s, g); }
      }
    }
  }

  lemma {:induction false} KeepsOwned(s: State, sched: seq<Action>)
    requires Inv(s) && Owned(s)
    ensures Owned(Run(s, sched))
    decreases |sched|
  {
    if sched != [] {
      StepOwned(s, sched[0]);
      KeepsOwned(Step(s, sched[0]), sched[1..]);
    }
  }

  // ---------- Somebody can always move ----------

  /** A chain in every bin for the keys of a map: what a rehash or a rebuilt bin needs can be made. */
  lemma {:induction false} Fill(heap: seq<Node>, cap: nat, m: Contents) returns (nodes: seq<Node>, bins: seq<nat>)
    requires cap > 0 && |heap| > 0 && forall p :: 0 < p < |heap| ==> NodeOk(heap, p)
    ensures Extends(heap, nodes) && |bins| == cap && forall b :: 0 <= b < cap ==> bins[b] < |heap + nodes|
    ensures BinsOk(heap + nodes, bins) && forall k :: Holds(heap + nodes, bins[Bin(k, cap)], k, m)
    decreases |m|
  {
    if m == map[] {
      nodes, bins := [], seq(cap, _ => 0);
    } else {
      var key :| key in m;
      assert |m - {key}| < |m| by { assert (m - {key}).Keys == m.Keys - {key}; }
      var less, before := Fill(heap, cap, m - {key});
      nodes, bins := Add(heap, less, before, cap, m, key);
    }
  }

  lemma Add(heap: seq<Node>, less: seq<Node>, before: seq<nat>, cap: nat, m: Contents, key: Key)
    returns (nodes: seq<Node>, bins: seq<nat>)
    requires cap > 0 && |heap| > 0 && key in m && forall p :: 0 < p < |heap| ==> NodeOk(heap, p)
    requires Extends(heap, less) && |before| == cap && forall b :: 0 <= b < cap ==> before[b] < |heap + less|
    requires BinsOk(heap + less, before) && forall k :: Holds(heap + less, before[Bin(k, cap)], k, m - {key})
    ensures Extends(heap, nodes) && |bins| == cap && forall b :: 0 <= b < cap ==> bins[b] < |heap + nodes|
    ensures BinsOk(heap + nodes, bins) && forall k :: Holds(heap + nodes, bins[Bin(k, cap)], k, m)
  {
    var all, b := heap + less, Bin(key, cap);
    nodes, bins := less + [Node(key, before[b], Some(m[key]))], before[b := |all|];
    var more := heap + nodes;
    assert SameLinks(all, more);
    assert Holds(all, before[Bin(key, cap)], key, m - {key});
    FindFrame(all, more, before[b], key);
    forall p | |heap| <= p < |more| ensures NodeOk(more, p) {
      if p < |all| {
        assert NodeOk(all, p);
        FindFrame(all, more, all[p].next, all[p].key);
      }
    }
    forall c | 0 <= c < cap ensures Belong(more, bins[c], c, cap) { BelongFrame(all, more, before[c], c, cap); }
    forall k ensures Holds(more, bins[Bin(k, cap)], k, m) {
      assert Holds(all, before[Bin(k, cap)], k, m - {key});
      FindFrame(all, more, before[Bin(k, cap)], k);
    }
  }

  /** Whether a thread waits for a lock that is held. */
  predicate Waits(s: State, th: Thread)
    requires |s.locks| == SEGMENTS
  {
    match th
    case GLock(k, _, _) => s.locks[Seg(k)] != Nobody
    case PLock(k, _) => s.locks[Seg(k)] != Nobody
    case RLock(k, _) => s.locks[Seg(k)] != Nobody
    case CLock(g) => g < SEGMENTS && s.locks[g] != Nobody
    case ZLock(n, _) => n < SEGMENTS && s.locks[n] != Nobody
    case _ => false
  }

  lemma Moves(s: State, t: nat) returns (nodes: seq<Node>, bins: seq<nat>)
    requires Inv(s) && t < |s.th| && !CanStart(s.th[t]) && !Waits(s, s.th[t])
    ensures Step(s, Go(t, nodes, bins)) != s
  {
    assert ThreadOk(s, t) && TabOk(Cur(s), |s.heap|);
    var cap := |Cur(s)|;
    if s.th[t].RPublish? {
      nodes, bins := Fill(s.heap, cap, Now(s));
      var b := Bin(s.th[t].key, cap);
      bins := [bins[b]];
      assert Rebuilt(s, nodes, bins[0], b);
    } else if s.th[t].ZRehash? {
      nodes, bins := Fill(s.heap, 2 * cap, Now(s));
      assert Rehashed(s, nodes, bins);
    } else {
      nodes, bins := [], [];
      if s.th[t].GWalk? && s.th[t].e != 0 { assert NodeOk(s.heap, s.th[t].e); }
      if s.th[t].CKill? && s.th[t].e != 0 { assert NodeOk(s.heap, s.th[t].e); }
    }
    assert Step(s, Go(t, nodes, bins)).th[t] != s.th[t];
  }

  /** Locks are gathered in order, so the one who holds a lock, or another further up, can move. */
  lemma {:induction false} HolderMoves(s: State, g: nat) returns (u: nat, nodes: seq<Node>, bins: seq<nat>)
    requires Inv(s) && Owned(s) && g < SEGMENTS && s.locks[g].By?
    ensures u < |s.th| && Step(s, Go(u, nodes, bins)) != s
    decreases SEGMENTS - g
  {
    assert LockOwned(s, g);
    u := s.locks[g].tid;
    assert ThreadOk(s, u);
    if Waits(s, s.th[u]) {
      u, nodes, bins := HolderMoves(s, s.th[u].n);
    } else {
      nodes, bins := Moves(s, u);
    }
  }

  /** No deadlock, in any run: while an operation is unfinished some thread can move. */
  lemma SomeoneMoves(cap: nat, threads: nat, sched: seq<Action>, t: nat)
    requires SEGMENTS <= cap && PowerOfTwo(cap)
    ensures Inv(Init(cap, threads))
    ensures
      var s := Run(Init(cap, threads), sched);
      t < |s.th| && !CanStart(s.th[t]) ==>
        exists u: nat, nodes: seq<Node>, bins: seq<nat> :: u < |s.th| && Step(s, Go(u, nodes, bins)) != s
  {
    InitInv(cap, threads);
    var s := Run(Init(cap, threads), sched);
    KeepsOwned(Init(cap, threads), sched);
    if t < |s.th| && !CanStart(s.th[t]) {
      var u, nodes, bins;
      if Waits(s, s.th[t]) {
        u, nodes, bins := HolderMoves(s, Awaited(s.th[t]));
      } else {
        u := t;
        nodes, bins := Moves(s, t);
      }
      assert u < |s.th| && Step(s, Go(u, nodes, bins)) != s;
    }
  }

  function Awaited(th: Thread): nat {
    match th
    case GLock(k, _, _) => Seg(k)
    case PLock(k, _) => Seg(k)
    case RLock(k, _) => Seg(k)
    case CLock(g) => g
    case ZLock(n, _) => n
    case _ => 0
  }
}
