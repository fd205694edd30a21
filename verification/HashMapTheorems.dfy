/** What the hash map promises, for every schedule of its threads. */
module HashMapTheorems {
  import opened HashMapModel
  import opened HashMapProofs

  // ---------- The history ----------

  /** Whether a thread's operation has taken effect. */
  predicate Effective(th: Thread) { th.GUnlock? || th.GDone? || th.PUnlock? || th.PDone? }

  function EventOf(t: nat, th: Thread): Event
    requires Effective(th)
  {
    if th.GUnlock? || th.GDone? then Get(t, th.key, th.res) else Put(t, th.key, th.val, th.res)
  }

  /** A step writes no more than its own thread and mark, and logs an event exactly when it makes the
      operation effective. */
  lemma GoLocal(s: State, t: nat)
    requires Safe(s, t)
    ensures
      var s' := GoStep(s, t);
      && |s'.th| == |s.th| && |s'.mark| == |s.mark| && |s'.locks| == |s.locks|
      && (forall u :: 0 <= u < |s.th| && u != t ==> s'.th[u] == s.th[u] && s'.mark[u] == s.mark[u])
      && s'.mark[t].since == s.mark[t].since
      && (Effective(s.th[t]) ==> Effective(s'.th[t]) && s'.mark == s.mark && s'.hist == s.hist)
      && (!Effective(s.th[t]) && Effective(s'.th[t]) ==>
           s'.hist == s.hist + [EventOf(t, s'.th[t])] && s'.mark[t].at == |s.hist|)
      && (!Effective(s'.th[t]) ==> s'.hist == s.hist)
  {
  }

  /** What the table holds after any schedule is the map of the operations so far: each one took
      effect in one step and returned what the map held then. */
  lemma RunHolds(threads: nat, sched: seq<Action>)
    ensures Inv(Init(threads))
    ensures
      var s := Run(Init(threads), sched);
      Replay(s.hist).Some? && Sized(s) && Holds(s, Replay(s.hist).value)
  {
    InitInv(threads);
  }

  lemma {:induction false} LegalPrefix(h: seq<Event>, k: nat)
    requires k <= |h| && Replay(h).Some?
    ensures Replay(h[..k]).Some?
  {
    if k < |h| {
      assert h[..k] == h[..|h| - 1][..k];
      LegalPrefix(h[..|h| - 1], k);
    } else {
      assert h[..k] == h;
    }
  }

  /** An operation that returned took effect during its call, and returns what its key had then; a put
      then gave its key the new value. */
  lemma ReturnsCurrent(s: State, t: nat)
    requires Inv(s) && t < |s.th| && (s.th[t].GDone? || s.th[t].PDone?)
    ensures
      var m := s.mark[t];
      && m.since <= m.at < |s.hist| && s.hist[m.at] == EventOf(t, s.th[t])
      && var before := Replay(s.hist[..m.at]);
      && before.Some? && s.th[t].res == Lookup(before.value, s.th[t].key)
      && Replay(s.hist[..m.at + 1]) ==
           Some(if s.th[t].PDone? then before.value[s.th[t].key := s.th[t].val] else before.value)
  {
    assert ThreadInv(s, t);
    var at := s.mark[t].at;
    LegalPrefix(s.hist, at);
    LegalPrefix(s.hist, at + 1);
    assert s.hist[..at + 1][..at] == s.hist[..at];
  }

  /** Each call takes effect at most once: the history holds one event of a thread since its call
      began, the one its mark points at. */
  ghost predicate Once(s: State)
    requires |s.mark| == |s.th|
  {
    forall t, i :: 0 <= t < |s.th| && s.mark[t].since <= i < |s.hist| && s.hist[i].tid == t ==>
      Effective(s.th[t]) && i == s.mark[t].at
  }

  lemma StepOnce(s: State, a: Action)
    requires Inv(s) && Once(s)
    ensures Inv(Step(s, a)) && Once(Step(s, a))
  {
    StepInv(s, a);
    if a.Go? && a.tid < |s.th| {
      assert ThreadInv(s, a.tid);
      GoLocal(s, a.tid);
      forall u | 0 <= u < |s.th| ensures s.mark[u].since <= |s.hist| { assert ThreadInv(s, u); }
    }
  }

  lemma {:induction false} KeepsOnce(s: State, sched: seq<Action>)
    requires Inv(s) && Once(s)
    ensures Once(Run(s, sched))
    decreases |sched|
  {
    if sched != [] {
      StepOnce(s, sched[0]);
      KeepsOnce(Step(s, sched[0]), sched[1..]);
    }
  }

  /** In every run each call takes effect at most once. */
  lemma RunOnce(threads: nat, sched: seq<Action>)
    ensures Inv(Init(threads)) && Once(Run(Init(threads), sched))
  {
    InitInv(threads);
    KeepsOnce(Init(threads), sched);
  }

  // ---------- The lock-free read ----------

  /** A get that finds its key without the lock returns at its load of the value, with the value the
      map holds then; the retry of line 40 is never taken. */
  lemma HitIsCurrent(s: State, t: nat)
    requires Inv(s) && t < |s.th| && s.th[t].GValue?
    ensures Safe(s, t)
    ensures
      var s' := GetValue(s, t);
      var m := Replay(s.hist).value;
      && s'.th[t].GDone? && s'.locks == s.locks
      && s.th[t].key in m && s'.th[t].res == m[s.th[t].key] != 0
  {
    assert ThreadInv(s, t);
    GetValueInv(s, t);
    var k := s.th[t].key;
    var e := s.th[t].e;
    assert EntryOk(s.entries, e);
    OnlyOne(s.entries, s.table[Bin(k)], e, k);
  }

  /** The only step that makes a get answer 0 is one of its own, taken while it holds the lock of its
      segment and the map has no such key; so without the lock it never answers 0. */
  lemma ZeroUnderLock(s: State, a: Action, t: nat)
    requires Inv(s) && t < |s.th|
    requires
      var th := Step(s, a).th[t];
      (th.GUnlock? || th.GDone?) && th.res == 0 && !Effective(s.th[t])
    ensures a == Go(t) && HoldsLock(s, t, s.th[t].key)
    ensures s.th[t].key !in Replay(s.hist).value
    ensures Step(s, a).th[t].GUnlock?
  {
    assert ThreadInv(s, t);
    if a != Go(t) {
      if a.Go? && a.tid < |s.th| {
        assert ThreadInv(s, a.tid);
        GoLocal(s, a.tid);
      }
      assert false;
    }
    if s.th[t].GValue? { HitIsCurrent(s, t); }
    NeverZero(s, t);
  }

  /** No entry holds 0. */
  lemma NeverZero(s: State, t: nat)
    requires Inv(s) && t < |s.th|
    ensures s.th[t].GRewalk? && s.th[t].e != 0 ==>
      s.th[t].e < |s.entries| && s.entries[s.th[t].e].value != 0
  {
    assert ThreadInv(s, t);
    if s.th[t].GRewalk? && s.th[t].e != 0 { assert EntryOk(s.entries, s.th[t].e); }
  }

  // ---------- Chains ----------

  predicate Writes(th: Thread) { th.PStore? || th.PAlloc? || th.PPublish? }

  lemma OthersOnlyRead(s: State, t: nat)
    requires Safe(s, t) && !Writes(s.th[t])
    ensures GoStep(s, t).entries == s.entries && GoStep(s, t).table == s.table
  {
  }

  /** What the steps of t do to entries and bins. */
  lemma GoKeeps(s: State, t: nat)
    requires Inv(s) && t < |s.th|
    ensures Safe(s, t)
    ensures
      var s' := GoStep(s, t);
      && |s'.table| == CAPACITY && SameLinks(s.entries, s'.entries)
      && (forall b :: 0 <= b < CAPACITY ==> BinKept(s, s', t, b))
      && (forall p :: 0 <= p < |s.entries| ==> EntryKept(s, s', t, p))
  {
    assert ThreadInv(s, t);
    match s.th[t] {
      case PStore(_, _, _, _) =>
      case PAlloc(_, _, _) =>
      case PPublish(_, _, n) => assert EntryOk(s.entries, n);
      case _ => OthersOnlyRead(s, t);
    }
  }

  /** Every step keeps each entry's key, hash and link, and each bin's chain but for one new entry in
      front; only the thread holding the bin's lock changes it or the values on it. */
  lemma ChainsGrowInFront(s: State, a: Action)
    requires Inv(s)
    ensures
      var s' := Step(s, a);
      && Sized(s') && SameLinks(s.entries, s'.entries)
      && (forall b :: 0 <= b < CAPACITY ==> BinKept(s, s', a.tid, b))
      && (forall p :: 0 <= p < |s.entries| ==> EntryKept(s, s', a.tid, p))
      && (forall b, p :: 0 <= b < CAPACITY && OnChain(s.entries, s.table[b], p) ==>
           OnChain(s'.entries, s'.table[b], p))
  {
    StepInv(s, a);
    if a.Go? && a.tid < |s.th| {
      GoKeeps(s, a.tid);
      var s' := GoStep(s, a.tid);
      forall b, p | 0 <= b < CAPACITY && OnChain(s.entries, s.table[b], p)
        ensures OnChain(s'.entries, s'.table[b], p)
      {
        assert BinKept(s, s', a.tid, b);
        ChainFrame(s.entries, s'.entries, s.table[b], p);
      }
    }
  }

  // ---------- The locks ----------

  /** A segment has at most one thread between its lock and unlock. */
  lemma OneInside(s: State, t: nat, u: nat)
    requires Inv(s) && t < |s.th| && u < |s.th| && Locked(s.th[t]) && Locked(s.th[u])
    requires Bin(s.th[t].key) == Bin(s.th[u].key)
    ensures t == u
  {
    assert ThreadInv(s, t) && ThreadInv(s, u);
  }

  /** A lock is held only by a thread inside its segment. */
  ghost predicate Owned(s: State)
    requires |s.locks| == SEGMENTS
  {
    forall b :: 0 <= b < SEGMENTS && s.locks[b].By? ==>
      var u := s.locks[b].tid;
      u < |s.th| && Locked(s.th[u]) && Bin(s.th[u].key) == b
  }

  lemma GoOwned(s: State, t: nat)
    requires Safe(s, t) && Owned(s) && (Locked(s.th[t]) ==> s.locks[Bin(s.th[t].key)] == By(t))
    ensures Owned(GoStep(s, t))
  {
    var s' := GoStep(s, t);
    assert forall u :: 0 <= u < |s.th| && u != t ==> s'.th[u] == s.th[u];
    if s.th[t].GLock? || s.th[t].PLock? {
    } else if s.th[t].GUnlock? || s.th[t].PUnlock? {
    } else {
      assert s'.locks == s.locks;
      assert Locked(s.th[t]) ==> Locked(s'.th[t]) && s'.th[t].key == s.th[t].key;
    }
  }

  lemma StepOwned(s: State, a: Action)
    requires Inv(s) && Owned(s)
    ensures Inv(Step(s, a)) && Owned(Step(s, a))
  {
    StepInv(s, a);
    if a.Go? && a.tid < |s.th| {
      assert ThreadInv(s, a.tid);
      GoOwned(s, a.tid);
    }
  }

  lemma {:induction false} KeepsOwned(s: State, sched: seq<Action>)
    requires Inv(s) && Owned(s)
    ensures Owned(Run(s, sched))
    decreases |sched|
  {
    if sched != [] {
      StepOwned(s, sched[0]);
      KeepsOwned(Step(s, sched[0]), sched[1..]);
    }
  }

  /** In every run a lock that is held is held by a thread inside its segment. */
  lemma RunOwned(threads: nat, sched: seq<Action>)
    ensures Inv(Init(threads)) && Owned(Run(Init(threads), sched))
  {
    InitInv(threads);
    KeepsOwned(Init(threads), sched);
  }

  /** No deadlock, in any run: a thread that cannot move waits for a lock whose holder can. */
  lemma BlockedByAMover(threads: nat, sched: seq<Action>, t: nat)
    ensures Inv(Init(threads))
    ensures
      var s := Run(Init(threads), sched);
      t < |s.th| && !CanStart(s.th[t]) && Step(s, Go(t)) == s ==>
        && (s.th[t].GLock? || s.th[t].PLock?)
        && var lock := s.locks[Bin(s.th[t].key)];
        && lock.By? && Step(s, Go(lock.tid)) != s
  {
    RunOwned(threads, sched);
    var s := Run(Init(threads), sched);
    if t < |s.th| && !CanStart(s.th[t]) && Step(s, Go(t)) == s {
      Blocker(s, t);
    }
  }

  lemma Blocker(s: State, t: nat)
    requires Inv(s) && Owned(s) && t < |s.th| && !CanStart(s.th[t]) && Step(s, Go(t)) == s
    ensures (s.th[t].GLock? || s.th[t].PLock?) && s.locks[Bin(s.th[t].key)].By?
    ensures Step(s, Go(s.locks[Bin(s.th[t].key)].tid)) != s
  {
    if !(s.th[t].GLock? || s.th[t].PLock?) || s.locks[Bin(s.th[t].key)] == Nobody {
      Moves(s, t);
      assert false;
    }
    Moves(s, s.locks[Bin(s.th[t].key)].tid);
  }

  lemma Moves(s: State, t: nat)
    requires Inv(s) && t < |s.th| && !CanStart(s.th[t])
    requires s.th[t].GLock? || s.th[t].PLock? ==> s.locks[Bin(s.th[t].key)] == Nobody
    ensures Step(s, Go(t)) != s
  {
    assert ThreadInv(s, t);
    var th := s.th[t];
    if (th.GWalk? || th.GRewalk? || th.PWalk?) && th.e != 0 { assert EntryOk(s.entries, th.e); }
    assert Step(s, Go(t)).th[t] != th;
  }
}
