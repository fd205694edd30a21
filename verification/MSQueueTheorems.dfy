/** What the queue promises, for every schedule of every number of threads. */
module MSQueueTheorems {
  import opened MSQueueModel
  import opened MSQueueProofs

  // ---------- First in, first out ----------

  predicate Effective(th: Thread) {
    th.ESwing? || th.EDone? || th.DReclaim? || th.DTrue?
  }

  predicate Links(s: State, t: nat)
    requires Safe(s, t)
  {
    s.th[t].ECasNext? && s.next[s.th[t].tail.ptr] == s.th[t].next
  }

  predicate Unlinks(s: State, t: nat)
    requires Safe(s, t)
  {
    s.th[t].DCasHead? && s.head == s.th[t].head
  }

  /** A step other than a successful link or unlink leaves the history, the list and `head` alone. */
  lemma GoQuiet(s: State, t: nat)
    requires Safe(s, t) && !Links(s, t) && !Unlinks(s, t)
    ensures
      var s' := GoStep(s, t);
      && s'.hist == s.hist && s'.head == s.head && s'.list == s.list
      && !(s.th[t].ECasNext? && s'.th[t].ESwing?) && !s'.th[t].DReclaim?
  {
  }

  /** A step writes no more than its own thread and mark; only a link or unlink makes it effective. */
  lemma GoLocal(s: State, t: nat)
    requires Safe(s, t)
    ensures
      var s' := GoStep(s, t);
      && |s'.th| == |s.th| && |s'.mark| == |s.mark|
      && (forall u :: 0 <= u < |s.th| && u != t ==> s'.th[u] == s.th[u] && s'.mark[u] == s.mark[u])
      && s'.mark[t].since == s.mark[t].since
      && (!Links(s, t) && !Unlinks(s, t) ==> (Effective(s'.th[t]) <==> Effective(s.th[t])))
      && (!Links(s, t) && !Unlinks(s, t) && Effective(s.th[t]) ==> s'.mark == s.mark)
  {
  }

  /** The event a step adds to the history, if any. */
  lemma StepHist(s: State, a: Action)
    requires Inv(s)
    ensures
      var s' := Step(s, a);
      s'.hist ==
      if a.Go? && a.tid < |s.th| && s.th[a.tid].ECasNext? && s'.th[a.tid].ESwing? then
        s.hist + [Enq(a.tid, s.th[a.tid].val)]
      else if a.Go? && a.tid < |s.th| && s'.th[a.tid].DReclaim? then
        s.hist + [Deq(a.tid, s'.th[a.tid].ret)]
      else s.hist
  {
    if a.Go? && a.tid < |s.th| {
      assert At(s, a.tid);
      if !Links(s, a.tid) && !Unlinks(s, a.tid) {
        GoQuiet(s, a.tid);
      }
    }
  }

  /** Only a successful link or head swing changes the queue; the first appends the enqueuer's value
      at the back, the second removes exactly the value its thread is about to return. */
  lemma StepIsFifo(s: State, a: Action)
    requires Inv(s)
    ensures
      var s' := Step(s, a);
      Inv(s') &&
      if a.Go? && a.tid < |s.th| && s.th[a.tid].ECasNext? && s'.th[a.tid].ESwing? then
        var v := s.th[a.tid].val;
        s'.hist == s.hist + [Enq(a.tid, v)] && Contents(s') == Contents(s) + [v]
      else if a.Go? && a.tid < |s.th| && s'.th[a.tid].DReclaim? then
        var v := s'.th[a.tid].ret;
        s'.hist == s.hist + [Deq(a.tid, v)] && Contents(s) == [v] + Contents(s')
      else
        s'.hist == s.hist && Contents(s') == Contents(s)
  {
    var s' := Step(s, a);
    StepInv(s, a);
    StepHist(s, a);
    if s'.hist != s.hist {
      assert s'.hist[..|s.hist|] == s.hist;
    }
  }

  function Enqueued(h: seq<Event>): seq<int> {
    if h == [] then [] else
    Enqueued(h[..|h| - 1]) + if h[|h| - 1].Enq? then [h[|h| - 1].val] else []
  }

  function Dequeued(h: seq<Event>): seq<int> {
    if h == [] then [] else
    Dequeued(h[..|h| - 1]) + if h[|h| - 1].Deq? then [h[|h| - 1].val] else []
  }

  /** A legal history dequeues, in order, a prefix of what it enqueued; the queue is the rest. */
  lemma {:induction false} LegalIsFifo(h: seq<Event>)
    requires Replay(h).Some?
    ensures Enqueued(h) == Dequeued(h) + Replay(h).value
  {
    if h != [] {
      var h0 := h[..|h| - 1];
      LegalIsFifo(h0);
      var q := Replay(h0).value;
      if h[|h| - 1].Deq? {
        assert q == [q[0]] + q[1..];
      }
    }
  }

  /** Every run: the values taken out so far, then those still queued, are the values put in. */
  lemma RunIsFifo(threads: nat, nodes: nat, sched: seq<Action>)
    requires EnoughNodes(threads, nodes)
    ensures Inv(Init(threads, nodes))
    ensures
      var s := Run(Init(threads, nodes), sched);
      Replay(s.hist) == Some(Contents(s)) && Enqueued(s.hist) == Dequeued(s.hist) + Contents(s)
  {
    InitInv(threads, nodes);
    LegalIsFifo(Run(Init(threads, nodes), sched).hist);
  }

  lemma {:induction false} LegalPrefix(h: seq<Event>, k: nat)
    requires k <= |h| && Replay(h).Some?
    ensures Replay(h[..k]).Some?
  {
    if k < |h| {
      assert h[..k] == h[..|h| - 1][..k];
      LegalPrefix(h[..|h| - 1], k);
    } else {
      assert h[..k] == h;
    }
  }

  /** A dequeue that returned true took effect during its call, and returns the value that was then
      at the front. */
  lemma DequeuedTheFront(s: State, t: nat)
    requires Inv(s) && t < |s.th| && s.th[t].DTrue?
    ensures
      var m := s.mark[t];
      m.since <= m.at < |s.hist| && s.hist[m.at] == Deq(t, s.th[t].ret) &&
      var q := Replay(s.hist[..m.at]);
      q.Some? && q.value != [] && q.value[0] == s.th[t].ret
  {
    assert ThreadInv(s, t);
    var at := s.mark[t].at;
    LegalPrefix(s.hist, at + 1);
    assert s.hist[..at + 1][..at] == s.hist[..at];
  }

  /** An enqueue that returned took effect during its call, putting its value at the back. */
  lemma EnqueuedAtTheBack(s: State, t: nat)
    requires Inv(s) && t < |s.th| && s.th[t].EDone?
    ensures
      var m := s.mark[t];
      m.since <= m.at < |s.hist| && s.hist[m.at] == Enq(t, s.th[t].val) &&
      var q := Replay(s.hist[..m.at]);
      q.Some? && Replay(s.hist[..m.at + 1]) == Some(q.value + [s.th[t].val])
  {
    assert ThreadInv(s, t);
    var at := s.mark[t].at;
    LegalPrefix(s.hist, at + 1);
    assert s.hist[..at + 1][..at] == s.hist[..at];
  }

  /** A dequeue that returned false took effect during its call, when the queue was empty. */
  lemma FalseMeansEmpty(s: State, t: nat)
    requires Inv(s) && t < |s.th| && s.th[t].DFalse?
    ensures s.mark[t].since <= s.mark[t].at <= |s.hist|
    ensures Replay(s.hist[..s.mark[t].at]) == Some([])
  {
    assert ThreadInv(s, t);
  }

  /** So a failed dequeue may be written into the history where it took effect: the result is a
      legal history of the same operations with the same final queue. */
  lemma {:induction false} InsertEmpty(h: seq<Event>, k: nat, t: nat)
    requires k <= |h| && Replay(h[..k]) == Some([])
    ensures Replay(h[..k] + [Empty(t)] + h[k..]) == Replay(h)
    decreases |h|
  {
    if k == |h| {
      assert h[..k] + [Empty(t)] + h[k..] == h + [Empty(t)];
      assert (h + [Empty(t)])[..|h|] == h && h[..k] == h;
    } else {
      var h0 := h[..|h| - 1];
      assert h0[..k] == h[..k];
      InsertEmpty(h0, k, t);
      var g := h[..k] + [Empty(t)] + h[k..];
      assert g[..|g| - 1] == h0[..k] + [Empty(t)] + h0[k..];
    }
  }

  // ---------- Every operation takes effect exactly once ----------

  /** Since its current call began, a thread has one event once it is past its effect, none before. */
  ghost predicate Once(s: State)
    requires |s.mark| == |s.th|
  {
    forall t, i :: 0 <= t < |s.th| && s.mark[t].since <= i < |s.hist| && s.hist[i].tid == t ==>
      Effective(s.th[t]) && i == s.mark[t].at
  }

  lemma OnceGo(s: State, t: nat)
    requires Safe(s, t) && Once(s)
    requires forall u :: 0 <= u < |s.th| ==> s.mark[u].since <= |s.hist|
    ensures Once(GoStep(s, t))
  {
    GoLocal(s, t);
    if !Links(s, t) && !Unlinks(s, t) {
      GoQuiet(s, t);
    }
  }

  lemma StepOnce(s: State, a: Action)
    requires Inv(s) && Once(s)
    ensures Inv(Step(s, a)) && Once(Step(s, a))
  {
    StepInv(s, a);
    if a.Go? && a.tid < |s.th| {
      assert At(s, a.tid);
      forall u | 0 <= u < |s.th| ensures s.mark[u].since <= |s.hist| { assert ThreadInv(s, u); }
      OnceGo(s, a.tid);
    }
  }

  lemma {:induction false} KeepsOnce(s: State, sched: seq<Action>)
    requires Inv(s) && Once(s)
    ensures Once(Run(s, sched))
    decreases |sched|
  {
    if sched != [] {
      StepOnce(s, sched[0]);
      KeepsOnce(Step(s, sched[0]), sched[1..]);
    }
  }

  /** In every run each call takes effect at most once. */
  lemma RunOnce(threads: nat, nodes: nat, sched: seq<Action>)
    requires EnoughNodes(threads, nodes)
    ensures Inv(Init(threads, nodes)) && Once(Run(Init(threads, nodes), sched))
  {
    InitInv(threads, nodes);
    KeepsOnce(Init(threads, nodes), sched);
  }

  // ---------- No word ever returns to an old value ----------

  /** Link words are re-initialised with the count they had, but only from non-null to null. */
  function Rank(p: Ptr): nat {
    2 * p.count + if p.ptr == 0 then 1 else 0
  }

  ghost predicate WordsAdvance(s: State, s': State) {
    && |s.next| == |s'.next|
    && s.head.count <= s'.head.count && (s.head.count == s'.head.count ==> s.head == s'.head)
    && s.tail.count <= s'.tail.count && (s.tail.count == s'.tail.count ==> s.tail == s'.tail)
    && forall n :: 0 <= n < |s.next| ==>
         Rank(s.next[n]) <= Rank(s'.next[n]) && (Rank(s.next[n]) == Rank(s'.next[n]) ==> s.next[n] == s'.next[n])
  }

  lemma StepAdvances(s: State, a: Action)
    requires Inv(s)
    ensures WordsAdvance(s, Step(s, a))
  {
    var t := a.tid;
    if t < |s.th| {
      assert ThreadInv(s, t);
    }
  }

  lemma {:induction false} RunAdvances(s: State, sched: seq<Action>)
    requires Inv(s)
    ensures WordsAdvance(s, Run(s, sched))
    decreases |sched|
  {
    if sched != [] {
      StepInv(s, sched[0]);
      StepAdvances(s, sched[0]);
      RunAdvances(Step(s, sched[0]), sched[1..]);
    }
  }

  lemma {:induction false} RunSplit(s: State, a: seq<Action>, b: seq<Action>)
    requires Inv(s)
    ensures Run(s, a + b) == Run(Run(s, a), b)
    decreases |a|
  {
    if a == [] {
      assert a + b == b;
    } else {
      assert (a + b)[1..] == a[1..] + b;
      StepInv(s, a[0]);
      RunSplit(Step(s, a[0]), a[1..], b);
    }
  }

  /** A compare-and-swap that finds the word it read earlier finds a word that never changed in
      between, although nodes are recycled at once: if `head`, `tail` or any link word is equal at
      both ends of a run, it had that value after every step of the run. */
  lemma NoABA(s: State, sched: seq<Action>, k: nat)
    requires Inv(s) && k <= |sched|
    ensures
      var m := Run(s, sched[..k]);
      var s' := Run(s, sched);
      && |m.next| == |s'.next| == |s.next|
      && (s'.head == s.head ==> m.head == s.head)
      && (s'.tail == s.tail ==> m.tail == s.tail)
      && forall n :: 0 <= n < |s.next| && s'.next[n] == s.next[n] ==> m.next[n] == s.next[n]
  {
    assert sched == sched[..k] + sched[k..];
    RunSplit(s, sched[..k], sched[k..]);
    RunAdvances(s, sched[..k]);
    RunAdvances(Run(s, sched[..k]), sched[k..]);
  }

  // ---------- Nodes ----------

  /** Whether thread t alone holds node n. */
  predicate InHand(s: State, t: nat, n: nat)
    requires t < |s.th|
  {
    n != 0 && HeldNode(s.th[t]) == n
  }

  /** A node in the list is in nobody's hand and on nobody's free list; a node in a thread's hand is
      in no other hand and on no free list; a node on a free list is there once and on no other. */
  lemma OneHome(s: State, n: nat, t: nat)
    requires Inv(s) && n < |s.next| && t < |s.th|
    ensures n in s.list ==> !InHand(s, t, n) && !InFree(s.free[t], n)
    ensures InHand(s, t, n) ==> !InFree(s.free[t], n)
    ensures forall u :: 0 <= u < |s.th| && u != t && (InHand(s, t, n) || InFree(s.free[t], n)) ==>
              !InHand(s, u, n) && !InFree(s.free[u], n)
    ensures forall i, j :: 0 <= i < j < |s.free[t]| && s.free[t][i] == n != 0 ==> s.free[t][j] != n
  {
    assert s.place[n] == Held(t) <==> InHand(s, t, n);
    assert s.place[n] == Free(t) <==> InFree(s.free[t], n);
    forall u | 0 <= u < |s.th| && u != t && (InHand(s, t, n) || InFree(s.free[t], n))
      ensures !InHand(s, u, n) && !InFree(s.free[u], n)
    {
      assert s.place[n] == Held(u) <==> InHand(s, u, n);
      assert s.place[n] == Free(u) <==> InFree(s.free[u], n);
    }
    assert FreeListOk(s.free[t], |s.place|);
  }

  /** A node in use that was not dropped is in the list, in a hand or on a free list. */
  lemma SomeHome(s: State, n: nat)
    requires Inv(s) && n < |s.next| && s.place[n] != Unused && s.place[n] != Dropped
    ensures n in s.list || exists t :: 0 <= t < |s.th| && (InHand(s, t, n) || InFree(s.free[t], n))
  {
    if s.place[n].Held? || s.place[n].Free? {
      var t := s.place[n].tid;
      assert s.place[n] == Held(t) <==> InHand(s, t, n);
      assert s.place[n] == Free(t) <==> InFree(s.free[t], n);
    }
  }

  /** The node a step moves from one place to another; 0 if none. */
  function Moved(s: State, t: nat): nat
    requires Safe(s, t)
  {
    var k := FirstSlot(s.free[t], true, 0);
    if s.th[t].ENew? && k < |s.free[t]| then s.free[t][k]
    else if Links(s, t) then s.th[t].node
    else if Unlinks(s, t) || s.th[t].DReclaim? then s.th[t].head.ptr
    else 0
  }

  lemma OnlyMoved(s: State, t: nat, n: nat)
    requires Safe(s, t) && n < |s.place|
    ensures |GoStep(s, t).place| == |s.place|
    ensures n != Moved(s, t) ==> GoStep(s, t).place[n] == s.place[n]
  {
  }

  /** Nodes never appear from or vanish to nowhere, and a dropped node stays dropped; only a
      reclaim onto a full free list drops one. */
  lemma NodesConserved(s: State, a: Action, n: nat)
    requires Inv(s) && n < |s.next|
    ensures n < |Step(s, a).place|
    ensures Step(s, a).place[n] == Unused <==> s.place[n] == Unused
    ensures s.place[n] == Dropped ==> Step(s, a).place[n] == Dropped
    ensures Step(s, a).place[n] == Dropped && s.place[n] != Dropped ==>
      a.Go? && a.tid < |s.th| && s.th[a.tid].DReclaim? && s.th[a.tid].head.ptr == n
      && forall i :: 0 <= i < |s.free[a.tid]| ==> s.free[a.tid][i] != 0
  {
    var t := a.tid;
    if a.Go? && t < |s.th| {
      assert At(s, t);
      OnlyMoved(s, t, n);
      Ends(s);
      if n == Moved(s, t) && s.th[t].ENew? {
        assert n != 0 ==> InFree(s.free[t], n);
      }
    }
  }

  // ---------- Shape ----------

  /** The poison assertion of line 223 holds: a checked head node is a listed one. */
  lemma NeverPoisoned(s: State, t: nat)
    requires Inv(s) && t < |s.th| && s.th[t].DCheckHead? && s.head == s.th[t].head
    ensures s.th[t].next.ptr != POISON_IDX
    ensures s.th[t].next.ptr != 0 ==> s.th[t].next == s.next[s.head.ptr] && s.th[t].next.ptr in s.list
  {
    assert ThreadInv(s, t);
    Ends(s);
  }

  /** A swing of `tail` that succeeds moves it from a listed node to that node's successor, which is
      the last node; `tail` never falls behind `head`, and every step keeps it among the last two. */
  lemma TailFollows(s: State, a: Action)
    requires Inv(s)
    ensures Inv(Step(s, a))
    ensures Step(s, a).tail != s.tail ==>
      Step(s, a).tail == Ptr(s.next[s.tail.ptr].ptr, s.tail.count + 1)
      && |s.list| >= 2 && s.tail.ptr == s.list[|s.list| - 2] && Step(s, a).tail.ptr == Last(s)
    ensures Step(s, a).tail.ptr in Step(s, a).list
  {
    StepInv(s, a);
    Ends(s);
    Ends(Step(s, a));
    var t := a.tid;
    if t < |s.th| {
      assert ThreadInv(s, t);
    }
  }

  // ---------- The arena ----------

  /** The source's arena is large enough for four threads and no more. */
  lemma FourThreads(threads: nat)
    ensures EnoughNodes(threads, NUM_NODES) <==> threads <= 4
  {
    if threads > 4 { assert InitialNode(4, 0) >= NUM_NODES; }
  }
}
