/** What the lock promises, for every schedule of any number of threads reusing their nodes. */
module McsTheorems {
  import opened McsModel
  import opened McsProofs

  /** At most one thread is between the return of lock and the releasing step of unlock. */
  lemma MutualExclusion(s: State, t: nat, u: nat)
    requires Inv(s) && t < |s.th| && u < |s.th| && Inside(s.th[t]) && Inside(s.th[u])
    ensures t == u
  {
    assert ThreadOk(s, t) && ThreadOk(s, u);
  }

  /** A thread logs an exchange when it swaps the tail and an entry when lock returns, and no other
      step logs anything; releases are counted one at a time. */
  lemma StepLogs(s: State, a: Action)
    requires Inv(s)
    ensures
      var s' := Step(s, a);
      var t := a.tid;
      && s'.swaps == (if a.Go? && t < |s.th| && s.th[t].LSwap? then s.swaps + [t] else s.swaps)
      && s'.entries == (if t < |s.th| && !Inside(s.th[t]) && Inside(s'.th[t]) then s.entries + [t] else s.entries)
      && s'.served == s.served + (if t < |s.th| && Inside(s.th[t]) && !Inside(s'.th[t]) then 1 else 0)
      && |s'.th| == |s.th| && |s'.ticket| == |s.ticket| == |s.th|
      && forall u :: 0 <= u < |s.th| && u != t ==> s'.th[u] == s.th[u] && s'.ticket[u] == s.ticket[u]
  {
    if a.tid < |s.th| { assert ThreadOk(s, a.tid); }
  }

  /** Every run: threads have entered in the order of their exchanges. */
  lemma RunIsFifo(nodes: nat, threads: nat, sched: seq<Action>)
    ensures Inv(Init(nodes, threads))
    ensures
      var s := Run(Init(nodes, threads), sched);
      s.entries <= s.swaps && s.served <= |s.entries| <= s.served + 1
  {
    InitInv(nodes, threads);
  }

  /** A queued thread keeps its place, k exchanges after the first, and is inside only once exactly
      k threads have released. */
  lemma PlaceIsKept(s: State, a: Action, t: nat)
    requires Inv(s) && t < |s.th| && Queued(s.th[t])
    ensures Inv(Step(s, a))
    ensures s.swaps[..|s.swaps|] <= Step(s, a).swaps
    ensures Queued(Step(s, a).th[t]) ==> Step(s, a).ticket[t] == s.ticket[t]
    ensures Inside(s.th[t]) ==> s.ticket[t] == s.served
  {
    StepInv(s, a);
    StepLogs(s, a);
    assert ThreadOk(s, t);
  }

  /** `tail` is null exactly when no thread is between its exchange and its release. */
  lemma TailNullIffFree(s: State)
    requires Inv(s)
    ensures s.tail == Null <==> forall t :: 0 <= t < |s.th| ==> !Queued(s.th[t])
  {
    if s.tail == Null {
      forall t | 0 <= t < |s.th| ensures !Queued(s.th[t]) { assert ThreadOk(s, t); }
    } else {
      assert PlaceOk(s, |s.swaps| - 1);
      assert Queued(s.th[s.swaps[|s.swaps| - 1]]);
    }
  }

  /** Thread t's next step moves it on. */
  predicate CanMove(s: State, t: nat)
    requires Safe(s, t)
  {
    GoStep(s, t).th[t] != s.th[t]
  }

  /** While anyone is queued, the first holds the lock, or can move on, or waits for the second to
      link itself, which it can: no waiter is ever lost. */
  lemma SomeoneCanMove(s: State)
    requires Inv(s) && s.served < |s.swaps|
    ensures PlaceOk(s, s.served)
    ensures
      var first := s.swaps[s.served];
      Safe(s, first) &&
      (s.th[first].Holding? || CanMove(s, first)
       || (PlaceOk(s, s.served + 1) && Safe(s, s.swaps[s.served + 1])
           && s.th[s.swaps[s.served + 1]].LLink? && CanMove(s, s.swaps[s.served + 1])))
  {
    assert PlaceOk(s, s.served);
    var first := s.swaps[s.served];
    assert ThreadOk(s, first);
    if s.th[first].USpin? && s.next[s.th[first].me] == Null {
      assert PlaceOk(s, s.served + 1);
      assert ThreadOk(s, s.swaps[s.served + 1]);
    }
  }

  ghost predicate Unused(s: State, n: nat) {
    forall u :: 0 <= u < |s.th| ==> !Uses(s, u, n)
  }

  /** No thread is about to write into node n: none links itself to it, and none opens its gate. */
  ghost predicate NoPendingWrite(s: State, n: nat) {
    forall u :: 0 <= u < |s.th| ==>
      !(s.th[u].LLink? && s.th[u].pred == n) && !(s.th[u].UGate? && s.th[u].next == n)
  }

  /** A node no guard uses is nobody's: not the tail, and no pending write goes to it. */
  lemma UnusedIsFree(s: State, n: nat)
    requires Inv(s) && Unused(s, n)
    ensures NoPendingWrite(s, n) && s.tail != Node(n)
  {
    forall u | 0 <= u < |s.th|
      ensures !(s.th[u].LLink? && s.th[u].pred == n) && !(s.th[u].UGate? && s.th[u].next == n)
    {
      assert ThreadOk(s, u);
      if s.th[u].LLink? {
        assert !Uses(s, s.swaps[s.ticket[u] - 1], n);
      } else if s.th[u].UGate? {
        assert !Uses(s, s.swaps[s.served + 1], n);
      }
    }
    if s.tail != Null {
      assert !Uses(s, s.swaps[|s.swaps| - 1], n);
    }
  }

  /** So the moment unlock returns, by either path, its node may be reused at once by any thread. */
  lemma ReleaseFreesNode(s: State, t: nat)
    requires Inv(s) && t < |s.th| && Safe(s, t) && Inside(s.th[t]) && GoStep(s, t).th[t].Idle?
    ensures Inv(GoStep(s, t))
    ensures Unused(GoStep(s, t), s.th[t].me) && NoPendingWrite(GoStep(s, t), s.th[t].me)
    ensures MayLock(GoStep(s, t), t, s.th[t].me)
  {
    assert ThreadOk(s, t);
    StepInv(s, Go(t));
    var s' := GoStep(s, t);
    var n := s.th[t].me;
    forall u | 0 <= u < |s.th| ensures !Uses(s', u, n) {
      if u != t { assert s'.th[u] == s.th[u]; }
    }
    UnusedIsFree(s', n);
  }
}
