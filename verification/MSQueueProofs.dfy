module MSQueueProofs {
  import opened MSQueueModel

  /** What a step of some thread guarantees every other thread `u`. */
  ghost predicate Rely(s: State, s': State, u: nat)
    requires Arena(s) && u < |s.th|
  {
    && Arena(s')
    && |s'.th| == |s.th| && |s'.next| == |s.next|
    && s'.th[u] == s.th[u] && s'.mark[u] == s.mark[u] && s.hist <= s'.hist
    && s.tail.count <= s'.tail.count && (s.tail.count == s'.tail.count ==> s'.tail == s.tail)
    && s.head.count <= s'.head.count && (s.head.count == s'.head.count ==> s'.head == s.head)
    && (s'.head == s.head && s.tail.ptr != s.head.ptr ==> s'.tail.ptr != s.head.ptr)
    // nodes in this thread's hand are untouched
    && (forall n :: 0 <= n < |s.next| && s.place[n] == Held(u) ==>
         s'.place[n] == Held(u) && s'.next[n] == s.next[n] && s'.value[n] == s.value[n])
    // listed nodes keep their value, and their link once they have one
    && (forall n :: 0 <= n < |s.next| && s.place[n] == Listed ==> s'.value[n] == s.value[n])
    && (forall n :: 0 <= n < |s.next| && s.place[n] == Listed ==>
         s'.next[n] == s.next[n] || (s.next[n].ptr == 0 && s'.next[n].ptr != 0 && s'.next[n].count > s.next[n].count))
    && (forall n :: 0 <= n < |s.next| ==> s.next[n].count <= s'.next[n].count)
    && (s'.next[Last(s)].count == s.next[Last(s)].count ==>
         Last(s') == Last(s) && (s.tail.ptr == Last(s) ==> s'.tail == s.tail))
  }

  /** Where the two end words point. */
  ghost predicate EndsListed(s: State)
    requires Arena(s)
  {
    && s.place[Last(s)] == Listed
    && s.tail.ptr < |s.next| && s.place[s.tail.ptr] == Listed
    && s.head.ptr < |s.next| && s.place[s.head.ptr] == Listed
    && (s.next[s.tail.ptr].ptr == 0 ==> s.tail.ptr == Last(s))
    && (s.next[s.tail.ptr].ptr != 0 ==>
         |s.list| >= 2 && s.tail.ptr == s.list[|s.list| - 2] && s.next[s.tail.ptr].ptr == Last(s))
    && (s.tail.ptr != s.head.ptr ==> |s.list| >= 2)
    && (s.next[s.head.ptr].ptr == 0 <==> |s.list| == 1)
    && (|s.list| >= 2 ==> s.next[s.head.ptr].ptr == s.list[1] && s.place[s.list[1]] == Listed)
  }

  lemma Ends(s: State)
    requires Inv(s)
    ensures EndsListed(s)
  {
    assert Last(s) in s.list && s.tail.ptr in s.list;
    assert s.head.ptr in s.list;
    if |s.list| >= 2 {
      assert s.next[s.list[0]].ptr == s.list[1];
      assert s.list[1] in s.list;
      assert s.next[s.list[|s.list| - 2]].ptr == s.list[|s.list| - 1];
    }
  }

  /** Stability: no other thread's step invalidates what a program point knows. */
  lemma StableEnq(s: State, s': State, u: nat)
    requires Arena(s) && u < |s.th| && ThreadInv(s, u) && EndsListed(s) && Rely(s, s', u)
    requires HeldNode(s.th[u]) != 0
    ensures ThreadInv(s', u)
  {
  }

  lemma StableDone(s: State, s': State, u: nat)
    requires Arena(s) && u < |s.th| && ThreadInv(s, u) && EndsListed(s) && Rely(s, s', u)
    requires CanStart(s.th[u]) || s.th[u].ENew? || s.th[u].ESwing?
    ensures ThreadInv(s', u)
  {
    if s.th[u].DFalse? {
      assert s'.hist[..s.mark[u].at] == s.hist[..s.mark[u].at];
    }
  }

  lemma StableDeq(s: State, s': State, u: nat)
    requires Arena(s) && u < |s.th| && ThreadInv(s, u) && EndsListed(s) && Rely(s, s', u)
    requires HeldNode(s.th[u]) == 0 && !CanStart(s.th[u]) && !s.th[u].ENew? && !s.th[u].ESwing?
    requires !s.th[u].DCheckHead?
    ensures ThreadInv(s', u)
  {
  }

  lemma StableCheckHead(s: State, s': State, u: nat)
    requires Arena(s) && u < |s.th| && ThreadInv(s, u) && EndsListed(s) && Rely(s, s', u)
    requires s.th[u].DCheckHead?
    ensures ThreadInv(s', u)
  {
    if EmptyMarked(s, u) {
      assert s'.hist[..s.mark[u].at] == s.hist[..s.mark[u].at];
    }
  }

  lemma Stable(s: State, s': State, u: nat)
    requires Inv(s) && u < |s.th| && Rely(s, s', u)
    ensures ThreadInv(s', u)
  {
    assert ThreadInv(s, u);
    Ends(s);
    if HeldNode(s.th[u]) != 0 {
      StableEnq(s, s', u);
    } else if CanStart(s.th[u]) || s.th[u].ENew? || s.th[u].ESwing? {
      StableDone(s, s', u);
    } else if s.th[u].DCheckHead? {
      StableCheckHead(s, s', u);
    } else {
      StableDeq(s, s', u);
    }
  }

  // ---------- Every step keeps the invariant ----------

  /** A step that only moves a thread on: `th` may hold what ThreadInv already allows. */
  lemma LocalStep(s: State, s': State, t: nat, th: Thread)
    requires At(s, t) && s' == SetTh(s, t, th).(mark := s'.mark)
    requires |s'.mark| == |s.mark| && forall u :: 0 <= u < |s.mark| && u != t ==> s'.mark[u] == s.mark[u]
    requires HeldNode(th) == HeldNode(s.th[t])
    requires ThreadInv(s', t)
    ensures Inv(s')
  {
    forall u | 0 <= u < |s.th| ensures ThreadInv(s', u) {
      if u != t { Stable(s, s', u); }
    }
    assert Contents(s') == Contents(s);
  }

  lemma BeginInv(s: State, t: nat, val: int)
    requires At(s, t) && CanStart(s.th[t])
    ensures Inv(BeginEnq(s, t, val)) && Inv(BeginDeq(s, t))
  {
    LocalStep(s, BeginEnq(s, t, val), t, ENew(val));
    LocalStep(s, BeginDeq(s, t), t, DLoadHead);
  }

  /** The other threads' knowledge survives a step that keeps its side of `Rely`. */
  lemma OthersKeep(s: State, s': State, t: nat)
    requires At(s, t) && |s'.th| == |s.th| && Arena(s')
    requires forall u :: 0 <= u < |s.th| && u != t ==> Rely(s, s', u)
    requires ThreadInv(s', t)
    ensures forall u :: 0 <= u < |s'.th| ==> ThreadInv(s', u)
  {
    forall u | 0 <= u < |s.th| ensures ThreadInv(s', u) {
      if u != t { Stable(s, s', u); }
    }
  }

  /** The invariant puts every index of the next step in bounds. */
  lemma AtSafe(s: State, t: nat)
    requires At(s, t)
    ensures Safe(s, t)
  {
  }

  lemma TakeSlot(slots: seq<nat>, bound: nat, k: nat)
    requires FreeListOk(slots, bound) && k < |slots| && slots[k] != 0
    ensures FreeListOk(slots[k := 0], bound)
    ensures forall m :: InFree(slots[k := 0], m) <==> InFree(slots, m) && m != slots[k]
  {
    forall m | InFree(slots, m) && m != slots[k] ensures m in slots[k := 0] {
      var i :| 0 <= i < |slots| && slots[i] == m;
      assert slots[k := 0][i] == m;
    }
  }

  lemma PutSlot(slots: seq<nat>, bound: nat, k: nat, n: nat)
    requires FreeListOk(slots, bound) && k < |slots| && slots[k] == 0 && n < bound && n !in slots
    ensures FreeListOk(slots[k := n], bound)
    ensures forall m :: InFree(slots[k := n], m) <==> InFree(slots, m) || (m != 0 && m == n)
  {
    assert slots[k := n][k] == n;
    forall m | InFree(slots, m) ensures m in slots[k := n] {
      var i :| 0 <= i < |slots| && slots[i] == m;
      assert slots[k := n][i] == m;
    }
  }

  lemma NewNodePlaces(s: State, t: nat)
    requires At(s, t) && s.th[t].ENew?
    ensures Arena(NewNode(s, t)) && Places(NewNode(s, t))
  {
    var k := FirstSlot(s.free[t], true, 0);
    if k < |s.free[t]| {
      assert InFree(s.free[t], s.free[t][k]);
      TakeSlot(s.free[t], |s.place|, k);
    }
  }

  lemma NewNodeInv(s: State, t: nat)
    requires At(s, t) && s.th[t].ENew?
    ensures Inv(NewNode(s, t))
  {
    var s' := NewNode(s, t);
    NewNodePlaces(s, t);
    var k := FirstSlot(s.free[t], true, 0);
    if k < |s.free[t]| {
      assert InFree(s.free[t], s.free[t][k]);
      OthersKeep(s, s', t);
      assert Contents(s') == Contents(s);
    }
  }

  lemma StoreValueShape(s: State, t: nat)
    requires At(s, t) && s.th[t].EValue?
    ensures
      var s' := StoreValue(s, t);
      Arena(s') && Shape(s') && Places(s') && Contents(s') == Contents(s) && s'.hist == s.hist
  {
    hide Replay;
    assert Contents(StoreValue(s, t)) == Contents(s);
  }

  lemma StoreValueInv(s: State, t: nat)
    requires At(s, t) && s.th[t].EValue?
    ensures Inv(StoreValue(s, t))
  {
    hide Shape, Replay;
    StoreValueShape(s, t);
    OthersKeep(s, StoreValue(s, t), t);
  }

  lemma InitLoadInv(s: State, t: nat)
    requires At(s, t) && s.th[t].EInitLoad?
    ensures Inv(InitLoad(s, t))
  {
    LocalStep(s, InitLoad(s, t), t, InitLoad(s, t).th[t]);
  }

  lemma InitStoreShape(s: State, t: nat)
    requires At(s, t) && s.th[t].EInitStore?
    ensures
      var s' := InitStore(s, t);
      Arena(s') && Shape(s') && Places(s') && Contents(s') == Contents(s) && s'.hist == s.hist
  {
    hide Replay;
    assert Contents(InitStore(s, t)) == Contents(s);
  }

  lemma InitStoreInv(s: State, t: nat)
    requires At(s, t) && s.th[t].EInitStore?
    ensures Inv(InitStore(s, t))
  {
    hide Shape, Replay;
    InitStoreShape(s, t);
    OthersKeep(s, InitStore(s, t), t);
  }

  lemma LoadTailInv(s: State, t: nat)
    requires At(s, t) && s.th[t].ELoadTail?
    ensures Inv(LoadTail(s, t))
  {
    Ends(s);
    LocalStep(s, LoadTail(s, t), t, LoadTail(s, t).th[t]);
  }

  lemma LoadNextInv(s: State, t: nat)
    requires At(s, t) && s.th[t].ELoadNext?
    ensures Inv(LoadNext(s, t))
  {
    LocalStep(s, LoadNext(s, t), t, LoadNext(s, t).th[t]);
  }

  lemma CheckTailInv(s: State, t: nat)
    requires At(s, t) && s.th[t].ECheckTail?
    ensures Inv(CheckTail(s, t))
  {
    Ends(s);
    LocalStep(s, CheckTail(s, t), t, CheckTail(s, t).th[t]);
  }

  lemma HelpLoadInv(s: State, t: nat)
    requires At(s, t) && s.th[t].EHelpLoad?
    ensures Inv(HelpLoad(s, t))
  {
    LocalStep(s, HelpLoad(s, t), t, HelpLoad(s, t).th[t]);
  }

  lemma DeqLoadHeadInv(s: State, t: nat)
    requires At(s, t) && s.th[t].DLoadHead?
    ensures Inv(DeqLoadHead(s, t))
  {
    Ends(s);
    LocalStep(s, DeqLoadHead(s, t), t, DeqLoadHead(s, t).th[t]);
  }

  lemma DeqLoadTailInv(s: State, t: nat)
    requires At(s, t) && s.th[t].DLoadTail?
    ensures Inv(DeqLoadTail(s, t))
  {
    Ends(s);
    LocalStep(s, DeqLoadTail(s, t), t, DeqLoadTail(s, t).th[t]);
  }

  lemma DeqLoadNextInv(s: State, t: nat)
    requires At(s, t) && s.th[t].DLoadNext?
    ensures Inv(DeqLoadNext(s, t))
  {
    Ends(s);
    assert s.hist[..|s.hist|] == s.hist;
    assert |s.list| == 1 ==> Contents(s) == [];
    LocalStep(s, DeqLoadNext(s, t), t, DeqLoadNext(s, t).th[t]);
  }

  lemma CheckHeadInv(s: State, t: nat)
    requires At(s, t) && s.th[t].DCheckHead?
    ensures Inv(CheckHead(s, t))
  {
    Ends(s);
    LocalStep(s, CheckHead(s, t), t, CheckHead(s, t).th[t]);
  }

  lemma ReadValueInv(s: State, t: nat)
    requires At(s, t) && s.th[t].DReadValue?
    ensures Inv(ReadValue(s, t))
  {
    LocalStep(s, ReadValue(s, t), t, ReadValue(s, t).th[t]);
  }

  /** A successful swing moves `tail` from the second-to-last node to its successor, the last one. */
  lemma SwingInv(s: State, t: nat, tail: Ptr, p: nat, th: Thread)
    requires At(s, t) && TailSeen(s, tail)
    requires s.tail == tail ==> s.next[tail.ptr].ptr == p != 0
    requires HeldNode(th) == HeldNode(s.th[t])
    requires ThreadInv(SetTh(s, t, th), t)
    requires th.ELoadTail? || th.EDone? || th.DLoadHead?
    ensures Inv(SetTh(SwingTail(s, tail, p), t, th))
  {
    Ends(s);
    var s' := SetTh(SwingTail(s, tail, p), t, th);
    if s.tail != tail {
      LocalStep(s, s', t, th);
    } else {
      SwingShape(s, t, tail, p, th);
      hide Shape, Replay;
      OthersKeep(s, s', t);
    }
  }

  lemma SwingShape(s: State, t: nat, tail: Ptr, p: nat, th: Thread)
    requires At(s, t) && TailSeen(s, tail) && s.tail == tail && s.next[tail.ptr].ptr == p != 0
    requires HeldNode(th) == HeldNode(s.th[t])
    ensures
      var s' := SetTh(SwingTail(s, tail, p), t, th);
      Arena(s') && Shape(s') && Places(s') && Contents(s') == Contents(s) && s'.hist == s.hist
  {
    hide ThreadInv, Replay;
    assert Contents(SetTh(SwingTail(s, tail, p), t, th)) == Contents(s);
  }

  /** Linking: the compared word is the null link of the last node, so the list grows at its end. */
  lemma CasNextShape(s: State, t: nat)
    requires At(s, t) && s.th[t].ECasNext? && s.next[s.th[t].tail.ptr] == s.th[t].next
    ensures Arena(CasNext(s, t)) && Shape(CasNext(s, t))
    ensures Contents(CasNext(s, t)) == Contents(s) + [s.th[t].val]
  {
    hide Replay;
    Ends(s);
    assert s.th[t].node !in s.list;
    assert Arena(CasNext(s, t));
    CasNextContents(s, t);
  }

  lemma CasNextContents(s: State, t: nat)
    requires At(s, t) && s.th[t].ECasNext? && s.next[s.th[t].tail.ptr] == s.th[t].next
    requires Arena(CasNext(s, t))
    ensures Contents(CasNext(s, t)) == Contents(s) + [s.th[t].val]
  {
    hide Replay, Shape;
  }

  lemma CasNextPlaces(s: State, t: nat)
    requires At(s, t) && s.th[t].ECasNext? && s.next[s.th[t].tail.ptr] == s.th[t].next
    requires Arena(CasNext(s, t))
    ensures Places(CasNext(s, t))
  {
    Ends(s);
    var s' := CasNext(s, t);
    assert s'.place == s.place[s.th[t].node := Listed];
    assert forall n :: n in s'.list <==> n in s.list || n == s.th[t].node;
  }

  lemma CasNextRely(s: State, t: nat, u: nat)
    requires At(s, t) && s.th[t].ECasNext? && s.next[s.th[t].tail.ptr] == s.th[t].next
    requires Arena(CasNext(s, t)) && u < |s.th| && u != t
    ensures Rely(s, CasNext(s, t), u)
  {
    Ends(s);
  }

  lemma CasNextInv(s: State, t: nat)
    requires At(s, t) && s.th[t].ECasNext?
    ensures Inv(CasNext(s, t))
  {
    var s' := CasNext(s, t);
    if s.next[s.th[t].tail.ptr] != s.th[t].next {
      Ends(s);
      LocalStep(s, s', t, s'.th[t]);
    } else {
      CasNextShape(s, t);
      CasNextPlaces(s, t);
      assert s'.hist[..|s.hist|] == s.hist;
      forall u | 0 <= u < |s.th| && u != t ensures Rely(s, s', u) { CasNextRely(s, t, u); }
      assert ThreadInv(s', t) by { Ends(s); }
      OthersKeep(s, s', t);
    }
  }

  /** Unlinking: the head word has not changed, so the value read is the front of the queue. */
  lemma CasHeadShape(s: State, t: nat)
    requires At(s, t) && s.th[t].DCasHead? && s.head == s.th[t].head
    ensures Arena(CasHead(s, t)) && Shape(CasHead(s, t))
    ensures Contents(s) == [s.th[t].ret] + Contents(CasHead(s, t))
  {
    Ends(s);
    var s' := CasHead(s, t);
    assert forall i :: 0 <= i < |s'.list| ==> s'.list[i] == s.list[i + 1];
    assert Arena(s') && Shape(s');
    assert Contents(s) == [s.th[t].ret] + Contents(s');
  }

  lemma CasHeadPlaces(s: State, t: nat)
    requires At(s, t) && s.th[t].DCasHead? && s.head == s.th[t].head
    requires Arena(CasHead(s, t))
    ensures Places(CasHead(s, t))
  {
    var s' := CasHead(s, t);
    assert s.list == [s.list[0]] + s'.list && s.list[0] !in s'.list;
    assert s.list[0] in s.list;
    assert s'.place == s.place[s.list[0] := Held(t)];
    assert forall n :: 0 <= n < |s.place| ==> (s'.place[n] == Listed <==> n in s'.list);
  }

  lemma CasHeadRely(s: State, t: nat, u: nat)
    requires At(s, t) && s.th[t].DCasHead? && s.head == s.th[t].head
    requires Arena(CasHead(s, t)) && u < |s.th| && u != t
    ensures Rely(s, CasHead(s, t), u)
  {
    hide Replay;
    Ends(s);
  }

  lemma CasHeadInv(s: State, t: nat)
    requires At(s, t) && s.th[t].DCasHead?
    ensures Inv(CasHead(s, t))
  {
    var s' := CasHead(s, t);
    if s.head != s.th[t].head {
      Ends(s);
      LocalStep(s, s', t, s'.th[t]);
    } else {
      CasHeadShape(s, t);
      CasHeadPlaces(s, t);
      assert s'.hist[..|s.hist|] == s.hist;
      assert Contents(s)[1..] == Contents(s');
      forall u | 0 <= u < |s.th| && u != t ensures Rely(s, s', u) { CasHeadRely(s, t, u); }
      OthersKeep(s, s', t);
    }
  }

  lemma ReclaimPlaces(s: State, t: nat)
    requires At(s, t) && s.th[t].DReclaim?
    ensures Arena(Reclaim(s, t)) && Places(Reclaim(s, t))
  {
    var s' := Reclaim(s, t);
    var n := s.th[t].head.ptr;
    var k := FirstSlot(s.free[t], false, 0);
    assert !InFree(s.free[t], n);
    if k < |s.free[t]| {
      PutSlot(s.free[t], |s.place|, k, n);
    }
  }

  lemma ReclaimInv(s: State, t: nat)
    requires At(s, t) && s.th[t].DReclaim?
    ensures Inv(Reclaim(s, t))
  {
    var s' := Reclaim(s, t);
    ReclaimPlaces(s, t);
    OthersKeep(s, s', t);
    assert Contents(s') == Contents(s);
  }

  lemma InitInv(threads: nat, nodes: nat)
    requires EnoughNodes(threads, nodes)
    ensures Inv(Init(threads, nodes)) && Contents(Init(threads, nodes)) == []
  {
    var s := Init(threads, nodes);
    forall n, t | 0 <= n < nodes && 0 <= t < threads
      ensures s.place[n] == Free(t) <==> InFree(s.free[t], n)
    {
      if s.place[n] == Free(t) {
        assert s.free[t][(n - 2) % MAX_FREELIST] == n;
      }
      if InFree(s.free[t], n) {
        var j :| 0 <= j < MAX_FREELIST && s.free[t][j] == n;
        assert n == InitialNode(t, j);
      }
    }
    forall t | 0 <= t < threads ensures FreeListOk(s.free[t], nodes) {
      assert forall j :: 0 <= j < INITIAL_FREE ==> InitialNode(t, j) < nodes;
    }
    assert Contents(s) == [];
  }

  lemma EnqGoInv(s: State, t: nat)
    requires At(s, t)
    requires s.th[t].ENew? || s.th[t].EValue? || s.th[t].EInitLoad? || s.th[t].EInitStore? || s.th[t].ELoadTail?
             || s.th[t].ELoadNext? || s.th[t].ECheckTail? || s.th[t].ECasNext? || s.th[t].EHelpLoad?
    ensures Inv(GoStep(s, t))
  {
    match s.th[t] {
      case ENew(_) => NewNodeInv(s, t);
      case EValue(_, _) => StoreValueInv(s, t);
      case EInitLoad(_, _) => InitLoadInv(s, t);
      case EInitStore(_, _, _) => InitStoreInv(s, t);
      case ELoadTail(_, _) => LoadTailInv(s, t);
      case ELoadNext(_, _, _) => LoadNextInv(s, t);
      case ECheckTail(_, _, _, _) => CheckTailInv(s, t);
      case ECasNext(_, _, _, _) => CasNextInv(s, t);
      case EHelpLoad(_, _, _) => HelpLoadInv(s, t);
    }
  }

  lemma DeqGoInv(s: State, t: nat)
    requires At(s, t)
    requires s.th[t].DLoadHead? || s.th[t].DLoadTail? || s.th[t].DLoadNext? || s.th[t].DCheckHead?
             || s.th[t].DReadValue? || s.th[t].DCasHead? || s.th[t].DReclaim?
    ensures Inv(GoStep(s, t))
  {
    match s.th[t] {
      case DLoadHead => DeqLoadHeadInv(s, t);
      case DLoadTail(_) => DeqLoadTailInv(s, t);
      case DLoadNext(_, _) => DeqLoadNextInv(s, t);
      case DCheckHead(_, _, _) => CheckHeadInv(s, t);
      case DReadValue(_, _) => ReadValueInv(s, t);
      case DCasHead(_, _, _) => CasHeadInv(s, t);
      case DReclaim(_, _) => ReclaimInv(s, t);
    }
  }

  lemma SwingGoInv(s: State, t: nat)
    requires At(s, t) && (s.th[t].EHelpCas? || s.th[t].ESwing? || s.th[t].DHelp?)
    ensures Inv(GoStep(s, t))
  {
    match s.th[t] {
      case EHelpCas(v, n, tail, p) => SwingInv(s, t, tail, p, ELoadTail(v, n));
      case ESwing(v, n, tail) => SwingInv(s, t, tail, n, EDone(v));
      case DHelp(tail, next) => SwingInv(s, t, tail, next.ptr, DLoadHead);
    }
  }

  /** Every action keeps the invariant. */
  lemma StepInv(s: State, a: Action)
    requires Inv(s)
    ensures Inv(Step(s, a))
  {
    var t := a.tid;
    if t >= |s.th| {
    } else if !a.Go? {
      if CanStart(s.th[t]) { BeginInv(s, t, if a.StartEnq? then a.val else 0); }
    } else if s.th[t].EHelpCas? || s.th[t].ESwing? || s.th[t].DHelp? {
      SwingGoInv(s, t);
    } else if s.th[t].DLoadHead? || s.th[t].DLoadTail? || s.th[t].DLoadNext? || s.th[t].DCheckHead?
              || s.th[t].DReadValue? || s.th[t].DCasHead? || s.th[t].DReclaim? {
      DeqGoInv(s, t);
    } else if !CanStart(s.th[t]) {
      EnqGoInv(s, t);
    }
  }

  /** The state after a schedule: any interleaving of any operations of all threads. */
  ghost function Run(s: State, sched: seq<Action>): (s': State)
    requires Inv(s)
    ensures Inv(s')
    decreases |sched|
  {
    if sched == [] then s else
    StepInv(s, sched[0]);
    Run(Step(s, sched[0]), sched[1..])
  }
}
