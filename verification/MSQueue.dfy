/** The Michael-Scott queue itself: the shared words, the node arena, the per-thread free lists and
    the threads, updated in place one atomic action at a time. */
module MSQueue {
  import M = MSQueueModel
  import opened MSQueueModel
  import opened MSQueueProofs
  import opened MSQueueTheorems

  /** Slots of thread i's free list, each naming a node whose link is poisoned (lines 78-81). */
  method FillFreeList(i: nat, next: array<Ptr>) returns (slots: array<nat>)
    requires next.Length <= POISON_IDX && forall j :: 0 <= j < INITIAL_FREE ==> InitialNode(i, j) < next.Length
    requires forall n :: 0 <= n < next.Length ==> next[n] == InitialNext(i, n)
    modifies next
    ensures fresh(slots) && slots[..] == InitialFree(i)
    ensures forall n :: 0 <= n < next.Length ==> next[n] == InitialNext(i + 1, n)
  {
    slots := new nat[MAX_FREELIST](_ => 0);
    var j := 0;
    while j < INITIAL_FREE
      invariant 0 <= j <= INITIAL_FREE
      invariant forall k :: 0 <= k < MAX_FREELIST ==> slots[k] == if k < j then InitialNode(i, k) else 0
      invariant forall n :: 0 <= n < next.Length ==>
        next[n] == if InitialNode(i, 0) <= n < InitialNode(i, 0) + j then Ptr(POISON_IDX, 0) else InitialNext(i, n)
    {
      slots[j] := InitialNode(i, j);
      next[InitialNode(i, j)] := Ptr(POISON_IDX, 0);
      j := j + 1;
    }
  }

  /** The loop of lines 76-83. */
  method FillFreeLists(threads: nat, next: array<Ptr>) returns (lists: seq<array<nat>>)
    requires EnoughNodes(threads, next.Length)
    requires forall n :: 0 <= n < next.Length ==> next[n] == Ptr(0, 0)
    modifies next
    ensures |lists| == threads && forall k :: 0 <= k < threads ==> fresh(lists[k]) && lists[k][..] == InitialFree(k)
    ensures forall k, l :: 0 <= k < l < threads ==> lists[k] != lists[l]
    ensures forall n :: 0 <= n < next.Length ==> next[n] == InitialNext(threads, n)
  {
    lists := [];
    var i := 0;
    while i < threads
      invariant 0 <= i <= threads && |lists| == i
      invariant forall k :: 0 <= k < i ==> fresh(lists[k]) && lists[k][..] == InitialFree(k)
      invariant forall k, l :: 0 <= k < l < i ==> lists[k] != lists[l]
      invariant forall n :: 0 <= n < next.Length ==> next[n] == InitialNext(i, n)
    {
      var slots := FillFreeList(i, next);
      lists := lists + [slots];
      i := i + 1;
    }
  }

  class Queue {
    var head: Ptr
    var tail: Ptr
    const next: array<Ptr>
    const value: array<int>
    const free: seq<array<nat>>
    const th: array<Thread>

    ghost var list: seq<nat>
    ghost var place: seq<Place>
    ghost var hist: seq<Event>
    ghost var mark: seq<Mark>

    ghost function Repr(): set<object> {
      {this, next, value, th} + set i | 0 <= i < |free| :: free[i]
    }

    ghost function FreeLists(): (slots: seq<seq<nat>>)
      reads Repr()
      ensures |slots| == |free| && forall i :: 0 <= i < |free| ==> slots[i] == free[i][..]
    {
      seq(|free|, i requires 0 <= i < |free| reads Repr() => free[i][..])
    }

    /** The whole state, as a value of the state machine. */
    ghost function Snap(): State
      reads Repr()
    {
      State(head, tail, next[..], value[..], FreeLists(), th[..], list, place, hist, mark)
    }

    /** The free lists are separate arrays. */
    ghost predicate Apart() {
      forall i, j :: 0 <= i < j < |free| ==> free[i] != free[j]
    }

    ghost predicate Valid()
      reads Repr()
    {
      Apart() && Inv(Snap())
    }

    /** `init_queue`: INITIAL_FREE poisoned nodes on each free list, and a list of one dummy node. */
    constructor (threads: nat, nodes: nat)
      requires EnoughNodes(threads, nodes)
      ensures Valid() && Snap() == Init(threads, nodes)
      ensures fresh(Repr())
    {
      var links := new Ptr[nodes](_ => Ptr(0, 0));
      var lists := FillFreeLists(threads, links);
      next, free := links, lists;
      value := new int[nodes](_ => 0);
      th := new Thread[threads](_ => Idle);
      head, tail := Ptr(1, 0), Ptr(1, 0);
      list, hist := [1], [];
      place, mark := Init(threads, nodes).place, Init(threads, nodes).mark;
      new;
      hide Inv, EnoughNodes, InitialFree, InitialNext, InitialPlace;
      InitInv(threads, nodes);
      ghost var s := Init(threads, nodes);
      assert FreeLists() == s.free && next[..] == s.next && value[..] == s.value && th[..] == s.th;
    }

    // ---------- One method per atomic action ----------

    method BeginEnq(t: nat, val: int)
      requires Apart() && Safe(Snap(), t) && CanStart(th[t])
      modifies Repr()
      ensures Snap() == M.BeginEnq(old(Snap()), t, val)
    {
      th[t] := ENew(val);
      mark := mark[t := Mark(|hist|, |hist|)];
      assert FreeLists() == old(FreeLists());
    }

    method BeginDeq(t: nat)
      requires Apart() && Safe(Snap(), t) && CanStart(th[t])
      modifies Repr()
      ensures Snap() == M.BeginDeq(old(Snap()), t)
    {
      th[t] := DLoadHead;
      mark := mark[t := Mark(|hist|, |hist|)];
      assert FreeLists() == old(FreeLists());
    }

    method NewNode(t: nat)
      requires Apart() && Safe(Snap(), t) && th[t].ENew?
      modifies Repr()
      ensures Snap() == M.NewNode(old(Snap()), t)
    {
      var slots := free[t];
      var i := 0;
      while i < slots.Length
        invariant 0 <= i <= slots.Length
        invariant FirstSlot(slots[..], true, 0) == FirstSlot(slots[..], true, i)
      {
        if slots[i] != 0 {
          var node := slots[i];
          slots[i] := 0;
          th[t] := EValue(th[t].val, node);
          place := place[node := Held(t)];
          assert slots[..] == old(slots[..])[i := 0];
          assert FreeLists() == old(FreeLists())[t := slots[..]];
          return;
        }
        i := i + 1;
      }
      assert FreeLists() == old(FreeLists());
    }

    method StoreValue(t: nat)
      requires Apart() && Safe(Snap(), t) && th[t].EValue?
      modifies Repr()
      ensures Snap() == M.StoreValue(old(Snap()), t)
    {
      var EValue(v, node) := th[t];
      value[node] := v;
      th[t] := EInitLoad(v, node);
      assert FreeLists() == old(FreeLists());
    }

    method InitLoad(t: nat)
      requires Apart() && Safe(Snap(), t) && th[t].EInitLoad?
      modifies Repr()
      ensures Snap() == M.InitLoad(old(Snap()), t)
    {
      var EInitLoad(v, node) := th[t];
      th[t] := EInitStore(v, node, Ptr(0, next[node].count));
      assert FreeLists() == old(FreeLists());
    }

    method InitStore(t: nat)
      requires Apart() && Safe(Snap(), t) && th[t].EInitStore?
      modifies Repr()
      ensures Snap() == M.InitStore(old(Snap()), t)
    {
      var EInitStore(v, node, tmp) := th[t];
      next[node] := tmp;
      th[t] := ELoadTail(v, node);
      assert FreeLists() == old(FreeLists());
    }

    method LoadTail(t: nat)
      requires Apart() && Safe(Snap(), t) && th[t].ELoadTail?
      modifies Repr()
      ensures Snap() == M.LoadTail(old(Snap()), t)
    {
      th[t] := ELoadNext(th[t].val, th[t].node, tail);
      assert FreeLists() == old(FreeLists());
    }

    method LoadNext(t: nat)
      requires Apart() && Safe(Snap(), t) && th[t].ELoadNext?
      modifies Repr()
      ensures Snap() == M.LoadNext(old(Snap()), t)
    {
      var ELoadNext(v, node, last) := th[t];
      th[t] := ECheckTail(v, node, last, next[last.ptr]);
      assert FreeLists() == old(FreeLists());
    }

    method CheckTail(t: nat)
      requires Apart() && Safe(Snap(), t) && th[t].ECheckTail?
      modifies Repr()
      ensures Snap() == M.CheckTail(old(Snap()), t)
    {
      var ECheckTail(v, node, last, link) := th[t];
      if last != tail {
        th[t] := ELoadTail(v, node);
      } else if link.ptr == 0 {
        th[t] := ECasNext(v, node, last, link);
      } else {
        th[t] := EHelpLoad(v, node, last);
      }
      assert FreeLists() == old(FreeLists());
    }

    method CasNext(t: nat) returns (success: bool)
      requires Apart() && At(Snap(), t) && th[t].ECasNext?
      modifies Repr()
      ensures Snap() == M.CasNext(old(Snap()), t)
      ensures Arena(Snap())
      ensures success ==> Contents(Snap()) == old(Contents(Snap())) + [old(th[t].val)]
      ensures !success ==> unchanged(this, next, value)
    {
      var ECasNext(v, node, last, expected) := th[t];
      success := next[last.ptr] == expected;
      ghost var s := Snap();
      if success {
        CasNextShape(s, t);
        next[last.ptr] := Ptr(node, expected.count + 1);
        th[t] := ESwing(v, node, last);
        list, place := list + [node], place[node := Listed];
        hist, mark := hist + [Enq(t, v)], mark[t := Mark(mark[t].since, |hist|)];
      } else {
        th[t] := EHelpLoad(v, node, last);
      }
      assert FreeLists() == old(FreeLists());
    }

    method HelpLoad(t: nat)
      requires Apart() && Safe(Snap(), t) && th[t].EHelpLoad?
      modifies Repr()
      ensures Snap() == M.HelpLoad(old(Snap()), t)
    {
      var EHelpLoad(v, node, last) := th[t];
      th[t] := EHelpCas(v, node, last, next[last.ptr].ptr);
      assert FreeLists() == old(FreeLists());
    }

    method HelpCas(t: nat)
      requires Apart() && Safe(Snap(), t) && th[t].EHelpCas?
      modifies Repr()
      ensures Snap() == M.HelpCas(old(Snap()), t)
    {
      var EHelpCas(v, node, last, nextPtr) := th[t];
      if tail == last {
        tail := Ptr(nextPtr, last.count + 1);
      }
      th[t] := ELoadTail(v, node);
      assert FreeLists() == old(FreeLists());
    }

    method Swing(t: nat)
      requires Apart() && Safe(Snap(), t) && th[t].ESwing?
      modifies Repr()
      ensures Snap() == M.Swing(old(Snap()), t)
    {
      var ESwing(v, node, last) := th[t];
      if tail == last {
        tail := Ptr(node, last.count + 1);
      }
      th[t] := EDone(v);
      assert FreeLists() == old(FreeLists());
    }

    method DeqLoadHead(t: nat)
      requires Apart() && Safe(Snap(), t) && th[t].DLoadHead?
      modifies Repr()
      ensures Snap() == M.DeqLoadHead(old(Snap()), t)
    {
      th[t] := DLoadTail(head);
      assert FreeLists() == old(FreeLists());
    }

    method DeqLoadTail(t: nat)
      requires Apart() && Safe(Snap(), t) && th[t].DLoadTail?
      modifies Repr()
      ensures Snap() == M.DeqLoadTail(old(Snap()), t)
    {
      th[t] := DLoadNext(th[t].head, tail);
      assert FreeLists() == old(FreeLists());
    }

    method DeqLoadNext(t: nat)
      requires Apart() && Safe(Snap(), t) && th[t].DLoadNext?
      modifies Repr()
      ensures Snap() == M.DeqLoadNext(old(Snap()), t)
    {
      var DLoadNext(first, last) := th[t];
      th[t] := DCheckHead(first, last, next[first.ptr]);
      mark := mark[t := Mark(mark[t].since, |hist|)];
      assert FreeLists() == old(FreeLists());
    }

    method CheckHead(t: nat)
      requires Apart() && At(Snap(), t) && th[t].DCheckHead?
      modifies Repr()
      ensures Snap() == M.CheckHead(old(Snap()), t)
    {
      var DCheckHead(first, last, link) := th[t];
      if head != first {
        th[t] := DLoadHead;
      } else if first.ptr != last.ptr {
        th[t] := DReadValue(first, link);
      } else {
        NeverPoisoned(Snap(), t);
        assert link.ptr != POISON_IDX;
        th[t] := if link.ptr == 0 then DFalse else DHelp(last, link);
      }
      assert FreeLists() == old(FreeLists());
    }

    method DeqHelp(t: nat)
      requires Apart() && Safe(Snap(), t) && th[t].DHelp?
      modifies Repr()
      ensures Snap() == M.DeqHelp(old(Snap()), t)
    {
      var DHelp(last, link) := th[t];
      if tail == last {
        tail := Ptr(link.ptr, last.count + 1);
      }
      th[t] := DLoadHead;
      assert FreeLists() == old(FreeLists());
    }

    method ReadValue(t: nat)
      requires Apart() && Safe(Snap(), t) && th[t].DReadValue?
      modifies Repr()
      ensures Snap() == M.ReadValue(old(Snap()), t)
    {
      var DReadValue(first, link) := th[t];
      th[t] := DCasHead(first, link, value[link.ptr]);
      assert FreeLists() == old(FreeLists());
    }

    method CasHead(t: nat) returns (success: bool)
      requires Apart() && At(Snap(), t) && th[t].DCasHead?
      modifies Repr()
      ensures Snap() == M.CasHead(old(Snap()), t)
      ensures Arena(Snap())
      ensures success ==> old(Contents(Snap())) == [old(th[t].ret)] + Contents(Snap())
      ensures !success ==> unchanged(this, next, value)
    {
      hide ThreadInv, Replay, Places;
      AtSafe(Snap(), t);
      var DCasHead(first, link, ret) := th[t];
      success := head == first;
      ghost var s := Snap();
      if success {
        CasHeadShape(s, t);
        head := Ptr(link.ptr, first.count + 1);
        th[t] := DReclaim(first, ret);
        list, place := list[1..], place[first.ptr := Held(t)];
        hist, mark := hist + [Deq(t, ret)], mark[t := Mark(mark[t].since, |hist|)];
      } else {
        th[t] := DLoadHead;
      }
      assert FreeLists() == old(FreeLists());
    }

    method Reclaim(t: nat)
      requires Apart() && Safe(Snap(), t) && th[t].DReclaim?
      modifies Repr()
      ensures Snap() == M.Reclaim(old(Snap()), t)
    {
      var DReclaim(first, ret) := th[t];
      var slots := free[t];
      th[t] := DTrue(ret);
      var i := 0;
      while i < slots.Length
        invariant 0 <= i <= slots.Length
        invariant FirstSlot(slots[..], false, 0) == FirstSlot(slots[..], false, i)
      {
        if slots[i] == 0 {
          slots[i] := first.ptr;
          place := place[first.ptr := Free(t)];
          assert slots[..] == old(slots[..])[i := first.ptr];
          assert FreeLists() == old(FreeLists())[t := slots[..]];
          return;
        }
        i := i + 1;
      }
      place := place[first.ptr := Dropped];
      assert FreeLists() == old(FreeLists());
    }

    // ---------- Any schedule ----------

    method Go(t: nat)
      requires Apart() && At(Snap(), t)
      modifies Repr()
      ensures Snap() == GoStep(old(Snap()), t)
    {
      hide At, ThreadInv, Inv;
      AtSafe(Snap(), t);
      match th[t] {
        case ENew(_) => NewNode(t);
        case EValue(_, _) => StoreValue(t);
        case EInitLoad(_, _) => InitLoad(t);
        case EInitStore(_, _, _) => InitStore(t);
        case ELoadTail(_, _) => LoadTail(t);
        case ELoadNext(_, _, _) => LoadNext(t);
        case ECheckTail(_, _, _, _) => CheckTail(t);
        case ECasNext(_, _, _, _) => var _ := CasNext(t);
        case EHelpLoad(_, _, _) => HelpLoad(t);
        case EHelpCas(_, _, _, _) => HelpCas(t);
        case ESwing(_, _, _) => Swing(t);
        case DLoadHead => DeqLoadHead(t);
        case DLoadTail(_) => DeqLoadTail(t);
        case DLoadNext(_, _) => DeqLoadNext(t);
        case DCheckHead(_, _, _) => CheckHead(t);
        case DHelp(_, _) => DeqHelp(t);
        case DReadValue(_, _) => ReadValue(t);
        case DCasHead(_, _, _) => var _ := CasHead(t);
        case DReclaim(_, _) => Reclaim(t);
        case _ =>
      }
    }

    method Execute(a: Action)
      requires Valid()
      modifies Repr()
      ensures Valid() && Snap() == Step(old(Snap()), a)
    {
      StepInv(Snap(), a);
      if a.tid < th.Length {
        assert At(Snap(), a.tid);
        match a {
          case StartEnq(t, v) => if CanStart(th[t]) { BeginEnq(t, v); }
          case StartDeq(t) => if CanStart(th[t]) { BeginDeq(t); }
          case Go(t) => Go(t);
        }
      }
    }

    /** Any schedule of any threads' actions: the invariant holds throughout, and the values in the
        queue are those enqueued less those dequeued, in order. */
    method Schedule(sched: seq<Action>)
      requires Valid()
      modifies Repr()
      ensures Valid() && Snap() == Run(old(Snap()), sched)
      ensures Enqueued(hist) == Dequeued(hist) + Contents(Snap())
    {
      var i := 0;
      while i < |sched|
        invariant 0 <= i <= |sched| && Valid()
        invariant Run(old(Snap()), sched) == Run(Snap(), sched[i..])
      {
        Execute(sched[i]);
        i := i + 1;
      }
      LegalIsFifo(hist);
    }
  }
}
