module SpscProofs {
  import opened SpscModel

  /** The queue is what the chain and its data are. */
  lemma SameItems(s: State, s': State)
    requires ChainOk(s) && ChainOk(s') && s'.chain == s.chain
    requires forall i :: 0 <= i < |s.chain| ==> s'.heap[s.chain[i]] == s.heap[s.chain[i]]
    ensures Items(s') == Items(s)
  {
  }

  /** A step that leaves the nodes and their chain alone. */
  lemma Quiet(s: State, s': State)
    requires Inv(s) && s'.heap == s.heap && s'.chain == s.chain && s'.head == s.head && Front(s') == Front(s)
    requires s'.enqueued == s.enqueued && s'.dequeued == s.dequeued
    requires s'.p == s.p || !(s.p.PLink? || s.p.PHead? || s'.p.PLink? || s'.p.PHead?)
    ensures ChainOk(s') && s'.enqueued == s'.dequeued + Items(s')
    ensures forall i :: 0 < i < |s'.chain| ==> s'.heap[s'.chain[i]].data != 0
  {
    SameItems(s, s');
  }

  lemma BeginEnqueueInv(s: State, val: int)
    requires Inv(s) && s.p.PIdle? && val != 0
    ensures Inv(BeginEnqueue(s, val))
  {
    Quiet(s, BeginEnqueue(s, val));
    hide ChainOk, Items;
  }

  lemma BeginDequeueInv(s: State)
    requires Inv(s) && (s.c.CIdle? || s.c.CDone?)
    ensures Inv(BeginDequeue(s))
  {
    Quiet(s, BeginDequeue(s));
    hide ChainOk, Items;
  }

  lemma AllocInv(s: State, addr: nat)
    requires Inv(s) && s.p.PAlloc?
    ensures Inv(Alloc(s, addr))
  {
    if addr != 0 && addr !in s.heap { SameItems(s, Alloc(s, addr)); }
  }

  lemma LinkChain(s: State)
    requires Inv(s) && s.p.PLink?
    ensures ChainOk(Link(s))
  {
    var s' := Link(s);
    assert s'.chain[|s'.chain| - 1] == s.p.n;
    forall i | 0 <= i < |s'.chain| ensures s'.chain[i] != 0 && s'.chain[i] in s'.heap {
      if i < |s.chain| { assert s'.chain[i] == s.chain[i]; }
    }
    forall i, j | 0 <= i < |s'.chain| && j == i + 1 && j < |s'.chain|
      ensures s'.heap[s'.chain[i]].next == s'.chain[j]
    {
      assert s'.chain[i] == s.chain[i];
      if j < |s.chain| { assert s.chain[i] != s.chain[|s.chain| - 1]; }
    }
  }

  lemma LinkItems(s: State)
    requires Inv(s) && s.p.PLink? && ChainOk(Link(s))
    ensures Items(Link(s)) == Items(s) + [s.heap[s.p.n].data]
  {
    var s' := Link(s);
    forall i | 0 <= i < |s.chain| - 1 ensures Items(s')[i] == Items(s)[i] {
      assert s'.chain[i + 1] == s.chain[i + 1];
    }
  }

  lemma LinkInv(s: State)
    requires Inv(s) && s.p.PLink?
    ensures Inv(Link(s))
  {
    LinkChain(s);
    LinkItems(s);
  }

  lemma StoreHeadInv(s: State)
    requires Inv(s) && s.p.PHead?
    ensures Inv(StoreHead(s))
  {
    SameItems(s, StoreHead(s));
  }

  lemma SignalInv(s: State)
    requires Inv(s) && s.p.PSignal?
    ensures Inv(Signal(s))
  {
    Quiet(s, Signal(s));
    hide ChainOk, Items;
  }

  lemma SignalLockInv(s: State)
    requires Inv(s) && s.p.PLock?
    ensures Inv(SignalLock(s))
  {
    Quiet(s, SignalLock(s));
    hide ChainOk, Items;
  }

  lemma SignalCasInv(s: State, spurious: bool)
    requires Inv(s) && s.p.PCas?
    ensures Inv(SignalCas(s, spurious))
  {
    Quiet(s, SignalCas(s, spurious));
    hide ChainOk, Items;
  }

  lemma NotifyInv(s: State)
    requires Inv(s) && s.p.PNotify?
    ensures Inv(Notify(s))
  {
    Quiet(s, Notify(s));
    hide ChainOk, Items;
  }

  lemma SignalWaitersInv(s: State)
    requires Inv(s) && (s.p.PReadWaiters? || s.p.PClearWaiters? || s.p.PUnlock?)
    ensures Inv(SignalWaiters(s))
  {
    Quiet(s, SignalWaiters(s));
    hide ChainOk, Items;
  }

  lemma TryNextInv(s: State)
    requires Inv(s) && s.c.CNext?
    ensures Inv(TryNext(s))
  {
    Quiet(s, TryNext(s));
  }

  lemma ReadDataInv(s: State)
    requires Inv(s) && s.c.CData?
    ensures Inv(ReadData(s))
  {
    Quiet(s, ReadData(s));
  }

  /** Taking the front: its old node leaves the memory, and the chain starts one node later. */
  lemma DeleteChain(s: State)
    requires Inv(s) && s.c.CDelete?
    ensures ChainOk(Delete(s))
  {
    var s' := Delete(s);
    assert s.chain == [s.tail] + s'.chain;
    forall i | 0 <= i < |s'.chain| ensures s'.chain[i] != 0 && s'.chain[i] in s'.heap {
      assert s'.chain[i] == s.chain[i + 1];
      assert s.chain[0] != s.chain[i + 1];
    }
    forall i, j | 0 <= i < |s'.chain| && j == i + 1 && j < |s'.chain|
      ensures s'.heap[s'.chain[i]].next == s'.chain[j]
    {
      assert s.heap[s.chain[i + 1]].next == s.chain[j + 1];
    }
  }

  lemma DeleteItems(s: State)
    requires Inv(s) && s.c.CDelete? && ChainOk(Delete(s))
    ensures Items(s) == [s.c.val] + Items(Delete(s))
  {
    var s' := Delete(s);
    forall i | 0 < i < |s.chain| - 1 ensures Items(s)[i] == Items(s')[i - 1] {
      assert s'.chain[i] == s.chain[i + 1];
    }
  }

  lemma DeleteValues(s: State)
    requires Inv(s) && s.c.CDelete? && ChainOk(Delete(s))
    ensures ValuesOk(Delete(s))
  {
    var s' := Delete(s);
    DeleteItems(s);
    assert s.dequeued + ([s.c.val] + Items(s')) == s.dequeued + [s.c.val] + Items(s');
    forall i | 0 < i < |s'.chain| ensures s'.heap[s'.chain[i]].data != 0 {
      assert s'.chain[i] == s.chain[i + 1];
    }
    assert s.heap[s.chain[1]].data != 0;
  }

  lemma DeleteInv(s: State)
    requires Inv(s) && s.c.CDelete?
    ensures Inv(Delete(s))
  {
    DeleteChain(s);
    DeleteValues(s);
  }

  lemma StoreTailInv(s: State)
    requires Inv(s) && s.c.CAdvance?
    ensures Inv(StoreTail(s))
  {
    Quiet(s, StoreTail(s));
  }

  lemma GetInv(s: State)
    requires Inv(s) && s.c.CGet?
    ensures Inv(Get(s))
  {
    Quiet(s, Get(s));
    hide ChainOk, Items;
  }

  lemma WaitLoadInv(s: State)
    requires Inv(s) && s.c.CLoad?
    ensures Inv(WaitLoad(s))
  {
    Quiet(s, WaitLoad(s));
    hide ChainOk, Items;
  }

  lemma WaitLockInv(s: State)
    requires Inv(s) && s.c.CLock?
    ensures Inv(WaitLock(s))
  {
    Quiet(s, WaitLock(s));
    hide ChainOk, Items;
  }

  lemma WaitCheckInv(s: State)
    requires Inv(s) && s.c.CCheck?
    ensures Inv(WaitCheck(s))
  {
    Quiet(s, WaitCheck(s));
    hide ChainOk, Items;
  }

  lemma CountWaiterInv(s: State)
    requires Inv(s) && s.c.CCount?
    ensures Inv(CountWaiter(s))
  {
    Quiet(s, CountWaiter(s));
    hide ChainOk, Items;
  }

  lemma SleepInv(s: State)
    requires Inv(s) && s.c.CSleep?
    ensures Inv(Sleep(s))
  {
    Quiet(s, Sleep(s));
    hide ChainOk, Items;
  }

  lemma WakeInv(s: State)
    requires Inv(s) && s.c.CAsleep?
    ensures Inv(Wake(s))
  {
    Quiet(s, Wake(s));
    hide ChainOk, Items;
  }

  lemma RelockInv(s: State)
    requires Inv(s) && s.c.CRelock?
    ensures Inv(Relock(s))
  {
    Quiet(s, Relock(s));
    hide ChainOk, Items;
  }

  lemma WaitUnlockInv(s: State)
    requires Inv(s) && s.c.CUnlock?
    ensures Inv(WaitUnlock(s))
  {
    Quiet(s, WaitUnlock(s));
    hide ChainOk, Items;
  }

  lemma InitInv(addr: nat)
    requires addr != 0
    ensures Inv(Init(addr))
  {
  }

  lemma ProducerInv(s: State, addr: nat, spurious: bool)
    requires Inv(s)
    ensures Inv(ProducerStep(s, addr, spurious))
  {
    match s.p {
      case PIdle =>
      case PAlloc(_) => AllocInv(s, addr);
      case PLink(_) => LinkInv(s);
      case PHead(_) => StoreHeadInv(s);
      case PSignal => SignalInv(s);
      case PLock(_) => SignalLockInv(s);
      case PCas(_) => SignalCasInv(s, spurious);
      case PReadWaiters => SignalWaitersInv(s);
      case PClearWaiters(_) => SignalWaitersInv(s);
      case PUnlock(_) => SignalWaitersInv(s);
      case PNotify(_) => NotifyInv(s);
    }
  }

  lemma ConsumerInv(s: State)
    requires Inv(s)
    ensures Inv(ConsumerStep(s))
  {
    match s.c {
      case CNext(_) => TryNextInv(s);
      case CData(_, _) => ReadDataInv(s);
      case CDelete(_, _, _) => DeleteInv(s);
      case CAdvance(_, _, _) => StoreTailInv(s);
      case CGet => GetInv(s);
      case CLoad(_) => WaitLoadInv(s);
      case CLock(_) => WaitLockInv(s);
      case CCheck(_) => WaitCheckInv(s);
      case CCount => CountWaiterInv(s);
      case CSleep => SleepInv(s);
      case CRelock => RelockInv(s);
      case CUnlock => WaitUnlockInv(s);
      case _ =>
    }
  }

  lemma StepInv(s: State, a: Action)
    requires Inv(s)
    ensures Inv(Step(s, a))
  {
    match a {
      case Enqueue(v) => if s.p.PIdle? && v != 0 { BeginEnqueueInv(s, v); }
      case Dequeue => if s.c.CIdle? || s.c.CDone? { BeginDequeueInv(s); }
      case ProducerGo(addr, spurious) => ProducerInv(s, addr, spurious);
      case ConsumerGo => ConsumerInv(s);
      case SpuriousWake => if s.c.CAsleep? { WakeInv(s); }
    }
  }

  /** The state after a schedule: any interleaving of the two threads. */
  ghost function Run(s: State, sched: seq<Action>): (s': State)
    requires Inv(s)
    ensures Inv(s')
    decreases |sched|
  {
    if sched == [] then s else
    StepInv(s, sched[0]);
    Run(Step(s, sched[0]), sched[1..])
  }
}
