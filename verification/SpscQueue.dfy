/** The queue and its eventcount themselves, updated in place one atomic action at a time. */
module SpscQueue {
  import M = SpscModel
  import opened SpscModel
  import opened SpscProofs
  import opened SpscTheorems

  /** The fields of `eventcount`: the packed count word, the waiters and the mutex with its condition
      variable. */
  class EventCount {
    var count: nat
    var waiters: nat
    var guard: Holder

    constructor ()
      ensures count == 0 && waiters == 0 && guard == Nobody
    {
      count, waiters, guard := 0, 0, Nobody;
    }

    method FetchOrFlag() returns (cmp: nat)
      modifies this`count
      ensures cmp == old(count) && count == SetFlag(old(count))
    {
      cmp := count;
      if count < FLAG {
        count := count + FLAG;
      }
    }

    /** A weak compare-and-swap to the next epoch. */
    method NextEpoch(cmp: nat, spurious: bool) returns (ok: bool)
      modifies this`count
      ensures ok == (old(count) == cmp && !spurious)
      ensures count == if ok then (cmp + 1) % FLAG else old(count)
    {
      ok := count == cmp && !spurious;
      if ok {
        count := (cmp + 1) % FLAG;
      }
    }

    method TryLock(who: Holder) returns (ok: bool)
      modifies this`guard
      ensures ok == (old(guard) == Nobody) && guard == if ok then who else old(guard)
    {
      ok := guard == Nobody;
      if ok {
        guard := who;
      }
    }
  }

  class Queue {
    var heap: map<nat, Cell>
    var head: nat
    var tail: nat
    const ec: EventCount
    var p: Producer
    var c: Consumer

    ghost var chain: seq<nat>
    ghost var enqueued: seq<int>
    ghost var dequeued: seq<int>
    ghost var epochs: nat
    ghost var epochAtGet: nat

    /** The whole state, as a value of the state machine. */
    ghost function Snap(): State
      reads this, ec
    {
      State(heap, head, tail, ec.count, ec.waiters, ec.guard, p, c, chain, enqueued, dequeued, epochs, epochAtGet)
    }

    ghost predicate Valid()
      reads this, ec
    {
      Inv(Snap())
    }

    constructor (addr: nat)
      requires addr != 0
      ensures Valid() && Snap() == Init(addr)
      ensures fresh(ec)
    {
      ec := new EventCount();
      heap := map[addr := Cell(0, 0)];
      head, tail, p, c := addr, addr, PIdle, CIdle;
      chain, enqueued, dequeued, epochs, epochAtGet := [addr], [], [], 0, 0;
      new;
      InitInv(addr);
    }

    // ---------- The producer: one method per atomic action ----------

    method BeginEnqueue(val: int)
      requires p.PIdle?
      modifies this, ec
      ensures Snap() == M.BeginEnqueue(old(Snap()), val)
    {
      p := PAlloc(val);
    }

    method Alloc(addr: nat)
      requires p.PAlloc?
      modifies this, ec
      ensures Snap() == M.Alloc(old(Snap()), addr)
    {
      if addr != 0 && addr !in heap {
        heap := heap[addr := Cell(0, p.val)];
        p := PLink(addr);
      }
    }

    method Link()
      requires ProducerSafe(Snap()) && p.PLink?
      modifies this, ec
      ensures Snap() == M.Link(old(Snap()))
    {
      var n := p.n;
      enqueued := enqueued + [heap[n].data];
      heap := heap[head := Cell(n, heap[head].data)];
      chain := chain + [n];
      p := PHead(n);
    }

    method StoreHead()
      requires p.PHead?
      modifies this, ec
      ensures Snap() == M.StoreHead(old(Snap()))
    {
      head := p.n;
      p := PSignal;
    }

    method Signal()
      requires p.PSignal?
      modifies this, ec
      ensures Snap() == M.Signal(old(Snap()))
    {
      var cmp := ec.count;
      p := if cmp >= FLAG then PLock(cmp) else PIdle;
    }

    method SignalLock()
      requires p.PLock?
      modifies this, ec
      ensures Snap() == M.SignalLock(old(Snap()))
    {
      var ok := ec.TryLock(TheProducer);
      if ok {
        p := PCas(p.cmp);
      }
    }

    method SignalCas(spurious: bool)
      requires p.PCas?
      modifies this, ec
      ensures Snap() == M.SignalCas(old(Snap()), spurious)
    {
      var ok := ec.NextEpoch(p.cmp, spurious);
      if ok {
        p := PReadWaiters;
        epochs := epochs + 1;
      } else {
        p := PCas(ec.count);
      }
    }

    method SignalWaiters()
      requires p.PReadWaiters? || p.PClearWaiters? || p.PUnlock?
      modifies this, ec
      ensures Snap() == M.SignalWaiters(old(Snap()))
    {
      match p {
        case PReadWaiters =>
          p := PClearWaiters(ec.waiters);
        case PClearWaiters(w) =>
          ec.waiters := 0;
          p := PUnlock(w);
        case PUnlock(w) =>
          ec.guard := Nobody;
          p := PNotify(w);
      }
    }

    method Notify()
      requires p.PNotify?
      modifies this, ec
      ensures Snap() == M.Notify(old(Snap()))
    {
      if p.w > 0 && c.CAsleep? {
        c := CRelock;
      }
      p := PIdle;
    }

    // ---------- The consumer: one method per atomic action ----------

    method BeginDequeue()
      requires c.CIdle? || c.CDone?
      modifies this, ec
      ensures Snap() == M.BeginDequeue(old(Snap()))
    {
      c := CNext(First);
    }

    method TryNext()
      requires ConsumerSafe(Snap()) && c.CNext?
      modifies this, ec
      ensures Snap() == M.TryNext(old(Snap()))
    {
      var n := heap[tail].next;
      c := if n == 0 then Retry(c.k) else CData(c.k, n);
    }

    method ReadData()
      requires ConsumerSafe(Snap()) && c.CData?
      modifies this, ec
      ensures Snap() == M.ReadData(old(Snap()))
    {
      c := CDelete(c.k, c.n, heap[c.n].data);
    }

    method Delete()
      requires ConsumerSafe(Snap()) && c.CDelete?
      modifies this, ec
      ensures Snap() == M.Delete(old(Snap()))
    {
      heap := heap - {tail};
      chain, dequeued := chain[1..], dequeued + [c.val];
      c := CAdvance(c.k, c.n, c.val);
    }

    method StoreTail()
      requires c.CAdvance?
      modifies this, ec
      ensures Snap() == M.StoreTail(old(Snap()))
    {
      tail := c.n;
      c := if c.val != 0 then CDone(c.val) else Retry(c.k);
    }

    method Get()
      requires c.CGet?
      modifies this, ec
      ensures Snap() == M.Get(old(Snap()))
    {
      var cmp := ec.FetchOrFlag();
      c := CNext(AfterGet(cmp % FLAG));
      epochAtGet := epochs;
    }

    method WaitLoad()
      requires c.CLoad?
      modifies this, ec
      ensures Snap() == M.WaitLoad(old(Snap()))
    {
      c := if c.cmp == ec.count % FLAG then CLock(c.cmp) else CNext(AfterWait);
    }

    method WaitLock()
      requires c.CLock?
      modifies this, ec
      ensures Snap() == M.WaitLock(old(Snap()))
    {
      var ok := ec.TryLock(TheConsumer);
      if ok {
        c := CCheck(c.cmp);
      }
    }

    method WaitCheck()
      requires c.CCheck?
      modifies this, ec
      ensures Snap() == M.WaitCheck(old(Snap()))
    {
      c := if c.cmp == ec.count % FLAG then CCount else CUnlock;
    }

    method CountWaiter()
      requires c.CCount?
      modifies this, ec
      ensures Snap() == M.CountWaiter(old(Snap()))
    {
      ec.waiters := ec.waiters + 1;
      c := CSleep;
    }

    method Sleep()
      requires c.CSleep?
      modifies this, ec
      ensures Snap() == M.Sleep(old(Snap()))
    {
      ec.guard := Nobody;
      c := CAsleep;
    }

    method Wake()
      requires c.CAsleep?
      modifies this, ec
      ensures Snap() == M.Wake(old(Snap()))
    {
      c := CRelock;
    }

    method Relock()
      requires c.CRelock?
      modifies this, ec
      ensures Snap() == M.Relock(old(Snap()))
    {
      var ok := ec.TryLock(TheConsumer);
      if ok {
        c := CUnlock;
      }
    }

    method WaitUnlock()
      requires c.CUnlock?
      modifies this, ec
      ensures Snap() == M.WaitUnlock(old(Snap()))
    {
      ec.guard := Nobody;
      c := CNext(AfterWait);
    }

    // ---------- Any schedule ----------

    method ProducerStep(addr: nat, spurious: bool)
      requires ProducerSafe(Snap())
      modifies this, ec
      ensures Snap() == M.ProducerStep(old(Snap()), addr, spurious)
    {
      match p {
        case PIdle =>
        case PAlloc(_) => Alloc(addr);
        case PLink(_) => Link();
        case PHead(_) => StoreHead();
        case PSignal => Signal();
        case PLock(_) => SignalLock();
        case PCas(_) => SignalCas(spurious);
        case PReadWaiters => SignalWaiters();
        case PClearWaiters(_) => SignalWaiters();
        case PUnlock(_) => SignalWaiters();
        case PNotify(_) => Notify();
      }
    }

    method ConsumerStep()
      requires ConsumerSafe(Snap())
      modifies this, ec
      ensures Snap() == M.ConsumerStep(old(Snap()))
    {
      match c {
        case CNext(_) => TryNext();
        case CData(_, _) => ReadData();
        case CDelete(_, _, _) => Delete();
        case CAdvance(_, _, _) => StoreTail();
        case CGet => Get();
        case CLoad(_) => WaitLoad();
        case CLock(_) => WaitLock();
        case CCheck(_) => WaitCheck();
        case CCount => CountWaiter();
        case CSleep => Sleep();
        case CRelock => Relock();
        case CUnlock => WaitUnlock();
        case _ =>
      }
    }

    method Execute(a: Action)
      requires Valid()
      modifies this, ec
      ensures Valid() && Snap() == Step(old(Snap()), a)
    {
      StepInv(Snap(), a);
      match a {
        case Enqueue(v) => if p.PIdle? && v != 0 { BeginEnqueue(v); }
        case Dequeue => if c.CIdle? || c.CDone? { BeginDequeue(); }
        case ProducerGo(addr, spurious) => ProducerStep(addr, spurious);
        case ConsumerGo => ConsumerStep();
        case SpuriousWake => if c.CAsleep? { Wake(); }
      }
    }

    /** Any schedule: delivery is in order, and a sleeper with an item linked will be woken. */
    method Schedule(sched: seq<Action>)
      requires Valid()
      modifies this, ec
      ensures Valid() && Snap() == Run(old(Snap()), sched)
      ensures enqueued == dequeued + Items(Snap())
      ensures c.CAsleep? && Items(Snap()) != [] ==> OwesEpoch(p) || OwesNotify(Snap())
    {
      var i := 0;
      while i < |sched|
        invariant 0 <= i <= |sched| && Valid()
        invariant Run(old(Snap()), sched) == Run(Snap(), sched[i..])
      {
        Execute(sched[i]);
        i := i + 1;
      }
      if c.CAsleep? && Items(Snap()) != [] { NoLostWakeup(Snap()); }
    }
  }
}
