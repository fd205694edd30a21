/** The single-producer single-consumer queue of spsc-bugfix/queue.cc over the eventcount of
    spsc-bugfix/eventcount.h, as a state machine.

    One step is one load, store or read-modify-write of shared memory, one allocation or deletion, or
    one operation on the mutex or the condition variable. Memory is a map from addresses to the nodes
    allocated there, so that a step may only touch a node that has not been deleted, and a new node
    may get any free address again. Address 0 is null. */
module SpscModel {
  const FLAG := 0x8000_0000

  datatype Cell = Cell(next: nat, data: int)

  datatype Producer =
    | PIdle
    | PAlloc(val: int)
    | PLink(n: nat)
    | PHead(n: nat)
    | PSignal
    | PLock(cmp: nat)
    | PCas(cmp: nat)
    | PReadWaiters
    | PClearWaiters(w: nat)
    | PUnlock(w: nat)
    | PNotify(w: nat)

  /** Which of its three calls of try_dequeue the consumer is in. */
  datatype Call = First | AfterGet(cmp: nat) | AfterWait

  datatype Consumer =
    | CIdle
    | CNext(k: Call)
    | CData(k: Call, n: nat)
    | CDelete(k: Call, n: nat, val: int)
    | CAdvance(k: Call, n: nat, val: int)
    | CGet
    | CLoad(cmp: nat)
    | CLock(cmp: nat)
    | CCheck(cmp: nat)
    | CCount
    | CSleep
    | CAsleep
    | CRelock
    | CUnlock
    | CDone(val: int)

  datatype Holder = Nobody | TheProducer | TheConsumer

  /** `chain`, the nodes from the consumer's to the last one linked, the two logs of values, the number
      of epochs begun and that number at the consumer's last `get` only observe. */
  datatype State = State(
    heap: map<nat, Cell>, head: nat, tail: nat, count: nat, waiters: nat, guard: Holder,
    p: Producer, c: Consumer,
    chain: seq<nat>, enqueued: seq<int>, dequeued: seq<int>, epochs: nat, epochAtGet: nat)

  /** An allocation returns any free address; a weak compare-and-swap may fail and a wait may end
      spuriously. */
  datatype Action =
    | Enqueue(val: int) | Dequeue | ProducerGo(addr: nat, spurious: bool) | ConsumerGo | SpuriousWake

  // ---------- The count word ----------

  predicate Flagged(count: nat) { count >= FLAG }

  function Epoch(count: nat): nat { count % FLAG }

  function SetFlag(count: nat): nat { if count < FLAG then count + FLAG else count }

  // ---------- The invariant ----------

  /** The consumer has read the item and deleted its old node, but not yet stored `tail`. */
  predicate Advancing(c: Consumer) { c.CAdvance? }

  /** The node whose link the consumer follows next. */
  function Front(s: State): nat {
    if Advancing(s.c) then s.c.n else s.tail
  }

  ghost predicate ChainOk(s: State) {
    && s.chain != [] && s.chain[0] == Front(s)
    && (forall i :: 0 <= i < |s.chain| ==> s.chain[i] != 0 && s.chain[i] in s.heap)
    && (forall i, j :: 0 <= i < j < |s.chain| ==> s.chain[i] != s.chain[j])
    && (forall i, j :: 0 <= i < |s.chain| && j == i + 1 && j < |s.chain| ==> s.heap[s.chain[i]].next == s.chain[j])
    && s.heap[s.chain[|s.chain| - 1]].next == 0
    // nothing is leaked: what is allocated is in the chain or in the producer's hand
    && (forall a :: a in s.heap ==> a in s.chain || s.p == PLink(a))
    && (s.p.PLink? ==> s.p.n != 0 && s.p.n in s.heap && s.p.n !in s.chain && s.heap[s.p.n].next == 0)
    // `head` is the last node, except between the link and the store of `head`
    && (if s.p.PHead? then s.chain[|s.chain| - 1] == s.p.n else s.head == s.chain[|s.chain| - 1])
  }

  /** The values linked and not yet taken. */
  ghost function Items(s: State): seq<int>
    requires ChainOk(s)
  {
    seq(|s.chain| - 1, i requires 0 <= i < |s.chain| - 1 => s.heap[s.chain[i + 1]].data)
  }

  ghost predicate ValuesOk(s: State)
    requires ChainOk(s)
  {
    && s.enqueued == s.dequeued + Items(s)
    && (forall i :: 0 < i < |s.chain| ==> s.heap[s.chain[i]].data != 0)
    && (s.p.PAlloc? ==> s.p.val != 0)
    && (s.p.PLink? ==> s.heap[s.p.n].data != 0)
    && (match s.c
        case CData(_, n) => |s.chain| >= 2 && n == s.chain[1]
        case CDelete(_, n, v) => |s.chain| >= 2 && n == s.chain[1] && v == s.heap[n].data
        case CAdvance(_, n, v) => s.dequeued != [] && s.dequeued[|s.dequeued| - 1] == v != 0
        case CDone(v) => s.dequeued != [] && s.dequeued[|s.dequeued| - 1] == v != 0
        case _ => true)
  }

  predicate ProducerHolds(p: Producer) { p.PCas? || p.PReadWaiters? || p.PClearWaiters? || p.PUnlock? }

  predicate ConsumerHolds(c: Consumer) { c.CCheck? || c.CCount? || c.CSleep? || c.CUnlock? }

  /** The count word is the flag and the epochs begun, modulo 2^31; the mutex is held by whoever is
      inside; a signaller that saw the flag still finds the word it saw. */
  ghost predicate WordsOk(s: State) {
    && s.count < 2 * FLAG && Epoch(s.count) == s.epochs % FLAG
    && (s.guard == TheProducer <==> ProducerHolds(s.p))
    && (s.guard == TheConsumer <==> ConsumerHolds(s.c))
    && (s.p.PLock? || s.p.PCas? ==> s.p.cmp == s.count && Flagged(s.count))
  }

  /** The epoch the consumer got and has yet to compare. */
  function Awaited(c: Consumer): (cmp: int)
  {
    match c
    case CNext(AfterGet(e)) => e
    case CData(AfterGet(e), _) => e
    case CDelete(AfterGet(e), _, _) => e
    case CAdvance(AfterGet(e), _, _) => e
    case CLoad(e) => e
    case CLock(e) => e
    case CCheck(e) => e
    case _ => -1
  }

  /** Past the failed try_dequeue that followed `get`, and not yet past the wait. */
  predicate AboutToWait(c: Consumer) {
    c.CLoad? || c.CLock? || c.CCheck? || c.CCount? || c.CSleep? || c.CAsleep?
  }

  /** The producer has linked an item and not yet ended the epoch for it. */
  predicate OwesEpoch(p: Producer) { p.PHead? || p.PSignal? || p.PLock? || p.PCas? }

  /** The producer has ended the epoch and will wake whoever had been counted. */
  predicate OwesNotify(s: State) {
    match s.p
    case PReadWaiters => s.waiters > 0
    case PClearWaiters(w) => w > 0
    case PUnlock(w) => w > 0
    case PNotify(w) => w > 0
    case _ => false
  }

  /** Between `get` and the wait the epoch advances at most once, and clears the flag if it does. */
  ghost predicate EpochOk(s: State) {
    && s.epochAtGet <= s.epochs
    && (Awaited(s.c) >= 0 || AboutToWait(s.c) ==>
         s.epochs <= s.epochAtGet + 1 && (Flagged(s.count) <==> s.epochs == s.epochAtGet))
    && (Awaited(s.c) >= 0 ==> Awaited(s.c) == s.epochAtGet % FLAG)
    && (s.c.CCount? || s.c.CSleep? ==> s.epochs == s.epochAtGet)
    && (s.c.CSleep? ==> s.waiters > 0)
    && (s.c.CAsleep? ==> if s.epochs == s.epochAtGet then s.waiters > 0 else OwesNotify(s))
    && (s.c.CAsleep? && s.epochs == s.epochAtGet ==> !s.p.PReadWaiters? && !s.p.PClearWaiters? && !s.p.PUnlock?)
    // an item linked after the failed try finds the flag still set
    && (AboutToWait(s.c) && s.epochs == s.epochAtGet && |s.chain| >= 2 ==> OwesEpoch(s.p))
  }

  ghost predicate Inv(s: State) {
    ChainOk(s) && ValuesOk(s) && WordsOk(s) && EpochOk(s)
  }

  // ---------- The producer's steps ----------

  function BeginEnqueue(s: State, val: int): State
    requires s.p.PIdle?
  {
    s.(p := PAlloc(val))
  }

  /** queue.cc line 6. */
  function Alloc(s: State, addr: nat): State
    requires s.p.PAlloc?
  {
    if addr == 0 || addr in s.heap then s else
    s.(p := PLink(addr), heap := s.heap[addr := Cell(0, s.p.val)])
  }

  /** Line 12: writes through `head`; where the enqueue takes effect. */
  function Link(s: State): State
    requires s.p.PLink? && s.head in s.heap && s.p.n in s.heap
  {
    s.(p := PHead(s.p.n), heap := s.heap[s.head := s.heap[s.head].(next := s.p.n)],
       chain := s.chain + [s.p.n], enqueued := s.enqueued + [s.heap[s.p.n].data])
  }

  /** Line 14. */
  function StoreHead(s: State): State
    requires s.p.PHead?
  {
    s.(p := PSignal, head := s.p.n)
  }

  /** eventcount.h lines 25 and 60: nothing to do when no one set the flag. */
  function Signal(s: State): State
    requires s.p.PSignal?
  {
    s.(p := if Flagged(s.count) then PLock(s.count) else PIdle)
  }

  /** Line 62. */
  function SignalLock(s: State): State
    requires s.p.PLock?
  {
    if s.guard != Nobody then s else s.(p := PCas(s.p.cmp), guard := TheProducer)
  }

  /** Lines 63-64: the next epoch begins, with the flag clear. */
  function SignalCas(s: State, spurious: bool): State
    requires s.p.PCas?
  {
    if s.count != s.p.cmp || spurious then s.(p := PCas(s.count))
    else s.(p := PReadWaiters, count := (s.p.cmp + 1) % FLAG, epochs := s.epochs + 1)
  }

  /** Lines 65-67. */
  function SignalWaiters(s: State): State
    requires s.p.PReadWaiters? || s.p.PClearWaiters? || s.p.PUnlock?
  {
    match s.p
    case PReadWaiters => s.(p := PClearWaiters(s.waiters))
    case PClearWaiters(w) => s.(p := PUnlock(w), waiters := 0)
    case PUnlock(w) => s.(p := PNotify(w), guard := Nobody)
  }

  /** Lines 68-69. */
  function Notify(s: State): State
    requires s.p.PNotify?
  {
    s.(p := PIdle, c := if s.p.w > 0 && s.c.CAsleep? then CRelock else s.c)
  }

  predicate ProducerSafe(s: State) {
    s.p.PLink? ==> s.head in s.heap && s.p.n in s.heap
  }

  function ProducerStep(s: State, addr: nat, spurious: bool): State
    requires ProducerSafe(s)
  {
    match s.p
    case PIdle => s
    case PAlloc(_) => Alloc(s, addr)
    case PLink(_) => Link(s)
    case PHead(_) => StoreHead(s)
    case PSignal => Signal(s)
    case PLock(_) => SignalLock(s)
    case PCas(_) => SignalCas(s, spurious)
    case PReadWaiters => SignalWaiters(s)
    case PClearWaiters(_) => SignalWaiters(s)
    case PUnlock(_) => SignalWaiters(s)
    case PNotify(_) => Notify(s)
  }

  // ---------- The consumer's steps ----------

  function BeginDequeue(s: State): State
    requires s.c.CIdle? || s.c.CDone?
  {
    s.(c := CNext(First))
  }

  /** Where dequeue goes on when a call of try_dequeue returns nothing (queue.cc lines 23-32). */
  function Retry(k: Call): Consumer {
    match k
    case First => CGet
    case AfterGet(cmp) => CLoad(cmp)
    case AfterWait => CGet
  }

  /** Lines 41-49: follows the link of the node in `tail`. */
  function TryNext(s: State): State
    requires s.c.CNext? && s.tail in s.heap
  {
    var n := s.heap[s.tail].next;
    s.(c := if n == 0 then Retry(s.c.k) else CData(s.c.k, n))
  }

  /** Line 51. */
  function ReadData(s: State): State
    requires s.c.CData? && s.c.n in s.heap
  {
    s.(c := CDelete(s.c.k, s.c.n, s.heap[s.c.n].data))
  }

  /** Line 52. */
  function Delete(s: State): State
    requires s.c.CDelete? && s.tail in s.heap && s.chain != []
  {
    s.(c := CAdvance(s.c.k, s.c.n, s.c.val), heap := s.heap - {s.tail},
       chain := s.chain[1..], dequeued := s.dequeued + [s.c.val])
  }

  /** Lines 53-54, and the tests of the result in dequeue. */
  function StoreTail(s: State): State
    requires s.c.CAdvance?
  {
    s.(tail := s.c.n, c := if s.c.val != 0 then CDone(s.c.val) else Retry(s.c.k))
  }

  /** eventcount.h lines 31-33. */
  function Get(s: State): State
    requires s.c.CGet?
  {
    s.(c := CNext(AfterGet(Epoch(s.count))), count := SetFlag(s.count), epochAtGet := s.epochs)
  }

  /** Lines 38-39. */
  function WaitLoad(s: State): State
    requires s.c.CLoad?
  {
    s.(c := if s.c.cmp == Epoch(s.count) then CLock(s.c.cmp) else CNext(AfterWait))
  }

  /** Line 41. */
  function WaitLock(s: State): State
    requires s.c.CLock?
  {
    if s.guard != Nobody then s else s.(c := CCheck(s.c.cmp), guard := TheConsumer)
  }

  /** Lines 42-43. */
  function WaitCheck(s: State): State
    requires s.c.CCheck?
  {
    s.(c := if s.c.cmp == Epoch(s.count) then CCount else CUnlock)
  }

  /** Line 45. */
  function CountWaiter(s: State): State
    requires s.c.CCount?
  {
    s.(c := CSleep, waiters := s.waiters + 1)
  }

  /** Line 46: releases the mutex and sleeps in one step. */
  function Sleep(s: State): State
    requires s.c.CSleep?
  {
    s.(c := CAsleep, guard := Nobody)
  }

  function Wake(s: State): State
    requires s.c.CAsleep?
  {
    s.(c := CRelock)
  }

  /** Line 46, after the wake-up: the wait returns holding the mutex again. */
  function Relock(s: State): State
    requires s.c.CRelock?
  {
    if s.guard != Nobody then s else s.(c := CUnlock, guard := TheConsumer)
  }

  /** Line 48. */
  function WaitUnlock(s: State): State
    requires s.c.CUnlock?
  {
    s.(c := CNext(AfterWait), guard := Nobody)
  }

  predicate ConsumerSafe(s: State) {
    && (s.c.CNext? || s.c.CDelete? ==> s.tail in s.heap)
    && (s.c.CData? ==> s.c.n in s.heap)
    && (s.c.CDelete? ==> s.chain != [])
  }

  function ConsumerStep(s: State): State
    requires ConsumerSafe(s)
  {
    match s.c
    case CIdle => s
    case CNext(_) => TryNext(s)
    case CData(_, _) => ReadData(s)
    case CDelete(_, _, _) => Delete(s)
    case CAdvance(_, _, _) => StoreTail(s)
    case CGet => Get(s)
    case CLoad(_) => WaitLoad(s)
    case CLock(_) => WaitLock(s)
    case CCheck(_) => WaitCheck(s)
    case CCount => CountWaiter(s)
    case CSleep => Sleep(s)
    case CAsleep => s
    case CRelock => Relock(s)
    case CUnlock => WaitUnlock(s)
    case CDone(_) => s
  }

  /** One scheduled action; one that is not enabled leaves the state alone. Clients enqueue only
      values other than 0, which stands for nothing. */
  ghost function Step(s: State, a: Action): State
    requires Inv(s)
  {
    match a
    case Enqueue(v) => if s.p.PIdle? && v != 0 then BeginEnqueue(s, v) else s
    case Dequeue => if s.c.CIdle? || s.c.CDone? then BeginDequeue(s) else s
    case ProducerGo(addr, spurious) => ProducerStep(s, addr, spurious)
    case ConsumerGo => ConsumerStep(s)
    case SpuriousWake => if s.c.CAsleep? then Wake(s) else s
  }

  /** One dummy node at the given address (queue.h lines 13-18). */
  function Init(addr: nat): State {
    State(map[addr := Cell(0, 0)], addr, addr, 0, 0, Nobody, PIdle, CIdle, [addr], [], [], 0, 0)
  }
}
