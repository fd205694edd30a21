/** What the queue and its eventcount promise, for every schedule of the two threads. */
module SpscTheorems {
  import opened SpscModel
  import opened SpscProofs

  // ---------- No lost wakeup ----------

  /** Whenever the consumer sleeps with an item linked, the producer is on its way to wake it: it has
      yet to end the epoch the consumer waits in, or has ended it and counted a waiter to notify. */
  lemma NoLostWakeup(s: State)
    requires Inv(s) && s.c.CAsleep? && Items(s) != []
    ensures if s.epochs == s.epochAtGet then OwesEpoch(s.p) && s.waiters > 0 && Flagged(s.count) else OwesNotify(s)
    ensures !s.p.PIdle?
  {
  }

  /** The producer's steps, alone, its weak compare-and-swap succeeding. */
  ghost function ProducerAlone(s: State, n: nat): (s': State)
    requires Inv(s)
    ensures Inv(s')
    decreases n
  {
    if n == 0 then s else ProducerInv(s, 0, false); ProducerAlone(ProducerStep(s, 0, false), n - 1)
  }

  /** How many steps the producer still takes before it notifies. */
  function StepsToNotify(p: Producer): nat {
    match p
    case PHead(_) => 8
    case PSignal => 7
    case PLock(_) => 6
    case PCas(_) => 5
    case PReadWaiters => 4
    case PClearWaiters(_) => 3
    case PUnlock(_) => 2
    case PNotify(_) => 1
    case _ => 0
  }

  /** And nothing stops it: within eight of its own steps the sleeper is woken. */
  lemma {:induction false} SleeperIsWoken(s: State)
    requires Inv(s) && s.c.CAsleep? && Items(s) != []
    ensures 0 < StepsToNotify(s.p) <= 8
    ensures ProducerAlone(s, StepsToNotify(s.p)).c == CRelock
    decreases StepsToNotify(s.p)
  {
    NoLostWakeup(s);
    ProducerInv(s, 0, false);
    var s' := ProducerStep(s, 0, false);
    if s.p.PNotify? {
      assert ProducerAlone(s', 0) == s';
    } else {
      assert s'.chain == s.chain;
      SleeperIsWoken(s');
    }
  }

  /** The wait's comparison of 31-bit epochs is exact: since `get` at most one epoch has begun. */
  lemma EpochComparisonExact(s: State)
    requires Inv(s) && (s.c.CLoad? || s.c.CCheck?)
    ensures s.epochAtGet <= s.epochs <= s.epochAtGet + 1
    ensures s.c.cmp == Epoch(s.count) <==> s.epochs == s.epochAtGet
  {
  }

  /** No deadlock: while the consumer is in dequeue and an item is linked, one of the two can move. */
  lemma SomeoneMoves(s: State)
    requires Inv(s) && !s.c.CIdle? && !s.c.CDone? && Items(s) != []
    ensures ConsumerStep(s) != s || ProducerStep(s, 0, false) != s
  {
    if s.c.CAsleep? { NoLostWakeup(s); }
    match s.p {
      case PIdle =>
      case PHead(_) => assert ProducerStep(s, 0, false).p == PSignal;
      case PSignal => assert ProducerStep(s, 0, false).p != PSignal;
      case PLock(_) =>
      case PCas(_) => assert ProducerStep(s, 0, false).p == PReadWaiters;
      case PReadWaiters => assert ProducerStep(s, 0, false).p != s.p;
      case PClearWaiters(_) => assert ProducerStep(s, 0, false).p != s.p;
      case PUnlock(_) => assert ProducerStep(s, 0, false).p != s.p;
      case PNotify(_) => assert ProducerStep(s, 0, false).p != s.p;
      case _ =>
    }
    match s.c {
      case CNext(_) => assert ConsumerStep(s).c != s.c;
      case CData(_, _) => assert ConsumerStep(s).c != s.c;
      case CDelete(_, _, _) => assert ConsumerStep(s).c != s.c;
      case CAdvance(_, _, _) => assert ConsumerStep(s).c != s.c;
      case CGet => assert ConsumerStep(s).c != s.c;
      case CLoad(_) => assert ConsumerStep(s).c != s.c;
      case CCheck(_) => assert ConsumerStep(s).c != s.c;
      case CCount => assert ConsumerStep(s).c != s.c;
      case CSleep => assert ConsumerStep(s).c != s.c;
      case CUnlock => assert ConsumerStep(s).c != s.c;
      case _ =>
    }
  }

  // ---------- First in, first out ----------

  lemma QuietProducer(s: State, addr: nat, spurious: bool)
    requires ProducerSafe(s) && !s.p.PLink?
    ensures ProducerStep(s, addr, spurious).enqueued == s.enqueued
    ensures ProducerStep(s, addr, spurious).dequeued == s.dequeued
  {
  }

  lemma QuietConsumer(s: State)
    requires ConsumerSafe(s) && !s.c.CDelete?
    ensures ConsumerStep(s).enqueued == s.enqueued && ConsumerStep(s).dequeued == s.dequeued
  {
  }

  lemma QuietLogs(s: State, a: Action)
    requires Inv(s) && !(a.ConsumerGo? && s.c.CDelete?) && !(a.ProducerGo? && s.p.PLink?)
    ensures Step(s, a).enqueued == s.enqueued && Step(s, a).dequeued == s.dequeued
  {
    if a.ProducerGo? { QuietProducer(s, a.addr, a.spurious); }
    if a.ConsumerGo? { QuietConsumer(s); }
  }

  lemma CancelPrefix(p: seq<int>, a: seq<int>, b: seq<int>)
    requires p + a == p + b
    ensures a == b
  {
    assert (p + a)[|p|..] == a && (p + b)[|p|..] == b;
  }

  /** Linking appends the enqueued value, deleting the old front takes the first item, and no other
      step changes the queue. */
  lemma StepIsFifo(s: State, a: Action)
    requires Inv(s)
    ensures Inv(Step(s, a))
    ensures
      var s' := Step(s, a);
      if a.ProducerGo? && s.p.PLink? then
        Items(s') == Items(s) + [s.heap[s.p.n].data] && s'.dequeued == s.dequeued
        && s'.enqueued == s.enqueued + [s.heap[s.p.n].data]
      else if a.ConsumerGo? && s.c.CDelete? then
        Items(s) == [s.c.val] + Items(s') && s'.dequeued == s.dequeued + [s.c.val] && s'.enqueued == s.enqueued
      else Items(s') == Items(s) && s'.enqueued == s.enqueued && s'.dequeued == s.dequeued
  {
    StepInv(s, a);
    if a.ConsumerGo? && s.c.CDelete? {
      DeleteItems(s);
    } else if !(a.ProducerGo? && s.p.PLink?) {
      QuietLogs(s, a);
      CancelPrefix(s.dequeued, Items(Step(s, a)), Items(s));
    }
  }

  /** Every run delivers, in order and unchanged, a prefix of the values enqueued; a call of dequeue
      returns the last one delivered, never 0. */
  lemma RunIsFifo(addr: nat, sched: seq<Action>)
    requires addr != 0
    ensures Inv(Init(addr))
    ensures
      var s := Run(Init(addr), sched);
      && s.enqueued == s.dequeued + Items(s)
      && (s.c.CDone? ==> s.dequeued != [] && s.c.val == s.dequeued[|s.dequeued| - 1] != 0)
  {
    InitInv(addr);
  }

  // ---------- Memory ----------

  /** No step of either thread follows a pointer to a deleted node, even though addresses are reused,
      and what is allocated is exactly the chain and a node about to be linked. */
  lemma NeverDangling(s: State)
    requires Inv(s)
    ensures s.p.PLink? ==> s.head in s.heap && s.p.n in s.heap
    ensures s.c.CNext? || s.c.CDelete? ==> s.tail in s.heap
    ensures s.c.CData? ==> s.c.n in s.heap
    ensures s.heap.Keys == (set i | 0 <= i < |s.chain| :: s.chain[i]) + if s.p.PLink? then {s.p.n} else {}
  {
  }

  /** The destructor's assertion: with both threads done and every item taken, `head` is `tail`, and
      that node is the only one left to delete. */
  lemma DestructorHolds(s: State)
    requires Inv(s) && s.p.PIdle? && (s.c.CIdle? || s.c.CDone?) && s.enqueued == s.dequeued
    ensures s.head == s.tail && s.heap.Keys == {s.head}
  {
    assert Items(s) == [];
  }
}
