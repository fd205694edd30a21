/** The MCS queue lock of mcs-lock/mcs-lock.cc as a state machine.

    One step is one load, store, exchange or compare-and-swap of a shared word. A node belongs to the
    guard that locks with it; once the guard is gone any thread may lock with the same node again. */
module McsModel {
  datatype Link = Null | Node(n: nat)

  datatype Thread =
    | Idle
    | LNext(me: nat)
    | LGate(me: nat)
    | LSwap(me: nat)
    | LLink(me: nat, pred: nat)
    | LSpin(me: nat)
    | Holding(me: nat)
    | ULoad(me: nat)
    | UCas(me: nat)
    | USpin(me: nat)
    | UGate(me: nat, next: nat)

  /** `swaps` logs every exchange of the tail, `served` counts the releases, `ticket` is each thread's
      last place in `swaps` and `entries` logs who entered; these four only observe. The queue, from
      exchange to release, is what `swaps` holds from `served` on. */
  datatype State = State(
    tail: Link, next: seq<Link>, gate: seq<int>, th: seq<Thread>,
    swaps: seq<nat>, served: nat, ticket: seq<nat>, entries: seq<nat>)

  datatype Action = Lock(tid: nat, node: nat) | Unlock(tid: nat) | Go(tid: nat)

  // ---------- The invariant ----------

  /** From its exchange to its release a thread is in the queue. */
  predicate Queued(th: Thread) {
    th.LLink? || th.LSpin? || Inside(th)
  }

  /** From the return of lock to the releasing step of unlock. */
  predicate Inside(th: Thread) {
    th.Holding? || th.ULoad? || th.UCas? || th.USpin? || th.UGate?
  }

  /** Node n is the one thread t locks with. */
  predicate Uses(s: State, t: nat, n: nat)
    requires t < |s.th|
  {
    !s.th[t].Idle? && s.th[t].me == n
  }

  ghost predicate Sized(s: State) {
    && |s.gate| == |s.next| && |s.ticket| == |s.th| && s.served <= |s.swaps|
    && (forall t :: 0 <= t < |s.th| && !s.th[t].Idle? ==> s.th[t].me < |s.next|)
    && (forall t, u :: 0 <= t < |s.th| && 0 <= u < |s.th| && !s.th[t].Idle? && !s.th[u].Idle? && t != u ==>
         s.th[t].me != s.th[u].me)
  }

  /** Place i of the log is a queued thread's. */
  ghost predicate PlaceOk(s: State, i: nat)
    requires |s.ticket| == |s.th|
  {
    i < |s.swaps| && s.swaps[i] < |s.th| && Queued(s.th[s.swaps[i]]) && s.ticket[s.swaps[i]] == i
  }

  ghost predicate InLine(s: State, t: nat)
    requires t < |s.th| == |s.ticket|
  {
    s.served <= s.ticket[t] < |s.swaps| && s.swaps[s.ticket[t]] == t
  }

  /** Thread t is behind another queued thread. */
  ghost predicate Behind(s: State, t: nat)
    requires t < |s.th| == |s.ticket|
  {
    s.served < s.ticket[t] && PlaceOk(s, s.ticket[t] - 1) && s.th[s.swaps[s.ticket[t] - 1]].me < |s.next|
  }

  ghost function PredNode(s: State, t: nat): nat
    requires t < |s.th| == |s.ticket| && Behind(s, t)
  {
    s.th[s.swaps[s.ticket[t] - 1]].me
  }

  /** Each waiter behind the first has its gate closed, and is linked to or about to link its
      predecessor's node; only the first may be inside, and once it waits its gate is open. */
  ghost predicate ThreadOk(s: State, t: nat)
    requires Sized(s) && t < |s.th|
  {
    && (Queued(s.th[t]) ==> InLine(s, t))
    && (Inside(s.th[t]) ==> s.ticket[t] == s.served)
    && match s.th[t]
       case LGate(me) => s.next[me] == Null
       case LSwap(me) => s.next[me] == Null && s.gate[me] == 1
       case LLink(me, pred) => Behind(s, t) && pred == PredNode(s, t) && s.next[pred] == Null && s.gate[me] == 1
       case LSpin(me) =>
         if s.ticket[t] == s.served then s.gate[me] == 0
         else s.gate[me] == 1 && Behind(s, t) && s.next[PredNode(s, t)] == Node(me)
       case USpin(_) => s.served + 2 <= |s.swaps|
       case UGate(_, next) =>
         PlaceOk(s, s.served + 1) && s.th[s.swaps[s.served + 1]] == LSpin(next)
       case _ => true
  }

  /** `tail` is the node of the last in the queue, which no one has linked to. */
  ghost predicate TailOk(s: State)
    requires Sized(s)
  {
    if s.served == |s.swaps| then s.tail == Null
    else
      PlaceOk(s, |s.swaps| - 1) &&
      var me := s.th[s.swaps[|s.swaps| - 1]].me;
      me < |s.next| && s.tail == Node(me) && s.next[me] == Null
  }

  ghost predicate FirstInside(s: State)
    requires |s.ticket| == |s.th|
  {
    s.served < |s.swaps| && PlaceOk(s, s.served) && Inside(s.th[s.swaps[s.served]])
  }

  /** Entries follow exchanges: everyone who left, then the first in the queue once it is inside. */
  ghost predicate LogsOk(s: State)
    requires Sized(s)
  {
    s.entries == s.swaps[..s.served + (if FirstInside(s) then 1 else 0)]
  }

  ghost predicate Inv(s: State) {
    && Sized(s)
    && (forall i :: s.served <= i < |s.swaps| ==> PlaceOk(s, i))
    && TailOk(s)
    && LogsOk(s)
    && forall t :: 0 <= t < |s.th| ==> ThreadOk(s, t)
  }

  // ---------- The steps ----------

  predicate Safe(s: State, t: nat) {
    && t < |s.th| == |s.ticket| && |s.gate| == |s.next|
    && (!s.th[t].Idle? ==> s.th[t].me < |s.next|)
    && (s.th[t].LLink? ==> s.th[t].pred < |s.next|)
    && (s.th[t].UGate? ==> s.th[t].next < |s.next|)
  }

  function SetTh(s: State, t: nat, th: Thread): State
    requires t < |s.th|
  {
    s.(th := s.th[t := th])
  }

  ghost predicate MayLock(s: State, t: nat, n: nat) {
    t < |s.th| && s.th[t].Idle? && n < |s.next| && forall u :: 0 <= u < |s.th| ==> !Uses(s, u, n)
  }

  function BeginLock(s: State, t: nat, n: nat): State
    requires t < |s.th| && s.th[t].Idle?
  {
    SetTh(s, t, LNext(n))
  }

  function BeginUnlock(s: State, t: nat): State
    requires t < |s.th| && s.th[t].Holding?
  {
    SetTh(s, t, ULoad(s.th[t].me))
  }

  /** Lines 8 and 9. */
  function SetUp(s: State, t: nat): State
    requires Safe(s, t) && (s.th[t].LNext? || s.th[t].LGate?)
  {
    match s.th[t]
    case LNext(me) => SetTh(s, t, LGate(me)).(next := s.next[me := Null])
    case LGate(me) => SetTh(s, t, LSwap(me)).(gate := s.gate[me := 1])
  }

  /** Lines 25-27: where the order of entry is decided. */
  function Swap(s: State, t: nat): State
    requires Safe(s, t) && s.th[t].LSwap?
  {
    var me := s.th[t].me;
    SetTh(s, t, if s.tail == Null then Holding(me) else LLink(me, s.tail.n)).(
      tail := Node(me), swaps := s.swaps + [t], ticket := s.ticket[t := |s.swaps|],
      entries := if s.tail == Null then s.entries + [t] else s.entries)
  }

  /** Line 43. */
  function LinkPred(s: State, t: nat): State
    requires Safe(s, t) && s.th[t].LLink?
  {
    var LLink(me, pred) := s.th[t];
    SetTh(s, t, LSpin(me)).(next := s.next[pred := Node(me)])
  }

  /** Lines 54-56: one look at the gate. */
  function Spin(s: State, t: nat): State
    requires Safe(s, t) && s.th[t].LSpin?
  {
    var me := s.th[t].me;
    if s.gate[me] != 0 then s else SetTh(s, t, Holding(me)).(entries := s.entries + [t])
  }

  /** Lines 71-72. */
  function LoadNext(s: State, t: nat): State
    requires Safe(s, t) && s.th[t].ULoad?
  {
    var me := s.th[t].me;
    SetTh(s, t, if s.next[me] == Null then UCas(me) else UGate(me, s.next[me].n))
  }

  /** Lines 81-86: a release if nobody came. */
  function CasTail(s: State, t: nat): State
    requires Safe(s, t) && s.th[t].UCas?
  {
    var me := s.th[t].me;
    if s.tail == Node(me) then SetTh(s, t, Idle).(tail := Null, served := s.served + 1)
    else SetTh(s, t, USpin(me))
  }

  /** Lines 99-102: one look for the successor. */
  function SpinNext(s: State, t: nat): State
    requires Safe(s, t) && s.th[t].USpin?
  {
    var me := s.th[t].me;
    if s.next[me] == Null then s else SetTh(s, t, UGate(me, s.next[me].n))
  }

  /** Line 115: the release. */
  function OpenGate(s: State, t: nat): State
    requires Safe(s, t) && s.th[t].UGate?
  {
    SetTh(s, t, Idle).(gate := s.gate[s.th[t].next := 0], served := s.served + 1)
  }

  function GoStep(s: State, t: nat): State
    requires Safe(s, t)
  {
    match s.th[t]
    case LNext(_) => SetUp(s, t)
    case LGate(_) => SetUp(s, t)
    case LSwap(_) => Swap(s, t)
    case LLink(_, _) => LinkPred(s, t)
    case LSpin(_) => Spin(s, t)
    case ULoad(_) => LoadNext(s, t)
    case UCas(_) => CasTail(s, t)
    case USpin(_) => SpinNext(s, t)
    case UGate(_, _) => OpenGate(s, t)
    case _ => s
  }

  /** One scheduled action; one that is not enabled leaves the state alone. Clients lock with a node
      no other guard is using, and unlock only what they hold. */
  ghost function Step(s: State, a: Action): State
    requires Inv(s)
  {
    if a.tid >= |s.th| then s else
    match a
    case Lock(t, n) => if MayLock(s, t, n) then BeginLock(s, t, n) else s
    case Unlock(t) => if s.th[t].Holding? then BeginUnlock(s, t) else s
    case Go(t) => assert ThreadOk(s, t); GoStep(s, t)
  }

  function Init(nodes: nat, threads: nat): State {
    State(Null, seq(nodes, _ => Null), seq(nodes, _ => 0), seq(threads, _ => Idle),
          [], 0, seq(threads, _ => 0), [])
  }
}
