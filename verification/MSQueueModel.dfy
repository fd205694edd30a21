/** The Michael-Scott queue of ms-queue/queue.c as a state machine.

    One step is one load, store or compare-and-swap of a shared word, taken by any of N threads.
    The locals of a thread at each program point are the fields of its `Thread` constructor, named
    after the function (E: enqueue, D: dequeue) and what the point does next. */
module MSQueueModel {
  const MAX_FREELIST := 4
  const INITIAL_FREE := 2
  const POISON_IDX := 0x666
  const NUM_NODES := 0xf + 2

  /** A counted pointer: node index (0 is NULL) and modification count. */
  datatype Ptr = Ptr(ptr: nat, count: nat)

  datatype Thread =
    | Idle
    | ENew(val: int)
    | EValue(val: int, node: nat)
    | EInitLoad(val: int, node: nat)
    | EInitStore(val: int, node: nat, tmp: Ptr)
    | ELoadTail(val: int, node: nat)
    | ELoadNext(val: int, node: nat, tail: Ptr)
    | ECheckTail(val: int, node: nat, tail: Ptr, next: Ptr)
    | ECasNext(val: int, node: nat, tail: Ptr, next: Ptr)
    | EHelpLoad(val: int, node: nat, tail: Ptr)
    | EHelpCas(val: int, node: nat, tail: Ptr, nextPtr: nat)
    | ESwing(val: int, node: nat, tail: Ptr)
    | EDone(val: int)
    | DLoadHead
    | DLoadTail(head: Ptr)
    | DLoadNext(head: Ptr, tail: Ptr)
    | DCheckHead(head: Ptr, tail: Ptr, next: Ptr)
    | DHelp(tail: Ptr, next: Ptr)
    | DReadValue(head: Ptr, next: Ptr)
    | DCasHead(head: Ptr, next: Ptr, ret: int)
    | DReclaim(head: Ptr, ret: int)
    | DTrue(ret: int)
    | DFalse

  /** Where a node index lives. */
  datatype Place = Unused | Listed | Held(tid: nat) | Free(tid: nat) | Dropped

  datatype Event = Enq(tid: nat, val: int) | Deq(tid: nat, val: int) | Empty(tid: nat)

  /** The history length when an operation was invoked and when it took effect. */
  datatype Mark = Mark(since: nat, at: nat)

  datatype Option<T> = None | Some(value: T)

  /** `head` to `th` are the program's variables; `list` to `mark` only observe it. */
  datatype State = State(
    head: Ptr, tail: Ptr, next: seq<Ptr>, value: seq<int>, free: seq<seq<nat>>, th: seq<Thread>,
    list: seq<nat>, place: seq<Place>, hist: seq<Event>, mark: seq<Mark>)

  datatype Action = StartEnq(tid: nat, val: int) | StartDeq(tid: nat) | Go(tid: nat)

  // ---------- The sequential queue the history must follow ----------

  /** The queue after a history, or None when some event is not one a FIFO queue allows. */
  function Replay(h: seq<Event>): Option<seq<int>> {
    if h == [] then Some([]) else
    var q := Replay(h[..|h| - 1]);
    if q.None? then None else
    match h[|h| - 1]
    case Enq(_, v) => Some(q.value + [v])
    case Deq(_, v) => if q.value != [] && q.value[0] == v then Some(q.value[1..]) else None
    case Empty(_) => if q.value == [] then q else None
  }

  /** The queue contents: the values behind the dummy node at the front of the list. */
  ghost function Contents(s: State): seq<int>
    requires Arena(s)
  {
    seq(|s.list| - 1, i requires 0 <= i < |s.list| - 1 => s.value[s.list[i + 1]])
  }

  // ---------- The invariant ----------

  ghost predicate Arena(s: State) {
    && |s.value| == |s.next| == |s.place| <= POISON_IDX
    && |s.free| == |s.mark| == |s.th|
    && |s.list| > 0
    && forall i :: 0 <= i < |s.list| ==> 0 < s.list[i] < |s.next|
  }

  function Last(s: State): nat
    requires |s.list| > 0
  {
    s.list[|s.list| - 1]
  }

  /** The list from `head` is acyclic and null-ended; `tail` is its last or second-to-last node. */
  ghost predicate Shape(s: State)
    requires Arena(s)
  {
    && (forall i, j :: 0 <= i < j < |s.list| ==> s.list[i] != s.list[j])
    && (forall i, j :: 0 <= i < |s.list| && j == i + 1 && j < |s.list| ==> s.next[s.list[i]].ptr == s.list[j])
    && s.next[Last(s)].ptr == 0
    && s.head.ptr == s.list[0]
    && (s.tail.ptr == Last(s) || (|s.list| >= 2 && s.tail.ptr == s.list[|s.list| - 2]))
  }

  /** The node a thread alone may touch: an enqueuer's new node, a dequeuer's old dummy; 0 if none. */
  function HeldNode(th: Thread): nat {
    match th
    case EValue(_, n) => n
    case EInitLoad(_, n) => n
    case EInitStore(_, n, _) => n
    case ELoadTail(_, n) => n
    case ELoadNext(_, n, _) => n
    case ECheckTail(_, n, _, _) => n
    case ECasNext(_, n, _, _) => n
    case EHelpLoad(_, n, _) => n
    case EHelpCas(_, n, _, _) => n
    case DReclaim(h, _) => h.ptr
    case _ => 0
  }

  ghost predicate InFree(slots: seq<nat>, n: nat) {
    n != 0 && n in slots
  }

  ghost predicate FreeListOk(slots: seq<nat>, bound: nat) {
    && |slots| == MAX_FREELIST
    && (forall i :: 0 <= i < |slots| ==> slots[i] < bound)
    && (forall i, j :: 0 <= i < j < |slots| && slots[i] != 0 ==> slots[i] != slots[j])
  }

  /** `place` is the true location of every node, so no node is in two places. */
  ghost predicate Places(s: State)
    requires Arena(s)
  {
    && (|s.place| > 0 ==> s.place[0] == Unused)
    && (forall t :: 0 <= t < |s.th| ==> FreeListOk(s.free[t], |s.place|))
    && (forall n :: 0 <= n < |s.place| ==> (s.place[n] == Listed <==> n in s.list))
    && (forall n, t :: 0 <= n < |s.place| && 0 <= t < |s.th| ==>
         (s.place[n] == Held(t) <==> n != 0 && n == HeldNode(s.th[t])))
    && (forall n, t :: 0 <= n < |s.place| && 0 <= t < |s.th| ==> (s.place[n] == Free(t) <==> InFree(s.free[t], n)))
    && (forall n :: 0 <= n < |s.place| && s.place[n].Held? ==> s.place[n].tid < |s.th|)
    && (forall n :: 0 <= n < |s.place| && s.place[n].Free? ==> s.place[n].tid < |s.th|)
    && (forall n :: 0 <= n < |s.place| && s.place[n].Free? ==> s.next[n].ptr != 0)
  }

  ghost predicate TailSeen(s: State, tail: Ptr) {
    && tail.ptr < |s.next|
    && tail.count <= s.tail.count
    && (tail.count == s.tail.count ==> tail == s.tail)
  }

  ghost predicate HeadSeen(s: State, head: Ptr) {
    && head.ptr < |s.next|
    && head.count <= s.head.count
    && (head.count == s.head.count ==> head == s.head)
  }

  ghost predicate Ready(s: State, t: nat, val: int, node: nat)
    requires Arena(s)
  {
    node < |s.place| && s.place[node] == Held(t) && s.value[node] == val && s.next[node].ptr == 0
  }

  ghost predicate Marked(s: State, t: nat, e: Event)
    requires t < |s.mark|
  {
    s.mark[t].since <= s.mark[t].at < |s.hist| && s.hist[s.mark[t].at] == e
  }

  ghost predicate EmptyMarked(s: State, t: nat)
    requires t < |s.mark|
  {
    s.mark[t].since <= s.mark[t].at <= |s.hist| && Replay(s.hist[..s.mark[t].at]) == Some([])
  }

  /** What each program point of a thread knows about the shared words. */
  ghost predicate ThreadInv(s: State, t: nat)
    requires Arena(s) && t < |s.th|
  {
    && s.mark[t].since <= |s.hist|
    && match s.th[t]
       case Idle => true
       case ENew(_) => true
       case EValue(_, n) =>
         n < |s.place| && s.place[n] == Held(t) && s.next[n].ptr != 0
       case EInitLoad(v, n) =>
         n < |s.place| && s.place[n] == Held(t) && s.next[n].ptr != 0 && s.value[n] == v
       case EInitStore(v, n, tmp) =>
         n < |s.place| && s.place[n] == Held(t) && s.next[n].ptr != 0 && s.value[n] == v
         && tmp == Ptr(0, s.next[n].count)
       case ELoadTail(v, n) =>
         Ready(s, t, v, n)
       case ELoadNext(v, n, tail) =>
         Ready(s, t, v, n) && TailSeen(s, tail)
       case ECheckTail(v, n, tail, next) =>
         Ready(s, t, v, n) && TailSeen(s, tail)
         && (s.tail == tail ==> s.next[tail.ptr] == next
                                || (next.ptr == 0 && s.next[tail.ptr].ptr != 0 && s.next[tail.ptr].count > next.count))
       case ECasNext(v, n, tail, next) =>
         Ready(s, t, v, n) && TailSeen(s, tail)
         && next.ptr == 0 && next.count <= s.next[tail.ptr].count
         && (s.next[tail.ptr].count == next.count ==> s.next[tail.ptr].ptr == 0 && tail.ptr == Last(s) && s.tail == tail)
         && (s.tail == tail ==> s.next[tail.ptr] == next || s.next[tail.ptr].ptr != 0)
       case EHelpLoad(v, n, tail) =>
         Ready(s, t, v, n) && TailSeen(s, tail) && (s.tail == tail ==> s.next[tail.ptr].ptr != 0)
       case EHelpCas(v, n, tail, p) =>
         Ready(s, t, v, n) && TailSeen(s, tail) && (s.tail == tail ==> s.next[tail.ptr].ptr == p != 0)
       case ESwing(v, n, tail) =>
         Marked(s, t, Enq(t, v)) && TailSeen(s, tail) && (s.tail == tail ==> s.next[tail.ptr].ptr == n != 0)
       case EDone(v) =>
         Marked(s, t, Enq(t, v))
       case DLoadHead => true
       case DLoadTail(head) =>
         HeadSeen(s, head)
       case DLoadNext(head, tail) =>
         HeadSeen(s, head) && TailSeen(s, tail)
         && (s.head == head && head.ptr != tail.ptr ==> s.tail.ptr != head.ptr)
       case DCheckHead(head, tail, next) =>
         HeadSeen(s, head) && TailSeen(s, tail)
         && (s.head == head && head.ptr != tail.ptr ==> s.tail.ptr != head.ptr && next.ptr != 0)
         && (s.head == head && next.ptr != 0 ==> s.next[head.ptr] == next)
         && (s.head == head && next.ptr == 0 ==> EmptyMarked(s, t))
       case DHelp(tail, next) =>
         TailSeen(s, tail) && (s.tail == tail ==> s.next[tail.ptr].ptr == next.ptr != 0)
       case DReadValue(head, next) =>
         HeadSeen(s, head) && next.ptr < |s.next|
         && (s.head == head ==> s.next[head.ptr] == next && next.ptr != 0 && s.tail.ptr != head.ptr)
       case DCasHead(head, next, ret) =>
         HeadSeen(s, head) && next.ptr < |s.next|
         && (s.head == head ==> s.next[head.ptr] == next && next.ptr != 0 && s.tail.ptr != head.ptr
                                && s.value[next.ptr] == ret)
       case DReclaim(head, ret) =>
         head.ptr < |s.place| && s.place[head.ptr] == Held(t) && s.next[head.ptr].ptr != 0
         && Marked(s, t, Deq(t, ret))
       case DTrue(ret) =>
         Marked(s, t, Deq(t, ret))
       case DFalse =>
         EmptyMarked(s, t)
  }

  ghost predicate Inv(s: State) {
    && Arena(s)
    && Shape(s)
    && Places(s)
    && (forall t :: 0 <= t < |s.th| ==> ThreadInv(s, t))
    && Replay(s.hist) == Some(Contents(s))
  }

  // ---------- The steps ----------

  /** Every index thread t's next step uses is in bounds. */
  predicate Safe(s: State, t: nat) {
    && |s.value| == |s.next| == |s.place|
    && |s.free| == |s.mark| == |s.th| && t < |s.th| && |s.list| > 0
    && (forall i :: 0 <= i < |s.free[t]| ==> s.free[t][i] < |s.place|)
    && match s.th[t]
       case EValue(_, n) => n < |s.next|
       case EInitLoad(_, n) => n < |s.next|
       case EInitStore(_, n, _) => n < |s.next|
       case ELoadNext(_, _, tail) => tail.ptr < |s.next|
       case ECasNext(_, n, tail, _) => n < |s.next| && tail.ptr < |s.next|
       case EHelpLoad(_, _, tail) => tail.ptr < |s.next|
       case DLoadNext(head, _) => head.ptr < |s.next|
       case DReadValue(_, next) => next.ptr < |s.next|
       case DCasHead(head, _, _) => head.ptr < |s.next|
       case DReclaim(head, _) => head.ptr < |s.next|
       case _ => true
  }

  /** The invariant, at a thread of the system. */
  ghost predicate At(s: State, t: nat) {
    Inv(s) && t < |s.th| && ThreadInv(s, t) && FreeListOk(s.free[t], |s.place|)
  }

  predicate CanStart(th: Thread) {
    th.Idle? || th.EDone? || th.DTrue? || th.DFalse?
  }

  function SetTh(s: State, t: nat, th: Thread): State
    requires t < |s.th|
  {
    s.(th := s.th[t := th])
  }

  function BeginEnq(s: State, t: nat, val: int): State
    requires Safe(s, t) && CanStart(s.th[t])
  {
    SetTh(s, t, ENew(val)).(mark := s.mark[t := Mark(|s.hist|, |s.hist|)])
  }

  function BeginDeq(s: State, t: nat): State
    requires Safe(s, t) && CanStart(s.th[t])
  {
    SetTh(s, t, DLoadHead).(mark := s.mark[t := Mark(|s.hist|, |s.hist|)])
  }

  /** The first slot at or after `i` holding a node (`full`) or free for one; the length if none. */
  function FirstSlot(slots: seq<nat>, full: bool, i: nat): (k: nat)
    requires i <= |slots|
    ensures i <= k <= |slots|
    ensures forall j :: i <= j < k ==> (slots[j] != 0) != full
    ensures k < |slots| ==> (slots[k] != 0) == full
    decreases |slots| - i
  {
    if i == |slots| || (slots[i] != 0) == full then i else FirstSlot(slots, full, i + 1)
  }

  /** Line 107: new_node scans this thread's free list; an empty one blocks the enqueuer. */
  function NewNode(s: State, t: nat): State
    requires Safe(s, t) && s.th[t].ENew?
  {
    var k := FirstSlot(s.free[t], true, 0);
    if k == |s.free[t]| then s else
    var n := s.free[t][k];
    SetTh(s, t, EValue(s.th[t].val, n)).(free := s.free[t := s.free[t][k := 0]], place := s.place[n := Held(t)])
  }

  /** Line 109. */
  function StoreValue(s: State, t: nat): State
    requires Safe(s, t) && s.th[t].EValue?
  {
    var EValue(v, n) := s.th[t];
    SetTh(s, t, EInitLoad(v, n)).(value := s.value[n := v])
  }

  /** Lines 110-111: the count survives, the pointer part is cleared. */
  function InitLoad(s: State, t: nat): State
    requires Safe(s, t) && s.th[t].EInitLoad?
  {
    var EInitLoad(v, n) := s.th[t];
    SetTh(s, t, EInitStore(v, n, s.next[n].(ptr := 0)))
  }

  /** Line 118. */
  function InitStore(s: State, t: nat): State
    requires Safe(s, t) && s.th[t].EInitStore?
  {
    var EInitStore(v, n, tmp) := s.th[t];
    SetTh(s, t, ELoadTail(v, n)).(next := s.next[n := tmp])
  }

  /** Line 126. */
  function LoadTail(s: State, t: nat): State
    requires Safe(s, t) && s.th[t].ELoadTail?
  {
    var ELoadTail(v, n) := s.th[t];
    SetTh(s, t, ELoadNext(v, n, s.tail))
  }

  /** Line 132. */
  function LoadNext(s: State, t: nat): State
    requires Safe(s, t) && s.th[t].ELoadNext?
  {
    var ELoadNext(v, n, tail) := s.th[t];
    SetTh(s, t, ECheckTail(v, n, tail, s.next[tail.ptr]))
  }

  /** Lines 133 and 138. */
  function CheckTail(s: State, t: nat): State
    requires Safe(s, t) && s.th[t].ECheckTail?
  {
    var ECheckTail(v, n, tail, next) := s.th[t];
    SetTh(s, t, if s.tail != tail then ELoadTail(v, n)
                else if next.ptr == 0 then ECasNext(v, n, tail, next)
                else EHelpLoad(v, n, tail))
  }

  /** Lines 139-146: on success the new node is linked behind the last one. */
  function CasNext(s: State, t: nat): State
    requires Safe(s, t) && s.th[t].ECasNext?
  {
    var ECasNext(v, n, tail, next) := s.th[t];
    if s.next[tail.ptr] == next then
      SetTh(s, t, ESwing(v, n, tail)).(
        next := s.next[tail.ptr := Ptr(n, next.count + 1)],
        list := s.list + [n], place := s.place[n := Listed],
        hist := s.hist + [Enq(t, v)], mark := s.mark[t := s.mark[t].(at := |s.hist|)])
    else
      SetTh(s, t, EHelpLoad(v, n, tail))
  }

  /** Line 155. */
  function HelpLoad(s: State, t: nat): State
    requires Safe(s, t) && s.th[t].EHelpLoad?
  {
    var EHelpLoad(v, n, tail) := s.th[t];
    SetTh(s, t, EHelpCas(v, n, tail, s.next[tail.ptr].ptr))
  }

  /** A compare-and-swap of the tail word from `tail` to node `p`. */
  function SwingTail(s: State, tail: Ptr, p: nat): State {
    if s.tail == tail then s.(tail := Ptr(p, tail.count + 1)) else s
  }

  /** Lines 156-165. */
  function HelpCas(s: State, t: nat): State
    requires Safe(s, t) && s.th[t].EHelpCas?
  {
    var EHelpCas(v, n, tail, p) := s.th[t];
    SetTh(SwingTail(s, tail, p), t, ELoadTail(v, n))
  }

  /** Lines 176-179. */
  function Swing(s: State, t: nat): State
    requires Safe(s, t) && s.th[t].ESwing?
  {
    var ESwing(v, n, tail) := s.th[t];
    SetTh(SwingTail(s, tail, n), t, EDone(v))
  }

  /** Line 203. */
  function DeqLoadHead(s: State, t: nat): State
    requires Safe(s, t) && s.th[t].DLoadHead?
  {
    SetTh(s, t, DLoadTail(s.head))
  }

  /** Line 210. */
  function DeqLoadTail(s: State, t: nat): State
    requires Safe(s, t) && s.th[t].DLoadTail?
  {
    SetTh(s, t, DLoadNext(s.th[t].head, s.tail))
  }

  /** Line 217: where a failing dequeue takes effect. */
  function DeqLoadNext(s: State, t: nat): State
    requires Safe(s, t) && s.th[t].DLoadNext?
  {
    var DLoadNext(head, tail) := s.th[t];
    SetTh(s, t, DCheckHead(head, tail, s.next[head.ptr])).(mark := s.mark[t := s.mark[t].(at := |s.hist|)])
  }

  /** Lines 219-227 and the branch of line 239. */
  function CheckHead(s: State, t: nat): State
    requires Safe(s, t) && s.th[t].DCheckHead?
  {
    var DCheckHead(head, tail, next) := s.th[t];
    SetTh(s, t, if s.head != head then DLoadHead
                else if head.ptr != tail.ptr then DReadValue(head, next)
                else if next.ptr == 0 then DFalse
                else DHelp(tail, next))
  }

  /** Lines 234-237. */
  function DeqHelp(s: State, t: nat): State
    requires Safe(s, t) && s.th[t].DHelp?
  {
    var DHelp(tail, next) := s.th[t];
    SetTh(SwingTail(s, tail, next.ptr), t, DLoadHead)
  }

  /** Line 241. */
  function ReadValue(s: State, t: nat): State
    requires Safe(s, t) && s.th[t].DReadValue?
  {
    var DReadValue(head, next) := s.th[t];
    SetTh(s, t, DCasHead(head, next, s.value[next.ptr]))
  }

  /** Lines 248-251: on success the old dummy is this thread's alone. */
  function CasHead(s: State, t: nat): State
    requires Safe(s, t) && s.th[t].DCasHead?
  {
    var DCasHead(head, next, ret) := s.th[t];
    if s.head == head then
      SetTh(s, t, DReclaim(head, ret)).(
        head := Ptr(next.ptr, head.count + 1),
        list := s.list[1..], place := s.place[head.ptr := Held(t)],
        hist := s.hist + [Deq(t, ret)], mark := s.mark[t := s.mark[t].(at := |s.hist|)])
    else
      SetTh(s, t, DLoadHead)
  }

  /** Line 258: the node goes to the first empty slot, or is dropped when there is none. */
  function Reclaim(s: State, t: nat): State
    requires Safe(s, t) && s.th[t].DReclaim?
  {
    var DReclaim(head, ret) := s.th[t];
    var k := FirstSlot(s.free[t], false, 0);
    if k == |s.free[t]| then
      SetTh(s, t, DTrue(ret)).(place := s.place[head.ptr := Dropped])
    else
      var slots: seq<nat> := s.free[t][k := head.ptr];
      SetTh(s, t, DTrue(ret)).(free := s.free[t := slots], place := s.place[head.ptr := Free(t)])
  }

  function GoStep(s: State, t: nat): State
    requires Safe(s, t)
  {
    match s.th[t]
    case ENew(_) => NewNode(s, t)
    case EValue(_, _) => StoreValue(s, t)
    case EInitLoad(_, _) => InitLoad(s, t)
    case EInitStore(_, _, _) => InitStore(s, t)
    case ELoadTail(_, _) => LoadTail(s, t)
    case ELoadNext(_, _, _) => LoadNext(s, t)
    case ECheckTail(_, _, _, _) => CheckTail(s, t)
    case ECasNext(_, _, _, _) => CasNext(s, t)
    case EHelpLoad(_, _, _) => HelpLoad(s, t)
    case EHelpCas(_, _, _, _) => HelpCas(s, t)
    case ESwing(_, _, _) => Swing(s, t)
    case DLoadHead => DeqLoadHead(s, t)
    case DLoadTail(_) => DeqLoadTail(s, t)
    case DLoadNext(_, _) => DeqLoadNext(s, t)
    case DCheckHead(_, _, _) => CheckHead(s, t)
    case DHelp(_, _) => DeqHelp(s, t)
    case DReadValue(_, _) => ReadValue(s, t)
    case DCasHead(_, _, _) => CasHead(s, t)
    case DReclaim(_, _) => Reclaim(s, t)
    case _ => s
  }

  /** One scheduled action; an action that is not enabled leaves the state alone. */
  ghost function Step(s: State, a: Action): State
    requires Inv(s)
  {
    if a.tid >= |s.th| then s else
    match a
    case StartEnq(t, v) => if CanStart(s.th[t]) then BeginEnq(s, t, v) else s
    case StartDeq(t) => if CanStart(s.th[t]) then BeginDeq(s, t) else s
    case Go(t) => assert At(s, t); GoStep(s, t)
  }

  // ---------- The initial state ----------

  /** The node `init_queue` puts in slot j of thread i's free list. */
  function InitialNode(i: nat, j: nat): nat {
    2 + i * MAX_FREELIST + j
  }

  function InitialFree(i: nat): (slots: seq<nat>)
    ensures |slots| == MAX_FREELIST
    ensures forall j :: 0 <= j < MAX_FREELIST ==> slots[j] == if j < INITIAL_FREE then InitialNode(i, j) else 0
  {
    seq(MAX_FREELIST, j requires 0 <= j => if j < INITIAL_FREE then InitialNode(i, j) else 0)
  }

  function InitialPlace(threads: nat, n: nat): Place {
    if n == 1 then Listed
    else if n >= 2 && (n - 2) / MAX_FREELIST < threads && (n - 2) % MAX_FREELIST < INITIAL_FREE
    then Free((n - 2) / MAX_FREELIST)
    else Unused
  }

  function InitialNext(threads: nat, n: nat): Ptr {
    if InitialPlace(threads, n).Free? then Ptr(POISON_IDX, 0) else Ptr(0, 0)
  }

  /** What `init_queue` needs of its arena of `nodes` nodes: every node it hands out exists, and
      none of them is the poison index. The source has NUM_NODES nodes, enough for four threads. */
  predicate EnoughNodes(threads: nat, nodes: nat) {
    2 <= nodes <= POISON_IDX
    && forall i, j :: 0 <= i < threads && 0 <= j < INITIAL_FREE ==> InitialNode(i, j) < nodes
  }

  function Init(threads: nat, nodes: nat): State
    requires EnoughNodes(threads, nodes)
  {
    State(Ptr(1, 0), Ptr(1, 0),
          seq(nodes, n requires 0 <= n => InitialNext(threads, n)), seq(nodes, _ => 0),
          seq(threads, i requires 0 <= i => InitialFree(i)), seq(threads, _ => Idle),
          [1], seq(nodes, n requires 0 <= n => InitialPlace(threads, n)), [], seq(threads, _ => Mark(0, 0)))
  }
}
