/** The bounded multi-producer multi-consumer queue of mpmc-queue/mpmc-queue.cc as a state machine.

    One step is one load, fetch-and-add or compare-and-swap of a shared word, or one access of the
    client to the bin it was handed. The counters are the machine words of the source, with their
    wrap-around: two 16-bit counts packed in `rdwr`, and 32-bit completion counts. */
module MpmcModel {
  import opened RingIndex
  import opened MpmcOps

  const HALF := 0x1_0000
  const WORD := 0x1_0000_0000

  datatype Thread =
    | Idle
    | RLoad
    | RTry(word: nat)
    | RWait(rd: nat, wr: nat)
    | RBin(bin: nat)
    | RRead(val: int)
    | RDone(val: int)
    | RNull
    | WLoad(val: int)
    | WTry(val: int, word: nat)
    | WWait(val: int, rd: nat, wr: nat)
    | WBin(val: int, bin: nat)
    | WStored
    | WDone
    | WNull

  /** `ops`, the operations in ticket order, and `opOf`, each thread's latest, only observe. */
  datatype State = State(
    rdwr: nat, read: nat, written: nat, cells: seq<int>, th: seq<Thread>,
    ops: seq<Op>, opOf: seq<nat>)

  /** A weak compare-and-swap may fail spuriously. */
  datatype Action = StartRead(tid: nat) | StartWrite(tid: nat, val: int) | Go(tid: nat, spurious: bool)

  // ---------- The packed word ----------

  function Rd(word: nat): nat { (word / HALF) % HALF }

  function Wr(word: nat): nat { word % HALF }

  function Pack(rd: nat, wr: nat): nat { rd * HALF + wr }

  predicate Empty(word: nat) { Wr(word) == Rd(word) }

  predicate Full(word: nat, size: nat) { Wr(word) == (Rd(word) + size) % HALF }

  // ---------- The invariant ----------

  function Started(s: State, write: bool): nat { Ticket(s.ops, |s.ops|, write) }

  function Finished(s: State, write: bool): nat { DoneOf(s.ops, |s.ops|, write) }

  /** The values of the writes, by ticket. */
  function Written(ops: seq<Op>, k: nat): (vs: seq<int>)
    requires k <= |ops|
    ensures |vs| == Ticket(ops, k, true)
  {
    if k == 0 then [] else Written(ops, k - 1) + if ops[k - 1].write then [ops[k - 1].val] else []
  }

  /** What the queue is built with: a power of two of at most 2^15 bins, and fewer threads, each with
      at most one operation, than a 16-bit count can tell apart. */
  ghost predicate Sized(s: State) {
    && 0 < |s.cells| < HALF && HALF % |s.cells| == 0
    && |s.th| <= HALF && |s.opOf| == |s.th|
  }

  /** The machine words are the unbounded counts, masked. */
  ghost predicate Masked(s: State) {
    && s.rdwr == Pack(Started(s, false) % HALF, Started(s, true) % HALF)
    && s.read == Finished(s, false) % WORD
    && s.written == Finished(s, true) % WORD
  }

  ghost predicate Owned(s: State)
    requires Sized(s)
  {
    && (forall i :: 0 <= i < |s.ops| ==> s.ops[i].tid < |s.th|)
    && (forall i :: 0 <= i < |s.ops| && !s.ops[i].phase.Done? ==>
         s.opOf[s.ops[i].tid] == i && InFlight(s.th[s.ops[i].tid]))
  }

  /** Every live element is in its bin. */
  ghost predicate CellsOk(s: State)
    requires Sized(s)
  {
    forall i :: 0 <= i < |s.ops| && s.ops[i].write && (s.ops[i].phase.Stored? || s.ops[i].phase.Done?)
                && Live(s.ops, i) ==>
      s.cells[Slot(Ticket(s.ops, i, true), |s.cells|)] == s.ops[i].val
  }

  /** Operation o of the history is thread t's, of this kind and in this phase. */
  ghost predicate IsOp(s: State, t: nat, o: nat, write: bool, phase: Phase) {
    o < |s.ops| && s.ops[o].tid == t && s.ops[o].write == write && s.ops[o].phase == phase
  }

  ghost predicate ReadsTicket(s: State, o: nat, val: int)
    requires o < |s.ops|
  {
    var k := Ticket(s.ops, o, false);
    k < Started(s, true) && val == Written(s.ops, |s.ops|)[k]
  }

  ghost predicate ThreadInv(s: State, t: nat)
    requires Sized(s) && t < |s.th|
  {
    var o := s.opOf[t];
    match s.th[t]
    case RWait(rd, wr) =>
      IsOp(s, t, o, false, Waiting) && rd == Ticket(s.ops, o, false) % HALF && wr == Ticket(s.ops, o, true) % HALF
    case RBin(bin) =>
      IsOp(s, t, o, false, Passed) && bin == Slot(Ticket(s.ops, o, false), |s.cells|)
    case RRead(val) =>
      IsOp(s, t, o, false, Passed) && ReadsTicket(s, o, val)
    case RDone(val) =>
      IsOp(s, t, o, false, Done) && ReadsTicket(s, o, val)
    case WWait(val, rd, wr) =>
      IsOp(s, t, o, true, Waiting) && s.ops[o].val == val
      && rd == Ticket(s.ops, o, false) % HALF && wr == Ticket(s.ops, o, true) % HALF
    case WBin(val, bin) =>
      IsOp(s, t, o, true, Passed) && s.ops[o].val == val && bin == Slot(Ticket(s.ops, o, true), |s.cells|)
    case WStored => IsOp(s, t, o, true, Stored)
    case WDone => IsOp(s, t, o, true, Done)
    case _ => true
  }

  predicate InFlight(th: Thread) {
    th.RWait? || th.RBin? || th.RRead? || th.WWait? || th.WBin? || th.WStored?
  }

  ghost predicate Inv(s: State) {
    && Sized(s)
    && Masked(s)
    && Ordered(s.ops)
    && Bounded(s.ops, |s.cells|)
    && Owned(s)
    && CellsOk(s)
    && forall t :: 0 <= t < |s.th| ==> ThreadInv(s, t)
  }

  // ---------- The steps ----------

  predicate CanStart(th: Thread) {
    th.Idle? || th.RDone? || th.RNull? || th.WDone? || th.WNull?
  }

  predicate Safe(s: State, t: nat) {
    && t < |s.th| == |s.opOf| && |s.cells| > 0
    && (s.th[t].RBin? || s.th[t].WBin? ==> s.th[t].bin < |s.cells|)
    && (InFlight(s.th[t]) ==> s.opOf[t] < |s.ops|)
  }

  function SetTh(s: State, t: nat, th: Thread): State
    requires t < |s.th|
  {
    s.(th := s.th[t := th])
  }

  function Advance(s: State, t: nat, th: Thread, phase: Phase): State
    requires Safe(s, t) && s.opOf[t] < |s.ops|
  {
    SetTh(s, t, th).(ops := s.ops[s.opOf[t] := s.ops[s.opOf[t]].(phase := phase)])
  }

  function Begin(s: State, t: nat, th: Thread): State
    requires Safe(s, t) && CanStart(s.th[t]) && (th.RLoad? || th.WLoad?)
  {
    SetTh(s, t, th)
  }

  /** Lines 8 and 69. */
  function LoadWord(s: State, t: nat): State
    requires Safe(s, t) && (s.th[t].RLoad? || s.th[t].WLoad?)
  {
    SetTh(s, t, if s.th[t].RLoad? then RTry(s.rdwr) else WTry(s.th[t].val, s.rdwr))
  }

  /** Lines 11-34: give up if the word read says empty, else try to take the next read ticket. */
  function TryRead(s: State, t: nat, spurious: bool): State
    requires Safe(s, t) && s.th[t].RTry?
  {
    var w := s.th[t].word;
    if Empty(w) then SetTh(s, t, RNull)
    else if s.rdwr != w || spurious then SetTh(s, t, RTry(s.rdwr))
    else SetTh(s, t, RWait(Rd(w), Wr(w))).(
      rdwr := (w + HALF) % WORD,
      ops := s.ops + [Op(false, t, Waiting, 0)], opOf := s.opOf[t := |s.ops|])
  }

  /** Lines 43-48: loop until as many writes are done as had started; then the bin of the ticket. */
  function WaitRead(s: State, t: nat): State
    requires Safe(s, t) && s.th[t].RWait?
  {
    var RWait(rd, wr) := s.th[t];
    if s.written % HALF != wr then s else Advance(s, t, RBin(Slot(rd, |s.cells|)), Passed)
  }

  /** The client reads its bin. */
  function ClientRead(s: State, t: nat): State
    requires Safe(s, t) && s.th[t].RBin?
  {
    SetTh(s, t, RRead(s.cells[s.th[t].bin]))
  }

  /** Line 60. */
  function Consume(s: State, t: nat): State
    requires Safe(s, t) && s.th[t].RRead?
  {
    Advance(s, t, RDone(s.th[t].val), Done).(read := (s.read + 1) % WORD)
  }

  /** Lines 72-96. */
  function TryWrite(s: State, t: nat, spurious: bool): State
    requires Safe(s, t) && s.th[t].WTry?
  {
    var WTry(v, w) := s.th[t];
    if Full(w, |s.cells|) then SetTh(s, t, WNull)
    else if s.rdwr != w || spurious then SetTh(s, t, WTry(v, s.rdwr))
    else SetTh(s, t, WWait(v, Rd(w), Wr(w))).(
      rdwr := Pack(Rd(w), (Wr(w) + 1) % HALF),
      ops := s.ops + [Op(true, t, Waiting, v)], opOf := s.opOf[t := |s.ops|])
  }

  /** Lines 105-110. */
  function WaitWrite(s: State, t: nat): State
    requires Safe(s, t) && s.th[t].WWait?
  {
    var WWait(v, rd, wr) := s.th[t];
    if s.read % HALF != rd then s else Advance(s, t, WBin(v, Slot(wr, |s.cells|)), Passed)
  }

  /** The client fills its bin. */
  function ClientWrite(s: State, t: nat): State
    requires Safe(s, t) && s.th[t].WBin?
  {
    var WBin(v, bin) := s.th[t];
    Advance(s, t, WStored, Stored).(cells := s.cells[bin := v])
  }

  /** Line 122. */
  function Publish(s: State, t: nat): State
    requires Safe(s, t) && s.th[t].WStored?
  {
    Advance(s, t, WDone, Done).(written := (s.written + 1) % WORD)
  }

  function GoStep(s: State, t: nat, spurious: bool): State
    requires Safe(s, t)
  {
    match s.th[t]
    case RLoad => LoadWord(s, t)
    case RTry(_) => TryRead(s, t, spurious)
    case RWait(_, _) => WaitRead(s, t)
    case RBin(_) => ClientRead(s, t)
    case RRead(_) => Consume(s, t)
    case WLoad(_) => LoadWord(s, t)
    case WTry(_, _) => TryWrite(s, t, spurious)
    case WWait(_, _, _) => WaitWrite(s, t)
    case WBin(_, _) => ClientWrite(s, t)
    case WStored => Publish(s, t)
    case _ => s
  }

  /** One scheduled action; one that is not enabled leaves the state alone. */
  function Act(s: State, a: Action): State
    requires a.tid < |s.th| ==> Safe(s, a.tid)
  {
    if a.tid >= |s.th| then s else
    match a
    case StartRead(t) => if CanStart(s.th[t]) then Begin(s, t, RLoad) else s
    case StartWrite(t, v) => if CanStart(s.th[t]) then Begin(s, t, WLoad(v)) else s
    case Go(t, spurious) => GoStep(s, t, spurious)
  }

  ghost function Step(s: State, a: Action): State
    requires Inv(s)
  {
    if a.tid >= |s.th| then s else
    assert ThreadInv(s, a.tid);
    Act(s, a)
  }

  /** A queue of `size` bins with arbitrary contents. */
  function Init(cells: seq<int>, threads: nat): State {
    State(0, 0, 0, cells, seq(threads, _ => Idle), [], seq(threads, _ => 0))
  }
}
