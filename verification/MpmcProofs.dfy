module MpmcProofs {
  import opened RingIndex
  import opened MpmcOps
  import opened MpmcModel

  // ---------- Masks ----------

  /** Packing two 16-bit counts and reading them back. */
  lemma Unpack(rd: nat, wr: nat)
    requires rd < HALF && wr < HALF
    ensures Rd(Pack(rd, wr)) == rd && Wr(Pack(rd, wr)) == wr
  {
  }

  /** The two ways of bumping the packed word, each with its own wrap-around. */
  lemma Bump(r: nat, w: nat)
    ensures (Pack(r % HALF, w % HALF) + HALF) % WORD == Pack((r + 1) % HALF, w % HALF)
    ensures ((w % HALF) + 1) % HALF == (w + 1) % HALF
  {
    var q := r % HALF;
    assert (r + 1) % HALF == if q + 1 == HALF then 0 else q + 1;
  }

  lemma {:induction false} SlotPeriod(x: nat, m: nat, size: nat)
    requires size > 0
    ensures Slot(x + m * size, size) == Slot(x, size)
  {
    if m > 0 {
      assert x + m * size == (x + (m - 1) * size) + size;
      SlotPeriod(x, m - 1, size);
    }
  }

  lemma {:induction false} MaskedSlotOf(x: nat, size: nat, k: nat)
    requires size > 0 && HALF == k * size
    ensures Slot(x % HALF, size) == Slot(x, size)
  {
    if x >= HALF {
      MaskedSlotOf(x - HALF, size, k);
      SlotPeriod(x - HALF, k, size);
      hide Slot;
      assert x - HALF + k * size == x;
      assert (x - HALF) % HALF == x % HALF;
    }
  }

  /** The bin of a masked ticket is the bin of the ticket when the capacity divides 2^16. */
  lemma MaskedSlot(x: nat, size: nat)
    requires size > 0 && HALF % size == 0
    ensures Slot(x % HALF, size) == Slot(x, size)
  {
    var k := HALF / size;
    assert HALF == k * size;
    MaskedSlotOf(x, size, k);
  }

  // ---------- Changing the history ----------

  /** Sequences that agree on kinds and values up to k agree on tickets and values by ticket. */
  lemma {:induction false} SameKinds(a: seq<Op>, b: seq<Op>, k: nat)
    requires k <= |a| && k <= |b|
    requires forall i :: 0 <= i < k ==> a[i].write == b[i].write && a[i].val == b[i].val
    ensures Ticket(a, k, false) == Ticket(b, k, false) && Ticket(a, k, true) == Ticket(b, k, true)
    ensures Written(a, k) == Written(b, k)
  {
    if k > 0 { SameKinds(a, b, k - 1); }
  }

  lemma {:induction false} WrittenPrefix(ops: seq<Op>, i: nat, k: nat)
    requires i <= k <= |ops|
    ensures Written(ops, i) <= Written(ops, k)
  {
    if i < k { WrittenPrefix(ops, i, k - 1); }
  }

  /** The value of the write with ticket t is where its ticket says. */
  lemma WrittenAt(ops: seq<Op>, w: nat)
    requires w < |ops| && ops[w].write
    ensures Ticket(ops, w, true) < Ticket(ops, |ops|, true)
    ensures Written(ops, |ops|)[Ticket(ops, w, true)] == ops[w].val
  {
    TicketMono(ops, w + 1, |ops|, true);
    WrittenPrefix(ops, w + 1, |ops|);
  }

  /** Every count of the history with operation o in a new phase, from those of the old history. */
  lemma Rephased(ops: seq<Op>, o: nat, phase: Phase)
    requires o < |ops|
    ensures
      var ops' := ops[o := ops[o].(phase := phase)];
      (forall k, w :: 0 <= k <= |ops| ==> Ticket(ops', k, w) == Ticket(ops, k, w)) &&
      Written(ops', |ops|) == Written(ops, |ops|)
  {
    var ops' := ops[o := ops[o].(phase := phase)];
    forall k, w | 0 <= k <= |ops| ensures Ticket(ops', k, w) == Ticket(ops, k, w) {
      SameKinds(ops', ops, k);
    }
    SameKinds(ops', ops, |ops|);
  }

  lemma Appended(ops: seq<Op>, op: Op)
    ensures
      var ops' := ops + [op];
      (forall k, w :: 0 <= k <= |ops| ==> Ticket(ops', k, w) == Ticket(ops, k, w)) &&
      (forall w :: Ticket(ops', |ops| + 1, w) == Ticket(ops, |ops|, w) + if op.write == w then 1 else 0) &&
      (op.phase.Waiting? ==> forall w :: DoneOf(ops', |ops| + 1, w) == DoneOf(ops, |ops|, w)) &&
      Written(ops, |ops|) <= Written(ops', |ops| + 1)
  {
    var ops' := ops + [op];
    forall k, w | 0 <= k <= |ops| ensures Ticket(ops', k, w) == Ticket(ops, k, w) {
      SameKinds(ops', ops, k);
    }
    SameKinds(ops', ops, |ops|);
    SameDone(ops', ops, |ops|, false);
    SameDone(ops', ops, |ops|, true);
  }

  lemma OwnedOneEach(s: State)
    requires Sized(s) && Owned(s)
    ensures OneEach(s.ops)
  {
    forall i, j | 0 <= i < j < |s.ops| && !s.ops[i].phase.Done? && !s.ops[j].phase.Done?
      ensures s.ops[i].tid != s.ops[j].tid
    {
      assert s.opOf[s.ops[i].tid] == i && s.opOf[s.ops[j].tid] == j;
    }
  }

  // ---------- The waits ----------

  lemma MaskedWait(d: nat, k: nat)
    requires d <= k < d + HALF
    ensures d % WORD % HALF == k % HALF <==> d == k
  {
    assert d % WORD % HALF == d % HALF;
  }

  /** The masked wait of a thread succeeds exactly when the unmasked one would: its count is never
      above its snapshot, and less than 2^16 below it. */
  lemma WaitExact(s: State, o: nat)
    requires Inv(s) && o < |s.ops| && !s.ops[o].phase.Done?
    ensures
      var w := !s.ops[o].write;
      && Finished(s, w) <= Ticket(s.ops, o, w) < Finished(s, w) + HALF
      && ((if w then s.written else s.read) % HALF == Ticket(s.ops, o, w) % HALF <==>
          Finished(s, w) == Ticket(s.ops, o, w))
      && (Finished(s, w) == Ticket(s.ops, o, w) <==>
          forall i :: 0 <= i < o && s.ops[i].write == w ==> s.ops[i].phase.Done?)
  {
    var w := !s.ops[o].write;
    OwnedOneEach(s);
    DoneCameBefore(s.ops, o, |s.ops|);
    DoneAtMost(s.ops, o, w);
    Behind(s.ops, o, |s.th|);
    MaskedWait(Finished(s, w), Ticket(s.ops, o, w));
  }

  // ---------- Every step keeps the invariant ----------

  lemma Local(s: State, t: nat, th: Thread)
    requires Inv(s) && t < |s.th|
    requires InFlight(th) == InFlight(s.th[t]) && ThreadInv(SetTh(s, t, th), t)
    ensures Inv(SetTh(s, t, th))
  {
    var s' := SetTh(s, t, th);
    forall u | 0 <= u < |s.th| ensures ThreadInv(s', u) {
      assert ThreadInv(s, u);
    }
  }

  /** Taking a ticket: the new operation is the last in the order. */
  lemma TakeTicketInv(s: State, s': State, t: nat, op: Op)
    requires Inv(s) && t < |s.th| && !InFlight(s.th[t]) && !CanStart(s.th[t])
    requires op.tid == t && op.phase.Waiting?
    requires s' == s.(rdwr := s'.rdwr, th := s'.th, ops := s.ops + [op], opOf := s.opOf[t := |s.ops|])
    requires |s'.th| == |s.th| && s'.th == s.th[t := s'.th[t]] && InFlight(s'.th[t])
    requires if op.write then Started(s, true) < Started(s, false) + |s.cells| else Started(s, false) < Started(s, true)
    requires Masked(s') && ThreadInv(s', t)
    ensures Inv(s')
  {
    TakenTicketThreads(s, s', t, op);
    TakenTicketOrder(s, s', t, op);
  }

  lemma TakenTicketOrder(s: State, s': State, t: nat, op: Op)
    requires Inv(s) && t < |s.th| && op.tid == t && op.phase.Waiting? && !InFlight(s.th[t])
    requires s' == s.(rdwr := s'.rdwr, th := s'.th, ops := s.ops + [op], opOf := s.opOf[t := |s.ops|])
    requires |s'.th| == |s.th| && s'.th == s.th[t := s'.th[t]] && InFlight(s'.th[t])
    requires if op.write then Started(s, true) < Started(s, false) + |s.cells| else Started(s, false) < Started(s, true)
    ensures Ordered(s'.ops) && Bounded(s'.ops, |s.cells|) && Owned(s') && CellsOk(s')
  {
    Appended(s.ops, op);
    LiveBefore(s.ops, op);
    assert forall i :: 0 <= i < |s.ops| ==> s'.ops[i] == s.ops[i];
  }

  lemma LiveBefore(ops: seq<Op>, op: Op)
    ensures forall i :: 0 <= i < |ops| && Live(ops + [op], i) ==> Live(ops, i)
  {
    Appended(ops, op);
    forall i, j | 0 <= i < |ops| && Live(ops + [op], i) && 0 <= j < |ops| && !ops[j].write
                  && Ticket(ops, j, false) == Ticket(ops, i, true)
      ensures !ops[j].phase.Done?
    {
      assert (ops + [op])[j] == ops[j] && Ticket(ops + [op], j, false) == Ticket(ops + [op], i, true);
    }
  }

  lemma TakenTicketThreads(s: State, s': State, t: nat, op: Op)
    requires Inv(s) && t < |s.th|
    requires s' == s.(rdwr := s'.rdwr, th := s'.th, ops := s.ops + [op], opOf := s.opOf[t := |s.ops|])
    requires |s'.th| == |s.th| && s'.th == s.th[t := s'.th[t]]
    requires ThreadInv(s', t)
    ensures forall u :: 0 <= u < |s.th| ==> ThreadInv(s', u)
  {
    Appended(s.ops, op);
    forall u | 0 <= u < |s.th| ensures ThreadInv(s', u) {
      assert ThreadInv(s, u);
    }
  }

  /** Moving an operation on past its wait or to its end, whatever the completion counts become. */
  lemma AdvanceInv(s: State, s': State, t: nat, th: Thread, phase: Phase)
    requires Inv(s) && t < |s.th| && InFlight(s.th[t]) && Safe(s, t) && ThreadInv(s, t)
    requires s' == Advance(s, t, th, phase).(read := s'.read, written := s'.written)
    requires InFlight(th) == !phase.Done?
    requires s.ops[s.opOf[t]].phase.Waiting? ==>
      forall i :: 0 <= i < s.opOf[t] && s.ops[i].write != s.ops[s.opOf[t]].write ==> s.ops[i].phase.Done?
    requires phase.Passed? ==> s.ops[s.opOf[t]].phase.Waiting?
    requires phase.Done? ==> s.ops[s.opOf[t]].phase == if s.ops[s.opOf[t]].write then Stored else Passed
    requires phase.Passed? || phase.Done?
    requires ThreadInv(s', t)
    requires Masked(s')
    ensures Inv(s')
  {
    var o := s.opOf[t];
    Rephased(s.ops, o, phase);
    forall i | 0 <= i < |s.ops| && Live(s'.ops, i) ensures Live(s.ops, i) {
      forall j | 0 <= j < |s.ops| && !s.ops[j].write && Ticket(s.ops, j, false) == Ticket(s.ops, i, true)
        ensures !s.ops[j].phase.Done?
      {
        assert Ticket(s'.ops, j, false) == Ticket(s'.ops, i, true);
      }
    }
    forall u | 0 <= u < |s.th| ensures ThreadInv(s', u) {
      assert ThreadInv(s, u);
    }
  }

  /** Filling a bin: no live element was in it. */
  lemma ClientWriteInv(s: State, t: nat)
    requires Inv(s) && t < |s.th| && Safe(s, t) && s.th[t].WBin? && ThreadInv(s, t)
    ensures Inv(ClientWrite(s, t))
  {
    var o := s.opOf[t];
    var s' := ClientWrite(s, t);
    Rephased(s.ops, o, Stored);
    SameDone(s.ops, s'.ops, |s.ops|, false);
    SameDone(s.ops, s'.ops, |s.ops|, true);
    forall i | 0 <= i < |s.ops| && s'.ops[i].write && (s'.ops[i].phase.Stored? || s'.ops[i].phase.Done?)
               && Live(s'.ops, i)
      ensures s'.cells[Slot(Ticket(s'.ops, i, true), |s.cells|)] == s'.ops[i].val
    {
      forall j | 0 <= j < |s.ops| && !s.ops[j].write && Ticket(s.ops, j, false) == Ticket(s.ops, i, true)
        ensures !s.ops[j].phase.Done?
      {
        assert Ticket(s'.ops, j, false) == Ticket(s'.ops, i, true);
      }
      if i != o { WriterApart(s.ops, |s.cells|, i, o); }
    }
    forall u | 0 <= u < |s.th| ensures ThreadInv(s', u) {
      assert ThreadInv(s, u);
    }
  }

  /** Counts less than HALF apart are told apart by their low halves. */
  lemma SameLow(a: nat, b: nat)
    requires a <= b < a + HALF
    ensures a % HALF == b % HALF <==> a == b
  {
  }

  lemma AddLow(r: nat, size: nat)
    ensures (r % HALF + size) % HALF == (r + size) % HALF
  {
  }

  /** The empty and full tests on the packed word are exact for the unbounded counts. */
  lemma TestsExact(r: nat, k: nat, size: nat)
    requires r <= k <= r + size && 0 < size < HALF
    ensures Empty(Pack(r % HALF, k % HALF)) <==> k == r
    ensures Full(Pack(r % HALF, k % HALF), size) <==> k == r + size
  {
    Unpack(r % HALF, k % HALF);
    hide Pack, Rd, Wr;
    SameLow(r, k);
    SameLow(k, r + size);
    AddLow(r, size);
  }

  /** Bumping the packed word as the source does keeps it the masked counts. */
  lemma TicketMasked(s: State, s': State, op: Op)
    requires Masked(s) && op.phase.Waiting? && s'.ops == s.ops + [op]
    requires s'.read == s.read && s'.written == s.written
    requires s'.rdwr == if op.write then Pack(Rd(s.rdwr), (Wr(s.rdwr) + 1) % HALF) else (s.rdwr + HALF) % WORD
    ensures Masked(s')
  {
    var (r, k) := (Started(s, false), Started(s, true));
    Unpack(r % HALF, k % HALF);
    Bump(r, k);
    Bump(k, k);
    Appended(s.ops, op);
  }

  lemma WordTests(s: State)
    requires Inv(s)
    ensures Empty(s.rdwr) <==> Started(s, true) == Started(s, false)
    ensures Full(s.rdwr, |s.cells|) <==> Started(s, true) == Started(s, false) + |s.cells|
    ensures Rd(s.rdwr) == Started(s, false) % HALF && Wr(s.rdwr) == Started(s, true) % HALF
  {
    var (r, k) := (Started(s, false), Started(s, true));
    Unpack(r % HALF, k % HALF);
    TestsExact(r, k, |s.cells|);
  }

  lemma TryReadInv(s: State, t: nat, spurious: bool)
    requires Inv(s) && Safe(s, t) && s.th[t].RTry?
    ensures Inv(TryRead(s, t, spurious))
  {
    var w := s.th[t].word;
    if Empty(w) {
      Local(s, t, RNull);
    } else if s.rdwr != w || spurious {
      Local(s, t, RTry(s.rdwr));
    } else {
      var op := Op(false, t, Waiting, 0);
      WordTests(s);
      TicketMasked(s, TryRead(s, t, spurious), op);
      Appended(s.ops, op);
      TakeTicketInv(s, TryRead(s, t, spurious), t, op);
    }
  }

  lemma TryWriteInv(s: State, t: nat, spurious: bool)
    requires Inv(s) && Safe(s, t) && s.th[t].WTry?
    ensures Inv(TryWrite(s, t, spurious))
  {
    var WTry(v, w) := s.th[t];
    if Full(w, |s.cells|) {
      Local(s, t, WNull);
    } else if s.rdwr != w || spurious {
      Local(s, t, WTry(v, s.rdwr));
    } else {
      var op := Op(true, t, Waiting, v);
      WordTests(s);
      TicketMasked(s, TryWrite(s, t, spurious), op);
      Appended(s.ops, op);
      TakeTicketInv(s, TryWrite(s, t, spurious), t, op);
    }
  }

  lemma WaitReadInv(s: State, t: nat)
    requires Inv(s) && Safe(s, t) && s.th[t].RWait? && ThreadInv(s, t)
    ensures Inv(WaitRead(s, t))
  {
    var o := s.opOf[t];
    if s.written % HALF == s.th[t].wr {
      WaitExact(s, o);
      MaskedSlot(Ticket(s.ops, o, false), |s.cells|);
      Rephased(s.ops, o, Passed);
      SameDone(s.ops, WaitRead(s, t).ops, |s.ops|, false);
      SameDone(s.ops, WaitRead(s, t).ops, |s.ops|, true);
      AdvanceInv(s, WaitRead(s, t), t, WaitRead(s, t).th[t], Passed);
    }
  }

  lemma WaitWriteInv(s: State, t: nat)
    requires Inv(s) && Safe(s, t) && s.th[t].WWait? && ThreadInv(s, t)
    ensures Inv(WaitWrite(s, t))
  {
    var o := s.opOf[t];
    if s.read % HALF == s.th[t].rd {
      WaitExact(s, o);
      MaskedSlot(Ticket(s.ops, o, true), |s.cells|);
      Rephased(s.ops, o, Passed);
      SameDone(s.ops, WaitWrite(s, t).ops, |s.ops|, false);
      SameDone(s.ops, WaitWrite(s, t).ops, |s.ops|, true);
      AdvanceInv(s, WaitWrite(s, t), t, WaitWrite(s, t).th[t], Passed);
    }
  }

  /** What a reader finds in its bin is the value of the write with its ticket. */
  lemma ClientReadInv(s: State, t: nat)
    requires Inv(s) && Safe(s, t) && s.th[t].RBin? && ThreadInv(s, t)
    ensures Inv(ClientRead(s, t))
  {
    var w := WriterOf(s.ops, |s.cells|, s.opOf[t]);
    WrittenAt(s.ops, w);
    Local(s, t, ClientRead(s, t).th[t]);
  }

  lemma WordStep(d: nat)
    ensures (d % WORD + 1) % WORD == (d + 1) % WORD
  {
  }

  lemma DoneMasked(s: State, t: nat)
    requires Sized(s) && Masked(s) && Safe(s, t) && s.opOf[t] < |s.ops| && !s.ops[s.opOf[t]].phase.Done?
    ensures s.th[t].RRead? && !s.ops[s.opOf[t]].write ==> Masked(Consume(s, t))
    ensures s.th[t].WStored? && s.ops[s.opOf[t]].write ==> Masked(Publish(s, t))
  {
    var o := s.opOf[t];
    Rephased(s.ops, o, Done);
    OneMoreDone(s.ops, o, |s.ops|, false);
    OneMoreDone(s.ops, o, |s.ops|, true);
    WordStep(Finished(s, s.ops[o].write));
  }

  lemma ConsumeInv(s: State, t: nat)
    requires Inv(s) && Safe(s, t) && s.th[t].RRead? && ThreadInv(s, t)
    ensures Inv(Consume(s, t))
  {
    DoneMasked(s, t);
    Rephased(s.ops, s.opOf[t], Done);
    AdvanceInv(s, Consume(s, t), t, RDone(s.th[t].val), Done);
  }

  lemma PublishInv(s: State, t: nat)
    requires Inv(s) && Safe(s, t) && s.th[t].WStored? && ThreadInv(s, t)
    ensures Inv(Publish(s, t))
  {
    DoneMasked(s, t);
    AdvanceInv(s, Publish(s, t), t, WDone, Done);
  }

  lemma StepInv(s: State, a: Action)
    requires Inv(s)
    ensures Inv(Step(s, a))
  {
    var t := a.tid;
    if t < |s.th| {
      assert ThreadInv(s, t);
      match a {
        case StartRead(_) => if CanStart(s.th[t]) { Local(s, t, RLoad); }
        case StartWrite(_, v) => if CanStart(s.th[t]) { Local(s, t, WLoad(v)); }
        case Go(_, spurious) => GoInv(s, t, spurious);
      }
    }
  }

  lemma GoInv(s: State, t: nat, spurious: bool)
    requires Inv(s) && t < |s.th| && ThreadInv(s, t) && Safe(s, t)
    ensures Inv(GoStep(s, t, spurious))
  {
    match s.th[t] {
      case RLoad => Local(s, t, RTry(s.rdwr));
      case RTry(_) => TryReadInv(s, t, spurious);
      case RWait(_, _) => WaitReadInv(s, t);
      case RBin(_) => ClientReadInv(s, t);
      case RRead(_) => ConsumeInv(s, t);
      case WLoad(v) => Local(s, t, WTry(v, s.rdwr));
      case WTry(_, _) => TryWriteInv(s, t, spurious);
      case WWait(_, _, _) => WaitWriteInv(s, t);
      case WBin(_, _) => ClientWriteInv(s, t);
      case WStored => PublishInv(s, t);
      case _ =>
    }
  }

  /** A queue built with a capacity that divides 2^16, for at most 2^16 threads. */
  lemma InitInv(cells: seq<int>, threads: nat)
    requires 0 < |cells| < HALF && HALF % |cells| == 0 && threads <= HALF
    ensures Inv(Init(cells, threads))
  {
  }

  /** The state after a schedule: any interleaving of any operations of all threads. */
  ghost function Run(s: State, sched: seq<Action>): (s': State)
    requires Inv(s)
    ensures Inv(s')
    decreases |sched|
  {
    if sched == [] then s else
    StepInv(s, sched[0]);
    Run(Step(s, sched[0]), sched[1..])
  }
}
