/** What the bounded queue promises, for every schedule of its threads. */
module MpmcTheorems {
  import opened RingIndex
  import opened MpmcOps
  import opened MpmcModel
  import opened MpmcProofs

  /** A reader between read_fetch and read_consume, or a writer between write_prepare and
      write_publish: it holds a bin. */
  predicate HoldsRead(th: Thread) { th.RBin? || th.RRead? }

  predicate HoldsWrite(th: Thread) { th.WBin? || th.WStored? }

  ghost predicate Holds(s: State, t: nat) {
    Inv(s) && t < |s.th| && (HoldsRead(s.th[t]) || HoldsWrite(s.th[t])) && ThreadInv(s, t)
  }

  /** The bin a thread holds: that of its ticket. */
  ghost function BinOf(s: State, t: nat): (bin: nat)
    requires Holds(s, t)
    ensures bin < |s.cells|
    ensures s.th[t].RBin? || s.th[t].WBin? ==> bin == s.th[t].bin
  {
    Slot(Ticket(s.ops, s.opOf[t], HoldsWrite(s.th[t])), |s.cells|)
  }

  // ---------- Phases and bins ----------

  /** Fetched bins and prepared bins are never outstanding together. */
  lemma PhasesExclude(s: State, t: nat, u: nat)
    requires Inv(s) && t < |s.th| && u < |s.th| && HoldsRead(s.th[t])
    ensures !HoldsWrite(s.th[u])
  {
    assert ThreadInv(s, t) && ThreadInv(s, u);
  }

  /** All outstanding bins are different slots. */
  lemma {:induction false} BinsDistinct(s: State, t: nat, u: nat)
    requires Holds(s, t) && Holds(s, u) && t != u
    ensures BinOf(s, t) != BinOf(s, u)
  {
    hide CellsOk, Masked, ReadsTicket;
    var i, j := s.opOf[t], s.opOf[u];
    assert i != j;
    if HoldsRead(s.th[t]) {
      PhasesExclude(s, t, u);
      if i < j { ReadersApart(s.ops, |s.cells|, i, j); } else { ReadersApart(s.ops, |s.cells|, j, i); }
    } else {
      if HoldsRead(s.th[u]) { PhasesExclude(s, u, t); }
      WritersLive(s, u);
      WriterApart(s.ops, |s.cells|, j, i);
    }
  }

  /** No read can have finished with the ticket of a write still outstanding. */
  lemma WritersLive(s: State, t: nat)
    requires Holds(s, t) && HoldsWrite(s.th[t])
    ensures Live(s.ops, s.opOf[t])
  {
    var o := s.opOf[t];
    forall j | 0 <= j < |s.ops| && !s.ops[j].write && Ticket(s.ops, j, false) == Ticket(s.ops, o, true)
      ensures !s.ops[j].phase.Done?
    {
      ReadAfterWrite(s.ops, |s.cells|, j, o);
    }
  }

  /** The reader with ticket k finds in its bin the k-th value written, which is published. */
  lemma ReaderSees(s: State, t: nat)
    requires Holds(s, t) && s.th[t].RBin?
    ensures
      var k := Ticket(s.ops, s.opOf[t], false);
      && k < |Written(s.ops, |s.ops|)| && s.cells[s.th[t].bin] == Written(s.ops, |s.ops|)[k]
      && exists w :: 0 <= w < s.opOf[t] && s.ops[w].write && s.ops[w].phase.Done? && Ticket(s.ops, w, true) == k
                     && s.ops[w].val == s.cells[s.th[t].bin]
  {
    var w := WriterOf(s.ops, |s.cells|, s.opOf[t]);
    WrittenAt(s.ops, w);
  }

  /** So a read that has returned delivered the value of its own ticket, and no two reads deliver
      the same write. */
  lemma {:induction false} DeliveredInOrder(s: State, i: nat, j: nat)
    requires Inv(s) && i < j < |s.ops| && !s.ops[i].write && !s.ops[j].write
    ensures Ticket(s.ops, i, false) < Ticket(s.ops, j, false) < Started(s, true)
  {
    TicketMono(s.ops, i + 1, j, false);
    TicketMono(s.ops, j + 1, |s.ops|, true);
    assert Ticket(s.ops, j + 1, false) <= Ticket(s.ops, j + 1, true);
  }

  lemma ReadReturns(s: State, t: nat)
    requires Inv(s) && t < |s.th| && s.th[t].RDone?
    ensures
      var o := s.opOf[t];
      o < |s.ops| && !s.ops[o].write && s.ops[o].tid == t
      && Ticket(s.ops, o, false) < |Written(s.ops, |s.ops|)|
      && s.th[t].val == Written(s.ops, |s.ops|)[Ticket(s.ops, o, false)]
  {
    assert ThreadInv(s, t);
  }

  // ---------- Waits ----------

  /** While an operation waits for exact equality, its counter has not passed its snapshot, and the
      masked comparison it makes is the unmasked one. */
  lemma WaitsNeverMiss(s: State, t: nat)
    requires Inv(s) && t < |s.th|
    ensures s.th[t].RWait? ==>
      s.opOf[t] < |s.ops| && Finished(s, true) <= Ticket(s.ops, s.opOf[t], true)
      && (s.written % HALF == s.th[t].wr <==> Finished(s, true) == Ticket(s.ops, s.opOf[t], true))
    ensures s.th[t].WWait? ==>
      s.opOf[t] < |s.ops| && Finished(s, false) <= Ticket(s.ops, s.opOf[t], false)
      && (s.read % HALF == s.th[t].rd <==> Finished(s, false) == Ticket(s.ops, s.opOf[t], false))
  {
    assert ThreadInv(s, t);
    if s.th[t].RWait? || s.th[t].WWait? { WaitExact(s, s.opOf[t]); }
  }

  /** The oldest unfinished operation is never blocked: if it waits, its next step passes. */
  lemma OldestPasses(s: State, o: nat, spurious: bool)
    requires Inv(s) && o < |s.ops| && !s.ops[o].phase.Done?
    requires forall i :: 0 <= i < o ==> s.ops[i].phase.Done?
    ensures
      var t := s.ops[o].tid;
      Safe(s, t) && InFlight(s.th[t]) && GoStep(s, t, spurious).th[t] != s.th[t]
      && (s.ops[o].phase.Waiting? ==> GoStep(s, t, spurious).ops[o].phase.Passed?)
  {
    var t := s.ops[o].tid;
    assert ThreadInv(s, t);
    WaitExact(s, o);
  }

  /** So whenever some operation is unfinished, some thread holding or awaiting a bin can move. */
  lemma NeverAllBlocked(s: State, o: nat)
    requires Inv(s) && o < |s.ops| && !s.ops[o].phase.Done?
    ensures exists t :: 0 <= t < |s.th| && Safe(s, t) && InFlight(s.th[t]) && GoStep(s, t, false).th[t] != s.th[t]
    decreases o
  {
    if i :| 0 <= i < o && !s.ops[i].phase.Done? {
      NeverAllBlocked(s, i);
    } else {
      OldestPasses(s, o, false);
    }
  }

  // ---------- 16 bits ----------

  /** The packed word, its empty and full tests and its bins agree with unbounded counters in every
      state of every run, across any number of wraps. */
  lemma MaskedIsExact(cells: seq<int>, threads: nat, sched: seq<Action>)
    requires 0 < |cells| < HALF && HALF % |cells| == 0 && threads <= HALF
    ensures Inv(Init(cells, threads))
    ensures
      var s := Run(Init(cells, threads), sched);
      var (r, k) := (Started(s, false), Started(s, true));
      && Rd(s.rdwr) == r % HALF && Wr(s.rdwr) == k % HALF && r <= k <= r + |s.cells|
      && (Empty(s.rdwr) <==> k == r) && (Full(s.rdwr, |s.cells|) <==> k == r + |s.cells|)
      && Slot(Rd(s.rdwr), |s.cells|) == Slot(r, |s.cells|) && Slot(Wr(s.rdwr), |s.cells|) == Slot(k, |s.cells|)
  {
    InitInv(cells, threads);
    var s := Run(Init(cells, threads), sched);
    WordTests(s);
    MaskedSlot(Started(s, false), |s.cells|);
    MaskedSlot(Started(s, true), |s.cells|);
  }

  /** The bin of a ticket as the source computes it, from the masked ticket. */
  function MaskedBin(ticket: nat, size: nat): nat
    requires size > 0
  {
    Slot(ticket % HALF, size)
  }

  ghost predicate BinsApart(size: nat)
    requires size > 0
  {
    forall x: nat, y: nat :: x < y < x + size ==> MaskedBin(x, size) != MaskedBin(y, size)
  }

  /** Tickets that fit in the queue together always have different bins if and only if the capacity
      divides 2^16; with any other capacity some two collide where the ticket wraps. */
  lemma CapacityMustDivide(size: nat)
    requires 0 < size < HALF
    ensures BinsApart(size) <==> HALF % size == 0
  {
    if HALF % size == 0 {
      forall x: nat, y: nat | x < y < x + size ensures MaskedBin(x, size) != MaskedBin(y, size) {
        MaskedSlot(x, size);
        MaskedSlot(y, size);
        SlotsDiffer(x, y, size);
      }
    } else {
      var r := HALF % size;
      var x, y := HALF - 1, HALF + (r - 1);
      assert Slot(HALF - 1, size) == r - 1 by { LastSlot(size); }
      assert MaskedBin(x, size) == MaskedBin(y, size);
    }
  }

  lemma LastSlot(size: nat)
    requires 0 < size < HALF && HALF % size != 0
    ensures Slot(HALF - 1, size) == HALF % size - 1
  {
    RemainderIsSlot(HALF - 1, size);
    RemainderUnique(HALF - 1, size, HALF / size, HALF % size - 1);
  }

  // ---------- What a NULL result means ----------

  lemma {:induction false} RunLast(s: State, sched: seq<Action>)
    requires Inv(s) && sched != []
    ensures Run(s, sched) == Step(Run(s, sched[..|sched| - 1]), sched[|sched| - 1])
    decreases |sched|
  {
    hide Inv, Step;
    StepInv(s, sched[0]);
    if |sched| > 1 {
      assert sched[1..][..|sched| - 2] == sched[..|sched| - 1][1..];
      RunLast(Step(s, sched[0]), sched[1..]);
    }
  }

  lemma {:induction false} RunSizes(s: State, sched: seq<Action>)
    requires Inv(s)
    ensures |Run(s, sched).th| == |s.th| && |Run(s, sched).cells| == |s.cells|
    decreases |sched|
  {
    if sched != [] {
      var a := sched[0];
      if a.tid < |s.th| { assert ThreadInv(s, a.tid); }
      StepInv(s, a);
      RunSizes(Step(s, a), sched[1..]);
    }
  }

  /** The state after the first k actions. */
  ghost function After(s: State, sched: seq<Action>, k: nat): (m: State)
    requires Inv(s) && k <= |sched|
    ensures Inv(m) && |m.th| == |s.th| && |m.cells| == |s.cells|
  {
    RunSizes(s, sched[..k]);
    Run(s, sched[..k])
  }

  lemma AfterNone(s: State, sched: seq<Action>)
    requires Inv(s)
    ensures After(s, sched, 0) == s
  {
  }

  lemma AfterNext(s: State, sched: seq<Action>, k: nat)
    requires Inv(s) && k < |sched|
    ensures After(s, sched, k + 1) == Step(After(s, sched, k), sched[k])
  {
    RunLast(s, sched[..k + 1]);
    assert sched[..k + 1][..k] == sched[..k];
  }

  predicate Testing(th: Thread) { th.RTry? || th.WTry? }

  predicate Reading(th: Thread) { th.RLoad? || th.RTry? }

  predicate Writing(th: Thread) { th.WLoad? || th.WTry? }

  /** A thread comes to test a word only by a load, or a failed compare-and-swap, that reads it. */
  lemma WordLoaded(s: State, a: Action, t: nat)
    requires Inv(s) && t < |s.th| && Step(s, a).th[t] != s.th[t] && Testing(Step(s, a).th[t])
    ensures s.rdwr == Step(s, a).th[t].word
    ensures if Step(s, a).th[t].RTry? then Reading(s.th[t]) else Writing(s.th[t])
  {
    assert a.tid < |s.th| ==> ThreadInv(s, a.tid);
  }

  /** From the k-th action on, up to the n-th, thread t only tests this word. */
  ghost predicate TestsSince(s: State, sched: seq<Action>, t: nat, k: nat, n: nat, th: Thread)
    requires Inv(s) && t < |s.th| && n <= |sched|
  {
    forall j :: k < j <= n ==> After(s, sched, j).th[t] == th
  }

  /** When the word a thread is testing was in `m_rdwr`: after the first k actions, inside the same
      call, and the thread has done nothing but test it since. */
  lemma {:induction false} WhenLoaded(s: State, sched: seq<Action>, t: nat, n: nat) returns (k: nat)
    requires Inv(s) && n <= |sched| && t < |s.th| && !Testing(s.th[t]) && Testing(After(s, sched, n).th[t])
    ensures k < n && TestsSince(s, sched, t, k, n, After(s, sched, n).th[t])
    ensures After(s, sched, k).rdwr == After(s, sched, n).th[t].word
    ensures if After(s, sched, n).th[t].RTry? then Reading(After(s, sched, k).th[t])
            else Writing(After(s, sched, k).th[t])
  {
    hide Inv, Step, After;
    AfterNone(s, sched);
    if n > 0 {
      AfterNext(s, sched, n - 1);
      var p, th := After(s, sched, n - 1), After(s, sched, n).th[t];
      if p.th[t] == th {
        k := WhenLoaded(s, sched, t, n - 1);
      } else {
        k := n - 1;
        WordLoaded(p, sched[n - 1], t);
      }
    }
  }

  /** A thread gives up only on the word it is testing. */
  lemma GivesUp(s: State, a: Action, t: nat)
    requires Inv(s) && t < |s.th| && Step(s, a).th[t] != s.th[t]
    ensures Step(s, a).th[t].RNull? ==> s.th[t].RTry? && Empty(s.th[t].word)
    ensures Step(s, a).th[t].WNull? ==> s.th[t].WTry? && Full(s.th[t].word, |s.cells|)
  {
    assert a.tid < |s.th| ==> ThreadInv(s, a.tid);
  }

  /** After n actions the last of which took thread t out of its test, or later: the moment k of the
      load, and all that t did since was test and give up. */
  ghost predicate GaveUp(s: State, sched: seq<Action>, t: nat, k: nat, n: nat)
    requires Inv(s) && t < |s.th| && k < n <= |sched|
  {
    var (m, end) := (After(s, sched, k), After(s, sched, n).th[t]);
    && (end.RNull? ==> Empty(m.rdwr) && Reading(m.th[t]))
    && (end.WNull? ==> Full(m.rdwr, |m.cells|) && Writing(m.th[t]))
    && forall j :: k < j <= n ==> Testing(After(s, sched, j).th[t]) || After(s, sched, j).th[t] == end
  }

  lemma {:induction false} WhenGaveUp(s: State, sched: seq<Action>, t: nat, n: nat) returns (k: nat)
    requires Inv(s) && n <= |sched| && t < |s.th| && s.th[t].Idle?
    requires After(s, sched, n).th[t].RNull? || After(s, sched, n).th[t].WNull?
    ensures k < n && GaveUp(s, sched, t, k, n)
  {
    hide Inv, Step, After;
    AfterNone(s, sched);
    if n > 0 {
      AfterNext(s, sched, n - 1);
      var p, end := After(s, sched, n - 1), After(s, sched, n).th[t];
      if p.th[t] == end {
        k := WhenGaveUp(s, sched, t, n - 1);
      } else {
        GivesUp(p, sched[n - 1], t);
        k := WhenLoaded(s, sched, t, n - 1);
      }
    }
  }

  ghost function NewQueue(cells: seq<int>, threads: nat): (s: State)
    requires 0 < |cells| < HALF && HALF % |cells| == 0 && threads <= HALF
    ensures Inv(s) && s == Init(cells, threads)
  {
    InitInv(cells, threads);
    Init(cells, threads)
  }

  /** In every run, wraps included: a call that has returned NULL loaded the word it gave up on when,
      in unbounded counts, as many reads as writes had started (read_fetch), or as many writes more
      than reads as there are bins (write_prepare); and it has only tested that word since. */
  lemma NullIsRight(cells: seq<int>, threads: nat, sched: seq<Action>, t: nat) returns (k: nat)
    requires 0 < |cells| < HALF && HALF % |cells| == 0 && t < threads <= HALF
    requires
      var end := After(NewQueue(cells, threads), sched, |sched|).th[t];
      end.RNull? || end.WNull?
    ensures k < |sched| && GaveUp(NewQueue(cells, threads), sched, t, k, |sched|)
    ensures
      var m := After(NewQueue(cells, threads), sched, k);
      if After(NewQueue(cells, threads), sched, |sched|).th[t].RNull? then Started(m, true) == Started(m, false)
      else Started(m, true) == Started(m, false) + |cells|
  {
    var s := NewQueue(cells, threads);
    k := WhenGaveUp(s, sched, t, |sched|);
    WordTests(After(s, sched, k));
  }
}
