/** The operations of the bounded queue in the order of their successful compare-and-swap on
    `m_rdwr`, with the facts about that order everything else rests on. */
module MpmcOps {
  import opened RingIndex

  /** Waiting: ticket taken. Passed: past the wait loop, holding a bin. Stored: a writer that has
      filled its bin. Done: consumed or published. */
  datatype Phase = Waiting | Passed | Stored | Done

  datatype Op = Op(write: bool, tid: nat, phase: Phase, val: int)

  /** How many of the first k operations are of a kind: the ticket operation k takes if it is of
      that kind, and what it must wait for if it is of the other. */
  function Ticket(ops: seq<Op>, k: nat, write: bool): nat
    requires k <= |ops|
  {
    if k == 0 then 0 else Ticket(ops, k - 1, write) + if ops[k - 1].write == write then 1 else 0
  }

  /** How many of the first k operations are of a kind and done. */
  function DoneOf(ops: seq<Op>, k: nat, write: bool): nat
    requires k <= |ops|
  {
    if k == 0 then 0 else
    DoneOf(ops, k - 1, write) + if ops[k - 1].write == write && ops[k - 1].phase.Done? then 1 else 0
  }

  /** The phase exclusion: of a read and a write, the later has passed its wait only if the earlier
      is done. */
  ghost predicate Ordered(ops: seq<Op>) {
    forall i, j :: 0 <= i < j < |ops| && ops[i].write != ops[j].write && !ops[j].phase.Waiting? ==> ops[i].phase.Done?
  }

  /** At every point the started reads trail the started writes by at most the capacity. */
  ghost predicate Bounded(ops: seq<Op>, size: nat) {
    forall k :: 0 <= k <= |ops| ==> Ticket(ops, k, false) <= Ticket(ops, k, true) <= Ticket(ops, k, false) + size
  }

  // ---------- Counting ----------

  lemma {:induction false} TicketMono(ops: seq<Op>, i: nat, j: nat, write: bool)
    requires i <= j <= |ops|
    ensures Ticket(ops, i, write) <= Ticket(ops, j, write)
  {
    if i < j { TicketMono(ops, i, j - 1, write); }
  }

  /** Some operation among the first k took each ticket already given out. */
  lemma {:induction false} TicketHolder(ops: seq<Op>, k: nat, t: nat, write: bool) returns (j: nat)
    requires k <= |ops| && t < Ticket(ops, k, write)
    ensures j < k && ops[j].write == write && Ticket(ops, j, write) == t
  {
    if ops[k - 1].write == write && Ticket(ops, k - 1, write) == t {
      j := k - 1;
    } else {
      j := TicketHolder(ops, k - 1, t, write);
    }
  }

  lemma {:induction false} TicketUnique(ops: seq<Op>, i: nat, j: nat)
    requires i < |ops| && j < |ops| && ops[i].write == ops[j].write
    requires Ticket(ops, i, ops[i].write) == Ticket(ops, j, ops[i].write)
    ensures i == j
  {
    if i < j { TicketMono(ops, i + 1, j, ops[i].write); }
    if j < i { TicketMono(ops, j + 1, i, ops[i].write); }
  }

  /** Tickets depend only on the kinds. */
  lemma {:induction false} SameTickets(a: seq<Op>, b: seq<Op>, k: nat, write: bool)
    requires k <= |a| && k <= |b| && forall i :: 0 <= i < k ==> a[i].write == b[i].write
    ensures Ticket(a, k, write) == Ticket(b, k, write)
  {
    if k > 0 { SameTickets(a, b, k - 1, write); }
  }

  lemma {:induction false} SameDone(a: seq<Op>, b: seq<Op>, k: nat, write: bool)
    requires k <= |a| && k <= |b|
    requires forall i :: 0 <= i < k ==> a[i].write == b[i].write && (a[i].phase.Done? <==> b[i].phase.Done?)
    ensures DoneOf(a, k, write) == DoneOf(b, k, write)
  {
    if k > 0 { SameDone(a, b, k - 1, write); }
  }

  /** Completing operation o raises the count of its kind by one. */
  lemma {:induction false} OneMoreDone(ops: seq<Op>, o: nat, k: nat, write: bool)
    requires o < k <= |ops| && !ops[o].phase.Done?
    ensures DoneOf(ops[o := ops[o].(phase := Done)], k, write)
            == DoneOf(ops, k, write) + if ops[o].write == write then 1 else 0
  {
    var ops' := ops[o := ops[o].(phase := Done)];
    if o == k - 1 {
      SameDone(ops, ops', o, write);
    } else {
      OneMoreDone(ops, o, k - 1, write);
    }
  }

  // ---------- The wait ----------

  /** While o waits, whatever of the other kind is done came before o. */
  lemma {:induction false} DoneCameBefore(ops: seq<Op>, o: nat, k: nat)
    requires Ordered(ops) && o < |ops| && !ops[o].phase.Done? && o <= k <= |ops|
    ensures DoneOf(ops, k, !ops[o].write) == DoneOf(ops, o, !ops[o].write)
  {
    if k > o { DoneCameBefore(ops, o, k - 1); }
  }

  /** So the count it watches never exceeds its snapshot, and equals it exactly when every earlier
      operation of the other kind is done. */
  lemma {:induction false} DoneAtMost(ops: seq<Op>, k: nat, write: bool)
    requires k <= |ops|
    ensures DoneOf(ops, k, write) <= Ticket(ops, k, write)
    ensures DoneOf(ops, k, write) == Ticket(ops, k, write) <==>
            forall i :: 0 <= i < k && ops[i].write == write ==> ops[i].phase.Done?
  {
    if k > 0 { DoneAtMost(ops, k - 1, write); }
  }

  /** The thread ids of the unfinished operations of a kind among the first k. */
  function Busy(ops: seq<Op>, k: nat, write: bool): set<nat>
    requires k <= |ops|
  {
    if k == 0 then {} else
    Busy(ops, k - 1, write) + if ops[k - 1].write == write && !ops[k - 1].phase.Done? then {ops[k - 1].tid} else {}
  }

  /** Unfinished operations belong to different threads. */
  ghost predicate OneEach(ops: seq<Op>) {
    forall i, j :: 0 <= i < j < |ops| && !ops[i].phase.Done? && !ops[j].phase.Done? ==> ops[i].tid != ops[j].tid
  }

  lemma {:induction false} BusyHolder(ops: seq<Op>, k: nat, write: bool, t: nat) returns (i: nat)
    requires k <= |ops| && t in Busy(ops, k, write)
    ensures i < k && ops[i].write == write && !ops[i].phase.Done? && ops[i].tid == t
  {
    if ops[k - 1].write == write && !ops[k - 1].phase.Done? && ops[k - 1].tid == t {
      i := k - 1;
    } else {
      i := BusyHolder(ops, k - 1, write, t);
    }
  }

  lemma {:induction false} BusySize(ops: seq<Op>, k: nat, write: bool)
    requires k <= |ops| && OneEach(ops)
    ensures |Busy(ops, k, write)| == Ticket(ops, k, write) - DoneOf(ops, k, write)
  {
    if k > 0 {
      BusySize(ops, k - 1, write);
      if ops[k - 1].tid in Busy(ops, k - 1, write) {
        var i := BusyHolder(ops, k - 1, write, ops[k - 1].tid);
      }
    }
  }

  lemma {:induction false} BelowIsSmall(xs: set<nat>, n: nat)
    requires forall x :: x in xs ==> x < n
    ensures |xs| <= n
    decreases n
  {
    if n > 0 {
      BelowIsSmall(xs - {n - 1}, n - 1);
    } else {
      assert xs == {};
    }
  }

  /** How far behind its snapshot the watched count can be: fewer than there are threads. */
  lemma Behind(ops: seq<Op>, o: nat, threads: nat)
    requires OneEach(ops) && o < |ops| && !ops[o].phase.Done?
    requires forall i :: 0 <= i < |ops| ==> ops[i].tid < threads
    ensures Ticket(ops, o, !ops[o].write) - DoneOf(ops, o, !ops[o].write) < threads
  {
    var w := !ops[o].write;
    DoneAtMost(ops, o, w);
    BusySize(ops, o, w);
    if ops[o].tid in Busy(ops, o, w) {
      var i := BusyHolder(ops, o, w, ops[o].tid);
    }
    var all := Busy(ops, o, w) + {ops[o].tid};
    forall t | t in Busy(ops, o, w) ensures t < threads {
      var i := BusyHolder(ops, o, w, t);
    }
    BelowIsSmall(all, threads);
  }

  // ---------- Bins ----------

  /** A write whose element no finished read has taken. */
  ghost predicate Live(ops: seq<Op>, i: nat)
    requires i < |ops|
  {
    forall j :: 0 <= j < |ops| && !ops[j].write && Ticket(ops, j, false) == Ticket(ops, i, true) ==> !ops[j].phase.Done?
  }

  /** The read with a write's ticket started after the write. */
  lemma ReadAfterWrite(ops: seq<Op>, size: nat, r: nat, w: nat)
    requires Bounded(ops, size) && r < |ops| && w < |ops| && !ops[r].write && ops[w].write
    requires Ticket(ops, r, false) == Ticket(ops, w, true)
    ensures w < r
  {
    if r < w {
      assert Ticket(ops, r + 1, false) <= Ticket(ops, r + 1, true);
      TicketMono(ops, r + 1, w, true);
    }
  }

  /** A writer about to store into its bin does not touch the bin of any live element. */
  lemma WriterApart(ops: seq<Op>, size: nat, i: nat, o: nat)
    requires Ordered(ops) && Bounded(ops, size) && size > 0
    requires i < |ops| && o < |ops| && i != o && ops[i].write && ops[o].write
    requires !ops[i].phase.Waiting? && !ops[o].phase.Waiting? && !ops[o].phase.Done? && Live(ops, i)
    ensures Slot(Ticket(ops, i, true), size) != Slot(Ticket(ops, o, true), size)
  {
    var k, l := Ticket(ops, i, true), Ticket(ops, o, true);
    if k == l {
      TicketUnique(ops, i, o);
    } else if k < l {
      if l < k + size {
        SlotsDiffer(k, l, size);
      } else {
        // the write o found room only because the read of k had started, and passed only because it was done
        assert Ticket(ops, o + 1, true) <= Ticket(ops, o + 1, false) + size;
        var j := TicketHolder(ops, o, k, false);
      }
    } else if k < l + size {
      SlotsDiffer(l, k, size);
    } else {
      // the write i passed, so the read of l before it is done, so the write o is
      assert Ticket(ops, i + 1, true) <= Ticket(ops, i + 1, false) + size;
      var j := TicketHolder(ops, i, l, false);
      ReadAfterWrite(ops, size, j, o);
    }
  }

  /** Two reads that hold bins hold different ones. */
  lemma ReadersApart(ops: seq<Op>, size: nat, i: nat, j: nat)
    requires Ordered(ops) && Bounded(ops, size) && size > 0
    requires i < j < |ops| && !ops[i].write && !ops[j].write
    requires ops[i].phase.Passed? && ops[j].phase.Passed?
    ensures Slot(Ticket(ops, i, false), size) != Slot(Ticket(ops, j, false), size)
  {
    var k, l := Ticket(ops, i, false), Ticket(ops, j, false);
    TicketMono(ops, i + 1, j, false);
    if l < k + size {
      SlotsDiffer(k, l, size);
    } else {
      assert Ticket(ops, j + 1, false) <= Ticket(ops, j + 1, true);
      var w := TicketHolder(ops, j, l, true);
      assert Ticket(ops, w + 1, true) <= Ticket(ops, w + 1, false) + size;
      var r := TicketHolder(ops, w, k, false);
      TicketUnique(ops, r, i);
    }
  }

  /** A read that holds a bin: the write with its ticket is done, and its element is still live. */
  lemma WriterOf(ops: seq<Op>, size: nat, o: nat) returns (w: nat)
    requires Ordered(ops) && Bounded(ops, size)
    requires o < |ops| && !ops[o].write && ops[o].phase.Passed?
    ensures w < o && ops[w].write && ops[w].phase.Done?
    ensures Ticket(ops, w, true) == Ticket(ops, o, false) && Live(ops, w)
  {
    assert Ticket(ops, o + 1, false) <= Ticket(ops, o + 1, true);
    w := TicketHolder(ops, o, Ticket(ops, o, false), true);
    forall j | 0 <= j < |ops| && !ops[j].write && Ticket(ops, j, false) == Ticket(ops, w, true)
      ensures !ops[j].phase.Done?
    {
      TicketUnique(ops, j, o);
    }
  }
}
