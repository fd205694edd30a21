/** The bounded queue with any capacity: exactly those that divide 2^16 keep the bins of different
    threads apart. Nothing here assumes the invariant, which needs such a capacity. */
module MpmcWrap {
  import opened RingIndex
  import opened MpmcOps
  import opened MpmcModel
  import opened MpmcProofs
  import opened MpmcTheorems

  // ---------- Runs of a queue of any capacity ----------

  ghost predicate AllSafe(s: State) {
    |s.th| == |s.opOf| && |s.cells| > 0 && forall t :: 0 <= t < |s.th| ==> Safe(s, t)
  }

  lemma ActSafe(s: State, a: Action)
    requires AllSafe(s)
    ensures a.tid < |s.th| ==> Safe(s, a.tid)
    ensures AllSafe(Act(s, a)) && |Act(s, a).th| == |s.th| && |Act(s, a).cells| == |s.cells|
  {
    if a.tid < |s.th| {
      var s' := Act(s, a);
      forall u | 0 <= u < |s.th| ensures Safe(s', u) { assert Safe(s, u); }
    }
  }

  /** The state after a schedule, for a capacity of any kind. */
  function AnyRun(s: State, sched: seq<Action>): (s': State)
    requires AllSafe(s)
    ensures AllSafe(s') && |s'.th| == |s.th| && |s'.cells| == |s.cells|
    decreases |sched|
  {
    if sched == [] then s else
    ActSafe(s, sched[0]);
    AnyRun(Act(s, sched[0]), sched[1..])
  }

  /** With a capacity that keeps the invariant these are the runs of before. */
  lemma {:induction false} SameRun(s: State, sched: seq<Action>)
    requires Inv(s)
    ensures AllSafe(s) && AnyRun(s, sched) == Run(s, sched)
    decreases |sched|
  {
    forall t | 0 <= t < |s.th| ensures Safe(s, t) { assert ThreadInv(s, t); }
    if sched != [] {
      ActSafe(s, sched[0]);
      StepInv(s, sched[0]);
      SameRun(Step(s, sched[0]), sched[1..]);
    }
  }

  ghost predicate Reaches(s: State, s': State)
    requires AllSafe(s)
  {
    exists sched: seq<Action> :: AnyRun(s, sched) == s'
  }

  lemma {:induction false} RunAppend(s: State, a: seq<Action>, b: seq<Action>)
    requires AllSafe(s)
    ensures AnyRun(s, a + b) == AnyRun(AnyRun(s, a), b)
    decreases |a|
  {
    if a == [] {
      assert a + b == b;
    } else {
      assert (a + b)[1..] == a[1..] + b;
      ActSafe(s, a[0]);
      RunAppend(Act(s, a[0]), a[1..], b);
    }
  }

  lemma ReachSelf(s: State)
    requires AllSafe(s)
    ensures Reaches(s, s)
  {
    assert AnyRun(s, []) == s;
  }

  /** One more action. */
  lemma ReachAct(s: State, m: State, a: Action)
    requires AllSafe(s) && Reaches(s, m)
    ensures AllSafe(m) && (a.tid < |m.th| ==> Safe(m, a.tid)) && Reaches(s, Act(m, a)) && AllSafe(Act(m, a))
  {
    var sched :| AnyRun(s, sched) == m;
    ActSafe(m, a);
    assert AnyRun(m, [a]) == AnyRun(Act(m, a), []);
    RunAppend(s, sched, [a]);
    assert AnyRun(s, sched + [a]) == Act(m, a);
  }

  // ---------- Whole operations, run without interruption ----------

  /** The counters of a state with r reads and w writes started, and every read done. */
  ghost predicate Counts(s: State, r: nat, w: nat) {
    s.rdwr == Pack(r % HALF, w % HALF) && s.read == r % WORD
  }

  lemma ReadLow(r: nat)
    ensures r % WORD % HALF == r % HALF
  {
  }

  /** What a word says of room and of elements. */
  lemma Tests(r: nat, w: nat, size: nat)
    requires r <= w <= r + size && 0 < size < HALF
    ensures Full(Pack(r % HALF, w % HALF), size) <==> w == r + size
    ensures Empty(Pack(r % HALF, w % HALF)) <==> w == r
    ensures Rd(Pack(r % HALF, w % HALF)) == r % HALF && Wr(Pack(r % HALF, w % HALF)) == w % HALF
  {
    TestsExact(r, w, size);
    Unpack(r % HALF, w % HALF);
  }

  /** A thread that starts a write while there is room gets the bin of its masked ticket. */
  lemma PrepareWrite(s0: State, s: State, t: nat, v: int, r: nat, w: nat) returns (s': State)
    requires AllSafe(s0) && Reaches(s0, s) && AllSafe(s) && t < |s.th| && CanStart(s.th[t])
    requires Counts(s, r, w) && r <= w < r + |s.cells| && |s.cells| < HALF
    ensures Reaches(s0, s') && AllSafe(s') && Counts(s', r, w + 1)
    ensures s'.th == s.th[t := WBin(v, MaskedBin(w, |s.cells|))]
    ensures |s'.cells| == |s.cells| && s'.written == s.written
  {
    ReachAct(s0, s, StartWrite(t, v));
    var s1 := Act(s, StartWrite(t, v));
    ReachAct(s0, s1, Go(t, false));
    var s2 := Act(s1, Go(t, false));
    assert s2.th[t] == WTry(v, s.rdwr);
    Tests(r, w, |s.cells|);
    Bump(w, w);
    ReachAct(s0, s2, Go(t, false));
    var s3 := Act(s2, Go(t, false));
    assert s3.th[t] == WWait(v, r % HALF, w % HALF);
    ReadLow(r);
    ReachAct(s0, s3, Go(t, false));
    s' := Act(s3, Go(t, false));
    assert s'.th == s.th[t := WBin(v, MaskedBin(w, |s.cells|))];
  }

  /** And may then publish it. */
  lemma WholeWrite(s0: State, s: State, t: nat, v: int, r: nat, w: nat) returns (s': State)
    requires AllSafe(s0) && Reaches(s0, s) && AllSafe(s) && t < |s.th| && CanStart(s.th[t])
    requires Counts(s, r, w) && r <= w < r + |s.cells| && |s.cells| < HALF
    ensures Reaches(s0, s') && AllSafe(s') && Counts(s', r, w + 1) && s'.th == s.th[t := WDone]
    ensures |s'.cells| == |s.cells| && s'.written == (s.written + 1) % WORD
  {
    var s4 := PrepareWrite(s0, s, t, v, r, w);
    ReachAct(s0, s4, Go(t, false));
    var s5 := Act(s4, Go(t, false));
    ReachAct(s0, s5, Go(t, false));
    s' := Act(s5, Go(t, false));
    assert s'.th == s.th[t := WDone];
  }

  /** The first half of a read of a queue with an element, all writes done. */
  lemma FetchRead(s0: State, s: State, t: nat, r: nat, w: nat) returns (s': State)
    requires AllSafe(s0) && Reaches(s0, s) && AllSafe(s) && t < |s.th| && CanStart(s.th[t])
    requires Counts(s, r, w) && r < w <= r + |s.cells| && |s.cells| < HALF && s.written == w % WORD
    ensures Reaches(s0, s') && AllSafe(s') && |s'.cells| == |s.cells|
    ensures s'.rdwr == Pack((r + 1) % HALF, w % HALF) && s'.read == r % WORD && s'.written == s.written
    ensures s'.th == s.th[t := s'.th[t]] && s'.th[t].RWait? && s'.th[t].wr == s'.written % HALF
  {
    ReachAct(s0, s, StartRead(t));
    var s1 := Act(s, StartRead(t));
    ReachAct(s0, s1, Go(t, false));
    var s2 := Act(s1, Go(t, false));
    assert s2.th[t] == RTry(s.rdwr);
    Tests(r, w, |s.cells|);
    Bump(r, w);
    ReachAct(s0, s2, Go(t, false));
    s' := Act(s2, Go(t, false));
    ReadLow(w);
  }

  /** A read of a queue with an element, all writes done. */
  lemma WholeRead(s0: State, s: State, t: nat, r: nat, w: nat) returns (s': State)
    requires AllSafe(s0) && Reaches(s0, s) && AllSafe(s) && t < |s.th| && CanStart(s.th[t])
    requires Counts(s, r, w) && r < w <= r + |s.cells| && |s.cells| < HALF && s.written == w % WORD
    ensures Reaches(s0, s') && AllSafe(s') && Counts(s', r + 1, w) && |s'.cells| == |s.cells| && s'.written == s.written
    ensures |s'.th| == |s.th| && CanStart(s'.th[t]) && forall u :: 0 <= u < |s.th| && u != t ==> s'.th[u] == s.th[u]
  {
    var s3 := FetchRead(s0, s, t, r, w);
    ReachAct(s0, s3, Go(t, false));
    var s4 := Act(s3, Go(t, false));
    assert s4.th[t].RBin?;
    ReachAct(s0, s4, Go(t, false));
    var s5 := Act(s4, Go(t, false));
    ReachAct(s0, s5, Go(t, false));
    s' := Act(s5, Go(t, false));
    WordStep(r);
  }

  /** One write and one read, n times over. */
  lemma {:induction false} Pairs(cells: seq<int>, threads: nat, n: nat) returns (s: State)
    requires 0 < |cells| < HALF && threads > 0
    ensures AllSafe(Init(cells, threads)) && Reaches(Init(cells, threads), s) && AllSafe(s)
    ensures Counts(s, n, n) && s.written == n % WORD && |s.cells| == |cells| && |s.th| == threads
    ensures forall t :: 0 <= t < threads ==> CanStart(s.th[t])
    decreases n
  {
    var s0 := Init(cells, threads);
    if n == 0 {
      s := s0;
      ReachSelf(s0);
    } else {
      var m := Pairs(cells, threads, n - 1);
      var m' := WholeWrite(s0, m, 0, 0, n - 1, n - 1);
      WordStep(n - 1);
      s := WholeRead(s0, m', 0, n - 1, n);
    }
  }

  /** n writes of one thread, while there is room. */
  lemma {:induction false} Writes(s0: State, s: State, t: nat, r: nat, w: nat, n: nat) returns (s': State)
    requires AllSafe(s0) && Reaches(s0, s) && AllSafe(s) && t < |s.th| && CanStart(s.th[t])
    requires Counts(s, r, w) && r <= w && w + n <= r + |s.cells| && |s.cells| < HALF
    ensures Reaches(s0, s') && AllSafe(s') && Counts(s', r, w + n) && |s'.cells| == |s.cells|
    ensures |s'.th| == |s.th| && CanStart(s'.th[t]) && forall u :: 0 <= u < |s.th| && u != t ==> s'.th[u] == s.th[u]
    decreases n
  {
    if n == 0 {
      s' := s;
    } else {
      var m := WholeWrite(s0, s, t, 0, r, w);
      s' := Writes(s0, m, t, r, w + 1, n - 1);
    }
  }

  // ---------- Two threads with one bin ----------

  predicate HasBin(th: Thread) { th.RBin? || th.WBin? }

  /** Two threads hold the same bin at once. */
  ghost predicate Clash(s: State) {
    exists t, u :: 0 <= t < u < |s.th| && HasBin(s.th[t]) && HasBin(s.th[u]) && s.th[t].bin == s.th[u].bin
  }

  /** The failing run: after 65535 writes and reads one thread takes the last ticket before the wrap
      and keeps its bin; another takes the next tickets, writing through all but the last of them,
      and the bin of that one is the same. */
  lemma ClashAtWrap(cells: seq<int>, threads: nat) returns (s: State)
    requires 0 < |cells| < HALF && HALF % |cells| != 0 && threads >= 2
    ensures AllSafe(Init(cells, threads)) && Reaches(Init(cells, threads), s) && Clash(s)
  {
    var s0 := Init(cells, threads);
    var size, n := |cells|, HALF - 1;
    var r := HALF % size;
    var p := Pairs(cells, threads, n);
    var a := PrepareWrite(s0, p, 0, 0, n, n);
    var b := Writes(s0, a, 1, n, HALF, r - 1);
    s := PrepareWrite(s0, b, 1, 0, n, HALF + (r - 1));
    LastSlot(size);
    assert s.th[0].bin == s.th[1].bin;
  }

  /** With a capacity that divides 2^16 no run has a clash. */
  lemma NoClash(cells: seq<int>, threads: nat, sched: seq<Action>)
    requires 0 < |cells| < HALF && HALF % |cells| == 0 && threads <= HALF
    ensures AllSafe(Init(cells, threads)) && !Clash(AnyRun(Init(cells, threads), sched))
  {
    InitInv(cells, threads);
    SameRun(Init(cells, threads), sched);
    var s := Run(Init(cells, threads), sched);
    forall t, u | 0 <= t < u < |s.th| && HasBin(s.th[t]) && HasBin(s.th[u]) ensures s.th[t].bin != s.th[u].bin {
      assert ThreadInv(s, t) && ThreadInv(s, u);
      BinsDistinct(s, t, u);
    }
  }

  /** In every run of two or more threads all outstanding bins are different, if and only if the
      capacity divides 2^16. */
  lemma BinsApartIffDivides(cells: seq<int>, threads: nat)
    requires 0 < |cells| < HALF && 2 <= threads <= HALF
    ensures AllSafe(Init(cells, threads))
    ensures (forall s :: Reaches(Init(cells, threads), s) ==> !Clash(s)) <==> HALF % |cells| == 0
  {
    var s0 := Init(cells, threads);
    if HALF % |cells| == 0 {
      forall s | Reaches(s0, s) ensures !Clash(s) {
        var sched :| AnyRun(s0, sched) == s;
        NoClash(cells, threads, sched);
      }
    } else {
      var s := ClashAtWrap(cells, threads);
    }
  }
}
