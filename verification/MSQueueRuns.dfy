/** What the queue promises of a run as a whole: where in it things happened, and how often. */
module MSQueueRuns {
  import opened MSQueueModel
  import opened MSQueueProofs
  import opened MSQueueTheorems
  import opened PackedPointer

  // ---------- The states of a run ----------

  lemma {:induction false} RunSizes(s: State, sched: seq<Action>)
    requires Inv(s)
    ensures |Run(s, sched).th| == |s.th|
    decreases |sched|
  {
    if sched != [] {
      var a := sched[0];
      StepSizes(s, a);
      StepInv(s, a);
      RunSizes(Step(s, a), sched[1..]);
    }
  }

  lemma StepSizes(s: State, a: Action)
    requires Inv(s)
    ensures |Step(s, a).th| == |s.th|
  {
    if a.tid < |s.th| {
      assert At(s, a.tid);
      GoLocal(s, a.tid);
    }
  }

  /** The state after the first k actions. */
  ghost function After(s: State, sched: seq<Action>, k: nat): (m: State)
    requires Inv(s) && k <= |sched|
    ensures Inv(m) && |m.th| == |s.th| == |m.mark|
  {
    RunSizes(s, sched[..k]);
    Run(s, sched[..k])
  }

  lemma AfterNone(s: State, sched: seq<Action>)
    requires Inv(s)
    ensures After(s, sched, 0) == s
  {
  }

  lemma AfterNext(s: State, sched: seq<Action>, k: nat)
    requires Inv(s) && k < |sched|
    ensures After(s, sched, k + 1) == Step(After(s, sched, k), sched[k])
  {
    assert sched[..k + 1] == sched[..k] + [sched[k]];
    RunSplit(s, sched[..k], [sched[k]]);
    assert Run(After(s, sched, k), [sched[k]]) == Step(After(s, sched, k), sched[k]);
  }

  // ---------- A dequeue that returns false ----------

  predicate Checking(th: Thread) { th.DCheckHead? || th.DFalse? }

  /** A thread comes to check the head only by loading the dummy's link, and from there gives up only
      by checking. */
  lemma ChecksAfterLoad(s: State, a: Action, t: nat)
    requires Inv(s) && t < |s.th| == |s.mark| && |Step(s, a).th| == |s.th| == |Step(s, a).mark|
    requires Checking(Step(s, a).th[t])
    ensures s.hist <= Step(s, a).hist
    ensures if Checking(s.th[t]) then Step(s, a).mark[t] == s.mark[t]
            else a == Go(t) && s.th[t].DLoadNext? && Step(s, a).mark[t].at == |s.hist|
  {
    StepHist(s, a);
    if a.Go? && a.tid < |s.th| {
      assert At(s, a.tid);
      GoLocal(s, a.tid);
    }
  }

  /** Thread t loads the dummy's link in the (k+1)-st action, and after n actions has done nothing but
      check what it loaded. */
  ghost predicate LoadedNextAt(s: State, sched: seq<Action>, t: nat, k: nat, n: nat)
    requires Inv(s) && t < |s.th| && k < n <= |sched|
  {
    && sched[k] == Go(t) && After(s, sched, k).th[t].DLoadNext?
    && After(s, sched, k).hist <= After(s, sched, n).hist
    && After(s, sched, n).mark[t].at == |After(s, sched, k).hist|
    && forall j :: k < j <= n ==> Checking(After(s, sched, j).th[t])
  }

  lemma {:induction false} WhenLoadedNext(s: State, sched: seq<Action>, t: nat, n: nat) returns (k: nat)
    requires Inv(s) && n <= |sched| && t < |s.th| && s.th[t].Idle? && Checking(After(s, sched, n).th[t])
    ensures k < n && LoadedNextAt(s, sched, t, k, n)
  {
    hide Inv, Step, After;
    AfterNone(s, sched);
    if n > 0 {
      AfterNext(s, sched, n - 1);
      var p := After(s, sched, n - 1);
      ChecksAfterLoad(p, sched[n - 1], t);
      if Checking(p.th[t]) {
        k := WhenLoadedNext(s, sched, t, n - 1);
      } else {
        k := n - 1;
      }
    }
  }

  ghost function NewQueue(threads: nat, nodes: nat): (s: State)
    requires EnoughNodes(threads, nodes)
    ensures Inv(s) && s == Init(threads, nodes) && |s.th| == threads
  {
    InitInv(threads, nodes);
    Init(threads, nodes)
  }

  /** In every run a dequeue that has returned false loaded the dummy's link, in its own last attempt,
      at a moment when the queue was empty; that is where its call is marked. */
  lemma FalseAtItsLoad(threads: nat, nodes: nat, sched: seq<Action>, t: nat) returns (k: nat)
    requires EnoughNodes(threads, nodes) && t < threads
    requires After(NewQueue(threads, nodes), sched, |sched|).th[t].DFalse?
    ensures k < |sched| && LoadedNextAt(NewQueue(threads, nodes), sched, t, k, |sched|)
    ensures Contents(After(NewQueue(threads, nodes), sched, k)) == []
  {
    var s := NewQueue(threads, nodes);
    k := WhenLoadedNext(s, sched, t, |sched|);
    var (m, end) := (After(s, sched, k), After(s, sched, |sched|));
    FalseMeansEmpty(end, t);
    assert end.hist[..end.mark[t].at] == m.hist;
  }

  // ---------- How often a word is updated ----------

  datatype Word = Head | Tail | Link(node: nat)

  predicate IsWord(s: State, w: Word) { w.Link? ==> w.node < |s.next| }

  function WordOf(s: State, w: Word): Ptr
    requires IsWord(s, w)
  {
    match w
    case Head => s.head
    case Tail => s.tail
    case Link(n) => s.next[n]
  }

  /** How many steps of a run change a word. */
  ghost function Updates(s: State, sched: seq<Action>, w: Word): nat
    requires Inv(s) && IsWord(s, w)
    decreases |sched|
  {
    if sched == [] then 0 else
    StepInv(s, sched[0]);
    StepAdvances(s, sched[0]);
    var s' := Step(s, sched[0]);
    Updates(s', sched[1..], w) + if WordOf(s', w) != WordOf(s, w) then 1 else 0
  }

  ghost predicate CountsUp(s: State, s': State, w: Word)
    requires IsWord(s, w)
  {
    IsWord(s', w) && WordOf(s', w).count <= WordOf(s, w).count + 1
  }

  predicate SwingStep(th: Thread) {
    th.EHelpCas? || th.ESwing? || th.DHelp? || th.DCasHead?
  }

  lemma SwingCounts(s: State, t: nat, w: Word)
    requires Safe(s, t) && IsWord(s, w) && SwingStep(s.th[t])
    ensures CountsUp(s, GoStep(s, t), w)
  {
  }

  lemma OtherCounts(s: State, t: nat, w: Word)
    requires Safe(s, t) && IsWord(s, w) && !SwingStep(s.th[t])
    requires s.th[t].EInitStore? && s.th[t].node < |s.next| ==> s.th[t].tmp.count == s.next[s.th[t].node].count
    ensures CountsUp(s, GoStep(s, t), w)
  {
  }

  lemma StepCounts(s: State, a: Action, w: Word)
    requires Inv(s) && IsWord(s, w)
    ensures IsWord(Step(s, a), w)
    ensures WordOf(s, w).count <= WordOf(Step(s, a), w).count <= WordOf(s, w).count + 1
  {
    StepAdvances(s, a);
    if a.Go? && a.tid < |s.th| {
      assert ThreadInv(s, a.tid);
      if SwingStep(s.th[a.tid]) { SwingCounts(s, a.tid, w); } else { OtherCounts(s, a.tid, w); }
      hide GoStep, Inv;
    }
  }

  /** A count rises by no more than the word is updated. */
  lemma {:induction false} CountsBounded(s: State, sched: seq<Action>, w: Word)
    requires Inv(s) && IsWord(s, w)
    ensures IsWord(Run(s, sched), w)
    ensures WordOf(s, w).count <= WordOf(Run(s, sched), w).count <= WordOf(s, w).count + Updates(s, sched, w)
    decreases |sched|
  {
    if sched != [] {
      StepInv(s, sched[0]);
      StepCounts(s, sched[0], w);
      CountsBounded(Step(s, sched[0]), sched[1..], w);
    }
  }

  /** With 32-bit counts a compare-and-swap finds a word equal to the one it read although they differ
      only if at least 2^32 updates of that word lie between; otherwise the word never changed. */
  lemma FooledOnlyAfterWrap(s: State, sched: seq<Action>, w: Word)
    requires Inv(s) && IsWord(s, w)
    ensures IsWord(Run(s, sched), w)
    ensures Stored(WordOf(s, w)) == Stored(WordOf(Run(s, sched), w)) && Updates(s, sched, w) < COUNTS ==>
      WordOf(Run(s, sched), w) == WordOf(s, w)
    ensures Stored(WordOf(s, w)) == Stored(WordOf(Run(s, sched), w)) && Updates(s, sched, w) < COUNTS ==>
      forall k :: 0 <= k <= |sched| ==> IsWord(Run(s, sched[..k]), w) && WordOf(Run(s, sched[..k]), w) == WordOf(s, w)
  {
    CountsBounded(s, sched, w);
    var (read, now) := (WordOf(s, w), WordOf(Run(s, sched), w));
    WrapIsHarmless(read, now);
    if Stored(read) == Stored(now) && Updates(s, sched, w) < COUNTS {
      forall k | 0 <= k <= |sched|
        ensures IsWord(Run(s, sched[..k]), w) && WordOf(Run(s, sched[..k]), w) == WordOf(s, w)
      {
        NoABA(s, sched, k);
      }
    }
  }
}
