module McsProofs {
  import opened McsModel

  /** A thread's own step outside the queue disturbs nobody. */
  lemma OutsideInv(s: State, s': State, t: nat, th: Thread)
    requires Inv(s) && t < |s.th| && !Queued(s.th[t]) && !Queued(th)
    requires s' == SetTh(s, t, th).(next := s'.next, gate := s'.gate) && |s'.next| == |s.next|
    requires Sized(s') && ThreadOk(s', t)
    requires forall n :: 0 <= n < |s.next| && (s.th[t].Idle? || n != s.th[t].me) ==>
               s'.next[n] == s.next[n] && s'.gate[n] == s.gate[n]
    ensures Inv(s')
  {
    forall i | s.served <= i < |s.swaps| ensures PlaceOk(s', i) { assert PlaceOk(s, i); }
    forall u | 0 <= u < |s.th| ensures ThreadOk(s', u) {
      if u != t { OthersOutside(s, s', t, th, u); }
    }
  }

  lemma OthersOutside(s: State, s': State, t: nat, th: Thread, u: nat)
    requires Inv(s) && t < |s.th| && !Queued(s.th[t]) && !Queued(th) && u < |s.th| && u != t
    requires s' == SetTh(s, t, th).(next := s'.next, gate := s'.gate) && |s'.next| == |s.next|
    requires Sized(s')
    requires forall n :: 0 <= n < |s.next| && (s.th[t].Idle? || n != s.th[t].me) ==>
               s'.next[n] == s.next[n] && s'.gate[n] == s.gate[n]
    ensures ThreadOk(s', u)
  {
    assert ThreadOk(s, u);
    assert s'.th[u] == s.th[u];
    hide TailOk, LogsOk;
    if !s.th[u].Idle? && Behind(s, u) {
      var i := s.ticket[u] - 1;
      assert PlaceOk(s, i) && s.swaps[i] != t;
      assert Behind(s', u) && PredNode(s', u) == PredNode(s, u);
    }
    if s.th[u].UGate? {
      assert PlaceOk(s, s.served + 1);
    }
  }

  lemma BeginLockInv(s: State, t: nat, n: nat)
    requires Inv(s) && MayLock(s, t, n)
    ensures Inv(BeginLock(s, t, n))
  {
    forall u | 0 <= u < |s.th| && !s.th[u].Idle? ensures s.th[u].me != n { assert !Uses(s, u, n); }
    OutsideInv(s, BeginLock(s, t, n), t, LNext(n));
  }

  lemma SetUpInv(s: State, t: nat)
    requires Inv(s) && Safe(s, t) && (s.th[t].LNext? || s.th[t].LGate?) && ThreadOk(s, t)
    ensures Inv(SetUp(s, t))
  {
    OutsideInv(s, SetUp(s, t), t, SetUp(s, t).th[t]);
  }

  /** Joining the queue behind the node in `tail`. */
  lemma SwapThreads(s: State, t: nat)
    requires Inv(s) && Safe(s, t) && s.th[t].LSwap? && ThreadOk(s, t)
    ensures Sized(Swap(s, t)) && TailOk(Swap(s, t))
    ensures forall i :: s.served <= i <= |s.swaps| ==> PlaceOk(Swap(s, t), i)
    ensures forall u :: 0 <= u < |s.th| ==> ThreadOk(Swap(s, t), u)
  {
    var s' := Swap(s, t);
    forall i | s.served <= i <= |s.swaps| ensures PlaceOk(s', i) {
      if i < |s.swaps| { assert PlaceOk(s, i); }
    }
    forall u | 0 <= u < |s.th| ensures ThreadOk(s', u) {
      assert ThreadOk(s, u);
    }
  }

  lemma SwapInv(s: State, t: nat)
    requires Inv(s) && Safe(s, t) && s.th[t].LSwap? && ThreadOk(s, t)
    ensures Inv(Swap(s, t))
  {
    var s' := Swap(s, t);
    SwapThreads(s, t);
    assert PlaceOk(s', s.served);
    if s.tail == Null {
      assert FirstInside(s') && !FirstInside(s);
      assert s'.swaps[..s.served + 1] == s.swaps[..s.served] + [t];
    } else {
      assert PlaceOk(s, s.served);
      assert FirstInside(s') <==> FirstInside(s);
      assert s'.swaps[..s.served + 1] == s.swaps[..s.served + 1];
      assert s'.swaps[..s.served] == s.swaps[..s.served];
    }
  }

  lemma LinkPredInv(s: State, t: nat)
    requires Inv(s) && Safe(s, t) && s.th[t].LLink? && ThreadOk(s, t)
    ensures Inv(LinkPred(s, t))
  {
    var s' := LinkPred(s, t);
    forall i | s.served <= i < |s.swaps| ensures PlaceOk(s', i) { assert PlaceOk(s, i); }
    forall u | 0 <= u < |s.th| ensures ThreadOk(s', u) {
      assert ThreadOk(s, u);
    }
  }

  /** Steps of the first in the queue that keep it there. */
  lemma FirstInv(s: State, t: nat, th: Thread)
    requires Inv(s) && t < |s.th| && Inside(s.th[t]) && ThreadOk(s, t)
    requires Inside(th) && th.me == s.th[t].me
    requires Sized(SetTh(s, t, th)) && ThreadOk(SetTh(s, t, th), t)
    ensures Inv(SetTh(s, t, th))
  {
    var s' := SetTh(s, t, th);
    forall i | s.served <= i < |s.swaps| ensures PlaceOk(s', i) { assert PlaceOk(s, i); }
    forall u | 0 <= u < |s.th| ensures ThreadOk(s', u) {
      assert ThreadOk(s, u);
    }
  }

  lemma SpinInv(s: State, t: nat)
    requires Inv(s) && Safe(s, t) && s.th[t].LSpin? && ThreadOk(s, t)
    ensures Inv(Spin(s, t))
  {
    var s' := Spin(s, t);
    if s' != s {
      assert PlaceOk(s, s.served);
      forall i | s.served <= i < |s.swaps| ensures PlaceOk(s', i) { assert PlaceOk(s, i); }
      forall u | 0 <= u < |s.th| ensures ThreadOk(s', u) {
        assert ThreadOk(s, u);
      }
    }
  }

  /** A link in the node of the first in the queue comes from the second, which spins. */
  lemma LinkedIsSecond(s: State, t: nat)
    requires Inv(s) && t < |s.th| && Inside(s.th[t]) && ThreadOk(s, t)
    requires s.next[s.th[t].me] != Null
    ensures PlaceOk(s, s.served + 1) && s.th[s.swaps[s.served + 1]].LSpin?
    ensures s.next[s.th[t].me] == Node(s.th[s.swaps[s.served + 1]].me)
  {
    assert PlaceOk(s, s.served);
    assert PlaceOk(s, s.served + 1);
    assert ThreadOk(s, s.swaps[s.served + 1]);
  }

  lemma LoadNextInv(s: State, t: nat)
    requires Inv(s) && Safe(s, t) && ThreadOk(s, t)
    ensures s.th[t].ULoad? ==> Inv(LoadNext(s, t))
    ensures s.th[t].USpin? ==> Inv(SpinNext(s, t))
  {
    if s.th[t].ULoad? || s.th[t].USpin? {
      if s.next[s.th[t].me] != Null { LinkedIsSecond(s, t); }
      if s.th[t].ULoad? {
        FirstInv(s, t, LoadNext(s, t).th[t]);
      } else if s.next[s.th[t].me] != Null {
        FirstInv(s, t, SpinNext(s, t).th[t]);
      }
    }
  }

  /** Releasing: the second in the queue, if any, becomes the first with its gate open. */
  lemma OpenGateInv(s: State, t: nat)
    requires Inv(s) && Safe(s, t) && s.th[t].UGate? && ThreadOk(s, t)
    ensures Inv(OpenGate(s, t))
  {
    var s' := OpenGate(s, t);
    assert PlaceOk(s, s.served);
    forall i | s'.served <= i < |s.swaps| ensures PlaceOk(s', i) { assert PlaceOk(s, i); }
    forall u | 0 <= u < |s.th| ensures ThreadOk(s', u) {
      assert ThreadOk(s, u);
    }
    assert PlaceOk(s', s'.served) && !FirstInside(s');
  }

  lemma CasTailInv(s: State, t: nat)
    requires Inv(s) && Safe(s, t) && s.th[t].UCas? && ThreadOk(s, t)
    ensures Inv(CasTail(s, t))
  {
    assert PlaceOk(s, s.served);
    if s.tail != Node(s.th[t].me) {
      FirstInv(s, t, USpin(s.th[t].me));
    } else {
      var s' := CasTail(s, t);
      assert s.served + 1 == |s.swaps|;
      forall u | 0 <= u < |s.th| ensures ThreadOk(s', u) {
        assert ThreadOk(s, u);
      }
    }
  }

  lemma InitInv(nodes: nat, threads: nat)
    ensures Inv(Init(nodes, threads))
  {
  }

  lemma StepInv(s: State, a: Action)
    requires Inv(s)
    ensures Inv(Step(s, a))
  {
    var t := a.tid;
    if t < |s.th| {
      assert ThreadOk(s, t);
      match a {
        case Lock(_, n) => if MayLock(s, t, n) { BeginLockInv(s, t, n); }
        case Unlock(_) => if s.th[t].Holding? { FirstInv(s, t, ULoad(s.th[t].me)); }
        case Go(_) =>
          match s.th[t] {
            case LNext(_) => SetUpInv(s, t);
            case LGate(_) => SetUpInv(s, t);
            case LSwap(_) => SwapInv(s, t);
            case LLink(_, _) => LinkPredInv(s, t);
            case LSpin(_) => SpinInv(s, t);
            case ULoad(_) => LoadNextInv(s, t);
            case UCas(_) => CasTailInv(s, t);
            case USpin(_) => LoadNextInv(s, t);
            case UGate(_, _) => OpenGateInv(s, t);
            case _ =>
          }
      }
    }
  }

  /** The state after a schedule: any interleaving of any number of locks and unlocks. */
  ghost function Run(s: State, sched: seq<Action>): (s': State)
    requires Inv(s)
    ensures Inv(s')
    decreases |sched|
  {
    if sched == [] then s else
    StepInv(s, sched[0]);
    Run(Step(s, sched[0]), sched[1..])
  }
}
