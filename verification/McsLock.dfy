/** The lock itself: the tail, the nodes and the threads, updated in place one atomic action at a
    time. */
module McsLock {
  import M = McsModel
  import opened McsModel
  import opened McsProofs
  import opened McsTheorems

  class Mutex {
    var tail: Link
    const next: array<Link>
    const gate: array<int>
    const th: array<Thread>

    ghost var swaps: seq<nat>
    ghost var served: nat
    ghost var ticket: seq<nat>
    ghost var entries: seq<nat>

    ghost function Repr(): set<object> {
      {this, next, gate, th}
    }

    /** The whole state, as a value of the state machine. */
    ghost function Snap(): State
      reads Repr()
    {
      State(tail, next[..], gate[..], th[..], swaps, served, ticket, entries)
    }

    ghost predicate Valid()
      reads Repr()
    {
      Inv(Snap())
    }

    constructor (nodes: nat, threads: nat)
      ensures Valid() && Snap() == Init(nodes, threads)
      ensures fresh(Repr())
    {
      tail := Null;
      next := new Link[nodes](_ => Null);
      gate := new int[nodes](_ => 0);
      th := new Thread[threads](_ => Idle);
      swaps, served, ticket, entries := [], 0, seq(threads, _ => 0), [];
      new;
      InitInv(nodes, threads);
      assert Snap() == Init(nodes, threads);
    }

    // ---------- One method per atomic action ----------

    method BeginLock(t: nat, node: nat)
      requires t < th.Length && th[t].Idle?
      modifies th
      ensures Snap() == M.BeginLock(old(Snap()), t, node)
    {
      th[t] := LNext(node);
    }

    method BeginUnlock(t: nat)
      requires t < th.Length && th[t].Holding?
      modifies th
      ensures Snap() == M.BeginUnlock(old(Snap()), t)
    {
      th[t] := ULoad(th[t].me);
    }

    method SetUp(t: nat)
      requires Safe(Snap(), t) && (th[t].LNext? || th[t].LGate?)
      modifies next, gate, th
      ensures Snap() == M.SetUp(old(Snap()), t)
    {
      match th[t] {
        case LNext(me) =>
          next[me] := Null;
          th[t] := LGate(me);
        case LGate(me) =>
          gate[me] := 1;
          th[t] := LSwap(me);
      }
    }

    method Swap(t: nat)
      requires Safe(Snap(), t) && th[t].LSwap?
      modifies this, th
      ensures Snap() == M.Swap(old(Snap()), t)
    {
      var me := th[t].me;
      var pred := tail;
      tail := Node(me);
      swaps, ticket := swaps + [t], ticket[t := |swaps|];
      match pred {
        case Null =>
          th[t] := Holding(me);
          entries := entries + [t];
        case Node(n) =>
          th[t] := LLink(me, n);
      }
    }

    method LinkPred(t: nat)
      requires Safe(Snap(), t) && th[t].LLink?
      modifies next, th
      ensures Snap() == M.LinkPred(old(Snap()), t)
    {
      var LLink(me, pred) := th[t];
      next[pred] := Node(me);
      th[t] := LSpin(me);
    }

    method Spin(t: nat)
      requires Safe(Snap(), t) && th[t].LSpin?
      modifies this, th
      ensures Snap() == M.Spin(old(Snap()), t)
    {
      var me := th[t].me;
      if gate[me] == 0 {
        th[t] := Holding(me);
        entries := entries + [t];
      }
    }

    method LoadNext(t: nat)
      requires Safe(Snap(), t) && th[t].ULoad?
      modifies th
      ensures Snap() == M.LoadNext(old(Snap()), t)
    {
      var me := th[t].me;
      match next[me] {
        case Null => th[t] := UCas(me);
        case Node(n) => th[t] := UGate(me, n);
      }
    }

    method CasTail(t: nat)
      requires Safe(Snap(), t) && th[t].UCas?
      modifies this, th
      ensures Snap() == M.CasTail(old(Snap()), t)
    {
      var me := th[t].me;
      if tail == Node(me) {
        tail := Null;
        th[t] := Idle;
        served := served + 1;
      } else {
        th[t] := USpin(me);
      }
    }

    method SpinNext(t: nat)
      requires Safe(Snap(), t) && th[t].USpin?
      modifies th
      ensures Snap() == M.SpinNext(old(Snap()), t)
    {
      var me := th[t].me;
      if next[me].Node? {
        th[t] := UGate(me, next[me].n);
      }
    }

    method OpenGate(t: nat)
      requires Safe(Snap(), t) && th[t].UGate?
      modifies this, gate, th
      ensures Snap() == M.OpenGate(old(Snap()), t)
    {
      gate[th[t].next] := 0;
      th[t] := Idle;
      served := served + 1;
    }

    // ---------- Any schedule ----------

    method GoStep(t: nat)
      requires Safe(Snap(), t)
      modifies Repr()
      ensures Snap() == M.GoStep(old(Snap()), t)
    {
      match th[t] {
        case LNext(_) => SetUp(t);
        case LGate(_) => SetUp(t);
        case LSwap(_) => Swap(t);
        case LLink(_, _) => LinkPred(t);
        case LSpin(_) => Spin(t);
        case ULoad(_) => LoadNext(t);
        case UCas(_) => CasTail(t);
        case USpin(_) => SpinNext(t);
        case UGate(_, _) => OpenGate(t);
        case _ =>
      }
    }

    /** Whether a thread may lock with this node: every guard that uses it is gone. */
    method NodeFree(node: nat) returns (free: bool)
      requires node < next.Length
      ensures free <==> forall u :: 0 <= u < th.Length ==> !Uses(Snap(), u, node)
    {
      var u := 0;
      while u < th.Length
        invariant 0 <= u <= th.Length
        invariant forall v :: 0 <= v < u ==> !Uses(Snap(), v, node)
      {
        if !th[u].Idle? && th[u].me == node {
          assert Uses(Snap(), u, node);
          return false;
        }
        u := u + 1;
      }
      return true;
    }

    method Execute(a: Action)
      requires Valid()
      modifies Repr()
      ensures Valid() && Snap() == Step(old(Snap()), a)
    {
      StepInv(Snap(), a);
      if a.tid < th.Length {
        assert ThreadOk(Snap(), a.tid);
        match a {
          case Lock(t, n) =>
            if th[t].Idle? && n < next.Length {
              var free := NodeFree(n);
              if free { BeginLock(t, n); }
            }
          case Unlock(t) => if th[t].Holding? { BeginUnlock(t); }
          case Go(t) => GoStep(t);
        }
      }
    }

    /** Any schedule: at most one thread is ever inside, and entries follow exchanges. */
    method Schedule(sched: seq<Action>)
      requires Valid()
      modifies Repr()
      ensures Valid() && Snap() == Run(old(Snap()), sched)
      ensures forall t, u :: 0 <= t < th.Length && 0 <= u < th.Length && Inside(th[t]) && Inside(th[u]) ==> t == u
      ensures entries <= swaps
    {
      var i := 0;
      while i < |sched|
        invariant 0 <= i <= |sched| && Valid()
        invariant Run(old(Snap()), sched) == Run(Snap(), sched[i..])
      {
        Execute(sched[i]);
        i := i + 1;
      }
      forall t, u | 0 <= t < th.Length && 0 <= u < th.Length && Inside(th[t]) && Inside(th[u]) ensures t == u {
        MutualExclusion(Snap(), t, u);
      }
    }
  }
}
