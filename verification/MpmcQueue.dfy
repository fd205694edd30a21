/** The bounded queue itself: the words, the bins and the threads, updated in place one atomic action
    at a time. */
module MpmcQueue {
  import M = MpmcModel
  import opened RingIndex
  import opened MpmcOps
  import opened MpmcModel
  import opened MpmcProofs
  import opened MpmcTheorems

  class Queue {
    var rdwr: nat
    var read: nat
    var written: nat
    const cells: array<int>
    const th: array<Thread>

    ghost var ops: seq<Op>
    ghost var opOf: seq<nat>

    /** The whole state, as a value of the state machine. */
    ghost function Snap(): State
      reads this, cells, th
    {
      State(rdwr, read, written, cells[..], th[..], ops, opOf)
    }

    ghost predicate Valid()
      reads this, cells, th
    {
      Inv(Snap())
    }

    /** The bins are allocated, not initialised. */
    constructor (size: nat, threads: nat)
      requires 0 < size < HALF && HALF % size == 0 && threads <= HALF
      ensures Valid() && Snap() == Init(cells[..], threads) && cells.Length == size
      ensures fresh(cells) && fresh(th)
    {
      cells := new int[size];
      th := new Thread[threads](_ => Idle);
      rdwr, read, written := 0, 0, 0;
      ops, opOf := [], seq(threads, _ => 0);
      new;
      InitInv(cells[..], threads);
      assert Snap() == Init(cells[..], threads);
    }

    // ---------- One method per atomic action ----------

    method Begin(t: nat, start: Thread)
      requires Safe(Snap(), t) && CanStart(th[t]) && (start.RLoad? || start.WLoad?)
      modifies th
      ensures Snap() == M.Begin(old(Snap()), t, start)
    {
      th[t] := start;
    }

    method LoadWord(t: nat)
      requires Safe(Snap(), t) && (th[t].RLoad? || th[t].WLoad?)
      modifies th
      ensures Snap() == M.LoadWord(old(Snap()), t)
    {
      match th[t] {
        case RLoad => th[t] := RTry(rdwr);
        case WLoad(v) => th[t] := WTry(v, rdwr);
      }
    }

    method TryRead(t: nat, spurious: bool)
      requires Safe(Snap(), t) && th[t].RTry?
      modifies this, th
      ensures Snap() == M.TryRead(old(Snap()), t, spurious)
    {
      var word := th[t].word;
      var rd, wr := (word / HALF) % HALF, word % HALF;
      if wr == rd {
        th[t] := RNull;
      } else if rdwr == word && !spurious {
        rdwr := (word + HALF) % WORD;
        th[t] := RWait(rd, wr);
        ops, opOf := ops + [Op(false, t, Waiting, 0)], opOf[t := |ops|];
      } else {
        th[t] := RTry(rdwr);
      }
    }

    method WaitRead(t: nat)
      requires Safe(Snap(), t) && th[t].RWait?
      modifies this, th
      ensures Snap() == M.WaitRead(old(Snap()), t)
    {
      var RWait(rd, wr) := th[t];
      if written % HALF == wr {
        RemainderIsSlot(rd, cells.Length);
        th[t] := RBin(rd % cells.Length);
        ops := ops[opOf[t] := ops[opOf[t]].(phase := Passed)];
      }
    }

    method ClientRead(t: nat)
      requires Safe(Snap(), t) && th[t].RBin?
      modifies th
      ensures Snap() == M.ClientRead(old(Snap()), t)
    {
      th[t] := RRead(cells[th[t].bin]);
    }

    method Consume(t: nat)
      requires Safe(Snap(), t) && th[t].RRead?
      modifies this, th
      ensures Snap() == M.Consume(old(Snap()), t)
    {
      read := (read + 1) % WORD;
      th[t] := RDone(th[t].val);
      ops := ops[opOf[t] := ops[opOf[t]].(phase := Done)];
    }

    method TryWrite(t: nat, spurious: bool)
      requires Safe(Snap(), t) && th[t].WTry?
      modifies this, th
      ensures Snap() == M.TryWrite(old(Snap()), t, spurious)
    {
      var WTry(v, word) := th[t];
      var rd, wr := (word / HALF) % HALF, word % HALF;
      if wr == (rd + cells.Length) % HALF {
        th[t] := WNull;
      } else if rdwr == word && !spurious {
        rdwr := rd * HALF + (wr + 1) % HALF;
        th[t] := WWait(v, rd, wr);
        ops, opOf := ops + [Op(true, t, Waiting, v)], opOf[t := |ops|];
      } else {
        th[t] := WTry(v, rdwr);
      }
    }

    method WaitWrite(t: nat)
      requires Safe(Snap(), t) && th[t].WWait?
      modifies this, th
      ensures Snap() == M.WaitWrite(old(Snap()), t)
    {
      var WWait(v, rd, wr) := th[t];
      if read % HALF == rd {
        RemainderIsSlot(wr, cells.Length);
        th[t] := WBin(v, wr % cells.Length);
        ops := ops[opOf[t] := ops[opOf[t]].(phase := Passed)];
      }
    }

    method ClientWrite(t: nat)
      requires Safe(Snap(), t) && th[t].WBin?
      modifies this, cells, th
      ensures Snap() == M.ClientWrite(old(Snap()), t)
    {
      var WBin(v, bin) := th[t];
      cells[bin] := v;
      th[t] := WStored;
      ops := ops[opOf[t] := ops[opOf[t]].(phase := Stored)];
    }

    method Publish(t: nat)
      requires Safe(Snap(), t) && th[t].WStored?
      modifies this, th
      ensures Snap() == M.Publish(old(Snap()), t)
    {
      written := (written + 1) % WORD;
      th[t] := WDone;
      ops := ops[opOf[t] := ops[opOf[t]].(phase := Done)];
    }

    // ---------- Any schedule ----------

    method GoStep(t: nat, spurious: bool)
      requires Safe(Snap(), t)
      modifies this, cells, th
      ensures Snap() == M.GoStep(old(Snap()), t, spurious)
    {
      match th[t] {
        case RLoad => LoadWord(t);
        case RTry(_) => TryRead(t, spurious);
        case RWait(_, _) => WaitRead(t);
        case RBin(_) => ClientRead(t);
        case RRead(_) => Consume(t);
        case WLoad(_) => LoadWord(t);
        case WTry(_, _) => TryWrite(t, spurious);
        case WWait(_, _, _) => WaitWrite(t);
        case WBin(_, _) => ClientWrite(t);
        case WStored => Publish(t);
        case _ =>
      }
    }

    method Execute(a: Action)
      requires Valid()
      modifies this, cells, th
      ensures Valid() && Snap() == Step(old(Snap()), a)
    {
      StepInv(Snap(), a);
      if a.tid < th.Length {
        assert ThreadInv(Snap(), a.tid);
        match a {
          case StartRead(t) => if CanStart(th[t]) { Begin(t, RLoad); }
          case StartWrite(t, v) => if CanStart(th[t]) { Begin(t, WLoad(v)); }
          case Go(t, spurious) => GoStep(t, spurious);
        }
      }
    }

    /** Any schedule: the invariant holds throughout. */
    method Schedule(sched: seq<Action>)
      requires Valid()
      modifies this, cells, th
      ensures Valid() && Snap() == Run(old(Snap()), sched)
      ensures forall t, u :: 0 <= t < th.Length && 0 <= u < th.Length && HoldsRead(th[t]) ==> !HoldsWrite(th[u])
    {
      var i := 0;
      while i < |sched|
        invariant 0 <= i <= |sched| && Valid()
        invariant Run(old(Snap()), sched) == Run(Snap(), sched[i..])
      {
        Execute(sched[i]);
        i := i + 1;
      }
      forall t, u | 0 <= t < th.Length && 0 <= u < th.Length && HoldsRead(th[t]) ensures !HoldsWrite(th[u]) {
        PhasesExclude(Snap(), t, u);
      }
    }
  }
}
