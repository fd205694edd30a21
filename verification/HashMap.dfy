/** The map itself: the table, the entries, the segment locks and the threads, updated in place one
    atomic action at a time. */
module HashMap {
  import M = HashMapModel
  import opened HashMapModel
  import opened HashMapProofs
  import opened HashMapTheorems

  class Map {
    const table: array<nat>
    var entries: seq<Entry>
    const locks: array<Holder>
    const th: array<Thread>

    ghost var hist: seq<Event>
    ghost var mark: seq<Mark>

    ghost function Repr(): set<object> {
      {this, table, locks, th}
    }

    /** The whole state, as a value of the state machine. */
    ghost function Snap(): State
      reads Repr()
    {
      State(table[..], entries, locks[..], th[..], hist, mark)
    }

    ghost predicate Valid()
      reads Repr()
    {
      Inv(Snap())
    }

    constructor (threads: nat)
      ensures Valid() && Snap() == Init(threads)
      ensures fresh(Repr())
    {
      table := new nat[CAPACITY](_ => 0);
      entries := [Entry(0, 0, 0, 0)];
      locks := new Holder[SEGMENTS](_ => Nobody);
      th := new Thread[threads](_ => Idle);
      hist, mark := [], seq(threads, _ => Mark(0, 0));
      new;
      InitInv(threads);
      assert Snap() == Init(threads);
    }

    // ---------- One method per atomic action ----------

    ghost method Effect(t: nat, e: Event)
      requires t < |mark|
      modifies this`hist, this`mark
      ensures hist == old(hist) + [e] && mark == old(mark)[t := old(mark)[t].(at := |old(hist)|)]
    {
      mark := mark[t := mark[t].(at := |hist|)];
      hist := hist + [e];
    }

    method Begin(t: nat, next: Thread)
      requires t < th.Length == |mark|
      modifies th, this`mark
      ensures Snap() == M.Begin(old(Snap()), t, next)
    {
      th[t] := next;
      mark := mark[t := Mark(|hist|, |hist|)];
    }

    method GetFirst(t: nat)
      requires Safe(Snap(), t) && th[t].GFirst?
      modifies th
      ensures Snap() == M.GetFirst(old(Snap()), t)
    {
      var first := table[Bin(th[t].key)];
      th[t] := GWalk(th[t].key, first, first);
    }

    method GetWalk(t: nat)
      requires Safe(Snap(), t) && th[t].GWalk?
      modifies th
      ensures Snap() == M.GetWalk(old(Snap()), t)
    {
      var GWalk(k, first, e) := th[t];
      if e == 0 {
        th[t] := GLock(k, first, e);
      } else if Matches(entries[e], k) {
        th[t] := GValue(k, first, e);
      } else {
        th[t] := GWalk(k, first, entries[e].next);
      }
    }

    method GetValue(t: nat)
      requires Safe(Snap(), t) && th[t].GValue?
      modifies th, this
      ensures Snap() == M.GetValue(old(Snap()), t)
    {
      var GValue(k, first, e) := th[t];
      var res := entries[e].value;
      if res != 0 {
        th[t] := GDone(k, res);
        Effect(t, M.Get(t, k, res));
      } else {
        th[t] := GLock(k, first, e);
      }
    }

    method Lock(t: nat)
      requires Safe(Snap(), t) && (th[t].GLock? || th[t].PLock?)
      modifies th, locks
      ensures Snap() == M.Lock(old(Snap()), t)
    {
      var k := th[t].key;
      if locks[Bin(k)] == Nobody {
        locks[Bin(k)] := By(t);
        th[t] := if th[t].GLock? then GRecheck(k, th[t].first, th[t].e) else PFirst(k, th[t].val);
      }
    }

    method GetRecheck(t: nat)
      requires Safe(Snap(), t) && th[t].GRecheck?
      modifies th, this
      ensures Snap() == M.GetRecheck(old(Snap()), t)
    {
      var GRecheck(k, first, e) := th[t];
      var newFirst := table[Bin(k)];
      if e != 0 || first != newFirst {
        th[t] := GRewalk(k, newFirst);
      } else {
        th[t] := GUnlock(k, 0);
        Effect(t, M.Get(t, k, 0));
      }
    }

    method GetRewalk(t: nat)
      requires Safe(Snap(), t) && th[t].GRewalk?
      modifies th, this
      ensures Snap() == M.GetRewalk(old(Snap()), t)
    {
      var GRewalk(k, e) := th[t];
      if e == 0 {
        th[t] := GUnlock(k, 0);
        Effect(t, M.Get(t, k, 0));
      } else if Matches(entries[e], k) {
        th[t] := GUnlock(k, entries[e].value);
        Effect(t, M.Get(t, k, entries[e].value));
      } else {
        th[t] := GRewalk(k, entries[e].next);
      }
    }

    method Unlock(t: nat)
      requires Safe(Snap(), t) && (th[t].GUnlock? || th[t].PUnlock?)
      modifies th, locks
      ensures Snap() == M.Unlock(old(Snap()), t)
    {
      locks[Bin(th[t].key)] := Nobody;
      th[t] := if th[t].GUnlock? then GDone(th[t].key, th[t].res) else PDone(th[t].key, th[t].val, th[t].res);
    }

    method PutFirst(t: nat)
      requires Safe(Snap(), t) && th[t].PFirst?
      modifies th
      ensures Snap() == M.PutFirst(old(Snap()), t)
    {
      var first := table[Bin(th[t].key)];
      th[t] := PWalk(th[t].key, th[t].val, first, first);
    }

    method PutWalk(t: nat)
      requires Safe(Snap(), t) && th[t].PWalk?
      modifies th
      ensures Snap() == M.PutWalk(old(Snap()), t)
    {
      var PWalk(k, v, first, e) := th[t];
      if e == 0 {
        th[t] := PAlloc(k, v, first);
      } else if Matches(entries[e], k) {
        th[t] := PReadOld(k, v, e);
      } else {
        th[t] := PWalk(k, v, first, entries[e].next);
      }
    }

    method PutReadOld(t: nat)
      requires Safe(Snap(), t) && th[t].PReadOld?
      modifies th
      ensures Snap() == M.PutReadOld(old(Snap()), t)
    {
      th[t] := PStore(th[t].key, th[t].val, th[t].e, entries[th[t].e].value);
    }

    method PutStore(t: nat)
      requires Safe(Snap(), t) && th[t].PStore?
      modifies th, this
      ensures Snap() == M.PutStore(old(Snap()), t)
    {
      var PStore(k, v, e, res) := th[t];
      entries := entries[e := entries[e].(value := v)];
      th[t] := PUnlock(k, v, res);
      Effect(t, M.Put(t, k, v, res));
    }

    method PutAlloc(t: nat)
      requires Safe(Snap(), t) && th[t].PAlloc?
      modifies th, this
      ensures Snap() == M.PutAlloc(old(Snap()), t)
    {
      var PAlloc(k, v, first) := th[t];
      th[t] := PPublish(k, v, |entries|);
      entries := entries + [Entry(k, v, k, first)];
    }

    method PutPublish(t: nat)
      requires Safe(Snap(), t) && th[t].PPublish?
      modifies th, table, this
      ensures Snap() == M.PutPublish(old(Snap()), t)
    {
      var PPublish(k, v, node) := th[t];
      table[Bin(k)] := node;
      th[t] := PUnlock(k, v, 0);
      Effect(t, M.Put(t, k, v, 0));
    }

    // ---------- Any schedule ----------

    method GoStep(t: nat)
      requires Safe(Snap(), t)
      modifies Repr()
      ensures Snap() == M.GoStep(old(Snap()), t)
    {
      match th[t] {
        case GFirst(_) => GetFirst(t);
        case GWalk(_, _, _) => GetWalk(t);
        case GValue(_, _, _) => GetValue(t);
        case GLock(_, _, _) => Lock(t);
        case GRecheck(_, _, _) => GetRecheck(t);
        case GRewalk(_, _) => GetRewalk(t);
        case GUnlock(_, _) => Unlock(t);
        case PLock(_, _) => Lock(t);
        case PFirst(_, _) => PutFirst(t);
        case PWalk(_, _, _, _) => PutWalk(t);
        case PReadOld(_, _, _) => PutReadOld(t);
        case PStore(_, _, _, _) => PutStore(t);
        case PAlloc(_, _, _) => PutAlloc(t);
        case PPublish(_, _, _) => PutPublish(t);
        case PUnlock(_, _, _) => Unlock(t);
        case _ =>
      }
    }

    method Execute(a: Action)
      requires Valid()
      modifies Repr()
      ensures Valid() && Snap() == Step(old(Snap()), a)
    {
      StepInv(Snap(), a);
      if a.tid < th.Length {
        assert ThreadInv(Snap(), a.tid);
        match a {
          case StartGet(t, k) => if CanStart(th[t]) && k != 0 { Begin(t, GFirst(k)); }
          case StartPut(t, k, v) => if CanStart(th[t]) && k != 0 && v != 0 { Begin(t, PLock(k, v)); }
          case Go(t) => GoStep(t);
        }
      }
    }

    /** Any schedule: the table holds the map of the operations that took effect. */
    method Schedule(sched: seq<Action>)
      requires Valid()
      modifies Repr()
      ensures Valid() && Snap() == Run(old(Snap()), sched)
      ensures Replay(hist).Some? && Holds(Snap(), Replay(hist).value)
    {
      var i := 0;
      while i < |sched|
        invariant 0 <= i <= |sched| && Valid()
        invariant Run(old(Snap()), sched) == Run(Snap(), sched[i..])
      {
        Execute(sched[i]);
        i := i + 1;
      }
    }
  }
}
