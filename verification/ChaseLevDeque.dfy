/** The work-stealing deque itself, updated in place one atomic action at a time. */
module ChaseLevDeque {
  import M = ChaseLevModel
  import opened RingIndex
  import opened ChaseLevModel
  import opened ChaseLevProofs
  import opened ChaseLevTheorems

  class Deque {
    var top: nat
    var bottom: nat
    var mem: seq<array<int>>
    var cur: nat
    var owner: Owner
    const thieves: array<Thief>

    ghost var hist: seq<Event>
    ghost var ownerMark: Mark
    ghost var thiefMark: seq<Mark>

    ghost function Repr(): set<object>
      reads this
    {
      {this, thieves} + set i | 0 <= i < |mem| :: mem[i]
    }

    ghost function Buffers(): (bs: seq<seq<int>>)
      reads this, Repr()
      ensures |bs| == |mem| && forall i :: 0 <= i < |mem| ==> bs[i] == mem[i][..]
    {
      seq(|mem|, i requires 0 <= i < |mem| reads this, Repr() => mem[i][..])
    }

    /** The whole state, as a value of the state machine. */
    ghost function Snap(): State
      reads this, Repr()
    {
      State(top, bottom, Buffers(), cur, owner, thieves[..], hist, ownerMark, thiefMark)
    }

    /** The arrays are distinct objects. */
    ghost predicate Apart()
      reads this
    {
      forall i, j :: 0 <= i < j < |mem| ==> mem[i] != mem[j]
    }

    ghost predicate Valid()
      reads this, Repr()
    {
      Apart() && Inv(Snap())
    }

    /** `create_size`, with the thieves that will call steal. */
    constructor (size: nat, thieves: nat)
      requires size > 0
      ensures Valid() && Snap() == Init(size, thieves)
      ensures fresh(Repr())
    {
      var buffer := new int[size](_ => 0);
      this.thieves := new Thief[thieves](_ => SIdle);
      top, bottom, mem, cur, owner := 0, 0, [buffer], 0, Idle;
      hist, ownerMark, thiefMark := [], Mark(0, 0), seq(thieves, _ => Mark(0, 0));
      new;
      InitInv(size, thieves);
      assert mem[0][..] == Init(size, thieves).mem[0];
      assert Buffers() == Init(size, thieves).mem && this.thieves[..] == Init(size, thieves).thieves;
    }

    // ---------- The owner: one method per atomic action ----------

    method BeginPush(x: int)
      requires OwnerReady(owner)
      modifies this
      ensures Snap() == M.BeginPush(old(Snap()), x)
      ensures mem == old(mem)
    {
      owner, ownerMark := PLoadBottom(x), Mark(|hist|, |hist|);
      assert Buffers() == old(Buffers());
    }

    method BeginTake()
      requires OwnerReady(owner)
      modifies this
      ensures Snap() == M.BeginTake(old(Snap()))
      ensures mem == old(mem)
    {
      owner, ownerMark := TLoadBottom, Mark(|hist|, |hist|);
      assert Buffers() == old(Buffers());
    }

    method PushLoads()
      requires owner.PLoadBottom? || owner.PLoadTop? || owner.PLoadArray?
      modifies this
      ensures Snap() == M.PushLoads(old(Snap()))
      ensures mem == old(mem)
    {
      match owner {
        case PLoadBottom(x) => owner := PLoadTop(x, bottom);
        case PLoadTop(x, b) => owner := PLoadArray(x, b, top);
        case PLoadArray(x, b, t) => owner := PCheckFull(x, b, t, cur);
      }
      assert Buffers() == old(Buffers());
    }

    method CheckFull()
      requires OwnerSafe(Snap()) && owner.PCheckFull?
      modifies this
      ensures Snap() == M.CheckFull(old(Snap()))
      ensures mem == old(mem)
    {
      var PCheckFull(x, b, t, a) := owner;
      owner := if IsFull(b, t, mem[a].Length) then RLoadArray(x, b) else PStore(x, b, a);
      assert Buffers() == old(Buffers());
    }

    method ResizeAlloc(junk: seq<int>)
      requires OwnerSafe(Snap()) && owner.RLoadArray?
      modifies this
      ensures Snap() == M.ResizeAlloc(old(Snap()), junk)
      ensures old(mem) <= mem && |mem| <= |old(mem)| + 1 && fresh(Repr() - old(Repr()))
      ensures old(Apart()) ==> Apart()
    {
      var RLoadArray(x, b) := owner;
      if |junk| == 2 * mem[cur].Length {
        var wide := new int[|junk|](i requires 0 <= i < |junk| => junk[i]);
        owner := RLoadTop(x, b, cur, |mem|);
        mem := mem + [wide];
        assert wide[..] == junk;
        assert Buffers() == old(Buffers()) + [junk];
      }
    }

    method ResizeLoads()
      requires owner.RLoadTop? || owner.RLoadBottom?
      modifies this
      ensures Snap() == M.ResizeLoads(old(Snap()))
      ensures mem == old(mem)
    {
      match owner {
        case RLoadTop(x, b, a, wide) => owner := RLoadBottom(x, b, a, wide, top);
        case RLoadBottom(x, b, a, wide, i) => owner := RCopy(x, b, a, wide, i, bottom);
      }
      assert Buffers() == old(Buffers());
    }

    method ResizeCopy()
      requires Apart() && OwnerSafe(Snap()) && owner.RCopy?
      modifies this`owner, if owner.RCopy? && owner.wide < |mem| then {mem[owner.wide]} else {}
      ensures Snap() == M.ResizeCopy(old(Snap()))
    {
      var RCopy(x, b, a, wide, i, end) := owner;
      if i < end {
        RemainderIsSlot(i, mem[wide].Length);
        RemainderIsSlot(i, mem[a].Length);
        var from, to := mem[a], mem[wide];
        to[i % to.Length] := from[i % from.Length];
        owner := RCopy(x, b, a, wide, i + 1, end);
        assert Buffers() == old(Buffers())[wide := to[..]];
      } else {
        owner := RPublish(x, b, wide);
        assert Buffers() == old(Buffers());
      }
    }

    method ResizePublish()
      requires owner.RPublish?
      modifies this
      ensures Snap() == M.ResizePublish(old(Snap()))
      ensures mem == old(mem)
    {
      owner, cur := PReload(owner.x, owner.b), owner.wide;
      assert Buffers() == old(Buffers());
    }

    method PushReload()
      requires owner.PReload?
      modifies this
      ensures Snap() == M.PushReload(old(Snap()))
      ensures mem == old(mem)
    {
      owner := PStore(owner.x, owner.b, cur);
      assert Buffers() == old(Buffers());
    }

    method PushStore()
      requires Apart() && OwnerSafe(Snap()) && owner.PStore?
      modifies this`owner, if owner.PStore? && owner.a < |mem| then {mem[owner.a]} else {}
      ensures Snap() == M.PushStore(old(Snap()))
    {
      var PStore(x, b, a) := owner;
      var buffer := mem[a];
      RemainderIsSlot(b, buffer.Length);
      buffer[b % buffer.Length] := x;
      owner := PPublish(x, b);
      assert Buffers() == old(Buffers())[a := buffer[..]];
    }

    method PushPublish()
      requires owner.PPublish?
      modifies this
      ensures Snap() == M.PushPublish(old(Snap()))
      ensures mem == old(mem)
    {
      owner, bottom := PDone(owner.x), owner.b + 1;
      hist, ownerMark := hist + [Push(owner.x)], ownerMark.(at := |hist|);
      assert Buffers() == old(Buffers());
    }

    method TakeLoadBottom()
      requires owner.TLoadBottom?
      modifies this
      ensures Snap() == M.TakeLoadBottom(old(Snap()))
      ensures mem == old(mem)
    {
      owner := TLoadArray(if bottom == 0 then SIZE_MAX else bottom - 1);
      assert Buffers() == old(Buffers());
    }

    method TakeLoadArray()
      requires owner.TLoadArray?
      modifies this
      ensures Snap() == M.TakeLoadArray(old(Snap()))
      ensures mem == old(mem)
    {
      owner := TStoreBottom(owner.b, cur);
      assert Buffers() == old(Buffers());
    }

    method TakeStoreBottom()
      requires owner.TStoreBottom?
      modifies this
      ensures Snap() == M.TakeStoreBottom(old(Snap()))
      ensures mem == old(mem)
    {
      owner, bottom := TLoadTop(owner.b, owner.a), owner.b;
      assert Buffers() == old(Buffers());
    }

    method TakeLoadTop()
      requires OwnerSafe(Snap()) && owner.TLoadTop?
      modifies this
      ensures Snap() == M.TakeLoadTop(old(Snap()))
      ensures mem == old(mem)
    {
      var TLoadTop(b, a) := owner;
      if top > b {
        owner := TRestore(b, EMPTY);
        hist, ownerMark := hist + [TakeNone], ownerMark.(at := |hist|);
      } else {
        if top < b {
          hist, ownerMark := hist + [Take(Cell(mem[a][..], b))], ownerMark.(at := |hist|);
        }
        owner := TRead(b, a, top);
      }
      assert Buffers() == old(Buffers());
    }

    method TakeRead()
      requires OwnerSafe(Snap()) && owner.TRead?
      modifies this
      ensures Snap() == M.TakeRead(old(Snap()))
      ensures mem == old(mem)
    {
      var TRead(b, a, t) := owner;
      RemainderIsSlot(b, mem[a].Length);
      var x := mem[a][b % mem[a].Length];
      owner := if t == b then TCas(b, x) else TDone(Got(x));
      assert Buffers() == old(Buffers());
    }

    method TakeCas()
      requires owner.TCas?
      modifies this
      ensures Snap() == M.TakeCas(old(Snap()))
      ensures mem == old(mem)
    {
      var TCas(b, x) := owner;
      if top == b {
        top := b + 1;
        owner := TRestore(b, Got(x));
        hist, ownerMark := hist + [Take(x)], ownerMark.(at := |hist|);
      } else {
        owner := TRestore(b, EMPTY);
        hist, ownerMark := hist + [TakeNone], ownerMark.(at := |hist|);
      }
      assert Buffers() == old(Buffers());
    }

    method TakeRestore()
      requires owner.TRestore?
      modifies this
      ensures Snap() == M.TakeRestore(old(Snap()))
      ensures mem == old(mem)
    {
      owner, bottom := TDone(owner.res), owner.b + 1;
      assert Buffers() == old(Buffers());
    }

    // ---------- A thief: one method per atomic action ----------

    method BeginSteal(u: nat)
      requires ThiefSafe(Snap(), u) && (thieves[u].SIdle? || thieves[u].SDone?)
      modifies `thiefMark, thieves
      ensures Snap() == M.BeginSteal(old(Snap()), u)
    {
      thieves[u] := SLoadTop;
      thiefMark := thiefMark[u := Mark(|hist|, |hist|)];
      assert Buffers() == old(Buffers());
    }

    method StealLoadTop(u: nat)
      requires ThiefSafe(Snap(), u) && thieves[u].SLoadTop?
      modifies thieves
      ensures Snap() == M.StealLoadTop(old(Snap()), u)
    {
      thieves[u] := SLoadBottom(top);
      assert Buffers() == old(Buffers());
    }

    method StealLoadBottom(u: nat)
      requires ThiefSafe(Snap(), u) && thieves[u].SLoadBottom?
      modifies thieves
      ensures Snap() == M.StealLoadBottom(old(Snap()), u)
    {
      var t := thieves[u].t;
      thieves[u] := if t < bottom then SLoadArray(t) else SDone(EMPTY);
      assert Buffers() == old(Buffers());
    }

    method StealLoadArray(u: nat)
      requires ThiefSafe(Snap(), u) && thieves[u].SLoadArray?
      modifies thieves
      ensures Snap() == M.StealLoadArray(old(Snap()), u)
    {
      thieves[u] := SRead(thieves[u].t, cur);
      assert Buffers() == old(Buffers());
    }

    method StealRead(u: nat)
      requires ThiefSafe(Snap(), u) && thieves[u].SRead?
      modifies thieves
      ensures Snap() == M.StealRead(old(Snap()), u)
    {
      var SRead(t, a) := thieves[u];
      RemainderIsSlot(t, mem[a].Length);
      thieves[u] := SCas(t, mem[a][t % mem[a].Length]);
      assert Buffers() == old(Buffers());
    }

    method StealCas(u: nat)
      requires ThiefSafe(Snap(), u) && thieves[u].SCas?
      modifies this, thieves
      ensures Snap() == M.StealCas(old(Snap()), u)
      ensures mem == old(mem)
    {
      var SCas(t, x) := thieves[u];
      if top == t {
        top := t + 1;
        thieves[u] := SDone(Got(x));
        hist, thiefMark := hist + [Steal(u, x)], thiefMark[u := thiefMark[u].(at := |hist|)];
      } else {
        thieves[u] := SDone(ABORT);
      }
      assert Buffers() == old(Buffers());
    }

    // ---------- Any schedule ----------

    method OwnerStep(junk: seq<int>)
      requires Apart() && OwnerSafe(Snap())
      modifies Repr()
      ensures Snap() == M.OwnerStep(old(Snap()), junk)
      ensures Apart() && fresh(Repr() - old(Repr()))
    {
      match owner {
        case PLoadBottom(_) => PushLoads();
        case PLoadTop(_, _) => PushLoads();
        case PLoadArray(_, _, _) => PushLoads();
        case PCheckFull(_, _, _, _) => CheckFull();
        case RLoadArray(_, _) => ResizeAlloc(junk);
        case RLoadTop(_, _, _, _) => ResizeLoads();
        case RLoadBottom(_, _, _, _, _) => ResizeLoads();
        case RCopy(_, _, _, _, _, _) => ResizeCopy();
        case RPublish(_, _, _) => ResizePublish();
        case PReload(_, _) => PushReload();
        case PStore(_, _, _) => PushStore();
        case PPublish(_, _) => PushPublish();
        case TLoadBottom => TakeLoadBottom();
        case TLoadArray(_) => TakeLoadArray();
        case TStoreBottom(_, _) => TakeStoreBottom();
        case TLoadTop(_, _) => TakeLoadTop();
        case TRead(_, _, _) => TakeRead();
        case TCas(_, _) => TakeCas();
        case TRestore(_, _) => TakeRestore();
        case _ =>
      }
    }

    method ThiefStep(u: nat)
      requires Apart() && ThiefSafe(Snap(), u)
      modifies Repr()
      ensures Snap() == M.ThiefStep(old(Snap()), u)
      ensures Apart() && Repr() == old(Repr())
    {
      match thieves[u] {
        case SLoadTop => StealLoadTop(u);
        case SLoadBottom(_) => StealLoadBottom(u);
        case SLoadArray(_) => StealLoadArray(u);
        case SRead(_, _) => StealRead(u);
        case SCas(_, _) => StealCas(u);
        case _ =>
      }
    }

    method Execute(a: Action)
      requires Valid()
      requires a.StartTake? && OwnerReady(owner) ==> EverPushed(Snap())
      modifies Repr()
      ensures Valid() && Snap() == Step(old(Snap()), a)
      ensures fresh(Repr() - old(Repr()))
    {
      StepInv(Snap(), a);
      match a {
        case StartPush(x) => if OwnerReady(owner) { BeginPush(x); }
        case StartTake => if OwnerReady(owner) { BeginTake(); }
        case OwnerGo(junk) => OwnerStep(junk);
        case StartSteal(u) =>
          if u < thieves.Length && (thieves[u].SIdle? || thieves[u].SDone?) { BeginSteal(u); }
        case ThiefGo(u) =>
          if u < thieves.Length {
            assert ThiefInv(Snap(), u);
            ThiefStep(u);
          }
      }
    }

    /** Any schedule: the owner of a new deque takes only once it has pushed. The invariant holds
        throughout, and what was pushed was taken, stolen or is still there. */
    method Schedule(sched: seq<Action>)
      requires Valid() && !EverPushed(Snap())
      modifies Repr()
      ensures Valid() && Snap() == Run(old(Snap()), sched)
      ensures Pushed(hist) == Taken(hist) + Stolen(hist) + multiset(Contents(Snap()))
    {
      hide OwnerInv, ThiefInv, Arrays, M.OwnerStep, M.ThiefStep;
      var i, pushed := 0, false;
      while i < |sched|
        invariant 0 <= i <= |sched| && Valid() && fresh(Repr() - old(Repr()))
        invariant pushed == EverPushed(Snap())
        invariant Run(old(Snap()), sched) == Run(Snap(), sched[i..])
      {
        StepPushes(Snap(), sched[i]);
        if !sched[i].StartTake? || pushed {
          pushed := pushed || (sched[i].OwnerGo? && owner.PPublish?);
          Execute(sched[i]);
        }
        i := i + 1;
      }
      LegalConserves(hist);
    }
  }
}
