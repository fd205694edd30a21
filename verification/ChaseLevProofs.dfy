module ChaseLevProofs {
  import opened RingIndex
  import opened ChaseLevModel

  /** Arrays that agree on the live indices have the same contents. */
  lemma SameCells(a: seq<int>, b: seq<int>, lo: nat, hi: nat)
    requires |a| > 0 && |b| > 0 && lo <= hi
    requires forall j :: lo <= j < hi ==> Cell(a, j) == Cell(b, j)
    ensures Cells(a, lo, hi) == Cells(b, lo, hi)
  {
    forall i | 0 <= i < hi - lo ensures Cells(a, lo, hi)[i] == Cells(b, lo, hi)[i] {
      assert Cell(a, lo + i) == Cell(b, lo + i);
    }
  }

  lemma DropFirst(a: seq<int>, lo: nat, hi: nat)
    requires |a| > 0 && lo < hi
    ensures Cells(a, lo, hi) == [Cell(a, lo)] + Cells(a, lo + 1, hi)
  {
    assert Cells(a, lo, hi)[0] == Cell(a, lo + 0);
    forall i | 0 < i < hi - lo ensures Cells(a, lo, hi)[i] == Cells(a, lo + 1, hi)[i - 1] {
      assert lo + i == lo + 1 + (i - 1);
    }
  }

  lemma DropLast(a: seq<int>, lo: nat, hi: nat)
    requires |a| > 0 && lo <= hi
    ensures Cells(a, lo, hi + 1) == Cells(a, lo, hi) + [Cell(a, hi)]
  {
    assert Cells(a, lo, hi + 1)[hi - lo] == Cell(a, lo + (hi - lo));
  }

  // ---------- Steps of a thief ----------

  /** A thief's step other than a successful steal changes nothing but that thief. */
  lemma ThiefMoves(s: State, u: nat, th: Thief)
    requires Inv(s) && u < |s.thieves|
    requires ThiefInv(SetThief(s, u, th), u)
    ensures Inv(SetThief(s, u, th))
  {
    hide Replay, Cell, Cells;
    var s' := SetThief(s, u, th);
    forall v | 0 <= v < |s.thieves| ensures ThiefInv(s', v) {
      assert ThiefInv(s, v);
    }
    assert Contents(s') == Contents(s);
  }

  lemma BeginStealInv(s: State, u: nat)
    requires Inv(s) && ThiefSafe(s, u) && (s.thieves[u].SIdle? || s.thieves[u].SDone?)
    ensures Inv(BeginSteal(s, u))
  {
    hide Replay, Cell, Cells;
    var s' := BeginSteal(s, u);
    forall v | 0 <= v < |s.thieves| ensures ThiefInv(s', v) {
      assert ThiefInv(s, v);
    }
    assert Contents(s') == Contents(s);
  }

  lemma StealLoadsInv(s: State, u: nat)
    requires Inv(s) && ThiefSafe(s, u) && ThiefInv(s, u)
    requires !s.thieves[u].SCas?
    ensures Inv(ThiefStep(s, u))
  {
    var s' := ThiefStep(s, u);
    match s.thieves[u] {
      case SLoadTop => ThiefMoves(s, u, SLoadBottom(s.top));
      case SLoadBottom(t) => ThiefMoves(s, u, s'.thieves[u]);
      case SLoadArray(t) => ThiefMoves(s, u, s'.thieves[u]);
      case SRead(t, a) => ThiefMoves(s, u, s'.thieves[u]);
      case _ =>
    }
  }

  /** Raising `top` by one past a live element: every thief or owner that relied on the old `top`
      no longer does. */
  lemma StealWinsOthers(s: State, u: nat)
    requires Inv(s) && ThiefSafe(s, u) && s.thieves[u].SCas? && s.top == s.thieves[u].t
    requires s.top < End(s)
    ensures Arrays(StealCas(s, u)) && OwnerInv(StealCas(s, u))
    ensures forall v :: 0 <= v < |s.thieves| ==> ThiefInv(StealCas(s, u), v)
  {
    var s' := StealCas(s, u);
    assert s'.hist[..|s.hist|] == s.hist;
    forall v | 0 <= v < |s.thieves| ensures ThiefInv(s', v) {
      assert ThiefInv(s, v);
    }
  }

  lemma StealCasInv(s: State, u: nat)
    requires Inv(s) && ThiefSafe(s, u) && ThiefInv(s, u) && s.thieves[u].SCas?
    ensures Inv(StealCas(s, u))
    ensures s.top == s.thieves[u].t ==>
      Contents(s) == [s.thieves[u].x] + Contents(StealCas(s, u))
  {
    var s' := StealCas(s, u);
    if s.top != s.thieves[u].t {
      ThiefMoves(s, u, SDone(ABORT));
    } else {
      StealWinsOthers(s, u);
      DropFirst(s.mem[s.cur], s.top, End(s));
      assert s'.hist[..|s.hist|] == s.hist;
      assert Contents(s)[1..] == Contents(s');
    }
  }

  // ---------- Steps of the owner ----------

  /** Owner steps that leave the words, the arrays and the history alone. */
  lemma OwnerMoves(s: State, o: Owner, m: Mark)
    requires Inv(s)
    requires var s' := s.(owner := o, ownerMark := m); End(s') == End(s) && OwnerInv(s')
    ensures Inv(s.(owner := o, ownerMark := m))
  {
    var s' := s.(owner := o, ownerMark := m);
    forall v | 0 <= v < |s.thieves| ensures ThiefInv(s', v) {
      assert ThiefInv(s, v);
    }
    assert Contents(s') == Contents(s);
  }

  lemma BeginInv(s: State, x: int)
    requires Inv(s) && OwnerReady(s.owner)
    ensures Inv(BeginPush(s, x))
    ensures EverPushed(s) ==> Inv(BeginTake(s))
  {
    var m := Mark(|s.hist|, |s.hist|);
    OwnerMoves(s, PLoadBottom(x), m);
    if EverPushed(s) { OwnerMoves(s, TLoadBottom, m); }
  }

  lemma QuietOwnerInv(s: State, junk: seq<int>)
    requires Inv(s)
    requires s.owner.PLoadBottom? || s.owner.PLoadTop? || s.owner.PLoadArray? || s.owner.PCheckFull?
             || s.owner.RLoadTop? || s.owner.RLoadBottom? || s.owner.PReload?
             || s.owner.TLoadBottom? || s.owner.TLoadArray? || s.owner.TRead?
    ensures Inv(OwnerStep(s, junk))
  {
    var s' := OwnerStep(s, junk);
    OwnerMoves(s, s'.owner, s.ownerMark);
  }

  lemma TakeStoresInv(s: State)
    requires Inv(s)
    ensures s.owner.TStoreBottom? ==> Inv(TakeStoreBottom(s)) && Contents(TakeStoreBottom(s)) == Contents(s)
    ensures s.owner.TRestore? ==> Inv(TakeRestore(s)) && Contents(TakeRestore(s)) == Contents(s)
  {
    if s.owner.TStoreBottom? || s.owner.TRestore? {
      var s' := if s.owner.TRestore? then TakeRestore(s) else TakeStoreBottom(s);
      forall v | 0 <= v < |s.thieves| ensures ThiefInv(s', v) {
        assert ThiefInv(s, v);
      }
      assert Contents(s') == Contents(s);
    }
  }

  /** Load order decides: had a thief read `bottom` before the owner lowered it and relied on index
      b, `top` would have reached b before the owner read it. */
  lemma TakeLoadTopThieves(s: State)
    requires Inv(s) && s.owner.TLoadTop?
    ensures Arrays(TakeLoadTop(s)) && OwnerInv(TakeLoadTop(s))
    ensures forall v :: 0 <= v < |s.thieves| ==> ThiefInv(TakeLoadTop(s), v)
  {
    var s' := TakeLoadTop(s);
    assert s.hist <= s'.hist;
    forall v | 0 <= v < |s.thieves| ensures ThiefInv(s', v) {
      assert ThiefInv(s, v);
    }
  }

  lemma TakeLoadTopInv(s: State)
    requires Inv(s) && s.owner.TLoadTop?
    ensures Inv(TakeLoadTop(s))
  {
    var s' := TakeLoadTop(s);
    TakeLoadTopThieves(s);
    if s.top < s.owner.b {
      assert s'.hist[..|s.hist|] == s.hist;
      DropLast(s.mem[s.cur], s.top, s.owner.b);
      assert Contents(s') == Contents(s)[..|Contents(s)| - 1];
    } else {
      assert s.top > s.owner.b ==> s'.hist[..|s.hist|] == s.hist;
      assert Contents(s') == Contents(s);
    }
  }

  lemma TakeCasInv(s: State)
    requires Inv(s) && s.owner.TCas?
    ensures Inv(TakeCas(s))
  {
    var s' := TakeCas(s);
    assert s'.hist[..|s.hist|] == s.hist;
    forall v | 0 <= v < |s.thieves| ensures ThiefInv(s', v) {
      assert ThiefInv(s, v);
    }
    if s.top == s.owner.b {
      DropLast(s.mem[s.cur], s.top, s.top);
      assert Contents(s) == [s.owner.x] && Contents(s') == [];
    } else {
      assert Contents(s) == [] == Contents(s');
    }
  }

  lemma ResizeAllocInv(s: State, junk: seq<int>)
    requires Inv(s) && s.owner.RLoadArray?
    ensures Inv(ResizeAlloc(s, junk))
  {
    var s' := ResizeAlloc(s, junk);
    forall v | 0 <= v < |s.thieves| ensures ThiefInv(s', v) {
      assert ThiefInv(s, v);
    }
    assert Contents(s') == Contents(s);
  }

  lemma ResizeCopyInv(s: State)
    requires Inv(s) && s.owner.RCopy?
    ensures Inv(ResizeCopy(s))
  {
    var s' := ResizeCopy(s);
    var RCopy(x, b, a, wide, i, end) := s.owner;
    if i == end {
      OwnerMoves(s, s'.owner, s.ownerMark);
    } else {
      forall j | s.top <= j < i + 1 ensures Cell(s'.mem[wide], j) == Cell(s.mem[s.cur], j) {
        if j < i { SlotsDiffer(j, i, |s.mem[wide]|); }
      }
      forall v | 0 <= v < |s.thieves| ensures ThiefInv(s', v) {
        assert ThiefInv(s, v);
      }
      assert Contents(s') == Contents(s);
    }
  }

  lemma ResizePublishInv(s: State)
    requires Inv(s) && s.owner.RPublish?
    ensures Inv(ResizePublish(s)) && Contents(ResizePublish(s)) == Contents(s)
  {
    var s' := ResizePublish(s);
    SameCells(s.mem[s.owner.wide], s.mem[s.cur], s.top, s.bottom);
    forall v | 0 <= v < |s.thieves| ensures ThiefInv(s', v) {
      assert ThiefInv(s, v);
    }
  }

  /** The slot a push writes is no live element's in the array it writes, and no other array changes. */
  lemma PushStoreInv(s: State)
    requires Inv(s) && s.owner.PStore?
    ensures
      var n := |s.mem[s.cur]|;
      forall j :: s.top <= j < s.bottom ==> Slot(j, n) != Slot(s.owner.b, n)
    ensures forall i :: 0 <= i < |s.mem| && i != s.cur ==> PushStore(s).mem[i] == s.mem[i]
    ensures Inv(PushStore(s)) && Contents(PushStore(s)) == Contents(s)
  {
    var s' := PushStore(s);
    var n := |s.mem[s.cur]|;
    forall j | s.top <= j < s.bottom
      ensures Slot(j, n) != Slot(s.bottom, n) && Cell(s'.mem[s.cur], j) == Cell(s.mem[s.cur], j)
    {
      SlotsDiffer(j, s.bottom, n);
    }
    SameCells(s'.mem[s.cur], s.mem[s.cur], s.top, s.bottom);
    forall v | 0 <= v < |s.thieves| ensures ThiefInv(s', v) {
      assert ThiefInv(s, v);
    }
    assert Contents(s') == Contents(s);
  }

  lemma PushPublishInv(s: State)
    requires Inv(s) && s.owner.PPublish?
    ensures Inv(PushPublish(s)) && Contents(PushPublish(s)) == Contents(s) + [s.owner.x]
  {
    var s' := PushPublish(s);
    assert s'.hist[..|s.hist|] == s.hist;
    forall v | 0 <= v < |s.thieves| ensures ThiefInv(s', v) {
      assert ThiefInv(s, v);
    }
    DropLast(s.mem[s.cur], s.top, s.bottom);
    assert Contents(s') == Contents(s) + [s.owner.x];
  }

  lemma InitInv(size: nat, thieves: nat)
    requires size > 0
    ensures Inv(Init(size, thieves)) && Contents(Init(size, thieves)) == []
  {
    assert Contents(Init(size, thieves)) == [];
  }

  lemma OwnerGoInv(s: State, junk: seq<int>)
    requires Inv(s)
    ensures Inv(OwnerStep(s, junk))
  {
    hide Replay, Cell, Cells;
    match s.owner {
      case RLoadArray(_, _) => ResizeAllocInv(s, junk);
      case RCopy(_, _, _, _, _, _) => ResizeCopyInv(s);
      case RPublish(_, _, _) => ResizePublishInv(s);
      case PStore(_, _, _) => PushStoreInv(s);
      case PPublish(_, _) => PushPublishInv(s);
      case TStoreBottom(_, _) => TakeStoresInv(s);
      case TLoadTop(_, _) => TakeLoadTopInv(s);
      case TCas(_, _) => TakeCasInv(s);
      case TRestore(_, _) => TakeStoresInv(s);
      case Idle =>
      case PDone(_) =>
      case TDone(_) =>
      case _ => QuietOwnerInv(s, junk);
    }
  }

  lemma ThiefGoInv(s: State, u: nat)
    requires Inv(s) && u < |s.thieves| && ThiefInv(s, u)
    ensures Inv(ThiefStep(s, u))
  {
    if s.thieves[u].SCas? { StealCasInv(s, u); } else { StealLoadsInv(s, u); }
  }

  /** Every action keeps the invariant. */
  lemma StepInv(s: State, a: Action)
    requires Inv(s)
    ensures Inv(Step(s, a))
  {
    match a {
      case StartPush(x) => if OwnerReady(s.owner) { BeginInv(s, x); }
      case StartTake => if OwnerReady(s.owner) { BeginInv(s, 0); }
      case OwnerGo(junk) => OwnerGoInv(s, junk);
      case StartSteal(u) =>
        if u < |s.thieves| && (s.thieves[u].SIdle? || s.thieves[u].SDone?) { BeginStealInv(s, u); }
      case ThiefGo(u) =>
        if u < |s.thieves| {
          assert ThiefInv(s, u);
          ThiefGoInv(s, u);
        }
    }
  }

  /** The state after a schedule: any interleaving of the owner and the thieves. */
  ghost function Run(s: State, sched: seq<Action>): (s': State)
    requires Inv(s)
    ensures Inv(s')
    decreases |sched|
  {
    if sched == [] then s else
    StepInv(s, sched[0]);
    Run(Step(s, sched[0]), sched[1..])
  }
}
