/** What the deque promises, for every schedule of the owner and any number of thieves. */
module ChaseLevTheorems {
  import opened ChaseLevModel
  import opened ChaseLevProofs

  function Back(q: seq<int>): int
    requires q != []
  {
    q[|q| - 1]
  }

  // ---------- A double-ended queue ----------

  /** Only four steps change the deque: publishing a push, the load or the compare-and-swap that
      settles a take, and the compare-and-swap of a steal; each moves exactly its own element. */
  lemma StepIsDeque(s: State, a: Action)
    requires Inv(s)
    ensures
      var s' := Step(s, a);
      Inv(s') &&
      var (q, q') := (Contents(s), Contents(s'));
      if a.OwnerGo? && s.owner.PPublish? then
        s'.hist == s.hist + [Push(s.owner.x)] && q' == q + [s.owner.x]
      else if a.OwnerGo? && s.owner.TLoadTop? && s.top < s.owner.b then
        q != [] && s'.hist == s.hist + [Take(Back(q))] && q' == q[..|q| - 1]
      else if a.OwnerGo? && s.owner.TCas? && s.top == s.owner.b then
        q == [s.owner.x] && s'.hist == s.hist + [Take(s.owner.x)] && q' == []
      else if a.OwnerGo? && (s.owner.TCas? || (s.owner.TLoadTop? && s.top > s.owner.b)) then
        s'.hist == s.hist + [TakeNone] && q == q' == []
      else if a.ThiefGo? && a.tid < |s.thieves| && s.thieves[a.tid].SCas? && s.top == s.thieves[a.tid].t then
        q != [] && s'.hist == s.hist + [Steal(a.tid, q[0])] && q' == q[1..]
      else
        s'.hist == s.hist && q' == q
  {
    var s' := Step(s, a);
    StepInv(s, a);
    StepHist(s, a);
    if a.ThiefGo? && a.tid < |s.thieves| { assert ThiefInv(s, a.tid); }
    if a.OwnerGo? && s.owner.TCas? && s.top == s.owner.b { assert OwnerInv(s); }
    hide Step;
    if |s'.hist| > |s.hist| {
      EventMoves(s, s', s'.hist[|s.hist|]);
    }
  }

  /** An event moves the contents as the sequential deque does. */
  lemma EventMoves(s: State, s': State, e: Event)
    requires Inv(s) && Inv(s') && s'.hist == s.hist + [e]
    ensures
      var (q, q') := (Contents(s), Contents(s'));
      match e
      case Push(x) => q' == q + [x]
      case Take(x) => q != [] && x == Back(q) && q' == q[..|q| - 1]
      case TakeNone => q == q' == []
      case Steal(_, x) => q != [] && x == q[0] && q' == q[1..]
  {
    assert s'.hist[..|s.hist|] == s.hist;
  }

  /** The event a step adds to the history, if any. */
  lemma StepHist(s: State, a: Action)
    requires Inv(s)
    ensures
      var s' := Step(s, a);
      s'.hist ==
      if a.OwnerGo? && s.owner.PPublish? then s.hist + [Push(s.owner.x)]
      else if a.OwnerGo? && s.owner.TLoadTop? && s.top < s.owner.b then
        s.hist + [Take(Cell(s.mem[s.cur], s.owner.b))]
      else if a.OwnerGo? && s.owner.TCas? && s.top == s.owner.b then s.hist + [Take(s.owner.x)]
      else if a.OwnerGo? && (s.owner.TCas? || (s.owner.TLoadTop? && s.top > s.owner.b)) then s.hist + [TakeNone]
      else if a.ThiefGo? && a.tid < |s.thieves| && s.thieves[a.tid].SCas? && s.top == s.thieves[a.tid].t then
        s.hist + [Steal(a.tid, s.thieves[a.tid].x)]
      else s.hist
  {
    if a.ThiefGo? && a.tid < |s.thieves| { assert ThiefInv(s, a.tid); }
  }

  lemma StepPushes(s: State, a: Action)
    requires Inv(s)
    ensures EverPushed(Step(s, a)) <==> EverPushed(s) || (a.OwnerGo? && s.owner.PPublish?)
  {
    StepHist(s, a);
    var s' := Step(s, a);
    if EverPushed(s) {
      var i :| 0 <= i < |s.hist| && s.hist[i].Push?;
      assert s'.hist[i].Push?;
    }
    if a.OwnerGo? && s.owner.PPublish? {
      assert s'.hist[|s.hist|].Push?;
    }
  }

  lemma {:induction false} LegalPrefix(h: seq<Event>, k: nat)
    requires k <= |h| && Replay(h).Some?
    ensures Replay(h[..k]).Some?
  {
    if k < |h| {
      assert h[..k] == h[..|h| - 1][..k];
      LegalPrefix(h[..|h| - 1], k);
    } else {
      assert h[..k] == h;
    }
  }

  /** A take took effect during its call, and returns the element that was then at the back, or EMPTY
      if there was none; it never returns ABORT. */
  lemma TookTheBack(s: State)
    requires Inv(s) && s.owner.TDone?
    ensures s.ownerMark.since <= s.ownerMark.at < |s.hist| && Replay(s.hist[..s.ownerMark.at]).Some?
    ensures
      var q := Replay(s.hist[..s.ownerMark.at]).value;
      s.owner.res == if q == [] then EMPTY else Got(Back(q))
  {
    var at := s.ownerMark.at;
    LegalPrefix(s.hist, at + 1);
    assert s.hist[..at + 1][..at] == s.hist[..at];
  }

  /** A steal that returns a value took effect during its call, and returns the element that was then
      at the front. */
  lemma StoleTheFront(s: State, u: nat)
    requires Inv(s) && u < |s.thieves| && s.thieves[u].SDone? && s.thieves[u].res.Got?
    ensures
      var m := s.thiefMark[u];
      m.since <= m.at < |s.hist| && Replay(s.hist[..m.at]).Some?
    ensures
      var q := Replay(s.hist[..s.thiefMark[u].at]).value;
      q != [] && s.thieves[u].res == Got(q[0])
  {
    assert ThiefInv(s, u);
    var at := s.thiefMark[u].at;
    LegalPrefix(s.hist, at + 1);
    assert s.hist[..at + 1][..at] == s.hist[..at];
  }

  /** A steal gives up with EMPTY only when it saw an empty deque, or one whose last element the
      owner was already taking; it aborts only when another operation advanced `top` past its index. */
  lemma StealFailure(s: State, u: nat)
    requires Inv(s) && u < |s.thieves| && ThiefSafe(s, u)
    ensures s.thieves[u].SLoadBottom? && StealLoadBottom(s, u).thieves[u] == SDone(EMPTY) ==>
      |Contents(s)| <= 1 && (Contents(s) != [] ==> Undecided(s.owner))
    ensures s.thieves[u].SCas? && StealCas(s, u).thieves[u] == SDone(ABORT) ==> s.thieves[u].t < s.top
  {
    assert ThiefInv(s, u);
  }

  // ---------- One event for each call ----------

  /** Whether the owner's call has taken effect. */
  predicate OwnerEffective(o: Owner) {
    o.PDone? || (o.TRead? && o.t < o.b) || o.TRestore? || o.TDone?
  }

  predicate Stole(th: Thief) {
    th.SDone? && th.res.Got?
  }

  predicate By(e: Event, u: nat) {
    e.Steal? && e.tid == u
  }

  ghost predicate OwnerOnce(s: State) {
    forall i :: s.ownerMark.since <= i < |s.hist| && !s.hist[i].Steal? ==>
      OwnerEffective(s.owner) && i == s.ownerMark.at
  }

  ghost predicate ThiefOnce(s: State, u: nat)
    requires u < |s.thieves| == |s.thiefMark|
  {
    forall i :: s.thiefMark[u].since <= i < |s.hist| && By(s.hist[i], u) ==>
      Stole(s.thieves[u]) && i == s.thiefMark[u].at
  }

  /** Each call takes effect at most once, and a steal that fails never does: the history holds one
      event of a thread since its call began, the one its mark points at. */
  ghost predicate Once(s: State)
    requires |s.thiefMark| == |s.thieves|
  {
    OwnerOnce(s) && forall u :: 0 <= u < |s.thieves| ==> ThiefOnce(s, u)
  }

  lemma OwnerGoOnce(s: State, junk: seq<int>)
    requires Inv(s) && OwnerOnce(s)
    ensures OwnerOnce(OwnerStep(s, junk))
  {
    hide Replay, Cell, Cells, IsFull, ThiefInv, PushedOnce;
    var s' := OwnerStep(s, junk);
    assert s'.ownerMark.since == s.ownerMark.since <= |s.hist|;
    assert OwnerEffective(s.owner) ==> s'.hist == s.hist && s'.ownerMark == s.ownerMark;
  }

  lemma StepOwnerOnce(s: State, a: Action)
    requires Inv(s) && OwnerOnce(s)
    ensures OwnerOnce(Step(s, a))
  {
    if a.OwnerGo? { OwnerGoOnce(s, a.junk); }
    hide Replay, Cell, Cells, OwnerStep;
    if a.ThiefGo? && a.tid < |s.thieves| { assert ThiefInv(s, a.tid); }
  }

  lemma StepThiefOnce(s: State, a: Action, u: nat)
    requires Inv(s) && u < |s.thieves| && ThiefOnce(s, u)
    ensures |Step(s, a).thiefMark| == |Step(s, a).thieves| == |s.thieves| && ThiefOnce(Step(s, a), u)
  {
    hide Replay, Cell, Cells;
    StepHist(s, a);
    assert ThiefInv(s, u);
    if a.ThiefGo? && a.tid < |s.thieves| { assert ThiefInv(s, a.tid); }
  }

  lemma StepOnce(s: State, a: Action)
    requires Inv(s) && Once(s)
    ensures Inv(Step(s, a)) && Once(Step(s, a))
  {
    StepInv(s, a);
    StepOwnerOnce(s, a);
    forall u | 0 <= u < |Step(s, a).thieves| ensures ThiefOnce(Step(s, a), u) {
      StepThiefOnce(s, a, u);
    }
  }

  lemma {:induction false} KeepsOnce(s: State, sched: seq<Action>)
    requires Inv(s) && Once(s)
    ensures Once(Run(s, sched))
    decreases |sched|
  {
    if sched != [] {
      StepOnce(s, sched[0]);
      KeepsOnce(Step(s, sched[0]), sched[1..]);
    }
  }

  /** In every run each call takes effect at most once. */
  lemma RunOnce(size: nat, thieves: nat, sched: seq<Action>)
    requires size > 0
    ensures Inv(Init(size, thieves)) && Once(Run(Init(size, thieves), sched))
  {
    InitInv(size, thieves);
    KeepsOnce(Init(size, thieves), sched);
  }

  ghost predicate OwnerLogged(s: State, e: Event) {
    var m := s.ownerMark;
    && m.since <= m.at < |s.hist| && s.hist[m.at] == e
    && forall i :: m.since <= i < |s.hist| && !s.hist[i].Steal? ==> i == m.at
  }

  /** In every run an operation of the owner that returned logged exactly one event since it was
      called: its own push, the element it took, or that there was none. */
  lemma OwnerReturns(size: nat, thieves: nat, sched: seq<Action>)
    requires size > 0
    ensures Inv(Init(size, thieves))
    ensures
      var s := Run(Init(size, thieves), sched);
      && (s.owner.PDone? ==> OwnerLogged(s, Push(s.owner.x)))
      && (s.owner.TDone? ==> s.owner.res.Got? || s.owner.res.EMPTY?)
      && (s.owner.TDone? && s.owner.res.Got? ==> OwnerLogged(s, Take(s.owner.res.val)))
      && (s.owner.TDone? && s.owner.res.EMPTY? ==> OwnerLogged(s, TakeNone))
  {
    RunOnce(size, thieves, sched);
  }

  /** In every run a steal that returned a value logged exactly one event since it was called, that of
      this value; one that returned EMPTY or ABORT logged none. */
  lemma StealReturns(size: nat, thieves: nat, sched: seq<Action>, u: nat)
    requires size > 0
    ensures Inv(Init(size, thieves))
    ensures
      var s := Run(Init(size, thieves), sched);
      u < |s.thieves| && s.thieves[u].SDone? ==>
        var (m, res) := (s.thiefMark[u], s.thieves[u].res);
        if res.Got? then
          && m.since <= m.at < |s.hist| && s.hist[m.at] == Steal(u, res.val)
          && forall i :: m.since <= i < |s.hist| && By(s.hist[i], u) ==> i == m.at
        else forall i :: m.since <= i < |s.hist| ==> !By(s.hist[i], u)
  {
    RunOnce(size, thieves, sched);
    var s := Run(Init(size, thieves), sched);
    if u < |s.thieves| { assert ThiefInv(s, u) && ThiefOnce(s, u); }
  }

  // ---------- Conservation ----------

  function Pushed(h: seq<Event>): multiset<int> {
    if h == [] then multiset{} else
    Pushed(h[..|h| - 1]) + if h[|h| - 1].Push? then multiset{h[|h| - 1].val} else multiset{}
  }

  function Taken(h: seq<Event>): multiset<int> {
    if h == [] then multiset{} else
    Taken(h[..|h| - 1]) + if h[|h| - 1].Take? then multiset{h[|h| - 1].val} else multiset{}
  }

  function Stolen(h: seq<Event>): multiset<int> {
    if h == [] then multiset{} else
    Stolen(h[..|h| - 1]) + if h[|h| - 1].Steal? then multiset{h[|h| - 1].val} else multiset{}
  }

  lemma SplitEnds(q: seq<int>)
    requires q != []
    ensures multiset(q) == multiset(q[..|q| - 1]) + multiset{Back(q)}
    ensures multiset(q) == multiset{q[0]} + multiset(q[1..])
  {
    assert q == q[..|q| - 1] + [Back(q)];
    assert q == [q[0]] + q[1..];
  }

  lemma LastEvent(h: seq<Event>, e: Event)
    ensures Pushed(h + [e]) == Pushed(h) + if e.Push? then multiset{e.val} else multiset{}
    ensures Taken(h + [e]) == Taken(h) + if e.Take? then multiset{e.val} else multiset{}
    ensures Stolen(h + [e]) == Stolen(h) + if e.Steal? then multiset{e.val} else multiset{}
  {
    assert (h + [e])[..|h|] == h;
  }

  lemma LastReplay(h: seq<Event>, e: Event)
    requires Replay(h + [e]).Some?
    ensures Replay(h).Some?
    ensures
      var (q, q') := (multiset(Replay(h).value), multiset(Replay(h + [e]).value));
      match e
      case Push(v) => q' == q + multiset{v}
      case Take(v) => q == q' + multiset{v}
      case TakeNone => q == q'
      case Steal(_, v) => q == multiset{v} + q'
  {
    assert (h + [e])[..|h|] == h;
    var q := Replay(h).value;
    if e.Take? || e.Steal? { SplitEnds(q); }
  }

  /** One event of a legal history keeps the balance. */
  lemma EventConserves(h: seq<Event>, e: Event)
    requires Replay(h + [e]).Some?
    ensures Replay(h).Some?
    ensures Pushed(h) == Taken(h) + Stolen(h) + multiset(Replay(h).value) ==>
      Pushed(h + [e]) == Taken(h + [e]) + Stolen(h + [e]) + multiset(Replay(h + [e]).value)
  {
    LastEvent(h, e);
    LastReplay(h, e);
    hide Replay, Pushed, Taken, Stolen;
    var q, q' := multiset(Replay(h).value), multiset(Replay(h + [e]).value);
    match e {
      case Push(v) => Gained(Pushed(h), Taken(h), Stolen(h), q, v);
      case Take(v) => Delivered(Pushed(h), Taken(h), Stolen(h), q, q', v);
      case TakeNone =>
      case Steal(_, v) => Delivered(Pushed(h), Taken(h), Stolen(h), q, q', v);
    }
  }

  lemma Gained(p: multiset<int>, t: multiset<int>, s: multiset<int>, q: multiset<int>, v: int)
    ensures p == t + s + q ==> p + multiset{v} == t + s + (q + multiset{v})
  {
  }

  lemma Delivered(p: multiset<int>, t: multiset<int>, s: multiset<int>, q: multiset<int>, r: multiset<int>, v: int)
    requires q == r + multiset{v} || q == multiset{v} + r
    ensures p == t + s + q ==> p == (t + multiset{v}) + s + r && p == t + (s + multiset{v}) + r
  {
  }

  lemma {:induction false} LegalConserves(h: seq<Event>)
    requires Replay(h).Some?
    ensures Pushed(h) == Taken(h) + Stolen(h) + multiset(Replay(h).value)
  {
    if h != [] {
      var h0, e := h[..|h| - 1], h[|h| - 1];
      assert h == h0 + [e];
      EventConserves(h0, e);
      LegalConserves(h0);
    }
  }

  /** Every run: what its events pushed is what they took and stole and what is still there. */
  lemma RunConserves(size: nat, thieves: nat, sched: seq<Action>)
    requires size > 0
    ensures Inv(Init(size, thieves))
    ensures
      var s := Run(Init(size, thieves), sched);
      Pushed(s.hist) == Taken(s.hist) + Stolen(s.hist) + multiset(Contents(s))
  {
    InitInv(size, thieves);
    LegalConserves(Run(Init(size, thieves), sched).hist);
  }

  // ---------- What the calls return ----------

  function Bag(v: Option<int>): multiset<int> {
    if v.Some? then multiset{v.value} else multiset{}
  }

  /** The value a step returns from take or steal, if it ends such a call with a value. */
  ghost function ReturnedBy(s: State, a: Action): Option<int>
    requires Inv(s)
  {
    var s' := Step(s, a);
    if a.OwnerGo? && !s.owner.TDone? && s'.owner.TDone? && s'.owner.res.Got? then Some(s'.owner.res.val)
    else if a.ThiefGo? && a.tid < |s.thieves| == |s'.thieves| && !s.thieves[a.tid].SDone? && Stole(s'.thieves[a.tid])
    then Some(s'.thieves[a.tid].res.val)
    else None
  }

  /** The values that calls of take and steal return in a run. */
  ghost function Returned(s: State, sched: seq<Action>): multiset<int>
    requires Inv(s)
    decreases |sched|
  {
    if sched == [] then multiset{} else
    StepInv(s, sched[0]);
    Bag(ReturnedBy(s, sched[0])) + Returned(Step(s, sched[0]), sched[1..])
  }

  /** The argument of a push that returns at this step. */
  ghost function AcceptedBy(s: State, a: Action): Option<int>
    requires Inv(s)
  {
    var s' := Step(s, a);
    if a.OwnerGo? && !s.owner.PDone? && s'.owner.PDone? then Some(s'.owner.x) else None
  }

  /** The arguments of the calls of push that return in a run. */
  ghost function Accepted(s: State, sched: seq<Action>): multiset<int>
    requires Inv(s)
    decreases |sched|
  {
    if sched == [] then multiset{} else
    StepInv(s, sched[0]);
    Bag(AcceptedBy(s, sched[0])) + Accepted(Step(s, sched[0]), sched[1..])
  }

  /** The element a take has removed and not yet returned. */
  ghost function Pending(s: State): Option<int>
    requires Inv(s)
  {
    if s.owner.TRead? && s.owner.t < s.owner.b then Some(Cell(s.mem[s.owner.a], s.owner.b))
    else if s.owner.TRestore? && s.owner.res.Got? then Some(s.owner.res.val)
    else None
  }

  function Out(h: seq<Event>): multiset<int> {
    Taken(h) + Stolen(h)
  }

  /** A value leaves the deque, waits in the owner's hands, is returned; a stolen one is returned at
      once. Here `p` and `p'` are what the owner holds, `r` what is returned and `c` what is accepted. */
  ghost predicate Accounted(h: seq<Event>, h': seq<Event>, p: Option<int>, p': Option<int>, r: Option<int>,
                            c: Option<int>) {
    if h' == h then
      c == None && (if r == None then p == p' else p == r && p' == None)
    else
      && |h'| == |h| + 1 && h' == h + [h'[|h|]]
      && match h'[|h|]
         case Push(x) => p == r == p' == None && c == Some(x)
         case Take(x) => p == r == c == None && p' == Some(x)
         case TakeNone => p == r == p' == c == None
         case Steal(_, x) => p == p' && r == Some(x) && c == None
  }

  lemma Ledger(h: seq<Event>, h': seq<Event>, p: Option<int>, p': Option<int>, r: Option<int>, c: Option<int>)
    requires Accounted(h, h', p, p', r, c)
    ensures Out(h') + Bag(p) == Out(h) + Bag(r) + Bag(p')
    ensures Pushed(h') == Pushed(h) + Bag(c)
  {
    if h' != h {
      LastEvent(h, h'[|h|]);
      assert c == if h'[|h|].Push? then Some(h'[|h|].val) else None;
      Entries(Taken(h), Stolen(h), Taken(h'), Stolen(h'), h'[|h|], p, p', r);
    }
  }

  lemma Entries(t: multiset<int>, s: multiset<int>, t': multiset<int>, s': multiset<int>, e: Event,
                p: Option<int>, p': Option<int>, r: Option<int>)
    requires t' == t + if e.Take? then multiset{e.val} else multiset{}
    requires s' == s + if e.Steal? then multiset{e.val} else multiset{}
    requires
      if e.Steal? then p == p' && r == Some(e.val)
      else p == r == None && p' == if e.Take? then Some(e.val) else None
    ensures (t' + s') + Bag(p) == (t + s) + Bag(r) + Bag(p')
  {
    forall v: int ensures ((t' + s') + Bag(p))[v] == ((t + s) + Bag(r) + Bag(p'))[v] {
      assert t'[v] == t[v] + if e == Take(v) then 1 else 0;
      assert s'[v] == s[v] + if e.Steal? && e.val == v then 1 else 0;
      assert Bag(r)[v] == if r == Some(v) then 1 else 0;
      assert p != p' ==> Bag(p)[v] == 0 && Bag(p')[v] == if p' == Some(v) then 1 else 0;
    }
  }

  lemma TakeAccounted(s: State, junk: seq<int>)
    requires Inv(s) && Inv(OwnerStep(s, junk))
    requires s.owner.TLoadTop? || s.owner.TRead? || s.owner.TCas? || s.owner.TRestore?
    ensures Accounted(s.hist, OwnerStep(s, junk).hist, Pending(s), Pending(OwnerStep(s, junk)),
                      ReturnedBy(s, OwnerGo(junk)), AcceptedBy(s, OwnerGo(junk)))
  {
    hide Replay, Cells, Cell, ThiefInv;
  }

  lemma PushAccounted(s: State, junk: seq<int>)
    requires Inv(s) && Inv(OwnerStep(s, junk))
    requires !(s.owner.TLoadTop? || s.owner.TRead? || s.owner.TCas? || s.owner.TRestore?)
    ensures Accounted(s.hist, OwnerStep(s, junk).hist, Pending(s), Pending(OwnerStep(s, junk)),
                      ReturnedBy(s, OwnerGo(junk)), AcceptedBy(s, OwnerGo(junk)))
  {
    hide Replay, Cells, Cell, ThiefInv, IsFull;
    var s' := OwnerStep(s, junk);
    assert Pending(s) == Pending(s') == None;
    assert s.owner.PPublish? || s'.hist == s.hist;
  }

  lemma OwnerAccounted(s: State, a: Action)
    requires Inv(s) && Inv(Step(s, a)) && !a.ThiefGo?
    ensures Accounted(s.hist, Step(s, a).hist, Pending(s), Pending(Step(s, a)), ReturnedBy(s, a), AcceptedBy(s, a))
  {
    if a.OwnerGo? {
      hide OwnerStep;
      if s.owner.TLoadTop? || s.owner.TRead? || s.owner.TCas? || s.owner.TRestore? {
        TakeAccounted(s, a.junk);
      } else {
        PushAccounted(s, a.junk);
      }
    } else {
      hide Replay, Cells, Cell, ThiefInv, OwnerStep, OwnerInv;
      assert Pending(s) == Pending(Step(s, a));
    }
  }

  lemma ThiefAccounted(s: State, a: Action)
    requires Inv(s) && Inv(Step(s, a)) && a.ThiefGo?
    ensures Accounted(s.hist, Step(s, a).hist, Pending(s), Pending(Step(s, a)), ReturnedBy(s, a), AcceptedBy(s, a))
  {
    hide Replay, Cells;
    if a.tid < |s.thieves| { assert ThiefInv(s, a.tid); }
  }

  /** The accounts of one step. */
  lemma StepReturns(s: State, a: Action)
    requires Inv(s)
    ensures Inv(Step(s, a))
    ensures
      var s' := Step(s, a);
      Out(s'.hist) + Bag(Pending(s)) == Out(s.hist) + Bag(ReturnedBy(s, a)) + Bag(Pending(s'))
    ensures Pushed(Step(s, a).hist) == Pushed(s.hist) + Bag(AcceptedBy(s, a))
  {
    StepInv(s, a);
    if a.ThiefGo? { ThiefAccounted(s, a); } else { OwnerAccounted(s, a); }
    hide Inv, Step, Pending, ReturnedBy, AcceptedBy;
    Ledger(s.hist, Step(s, a).hist, Pending(s), Pending(Step(s, a)), ReturnedBy(s, a), AcceptedBy(s, a));
  }

  lemma Balanced(o: multiset<int>, p: multiset<int>, r: multiset<int>, o1: multiset<int>, p1: multiset<int>,
                 r1: multiset<int>, o2: multiset<int>, p2: multiset<int>)
    requires o1 + p == o + r + p1 && o2 + p1 == o1 + r1 + p2
    ensures o2 + p == o + (r + r1) + p2
  {
    forall v: int ensures (o2 + p)[v] == (o + (r + r1) + p2)[v] {
      assert (o1 + p)[v] == (o + r + p1)[v] && (o2 + p1)[v] == (o1 + r1 + p2)[v];
    }
  }

  lemma {:induction false} RunReturns(s: State, sched: seq<Action>)
    requires Inv(s)
    ensures
      var s' := Run(s, sched);
      && Out(s'.hist) + Bag(Pending(s)) == Out(s.hist) + Returned(s, sched) + Bag(Pending(s'))
      && Pushed(s'.hist) == Pushed(s.hist) + Accepted(s, sched)
    decreases |sched|
  {
    hide Step, Inv, Out, Pushed, Pending, ReturnedBy, AcceptedBy;
    if sched != [] {
      var s1, s' := Step(s, sched[0]), Run(s, sched);
      StepReturns(s, sched[0]);
      RunReturns(s1, sched[1..]);
      Balanced(Out(s.hist), Bag(Pending(s)), Bag(ReturnedBy(s, sched[0])), Out(s1.hist), Bag(Pending(s1)),
               Returned(s1, sched[1..]), Out(s'.hist), Bag(Pending(s')));
    }
  }

  lemma Closed(o: multiset<int>, p: multiset<int>, a: multiset<int>, r: multiset<int>, h: multiset<int>,
               q: multiset<int>)
    requires o + multiset{} == multiset{} + r + h && p == multiset{} + a && p == o + q
    ensures a == r + h + q
  {
    forall v: int ensures a[v] == (r + h + q)[v] {
      assert (o + multiset{})[v] == (multiset{} + r + h)[v] && p[v] == (multiset{} + a)[v] == (o + q)[v];
    }
  }

  /** Every run, through any number of resizes: the arguments of the calls of push that returned are
      the values that calls of take and steal returned, the one a take may hold but has not returned,
      and the contents. No element is lost and none is returned twice. */
  lemma RunDelivers(size: nat, thieves: nat, sched: seq<Action>)
    requires size > 0
    ensures Inv(Init(size, thieves))
    ensures
      var s := Init(size, thieves);
      var s' := Run(s, sched);
      Accepted(s, sched) == Returned(s, sched) + Bag(Pending(s')) + multiset(Contents(s'))
  {
    InitInv(size, thieves);
    RunConserves(size, thieves, sched);
    var s := Init(size, thieves);
    var s' := Run(s, sched);
    assert Pending(s) == None && Out(s.hist) == Pushed(s.hist) == multiset{};
    RunReturns(s, sched);
    Closed(Out(s'.hist), Pushed(s'.hist), Accepted(s, sched), Returned(s, sched), Bag(Pending(s')),
           multiset(Contents(s')));
  }

  // ---------- Superseded arrays ----------

  /** An array that a resize has replaced is never written again, nor is the pointer ever moved back. */
  lemma SupersededIsFrozen(s: State, a: Action)
    requires Inv(s)
    ensures s.cur <= Step(s, a).cur && |s.mem| <= |Step(s, a).mem|
    ensures forall i :: 0 <= i < s.cur ==> Step(s, a).mem[i] == s.mem[i]
  {
    if a.ThiefGo? && a.tid < |s.thieves| { assert ThiefInv(s, a.tid); }
  }

  lemma {:induction false} RunFreezes(s: State, sched: seq<Action>)
    requires Inv(s)
    ensures s.cur <= Run(s, sched).cur && |s.mem| <= |Run(s, sched).mem|
    ensures forall i :: 0 <= i < s.cur ==> Run(s, sched).mem[i] == s.mem[i]
    decreases |sched|
  {
    if sched != [] {
      StepInv(s, sched[0]);
      SupersededIsFrozen(s, sched[0]);
      RunFreezes(Step(s, sched[0]), sched[1..]);
    }
  }

  /** A thief about to read an array, superseded by any number of resizes or not, reads the front of
      the deque if `top` is still its index; and a compare-and-swap that succeeds holds that value. */
  lemma StaleReadIsFront(s: State, u: nat)
    requires Inv(s) && u < |s.thieves|
    ensures s.thieves[u].SRead? && s.top == s.thieves[u].t ==>
      s.thieves[u].a <= s.cur && Contents(s) != []
      && Cell(s.mem[s.thieves[u].a], s.thieves[u].t) == Contents(s)[0]
    ensures s.thieves[u].SCas? && s.top == s.thieves[u].t ==>
      Contents(s) != [] && s.thieves[u].x == Contents(s)[0]
  {
    assert ThiefInv(s, u);
    if s.top < End(s) { DropFirst(s.mem[s.cur], s.top, End(s)); }
  }

  // ---------- A take before any push ----------

  /** A take that runs alone, from its call to its return. */
  function TakeAlone(s: State): State
    requires OwnerReady(s.owner) && s.cur < |s.mem| && |s.mem[s.cur]| > 0
  {
    var s1 := TakeLoadTop(TakeStoreBottom(TakeLoadArray(TakeLoadBottom(BeginTake(s)))));
    if s1.owner.TRestore? then TakeRestore(s1) else
    var s2 := TakeRead(s1);
    if s2.owner.TDone? then s2 else TakeRestore(TakeCas(s2))
  }

  /** Run alone, a take returns the back element, or EMPTY of an empty deque, if and only if `bottom`
      is not 0 when it is called: otherwise the decrement wraps, and the call returns whatever the
      array holds and leaves `bottom` at the largest index. (Counters stay below the word size.) */
  lemma TakeNeedsBottom(s: State)
    requires Inv(s) && OwnerReady(s.owner) && s.bottom < SIZE_MAX
    ensures
      TakeAlone(s).owner == TDone(if Contents(s) == [] then EMPTY else Got(Back(Contents(s))))
      <==> s.bottom >= 1
    ensures s.bottom == 0 ==> Contents(s) == [] && TakeAlone(s).owner.res.Got? && TakeAlone(s).bottom == SIZE_MAX
  {
    hide Replay, ThiefInv;
    if Contents(s) != [] {
      DropLast(s.mem[s.cur], s.top, s.bottom - 1);
    }
  }

  /** The failing call: take on a new deque of two slots, before any push, returns 0. */
  lemma TakeBeforePush(thieves: nat)
    ensures
      var s := Init(INITIAL_SIZE, thieves);
      Inv(s) && Contents(s) == [] && TakeAlone(s).owner == TDone(Got(0))
  {
    InitInv(INITIAL_SIZE, thieves);
  }

  /** Clients that push first are safe: `bottom` is then at least 1 whenever take may be called. */
  lemma PushedIsSafe(s: State)
    requires Inv(s) && OwnerReady(s.owner) && EverPushed(s)
    ensures s.bottom >= 1
  {
  }
}
