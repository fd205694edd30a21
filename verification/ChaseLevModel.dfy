/** The work-stealing deque of chase-lev-deque-bugfix/deque.c as a state machine.

    One owner thread pushes and takes, any number of thieves steal. One step is one load, store or
    compare-and-swap of a shared word. Arrays are named by their index in `mem`, in the order they
    were allocated; the size of an array never changes once it is published, so loading it is part
    of the step that uses it. */
module ChaseLevModel {
  import opened RingIndex

  const SIZE_MAX := 0xffff_ffff_ffff_ffff
  const INITIAL_SIZE := 2

  /** An int result: a value, or one of the two codes no client pushes. */
  datatype Result = Got(val: int) | EMPTY | ABORT

  datatype Owner =
    | Idle
    // push
    | PLoadBottom(x: int)
    | PLoadTop(x: int, b: nat)
    | PLoadArray(x: int, b: nat, t: nat)
    | PCheckFull(x: int, b: nat, t: nat, a: nat)
    | PStore(x: int, b: nat, a: nat)
    | PPublish(x: int, b: nat)
    | PDone(x: int)
    // resize, called by push
    | RLoadArray(x: int, b: nat)
    | RLoadTop(x: int, b: nat, a: nat, wide: nat)
    | RLoadBottom(x: int, b: nat, a: nat, wide: nat, i: nat)
    | RCopy(x: int, b: nat, a: nat, wide: nat, i: nat, end: nat)
    | RPublish(x: int, b: nat, wide: nat)
    | PReload(x: int, b: nat)
    // take
    | TLoadBottom
    | TLoadArray(b: nat)
    | TStoreBottom(b: nat, a: nat)
    | TLoadTop(b: nat, a: nat)
    | TRead(b: nat, a: nat, t: nat)
    | TCas(b: nat, x: int)
    | TRestore(b: nat, res: Result)
    | TDone(res: Result)

  datatype Thief =
    | SIdle
    | SLoadTop
    | SLoadBottom(t: nat)
    | SLoadArray(t: nat)
    | SRead(t: nat, a: nat)
    | SCas(t: nat, x: int)
    | SDone(res: Result)

  datatype Event = Push(val: int) | Take(val: int) | TakeNone | Steal(tid: nat, val: int)

  datatype Option<T> = None | Some(value: T)

  /** When a call began and when it took effect, as lengths of the history. */
  datatype Mark = Mark(since: nat, at: nat)

  /** `hist` and the marks only observe. */
  datatype State = State(
    top: nat, bottom: nat, mem: seq<seq<int>>, cur: nat, owner: Owner, thieves: seq<Thief>,
    hist: seq<Event>, ownerMark: Mark, thiefMark: seq<Mark>)

  /** `junk` is what the memory a resize allocates happens to hold. */
  datatype Action =
    | StartPush(x: int) | StartTake | OwnerGo(junk: seq<int>) | StartSteal(tid: nat) | ThiefGo(tid: nat)

  // ---------- The sequential deque the history must follow ----------

  function Replay(h: seq<Event>): Option<seq<int>> {
    if h == [] then Some([]) else
    var q := Replay(h[..|h| - 1]);
    if q.None? then None else
    match h[|h| - 1]
    case Push(v) => Some(q.value + [v])
    case Take(v) => if q.value != [] && q.value[|q.value| - 1] == v then Some(q.value[..|q.value| - 1]) else None
    case TakeNone => if q.value == [] then q else None
    case Steal(_, v) => if q.value != [] && q.value[0] == v then Some(q.value[1..]) else None
  }

  // ---------- The contents ----------

  /** The value an array holds for index `i`. */
  function Cell(cells: seq<int>, i: nat): int
    requires |cells| > 0
  {
    cells[Slot(i, |cells|)]
  }

  /** The values an array holds for the indices from `lo` up to `hi`. */
  function Cells(cells: seq<int>, lo: nat, hi: nat): (vs: seq<int>)
    requires |cells| > 0 && lo <= hi
    ensures |vs| == hi - lo && forall i :: 0 <= i < |vs| ==> vs[i] == Cell(cells, lo + i)
  {
    seq(hi - lo, i requires 0 <= i => Cell(cells, lo + i))
  }

  /** Whether a take has lowered `bottom` but not yet decided who gets the element there. */
  predicate Undecided(o: Owner) {
    o.TLoadTop? || (o.TRead? && o.t == o.b) || o.TCas? || o.TRestore?
  }

  /** One past the last element of the deque. */
  function End(s: State): nat {
    if Undecided(s.owner) then s.bottom + 1 else s.bottom
  }

  ghost predicate Arrays(s: State) {
    && s.cur < |s.mem|
    && (forall a :: 0 <= a < |s.mem| ==> |s.mem[a]| > 0)
    && s.top <= End(s) <= s.top + |s.mem[s.cur]|
    && |s.thiefMark| == |s.thieves|
  }

  ghost function Contents(s: State): seq<int>
    requires Arrays(s)
  {
    Cells(s.mem[s.cur], s.top, End(s))
  }

  // ---------- The invariant ----------

  ghost predicate Resizing(s: State, a: nat, wide: nat)
    requires Arrays(s)
  {
    a == s.cur && wide == s.cur + 1 && |s.mem| == wide + 1 && |s.mem[wide]| == 2 * |s.mem[a]|
  }

  /** Array `wide` holds what the current one does for every live index below `i`. */
  ghost predicate CopiedTo(s: State, wide: nat, i: nat)
    requires Arrays(s)
  {
    wide < |s.mem| && forall j :: s.top <= j < i ==> Cell(s.mem[wide], j) == Cell(s.mem[s.cur], j)
  }

  ghost predicate OwnerMarked(s: State, e: Event) {
    s.ownerMark.since <= s.ownerMark.at < |s.hist| && s.hist[s.ownerMark.at] == e
  }

  ghost predicate ThiefMarked(s: State, u: nat, e: Event)
    requires u < |s.thiefMark|
  {
    s.thiefMark[u].since <= s.thiefMark[u].at < |s.hist| && s.hist[s.thiefMark[u].at] == e
  }

  ghost predicate OwnerInv(s: State)
    requires Arrays(s)
  {
    && s.ownerMark.since <= |s.hist|
    && (!(s.owner.RLoadTop? || s.owner.RLoadBottom? || s.owner.RCopy? || s.owner.RPublish?) ==> |s.mem| == s.cur + 1)
    && match s.owner
       case Idle => true
       case PLoadBottom(_) => true
       case PLoadTop(_, b) => b == s.bottom
       case PLoadArray(_, b, t) => b == s.bottom && t <= s.top
       case PCheckFull(_, b, t, a) => b == s.bottom && t <= s.top && a == s.cur
       case PStore(_, b, a) => b == s.bottom && a == s.cur && b < s.top + |s.mem[s.cur]|
       case PPublish(x, b) => b == s.bottom && b < s.top + |s.mem[s.cur]| && Cell(s.mem[s.cur], b) == x
       case PDone(x) => OwnerMarked(s, Push(x))
       case RLoadArray(_, b) => b == s.bottom
       case RLoadTop(_, b, a, wide) => b == s.bottom && Resizing(s, a, wide)
       case RLoadBottom(_, b, a, wide, i) => b == s.bottom && Resizing(s, a, wide) && i <= s.top
       case RCopy(_, b, a, wide, i, end) =>
         b == s.bottom && Resizing(s, a, wide) && i <= end == b && CopiedTo(s, wide, i)
       case RPublish(_, b, wide) => b == s.bottom && Resizing(s, s.cur, wide) && CopiedTo(s, wide, b)
       case PReload(_, b) => b == s.bottom && b < s.top + |s.mem[s.cur]|
       case TLoadBottom => s.bottom >= 1
       case TLoadArray(b) => b + 1 == s.bottom
       case TStoreBottom(b, a) => b + 1 == s.bottom && a == s.cur
       case TLoadTop(b, a) => b == s.bottom && a == s.cur
       case TRead(b, a, t) =>
         b == s.bottom && a == s.cur && t <= b
         && (t == b ==> b <= s.top) && (t < b ==> OwnerMarked(s, Take(Cell(s.mem[a], b))))
       case TCas(b, x) => b == s.bottom && b <= s.top && x == Cell(s.mem[s.cur], b)
       case TRestore(b, res) =>
         b == s.bottom && s.top == b + 1 && TookMarked(s, res)
       case TDone(res) => TookMarked(s, res)
  }

  /** What a take returns is what its event removed; EMPTY is returned only of an empty deque. */
  ghost predicate TookMarked(s: State, res: Result) {
    match res
    case Got(v) => OwnerMarked(s, Take(v))
    case EMPTY => OwnerMarked(s, TakeNone)
    case ABORT => false
  }

  ghost predicate EverPushed(s: State) {
    exists i :: 0 <= i < |s.hist| && s.hist[i].Push?
  }

  /** Owner operations leave `bottom` at least 1 once something was pushed. */
  ghost predicate PushedOnce(s: State) {
    EverPushed(s) ==> End(s) >= 1
  }

  /** A thief that read index `t` as non-empty may rely on it only while `top` is still `t`. */
  ghost predicate ThiefInv(s: State, u: nat)
    requires Arrays(s) && u < |s.thieves|
  {
    && s.thiefMark[u].since <= |s.hist|
    && match s.thieves[u]
       case SIdle => true
       case SLoadTop => true
       case SLoadBottom(t) => t <= s.top
       case SLoadArray(t) => t <= s.top && (t == s.top ==> t < End(s))
       case SRead(t, a) =>
         t <= s.top && a <= s.cur && (t == s.top ==> t < End(s) && Cell(s.mem[a], t) == Cell(s.mem[s.cur], t))
       case SCas(t, x) =>
         t <= s.top && (t == s.top ==> t < End(s) && x == Cell(s.mem[s.cur], t))
       case SDone(res) => res.Got? ==> ThiefMarked(s, u, Steal(u, res.val))
  }

  ghost predicate Inv(s: State) {
    && Arrays(s)
    && OwnerInv(s)
    && PushedOnce(s)
    && (forall u :: 0 <= u < |s.thieves| ==> ThiefInv(s, u))
    && Replay(s.hist) == Some(Contents(s))
  }

  // ---------- The owner's steps ----------

  predicate OwnerReady(o: Owner) {
    o.Idle? || o.PDone? || o.TDone?
  }

  /** Every array and slot the owner's next step uses exists. */
  predicate OwnerSafe(s: State) {
    && s.cur < |s.mem|
    && match s.owner
       case PCheckFull(_, _, _, a) => a < |s.mem| && |s.mem[a]| > 0
       case PStore(_, _, a) => a < |s.mem| && |s.mem[a]| > 0
       case RLoadArray(_, _) => |s.mem[s.cur]| > 0
       case RCopy(_, _, a, wide, _, _) => a < |s.mem| && |s.mem[a]| > 0 && wide < |s.mem| && |s.mem[wide]| > 0
       case TLoadTop(b, a) => a < |s.mem| && |s.mem[a]| > 0
       case TRead(b, a, _) => a < |s.mem| && |s.mem[a]| > 0
       case _ => true
  }

  /** The owner's call takes effect. */
  function Settled(s: State, e: Event): State {
    s.(hist := s.hist + [e], ownerMark := s.ownerMark.(at := |s.hist|))
  }

  function BeginPush(s: State, x: int): State
    requires OwnerReady(s.owner)
  {
    s.(owner := PLoadBottom(x), ownerMark := Mark(|s.hist|, |s.hist|))
  }

  function BeginTake(s: State): State
    requires OwnerReady(s.owner)
  {
    s.(owner := TLoadBottom, ownerMark := Mark(|s.hist|, |s.hist|))
  }

  /** Lines 155-161: bottom, top and the array, in this order. */
  function PushLoads(s: State): State
    requires s.owner.PLoadBottom? || s.owner.PLoadTop? || s.owner.PLoadArray?
  {
    match s.owner
    case PLoadBottom(x) => s.(owner := PLoadTop(x, s.bottom))
    case PLoadTop(x, b) => s.(owner := PLoadArray(x, b, s.top))
    case PLoadArray(x, b, t) => s.(owner := PCheckFull(x, b, t, s.cur))
  }

  /** The test b - t > size - 1 of line 162; unsigned, so a negative difference would be huge. */
  predicate IsFull(b: nat, t: nat, size: nat)
    requires size > 0
  {
    b < t || b - t > size - 1
  }

  /** Line 162. */
  function CheckFull(s: State): State
    requires OwnerSafe(s) && s.owner.PCheckFull?
  {
    var PCheckFull(x, b, t, a) := s.owner;
    s.(owner := if IsFull(b, t, |s.mem[a]|) then RLoadArray(x, b) else PStore(x, b, a))
  }

  /** Lines 128-135: the array and its size, and a new array of twice the size full of junk. */
  function ResizeAlloc(s: State, junk: seq<int>): State
    requires OwnerSafe(s) && s.owner.RLoadArray?
  {
    var RLoadArray(x, b) := s.owner;
    if |junk| != 2 * |s.mem[s.cur]| then s else
    s.(owner := RLoadTop(x, b, s.cur, |s.mem|), mem := s.mem + [junk])
  }

  /** Lines 137-138. */
  function ResizeLoads(s: State): State
    requires s.owner.RLoadTop? || s.owner.RLoadBottom?
  {
    match s.owner
    case RLoadTop(x, b, a, wide) => s.(owner := RLoadBottom(x, b, a, wide, s.top))
    case RLoadBottom(x, b, a, wide, i) => s.(owner := RCopy(x, b, a, wide, i, s.bottom))
  }

  /** Lines 141-143: one iteration of the copying loop, or its exit. */
  function ResizeCopy(s: State): State
    requires OwnerSafe(s) && s.owner.RCopy?
  {
    var RCopy(x, b, a, wide, i, end) := s.owner;
    if i < end then
      s.(owner := RCopy(x, b, a, wide, i + 1, end),
         mem := s.mem[wide := s.mem[wide][Slot(i, |s.mem[wide]|) := Cell(s.mem[a], i)]])
    else s.(owner := RPublish(x, b, wide))
  }

  /** Line 149. */
  function ResizePublish(s: State): State
    requires s.owner.RPublish?
  {
    s.(owner := PReload(s.owner.x, s.owner.b), cur := s.owner.wide)
  }

  /** Line 166. */
  function PushReload(s: State): State
    requires s.owner.PReload?
  {
    s.(owner := PStore(s.owner.x, s.owner.b, s.cur))
  }

  /** Line 169. */
  function PushStore(s: State): State
    requires OwnerSafe(s) && s.owner.PStore?
  {
    var PStore(x, b, a) := s.owner;
    s.(owner := PPublish(x, b), mem := s.mem[a := s.mem[a][Slot(b, |s.mem[a]|) := x]])
  }

  /** Line 177: where the push takes effect. */
  function PushPublish(s: State): State
    requires s.owner.PPublish?
  {
    var PPublish(x, b) := s.owner;
    Settled(s, Push(x)).(owner := PDone(x), bottom := b + 1)
  }

  /** Line 88: an unsigned decrement. */
  function TakeLoadBottom(s: State): State
    requires s.owner.TLoadBottom?
  {
    s.(owner := TLoadArray(if s.bottom == 0 then SIZE_MAX else s.bottom - 1))
  }

  /** Line 89. */
  function TakeLoadArray(s: State): State
    requires s.owner.TLoadArray?
  {
    s.(owner := TStoreBottom(s.owner.b, s.cur))
  }

  /** Line 90. */
  function TakeStoreBottom(s: State): State
    requires s.owner.TStoreBottom?
  {
    s.(owner := TLoadTop(s.owner.b, s.owner.a), bottom := s.owner.b)
  }

  /** Lines 97-99 and 117: with more than one element left, or none, the outcome is settled here. */
  function TakeLoadTop(s: State): State
    requires OwnerSafe(s) && s.owner.TLoadTop?
  {
    var TLoadTop(b, a) := s.owner;
    if s.top > b then
      Settled(s, TakeNone).(owner := TRestore(b, EMPTY))
    else if s.top < b then
      Settled(s, Take(Cell(s.mem[a], b))).(owner := TRead(b, a, s.top))
    else
      s.(owner := TRead(b, a, s.top))
  }

  /** Lines 101-104. */
  function TakeRead(s: State): State
    requires OwnerSafe(s) && s.owner.TRead?
  {
    var TRead(b, a, t) := s.owner;
    s.(owner := if t == b then TCas(b, Cell(s.mem[a], b)) else TDone(Got(Cell(s.mem[a], b))))
  }

  /** Lines 109-113: the race for the last element. */
  function TakeCas(s: State): State
    requires s.owner.TCas?
  {
    var TCas(b, x) := s.owner;
    if s.top == b then
      Settled(s, Take(x)).(owner := TRestore(b, Got(x)), top := b + 1)
    else
      Settled(s, TakeNone).(owner := TRestore(b, EMPTY))
  }

  /** Lines 115 and 120. */
  function TakeRestore(s: State): State
    requires s.owner.TRestore?
  {
    s.(owner := TDone(s.owner.res), bottom := s.owner.b + 1)
  }

  function OwnerStep(s: State, junk: seq<int>): State
    requires OwnerSafe(s)
  {
    match s.owner
    case PLoadBottom(_) => PushLoads(s)
    case PLoadTop(_, _) => PushLoads(s)
    case PLoadArray(_, _, _) => PushLoads(s)
    case PCheckFull(_, _, _, _) => CheckFull(s)
    case RLoadArray(_, _) => ResizeAlloc(s, junk)
    case RLoadTop(_, _, _, _) => ResizeLoads(s)
    case RLoadBottom(_, _, _, _, _) => ResizeLoads(s)
    case RCopy(_, _, _, _, _, _) => ResizeCopy(s)
    case RPublish(_, _, _) => ResizePublish(s)
    case PReload(_, _) => PushReload(s)
    case PStore(_, _, _) => PushStore(s)
    case PPublish(_, _) => PushPublish(s)
    case TLoadBottom => TakeLoadBottom(s)
    case TLoadArray(_) => TakeLoadArray(s)
    case TStoreBottom(_, _) => TakeStoreBottom(s)
    case TLoadTop(_, _) => TakeLoadTop(s)
    case TRead(_, _, _) => TakeRead(s)
    case TCas(_, _) => TakeCas(s)
    case TRestore(_, _) => TakeRestore(s)
    case _ => s
  }

  // ---------- A thief's steps ----------

  predicate ThiefSafe(s: State, u: nat) {
    && u < |s.thieves| == |s.thiefMark|
    && (s.thieves[u].SRead? ==> s.thieves[u].a < |s.mem| && |s.mem[s.thieves[u].a]| > 0)
  }

  function SetThief(s: State, u: nat, th: Thief): State
    requires u < |s.thieves|
  {
    s.(thieves := s.thieves[u := th])
  }

  function BeginSteal(s: State, u: nat): State
    requires ThiefSafe(s, u) && (s.thieves[u].SIdle? || s.thieves[u].SDone?)
  {
    SetThief(s, u, SLoadTop).(thiefMark := s.thiefMark[u := Mark(|s.hist|, |s.hist|)])
  }

  /** Line 192. */
  function StealLoadTop(s: State, u: nat): State
    requires ThiefSafe(s, u) && s.thieves[u].SLoadTop?
  {
    SetThief(s, u, SLoadBottom(s.top))
  }

  /** Lines 204-206. */
  function StealLoadBottom(s: State, u: nat): State
    requires ThiefSafe(s, u) && s.thieves[u].SLoadBottom?
  {
    var t := s.thieves[u].t;
    SetThief(s, u, if t < s.bottom then SLoadArray(t) else SDone(EMPTY))
  }

  /** Line 213. */
  function StealLoadArray(s: State, u: nat): State
    requires ThiefSafe(s, u) && s.thieves[u].SLoadArray?
  {
    SetThief(s, u, SRead(s.thieves[u].t, s.cur))
  }

  /** Lines 214-215. */
  function StealRead(s: State, u: nat): State
    requires ThiefSafe(s, u) && s.thieves[u].SRead?
  {
    var SRead(t, a) := s.thieves[u];
    SetThief(s, u, SCas(t, Cell(s.mem[a], t)))
  }

  /** Lines 220-228. */
  function StealCas(s: State, u: nat): State
    requires ThiefSafe(s, u) && s.thieves[u].SCas?
  {
    var SCas(t, x) := s.thieves[u];
    if s.top == t then
      SetThief(s, u, SDone(Got(x))).(
        top := t + 1, hist := s.hist + [Steal(u, x)], thiefMark := s.thiefMark[u := s.thiefMark[u].(at := |s.hist|)])
    else
      SetThief(s, u, SDone(ABORT))
  }

  function ThiefStep(s: State, u: nat): State
    requires ThiefSafe(s, u)
  {
    match s.thieves[u]
    case SLoadTop => StealLoadTop(s, u)
    case SLoadBottom(_) => StealLoadBottom(s, u)
    case SLoadArray(_) => StealLoadArray(s, u)
    case SRead(_, _) => StealRead(s, u)
    case SCas(_, _) => StealCas(s, u)
    case _ => s
  }

  // ---------- Any action ----------

  /** One scheduled action; one that is not enabled leaves the state alone. Clients call take only
      after a push. */
  ghost function Step(s: State, a: Action): State
    requires Inv(s)
  {
    match a
    case StartPush(x) => if OwnerReady(s.owner) then BeginPush(s, x) else s
    case StartTake => if OwnerReady(s.owner) && EverPushed(s) then BeginTake(s) else s
    case OwnerGo(junk) => OwnerStep(s, junk)
    case StartSteal(u) =>
      if u < |s.thieves| && (s.thieves[u].SIdle? || s.thieves[u].SDone?) then BeginSteal(s, u) else s
    case ThiefGo(u) =>
      if u < |s.thieves| then assert ThiefInv(s, u); ThiefStep(s, u) else s
  }

  /** A deque over one array of the given size, as `create_size` makes it; `create` makes size 2. */
  function Init(size: nat, thieves: nat): State
    requires size > 0
  {
    State(0, 0, [seq(size, _ => 0)], 0, Idle, seq(thieves, _ => SIdle), [], Mark(0, 0), seq(thieves, _ => Mark(0, 0)))
  }
}
