/** The counted pointers of ms-queue/queue.h: an index and a count in one 64-bit word. */
module PackedPointer {
  import opened MSQueueModel

  type Word = bv64
  type Half = bv32

  const PTR_MASK: Word := 0xffff_ffff
  const COUNT_MASK: Word := 0xffff_ffff << 32

  function MakePointer(ptr: Half, count: Half): Word { ((count as Word) << 32) | ptr as Word }

  function GetPtr(p: Word): Half { (p & PTR_MASK) as Half }

  function GetCount(p: Word): Half { ((p & COUNT_MASK) >> 32) as Half }

  function SetPtr(p: Word, val: Half): Word { (p & !PTR_MASK) | val as Word }

  function SetCount(p: Word, val: Half): Word { (p & !COUNT_MASK) | ((val as Word) << 32) }

  lemma Unpack(ptr: Half, count: Half)
    ensures GetPtr(MakePointer(ptr, count)) == ptr && GetCount(MakePointer(ptr, count)) == count
  {
  }

  lemma Repack(p: Word)
    ensures MakePointer(GetPtr(p), GetCount(p)) == p
  {
  }

  /** Comparing words is comparing both halves, so a compare-and-swap of words is one of pairs. */
  lemma SameWord(p: Word, q: Word)
    ensures p == q <==> GetPtr(p) == GetPtr(q) && GetCount(p) == GetCount(q)
  {
    Repack(p);
    Repack(q);
  }

  lemma HighHalf(p: Word)
    ensures p & !PTR_MASK == (GetCount(p) as Word) << 32
  {
  }

  lemma Or(x: Word, y: Word, z: Word)
    requires x == y
    ensures x | z == y | z
  {
  }

  /** Setting one half leaves the other. */
  lemma SetPtrHalf(p: Word, val: Half)
    ensures SetPtr(p, val) == MakePointer(val, GetCount(p))
  {
    HighHalf(p);
    Or(p & !PTR_MASK, (GetCount(p) as Word) << 32, val as Word);
  }

  lemma SetCountHalf(p: Word, val: Half)
    ensures GetPtr(SetCount(p, val)) == GetPtr(p)
  {
  }

  lemma SetCountCount(p: Word, val: Half)
    ensures GetCount(SetCount(p, val)) == val
  {
  }

  // ---------- Counts that wrap ----------

  const COUNTS := 0x1_0000_0000

  /** What a word keeps of a pointer with an unbounded count. */
  function Stored(p: Ptr): (int, int) { (p.ptr, p.count % COUNTS) }

  /** A compare-and-swap of words succeeds on another pair than the one read only if their counts are
      2^32 or more apart; that is, never while fewer updates than that lie between. */
  lemma WrapIsHarmless(read: Ptr, now: Ptr)
    ensures Stored(read) == Stored(now) <==>
      read == now || (read.ptr == now.ptr && exists k :: k != 0 && read.count == now.count + k * COUNTS)
    ensures -COUNTS < read.count - now.count < COUNTS ==> (Stored(read) == Stored(now) <==> read == now)
  {
    var k := read.count / COUNTS - now.count / COUNTS;
    if Stored(read) == Stored(now) {
      assert read.count == now.count + k * COUNTS;
    }
    if k' :| k' != 0 && read.count == now.count + k' * COUNTS {
      assert read.count % COUNTS == now.count % COUNTS;
    }
  }
}
