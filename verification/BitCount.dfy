/** Counting votes: the bit trick of concurrent-hashmap/ConcurrentHashMap.java, lines 282-289. */
module BitCount {
  // ---------- The definition: the sum of the 32 bits ----------

  function ByteSum(w: bv32): bv32 {
    (w & 1) + ((w >> 1) & 1) + ((w >> 2) & 1) + ((w >> 3) & 1)
    + ((w >> 4) & 1) + ((w >> 5) & 1) + ((w >> 6) & 1) + ((w >> 7) & 1)
  }

  function HalfSum(w: bv32): bv32 { ByteSum(w & 0xff) + ByteSum(w >> 8) }

  function Low(w: bv32): bv32 { w & 0xffff }

  function High(w: bv32): bv32 { w >> 16 }

  function Plus(x: bv32, y: bv32): bv32 { x + y }

  function SumOfBits(w: bv32): bv32 { Plus(HalfSum(Low(w)), HalfSum(High(w))) }

  // ---------- Halving: the sums of neighbouring fields, for fields of each width ----------

  function Halve1(w: bv32): bv32 { (w & 0x55555555) + ((w >> 1) & 0x55555555) }

  function Halve2(w: bv32): bv32 { (w & 0x33333333) + ((w >> 2) & 0x33333333) }

  function Halve4(w: bv32): bv32 { (w & 0x0f0f0f0f) + ((w >> 4) & 0x0f0f0f0f) }

  function Halve8(w: bv32): bv32 { (w & 0x00ff00ff) + ((w >> 8) & 0x00ff00ff) }

  function Halve16(w: bv32): bv32 { Plus(Low(w), High(w)) }

  function Halved(w: bv32): bv32 { Halve16(Halve8(Halve4(Halve2(Halve1(w))))) }

  lemma SplitAt1(w: bv32)
    ensures Low(Halve1(w)) == Halve1(Low(w)) && High(Halve1(w)) == Halve1(High(w))
  {
  }

  lemma SplitAt2(w: bv32)
    ensures Low(Halve2(w)) == Halve2(Low(w)) && High(Halve2(w)) == Halve2(High(w))
  {
  }

  lemma SplitAt4(w: bv32)
    ensures Low(Halve4(w)) == Halve4(Low(w)) && High(Halve4(w)) == Halve4(High(w))
  {
  }

  lemma SplitAt8(w: bv32)
    ensures Low(Halve8(w)) == Halve8(Low(w)) && High(Halve8(w)) == Halve8(High(w))
  {
  }

  lemma SplitAt16(w: bv32)
    ensures Halve16(w) == Plus(Halve16(Low(w)), Halve16(High(w)))
  {
    NoHigh(w);
  }

  lemma NoHigh(w: bv32)
    ensures Halve16(Low(w)) == Low(w) && Halve16(High(w)) == High(w)
  {
  }

  lemma WordSplits(w: bv32)
    ensures Halved(w) == Plus(Halved(Low(w)), Halved(High(w)))
  {
    SplitAt1(w);
    SplitAt2(Halve1(w));
    SplitAt4(Halve2(Halve1(w)));
    SplitAt8(Halve4(Halve2(Halve1(w))));
    SplitAt16(Halve8(Halve4(Halve2(Halve1(w)))));
  }

  lemma HalfSplits(w: bv32)
    requires w < 0x10000
    ensures Halved(w) == Halved(w & 0xff) + Halved(w >> 8)
  {
  }

  lemma ByteIsSum(w: bv32)
    requires w < 0x100
    ensures Halved(w) == ByteSum(w)
  {
  }

  lemma Bounds(w: bv32)
    ensures Low(w) < 0x10000 && High(w) < 0x10000 && w & 0xff < 0x100
    ensures w < 0x10000 ==> w >> 8 < 0x100
  {
  }

  lemma HalfIsSum(w: bv32)
    requires w < 0x10000
    ensures Halved(w) == HalfSum(w)
  {
    HalfSplits(w);
    Bounds(w);
    ByteIsSum(w & 0xff);
    ByteIsSum(w >> 8);
  }

  lemma HalvesAreSums(w: bv32)
    ensures Halved(Low(w)) == HalfSum(Low(w)) && Halved(High(w)) == HalfSum(High(w))
  {
    Bounds(w);
    HalfIsSum(Low(w));
    HalfIsSum(High(w));
  }

  /** Five halvings add up all the bits of a word. */
  lemma HalvedIsSum(w: bv32)
    ensures Halved(w) == SumOfBits(w)
  {
    WordSplits(w);
    HalvesAreSums(w);
  }

  // ---------- The lines of the original, which mask less ----------

  // Its second line is Halve2.

  function Line1(w: bv32): bv32 { w - ((0xaaaaaaaa & w) >> 1) }

  function Line3(w: bv32): bv32 { (w + (w >> 4)) & 0x0f0f0f0f }

  function Line4(w: bv32): bv32 { w + (w >> 8) }

  function Lines56(w: bv32): bv32 { (w + (w >> 16)) & 0xff }

  lemma FirstLine(w: bv32)
    ensures Line1(w) == Halve1(w)
  {
  }

  lemma ThirdLine(w: bv32)
    ensures Line3(Halve2(w)) == Halve4(Halve2(w))
  {
  }

  lemma SmallFields(w: bv32)
    ensures Halve4(w) & 0xe0e0e0e0 == 0
  {
  }

  lemma LastLines(w: bv32)
    requires w & 0xe0e0e0e0 == 0
    ensures Lines56(Line4(w)) == Halve16(Halve8(w))
  {
  }

  lemma LinesHalve(w: bv32)
    ensures Lines56(Line4(Line3(Halve2(Line1(w))))) == Halved(w)
  {
    FirstLine(w);
    ThirdLine(Halve1(w));
    SmallFields(Halve2(Halve1(w)));
    LastLines(Halve4(Halve2(Halve1(w))));
  }

  lemma LinesAreSum(w: bv32)
    ensures Lines56(Line4(Line3(Halve2(Line1(w))))) == SumOfBits(w)
  {
    LinesHalve(w);
    HalvedIsSum(w);
  }

  /** The number of set bits of a word. */
  function Count(w: bv32): (r: bv32)
    ensures r == SumOfBits(w)
  {
    LinesAreSum(w);
    Lines56(Line4(Line3(Halve2(Line1(w)))))
  }
}

/** A set of segments as the bits of a word. */
module SegmentBits {
  predicate HasBit(w: bv32, k: nat)
    requires k < 32
  {
    w & (1 << k) != 0
  }

  function SetBit(w: bv32, k: nat): bv32
    requires k < 32
  {
    w | (1 << k)
  }

  /** Setting a bit that is set changes nothing. */
  lemma SetAgain(w: bv32, k: nat)
    requires k < 32 && HasBit(w, k)
    ensures SetBit(w, k) == w
  {
    OrAgain(w, k);
  }

  lemma OrAgain(w: bv32, k: nat)
    requires k < 32 && w & (1 << k) != 0
    ensures w | (1 << k) == w
  {
  }
}
