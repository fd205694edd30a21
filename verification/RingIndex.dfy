/** Slots of a circular array, by repeated subtraction so that proofs need no division. */
module RingIndex {
  /** The slot i % n of an array of n slots. */
  function Slot(i: nat, n: nat): (k: nat)
    requires n > 0
    ensures k < n
  {
    if i < n then i else Slot(i - n, n)
  }

  /** Slot(i, n) is the remainder of dividing i by n. */
  lemma {:induction false} SlotIsRemainder(i: nat, n: nat) returns (q: nat)
    requires n > 0
    ensures i == q * n + Slot(i, n)
  {
    if i < n {
      q := 0;
    } else {
      q := SlotIsRemainder(i - n, n);
      q := q + 1;
    }
  }

  lemma RemainderIsSlot(i: nat, n: nat)
    requires n > 0
    ensures i % n == Slot(i, n)
  {
    var q := SlotIsRemainder(i, n);
    RemainderUnique(i, n, q, Slot(i, n));
  }

  lemma MulStep(p: nat, q: nat, n: nat)
    requires p < q
    ensures p * n + n <= q * n
  {
    assert q * n == p * n + (q - p) * n;
    if q - p > 1 { MulStep(p, q - 1, n); }
  }

  lemma RemainderUnique(i: nat, n: nat, q: nat, r: nat)
    requires r < n && i == q * n + r
    ensures i % n == r
  {
    var p := i / n;
    assert i == p * n + i % n;
    if p < q { MulStep(p, q, n); }
    if q < p { MulStep(q, p, n); }
  }

  /** Indices closer than the size of an array use different slots. */
  lemma {:induction false} SlotsDiffer(i: nat, j: nat, n: nat)
    requires n > 0 && i < j < i + n
    ensures Slot(i, n) != Slot(j, n)
  {
    if i >= n {
      SlotsDiffer(i - n, j - n, n);
    }
  }
}
