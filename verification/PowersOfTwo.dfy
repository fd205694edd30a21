/** Capacities that are powers of two, and the bins of doubled tables. */
module PowersOfTwo {
  predicate PowerOfTwo(n: nat) {
    n == 1 || (n > 1 && n % 2 == 0 && PowerOfTwo(n / 2))
  }

  /** Doubling the smaller of two powers of two does not pass the larger. */
  lemma {:induction false} NextPower(p: nat, q: nat)
    requires PowerOfTwo(p) && PowerOfTwo(q) && p < q
    ensures 2 * p <= q
  {
    if p > 1 { NextPower(p / 2, q / 2); }
  }

  /** A power of two is a multiple of every smaller one. */
  lemma {:induction false} Divides(p: nat, q: nat) returns (k: nat)
    requires PowerOfTwo(p) && PowerOfTwo(q) && p <= q
    ensures q == k * p
    decreases q
  {
    if p == q {
      k := 1;
    } else {
      NextPower(p, q);
      var half := Divides(p, q / 2);
      k := 2 * half;
    }
  }

  /** The bin of a hash code: the remainder, by repeated addition or subtraction so that proofs about
      bins need no division. For a capacity that is a power of two this is the mask of its low bits. */
  function BinOf(h: int, cap: nat): (b: nat)
    requires cap > 0
    ensures b < cap
    decreases if h < 0 then 1 else 0, if h < 0 then -h else h
  {
    if h < 0 then BinOf(h + cap, cap) else if h < cap then h else BinOf(h - cap, cap)
  }

  lemma {:induction false} BinIsRemainder(h: int, cap: nat)
    requires cap > 0
    ensures BinOf(h, cap) == h % cap
  {
    var q := BinQuotient(h, cap);
    RemainderIs(h, cap, q, BinOf(h, cap));
  }

  lemma {:induction false} BinQuotient(h: int, cap: nat) returns (q: int)
    requires cap > 0
    ensures h == cap * q + BinOf(h, cap)
    decreases if h < 0 then 1 else 0, if h < 0 then -h else h
  {
    if h < 0 {
      q := BinQuotient(h + cap, cap);
      assert cap * (q - 1) == cap * q - cap;
      q := q - 1;
    } else if h < cap {
      q := 0;
    } else {
      q := BinQuotient(h - cap, cap);
      assert cap * (q + 1) == cap * q + cap;
      q := q + 1;
    }
  }

  /** When a table doubles, an entry stays in its bin or moves up by the old capacity. */
  lemma {:induction false} DoubledBin(h: int, cap: nat)
    requires cap > 0
    ensures BinOf(h, 2 * cap) == BinOf(h, cap) || BinOf(h, 2 * cap) == BinOf(h, cap) + cap
    decreases if h < 0 then 1 else 0, if h < 0 then -h else h
  {
    if h < 0 {
      DoubledBin(h + 2 * cap, cap);
      AddMultiple(h, cap, 2);
    } else if h >= 2 * cap {
      DoubledBin(h - 2 * cap, cap);
    }
  }

  /** Bins repeat with the capacity. */
  lemma {:induction false} AddMultiple(h: int, cap: nat, k: nat)
    requires cap > 0
    ensures BinOf(h + k * cap, cap) == BinOf(h, cap)
    decreases k
  {
    if k > 0 {
      AddMultiple(h, cap, k - 1);
      AddOne(h + (k - 1) * cap, cap);
      assert h + (k - 1) * cap + cap == h + k * cap;
    }
  }

  lemma AddOne(h: int, cap: nat)
    requires cap > 0
    ensures BinOf(h + cap, cap) == BinOf(h, cap)
  {
  }

  lemma RemainderIs(h: int, m: nat, q: int, r: nat)
    requires r < m && h == m * q + r
    ensures h % m == r
  {
    var d := h / m - q;
    assert h == m * (h / m) + h % m;
    assert m * (h / m) - m * q == m * d;
    assert m * d == r - h % m;
    if d != 0 { Multiple(m, d); }
  }

  lemma {:induction false} Multiple(m: int, d: int)
    requires m >= 0 && d != 0
    ensures m * d >= m || m * d <= -m
    decreases if d < 0 then -d else d
  {
    if d > 1 {
      Multiple(m, d - 1);
      assert m * d == m * (d - 1) + m && m * (d - 1) >= 0;
    } else if d < -1 {
      Multiple(m, d + 1);
      assert m * d == m * (d + 1) - m && m * (d + 1) <= 0;
    }
  }

  /** The low bits of a bin's index are those of the hash codes in it. */
  lemma LowBits(h: int, small: nat, cap: nat)
    requires small > 0 && PowerOfTwo(small) && PowerOfTwo(cap) && small <= cap
    ensures BinOf(BinOf(h, cap), small) == BinOf(h, small)
  {
    var k := Divides(small, cap);
    LowBitsOf(h, small, cap, k);
  }

  lemma {:induction false} LowBitsOf(h: int, small: nat, cap: nat, k: nat)
    requires small > 0 && cap > 0 && cap == k * small
    ensures BinOf(BinOf(h, cap), small) == BinOf(h, small)
    decreases if h < 0 then 1 else 0, if h < 0 then -h else h
  {
    if h < 0 {
      LowBitsOf(h + cap, small, cap, k);
      AddMultiple(h, small, k);
    } else if h >= cap {
      LowBitsOf(h - cap, small, cap, k);
      AddMultiple(h - cap, small, k);
    }
  }

  /** Between two numbers a capacity apart lie only numbers of other bins. */
  lemma Between(i: nat, b: nat, cap: nat)
    requires i < b < i + cap
    ensures BinOf(b, cap) != BinOf(i, cap)
  {
    BinIsRemainder(i, cap);
    BinIsRemainder(b, cap);
  }
}
