/**
 The index arithmetic of the ring: a ring index is an unbounded ticket reduced by
 `& mask`, where the mask is a power of two minus one.
 */
module RingArithmetic {

  const WORD32: nat := 0x1_0000_0000
  const WORD64: nat := 0x1_0000_0000_0000_0000

  function Pow2(k: nat): (r: nat)
    ensures r >= 1
  {
    if k == 0 then 1 else 2 * Pow2(k - 1)
  }

  /** Bitwise conjunction, bit by bit from the low end. */
  function And(x: nat, y: nat): nat
    decreases x
  {
    if x == 0 || y == 0 then 0
    else 2 * And(x / 2, y / 2) + (if x % 2 == 1 && y % 2 == 1 then 1 else 0)
  }

  ghost predicate PowerOfTwo(n: nat) {
    exists k: nat :: n == Pow2(k)
  }

  /** The slot a ticket falls on: the remainder, by repeated subtraction. */
  function Slot(k: nat, n: nat): (r: nat)
    requires n > 0
    ensures r < n
  {
    if k < n then k else Slot(k - n, n)
  }

  lemma {:induction false} SlotIsRemainder(k: nat, n: nat)
    requires n > 0
    ensures Slot(k, n) == k % n
  {
    if k >= n {
      SlotIsRemainder(k - n, n);
      assert k % n == (k - n) % n by {
        var q, r := (k - n) / n, (k - n) % n;
        assert k == (q + 1) * n + r;
        DivisionIsUnique(k, n, q + 1, r);
      }
    } else {
      DivisionIsUnique(k, n, 0, k);
    }
  }

  lemma {:induction false} DivisionIsUnique(x: nat, n: nat, q: nat, r: nat)
    requires n > 0 && r < n && x == q * n + r
    ensures x % n == r
  {
    var q' := x / n;
    assert x == q' * n + x % n;
    if q > q' {
      ProductAtLeast(q - q', n);
    } else if q < q' {
      ProductAtLeast(q' - q, n);
    }
  }

  lemma {:induction false} ProductAtLeast(a: nat, n: nat)
    requires a >= 1
    ensures a * n >= n
  {
    assert a * n == (a - 1) * n + n;
  }

  /** Moving `d < n` tickets on moves the slot by `d`, wrapping at most once. */
  lemma {:induction false} SlotAdd(k: nat, d: nat, n: nat)
    requires d < n
    ensures Slot(k + d, n) == if Slot(k, n) + d < n then Slot(k, n) + d else Slot(k, n) + d - n
  {
    if k >= n {
      SlotAdd(k - n, d, n);
    }
  }

  /** Tickets less than one lap apart are told apart by their slots. */
  lemma {:induction false} SlotInjective(a: nat, b: nat, n: nat)
    requires n > 0 && a <= b < a + n
    ensures Slot(a, n) == Slot(b, n) <==> a == b
  {
    SlotAdd(a, b - a, n);
  }

  lemma {:induction false} SlotOfDouble(x: nat, m: nat)
    requires m > 0
    ensures Slot(x, 2 * m) == 2 * Slot(x / 2, m) + x % 2
  {
    if x >= 2 * m {
      SlotOfDouble(x - 2 * m, m);
    }
  }

  lemma {:induction false} AndLowBits(x: nat, k: nat)
    ensures And(x, Pow2(k) - 1) == Slot(x, Pow2(k))
    decreases k
  {
    if k == 0 {
      SlotIsRemainder(x, 1);
    } else {
      AndLowBits(x / 2, k - 1);
      SlotOfDouble(x, Pow2(k - 1));
      assert (Pow2(k) - 1) / 2 == Pow2(k - 1) - 1;
    }
  }

  /** `x & (n - 1)` is reduction modulo `n` when `n` is a power of two. */
  lemma {:induction false} MaskIsSlot(x: nat, n: nat)
    requires n > 0 && PowerOfTwo(n)
    ensures And(x, n - 1) == Slot(x, n)
  {
    var k: nat :| n == Pow2(k);
    AndLowBits(x, k);
  }

  /** The successor index the code computes: `(i + 1) & mask` on 32-bit words. */
  function NextIndex(i: nat, n: nat): nat
    requires n > 0
  {
    And((i + 1) % WORD32, n - 1)
  }

  lemma {:induction false} NextIndexIsNextSlot(k: nat, n: nat)
    requires 0 < n < WORD32 && PowerOfTwo(n)
    ensures NextIndex(Slot(k, n), n) == Slot(k + 1, n)
  {
    MaskIsSlot(Slot(k, n) + 1, n);
    if n == 1 {
    } else {
      SlotAdd(k, 1, n);
    }
  }

  lemma {:induction false} NextIndexInRange(i: nat, n: nat)
    requires 0 < n && PowerOfTwo(n)
    ensures NextIndex(i, n) < n
  {
    MaskIsSlot((i + 1) % WORD32, n);
  }

  /** The full test on masked indices is exact on tickets in order. */
  lemma {:induction false} FullTestIsExact(ct: nat, pt: nat, n: nat)
    requires 0 < n < WORD32 && PowerOfTwo(n) && ct <= pt < ct + n
    ensures NextIndex(Slot(pt, n), n) == Slot(ct, n) <==> pt + 1 == ct + n
  {
    NextIndexIsNextSlot(pt, n);
    SlotAdd(ct, pt - ct, n);
    if n > 1 {
      SlotAdd(pt, 1, n);
    }
  }

  lemma {:induction false} SlotDifference(ct: nat, pt: nat, n: nat)
    requires n > 0 && ct <= pt < ct + n
    ensures Slot(n + Slot(pt, n) - Slot(ct, n), n) == pt - ct
  {
    SlotAdd(ct, pt - ct, n);
    assert Slot(pt - ct + n, n) == Slot(pt - ct, n) == pt - ct;
  }

  /** The masked count is the number of tickets between the tails. */
  lemma {:induction false} CountOf(ct: nat, pt: nat, n: nat)
    requires 0 < n < WORD32 / 2 && PowerOfTwo(n) && ct <= pt < ct + n
    ensures And((n + Slot(pt, n) - Slot(ct, n)) % WORD32, n - 1) == pt - ct
  {
    var d := n + Slot(pt, n) - Slot(ct, n);
    SlotDifference(ct, pt, n);
    Small(d);
    MaskIsSlot(d, n);
  }

  lemma {:induction false} Small(d: nat)
    requires d < WORD32
    ensures d % WORD32 == d
  {
  }

  /** Word arithmetic forgets nothing but whole words. */
  lemma {:induction false} AddWord(x: int, y: int)
    ensures (x % WORD64 + y) % WORD64 == (x + y) % WORD64
  {
  }
}
