/** The masked 32-bit ring indices (`Offsets` in evering/src/uring.rs) and their
    meaning: an index is an unbounded element count taken modulo the ring size. */
module Offsets {
  import opened Bits

  const WORD: nat := 32

  /** The largest exponent a ring size may have; `2^32` does not fit the mask. */
  const MAX_EXPONENT: nat := 31

  function Mask(k: nat): nat {
    Pow2(k) - 1
  }

  function Inc(n: nat, mask: nat): nat {
    And(WrappingAdd(n, 1, WORD), mask)
  }

  function MaskedLen(head: nat, tail: nat, mask: nat): nat {
    And(WrappingSub(tail, head, WORD), mask)
  }

  /** The buffer slot of the element with serial number `count`. */
  function Slot(count: nat, k: nat): (s: nat)
    ensures s < Pow2(k)
  {
    count % Pow2(k)
  }

  /** Wrapping and masking an index steps to the slot of the next element. */
  lemma IncIsNext(count: nat, k: nat)
    requires k <= MAX_EXPONENT
    ensures Inc(Slot(count, k), Mask(k)) == Slot(count + 1, k)
  {
    WrappedSum(Slot(count, k), 1, k, WORD);
    ModOfSum(count, 1, Pow2(k));
  }

  /** Elements less than a ring size apart never share a slot. */
  lemma SlotsDiffer(i: nat, j: nat, k: nat)
    requires i < j < i + Pow2(k)
    ensures Slot(i, k) != Slot(j, k)
  {
    if Slot(i, k) == Slot(j, k) {
      SameResidue(i, j, Pow2(k));
    }
  }

  /** For counts at most a ring size apart, equal slots mean equal counts or a
      whole lap between them. */
  lemma SameSlot(i: nat, j: nat, k: nat)
    requires i <= j <= i + Pow2(k)
    ensures Slot(i, k) == Slot(j, k) <==> i == j || j == i + Pow2(k)
  {
    if i < j < i + Pow2(k) {
      SlotsDiffer(i, j, k);
    } else if j == i + Pow2(k) {
      ModShift(i, Pow2(k), 1);
    }
  }

  /** Masked wrapping subtraction recovers the number of elements between two
      indices, whatever laps the counts have run through. */
  lemma LenIsDistance(h: nat, t: nat, k: nat)
    requires k <= MAX_EXPONENT && h <= t < h + Pow2(k)
    ensures MaskedLen(Slot(h, k), Slot(t, k), Mask(k)) == t - h
  {
    MaskedLenMod(Slot(h, k), Slot(t, k), k);
    SlotDistance(h, t, k);
  }

  lemma SlotDistance(h: nat, t: nat, k: nat)
    requires h <= t < h + Pow2(k)
    ensures (Slot(t, k) - Slot(h, k)) % Pow2(k) == t - h
  {
    ModOfDistance(h, t, Pow2(k));
  }

  lemma MaskedLenMod(head: nat, tail: nat, k: nat)
    requires k <= MAX_EXPONENT
    ensures MaskedLen(head, tail, Mask(k)) == (tail - head) % Pow2(k)
  {
    WrappedDifference(tail, head, k, WORD);
  }

  /** Whatever two indices are read, the reported length fits the ring. */
  lemma LenBelowSize(head: nat, tail: nat, k: nat)
    ensures MaskedLen(head, tail, Mask(k)) <= Pow2(k) - 1
  {
    var n := WrappingSub(tail, head, WORD);
    AndMask(n, k);
  }
}
