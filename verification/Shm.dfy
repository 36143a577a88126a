/** Layout of the shared memory and the offset tokens exchanged through it
    (examples/evering-ipc/src/shm.rs), on addresses of `w` bits. */
module Shm {
  import opened Prelude
  import opened Bits

  /** `align_up` as compiled without overflow checks; `align` is `2^k`. */
  function AlignUp(n: nat, k: nat, w: nat): nat
    requires k <= w
  {
    Pow2Mono(k, w);
    And(WrappingAdd(n, Pow2(k) - 1, w), Not(Pow2(k) - 1, w))
  }

  /** `m` is the least multiple of `d` that is not below `n`. */
  ghost predicate LeastMultiple(m: nat, n: nat, d: nat)
    requires d > 0
  {
    n <= m && m % d == 0 && forall x: nat :: n <= x && x % d == 0 ==> m <= x
  }

  /** Rounding up without any bound on the word. */
  function RoundUp(n: nat, d: nat): (m: nat)
    requires d > 0
    ensures n <= m < n + d
  {
    n + d - 1 - (n + d - 1) % d
  }

  lemma RoundUpIsLeast(n: nat, d: nat)
    requires d > 0
    ensures LeastMultiple(RoundUp(n, d), n, d)
  {
    RoundDown(n + d - 1, d);
    LeastInWindow(RoundUp(n, d), n, d);
  }

  lemma LeastIsRoundUp(m: nat, n: nat, d: nat)
    requires d > 0 && LeastMultiple(m, n, d)
    ensures m == RoundUp(n, d)
  {
    RoundUpIsLeast(n, d);
  }

  lemma AlignUpIs(n: nat, k: nat, w: nat)
    requires k <= w
    ensures var x := WrappingAdd(n, Pow2(k) - 1, w); AlignUp(n, k, w) == x - x % Pow2(k)
  {
    WrapThenClear(n + Pow2(k) - 1, k, w);
  }

  lemma RoundDown(x: nat, d: nat)
    requires d > 0
    ensures (x - x % d) % d == 0 && x - d < x - x % d <= x
  {
    assert x - x % d == d * (x / d);
    DivModUnique(d * (x / d), d, x / d, 0);
  }

  /** Between `n` and `n + d - 1` there is one multiple of `d`. */
  lemma LeastInWindow(m: nat, n: nat, d: nat)
    requires d > 0 && m % d == 0 && n <= m < n + d
    ensures LeastMultiple(m, n, d)
  {
    forall x: nat | n <= x && x % d == 0 ensures m <= x {
      if x < m {
        SameResidue(x, m, d);
      }
    }
  }

  /** Rounding down the wrapped sum of `n` and `d - 1` on words below `word`. */
  lemma RoundUpExactly(n: nat, d: nat, word: nat, x: nat)
    requires 0 < d <= word && n < word && x == (n + d - 1) % word
    ensures x - x % d >= 0
    ensures LeastMultiple(x - x % d, n, d) <==> n + d - 1 < word
  {
    RoundDown(x, d);
    if n + d - 1 < word {
      DivModUnique(n + d - 1, word, 0, n + d - 1);
      LeastInWindow(x - x % d, n, d);
    } else {
      DivModUnique(n + d - 1, word, 1, n + d - 1 - word);
    }
  }

  /** `align_up` is the least aligned value not below its argument exactly as long as
      the addition inside it does not overflow. */
  lemma AlignUpExactly(n: nat, k: nat, w: nat)
    requires k <= w && n < Pow2(w)
    ensures LeastMultiple(AlignUp(n, k, w), n, Pow2(k)) <==> n + Pow2(k) - 1 < Pow2(w)
  {
    Pow2Mono(k, w);
    AlignUpIs(n, k, w);
    RoundUpExactly(n, Pow2(k), Pow2(w), WrappingAdd(n, Pow2(k) - 1, w));
  }

  // ------------------------------------------------------------------ layout

  /** An array of `count` elements of `size` bytes each, aligned to `2^k`. */
  datatype ArrayLayout = ArrayLayout(count: nat, size: nat, k: nat) {
    function Bytes(): nat {
      count * size
    }

    /** `Layout::array` refuses more than `isize::MAX` bytes after padding. */
    predicate Allowed(w: nat) {
      k < w && Bytes() + Pow2(k) - 1 < Pow2(w - 1)
    }

    /** A type's size is a multiple of its alignment. */
    predicate Sized() {
      size % Pow2(k) == 0
    }
  }

  datatype Created =
    | Header(bufA: nat, bufB: nat, freeStart: nat, freeEnd: nat)
    | LayoutError  // `Layout::array(..).unwrap()` panics
    | Overflow     // the arithmetic overflows, which panics with overflow checks
    | TooSmall     // the assertion on the region's size fails

  /** Header, buffer A, buffer B and free memory follow one another without overlap, each
      buffer as early as its alignment permits, and the free memory is not empty. */
  ghost predicate WellLaidOut(c: Created, header: nat, a: ArrayLayout, b: ArrayLayout, size: nat)
    requires c.Header?
  {
    && LeastMultiple(c.bufA, header, Pow2(a.k))
    && LeastMultiple(c.bufB, c.bufA + a.Bytes(), Pow2(b.k))
    && c.freeStart == c.bufB + b.Bytes()
    && c.freeStart < c.freeEnd == size
  }

  ghost predicate HasLayout(header: nat, a: ArrayLayout, b: ArrayLayout, size: nat) {
    exists c: Created :: c.Header? && WellLaidOut(c, header, a, b, size)
  }

  /** Buffer B's start, rounded past by one more alignment, is the end of the address space. */
  ghost predicate EndsAtTop(w: nat, header: nat, a: ArrayLayout, b: ArrayLayout) {
    exists bufA: nat :: LeastMultiple(bufA, header, Pow2(a.k)) && bufA + a.Bytes() + Pow2(b.k) == Pow2(w)
  }

  /** Where buffers A and B and the free memory begin, if nothing overflows. */
  function StartA(header: nat, a: ArrayLayout): nat {
    RoundUp(header, Pow2(a.k))
  }

  function StartB(header: nat, a: ArrayLayout, b: ArrayLayout): nat {
    RoundUp(StartA(header, a) + a.Bytes(), Pow2(b.k))
  }

  function StartFree(header: nat, a: ArrayLayout, b: ArrayLayout): nat {
    StartB(header, a, b) + b.Bytes()
  }

  /** Aligning for buffer B or stepping behind it leaves the word. */
  predicate Overflows(w: nat, header: nat, a: ArrayLayout, b: ArrayLayout) {
    || StartA(header, a) + a.Bytes() + Pow2(b.k) >= Pow2(w)
    || StartFree(header, a, b) >= Pow2(w)
  }

  /** The offsets `ShmHeader::create` computes, `cur` running ahead. The header is a Rust
      type, so its size stays below half the address space. Whatever is refused has no
      layout, but for a buffer B whose alignment ends exactly at the top of the address
      space: there the check overflows although the rounded offset would not. */
  method Create(w: nat, header: nat, a: ArrayLayout, b: ArrayLayout, size: nat) returns (c: Created)
    requires w >= 1 && header < Pow2(w - 1) && size < Pow2(w)
    ensures c.Header? ==> WellLaidOut(c, header, a, b, size)
    ensures c.LayoutError? <==> !a.Allowed(w) || !b.Allowed(w)
    ensures c.Overflow? <==> a.Allowed(w) && b.Allowed(w) && Overflows(w, header, a, b)
    ensures c.TooSmall? <==>
      a.Allowed(w) && b.Allowed(w) && !Overflows(w, header, a, b) && size <= StartFree(header, a, b)
    ensures c.TooSmall? ==> !HasLayout(header, a, b, size)
    ensures c.Overflow? && HasLayout(header, a, b, size) ==> EndsAtTop(w, header, a, b)
  {
    ghost var half := Pow2(w - 1);
    assert Pow2(w) == 2 * half;
    var cur := header;
    if !a.Allowed(w) {
      return LayoutError;
    }
    AlignUpExactly(cur, a.k, w);
    var bufA := AlignUp(cur, a.k, w);
    LeastIsRoundUp(bufA, cur, Pow2(a.k));
    cur := bufA + a.Bytes();
    if !b.Allowed(w) {
      return LayoutError;
    }
    if cur + Pow2(b.k) >= Pow2(w) {
      if cur + Pow2(b.k) > Pow2(w) {
        NoRoom(header, a, b, size, bufA, w);
      }
      return Overflow;
    }
    AlignUpExactly(cur, b.k, w);
    var bufB := AlignUp(cur, b.k, w);
    LeastIsRoundUp(bufB, cur, Pow2(b.k));
    cur := bufB + b.Bytes();
    LayoutIsUnique(header, a, b, size, bufA, bufB);
    if cur >= Pow2(w) {
      return Overflow;
    }
    if !(cur < size) {
      return TooSmall;
    }
    c := Header(bufA, bufB, cur, size);
  }

  /** The offsets are determined, so a region is too small for them or it is not. */
  lemma LayoutIsUnique(header: nat, a: ArrayLayout, b: ArrayLayout, size: nat, bufA: nat, bufB: nat)
    requires LeastMultiple(bufA, header, Pow2(a.k))
    requires LeastMultiple(bufB, bufA + a.Bytes(), Pow2(b.k))
    ensures HasLayout(header, a, b, size) <==> bufB + b.Bytes() < size
  {
    if bufB + b.Bytes() < size {
      assert WellLaidOut(Header(bufA, bufB, bufB + b.Bytes(), size), header, a, b, size);
    }
    forall x: Created | x.Header? && WellLaidOut(x, header, a, b, size) ensures x.bufA == bufA && x.bufB == bufB {
      assert x.bufA == bufA;
    }
  }

  /** Rounding up past the address space leaves no room for anything behind it. */
  lemma PastTheEnd(m: nat, n: nat, d: nat, word: nat)
    requires d > 0 && n <= m && m % d == 0 && word % d == 0 && n + d > word
    ensures m >= word
  {
    if m < word {
      SameResidue(m, word, d);
    }
  }

  lemma WordIsMultiple(k: nat, w: nat)
    requires k <= w
    ensures Pow2(w) % Pow2(k) == 0
  {
    Pow2Add(w - k, k);
    ProductMod(Pow2(w), Pow2(w - k), Pow2(k));
  }

  lemma ProductMod(x: nat, q: nat, d: nat)
    requires d > 0 && x == q * d
    ensures x % d == 0
  {
    assert x == d * q + 0;
    DivModUnique(x, d, q, 0);
  }

  lemma NoRoom(header: nat, a: ArrayLayout, b: ArrayLayout, size: nat, bufA: nat, w: nat)
    requires LeastMultiple(bufA, header, Pow2(a.k)) && b.k <= w
    requires size < Pow2(w) < bufA + a.Bytes() + Pow2(b.k)
    ensures !HasLayout(header, a, b, size)
  {
    WordIsMultiple(b.k, w);
    forall x: Created | x.Header? ensures !WellLaidOut(x, header, a, b, size) {
      if WellLaidOut(x, header, a, b, size) {
        PastTheEnd(x.bufB, x.bufA + a.Bytes(), Pow2(b.k), Pow2(w));
      }
    }
  }

  /** In a mapping whose base is a multiple of `2^page`, element `i` of either buffer is
      correctly aligned, and the four areas are disjoint and inside the region. */
  lemma LayoutIsSound(c: Created, header: nat, a: ArrayLayout, b: ArrayLayout, size: nat, base: nat, page: nat)
    requires c.Header? && WellLaidOut(c, header, a, b, size)
    requires a.k <= page && b.k <= page && base % Pow2(page) == 0 && a.Sized() && b.Sized()
    ensures forall i :: 0 <= i < a.count ==> (base + c.bufA + i * a.size) % Pow2(a.k) == 0
    ensures forall i :: 0 <= i < b.count ==> (base + c.bufB + i * b.size) % Pow2(b.k) == 0
    ensures forall i :: 0 <= i < a.count ==> i * a.size + a.size <= a.Bytes()
    ensures forall i :: 0 <= i < b.count ==> i * b.size + b.size <= b.Bytes()
    ensures (base + c.bufA) % Pow2(a.k) == 0 && (base + c.bufB) % Pow2(b.k) == 0
    ensures header <= c.bufA && c.bufA + a.Bytes() <= c.bufB && c.bufB + b.Bytes() == c.freeStart < c.freeEnd == size
    ensures c.bufA < header + Pow2(a.k) && c.bufB < c.bufA + a.Bytes() + Pow2(b.k)
  {
    AlignedBase(base, c.bufA, a.k, page);
    AlignedBase(base, c.bufB, b.k, page);
    LeastIsNear(c.bufA, header, Pow2(a.k));
    LeastIsNear(c.bufB, c.bufA + a.Bytes(), Pow2(b.k));
    Elements(base + c.bufA, a);
    Elements(base + c.bufB, b);
  }

  /** The elements of an aligned buffer are aligned and inside it. */
  lemma Elements(start: nat, a: ArrayLayout)
    requires start % Pow2(a.k) == 0 && a.Sized()
    ensures forall i :: 0 <= i < a.count ==> (start + i * a.size) % Pow2(a.k) == 0
    ensures forall i :: 0 <= i < a.count ==> i * a.size + a.size <= a.Bytes()
  {
    forall i | 0 <= i < a.count
      ensures (start + i * a.size) % Pow2(a.k) == 0 && i * a.size + a.size <= a.Bytes()
    {
      Element(start, i, a.size, Pow2(a.k));
      ElementInside(i, a.count, a.size);
    }
  }

  lemma Element(start: nat, i: nat, size: nat, d: nat)
    requires d > 0 && start % d == 0 && size % d == 0
    ensures (start + i * size) % d == 0
  {
    var q := size / d;
    assert size == d * q;
    assert i * size == (i * q) * d;
    ModShift(start, d, i * q);
  }

  lemma ElementInside(i: nat, count: nat, size: nat)
    requires i < count
    ensures i * size + size <= count * size
  {
    assert count * size == i * size + size + (count - i - 1) * size;
  }

  lemma LeastIsNear(m: nat, n: nat, d: nat)
    requires d > 0 && LeastMultiple(m, n, d)
    ensures m < n + d
  {
    RoundDown(n + d - 1, d);
    assert m <= n + d - 1 - (n + d - 1) % d;
  }

  /** Offsets and addresses are aligned alike under an aligned base. */
  lemma AlignedBase(base: nat, offset: int, k: nat, page: nat)
    requires k <= page && base % Pow2(page) == 0
    ensures (base + offset) % Pow2(k) == offset % Pow2(k)
  {
    Pow2Add(page - k, k);
    ModOfProduct(base, Pow2(page - k), Pow2(k));
    assert base % Pow2(k) == 0 by { DivModUnique(0, Pow2(k), 0, 0); }
    ModOfSum(base, offset, Pow2(k));
  }

  // ------------------------------------------------------------------ tokens

  /** `get_shm`: the assertion fails for anything not behind the region's start. */
  function GetShm(start: nat, addr: nat): Option<nat> {
    if addr > start then Some(addr - start) else None
  }

  function GetPtr(start: nat, token: nat): nat {
    start + token
  }

  /** A pointer turned into a token under one mapping and back under another keeps its
      offset and alignment; under the same mapping it is the same pointer; and pointers
      that differ have tokens that differ. */
  lemma TokenRoundTrip(start: nat, start': nat, addr: nat, other: nat, k: nat, page: nat)
    requires start < addr && k <= page && start % Pow2(page) == 0 && start' % Pow2(page) == 0
    ensures GetShm(start, addr).Some?
    ensures var there := GetPtr(start', GetShm(start, addr).value);
      && there - start' == addr - start
      && there % Pow2(k) == addr % Pow2(k)
      && GetShm(start', there) == GetShm(start, addr)
    ensures GetPtr(start, GetShm(start, addr).value) == addr
    ensures GetShm(start, other) == GetShm(start, addr) ==> other == addr
  {
    AlignedBase(start, addr - start, k, page);
    AlignedBase(start', addr - start, k, page);
  }

  /** The region's allocator and the memory it is given, handed out once. */
  class ShmHeader {
    const freeStart: nat
    const freeEnd: nat
    var allocatorTaken: bool

    constructor (freeStart: nat, freeEnd: nat)
      ensures !allocatorTaken && this.freeStart == freeStart && this.freeEnd == freeEnd
    {
      this.freeStart, this.freeEnd := freeStart, freeEnd;
      allocatorTaken := false;
    }

    /** The block added to the allocator, as address and length; the second caller
        panics, so the block is added once. */
    method GetAllocator(base: nat) returns (block: Option<(nat, nat)>)
      requires freeStart <= freeEnd
      modifies this
      ensures allocatorTaken
      ensures block == if old(allocatorTaken) then None else Some((base + freeStart, freeEnd - freeStart))
    {
      var taken := allocatorTaken;
      allocatorTaken := true;
      if taken {
        return None;
      }
      block := Some((base + freeStart, freeEnd - freeStart));
    }
  }
}
