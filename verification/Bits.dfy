/** Bitwise masking on natural numbers, and what it means arithmetically for
    the power-of-two masks that the ring offsets and the shared-memory layout use. */
module Bits {

  function Pow2(k: nat): (p: nat)
    ensures p >= 1
  {
    if k == 0 then 1 else 2 * Pow2(k - 1)
  }

  /** Bitwise conjunction, one binary digit at a time. */
  function And(x: nat, y: nat): nat {
    if x == 0 || y == 0 then 0
    else 2 * And(x / 2, y / 2) + (if x % 2 == 1 && y % 2 == 1 then 1 else 0)
  }

  /** Two's-complement addition and subtraction on words of `w` bits. */
  function WrappingAdd(x: nat, y: nat, w: nat): nat {
    (x + y) % Pow2(w)
  }

  function WrappingSub(x: nat, y: nat, w: nat): nat {
    (x - y) % Pow2(w)
  }

  /** Bitwise complement of a word of `w` bits. */
  function Not(x: nat, w: nat): nat
    requires x < Pow2(w)
  {
    Pow2(w) - 1 - x
  }

  lemma {:induction false} Pow2Add(j: nat, k: nat)
    ensures Pow2(j + k) == Pow2(j) * Pow2(k)
  {
    if j != 0 {
      Pow2Add(j - 1, k);
    }
  }

  lemma {:induction false} Pow2Mono(j: nat, k: nat)
    requires j <= k
    ensures Pow2(j) <= Pow2(k)
  {
    if j != k {
      Pow2Mono(j, k - 1);
    }
  }

  /** Remainders by `d` are unaffected by adding multiples of `d`. */
  lemma ModShift(x: int, d: nat, q: int)
    requires d > 0
    ensures (x + q * d) % d == x % d
  {
    var y := x + q * d;
    assert y == d * (x / d + q) + x % d by {
      assert x == d * (x / d) + x % d;
      assert d * (x / d + q) == d * (x / d) + q * d;
    }
    DivModUnique(y, d, x / d + q, x % d);
  }

  lemma DivModUnique(y: int, d: nat, q: int, r: nat)
    requires d > 0 && r < d && y == d * q + r
    ensures y % d == r && y / d == q
  {
    var q', r' := y / d, y % d;
    assert y == d * q' + r';
    assert d * (q - q') == r' - r && d * (q' - q) == r - r';
    if q > q' {
      MulMono(d, q - q');
    } else if q < q' {
      MulMono(d, q' - q);
    }
  }

  lemma MulMono(d: nat, q: nat)
    requires q >= 1
    ensures d * q >= d
  {
    assert d * q == d + d * (q - 1);
  }

  /** Remainders may be taken early in a sum or a difference. */
  lemma ModOfSum(a: int, b: int, d: nat)
    requires d > 0
    ensures (a % d + b) % d == (a + b) % d
    ensures (b - a % d) % d == (b - a) % d
  {
    var q := a / d;
    assert a == d * q + a % d && (-q) * d == -(d * q);
    ModShift(a + b, d, -q);
    ModShift(b - a, d, q);
  }

  /** A distance shorter than `d` is recovered from the remainders of its ends. */
  lemma ModOfDistance(h: int, t: int, d: nat)
    requires d > 0 && h <= t < h + d
    ensures (t % d - h % d) % d == t - h
  {
    ModOfSum(t, -(h % d), d);
    ModOfSum(h, t, d);
    DivModUnique(t - h, d, 0, t - h);
  }

  /** The remainder by a product determines the remainder by a factor. */
  lemma ModOfProduct(x: int, e: nat, d: nat)
    requires e > 0 && d > 0 && e * d > 0
    ensures (x % (e * d)) % d == x % d
  {
    var m := e * d;
    var q := x / m;
    assert x == m * q + x % m;
    assert m * q == (q * e) * d;
    ModShift(x % m, d, q * e);
  }

  /** Wrapping to a wide word first does not disturb a narrower remainder. */
  lemma ModOfWord(x: int, k: nat, w: nat)
    requires k <= w
    ensures (x % Pow2(w)) % Pow2(k) == x % Pow2(k)
  {
    Pow2Add(w - k, k);
    ModOfProduct(x, Pow2(w - k), Pow2(k));
  }

  /** Masking with `2^k - 1` is the remainder by `2^k`. */
  lemma {:induction false} AndMask(x: nat, k: nat)
    ensures And(x, Pow2(k) - 1) == x % Pow2(k)
    decreases k
  {
    if k == 0 {
      ModOne(x);
    } else {
      var d, p := Pow2(k), Pow2(k - 1);
      AndMask(x / 2, k - 1);
      AndOdd(x, p - 1, d - 1);
      ModHalf(x, p, d);
    }
  }

  lemma ModOne(x: nat)
    ensures And(x, 0) == 0 && x % 1 == 0
  {
  }

  /** The lowest digit of a conjunction. */
  lemma AndOdd(x: nat, m: nat, n: nat)
    requires n == 2 * m + 1
    ensures And(x, n) == 2 * And(x / 2, m) + x % 2
  {
    assert n / 2 == m && n % 2 == 1;
  }

  lemma AndEven(x: nat, m: nat, n: nat)
    requires n == 2 * m
    ensures And(x, n) == 2 * And(x / 2, m)
  {
    assert n / 2 == m && n % 2 == 0;
  }

  lemma ModHalf(x: nat, p: nat, d: nat)
    requires p >= 1 && d == 2 * p
    ensures x % d == 2 * (x / 2 % p) + x % 2
  {
    var h, q, r := x / 2, x / 2 / p, x / 2 % p;
    assert x == 2 * h + x % 2 && h == p * q + r;
    Regroup(p, q);
    DivModUnique(x, d, q, 2 * r + x % 2);
  }

  lemma Regroup(p: nat, q: nat)
    ensures 2 * (p * q) == (2 * p) * q
  {
  }

  /** Wrapping to a word before masking makes no difference. */
  lemma WrapThenMask(x: int, k: nat, w: nat)
    requires k <= w
    ensures And(x % Pow2(w), Pow2(k) - 1) == x % Pow2(k)
  {
    AndMask(x % Pow2(w), k);
    ModOfWord(x, k, w);
  }

  lemma WrappedSum(x: nat, y: nat, k: nat, w: nat)
    requires k <= w
    ensures And(WrappingAdd(x, y, w), Pow2(k) - 1) == (x + y) % Pow2(k)
  {
    WrapThenMask(x + y, k, w);
  }

  lemma WrappedDifference(x: nat, y: nat, k: nat, w: nat)
    requires k <= w
    ensures And(WrappingSub(x, y, w), Pow2(k) - 1) == (x - y) % Pow2(k)
  {
    WrapThenMask(x - y, k, w);
  }

  /** Numbers with the same remainder are at least the divisor apart. */
  lemma SameResidue(i: nat, j: nat, d: nat)
    requires d > 0 && i < j && i % d == j % d
    ensures j - i >= d
  {
    var p, q := i / d, j / d;
    assert i == d * p + i % d && j == d * q + j % d;
    assert d * (q - p) == j - i;
    assert q <= p ==> d * (q - p) <= 0;
    if q > p {
      MulMono(d, q - p);
    }
  }

  /** Masking with the complement of `2^k - 1` clears exactly the low `k` bits. */
  lemma {:induction false} AndNotMask(x: nat, k: nat, w: nat)
    requires k <= w && x < Pow2(w)
    ensures Pow2(k) <= Pow2(w)
    ensures And(x, Not(Pow2(k) - 1, w)) == x - x % Pow2(k)
  {
    Pow2Mono(k, w);
    if k == 0 {
      AndMask(x, w);
      DivModUnique(x, Pow2(w), 0, x);
      ModOne(x);
    } else {
      var d, p, q := Pow2(k), Pow2(k - 1), Pow2(w - 1);
      AndNotMask(x / 2, k - 1, w - 1);
      AndEven(x, q - p, Not(d - 1, w));
      ModHalf(x, p, d);
    }
  }

  lemma WrapThenClear(x: nat, k: nat, w: nat)
    requires k <= w
    ensures Pow2(k) <= Pow2(w)
    ensures And(x % Pow2(w), Not(Pow2(k) - 1, w)) == x % Pow2(w) - (x % Pow2(w)) % Pow2(k)
  {
    AndNotMask(x % Pow2(w), k, w);
  }
}
