/**
  Bits of integers, by arithmetic alone.

  `Bitwise(f, x, y, n)` combines the low `n` bits of two integers; a negative integer stands for its
  two's complement, since `/` and `%` are Euclidean here.
 */
module Bits {

  function Pow2(n: nat): (p: int)
    ensures p > 0
  {
    if n == 0 then 1 else 2 * Pow2(n - 1)
  }

  predicate AndBit(p: bool, q: bool) { p && q }

  predicate OrBit(p: bool, q: bool) { p || q }

  predicate XorBit(p: bool, q: bool) { p != q }

  function Bitwise(f: (bool, bool) -> bool, x: int, y: int, n: nat): (r: nat)
    ensures r < Pow2(n)
    decreases n, x, y
  {
    if n == 0 then 0
    else (if f(x % 2 == 1, y % 2 == 1) then 1 else 0) + 2 * Bitwise(f, x / 2, y / 2, n - 1)
  }

  lemma Pow2Values()
    ensures Pow2(6) == 64 && Pow2(8) == 0x100 && Pow2(16) == 0x1_0000 && Pow2(32) == 0x1_0000_0000
  {
    assert Pow2(4) == 16;
    assert Pow2(8) == 16 * Pow2(4);
    assert Pow2(12) == 16 * Pow2(8);
    assert Pow2(16) == 16 * Pow2(12);
    Pow2Sum(16, 16);
  }

  lemma {:induction false} Pow2Sum(m: nat, n: nat)
    ensures Pow2(m + n) == Pow2(m) * Pow2(n)
  {
    if m > 0 {
      Pow2Sum(m - 1, n);
      assert Pow2(m) * Pow2(n) == 2 * (Pow2(m - 1) * Pow2(n));
    }
  }

  /** Only the operands modulo 2^n matter. */
  lemma {:induction false} OnlyLowBits(f: (bool, bool) -> bool, x: int, k: int, y: int, l: int, n: nat)
    ensures Bitwise(f, x + k * Pow2(n), y + l * Pow2(n), n) == Bitwise(f, x, y, n)
    decreases n
  {
    if n > 0 {
      var p, q := k * Pow2(n - 1), l * Pow2(n - 1);
      assert k * Pow2(n) == 2 * p && l * Pow2(n) == 2 * q;
      assert (x + 2 * p) / 2 == x / 2 + p && (y + 2 * q) / 2 == y / 2 + q;
      OnlyLowBits(f, x / 2, k, y / 2, l, n - 1);
    }
  }

  lemma {:induction false} OrWithZero(y: nat, n: nat)
    requires y < Pow2(n)
    ensures Bitwise(OrBit, 0, y, n) == y
  {
    if n > 0 {
      OrWithZero(y / 2, n - 1);
    }
  }

  /** Or-ing two numbers with no bit in common adds them. */
  lemma {:induction false} OrDisjoint(a: nat, b: nat, k: nat, n: nat)
    requires k <= n && a < Pow2(k) && b < Pow2(n - k)
    ensures Bitwise(OrBit, a, b * Pow2(k), n) == a + b * Pow2(k)
  {
    if k == 0 {
      OrWithZero(b, n);
    } else {
      var c := b * Pow2(k - 1);
      assert b * Pow2(k) == 2 * c;
      OrDisjoint(a / 2, b, k - 1, n - 1);
    }
  }

  lemma {:induction false} AndWithOnes(x: int, n: nat)
    ensures Bitwise(AndBit, x, -1, n) == x % Pow2(n)
    decreases n
  {
    if n > 0 {
      AndWithOnes(x / 2, n - 1);
      DivModSplit(x, 2, Pow2(n - 1));
    } else {
      assert Pow2(0) == 1;
    }
  }

  lemma Regroup(x: int, d: int, p: int, q: int, r: int, s: int)
    requires x == d * (p * q + r) + s && 0 <= s < d && 0 <= r < p
    ensures x == (d * p) * q + (d * r + s)
    ensures 0 <= d * r + s < d * p
  {
    assert d * (p * q + r) == (d * p) * q + d * r;
    var t := p - 1 - r;
    assert d * p == d * r + d * t + d;
    assert d * t >= 0 && d * r >= 0;
  }

  /** Division by d * p in two steps. */
  lemma DivModSplit(x: int, d: int, p: int)
    requires d > 0 && p > 0
    ensures d * p > 0
    ensures x % (d * p) == x % d + d * ((x / d) % p)
    ensures x / (d * p) == (x / d) / p
  {
    var h := x / d;
    var q, r, s := h / p, h % p, x % d;
    Regroup(x, d, p, q, r, s);
    DivModUnique(x, d * p, q, d * r + s);
  }

  lemma DivModUnique(x: int, d: nat, q: int, r: nat)
    requires d > 0 && r < d && x == d * q + r
    ensures x % d == r && x / d == q
  {
    var q' := x / d;
    if q' != q {
      var m := q - q';
      assert d * m == d * q - d * q';
      AtLeastOnce(d, if m > 0 then m else -m);
    }
  }

  lemma ProductMonotone(p: int, q: int, d: int)
    requires p >= 0 && q <= d
    ensures p * q <= p * d
  {
    assert p * d == p * q + p * (d - q);
  }

  lemma QuotientBound(u: nat, p: int, q: int)
    requires p > 0 && q > 0 && u < p * q
    ensures 0 <= u / p < q && u / p <= u
  {
    var d := u / p;
    assert u == p * d + u % p;
    if d >= q {
      ProductMonotone(p, q, d);
      assert false;
    }
    ProductMonotone(d, 1, p);
  }

  lemma AtLeastOnce(d: int, m: int)
    requires d >= 0 && m >= 1
    ensures d * m >= d && d * (-m) <= -d
  {
    assert d * m == d * (m - 1) + d;
    assert d * (-m) == -(d * m);
  }

  lemma HalfResidues(x: int, p: int, q: int)
    requires p > 0 && q > 0
    ensures x % (2 * p) - x % (2 * q) == 2 * ((x / 2) % p - (x / 2) % q)
  {
    DivModSplit(x, 2, p);
    DivModSplit(x, 2, q);
  }

  lemma AndWithEven(x: int, m: int, n: nat)
    requires n > 0
    ensures Bitwise(AndBit, x, 2 * m, n) == 2 * Bitwise(AndBit, x / 2, m, n - 1)
  {
    assert (2 * m) / 2 == m && (2 * m) % 2 == 0;
  }

  /** Masking with -2^k clears the low k bits. */
  lemma {:induction false} AndClearsLow(x: int, k: nat, n: nat)
    requires k <= n
    ensures Bitwise(AndBit, x, 0 - Pow2(k), n) == x % Pow2(n) - x % Pow2(k)
    decreases n
  {
    hide Bitwise;
    if k == 0 {
      AndWithOnes(x, n);
      assert Pow2(0) == 1 && x % 1 == 0;
    } else {
      var p: int := Pow2(k - 1);
      AndWithEven(x, 0 - p, n);
      AndClearsLow(x / 2, k - 1, n - 1);
      HalfResidues(x, Pow2(n - 1), p);
    }
  }
}

/**
  The fragment of JavaScript number semantics that the SHA-256 code relies on.

  A number is modelled by the integer it holds: every value the code forms is an integer far below
  2^53 in magnitude, so double arithmetic on it is exact.  The bitwise operators read their operands
  modulo 2^32; all of them answer with a *signed* 32-bit value except `>>>`.
 */
module JsNumber {
  import opened Bits

  const TWO32: int := 0x1_0000_0000

  type uint32 = x: int | 0 <= x < 0x1_0000_0000

  /** `x >>> 0` */
  function ToUint32(x: int): uint32 {
    x % TWO32
  }

  /** The same 32 bits read as a signed number. */
  function ToInt32(x: int): int {
    var u := ToUint32(x);
    if u < 0x8000_0000 then u else u - TWO32
  }

  function And(x: int, y: int): int { ToInt32(Bitwise(AndBit, ToInt32(x), ToInt32(y), 32)) }

  function Or(x: int, y: int): int { ToInt32(Bitwise(OrBit, ToInt32(x), ToInt32(y), 32)) }

  function Xor(x: int, y: int): int { ToInt32(Bitwise(XorBit, ToInt32(x), ToInt32(y), 32)) }

  function Not(x: int): int { -ToInt32(x) - 1 }

  function Shl(x: int, n: nat): int
    requires n < 32
  {
    ToInt32(ToInt32(x) * Pow2(n))
  }

  /** `x >>> n`, the one operator with an unsigned answer. */
  function Ushr(x: int, n: nat): int
    requires n < 32
  {
    ToUint32(x) / Pow2(n)
  }

  /** A bitwise operator sees the residues of its operands, whatever sign they carry. */
  lemma BitwiseResidues(f: (bool, bool) -> bool, x: int, y: int)
    ensures Bitwise(f, ToInt32(x), ToInt32(y), 32) == Bitwise(f, ToUint32(x), ToUint32(y), 32)
    ensures Bitwise(f, ToUint32(x), ToUint32(y), 32) < TWO32
    ensures ToUint32(ToInt32(Bitwise(f, ToInt32(x), ToInt32(y), 32))) == Bitwise(f, ToUint32(x), ToUint32(y), 32)
  {
    hide Bitwise;
    Pow2Values();
    var k := if ToUint32(x) < 0x8000_0000 then 0 else -1;
    var l := if ToUint32(y) < 0x8000_0000 then 0 else -1;
    OnlyLowBits(f, ToUint32(x), k, ToUint32(y), l, 32);
  }

  lemma SignedResidue(x: int)
    ensures ToInt32(x) % 64 == ToUint32(x) % 64
    ensures ToInt32(x) % TWO32 == ToUint32(x)
  {
    var k := if ToUint32(x) < 0x8000_0000 then 0 else 1;
    assert ToInt32(x) == ToUint32(x) - 0x1_0000_0000 * k;
  }

  lemma MaskedBy(x: int, m: int, k: nat, n: nat)
    requires n == 32 && k <= n && ToInt32(m) == 0 - Pow2(k)
    ensures ToUint32(And(x, m)) == ToInt32(x) % Pow2(n) - ToInt32(x) % Pow2(k)
  {
    hide *;
    var z := Bitwise(AndBit, ToInt32(x), ToInt32(m), n);
    AndClearsLow(ToInt32(x), k, n);
    assert z == ToInt32(x) % Pow2(n) - ToInt32(x) % Pow2(k);
    BitwiseResidues(AndBit, x, m);
    AndIs(x, m);
  }

  lemma AndIs(x: int, y: int)
    ensures And(x, y) == ToInt32(Bitwise(AndBit, ToInt32(x), ToInt32(y), 32))
  {
    hide Bitwise;
  }

  /** `(x & ~63) >>> 0` rounds the residue of `x` down to a multiple of 64. */
  lemma MaskedTo64(x: nat)
    ensures ToUint32(And(x, Not(63))) == ToUint32(x) - ToUint32(x) % 64
  {
    Pow2Values();
    MaskedBy(x, Not(63), 6, 32);
    SignedResidue(x);
  }
}
