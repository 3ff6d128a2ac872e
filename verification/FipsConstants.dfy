/**
  Where the constants of FIPS 180-4 come from: sections 4.2.2 and 5.3.3 define them by the fractional parts of the cube
  and square roots of the first primes.
 */
module FipsConstants {
  import opened Bits
  import opened JsNumber
  import opened Fips180

  const P0: seq<nat> := [2, 3, 5, 7, 11, 13, 17, 19]
  const P1: seq<nat> := [23, 29, 31, 37, 41, 43, 47, 53]
  const P2: seq<nat> := [59, 61, 67, 71, 73, 79, 83, 89]
  const P3: seq<nat> := [97, 101, 103, 107, 109, 113, 127, 131]
  const P4: seq<nat> := [137, 139, 149, 151, 157, 163, 167, 173]
  const P5: seq<nat> := [179, 181, 191, 193, 197, 199, 211, 223]
  const P6: seq<nat> := [227, 229, 233, 239, 241, 251, 257, 263]
  const P7: seq<nat> := [269, 271, 277, 281, 283, 293, 307, 311]

  const PRIMES: seq<nat> := P0 + P1 + P2 + P3 + P4 + P5 + P6 + P7

  // The first 64 primes

  ghost predicate IsPrime(p: nat) {
    p >= 2 && forall d: nat :: 2 <= d < p ==> p % d != 0
  }

  /** Trial division by the primes up to 17. */
  predicate IsTrialPrime(p: nat) {
    && p >= 2
    && (p == 2 || p % 2 != 0) && (p == 3 || p % 3 != 0) && (p == 5 || p % 5 != 0) && (p == 7 || p % 7 != 0)
    && (p == 11 || p % 11 != 0) && (p == 13 || p % 13 != 0) && (p == 17 || p % 17 != 0)
  }

  lemma NotDivisible(p: nat, q: nat)
    requires IsPrime(p) && q >= 2
    ensures p == q || p % q != 0
  {
  }

  /** A composite number below 19 * 19 has a factor among those tried. */
  lemma TrialDivision(p: nat)
    requires p < 361
    ensures IsPrime(p) <==> IsTrialPrime(p)
  {
    if IsPrime(p) {
      NotDivisible(p, 2);
      NotDivisible(p, 3);
      NotDivisible(p, 5);
      NotDivisible(p, 7);
      NotDivisible(p, 11);
      NotDivisible(p, 13);
      NotDivisible(p, 17);
    } else if p >= 2 {
      hide IsTrialPrime;
      var d: nat :| 2 <= d < p && p % d == 0;
      CompositeFails(p, d, p / d);
    }
  }

  lemma CompositeFails(p: nat, d: nat, e: nat)
    requires p < 361 && p == d * e && 2 <= d < p
    ensures !IsTrialPrime(p)
  {
    hide IsTrialPrime;
    CofactorBounds(d, e);
    if d < 19 {
      SmallFactor(p, d, e);
    } else {
      SmallFactor(p, e, d);
    }
  }

  lemma CofactorBounds(d: nat, e: nat)
    requires 2 <= d < d * e < 361
    ensures e >= 2 && (d < 19 || e < 19)
  {
    if e < 2 {
      assert false;
    }
    if d >= 19 && e >= 19 {
      assert false by {
        Product(d, e);
      }
    }
  }

  lemma Product(d: nat, e: nat)
    requires d >= 19 && e >= 19
    ensures d * e >= 361
  {
    assert d * e == (d - 19) * (e - 19) + 19 * (d - 19) + 19 * (e - 19) + 361;
    assert (d - 19) * (e - 19) >= 0;
  }

  lemma SmallFactor(p: nat, d: nat, e: nat)
    requires p == d * e && 2 <= d < 19 && e >= 2
    ensures !IsTrialPrime(p)
  {
    var q := if d % 2 == 0 then 2 else if d % 3 == 0 then 3 else if d % 5 == 0 then 5 else if d % 7 == 0 then 7 else d;
    var c := d / q;
    assert d == q * c && q in {2, 3, 5, 7, 11, 13, 17};
    assert p == q * (c * e);
    assert c * e >= 2 by {
      assert c >= 1;
    }
    MultipleOf(p, q, c * e);
  }

  lemma MultipleOf(p: nat, q: nat, k: nat)
    requires p == q * k && k >= 2 && q in {2, 3, 5, 7, 11, 13, 17}
    ensures p % q == 0 && p != q
  {
    DivModUnique(p, q, k, 0);
    assert q * k >= q * 2;
  }

  ghost predicate IsNextPrime(p: nat, q: nat) {
    p < q && IsPrime(q) && forall m :: p < m < q ==> !IsPrime(m)
  }

  /** No number from `m` up to `q` passes. */
  predicate NoneUntil(m: nat, q: nat)
    decreases q - m
  {
    m >= q || (!IsTrialPrime(m) && NoneUntil(m + 1, q))
  }

  predicate Follows(p: nat, q: nat) {
    p < q < 361 && IsTrialPrime(q) && NoneUntil(p + 1, q)
  }

  lemma {:induction false} NoneUntilMeans(m: nat, q: nat, k: nat)
    requires NoneUntil(m, q) && m <= k < q
    ensures !IsTrialPrime(k)
    decreases q - m
  {
    hide IsTrialPrime;
    if m < k {
      NoneUntilMeans(m + 1, q, k);
    }
  }

  lemma FollowsMeans(p: nat, q: nat)
    requires Follows(p, q)
    ensures IsNextPrime(p, q)
  {
    hide IsTrialPrime, NoneUntil;
    TrialDivision(q);
    forall m | p < m < q
      ensures !IsPrime(m)
    {
      NoneUntilMeans(p + 1, q, m);
      TrialDivision(m);
    }
  }

  /** Each of the numbers of a row is the next prime after the one before. */
  predicate RowFollows(before: nat, row: seq<nat>)
    requires |row| == 8
  {
    && Follows(before, row[0]) && Follows(row[0], row[1]) && Follows(row[1], row[2]) && Follows(row[2], row[3])
    && Follows(row[3], row[4]) && Follows(row[4], row[5]) && Follows(row[5], row[6]) && Follows(row[6], row[7])
  }

  lemma Row0Follows()
    ensures RowFollows(1, P0)
  {
    assert Follows(1, 2);
    assert Follows(2, 3);
    assert Follows(3, 5);
    assert Follows(5, 7);
    assert Follows(7, 11);
    assert Follows(11, 13);
    assert Follows(13, 17);
    assert Follows(17, 19);
  }

  lemma Row1Follows()
    ensures RowFollows(19, P1)
  {
    assert Follows(19, 23);
    assert Follows(23, 29);
    assert Follows(29, 31);
    assert Follows(31, 37);
    assert Follows(37, 41);
    assert Follows(41, 43);
    assert Follows(43, 47);
    assert Follows(47, 53);
  }

  lemma Row2Follows()
    ensures RowFollows(53, P2)
  {
    assert Follows(53, 59);
    assert Follows(59, 61);
    assert Follows(61, 67);
    assert Follows(67, 71);
    assert Follows(71, 73);
    assert Follows(73, 79);
    assert Follows(79, 83);
    assert Follows(83, 89);
  }

  lemma Row3Follows()
    ensures RowFollows(89, P3)
  {
    assert Follows(89, 97);
    assert Follows(97, 101);
    assert Follows(101, 103);
    assert Follows(103, 107);
    assert Follows(107, 109);
    assert Follows(109, 113);
    assert Follows(113, 127);
    assert Follows(127, 131);
  }

  lemma Row4Follows()
    ensures RowFollows(131, P4)
  {
    assert Follows(131, 137);
    assert Follows(137, 139);
    assert Follows(139, 149);
    assert Follows(149, 151);
    assert Follows(151, 157);
    assert Follows(157, 163);
    assert Follows(163, 167);
    assert Follows(167, 173);
  }

  lemma Row5Follows()
    ensures RowFollows(173, P5)
  {
    assert Follows(173, 179);
    assert Follows(179, 181);
    assert Follows(181, 191);
    assert Follows(191, 193);
    assert Follows(193, 197);
    assert Follows(197, 199);
    assert Follows(199, 211);
    assert Follows(211, 223);
  }

  lemma Row6Follows()
    ensures RowFollows(223, P6)
  {
    assert Follows(223, 227);
    assert Follows(227, 229);
    assert Follows(229, 233);
    assert Follows(233, 239);
    assert Follows(239, 241);
    assert Follows(241, 251);
    assert Follows(251, 257);
    assert Follows(257, 263);
  }

  lemma Row7Follows()
    ensures RowFollows(263, P7)
  {
    assert Follows(263, 269);
    assert Follows(269, 271);
    assert Follows(271, 277);
    assert Follows(277, 281);
    assert Follows(281, 283);
    assert Follows(283, 293);
    assert Follows(293, 307);
    assert Follows(307, 311);
  }

  /** A table of eight rows of eight. */
  function RowOf<T>(a: seq<T>, b: seq<T>, c: seq<T>, d: seq<T>, e: seq<T>, f: seq<T>, g: seq<T>, h: seq<T>,
                    r: nat): seq<T> {
    if r == 0 then a else if r == 1 then b else if r == 2 then c else if r == 3 then d
    else if r == 4 then e else if r == 5 then f else if r == 6 then g else h
  }

  lemma EightRows<T>(a: seq<T>, b: seq<T>, c: seq<T>, d: seq<T>, e: seq<T>, f: seq<T>, g: seq<T>, h: seq<T>, t: nat)
    requires |a| == |b| == |c| == |d| == |e| == |f| == |g| == |h| == 8 && t < 64
    ensures |a + b + c + d + e + f + g + h| == 64
    ensures (a + b + c + d + e + f + g + h)[t] == RowOf(a, b, c, d, e, f, g, h, t / 8)[t % 8]
  {
  }

  function RowOfPrimes(r: nat): (row: seq<nat>)
    ensures |row| == 8
  {
    RowOf(P0, P1, P2, P3, P4, P5, P6, P7, r)
  }

  function RowOfConstants(r: nat): (row: seq<uint32>)
    ensures |row| == 8
  {
    RowOf(K0, K1, K2, K3, K4, K5, K6, K7, r)
  }

  lemma InRow(t: nat)
    requires t < 64
    ensures |PRIMES| == 64 && |K| == 64
    ensures PRIMES[t] == RowOfPrimes(t / 8)[t % 8] && K[t] == RowOfConstants(t / 8)[t % 8]
  {
    hide RowOf;
    EightRows(P0, P1, P2, P3, P4, P5, P6, P7, t);
    EightRows(K0, K1, K2, K3, K4, K5, K6, K7, t);
  }

  function LastBefore(r: nat): nat {
    if r == 0 then 1 else RowOfPrimes(r - 1)[7]
  }

  lemma RowsFollow(r: nat)
    requires r < 8
    ensures RowFollows(LastBefore(r), RowOfPrimes(r))
  {
    hide Follows;
    Row0Follows();
    Row1Follows();
    Row2Follows();
    Row3Follows();
    Row4Follows();
    Row5Follows();
    Row6Follows();
    Row7Follows();
  }

  lemma PlaceFollows(before: nat, row: seq<nat>, j: nat)
    requires |row| == 8 && j < 8 && RowFollows(before, row)
    ensures Follows(if j == 0 then before else row[j - 1], row[j])
  {
    hide Follows;
  }

  /** `PRIMES` are the first 64 primes: 2, and then each the next one after the one before. */
  lemma FirstPrimes(t: nat)
    requires t < 64
    ensures |PRIMES| == 64 && IsPrime(PRIMES[t])
    ensures if t == 0 then PRIMES[t] == 2 else IsNextPrime(PRIMES[t - 1], PRIMES[t])
  {
    hide IsPrime, Follows, RowFollows, RowOfPrimes, RowOfConstants;
    InRow(t);
    RowsFollow(t / 8);
    PlaceFollows(LastBefore(t / 8), RowOfPrimes(t / 8), t % 8);
    Before(t);
    FollowsMeans(if t == 0 then 1 else PRIMES[t - 1], PRIMES[t]);
    if t == 0 {
      FirstIsTwo();
    }
  }

  lemma FirstIsTwo()
    ensures |PRIMES| == 64 && PRIMES[0] == 2
  {
    InRow(0);
  }

  lemma Places(t: nat)
    requires 0 < t < 64
    ensures t % 8 == 0 ==> (t - 1) / 8 == t / 8 - 1 && (t - 1) % 8 == 7
    ensures t % 8 != 0 ==> (t - 1) / 8 == t / 8 && (t - 1) % 8 == t % 8 - 1
  {
  }

  lemma Before(t: nat)
    requires t < 64
    ensures |PRIMES| == 64
    ensures (if t % 8 == 0 then LastBefore(t / 8) else RowOfPrimes(t / 8)[t % 8 - 1])
            == if t == 0 then 1 else PRIMES[t - 1]
  {
    hide RowOfPrimes, RowOfConstants, LastBefore;
    if t == 0 {
      InRow(0);
      FirstLast();
    } else {
      Places(t);
      InRow(t - 1);
      if t % 8 == 0 {
        LastOf(t / 8);
      }
    }
  }

  lemma FirstLast()
    ensures LastBefore(0) == 1
  {
  }

  lemma LastOf(r: nat)
    requires r > 0
    ensures LastBefore(r) == RowOfPrimes(r - 1)[7]
  {
    hide RowOfPrimes;
  }

  // Section 4.2.2: fractional parts of cube roots

  function Cube(x: int): int { x * x * x }

  function Square(x: int): int { x * x }

  /** `w` is the first 32 bits of the fractional part of the cube root of `p`, whose integer part is `n`. */
  predicate IsCubeFraction(n: nat, p: nat, w: uint32) {
    && Cube(n) <= p < Cube(n + 1)
    && Cube(n * TWO32 + w) <= p * Cube(TWO32) < Cube(n * TWO32 + w + 1)
  }

  function CubeRoot(p: nat): nat {
    if p < 8 then 1 else if p < 27 then 2 else if p < 64 then 3 else if p < 125 then 4 else if p < 216 then 5 else 6
  }

  predicate RowIsFractions(ps: seq<nat>, ks: seq<uint32>)
    requires |ps| == |ks| == 8
  {
    && IsCubeFraction(CubeRoot(ps[0]), ps[0], ks[0])
    && IsCubeFraction(CubeRoot(ps[1]), ps[1], ks[1])
    && IsCubeFraction(CubeRoot(ps[2]), ps[2], ks[2])
    && IsCubeFraction(CubeRoot(ps[3]), ps[3], ks[3])
    && IsCubeFraction(CubeRoot(ps[4]), ps[4], ks[4])
    && IsCubeFraction(CubeRoot(ps[5]), ps[5], ks[5])
    && IsCubeFraction(CubeRoot(ps[6]), ps[6], ks[6])
    && IsCubeFraction(CubeRoot(ps[7]), ps[7], ks[7])
  }

  lemma Row0IsFractions()
    ensures RowIsFractions(P0, K0)
  {
    assert IsCubeFraction(1, 2, 0x428a2f98);
    assert IsCubeFraction(1, 3, 0x71374491);
    assert IsCubeFraction(1, 5, 0xb5c0fbcf);
    assert IsCubeFraction(1, 7, 0xe9b5dba5);
    assert IsCubeFraction(2, 11, 0x3956c25b);
    assert IsCubeFraction(2, 13, 0x59f111f1);
    assert IsCubeFraction(2, 17, 0x923f82a4);
    assert IsCubeFraction(2, 19, 0xab1c5ed5);
    hide IsCubeFraction;
  }

  lemma Row1IsFractions()
    ensures RowIsFractions(P1, K1)
  {
    assert IsCubeFraction(2, 23, 0xd807aa98);
    assert IsCubeFraction(3, 29, 0x12835b01);
    assert IsCubeFraction(3, 31, 0x243185be);
    assert IsCubeFraction(3, 37, 0x550c7dc3);
    assert IsCubeFraction(3, 41, 0x72be5d74);
    assert IsCubeFraction(3, 43, 0x80deb1fe);
    assert IsCubeFraction(3, 47, 0x9bdc06a7);
    assert IsCubeFraction(3, 53, 0xc19bf174);
    hide IsCubeFraction;
  }

  lemma Row2IsFractions()
    ensures RowIsFractions(P2, K2)
  {
    assert IsCubeFraction(3, 59, 0xe49b69c1);
    assert IsCubeFraction(3, 61, 0xefbe4786);
    assert IsCubeFraction(4, 67, 0x0fc19dc6);
    assert IsCubeFraction(4, 71, 0x240ca1cc);
    assert IsCubeFraction(4, 73, 0x2de92c6f);
    assert IsCubeFraction(4, 79, 0x4a7484aa);
    assert IsCubeFraction(4, 83, 0x5cb0a9dc);
    assert IsCubeFraction(4, 89, 0x76f988da);
    hide IsCubeFraction;
  }

  lemma Row3IsFractions()
    ensures RowIsFractions(P3, K3)
  {
    assert IsCubeFraction(4, 97, 0x983e5152);
    assert IsCubeFraction(4, 101, 0xa831c66d);
    assert IsCubeFraction(4, 103, 0xb00327c8);
    assert IsCubeFraction(4, 107, 0xbf597fc7);
    assert IsCubeFraction(4, 109, 0xc6e00bf3);
    assert IsCubeFraction(4, 113, 0xd5a79147);
    assert IsCubeFraction(5, 127, 0x06ca6351);
    assert IsCubeFraction(5, 131, 0x14292967);
    hide IsCubeFraction;
  }

  lemma Row4IsFractions()
    ensures RowIsFractions(P4, K4)
  {
    assert IsCubeFraction(5, 137, 0x27b70a85);
    assert IsCubeFraction(5, 139, 0x2e1b2138);
    assert IsCubeFraction(5, 149, 0x4d2c6dfc);
    assert IsCubeFraction(5, 151, 0x53380d13);
    assert IsCubeFraction(5, 157, 0x650a7354);
    assert IsCubeFraction(5, 163, 0x766a0abb);
    assert IsCubeFraction(5, 167, 0x81c2c92e);
    assert IsCubeFraction(5, 173, 0x92722c85);
    hide IsCubeFraction;
  }

  lemma Row5IsFractions()
    ensures RowIsFractions(P5, K5)
  {
    assert IsCubeFraction(5, 179, 0xa2bfe8a1);
    assert IsCubeFraction(5, 181, 0xa81a664b);
    assert IsCubeFraction(5, 191, 0xc24b8b70);
    assert IsCubeFraction(5, 193, 0xc76c51a3);
    assert IsCubeFraction(5, 197, 0xd192e819);
    assert IsCubeFraction(5, 199, 0xd6990624);
    assert IsCubeFraction(5, 211, 0xf40e3585);
    assert IsCubeFraction(6, 223, 0x106aa070);
    hide IsCubeFraction;
  }

  lemma Row6IsFractions()
    ensures RowIsFractions(P6, K6)
  {
    assert IsCubeFraction(6, 227, 0x19a4c116);
    assert IsCubeFraction(6, 229, 0x1e376c08);
    assert IsCubeFraction(6, 233, 0x2748774c);
    assert IsCubeFraction(6, 239, 0x34b0bcb5);
    assert IsCubeFraction(6, 241, 0x391c0cb3);
    assert IsCubeFraction(6, 251, 0x4ed8aa4a);
    assert IsCubeFraction(6, 257, 0x5b9cca4f);
    assert IsCubeFraction(6, 263, 0x682e6ff3);
    hide IsCubeFraction;
  }

  lemma Row7IsFractions()
    ensures RowIsFractions(P7, K7)
  {
    assert IsCubeFraction(6, 269, 0x748f82ee);
    assert IsCubeFraction(6, 271, 0x78a5636f);
    assert IsCubeFraction(6, 277, 0x84c87814);
    assert IsCubeFraction(6, 281, 0x8cc70208);
    assert IsCubeFraction(6, 283, 0x90befffa);
    assert IsCubeFraction(6, 293, 0xa4506ceb);
    assert IsCubeFraction(6, 307, 0xbef9a3f7);
    assert IsCubeFraction(6, 311, 0xc67178f2);
    hide IsCubeFraction;
  }

  lemma RowsAreFractions(r: nat)
    requires r < 8
    ensures RowIsFractions(RowOfPrimes(r), RowOfConstants(r))
  {
    hide IsCubeFraction, RowIsFractions;
    Row0IsFractions();
    Row1IsFractions();
    Row2IsFractions();
    Row3IsFractions();
    Row4IsFractions();
    Row5IsFractions();
    Row6IsFractions();
    Row7IsFractions();
  }

  lemma PlaceIsFraction(ps: seq<nat>, ks: seq<uint32>, j: nat)
    requires |ps| == |ks| == 8 && j < 8 && RowIsFractions(ps, ks)
    ensures IsCubeFraction(CubeRoot(ps[j]), ps[j], ks[j])
  {
    hide IsCubeFraction;
  }

  /** Every round constant is the first 32 bits of the fractional part of the cube root of its prime. */
  lemma RoundConstants(t: nat) returns (n: nat)
    requires t < 64
    ensures |K| == 64 && |PRIMES| == 64
    ensures n * n * n <= PRIMES[t] < (n + 1) * (n + 1) * (n + 1)
    ensures Cube(n * TWO32 + K[t]) <= PRIMES[t] * Cube(TWO32) < Cube(n * TWO32 + K[t] + 1)
  {
    hide RowIsFractions;
    InRow(t);
    RowsAreFractions(t / 8);
    PlaceIsFraction(RowOfPrimes(t / 8), RowOfConstants(t / 8), t % 8);
    n := CubeRoot(PRIMES[t]);
  }

  // Section 5.3.3: fractional parts of square roots

  predicate IsSquareFraction(n: nat, p: nat, w: uint32) {
    && Square(n) <= p < Square(n + 1)
    && Square(n * TWO32 + w) <= p * Square(TWO32) < Square(n * TWO32 + w + 1)
  }

  function Words(r: Registers): (s: seq<uint32>)
    ensures |s| == 8
  {
    [r.a, r.b, r.c, r.d, r.e, r.f, r.g, r.h]
  }

  function SquareRoot(p: nat): nat {
    if p < 4 then 1 else if p < 9 then 2 else if p < 16 then 3 else 4
  }

  /** Every word of the initial hash value: the first 32 bits of the fractional part of its prime's square root. */
  lemma InitialHash(t: nat) returns (n: nat)
    requires t < 8
    ensures |PRIMES| == 64
    ensures n * n <= PRIMES[t] < (n + 1) * (n + 1)
    ensures Square(n * TWO32 + Words(H0)[t]) <= PRIMES[t] * Square(TWO32) < Square(n * TWO32 + Words(H0)[t] + 1)
  {
    InRow(t);
    assert IsSquareFraction(1, 2, 0x6a09e667);
    assert IsSquareFraction(1, 3, 0xbb67ae85);
    assert IsSquareFraction(2, 5, 0x3c6ef372);
    assert IsSquareFraction(2, 7, 0xa54ff53a);
    assert IsSquareFraction(3, 11, 0x510e527f);
    assert IsSquareFraction(3, 13, 0x9b05688c);
    assert IsSquareFraction(4, 17, 0x1f83d9ab);
    assert IsSquareFraction(4, 19, 0x5be0cd19);
    n := SquareRoot(PRIMES[t]);
    assert IsSquareFraction(n, PRIMES[t], Words(H0)[t]);
  }
}
