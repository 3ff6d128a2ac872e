/**
  `sha256Pure`: SHA-256 computed in place, with signed and unsigned intermediate values.
 */
module Sha256 {
  import opened Basics
  import opened Bits
  import opened JsNumber
  import opened Fips180

  datatype Result<+T> = Ok(value: T) | RangeError

  // The one-line word functions of the program, on JavaScript numbers.

  function Rotr(n: nat, x: int): int
    requires 0 < n < 32
  {
    Or(Ushr(x, n), Shl(x, 32 - n))
  }

  function JsCh(x: int, y: int, z: int): int { Xor(And(x, y), And(Not(x), z)) }

  function JsMaj(x: int, y: int, z: int): int { Xor(Xor(And(x, y), And(x, z)), And(y, z)) }

  function S0(x: int): int { Xor(Xor(Rotr(2, x), Rotr(13, x)), Rotr(22, x)) }

  function S1(x: int): int { Xor(Xor(Rotr(6, x), Rotr(11, x)), Rotr(25, x)) }

  function G0(x: int): int { Xor(Xor(Rotr(7, x), Rotr(18, x)), Ushr(x, 3)) }

  function G1(x: int): int { Xor(Xor(Rotr(17, x), Rotr(19, x)), Ushr(x, 10)) }

  // Each of them, reduced by `>>> 0`, is the function of section 4.1.2.

  lemma XorAgrees(x: int, y: int)
    ensures ToUint32(Xor(x, y)) == XorW(ToUint32(x), ToUint32(y))
    ensures 0 <= XorW(ToUint32(x), ToUint32(y)) < TWO32
  {
    BitwiseResidues(XorBit, x, y);
  }

  lemma AndAgrees(x: int, y: int)
    ensures ToUint32(And(x, y)) == AndW(ToUint32(x), ToUint32(y))
    ensures 0 <= AndW(ToUint32(x), ToUint32(y)) < TWO32
  {
    BitwiseResidues(AndBit, x, y);
  }

  lemma NotAgrees(x: int)
    ensures ToUint32(Not(x)) == NotW(ToUint32(x))
  {
  }

  /** (u * q) mod (p * q) == (u mod p) * q */
  lemma ScaledResidue(u: int, p: int, q: int)
    requires p > 0 && q > 0
    ensures p * q > 0 && (u * q) % (p * q) == (u % p) * q
  {
    var d, r := u / p, u % p;
    assert u == p * d + r;
    assert u * q == (p * q) * d + r * q;
    assert r * q < p * q;
    DivModUnique(u * q, p * q, d, r * q);
  }

  lemma ShlAgrees(x: int, n: nat)
    requires n < 32
    ensures ToUint32(Shl(x, n)) == (ToUint32(x) % Pow2(32 - n)) * Pow2(n)
  {
    var u, p, q := ToUint32(x), Pow2(32 - n), Pow2(n);
    Pow2Values();
    Pow2Sum(32 - n, n);
    SignedScale(x, q);
    ScaledResidue(u, p, q);
  }

  lemma AddMultiple(a: int, m: int)
    ensures ToUint32(a + TWO32 * m) == ToUint32(a)
  {
    var r := a % TWO32;
    DivModUnique(a + TWO32 * m, TWO32, a / TWO32 + m, r);
  }

  lemma SignedScale(x: int, q: int)
    ensures ToUint32(ToInt32(ToInt32(x) * q)) == ToUint32(ToUint32(x) * q)
  {
    var u, s := ToUint32(x), ToInt32(x);
    SignedResidue(s * q);
    if s != u {
      assert s * q == u * q - TWO32 * q;
      AddMultiple(u * q, -q);
    }
  }

  /** u rotated right by n, from its high part and its low n bits. */
  lemma SplitAt(u: uint32, n: nat)
    requires 0 < n < 32
    ensures 0 <= u / Pow2(n) < Pow2(32 - n) && 0 <= u / Pow2(n) <= u
    ensures 0 <= u % Pow2(n) < Pow2(n)
    ensures Bitwise(OrBit, u / Pow2(n), (u % Pow2(n)) * Pow2(32 - n), 32) == RotR(n, u)
    ensures 0 <= RotR(n, u) < TWO32
  {
    Pow2Values();
    Pow2Sum(n, 32 - n);
    QuotientBound(u, Pow2(n), Pow2(32 - n));
    OrDisjoint(u / Pow2(n), u % Pow2(n), 32 - n, 32);
  }

  lemma RotrAgrees(n: nat, x: int)
    requires 0 < n < 32
    ensures ToUint32(Rotr(n, x)) == RotR(n, ToUint32(x))
    ensures 0 <= RotR(n, ToUint32(x)) < TWO32
  {
    var u, hi, lo := ToUint32(x), Ushr(x, n), Shl(x, 32 - n);
    ShrAgrees(n, x);
    ShlAgrees(x, 32 - n);
    OrOfShifts(hi, lo, u, n);
  }

  lemma OrOfShifts(hi: int, lo: int, u: uint32, n: nat)
    requires 0 < n < 32
    requires ToUint32(hi) == u / Pow2(n) && ToUint32(lo) == (u % Pow2(n)) * Pow2(32 - n)
    ensures ToUint32(Or(hi, lo)) == RotR(n, u)
    ensures 0 <= RotR(n, u) < TWO32
  {
    SplitAt(u, n);
    BitwiseResidues(OrBit, hi, lo);
  }

  lemma ShrAgrees(n: nat, x: int)
    requires 0 < n < 32
    ensures ToUint32(Ushr(x, n)) == ShR(n, ToUint32(x))
    ensures 0 <= ShR(n, ToUint32(x)) < TWO32
  {
    Pow2Values();
    Pow2Sum(n, 32 - n);
    QuotientBound(ToUint32(x), Pow2(n), Pow2(32 - n));
  }

  lemma ThreeXors(x: int, y: int, z: int)
    ensures ToUint32(Xor(Xor(x, y), z)) == XorW(XorW(ToUint32(x), ToUint32(y)), ToUint32(z))
    ensures 0 <= XorW(XorW(ToUint32(x), ToUint32(y)), ToUint32(z)) < TWO32
  {
    XorAgrees(x, y);
    XorAgrees(Xor(x, y), z);
  }

  lemma S0Agrees(x: int)
    ensures ToUint32(S0(x)) == BigSigma0(ToUint32(x))
  {
    RotrAgrees(2, x);
    RotrAgrees(13, x);
    RotrAgrees(22, x);
    ThreeXors(Rotr(2, x), Rotr(13, x), Rotr(22, x));
  }

  lemma S1Agrees(x: int)
    ensures ToUint32(S1(x)) == BigSigma1(ToUint32(x))
  {
    RotrAgrees(6, x);
    RotrAgrees(11, x);
    RotrAgrees(25, x);
    ThreeXors(Rotr(6, x), Rotr(11, x), Rotr(25, x));
  }

  lemma G0Agrees(x: int)
    ensures ToUint32(G0(x)) == SmallSigma0(ToUint32(x))
  {
    RotrAgrees(7, x);
    RotrAgrees(18, x);
    ShrAgrees(3, x);
    ThreeXors(Rotr(7, x), Rotr(18, x), Ushr(x, 3));
  }

  lemma G1Agrees(x: int)
    ensures ToUint32(G1(x)) == SmallSigma1(ToUint32(x))
  {
    RotrAgrees(17, x);
    RotrAgrees(19, x);
    ShrAgrees(10, x);
    ThreeXors(Rotr(17, x), Rotr(19, x), Ushr(x, 10));
  }

  lemma ChAgrees(x: int, y: int, z: int)
    ensures ToUint32(JsCh(x, y, z)) == Ch(ToUint32(x), ToUint32(y), ToUint32(z))
  {
    AndAgrees(x, y);
    NotAgrees(x);
    AndAgrees(Not(x), z);
    XorAgrees(And(x, y), And(Not(x), z));
  }

  lemma MajAgrees(x: int, y: int, z: int)
    ensures ToUint32(JsMaj(x, y, z)) == Maj(ToUint32(x), ToUint32(y), ToUint32(z))
  {
    AndAgrees(x, y);
    AndAgrees(x, z);
    AndAgrees(y, z);
    ThreeXors(And(x, y), And(x, z), And(y, z));
  }

  // Padding

  /** What the program lays out: only the low 32 bits of the length reach the buffer. */
  ghost function PaddedBuffer(message: seq<byte>): seq<byte> {
    var len := |message|;
    message + [0x80] + Zeros(67 - (len + 72) % 64) + BigEndian(ToUint32(8 * len), 4)
  }

  method SetUint32(view: array<byte>, i: nat, value: int)
    requires i + 4 <= view.Length
    modifies view
    ensures view[i + 4..] == old(view[i + 4..])
    ensures view[..i + 4] == old(view[..i]) + BigEndian(ToUint32(value), 4)
  {
    var v := ToUint32(value);
    view[i], view[i + 1], view[i + 2], view[i + 3] := v / 0x100_0000, v / 0x1_0000 % 256, v / 256 % 256, v % 256;
    FourBytes(v);
  }

  lemma FourBytes(v: uint32)
    ensures BigEndian(v, 4) == [v / 0x100_0000, v / 0x1_0000 % 256, v / 256 % 256, v % 256]
  {
    var b, c := v / 256, v / 256 / 256;
    assert BigEndian(c / 256, 1) == BigEndian(c / 256 / 256, 0) + [c / 256 % 256];
    assert BigEndian(c, 2) == BigEndian(c / 256, 1) + [c % 256];
    assert BigEndian(b, 3) == BigEndian(c, 2) + [b % 256];
  }

  lemma RoundedDown(x: nat, r: int)
    requires r == ToUint32(x) - ToUint32(x) % 64
    ensures x < TWO32 ==> r == x - x % 64
    ensures x >= TWO32 ==> r <= x - TWO32
  {
    if x >= TWO32 {
      ProductMonotone(TWO32, 1, x / TWO32);
    }
  }

  method MakePaddedBuffer(data: array<byte>) returns (buf: Result<array<byte>>)
    ensures buf.Ok? <==> data.Length + 72 < TWO32
    ensures buf.Ok? ==> buf.value[..] == PaddedBuffer(data[..])
  {
    hide And, Not, BigEndian;
    var len := data.Length;
    var bitLen := len * 8;
    var padLen := ToUint32(And(len + 9 + 63, Not(63)));
    MaskedTo64(len + 9 + 63);
    RoundedDown(len + 9 + 63, padLen);
    if padLen < len {
      return RangeError;
    }
    var bytes := CopyAndMark(data, padLen);
    SetUint32(bytes, padLen - 4, bitLen);
    assert bytes[..] == bytes[..padLen];
    assert bytes[..] == PaddedBuffer(data[..]);
    return Ok(bytes);
  }

  method CopyAndMark(data: array<byte>, padLen: nat) returns (bytes: array<byte>)
    requires data.Length + 5 <= padLen
    ensures bytes.Length == padLen && fresh(bytes)
    ensures bytes[..padLen - 4] == (data[..] + [0x80]) + Zeros(padLen - data.Length - 5)
  {
    bytes := new byte[padLen](_ => 0);
    forall j | 0 <= j < data.Length {
      bytes[j] := data[j];
    }
    bytes[data.Length] := 0x80;
  }

  // Compression

  /** Reducing a sum once at the end is the same as reducing its signed terms first. */
  lemma ReducedSum(x: int, y: int, rest: int)
    ensures ToUint32(x + y + rest) == ToUint32(ToUint32(x) + ToUint32(y) + rest)
  {
    AddMultiple(ToUint32(x) + ToUint32(y) + rest, x / TWO32 + y / TWO32);
  }

  /** The sum the program forms for w[t], from words that already agree with the schedule. */
  lemma ScheduleAgrees(m: Block, t: nat, w2: uint32, w7: uint32, w15: uint32, w16: uint32)
    requires 16 <= t && w2 == Schedule(m, t - 2) && w7 == Schedule(m, t - 7)
    requires w15 == Schedule(m, t - 15) && w16 == Schedule(m, t - 16)
    ensures ToUint32(G1(w2) + w7 + G0(w15) + w16) == Schedule(m, t)
  {
    hide G0, G1, SmallSigma0, SmallSigma1;
    G1Agrees(w2);
    G0Agrees(w15);
    ReducedSum(G1(w2), G0(w15), w7 + w16);
  }

  lemma FirstWords(m: Block, t: nat)
    requires t < 16
    ensures Schedule(m, t) == m[t]
  {
  }

  method FillSchedule(buf: array<byte>, i: nat, w: array<uint32>)
    requires i + 64 <= buf.Length && w.Length == 64
    modifies w
    ensures forall t: nat :: t < 64 ==> w[t] == Schedule(BlockAt(buf[..], i), t)
  {
    hide G0, G1, Schedule, ToUint32, WordAt;
    ghost var m := BlockAt(buf[..], i);
    for j := 0 to 16
      invariant forall t: nat :: t < j ==> w[t] == Schedule(m, t)
    {
      w[j] := WordAt(buf[..], i + 4 * j);
      FirstWords(m, j);
    }
    for j := 16 to 64
      invariant forall t: nat :: t < j ==> w[t] == Schedule(m, t)
    {
      ScheduleAgrees(m, j, w[j - 2], w[j - 7], w[j - 15], w[j - 16]);
      w[j] := ToUint32(G1(w[j - 2]) + w[j - 7] + G0(w[j - 15]) + w[j - 16]);
    }
  }

  lemma T1Agrees(r: Registers, k: uint32, w: uint32)
    ensures ToUint32(r.h + S1(r.e) + JsCh(r.e, r.f, r.g) + k + w)
         == ToUint32(r.h + BigSigma1(r.e) + Ch(r.e, r.f, r.g) + k + w)
  {
    hide S1, JsCh, BigSigma1, Ch;
    S1Agrees(r.e);
    ChAgrees(r.e, r.f, r.g);
    ReducedSum(S1(r.e), JsCh(r.e, r.f, r.g), r.h + k + w);
  }

  lemma T2Agrees(r: Registers)
    ensures ToUint32(S0(r.a) + JsMaj(r.a, r.b, r.c)) == ToUint32(BigSigma0(r.a) + Maj(r.a, r.b, r.c))
  {
    hide S0, JsMaj, BigSigma0, Maj;
    S0Agrees(r.a);
    MajAgrees(r.a, r.b, r.c);
    ReducedSum(S0(r.a), JsMaj(r.a, r.b, r.c), 0);
  }

  /** One turn of the eight registers, from the two temporaries already reduced. */
  lemma RoundAgrees(r: Registers, k: uint32, w: uint32, t1: uint32, t2: uint32)
    requires t1 == ToUint32(r.h + S1(r.e) + JsCh(r.e, r.f, r.g) + k + w)
    requires t2 == ToUint32(S0(r.a) + JsMaj(r.a, r.b, r.c))
    ensures Registers(ToUint32(t1 as int + t2), r.a, r.b, r.c, ToUint32(r.d as int + t1), r.e, r.f, r.g)
         == Round(r, k, w)
  {
    hide S0, S1, JsCh, JsMaj, BigSigma0, BigSigma1, Ch, Maj;
    T1Agrees(r, k, w);
    T2Agrees(r);
    var u := r.h + BigSigma1(r.e) + Ch(r.e, r.f, r.g) + k + w;
    var v := BigSigma0(r.a) + Maj(r.a, r.b, r.c);
    AddMultiple(r.d as int + t1, u / TWO32);
    AddMultiple(t1 as int + t2, u / TWO32 + v / TWO32);
  }

  method CompressBlock(hash: Registers, ghost m: Block, w: array<uint32>) returns (next: Registers)
    requires w.Length == 64 && forall t: nat :: t < 64 ==> w[t] == Schedule(m, t)
    ensures next == Compress(hash, m)
  {
    hide S0, S1, JsCh, JsMaj, Round, Schedule, ToUint32, Compress;
    var a: uint32, b: uint32, c: uint32, d: uint32 := hash.a, hash.b, hash.c, hash.d;
    var e: uint32, f: uint32, g: uint32, h: uint32 := hash.e, hash.f, hash.g, hash.h;
    for j := 0 to 64
      invariant Registers(a, b, c, d, e, f, g, h) == Rounds(hash, m, j)
    {
      var t1 := ToUint32(h + S1(e) + JsCh(e, f, g) + K[j] + w[j]);
      var t2 := ToUint32(S0(a) + JsMaj(a, b, c));
      RoundAgrees(Registers(a, b, c, d, e, f, g, h), K[j], w[j], t1, t2);
      h := g;
      g := f;
      f := e;
      e := ToUint32(d as int + t1);
      d := c;
      c := b;
      b := a;
      a := ToUint32(t1 as int + t2);
    }
    next := Registers(ToUint32(hash.a as int + a), ToUint32(hash.b as int + b),
                      ToUint32(hash.c as int + c), ToUint32(hash.d as int + d),
                      ToUint32(hash.e as int + e), ToUint32(hash.f as int + f),
                      ToUint32(hash.g as int + g), ToUint32(hash.h as int + h));
    Chained(hash, m, Registers(a, b, c, d, e, f, g, h));
  }

  lemma Chained(hash: Registers, m: Block, r: Registers)
    requires r == Rounds(hash, m, 64)
    ensures Compress(hash, m) ==
            Registers(ToUint32(hash.a as int + r.a), ToUint32(hash.b as int + r.b),
                      ToUint32(hash.c as int + r.c), ToUint32(hash.d as int + r.d),
                      ToUint32(hash.e as int + r.e), ToUint32(hash.f as int + r.f),
                      ToUint32(hash.g as int + r.g), ToUint32(hash.h as int + r.h))
  {
    hide Rounds;
  }

  method HashBuffer(buf: array<byte>) returns (hash: Registers)
    requires buf.Length % 64 == 0
    ensures hash == HashBlocks(buf[..], buf.Length / 64)
  {
    hide Compress, BlockAt;
    hash := H0;
    var w := new uint32[64](_ => 0);
    var i := 0;
    while i < buf.Length
      invariant i % 64 == 0 && i <= buf.Length
      invariant hash == HashBlocks(buf[..], i / 64)
    {
      FillSchedule(buf, i, w);
      hash := CompressBlock(hash, BlockAt(buf[..], i), w);
      i := i + 64;
    }
  }

  /** Half of the words of a digest. */
  function FourWords(a: uint32, b: uint32, c: uint32, d: uint32): seq<byte> {
    BigEndian(a, 4) + BigEndian(b, 4) + BigEndian(c, 4) + BigEndian(d, 4)
  }

  method WriteHalf(out: array<byte>, i: nat, a: uint32, b: uint32, c: uint32, d: uint32)
    requires i + 16 <= out.Length
    modifies out
    ensures out[..i + 16] == old(out[..i]) + FourWords(a, b, c, d)
  {
    hide BigEndian;
    ghost var front := out[..i];
    SetUint32(out, i, a);
    assert out[..i + 4] == front + BigEndian(a, 4);
    SetUint32(out, i + 4, b);
    assert out[..i + 8] == front + (BigEndian(a, 4) + BigEndian(b, 4));
    SetUint32(out, i + 8, c);
    assert out[..i + 12] == front + (BigEndian(a, 4) + BigEndian(b, 4) + BigEndian(c, 4));
    SetUint32(out, i + 12, d);
  }

  lemma TwoHalves(r: Registers)
    ensures DigestBytes(r) == FourWords(r.a, r.b, r.c, r.d) + FourWords(r.e, r.f, r.g, r.h)
  {
    hide BigEndian;
  }

  method WriteDigest(hash: Registers) returns (out: array<byte>)
    ensures out[..] == DigestBytes(hash)
  {
    hide DigestBytes, FourWords;
    out := new byte[32](_ => 0);
    WriteHalf(out, 0, hash.a, hash.b, hash.c, hash.d);
    assert out[..16] == FourWords(hash.a, hash.b, hash.c, hash.d);
    WriteHalf(out, 16, hash.e, hash.f, hash.g, hash.h);
    TwoHalves(hash);
    assert out[..] == out[..32];
  }

  method Sha256Pure(data: array<byte>) returns (digest: Result<array<byte>>)
    ensures digest.Ok? <==> data.Length + 72 < TWO32
    ensures data.Length < 0x2000_0000 ==> digest.Ok? && digest.value[..] == Digest(data[..])
    ensures digest.Ok? ==>
              var buf := PaddedBuffer(data[..]);
              digest.value[..] == DigestBytes(HashBlocks(buf, |buf| / 64))
  {
    var buf := MakePaddedBuffer(data);
    if buf.RangeError? {
      return RangeError;
    }
    PaddingIsStandard(data[..]);
    PaddedLayout(data[..]);
    var hash := HashBuffer(buf.value);
    var out := WriteDigest(hash);
    return Ok(out);
  }

  // What the padding means

  lemma {:induction false} BigEndianInjective(x: nat, y: nat, n: nat)
    requires x < Pow2(8 * n) && y < Pow2(8 * n) && BigEndian(x, n) == BigEndian(y, n)
    ensures x == y
    decreases n
  {
    if n > 0 {
      Pow2Byte(n);
      var s, t := BigEndian(x, n), BigEndian(y, n);
      assert s[..n - 1] == BigEndian(x / 256, n - 1) && t[..n - 1] == BigEndian(y / 256, n - 1);
      assert s[n - 1] == x % 256 && t[n - 1] == y % 256;
      BigEndianInjective(x / 256, y / 256, n - 1);
    }
  }

  lemma {:induction false} BigEndianOfZero(n: nat)
    ensures BigEndian(0, n) == Zeros(n)
  {
    if n > 0 {
      BigEndianOfZero(n - 1);
    }
  }

  lemma Pow2Byte(n: nat)
    requires n > 0
    ensures Pow2(8 * n) == 256 * Pow2(8 * (n - 1))
  {
    Pow2Values();
    Pow2Sum(8, 8 * (n - 1));
  }

  lemma CarryOut(x: nat, p: int, hi: nat, lo: nat)
    requires x == (256 * p) * hi + lo && lo < 256 * p
    ensures x / 256 == p * hi + lo / 256 && x % 256 == lo % 256 && lo / 256 < p
  {
    assert (256 * p) * hi == 256 * (p * hi);
  }

  lemma {:induction false} BigEndianSplit(x: nat, hi: nat, lo: nat, m: nat, n: nat)
    requires x == Pow2(8 * n) * hi + lo && lo < Pow2(8 * n)
    ensures BigEndian(x, m + n) == BigEndian(hi, m) + BigEndian(lo, n)
    decreases n
  {
    if n == 0 {
      assert Pow2(0) == 1;
    } else {
      var p := Pow2(8 * (n - 1));
      Pow2Byte(n);
      CarryOut(x, p, hi, lo);
      BigEndianSplit(x / 256, hi, lo / 256, m, n - 1);
    }
  }

  lemma ZerosLine(len: nat)
    ensures 67 - (len + 72) % 64 == ZeroBytes(len) + 4
  {
  }

  /** The buffer is the padding of section 5.1.1 exactly when the length in bits fits one word. */
  lemma PaddingIsStandard(message: seq<byte>)
    requires |message| + 72 < TWO32
    ensures PaddedBuffer(message) == Pad(message) <==> |message| < 0x2000_0000
  {
    hide BigEndian;
    var len, bits := |message|, 8 * |message|;
    var front := message + [0x80] + Zeros(ZeroBytes(len));
    var high, low := BigEndian(bits / TWO32, 4), BigEndian(ToUint32(bits), 4);
    Pow2Values();
    BigEndianSplit(bits, bits / TWO32, ToUint32(bits), 4, 4);
    ZerosLine(len);
    assert Pad(message) == front + high + low;
    assert PaddedBuffer(message) == front + Zeros(4) + low;
    assert PaddedBuffer(message) == Pad(message) ==> high == Zeros(4) by {
      if PaddedBuffer(message) == Pad(message) {
        assert high == (front + high + low)[|front|..|front| + 4];
        assert Zeros(4) == (front + Zeros(4) + low)[|front|..|front| + 4];
      }
    }
    BigEndianOfZero(4);
    if high == Zeros(4) {
      BigEndianInjective(bits / TWO32, 0, 4);
    }
  }

  /** Distinct messages that the standard padding covers are laid out differently. */
  lemma PaddingInjective(m1: seq<byte>, m2: seq<byte>)
    requires |m1| < 0x2000_0000 && |m2| < 0x2000_0000
    requires PaddedBuffer(m1) == PaddedBuffer(m2)
    ensures m1 == m2
  {
    hide BigEndian;
    var s := PaddedBuffer(m1);
    Pow2Values();
    assert s[|s| - 4..] == BigEndian(8 * |m1|, 4);
    assert s[|s| - 4..] == BigEndian(8 * |m2|, 4);
    BigEndianInjective(8 * |m1|, 8 * |m2|, 4);
    assert m1 == s[..|m1|] == m2;
  }

  /** The buffer holds the message, the marker and the length word apart, in the fewest whole blocks. */
  lemma PaddedLayout(message: seq<byte>)
    ensures var s, len := PaddedBuffer(message), |message|;
            && len + 9 <= |s| < len + 9 + 64 && |s| % 64 == 0
            && s[..len] == message && s[len] == 0x80
            && s[|s| - 4..] == BigEndian(ToUint32(8 * len), 4)
            && forall j :: len < j < |s| - 4 ==> s[j] == 0
  {
    hide BigEndian;
  }
}
