/**
  SHA-256 as FIPS 180-4 defines it: recursive functions on 32-bit words, with addition modulo 2^32.
 */
module Fips180 {
  import opened Basics
  import opened Bits
  import opened JsNumber

  type Block = b: seq<uint32> | |b| == 16 witness seq(16, _ => 0)

  // Section 4.1.2: rotations and shifts are stated by arithmetic, the rest bit by bit.

  function RotR(n: nat, x: uint32): int
    requires n < 32
  {
    x / Pow2(n) + (x % Pow2(n)) * Pow2(32 - n)
  }

  function ShR(n: nat, x: uint32): int
    requires n < 32
  {
    x / Pow2(n)
  }

  function AndW(x: int, y: int): int { Bitwise(AndBit, x, y, 32) }

  function XorW(x: int, y: int): int { Bitwise(XorBit, x, y, 32) }

  function NotW(x: int): int { 0xffff_ffff - x }

  function Ch(x: int, y: int, z: int): int { XorW(AndW(x, y), AndW(NotW(x), z)) }

  function Maj(x: int, y: int, z: int): int { XorW(XorW(AndW(x, y), AndW(x, z)), AndW(y, z)) }

  function BigSigma0(x: uint32): int { XorW(XorW(RotR(2, x), RotR(13, x)), RotR(22, x)) }

  function BigSigma1(x: uint32): int { XorW(XorW(RotR(6, x), RotR(11, x)), RotR(25, x)) }

  function SmallSigma0(x: uint32): int { XorW(XorW(RotR(7, x), RotR(18, x)), ShR(3, x)) }

  function SmallSigma1(x: uint32): int { XorW(XorW(RotR(17, x), RotR(19, x)), ShR(10, x)) }

  // Section 4.2.2.
  const K0: seq<uint32> := [
    0x428a2f98, 0x71374491, 0xb5c0fbcf, 0xe9b5dba5, 0x3956c25b, 0x59f111f1, 0x923f82a4, 0xab1c5ed5]
  const K1: seq<uint32> := [
    0xd807aa98, 0x12835b01, 0x243185be, 0x550c7dc3, 0x72be5d74, 0x80deb1fe, 0x9bdc06a7, 0xc19bf174]
  const K2: seq<uint32> := [
    0xe49b69c1, 0xefbe4786, 0x0fc19dc6, 0x240ca1cc, 0x2de92c6f, 0x4a7484aa, 0x5cb0a9dc, 0x76f988da]
  const K3: seq<uint32> := [
    0x983e5152, 0xa831c66d, 0xb00327c8, 0xbf597fc7, 0xc6e00bf3, 0xd5a79147, 0x06ca6351, 0x14292967]
  const K4: seq<uint32> := [
    0x27b70a85, 0x2e1b2138, 0x4d2c6dfc, 0x53380d13, 0x650a7354, 0x766a0abb, 0x81c2c92e, 0x92722c85]
  const K5: seq<uint32> := [
    0xa2bfe8a1, 0xa81a664b, 0xc24b8b70, 0xc76c51a3, 0xd192e819, 0xd6990624, 0xf40e3585, 0x106aa070]
  const K6: seq<uint32> := [
    0x19a4c116, 0x1e376c08, 0x2748774c, 0x34b0bcb5, 0x391c0cb3, 0x4ed8aa4a, 0x5b9cca4f, 0x682e6ff3]
  const K7: seq<uint32> := [
    0x748f82ee, 0x78a5636f, 0x84c87814, 0x8cc70208, 0x90befffa, 0xa4506ceb, 0xbef9a3f7, 0xc67178f2]

  const K: seq<uint32> := K0 + K1 + K2 + K3 + K4 + K5 + K6 + K7

  datatype Registers = Registers(a: uint32, b: uint32, c: uint32, d: uint32,
                                 e: uint32, f: uint32, g: uint32, h: uint32)

  // Section 5.3.3.
  const H0: Registers := Registers(
    0x6a09e667, 0xbb67ae85, 0x3c6ef372, 0xa54ff53a, 0x510e527f, 0x9b05688c, 0x1f83d9ab, 0x5be0cd19)

  // Section 5.1.1: append the bit 1, then the least number of zero bits that leaves 64 bits to the
  // end of a 512-bit block, then the length in bits as a 64-bit number.

  function BigEndian(x: nat, n: nat): (s: seq<byte>)
    ensures |s| == n
    decreases n
  {
    if n == 0 then [] else BigEndian(x / 256, n - 1) + [x % 256]
  }

  function ZeroBytes(len: nat): (k: nat)
    ensures k < 64 && (len + 1 + k) % 64 == 56
  {
    (119 - len % 64) % 64
  }

  function Zeros(n: nat): (s: seq<byte>)
    ensures |s| == n
  {
    seq(n, _ => 0)
  }

  function Pad(message: seq<byte>): seq<byte> {
    message + [0x80] + Zeros(ZeroBytes(|message|)) + BigEndian(8 * |message|, 8)
  }

  // Section 5.2.1: a block is sixteen big-endian words.

  function WordAt(s: seq<byte>, i: nat): uint32
    requires i + 4 <= |s|
  {
    0x100_0000 * (s[i] as int) + 0x1_0000 * (s[i + 1] as int) + 0x100 * (s[i + 2] as int) + (s[i + 3] as int)
  }

  function BlockAt(s: seq<byte>, i: nat): Block
    requires i + 64 <= |s|
  {
    seq(16, j requires 0 <= j < 16 => WordAt(s, i + 4 * j))
  }

  // Section 6.2.2, step 1.
  function Schedule(m: Block, t: nat): uint32 {
    if t < 16 then m[t]
    else (SmallSigma1(Schedule(m, t - 2)) + Schedule(m, t - 7)
          + SmallSigma0(Schedule(m, t - 15)) + Schedule(m, t - 16)) % TWO32
  }

  // Section 6.2.2, step 3.
  function Round(r: Registers, k: uint32, w: uint32): Registers {
    var t1 := r.h + BigSigma1(r.e) + Ch(r.e, r.f, r.g) + k + w;
    var t2 := BigSigma0(r.a) + Maj(r.a, r.b, r.c);
    Registers((t1 + t2) % TWO32, r.a, r.b, r.c, (r.d + t1) % TWO32, r.e, r.f, r.g)
  }

  function Rounds(r: Registers, m: Block, t: nat): Registers
    requires t <= 64
  {
    if t == 0 then r else Round(Rounds(r, m, t - 1), K[t - 1], Schedule(m, t - 1))
  }

  // Section 6.2.2, step 4.
  function AddRegisters(x: Registers, y: Registers): Registers {
    Registers((x.a + y.a) % TWO32, (x.b + y.b) % TWO32, (x.c + y.c) % TWO32, (x.d + y.d) % TWO32,
              (x.e + y.e) % TWO32, (x.f + y.f) % TWO32, (x.g + y.g) % TWO32, (x.h + y.h) % TWO32)
  }

  function Compress(r: Registers, m: Block): Registers {
    AddRegisters(r, Rounds(r, m, 64))
  }

  /** The hash value after the first `n` blocks of the padded message `s`. */
  function HashBlocks(s: seq<byte>, n: nat): Registers
    requires 64 * n <= |s|
  {
    if n == 0 then H0 else Compress(HashBlocks(s, n - 1), BlockAt(s, 64 * (n - 1)))
  }

  function DigestBytes(r: Registers): (s: seq<byte>)
    ensures |s| == 32
  {
    BigEndian(r.a, 4) + BigEndian(r.b, 4) + BigEndian(r.c, 4) + BigEndian(r.d, 4)
    + BigEndian(r.e, 4) + BigEndian(r.f, 4) + BigEndian(r.g, 4) + BigEndian(r.h, 4)
  }

  /** The SHA-256 digest of `message`. */
  function Digest(message: seq<byte>): (s: seq<byte>)
    ensures |s| == 32
  {
    var s := Pad(message);
    DigestBytes(HashBlocks(s, |s| / 64))
  }
}
