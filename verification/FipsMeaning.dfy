/**
  The functions of FIPS 180-4, section 4.1.2, bit by bit, and the order of bytes in a word, section 3.1.
 */
module FipsMeaning {
  import opened Basics
  import opened Bits
  import opened JsNumber
  import opened Fips180

  /** Bit `i` of `x`, the lowest being bit 0. */
  predicate Bit(x: int, i: nat) {
    x / Pow2(i) % 2 == 1
  }

  lemma HalfBit(x: int, i: nat)
    requires i > 0
    ensures Bit(x, i) == Bit(x / 2, i - 1)
  {
    DivModSplit(x, 2, Pow2(i - 1));
  }

  lemma LowBit(x: int)
    ensures Bit(x, 0) == (x % 2 == 1)
  {
  }

  lemma {:induction false} BitwiseBit(f: (bool, bool) -> bool, x: int, y: int, n: nat, i: nat)
    requires i < n
    ensures Bit(Bitwise(f, x, y, n), i) == f(Bit(x, i), Bit(y, i))
    decreases n
  {
    var z := Bitwise(f, x, y, n);
    assert z / 2 == Bitwise(f, x / 2, y / 2, n - 1);
    hide Bit;
    if i == 0 {
      LowBit(x);
      LowBit(y);
      LowBit(z);
    } else {
      HalfBit(x, i);
      HalfBit(y, i);
      HalfBit(z, i);
      BitwiseBit(f, x / 2, y / 2, n - 1, i - 1);
    }
  }

  lemma {:induction false} ComplementBit(x: nat, n: nat, i: nat)
    requires i < n && x < Pow2(n)
    ensures Bit(Pow2(n) - 1 - x, i) != Bit(x, i)
    decreases n
  {
    var z := Pow2(n) - 1 - x;
    hide Bit;
    if i == 0 {
      LowBit(x);
      LowBit(z);
    } else {
      HalfBit(x, i);
      HalfBit(z, i);
      assert z / 2 == Pow2(n - 1) - 1 - x / 2;
      ComplementBit(x / 2, n - 1, i - 1);
    }
  }

  lemma {:induction false} JoinedBit(lo: nat, hi: nat, k: nat, i: nat)
    requires lo < Pow2(k)
    ensures Bit(lo + hi * Pow2(k), i) == if i < k then Bit(lo, i) else Bit(hi, i - k)
    decreases k
  {
    hide Bit;
    if k == 0 {
      assert lo + hi * Pow2(0) == hi;
    } else {
      var z, h := lo + hi * Pow2(k), hi * Pow2(k - 1);
      assert z == lo + 2 * h && z / 2 == lo / 2 + h;
      if i == 0 {
        LowBit(z);
        LowBit(lo);
      } else {
        HalfBit(z, i);
        HalfBit(lo, i);
        JoinedBit(lo / 2, hi, k - 1, i - 1);
      }
    }
  }

  lemma ShiftedBit(x: nat, n: nat, i: nat)
    ensures Bit(x / Pow2(n), i) == Bit(x, i + n)
  {
    DivModSplit(x, Pow2(n), Pow2(i));
    Pow2Sum(n, i);
  }

  lemma TailBit(x: nat, n: nat, i: nat)
    requires i < n
    ensures Bit(x % Pow2(n), i) == Bit(x, i)
  {
    hide Bit;
    hide Pow2;
    Rejoined(x, Pow2(n));
    JoinedBit(x % Pow2(n), x / Pow2(n), n, i);
  }

  lemma Rejoined(x: nat, p: int)
    requires p > 0
    ensures x == x % p + x / p * p && x / p >= 0
  {
  }

  lemma NoBitAbove(x: nat, n: nat, i: nat)
    requires x < Pow2(n) && i >= n
    ensures !Bit(x, i)
  {
    JoinedBit(x, 0, n, i);
    assert x + 0 * Pow2(n) == x;
    assert 0 / Pow2(i - n) == 0 by {
      DivModUnique(0, Pow2(i - n), 0, 0);
    }
  }

  // Words

  lemma WordsFit(x: uint32)
    ensures x < Pow2(32) && Pow2(32) == TWO32
  {
    Pow2Values();
  }

  /** Rotation moves bit i + n, counted around the word, to bit i. */
  lemma RotRBit(n: nat, x: uint32, i: nat)
    requires 0 < n < 32 && i < 32
    ensures Bit(RotR(n, x), i) == Bit(x, (i + n) % 32)
  {
    hide Bit;
    var lo, hi := x / Pow2(n), x % Pow2(n);
    WordsFit(x);
    Pow2Sum(n, 32 - n);
    QuotientBound(x, Pow2(n), Pow2(32 - n));
    JoinedBit(lo, hi, 32 - n, i);
    if i < 32 - n {
      ShiftedBit(x, n, i);
    } else {
      TailBit(x, n, i - (32 - n));
    }
  }

  lemma ShRBit(n: nat, x: uint32, i: nat)
    requires n < 32
    ensures Bit(ShR(n, x), i) == (i + n < 32 && Bit(x, i + n))
  {
    hide Bit;
    WordsFit(x);
    ShiftedBit(x, n, i);
    if i + n >= 32 {
      NoBitAbove(x, 32, i + n);
    }
  }

  lemma AndWBit(x: int, y: int, i: nat)
    requires i < 32
    ensures Bit(AndW(x, y), i) == (Bit(x, i) && Bit(y, i))
  {
    hide Bit, Bitwise;
    BitwiseBit(AndBit, x, y, 32, i);
  }

  lemma XorWBit(x: int, y: int, i: nat)
    requires i < 32
    ensures Bit(XorW(x, y), i) == (Bit(x, i) != Bit(y, i))
  {
    hide Bit, Bitwise;
    BitwiseBit(XorBit, x, y, 32, i);
  }

  lemma NotWBit(x: uint32, i: nat)
    requires i < 32
    ensures Bit(NotW(x), i) == !Bit(x, i)
  {
    hide Bit;
    WordsFit(x);
    ComplementBit(x, 32, i);
  }

  /** Ch: each bit of x chooses between those of y and z. */
  lemma ChChooses(x: uint32, y: uint32, z: uint32, i: nat)
    requires i < 32
    ensures Bit(Ch(x, y, z), i) == if Bit(x, i) then Bit(y, i) else Bit(z, i)
  {
    hide Bit, AndW, XorW, NotW;
    NotWBit(x, i);
    AndWBit(x, y, i);
    AndWBit(NotW(x), z, i);
    XorWBit(AndW(x, y), AndW(NotW(x), z), i);
  }

  /** Maj: each bit is the one that at least two of the three have. */
  lemma MajVotes(x: uint32, y: uint32, z: uint32, i: nat)
    requires i < 32
    ensures Bit(Maj(x, y, z), i) ==
            ((Bit(x, i) && Bit(y, i)) || (Bit(x, i) && Bit(z, i)) || (Bit(y, i) && Bit(z, i)))
  {
    hide Bit, AndW, XorW;
    AndWBit(x, y, i);
    AndWBit(x, z, i);
    AndWBit(y, z, i);
    XorWBit(AndW(x, y), AndW(x, z), i);
    XorWBit(XorW(AndW(x, y), AndW(x, z)), AndW(y, z), i);
  }

  predicate Odd3(a: bool, b: bool, c: bool) {
    (a != b) != c
  }

  lemma ThreeBits(a: int, b: int, c: int, i: nat)
    requires i < 32
    ensures Bit(XorW(XorW(a, b), c), i) == Odd3(Bit(a, i), Bit(b, i), Bit(c, i))
  {
    hide Bit, XorW;
    XorWBit(a, b, i);
    XorWBit(XorW(a, b), c, i);
  }

  /** The four sigma functions: each bit is the parity of three bits of the word. */
  lemma SigmaBits(x: uint32, i: nat)
    requires i < 32
    ensures Bit(BigSigma0(x), i) == Odd3(Bit(x, (i + 2) % 32), Bit(x, (i + 13) % 32), Bit(x, (i + 22) % 32))
    ensures Bit(BigSigma1(x), i) == Odd3(Bit(x, (i + 6) % 32), Bit(x, (i + 11) % 32), Bit(x, (i + 25) % 32))
    ensures Bit(SmallSigma0(x), i) ==
            Odd3(Bit(x, (i + 7) % 32), Bit(x, (i + 18) % 32), i + 3 < 32 && Bit(x, i + 3))
    ensures Bit(SmallSigma1(x), i) ==
            Odd3(Bit(x, (i + 17) % 32), Bit(x, (i + 19) % 32), i + 10 < 32 && Bit(x, i + 10))
  {
    hide Bit, XorW, RotR, ShR, Odd3;
    RotRBit(2, x, i);
    RotRBit(13, x, i);
    RotRBit(22, x, i);
    ThreeBits(RotR(2, x), RotR(13, x), RotR(22, x), i);
    RotRBit(6, x, i);
    RotRBit(11, x, i);
    RotRBit(25, x, i);
    ThreeBits(RotR(6, x), RotR(11, x), RotR(25, x), i);
    RotRBit(7, x, i);
    RotRBit(18, x, i);
    ShRBit(3, x, i);
    ThreeBits(RotR(7, x), RotR(18, x), ShR(3, x), i);
    RotRBit(17, x, i);
    RotRBit(19, x, i);
    ShRBit(10, x, i);
    ThreeBits(RotR(17, x), RotR(19, x), ShR(10, x), i);
  }

  // Bytes

  /** The highest byte comes first. */
  lemma {:induction false} BigEndianByte(x: nat, n: nat, k: nat)
    requires k < n
    ensures BigEndian(x, n)[k] == x / Pow2(8 * (n - 1 - k)) % 256
    decreases n
  {
    if k < n - 1 {
      BigEndianByte(x / 256, n - 1, k);
      Pow2Values();
      Pow2Sum(8, 8 * (n - 2 - k));
      DivModSplit(x, 256, Pow2(8 * (n - 2 - k)));
    }
  }

  /** A word is read as it is written. */
  lemma WordReadsBack(s: seq<byte>, i: nat)
    requires i + 4 <= |s|
    ensures BigEndian(WordAt(s, i), 4) == s[i..i + 4]
  {
    var a, b, c, d := s[i] as int, s[i + 1] as int, s[i + 2] as int, s[i + 3] as int;
    var w := WordAt(s, i);
    DivModUnique(w, 256, 0x1_0000 * a + 0x100 * b + c, d);
    DivModUnique(0x1_0000 * a + 0x100 * b + c, 256, 0x100 * a + b, c);
    DivModUnique(0x100 * a + b, 256, a, b);
    DivModUnique(a, 256, 0, a);
    FourSteps(w);
  }

  lemma FourSteps(w: nat)
    ensures BigEndian(w, 4) == [w / 256 / 256 / 256 % 256, w / 256 / 256 % 256, w / 256 % 256, w % 256]
  {
  }
}
