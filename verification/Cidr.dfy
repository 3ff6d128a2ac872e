/**
  The address arithmetic of a LAN scan: which CIDRs are accepted and which addresses they cover.
 */
module Cidr {
  import opened Basics
  import opened Bits

  /** An IPv4 address by its 32-bit value. */
  type Addr4 = x: int | 0 <= x < 0x1_0000_0000

  const LAST_ADDR: Addr4 := 0xffff_ffff

  datatype Addr = V4(value: Addr4) | V6

  /** What the CIDR parser hands over: at most 32 bits for an IPv4 address. */
  datatype Parsed = Parsed(addr: Addr, bits: nat)

  predicate WellFormed(p: Parsed) {
    p.addr.V4? ==> p.bits <= 32
  }

  /** A masked IPv4 prefix. */
  datatype Prefix = Prefix(base: Addr4, bits: nat)

  datatype CidrError = Invalid | NotIPv4 | NotPrivate | TooLarge

  datatype Result = Ok(prefix: Prefix) | Err(error: CidrError)

  const MAX_HOSTS := 512

  /** The number of addresses under a prefix of that length. */
  function Size(bits: nat): int
    requires bits <= 32
  {
    Pow2(32 - bits)
  }

  function MaskedBase(a: Addr4, bits: nat): Addr4
    requires bits <= 32
  {
    ResidueInRange(a, Size(bits));
    a - a % Size(bits)
  }

  lemma ResidueInRange(a: nat, p: int)
    requires p > 0
    ensures 0 <= a % p <= a
  {
    if a < p {
      DivModUnique(a, p, 0, a);
    }
  }

  /** `Prefix.Contains` */
  predicate Contains(p: Prefix, a: Addr4)
    requires p.bits <= 32
  {
    MaskedBase(a, p.bits) == MaskedBase(p.base, p.bits)
  }

  // Private addresses

  function Octet(a: Addr4, i: nat): byte
    requires i < 4
  {
    if i == 0 then a / 0x100_0000 else if i == 1 then a / 0x1_0000 % 256 else if i == 2 then a / 256 % 256 else a % 256
  }

  /** `Addr.IsPrivate` on an IPv4 address. */
  predicate IsPrivate(a: Addr4) {
    || Octet(a, 0) == 10
    || (Octet(a, 0) == 172 && Octet(a, 1) / 16 == 1)
    || (Octet(a, 0) == 192 && Octet(a, 1) == 168)
  }

  /** Section 3 of RFC 1918. */
  predicate InPrivateBlock(a: Addr4) {
    || 0x0a00_0000 <= a <= 0x0aff_ffff  // 10.0.0.0 - 10.255.255.255
    || 0xac10_0000 <= a <= 0xac1f_ffff  // 172.16.0.0 - 172.31.255.255
    || 0xc0a8_0000 <= a <= 0xc0a8_ffff  // 192.168.0.0 - 192.168.255.255
  }

  lemma PrivateIsRfc1918(a: Addr4)
    ensures IsPrivate(a) <==> InPrivateBlock(a)
  {
  }

  /** `parsed` is the result of the CIDR parser, if it accepted the text. */
  function ValidateScanCIDR(parsed: Option<Parsed>): Result
    requires parsed.Some? ==> WellFormed(parsed.value)
  {
    if parsed.None? then Err(Invalid)
    else if parsed.value.addr.V6? then Err(NotIPv4)
    else
      var base := MaskedBase(parsed.value.addr.value, parsed.value.bits);
      if !IsPrivate(base) then Err(NotPrivate)
      else if parsed.value.bits < 23 then Err(TooLarge)
      else Ok(Prefix(base, parsed.value.bits))
  }

  lemma FloorOf(a: nat, p: nat, m: int)
    requires p > 0 && m == a - a % p
    ensures m % p == 0 && m <= a < m + p
  {
    var q := a / p;
    assert m == p * q + 0;
    DivModUnique(m, p, q, 0);
  }

  /** Masking gives the multiple of the prefix's size at or just below the address. */
  lemma MaskedIsFloor(a: Addr4, bits: nat)
    requires bits <= 32
    ensures MaskedBase(a, bits) % Size(bits) == 0
    ensures MaskedBase(a, bits) <= a < MaskedBase(a, bits) + Size(bits)
  {
    assert Size(bits) > 0;
    hide Size;
    FloorOf(a, Size(bits), MaskedBase(a, bits));
  }

  lemma SizesAbove512(bits: nat)
    requires bits <= 32
    ensures Size(bits) <= 512 <==> bits >= 23
  {
    if bits < 23 {
      Pow2Sum(23 - bits, 9);
      NinthPower();
      AtLeastTwo(23 - bits);
      hide Pow2;
      assert Size(bits) == Pow2(23 - bits) * 512;
    } else {
      SmallSizes(bits);
    }
  }

  lemma NinthPower()
    ensures Pow2(9) == 512
  {
  }

  /**
    What a scan accepts: exactly the IPv4 prefixes of at most 512 addresses whose first address is private; and which
    error stands for which cause, the earlier cause first.
   */
  lemma ValidateExactly(parsed: Option<Parsed>)
    requires parsed.Some? ==> WellFormed(parsed.value)
    ensures ValidateScanCIDR(parsed) == Err(Invalid) <==> parsed.None?
    ensures ValidateScanCIDR(parsed) == Err(NotIPv4) <==> parsed.Some? && parsed.value.addr.V6?
    ensures parsed.Some? && parsed.value.addr.V4? ==>
              var a, bits, r := parsed.value.addr.value, parsed.value.bits, ValidateScanCIDR(parsed);
              var first := MaskedBase(a, bits);
              && (r == Err(NotPrivate) <==> !InPrivateBlock(first))
              && (r == Err(TooLarge) <==> InPrivateBlock(first) && Size(bits) > 512)
              && (r == Ok(Prefix(first, bits)) <==> InPrivateBlock(first) && Size(bits) <= 512)
              && (r.Ok? <==> InPrivateBlock(first) && Size(bits) <= 512)
              && first % Size(bits) == 0 && first <= a < first + Size(bits)
  {
    hide InPrivateBlock, IsPrivate, Size, MaskedBase;
    if parsed.Some? && parsed.value.addr.V4? {
      var a, bits := parsed.value.addr.value, parsed.value.bits;
      MaskedIsFloor(a, bits);
      SizesAbove512(bits);
      PrivateIsRfc1918(MaskedBase(a, bits));
    }
  }

  // One address after another

  function Value(a: seq<byte>): Addr4
    requires |a| == 4
  {
    0x100_0000 * (a[0] as int) + 0x1_0000 * (a[1] as int) + 0x100 * (a[2] as int) + (a[3] as int)
  }

  lemma OctetsGiveValue(ip: Addr4)
    ensures ip == 0x100_0000 * (Octet(ip, 0) as int) + 0x1_0000 * (Octet(ip, 1) as int)
                  + 0x100 * (Octet(ip, 2) as int) + (Octet(ip, 3) as int)
  {
    DivModSplit(ip, 256, 256);
    DivModSplit(ip, 0x1_0000, 256);
    assert ip / 0x100_0000 == ip / 0x1_0000 / 256 && ip / 0x1_0000 == ip / 256 / 256;
    assert ip == 256 * (ip / 256) + ip % 256;
    assert ip / 256 == 256 * (ip / 0x1_0000) + ip / 256 % 256;
    assert ip / 0x1_0000 == 256 * (ip / 0x100_0000) + ip / 0x1_0000 % 256;
  }

  method NextIPv4(ip: Addr4) returns (next: Option<Addr4>)
    ensures next == if ip == LAST_ADDR then None else Some(ip + 1)
  {
    hide Octet;
    var a := new byte[4](i requires 0 <= i < 4 => Octet(ip, i));
    OctetsGiveValue(ip);
    var i := 3;
    while i >= 0
      invariant -1 <= i <= 3
      invariant forall j :: 0 <= j <= i ==> a[j] == Octet(ip, j)
      invariant forall j :: i < j < 4 ==> a[j] == 0 && Octet(ip, j) == 255
    {
      a[i] := (a[i] as int + 1) % 256;
      if a[i] != 0 {
        return Some(Value(a[..]));
      }
      i := i - 1;
    }
    return None;
  }

  // All addresses under a prefix

  function Range(a: nat, n: nat): (r: seq<int>)
    ensures |r| == n && forall i :: 0 <= i < n ==> r[i] == a + i
  {
    seq(n, i => a + i)
  }

  /** Between two multiples of s there is room for s. */
  lemma RoomBelow(s: int, q: int, limit: int, r: int)
    requires s > 0 && limit == s * r && s * q < limit
    ensures s * q + s <= limit
  {
    if q < r {
      assert s * r == s * q + s + s * (r - q - 1);
    } else {
      assert s * q == s * r + s * (q - r);
    }
  }

  lemma BaseIsMultiple(p: Prefix)
    requires p.bits <= 32 && p.base == MaskedBase(p.base, p.bits)
    ensures p.base == Size(p.bits) * (p.base / Size(p.bits))
  {
    var s := Size(p.bits);
    assert p.base == s * (p.base / s) + p.base % s;
  }

  lemma ContainsIsInterval(p: Prefix, a: Addr4)
    requires p.bits <= 32 && p.base == MaskedBase(p.base, p.bits)
    ensures Contains(p, a) <==> p.base <= a < p.base + Size(p.bits)
  {
    var s := Size(p.bits);
    BaseIsMultiple(p);
    ResidueInRange(a, s);
    if p.base <= a < p.base + s {
      DivModUnique(a, s, p.base / s, a - p.base);
    }
  }

  lemma Aligned(p: Prefix)
    requires p.bits <= 32 && p.base == MaskedBase(p.base, p.bits)
    ensures p.base + Size(p.bits) <= LAST_ADDR + 1
    ensures forall a: Addr4 :: Contains(p, a) <==> p.base <= a < p.base + Size(p.bits)
  {
    Pow2Values();
    Pow2Sum(32 - p.bits, p.bits);
    BaseIsMultiple(p);
    RoomBelow(Size(p.bits), p.base / Size(p.bits), LAST_ADDR + 1, Pow2(p.bits));
    forall a: Addr4
      ensures Contains(p, a) <==> p.base <= a < p.base + Size(p.bits)
    {
      ContainsIsInterval(p, a);
    }
  }

  /** The addresses that a walk from the base visits before it stops by itself or at the cap. */
  function Walked(p: Prefix): (r: seq<int>)
    requires p.bits <= 32
  {
    Range(p.base, if Size(p.bits) <= MAX_HOSTS + 1 then Size(p.bits) else MAX_HOSTS + 1)
  }

  function HostsOf(p: Prefix): seq<int>
    requires p.bits <= 32
  {
    var all := Walked(p);
    if p.bits <= 30 && |all| >= 2 then all[1..|all| - 1] else all
  }

  method ExpandHosts(prefix: Prefix) returns (hosts: seq<int>)
    requires prefix.bits <= 32
    ensures hosts == HostsOf(Prefix(MaskedBase(prefix.base, prefix.bits), prefix.bits))
  {
    var p := Prefix(MaskedBase(prefix.base, prefix.bits), prefix.bits);
    MaskedTwice(prefix.base, prefix.bits);
    Aligned(p);
    if p.bits == 32 {
      assert Size(32) == 1;
      return [p.base];
    }
    hosts := [];
    var ip := p.base;
    while Contains(p, ip)
      invariant ip == p.base + |hosts| && |hosts| <= MAX_HOSTS && |hosts| <= Size(p.bits)
      invariant hosts == Range(p.base, |hosts|)
      decreases Size(p.bits) - |hosts|
    {
      hosts := hosts + [ip];
      var next := NextIPv4(ip);
      if next.None? {
        break;
      }
      ip := next.value;
      if |hosts| > MAX_HOSTS {
        break;
      }
    }
    assert hosts == Walked(p);
    if p.bits <= 30 && |hosts| >= 2 {
      hosts := hosts[1..|hosts| - 1];
    }
  }

  lemma MaskedTwice(a: Addr4, bits: nat)
    requires bits <= 32
    ensures MaskedBase(MaskedBase(a, bits), bits) == MaskedBase(a, bits)
  {
    var s := Size(bits);
    assert a - a % s == s * (a / s);
    DivModUnique(a - a % s, s, a / s, 0);
  }

  // What a scan may ask for

  lemma SmallSizes(bits: nat)
    requires 23 <= bits <= 32
    ensures 1 <= Size(bits) <= 512 && 512 % Size(bits) == 0
    ensures bits <= 30 ==> Size(bits) >= 4
    ensures Size(31) == 2 && Size(32) == 1
  {
    assert Pow2(1) == 2 && Pow2(2) == 4 && Pow2(3) == 8 && Pow2(4) == 16 && Pow2(5) == 32;
    assert Pow2(6) == 64 && Pow2(7) == 128 && Pow2(8) == 256 && Pow2(9) == 512;
  }

  /**
    For every accepted CIDR the hosts are its usable addresses, each once and in order: all of them
    for /31 and /32, all but the first and the last otherwise.  The cap never cuts the list.
   */
  lemma AcceptedHosts(parsed: Option<Parsed>, a: Addr4)
    requires parsed.Some? ==> WellFormed(parsed.value)
    requires ValidateScanCIDR(parsed).Ok?
    ensures var p := ValidateScanCIDR(parsed).prefix;
            var hosts := HostsOf(p);
            && |hosts| == (if p.bits == 32 then 1 else if p.bits == 31 then 2 else Size(p.bits) - 2)
            && |hosts| <= 510
            && (forall i, j :: 0 <= i < j < |hosts| ==> hosts[i] < hosts[j])
            && (a in hosts <==> Contains(p, a) && (p.bits <= 30 ==> a != p.base && a != p.base + Size(p.bits) - 1))
            && (a in hosts ==> InPrivateBlock(a))
  {
    var p := ValidateScanCIDR(parsed).prefix;
    MaskedTwice(parsed.value.addr.value, p.bits);
    Aligned(p);
    SmallSizes(p.bits);
    PrivateIsRfc1918(p.base);
    InHosts(p, a);
    if a in HostsOf(p) {
      StaysPrivate(p, a);
    }
  }

  lemma InHosts(p: Prefix, a: Addr4)
    requires 23 <= p.bits <= 32
    ensures var first := if p.bits <= 30 then 1 else 0;
            a in HostsOf(p) <==> p.base + first <= a < p.base + Size(p.bits) - first
  {
    SmallSizes(p.bits);
    var hosts, first := HostsOf(p), if p.bits <= 30 then 1 else 0;
    assert |Walked(p)| == Size(p.bits);
    assert forall i :: 0 <= i < |hosts| ==> hosts[i] == p.base + first + i;
    if p.base + first <= a < p.base + Size(p.bits) - first {
      assert hosts[a - p.base - first] == a;
    }
  }

  lemma RoomBelow512s(p: Prefix, k: nat)
    requires 23 <= p.bits <= 32 && p.base == MaskedBase(p.base, p.bits) && p.base < 512 * k
    ensures p.base + Size(p.bits) <= 512 * k
  {
    var s := Size(p.bits);
    SmallSizes(p.bits);
    BaseIsMultiple(p);
    var m := 512 / s;
    assert s * m == 512;
    assert s * (m * k) == 512 * k;
    RoomBelow(s, p.base / s, 512 * k, m * k);
  }

  /** The private blocks begin and end on multiples of 512, so no accepted prefix crosses their border. */
  lemma StaysPrivate(p: Prefix, a: Addr4)
    requires 23 <= p.bits <= 32 && p.base == MaskedBase(p.base, p.bits)
    requires InPrivateBlock(p.base) && p.base <= a < p.base + Size(p.bits)
    ensures InPrivateBlock(a)
  {
    hide MaskedBase, Size;
    if p.base <= 0x0aff_ffff {
      RoomBelow512s(p, 0x0b00_0000 / 512);
    } else if p.base <= 0xac1f_ffff {
      RoomBelow512s(p, 0xac20_0000 / 512);
    } else {
      RoomBelow512s(p, 0xc0a9_0000 / 512);
    }
  }

  /** A prefix of more than 512 addresses is cut by the cap; none of those is ever accepted. */
  lemma CapOnlyBeyondAccepted(p: Prefix)
    requires p.bits <= 32
    ensures |Walked(p)| < Size(p.bits) <==> p.bits < 23
  {
    if p.bits < 23 {
      Pow2Sum(23 - p.bits, 9);
      assert Pow2(9) == 512;
      AtLeastTwo(23 - p.bits);
    } else {
      SmallSizes(p.bits);
    }
  }

  /**
    Whatever the prefix, the list has 1 to 511 consecutive addresses, so neither early return of the scan is ever
    taken; one that is cut by the cap has 511.
   */
  lemma HostCount(p: Prefix)
    requires p.bits <= 32
    ensures 1 <= |HostsOf(p)| <= 511 < MAX_HOSTS
    ensures |HostsOf(p)| ==
            if p.bits == 32 then 1 else if p.bits == 31 then 2 else if p.bits >= 23 then Size(p.bits) - 2 else 511
    ensures forall i :: 0 <= i < |HostsOf(p)| ==> HostsOf(p)[i] == p.base + i + if p.bits <= 30 then 1 else 0
  {
    if p.bits >= 23 {
      SmallSizes(p.bits);
    } else {
      CapOnlyBeyondAccepted(p);
    }
  }

  lemma {:induction false} AtLeastTwo(n: nat)
    requires n >= 1
    ensures Pow2(n) >= 2
  {
    if n > 1 {
      AtLeastTwo(n - 1);
    }
  }
}
