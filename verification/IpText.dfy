/** Dotted text of an IPv4 address, and the byte-wise order of strings. */
module IpText {
  import opened Basics
  import opened Cidr

  function Digit(d: nat): char
    requires d < 10
  {
    '0' + d as char
  }

  function Decimal(n: byte): string {
    if n < 10 then [Digit(n)]
    else if n < 100 then [Digit(n / 10), Digit(n % 10)]
    else [Digit(n / 100), Digit(n / 10 % 10), Digit(n % 10)]
  }

  function Dotted(a: Addr4): string {
    Decimal(Octet(a, 0)) + "." + (Decimal(Octet(a, 1)) + "." + (Decimal(Octet(a, 2)) + "." + Decimal(Octet(a, 3))))
  }

  function DigitValue(c: char): int {
    c as int - '0' as int
  }

  function NumberRead(s: string): int {
    if s == "" then 0 else 10 * NumberRead(s[..|s| - 1]) + DigitValue(s[|s| - 1])
  }

  lemma ReadDigit(s: string, d: nat)
    requires d < 10
    ensures NumberRead(s + [Digit(d)]) == 10 * NumberRead(s) + d
  {
    assert (s + [Digit(d)])[..|s|] == s;
  }

  /** The digits give back the number. */
  lemma DecimalValue(n: byte)
    ensures NumberRead(Decimal(n)) == n
  {
    hide NumberRead;
    assert NumberRead("") == 0 by {
      ReadNothing();
    }
    var a, b, c := n / 100, n / 10 % 10, n % 10;
    if n < 10 {
      ReadDigit("", n);
      assert Decimal(n) == "" + [Digit(n)];
    } else if n < 100 {
      ReadDigit("", n / 10);
      ReadDigit("" + [Digit(n / 10)], c);
      assert Decimal(n) == "" + [Digit(n / 10)] + [Digit(c)];
    } else {
      ReadDigit("", a);
      ReadDigit("" + [Digit(a)], b);
      ReadDigit("" + [Digit(a)] + [Digit(b)], c);
      assert Decimal(n) == "" + [Digit(a)] + [Digit(b)] + [Digit(c)];
    }
  }

  lemma ReadNothing()
    ensures NumberRead("") == 0
  {
  }

  lemma DecimalInjective(m: byte, n: byte)
    ensures Decimal(m) == Decimal(n) ==> m == n
    ensures '.' !in Decimal(m)
  {
    if Decimal(m) == Decimal(n) {
      DecimalValue(m);
      DecimalValue(n);
    }
  }

  /** Text up to the first dot is determined. */
  lemma SplitAtDot(s: string, t: string, u: string, v: string)
    requires '.' !in s && '.' !in t && s + "." + u == t + "." + v
    ensures s == t && u == v
  {
    var x, y := s + "." + u, t + "." + v;
    assert forall k :: 0 <= k < |s| ==> x[k] == s[k] && s[k] in s;
    assert forall k :: 0 <= k < |t| ==> y[k] == t[k] && t[k] in t;
    assert x[|s|] == '.' && y[|t|] == '.';
    assert x[..|s|] == s && y[..|t|] == t;
    assert x[|s| + 1..] == u && y[|t| + 1..] == v;
  }

  lemma DottedInjective(a: Addr4, b: Addr4)
    ensures Dotted(a) == Dotted(b) ==> a == b
  {
    hide Decimal, Octet;
    OctetsGiveValue(a);
    OctetsGiveValue(b);
    DecimalInjective(Octet(a, 0), Octet(b, 0));
    DecimalInjective(Octet(b, 0), Octet(a, 0));
    DecimalInjective(Octet(a, 1), Octet(b, 1));
    DecimalInjective(Octet(b, 1), Octet(a, 1));
    DecimalInjective(Octet(a, 2), Octet(b, 2));
    DecimalInjective(Octet(b, 2), Octet(a, 2));
    DecimalInjective(Octet(a, 3), Octet(b, 3));
    if Dotted(a) == Dotted(b) {
      var a3, b3 := Decimal(Octet(a, 3)), Decimal(Octet(b, 3));
      var a2, b2 := Decimal(Octet(a, 2)) + "." + a3, Decimal(Octet(b, 2)) + "." + b3;
      var a1, b1 := Decimal(Octet(a, 1)) + "." + a2, Decimal(Octet(b, 1)) + "." + b2;
      SplitAtDot(Decimal(Octet(a, 0)), Decimal(Octet(b, 0)), a1, b1);
      SplitAtDot(Decimal(Octet(a, 1)), Decimal(Octet(b, 1)), a2, b2);
      SplitAtDot(Decimal(Octet(a, 2)), Decimal(Octet(b, 2)), a3, b3);
    }
  }

  /** Text cut at every dot. */
  function Parts(s: string): (r: seq<string>)
    ensures |r| > 0
  {
    if s == "" then [""]
    else
      var rest := Parts(s[1..]);
      if s[0] == '.' then [""] + rest else [[s[0]] + rest[0]] + rest[1..]
  }

  lemma {:induction false} PartsAtDot(s: string, t: string)
    requires '.' !in s
    ensures Parts(s + "." + t) == [s] + Parts(t)
    ensures Parts(s) == [s]
  {
    var u := s + "." + t;
    if s == "" {
      assert u[1..] == t;
    } else {
      assert s[0] in s && '.' !in s[1..];
      PartsAtDot(s[1..], t);
      assert u[1..] == s[1..] + "." + t;
      assert [s[0]] + s[1..] == s;
      assert ([s[1..]] + Parts(t))[1..] == Parts(t);
    }
  }

  /** Read back, the four numbers of the text are the octets of the address, highest first. */
  lemma DottedReads(a: Addr4)
    ensures var parts := Parts(Dotted(a));
            && |parts| == 4
            && forall i :: 0 <= i < 4 ==> NumberRead(parts[i]) == a / [0x100_0000, 0x1_0000, 0x100, 1][i] % 0x100
  {
    hide Decimal, NumberRead, Parts;
    var d0, d1, d2, d3 := Decimal(Octet(a, 0)), Decimal(Octet(a, 1)), Decimal(Octet(a, 2)), Decimal(Octet(a, 3));
    DecimalInjective(Octet(a, 0), 0);
    DecimalInjective(Octet(a, 1), 0);
    DecimalInjective(Octet(a, 2), 0);
    DecimalInjective(Octet(a, 3), 0);
    assert Dotted(a) == d0 + "." + (d1 + "." + (d2 + "." + d3));
    PartsAtDot(d0, d1 + "." + (d2 + "." + d3));
    PartsAtDot(d1, d2 + "." + d3);
    PartsAtDot(d2, d3);
    PartsAtDot(d3, "");
    assert Parts(Dotted(a)) == [d0, d1, d2, d3];
    DecimalValue(Octet(a, 0));
    DecimalValue(Octet(a, 1));
    DecimalValue(Octet(a, 2));
    DecimalValue(Octet(a, 3));
  }

  /** No number is written with a leading zero. */
  lemma NoLeadingZero(n: byte)
    ensures 1 <= |Decimal(n)| <= 3 && (Decimal(n)[0] == '0' ==> Decimal(n) == "0")
    ensures forall c :: c in Decimal(n) ==> '0' <= c <= '9'
  {
  }

  // Order of strings

  predicate Less(s: string, t: string) {
    t != "" && (s == "" || s[0] < t[0] || (s[0] == t[0] && Less(s[1..], t[1..])))
  }

  lemma {:induction false} LessTotal(s: string, t: string)
    ensures Less(s, t) || Less(t, s) || s == t
    ensures !(Less(s, t) && Less(t, s))
    ensures !Less(s, s)
  {
    if s != "" {
      LessTotal(s[1..], s[1..]);
    }
    if s != "" && t != "" {
      LessTotal(s[1..], t[1..]);
      assert s == [s[0]] + s[1..] && t == [t[0]] + t[1..];
    }
  }

  lemma {:induction false} LessTransitive(s: string, t: string, u: string)
    requires Less(s, t) && Less(t, u)
    ensures Less(s, u)
  {
    if s != "" && s[0] == t[0] == u[0] {
      LessTransitive(s[1..], t[1..], u[1..]);
    }
  }

  /** The texts agree in their first `k` characters. */
  predicate AgreeTo(s: string, t: string, k: nat) {
    k <= |s| && k <= |t| && s[..k] == t[..k]
  }

  /** The first character in which two texts differ decides; if there is none, the shorter one is smaller. */
  lemma {:induction false} LessDecides(s: string, t: string, k: nat)
    requires AgreeTo(s, t, k) && (k < |s| && k < |t| ==> s[k] != t[k])
    ensures Less(s, t) <==> k < |t| && (k == |s| || s[k] < t[k])
    decreases k
  {
    if k > 0 {
      assert s[0] == s[..k][0] && t[0] == t[..k][0];
      assert s[1..][..k - 1] == s[..k][1..] && t[1..][..k - 1] == t[..k][1..];
      LessDecides(s[1..], t[1..], k - 1);
    }
  }

  ghost predicate Ascending(s: seq<string>) {
    forall i, j :: 0 <= i < j < |s| ==> Less(s[i], s[j])
  }

  /** An ascending list is determined by its members. */
  lemma {:induction false} AscendingUnique(s: seq<string>, t: seq<string>)
    requires Ascending(s) && Ascending(t)
    requires forall x :: x in s <==> x in t
    ensures s == t
  {
    assert s != [] ==> s[0] in t;
    assert t != [] ==> t[0] in s;
    if s != [] {
      FirstsAgree(s, t);
      var s', t' := s[1..], t[1..];
      forall x
        ensures x in s' <==> x in t'
      {
        TailMembers(s, x);
        TailMembers(t, x);
      }
      AscendingUnique(s', t');
      assert s == [s[0]] + s' && t == [t[0]] + t';
    }
  }

  lemma FirstsAgree(s: seq<string>, t: seq<string>)
    requires Ascending(s) && Ascending(t) && s != [] && t != []
    requires forall x :: x in s <==> x in t
    ensures s[0] == t[0]
  {
    assert s[0] in s && t[0] in t;
    var i :| 0 <= i < |t| && t[i] == s[0];
    var j :| 0 <= j < |s| && s[j] == t[0];
    LessTotal(s[0], t[0]);
    LessTotal(t[0], s[0]);
  }

  lemma TailMembers(s: seq<string>, x: string)
    requires Ascending(s) && s != []
    ensures x in s[1..] <==> x in s && x != s[0]
  {
    LessTotal(s[0], s[0]);
    if x in s[1..] {
      var i :| 0 <= i < |s[1..]| && s[1..][i] == x;
      assert s[i + 1] == x && Less(s[0], s[i + 1]);
    }
    if x in s && x != s[0] {
      var i :| 0 <= i < |s| && s[i] == x;
      assert s[1..][i - 1] == x;
    }
  }
}
