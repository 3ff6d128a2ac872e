/** `strings.TrimSpace`, and `strings.ToLower` as far as ASCII words can tell. */
module TrimText {

  /** The white space of Unicode, as Go's `unicode.IsSpace` has it. */
  predicate IsSpace(c: char) {
    || '\U{0009}' <= c <= '\U{000D}' || c == ' ' || c == '\U{0085}' || c == '\U{00A0}' || c == '\U{1680}'
    || '\U{2000}' <= c <= '\U{200A}' || c == '\U{2028}' || c == '\U{2029}' || c == '\U{202F}' || c == '\U{205F}'
    || c == '\U{3000}'
  }

  function TrimLeft(s: string): string {
    if s != "" && IsSpace(s[0]) then TrimLeft(s[1..]) else s
  }

  function TrimRight(s: string): string {
    if s != "" && IsSpace(s[|s| - 1]) then TrimRight(s[..|s| - 1]) else s
  }

  function Trim(s: string): string {
    TrimRight(TrimLeft(s))
  }

  predicate Blank(s: string) {
    forall i :: 0 <= i < |s| ==> IsSpace(s[i])
  }

  predicate Tight(s: string) {
    s != "" ==> !IsSpace(s[0]) && !IsSpace(s[|s| - 1])
  }

  lemma {:induction false} TrimLeftFinds(s: string) returns (k: nat)
    ensures k <= |s| && TrimLeft(s) == s[k..] && Blank(s[..k])
    ensures k < |s| ==> !IsSpace(s[k])
  {
    hide IsSpace;
    k := 0;
    if s != "" && IsSpace(s[0]) {
      var j := TrimLeftFinds(s[1..]);
      k := j + 1;
      assert s[..k] == [s[0]] + s[1..][..j];
      assert s[1..][j..] == s[k..];
    } else {
      assert s[0..] == s;
    }
  }

  lemma {:induction false} TrimRightFinds(s: string) returns (k: nat)
    ensures k <= |s| && TrimRight(s) == s[..k] && Blank(s[k..])
    ensures k > 0 ==> !IsSpace(s[k - 1])
  {
    hide IsSpace;
    k := |s|;
    if s != "" && IsSpace(s[|s| - 1]) {
      var t := s[..|s| - 1];
      k := TrimRightFinds(t);
      assert s[k..] == t[k..] + [s[|s| - 1]];
      assert t[..k] == s[..k];
    }
  }

  /** What is trimmed away is blank on both sides, and what is left neither begins nor ends with white space. */
  lemma TrimIsCore(s: string) returns (i: nat, j: nat)
    ensures i <= j <= |s| && Trim(s) == s[i..j] && Blank(s[..i]) && Blank(s[j..])
    ensures Tight(Trim(s))
  {
    hide IsSpace, TrimLeft, TrimRight;
    i := TrimLeftFinds(s);
    var k := TrimRightFinds(s[i..]);
    j := i + k;
    assert s[i..][..k] == s[i..j];
    assert s[i..][k..] == s[j..];
  }

  lemma TrimOfTight(s: string)
    requires Tight(s)
    ensures Trim(s) == s
  {}

  lemma TrimBlank(s: string)
    ensures Trim(s) == "" <==> Blank(s)
    ensures Trim(Trim(s)) == Trim(s)
  {
    hide IsSpace, TrimLeft, TrimRight, Trim;
    var i, j := TrimIsCore(s);
    TrimOfTight(Trim(s));
    if Trim(s) == "" {
      assert s == s[..i] + s[j..];
    } else {
      assert Trim(s)[0] == s[i];
    }
  }

  /**
    Lower case of a character.  Besides the ASCII letters, two characters become ASCII: the dotted capital I
    and the Kelvin sign; every other one stays outside ASCII, whatever it becomes.
   */
  function LowerChar(c: char): char {
    if 'A' <= c <= 'Z' then c + ('a' - 'A') else if c == '\U{0130}' then 'i' else if c == '\U{212A}' then 'k' else c
  }

  function Lower(s: string): (r: string)
    ensures |r| == |s|
  {
    seq(|s|, i requires 0 <= i < |s| => LowerChar(s[i]))
  }
}
