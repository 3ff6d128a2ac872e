/**
  Base64 text as the Portal and the shell protocol use it: `btoa` and `atob` of the browser, the Go
  standard decoder, and the URL-safe unpadded form of RFC 4648, section 5.
 */
module Base64 {
  import opened Basics

  type sextet = x: int | 0 <= x < 64

  // Bytes as groups of six bits (RFC 4648, section 4)

  function Sextets(b: seq<byte>): (t: seq<sextet>)
    ensures |t| == (4 * |b| + 2) / 3
  {
    if |b| == 0 then []
    else if |b| == 1 then [b[0] / 4, b[0] % 4 * 16]
    else if |b| == 2 then [b[0] / 4, b[0] % 4 * 16 + b[1] / 16, b[1] % 16 * 4]
    else [b[0] / 4, b[0] % 4 * 16 + b[1] / 16, b[1] % 16 * 4 + b[2] / 64, b[2] % 64] + Sextets(b[3..])
  }

  function FirstByte(x: sextet, y: sextet): byte { (x as int) * 4 + y / 16 }

  function SecondByte(y: sextet, z: sextet): byte { (y % 16) as int * 16 + z / 4 }

  function ThirdByte(z: sextet, u: sextet): byte { (z % 4) as int * 64 + u }

  /** The bytes held by a run of sextets; the bits left over at the end are discarded. */
  function FromSextets(t: seq<sextet>): seq<byte> {
    if |t| < 2 then []
    else if |t| == 2 then [FirstByte(t[0], t[1])]
    else if |t| == 3 then [FirstByte(t[0], t[1]), SecondByte(t[1], t[2])]
    else [FirstByte(t[0], t[1]), SecondByte(t[1], t[2]), ThirdByte(t[2], t[3])] + FromSextets(t[4..])
  }

  lemma GroupRoundTrip(a: byte, b: byte, c: byte)
    ensures FirstByte(a / 4, a % 4 * 16 + b / 16) == a
    ensures SecondByte(a % 4 * 16 + b / 16, b % 16 * 4 + c / 64) == b
    ensures ThirdByte(b % 16 * 4 + c / 64, c % 64) == c
  {
  }

  lemma {:induction false} SextetsRoundTrip(b: seq<byte>)
    ensures FromSextets(Sextets(b)) == b
  {
    hide FirstByte, SecondByte, ThirdByte;
    if |b| == 1 {
      GroupRoundTrip(b[0], 0, 0);
    } else if |b| == 2 {
      GroupRoundTrip(b[0], b[1], 0);
    } else if |b| >= 3 {
      GroupRoundTrip(b[0], b[1], b[2]);
      SextetsRoundTrip(b[3..]);
      assert Sextets(b)[4..] == Sextets(b[3..]);
      assert b == [b[0], b[1], b[2]] + b[3..];
    }
  }

  function ByteAt(b: seq<byte>, i: nat): nat {
    if i < |b| then b[i] else 0
  }

  function SextetAt(t: seq<sextet>, i: nat): nat {
    if i < |t| then t[i] else 0
  }

  /** Three bytes as one number of 24 bits; absent bytes are zero. */
  function ByteGroup(b: seq<byte>, g: nat): nat {
    0x1_0000 * ByteAt(b, 3 * g) + 0x100 * ByteAt(b, 3 * g + 1) + ByteAt(b, 3 * g + 2)
  }

  function SextetGroup(t: seq<sextet>, g: nat): nat {
    0x4_0000 * SextetAt(t, 4 * g) + 0x1000 * SextetAt(t, 4 * g + 1) + 0x40 * SextetAt(t, 4 * g + 2)
    + SextetAt(t, 4 * g + 3)
  }

  /** The sextets of a group are the digits, to base 64, of its 24 bits. */
  lemma {:induction false} SextetsAreGroups(b: seq<byte>, g: nat)
    ensures SextetGroup(Sextets(b), g) == ByteGroup(b, g)
  {
    var t := Sextets(b);
    if g > 0 && |b| >= 3 {
      SextetsAreGroups(b[3..], g - 1);
      assert t[4..] == Sextets(b[3..]);
      SextetsShift(t, t[4..], g);
      BytesShift(b, b[3..], g);
    } else if g == 0 {
      FirstGroup(b);
    }
  }

  lemma SextetsShift(t: seq<sextet>, u: seq<sextet>, g: nat)
    requires |t| >= 4 && u == t[4..] && g > 0
    ensures SextetGroup(t, g) == SextetGroup(u, g - 1)
  {
  }

  lemma BytesShift(b: seq<byte>, c: seq<byte>, g: nat)
    requires |b| >= 3 && c == b[3..] && g > 0
    ensures ByteGroup(b, g) == ByteGroup(c, g - 1)
  {
  }

  lemma FirstGroup(b: seq<byte>)
    ensures SextetGroup(Sextets(b), 0) == ByteGroup(b, 0)
  {
  }

  // The two alphabets

  function AlphaChar(i: sextet): char
    requires i < 62
  {
    if i < 26 then 'A' + i as char else if i < 52 then 'a' + (i - 26) as char else '0' + (i - 52) as char
  }

  function StdChar(i: sextet): char {
    if i < 62 then AlphaChar(i) else if i == 62 then '+' else '/'
  }

  function UrlChar(i: sextet): char {
    if i < 62 then AlphaChar(i) else if i == 62 then '-' else '_'
  }

  function StdIndex(c: char): Option<sextet> {
    if 'A' <= c <= 'Z' then Some(c as int - 'A' as int)
    else if 'a' <= c <= 'z' then Some(c as int - 'a' as int + 26)
    else if '0' <= c <= '9' then Some(c as int - '0' as int + 52)
    else if c == '+' then Some(62)
    else if c == '/' then Some(63)
    else None
  }

  /** Tables 1 and 2 of RFC 4648. */
  const UPPER := "ABCDEFGHIJKLMNOPQRSTUVWXYZ"
  const LOWER := "abcdefghijklmnopqrstuvwxyz"
  const DIGITS := "0123456789"

  lemma AlphabetsAreStandard(i: sextet)
    ensures i < 26 ==> StdChar(i) == UrlChar(i) == UPPER[i]
    ensures 26 <= i < 52 ==> StdChar(i) == UrlChar(i) == LOWER[i - 26]
    ensures 52 <= i < 62 ==> StdChar(i) == UrlChar(i) == DIGITS[i - 52]
    ensures StdChar(62) == '+' && StdChar(63) == '/' && UrlChar(62) == '-' && UrlChar(63) == '_'
  {
  }

  lemma StdIndexOfChar(i: sextet)
    ensures StdIndex(StdChar(i)) == Some(i)
  {
  }

  function StdText(t: seq<sextet>): (s: string)
    ensures |s| == |t|
  {
    seq(|t|, i requires 0 <= i < |t| => StdChar(t[i]))
  }

  function UrlText(t: seq<sextet>): (s: string)
    ensures |s| == |t|
  {
    seq(|t|, i requires 0 <= i < |t| => UrlChar(t[i]))
  }

  function Padding(n: nat): (s: string)
    ensures forall c :: c in s ==> c == '='
  {
    if n % 3 == 0 then "" else if n % 3 == 1 then "==" else "="
  }

  /** `base64.StdEncoding.EncodeToString` */
  function StdEncode(b: seq<byte>): string {
    StdText(Sextets(b)) + Padding(|b|)
  }

  /** Base64url without padding, RFC 4648, section 5. */
  function UrlEncode(b: seq<byte>): string {
    UrlText(Sextets(b))
  }

  // Decoders

  function ReadText(s: string): Option<seq<sextet>> {
    if s == "" then Some([])
    else
      var first, rest := StdIndex(s[0]), ReadText(s[1..]);
      if first.Some? && rest.Some? then Some([first.value] + rest.value) else None
  }

  function DropPadding(s: string): string {
    if |s| >= 2 && s[|s| - 1] == '=' && s[|s| - 2] == '=' then s[..|s| - 2]
    else if |s| >= 1 && s[|s| - 1] == '=' then s[..|s| - 1]
    else s
  }

  function Without(s: string, skipped: set<char>): (t: string)
    ensures (forall c :: c in s ==> c !in skipped) ==> t == s
  {
    if s == "" then "" else (if s[0] in skipped then "" else [s[0]]) + Without(s[1..], skipped)
  }

  function DecodeText(s: string): Option<seq<byte>> {
    var t := ReadText(s);
    if t.None? || |s| % 4 == 1 then None else Some(FromSextets(t.value))
  }

  /** `atob`: white space is ignored, padding is optional. */
  function Atob(text: string): Option<seq<byte>> {
    var s := Without(text, {' ', '\t', '\n', '\r', 12 as char});
    DecodeText(if |s| % 4 == 0 then DropPadding(s) else s)
  }

  /** `base64.StdEncoding.DecodeString`: line breaks are ignored, padding is required. */
  function StdDecode(text: string): Option<seq<byte>> {
    var s := Without(text, {'\n', '\r'});
    if |s| % 4 == 0 then DecodeText(DropPadding(s)) else None
  }

  lemma {:induction false} ReadBack(t: seq<sextet>)
    ensures ReadText(StdText(t)) == Some(t)
  {
    if t != [] {
      var s := StdText(t);
      StdIndexOfChar(t[0]);
      assert s[1..] == StdText(t[1..]);
      ReadBack(t[1..]);
      assert t == [t[0]] + t[1..];
    }
  }

  lemma StdTextIsAlphabetic(t: seq<sextet>)
    ensures forall c :: c in StdText(t) ==> StdIndex(c).Some?
  {
    forall c | c in StdText(t)
      ensures StdIndex(c).Some?
    {
      var i :| 0 <= i < |t| && c == StdText(t)[i];
      StdIndexOfChar(t[i]);
    }
  }

  lemma DecodeStdText(b: seq<byte>)
    ensures DecodeText(StdText(Sextets(b))) == Some(b)
  {
    hide Sextets, FromSextets, ReadText, StdText;
    ReadBack(Sextets(b));
    SextetsRoundTrip(b);
    TextLength(|b| / 3, |b| % 3);
  }

  lemma TextLength(q: nat, r: nat)
    requires r < 3
    ensures (4 * (3 * q + r) + 2) / 3 == 4 * q + (if r == 0 then 0 else r + 1)
  {
  }

  lemma DropStdPadding(s: string, n: nat)
    requires forall c :: c in s ==> StdIndex(c).Some?
    ensures DropPadding(s + Padding(n)) == s
  {
    var t := s + Padding(n);
    if s != "" {
      assert s[|s| - 1] in s;
    }
    assert DropPadding(t) == s;
  }

  /** Nothing in standard text is skipped by a decoder that ignores some non-alphabetic characters. */
  lemma NothingSkipped(b: seq<byte>, text: string, skipped: set<char>)
    requires text == StdEncode(b) || text == StdText(Sextets(b))
    requires forall c :: c in skipped ==> StdIndex(c).None? && c != '='
    ensures Without(text, skipped) == text
  {
    hide Sextets, StdIndex;
    StdTextIsAlphabetic(Sextets(b));
  }

  lemma StdLength(b: seq<byte>)
    ensures |StdEncode(b)| % 4 == 0
  {
    hide Sextets, StdText;
    TextLength(|b| / 3, |b| % 3);
  }

  lemma DropsToText(b: seq<byte>)
    ensures DropPadding(StdEncode(b)) == StdText(Sextets(b))
  {
    hide Sextets, StdText, DropPadding, StdIndex;
    StdTextIsAlphabetic(Sextets(b));
    DropStdPadding(StdText(Sextets(b)), |b|);
  }

  /** Decoding standard text gives back the bytes, in Go as in the browser. */
  lemma StdRoundTrip(b: seq<byte>)
    ensures StdDecode(StdEncode(b)) == Some(b)
    ensures Atob(StdEncode(b)) == Some(b)
  {
    hide Sextets, StdText, StdEncode, DecodeText, Without, DropPadding;
    DecodeStdText(b);
    DropsToText(b);
    StdLength(b);
    NothingSkipped(b, StdEncode(b), {'\n', '\r'});
    NothingSkipped(b, StdEncode(b), {' ', '\t', '\n', '\r', 12 as char});
  }

  /** A letter, a digit, a plus or a slash. */
  predicate InAlphabet(c: char) {
    'A' <= c <= 'Z' || 'a' <= c <= 'z' || '0' <= c <= '9' || c == '+' || c == '/'
  }

  /** The index of a character is its place in the alphabet, and no other character has one. */
  lemma IndexIsPlace(c: char, i: sextet)
    ensures StdIndex(c) == Some(i) <==> c == StdChar(i)
    ensures StdIndex(c).Some? <==> InAlphabet(c)
  {
  }

  lemma {:induction false} ReadsAlphabet(s: string)
    ensures ReadText(s).Some? <==> forall i :: 0 <= i < |s| ==> InAlphabet(s[i])
  {
    hide InAlphabet, StdIndex;
    if s != "" {
      IndexIsPlace(s[0], 0);
      ReadsAlphabet(s[1..]);
      assert forall i :: 1 <= i < |s| ==> s[i] == s[1..][i - 1];
    }
  }

  /** Whole groups of four, the last of them with up to two padding characters. */
  ghost predicate Padded(s: string) {
    && |s| % 4 == 0
    && exists n: nat :: n <= 2 && n <= |s| && PaddedBy(s, n)
  }

  predicate PaddedBy(s: string, n: nat)
    requires n <= |s|
  {
    && (forall i :: 0 <= i < |s| - n ==> InAlphabet(s[i]))
    && (forall i :: |s| - n <= i < |s| ==> s[i] == '=')
  }

  lemma PaddedMeans(s: string)
    ensures Padded(s) <==>
              |s| % 4 == 0 && forall i :: 0 <= i < |DropPadding(s)| ==> InAlphabet(DropPadding(s)[i])
  {
    hide InAlphabet;
    PaddingIsNoDigit();
    var n := |s| - |DropPadding(s)|;
    if |s| % 4 == 0 && forall i :: 0 <= i < |s| - n ==> InAlphabet(DropPadding(s)[i]) {
      assert PaddedBy(s, n);
    }
    if m: nat :| m <= 2 && m <= |s| && PaddedBy(s, m) && |s| % 4 == 0 {
      assert m == n;
    }
  }

  /** The Go decoder accepts well-padded text of the alphabet, with line breaks anywhere, and nothing else. */
  lemma StdDecodeAccepts(text: string)
    ensures StdDecode(text).Some? <==> Padded(Without(text, {'\n', '\r'}))
  {
    hide InAlphabet, Without, Padded, ReadText, DropPadding;
    var s := Without(text, {'\n', '\r'});
    PaddedMeans(s);
    ReadsAlphabet(DropPadding(s));
    if |s| % 4 == 0 {
      DroppedLength(s);
    }
  }

  lemma DroppedLength(s: string)
    requires |s| % 4 == 0
    ensures |DropPadding(s)| % 4 != 1
  {
  }

  lemma PaddingIsNoDigit()
    ensures !InAlphabet('=')
  {
  }

  /** Unpadded standard text decodes as well: `atob` does not need the padding back. */
  lemma UnpaddedRoundTrip(b: seq<byte>)
    ensures Atob(StdText(Sextets(b))) == Some(b)
  {
    hide Sextets, DecodeText, Without;
    var s := StdText(Sextets(b));
    StdTextIsAlphabetic(Sextets(b));
    DecodeStdText(b);
    NothingSkipped(b, s, {' ', '\t', '\n', '\r', 12 as char});
    if s != "" {
      assert s[|s| - 1] in s;
    }
  }

  // The Portal's own code

  function Replace(s: string, from: char, to: char): (r: string)
    ensures |r| == |s|
  {
    seq(|s|, i requires 0 <= i < |s| => if s[i] == from then to else s[i])
  }

  function StripEquals(s: string): string {
    if s != "" && s[|s| - 1] == '=' then StripEquals(s[..|s| - 1]) else s
  }

  function Latin1(b: seq<byte>): (s: string)
    ensures |s| == |b|
  {
    seq(|b|, i requires 0 <= i < |b| => b[i] as char)
  }

  /** The bytes of text whose code units all stay below 256. */
  function CharCodes(s: string): Option<seq<byte>> {
    if s == "" then Some([])
    else
      var rest := CharCodes(s[1..]);
      if s[0] as int < 256 && rest.Some? then Some([s[0] as int] + rest.value) else None
  }

  /** `btoa` rejects text with a code unit above 255. */
  function Btoa(s: string): Option<string> {
    match CharCodes(s)
    case Some(b) => Some(StdEncode(b))
    case None => None
  }

  lemma {:induction false} Latin1RoundTrip(b: seq<byte>)
    ensures CharCodes(Latin1(b)) == Some(b)
  {
    if b != [] {
      assert Latin1(b)[1..] == Latin1(b[1..]);
      Latin1RoundTrip(b[1..]);
      assert b == [b[0]] + b[1..];
    }
  }

  lemma StripOne(s: string)
    ensures StripEquals(s + "=") == StripEquals(s)
  {
    assert (s + "=")[..|s|] == s;
  }

  lemma StripPadded(s: string, n: nat)
    requires s != "" ==> s[|s| - 1] != '='
    ensures StripEquals(s + Padding(n)) == s
  {
    assert StripEquals(s) == s;
    hide StripEquals;
    StripOne(s);
    StripOne(s + "=");
    assert s + "==" == s + "=" + "=" && s + "" == s;
  }

  lemma ReplaceKeepsPadding(s: string, n: nat, from: char, to: char)
    requires from != '='
    ensures Replace(s + Padding(n), from, to) == Replace(s, from, to) + Padding(n)
  {
  }

  /** Swapping the alphabet turns standard text into URL text and back. */
  lemma SwappedAlphabet(t: seq<sextet>)
    ensures Replace(Replace(StdText(t), '+', '-'), '/', '_') == UrlText(t)
    ensures Replace(Replace(UrlText(t), '-', '+'), '_', '/') == StdText(t)
  {
  }

  lemma UrlTextEnd(t: seq<sextet>)
    ensures forall c :: c in UrlText(t) ==> c != '='
  {
  }

  method Base64UrlEncode(buf: seq<byte>) returns (text: string)
    ensures text == UrlEncode(buf)
  {
    var str := "";
    for i := 0 to |buf|
      invariant str == Latin1(buf[..i])
    {
      str := str + [buf[i] as char];
    }
    assert buf[..|buf|] == buf;
    Latin1RoundTrip(buf);
    var encoded := Btoa(str).value;
    text := StripEquals(Replace(Replace(encoded, '+', '-'), '/', '_'));
    StrippedIsUrl(buf);
  }

  lemma StrippedIsUrl(b: seq<byte>)
    ensures StripEquals(Replace(Replace(StdEncode(b), '+', '-'), '/', '_')) == UrlEncode(b)
  {
    var t, n := Sextets(b), |b|;
    ReplaceKeepsPadding(StdText(t), n, '+', '-');
    ReplaceKeepsPadding(Replace(StdText(t), '+', '-'), n, '/', '_');
    SwappedAlphabet(t);
    UrlTextEnd(t);
    StripPadded(UrlText(t), n);
  }

  /** The decoding inside `readJwtExpMs`, on one dot-separated part. */
  function DecodeJwtPart(part: string): Option<seq<byte>> {
    Atob(Replace(Replace(part, '-', '+'), '_', '/'))
  }

  /** What `base64UrlEncode` writes, the token reader recovers. */
  lemma UrlRoundTrip(b: seq<byte>)
    ensures DecodeJwtPart(UrlEncode(b)) == Some(b)
  {
    SwappedAlphabet(Sextets(b));
    UnpaddedRoundTrip(b);
  }

  predicate Unreserved(c: char) {
    'A' <= c <= 'Z' || 'a' <= c <= 'z' || '0' <= c <= '9' || c in {'-', '.', '_', '~'}
  }

  /** Section 4.1 of RFC 7636: 43 to 128 characters, all of them unreserved. */
  predicate IsCodeVerifier(s: string) {
    43 <= |s| <= 128 && forall c :: c in s ==> Unreserved(c)
  }

  /** n random bytes make a code verifier exactly when 32 <= n <= 96; the Portal takes 32. */
  lemma VerifierLength(b: seq<byte>)
    ensures |UrlEncode(b)| == (4 * |b| + 2) / 3
    ensures IsCodeVerifier(UrlEncode(b)) <==> 32 <= |b| <= 96
  {
    var t := Sextets(b);
    forall c | c in UrlText(t)
      ensures Unreserved(c)
    {
      var i :| 0 <= i < |t| && c == UrlText(t)[i];
    }
  }

  /** Two verifiers or digests with the same text are the same bytes. */
  lemma UrlInjective(a: seq<byte>, b: seq<byte>)
    requires UrlEncode(a) == UrlEncode(b)
    ensures a == b
  {
    UrlRoundTrip(a);
    UrlRoundTrip(b);
  }
}
