// The text formats under the portal's links: dot-separated arms, lower-case
// hexadecimal, UUID text and 64-bit decimal numbers.
module Text {
  import opened Prelude

  // ----- separators -----------------------------------------------------

  // The first separator of a string is where the two cuts must agree.
  lemma FirstSeparator(c: char, a: string, b: string, a': string, b': string)
    requires c !in a && c !in a'
    requires a + [c] + b == a' + [c] + b'
    ensures a == a' && b == b'
  {
    var s, s' := a + [c] + b, a' + [c] + b';
    assert s[|a|] == c && s'[|a'|] == c;
    assert forall i :: 0 <= i < |a| ==> s[i] != c;
    assert forall i :: 0 <= i < |a'| ==> s'[i] != c;
    assert a == s[..|a|] && a' == s'[..|a'|];
    assert b == s[|a| + 1..] && b' == s'[|a'| + 1..];
  }

  // The same for the last separator.
  lemma LastSeparator(c: char, a: string, b: string, a': string, b': string)
    requires c !in b && c !in b'
    requires a + [c] + b == a' + [c] + b'
    ensures a == a' && b == b'
  {
    var s, s' := a + [c] + b, a' + [c] + b';
    assert s[|a|] == c && s'[|a'|] == c;
    assert forall i :: |a| < i < |s| ==> s[i] == b[i - |a| - 1] && s[i] != c;
    assert forall i :: |a'| < i < |s'| ==> s'[i] == b'[i - |a'| - 1] && s'[i] != c;
    assert a == s[..|a|] && a' == s'[..|a'|];
    assert b == s[|a| + 1..] && b' == s'[|a'| + 1..];
  }

  // One more character in front of an already split string.
  function Prepend(c: char, parts: seq<string>): (r: seq<string>)
    requires |parts| >= 1
    ensures |r| >= 1
  {
    if c == '.' then [""] + parts else [[c] + parts[0]] + parts[1..]
  }

  // `str::split('.')`: always at least one part.
  function Split(s: string): (parts: seq<string>)
    ensures |parts| >= 1
  {
    if s == "" then [""] else Prepend(s[0], Split(s[1..]))
  }

  lemma PrependConcat(c: char, parts: seq<string>, more: seq<string>)
    requires |parts| >= 1
    ensures Prepend(c, parts + more) == Prepend(c, parts) + more
  {
    assert (parts + more)[1..] == parts[1..] + more;
  }

  // `parts.join(".")`: the empty list joins to the empty string.
  function Join(parts: seq<string>): string {
    if |parts| == 0 then ""
    else if |parts| == 1 then parts[0]
    else parts[0] + "." + Join(parts[1..])
  }

  lemma {:induction false} SplitConcat(a: string, b: string)
    ensures Split(a + "." + b) == Split(a) + Split(b)
  {
    var w := a + "." + b;
    if a == "" {
      assert w[0] == '.' && w[1..] == b;
    } else {
      assert w[0] == a[0] && w[1..] == a[1..] + "." + b;
      SplitConcat(a[1..], b);
      PrependConcat(a[0], Split(a[1..]), Split(b));
    }
  }

  lemma {:induction false} SplitDotless(a: string)
    requires '.' !in a
    ensures Split(a) == [a]
  {
    if a != "" {
      SplitDotless(a[1..]);
      assert [a[0]] + a[1..] == a;
    }
  }

  lemma Regroup(a: string, b: string, c: string, d: string)
    ensures (a + b) + c + d == a + (b + c + d)
  {
  }

  lemma JoinPrepend(c: char, parts: seq<string>)
    requires |parts| >= 1
    ensures Join(Prepend(c, parts)) == [c] + Join(parts)
  {
    var p := Prepend(c, parts);
    if c == '.' {
      assert p[0] == "" && p[1..] == parts;
      assert Join(p) == "" + "." + Join(parts);
      assert "" + "." == [c];
    } else if |parts| > 1 {
      assert p[0] == [c] + parts[0] && p[1..] == parts[1..];
      Regroup([c], parts[0], ".", Join(parts[1..]));
    }
  }

  // Splitting loses nothing: the arms joined again are the string.
  lemma {:induction false} JoinSplit(s: string)
    ensures Join(Split(s)) == s
  {
    if s != "" {
      JoinSplit(s[1..]);
      JoinPrepend(s[0], Split(s[1..]));
    }
  }

  lemma {:induction false} SplitParts(s: string)
    ensures forall i :: 0 <= i < |Split(s)| ==> '.' !in Split(s)[i]
  {
    if s != "" {
      SplitParts(s[1..]);
    }
  }

  // Four parts are what four dotless strings with dots between them split
  // into, and nothing else does.
  lemma FourParts(s: string, a: string, b: string, c: string, d: string)
    ensures Split(s) == [a, b, c, d] <==>
            s == a + "." + b + "." + c + "." + d && '.' !in a && '.' !in b && '.' !in c && '.' !in d
  {
    if Split(s) == [a, b, c, d] {
      JoinSplit(s);
      SplitParts(s);
      var parts := [a, b, c, d];
      assert parts[0] == a && parts[1] == b && parts[2] == c && parts[3] == d;
      assert parts[1..] == [b, c, d] && [b, c, d][1..] == [c, d] && [c, d][1..] == [d];
      assert Join([c, d]) == c + "." + d;
      assert Join([b, c, d]) == b + "." + (c + "." + d);
      assert s == a + "." + (b + "." + (c + "." + d)) == a + "." + b + "." + c + "." + d;
    }
    if '.' !in a && '.' !in b && '.' !in c && '.' !in d {
      SplitFour(a, b, c, d);
    }
  }

  // A four-arm string cut at its three dots.
  lemma SplitFour(a: string, b: string, c: string, d: string)
    requires '.' !in a && '.' !in b && '.' !in c && '.' !in d
    ensures Split(a + "." + b + "." + c + "." + d) == [a, b, c, d]
  {
    SplitDotless(a);
    SplitDotless(b);
    SplitDotless(c);
    SplitDotless(d);
    SplitConcat(a, b);
    SplitConcat(a + "." + b, c);
    SplitConcat(a + "." + b + "." + c, d);
  }

  // ----- hexadecimal (section 8 of RFC 4648, printed in lower case) -------

  type Byte = n: nat | n < 256

  predicate IsHex(c: char) { '0' <= c <= '9' || 'a' <= c <= 'f' || 'A' <= c <= 'F' }

  predicate AllHex(s: string) { forall i :: 0 <= i < |s| ==> IsHex(s[i]) }

  function HexValue(c: char): (v: nat)
    requires IsHex(c)
    ensures v < 16
  {
    if '0' <= c <= '9' then c as nat - '0' as nat
    else if 'a' <= c <= 'f' then c as nat - 'a' as nat + 10
    else c as nat - 'A' as nat + 10
  }

  function HexDigit(v: nat): (c: char)
    requires v < 16
    ensures c == "0123456789abcdef"[v] && IsHex(c) && HexValue(c) == v && !('A' <= c <= 'F')
  {
    if v < 10 then ('0' as nat + v) as char else ('a' as nat + v - 10) as char
  }

  function LowerDigit(c: char): char {
    if 'A' <= c <= 'F' then (c as nat + 32) as char else c
  }

  // The lower-case spelling of a hexadecimal string.
  function LowerHex(s: string): (r: string)
    ensures |r| == |s|
  {
    seq(|s|, i requires 0 <= i < |s| => LowerDigit(s[i]))
  }

  lemma LowerDigitValue(c: char)
    requires IsHex(c)
    ensures LowerDigit(c) == HexDigit(HexValue(c))
  {
  }

  function EncodeHex(bytes: seq<Byte>): (s: string)
    ensures |s| == 2 * |bytes|
  {
    seq(2 * |bytes|, k requires 0 <= k < 2 * |bytes| =>
      if k % 2 == 0 then HexDigit(bytes[k / 2] / 16) else HexDigit(bytes[k / 2] % 16))
  }

  function PairValue(s: string, i: nat): Byte
    requires AllHex(s) && 2 * i + 1 < |s|
  {
    16 * HexValue(s[2 * i]) + HexValue(s[2 * i + 1])
  }

  // What a hexadecimal string denotes: nothing unless every character is a
  // digit and the digits pair up.
  function DecodeHex(s: string): (r: Option<seq<Byte>>) {
    if |s| % 2 != 0 || !AllHex(s) then None
    else Some(seq(|s| / 2, i requires 0 <= i < |s| / 2 => PairValue(s, i)))
  }

  function ToDigit(c: char): Option<nat> {
    if IsHex(c) then Some(HexValue(c)) else None
  }

  // `hex_decode`: walks the string two characters at a time and gives up at
  // the first one that is not a digit.
  method HexDecode(s: string) returns (r: Option<seq<Byte>>)
    ensures r == DecodeHex(s)
  {
    if |s| % 2 != 0 {
      return None;
    }
    var out: seq<Byte> := [];
    var i := 0;
    while i < |s|
      invariant 0 <= i <= |s| && i % 2 == 0
      invariant forall k :: 0 <= k < i ==> IsHex(s[k])
      invariant |out| == i / 2
      invariant forall k :: 0 <= k < |out| ==> out[k] == 16 * HexValue(s[2 * k]) + HexValue(s[2 * k + 1])
    {
      var hi, lo := ToDigit(s[i]), ToDigit(s[i + 1]);
      if hi.None? || lo.None? {
        return None;
      }
      out := out + [hi.value * 16 + lo.value];
      i := i + 2;
    }
    assert DecodeHex(s).Some? && out == DecodeHex(s).value;
    return Some(out);
  }

  // Decoding an encoded byte string returns it.
  lemma DecodeEncode(bytes: seq<Byte>)
    ensures DecodeHex(EncodeHex(bytes)) == Some(bytes)
  {
    var s := EncodeHex(bytes);
    assert AllHex(s);
    var d := DecodeHex(s).value;
    assert |d| == |bytes|;
    forall i | 0 <= i < |bytes| ensures d[i] == bytes[i] {
      assert s[2 * i] == HexDigit(bytes[i] / 16) && s[2 * i + 1] == HexDigit(bytes[i] % 16);
    }
    assert d == bytes;
  }

  // Encoding a decoded string gives its lower-case spelling.
  lemma EncodeDecode(s: string)
    requires DecodeHex(s).Some?
    ensures EncodeHex(DecodeHex(s).value) == LowerHex(s)
  {
    var d := DecodeHex(s).value;
    var e := EncodeHex(d);
    assert |e| == |s|;
    forall k | 0 <= k < |s| ensures e[k] == LowerHex(s)[k] {
      LowerDigitValue(s[k]);
      assert d[k / 2] == PairValue(s, k / 2);
      if k % 2 == 0 {
        assert d[k / 2] / 16 == HexValue(s[k]);
      } else {
        assert d[k / 2] % 16 == HexValue(s[k]);
      }
    }
  }

  // Two spellings denote the same bytes exactly when they differ only in
  // letter case.
  lemma SameBytesSameLetters(s: string, bytes: seq<Byte>)
    requires |s| == 2 * |bytes| && AllHex(s)
    ensures DecodeHex(s) == Some(bytes) <==> LowerHex(s) == EncodeHex(bytes)
  {
    EncodeDecode(s);
    if LowerHex(s) == EncodeHex(bytes) {
      DecodeEncode(bytes);
      DecodeEncode(DecodeHex(s).value);
    }
  }

  // ----- fixed-width hexadecimal numbers ----------------------------------

  function Pow16(k: nat): (p: nat)
    ensures p >= 1
  {
    if k == 0 then 1 else 16 * Pow16(k - 1)
  }

  function HexNumber(n: nat, width: nat): (s: string)
    requires n < Pow16(width)
    ensures |s| == width && AllHex(s)
  {
    if width == 0 then "" else HexNumber(n / 16, width - 1) + [HexDigit(n % 16)]
  }

  function NumberOfHex(s: string): (n: nat)
    requires AllHex(s)
    ensures n < Pow16(|s|)
  {
    if s == "" then 0
    else
      var init := s[..|s| - 1];
      assert AllHex(init);
      16 * NumberOfHex(init) + HexValue(s[|s| - 1])
  }

  lemma {:induction false} HexNumberRoundTrip(n: nat, width: nat)
    requires n < Pow16(width)
    ensures NumberOfHex(HexNumber(n, width)) == n
  {
    if width > 0 {
      HexNumberRoundTrip(n / 16, width - 1);
      var s := HexNumber(n, width);
      assert s[..|s| - 1] == HexNumber(n / 16, width - 1);
    }
  }

  lemma {:induction false} LowerHexNumber(s: string, n: nat)
    requires AllHex(s) && n < Pow16(|s|)
    ensures NumberOfHex(s) == n <==> LowerHex(s) == HexNumber(n, |s|)
  {
    if s != "" {
      var init, last := s[..|s| - 1], s[|s| - 1];
      LowerHexNumber(init, n / 16);
      LowerDigitValue(last);
      assert LowerHex(s) == LowerHex(init) + [LowerDigit(last)];
      if LowerHex(s) == HexNumber(n, |s|) {
        assert LowerHex(s)[..|init|] == LowerHex(init) && LowerHex(s)[|init|] == HexDigit(n % 16);
      }
    }
  }

  // ----- UUID text (section 4 of RFC 9562) --------------------------------

  lemma UuidDigits()
    ensures Pow16(32) == 0x1_0000_0000_0000_0000_0000_0000_0000_0000
  {
    assert Pow16(8) == 0x1_0000_0000;
    assert Pow16(16) == 0x1_0000_0000_0000_0000;
    assert Pow16(24) == 0x1_0000_0000_0000_0000_0000_0000;
  }

  function Hyphenate(h: string): (s: string)
    requires |h| == 32
    ensures |s| == 36
  {
    h[..8] + ("-" + (h[8..12] + ("-" + (h[12..16] + ("-" + (h[16..20] + ("-" + h[20..])))))))
  }

  function Unhyphenate(s: string): (h: string)
    requires |s| == 36
    ensures |h| == 32
  {
    s[..8] + (s[9..13] + (s[14..18] + (s[19..23] + s[24..])))
  }

  lemma HyphenateFacts(h: string)
    requires |h| == 32 && AllHex(h)
    ensures Unhyphenate(Hyphenate(h)) == h
    ensures forall i :: 0 <= i < 36 ==>
      if i == 8 || i == 13 || i == 18 || i == 23 then Hyphenate(h)[i] == '-' else IsHex(Hyphenate(h)[i])
  {
    var s := Hyphenate(h);
    assert forall i :: 0 <= i < 8 ==> s[i] == h[i];
    assert s[8] == '-' && forall i :: 9 <= i < 13 ==> s[i] == h[i - 1];
    assert s[13] == '-' && forall i :: 14 <= i < 18 ==> s[i] == h[i - 2];
    assert s[18] == '-' && forall i :: 19 <= i < 23 ==> s[i] == h[i - 3];
    assert s[23] == '-' && forall i :: 24 <= i < 36 ==> s[i] == h[i - 4];
    hide Hyphenate;
    assert s[..8] == h[..8] && s[9..13] == h[8..12] && s[14..18] == h[12..16];
    assert s[19..23] == h[16..20] && s[24..] == h[20..];
    assert h == h[..8] + (h[8..12] + (h[12..16] + (h[16..20] + h[20..])));
  }

  // The printed form: groups of 8, 4, 4, 4 and 12 digits.
  function PrintUuid(u: Uuid): (s: string)
    ensures |s| == 36
  {
    UuidDigits();
    Hyphenate(HexNumber(u, 32))
  }

  function ParseHyphenated(s: string): (r: Option<Uuid>)
    requires |s| == 36
  {
    UuidDigits();
    if s[8] == '-' && s[13] == '-' && s[18] == '-' && s[23] == '-' && AllHex(Unhyphenate(s)) then
      Some(NumberOfHex(Unhyphenate(s)))
    else None
  }

  // `Uuid::parse_str`: bare digits, hyphenated, braced, or a URN, with
  // digits in either case.
  function ParseUuid(s: string): (r: Option<Uuid>) {
    UuidDigits();
    if |s| == 32 then (if AllHex(s) then Some(NumberOfHex(s)) else None)
    else if |s| == 36 then ParseHyphenated(s)
    else if |s| == 38 && s[0] == '{' && s[37] == '}' then ParseHyphenated(s[1..37])
    else if |s| == 45 && s[..9] == "urn:uuid:" then ParseHyphenated(s[9..])
    else None
  }

  lemma UuidRoundTrip(u: Uuid)
    ensures ParseUuid(PrintUuid(u)) == Some(u)
    ensures '.' !in PrintUuid(u) && '|' !in PrintUuid(u)
  {
    UuidDigits();
    HyphenateFacts(HexNumber(u, 32));
    HexNumberRoundTrip(u, 32);
    var s := PrintUuid(u);
    forall c | c in s ensures c == '-' || IsHex(c) {
      var i :| 0 <= i < |s| && s[i] == c;
    }
  }

  // The printed form is 32 lower-case digits in groups of 8, 4, 4, 4 and 12.
  lemma UuidShape(u: Uuid)
    ensures forall i :: 0 <= i < 36 ==>
              if i == 8 || i == 13 || i == 18 || i == 23 then PrintUuid(u)[i] == '-'
              else '0' <= PrintUuid(u)[i] <= '9' || 'a' <= PrintUuid(u)[i] <= 'f'
    ensures LowerHex(PrintUuid(u)) == PrintUuid(u)
  {
    UuidDigits();
    var h := HexNumber(u, 32);
    HyphenateFacts(h);
    HexNumberRoundTrip(u, 32);
    LowerHexNumber(h, u);
    assert forall i :: 0 <= i < 32 ==> h[i] == LowerHex(h)[i];
    assert forall i :: 0 <= i < 32 ==> '0' <= h[i] <= '9' || 'a' <= h[i] <= 'f';
    forall i | 0 <= i < 36 && i != 8 && i != 13 && i != 18 && i != 23
      ensures '0' <= PrintUuid(u)[i] <= '9' || 'a' <= PrintUuid(u)[i] <= 'f'
    {
      var k := if i < 8 then i else if i < 13 then i - 1 else if i < 18 then i - 2 else if i < 23 then i - 3 else i - 4;
      assert Hyphenate(h)[i] == h[k];
    }
  }

  lemma LowerGroups(s: string)
    requires |s| == 36
    ensures Unhyphenate(LowerHex(s)) == LowerHex(Unhyphenate(s))
    ensures forall i :: 0 <= i < 36 ==> (LowerHex(s)[i] == '-' <==> s[i] == '-')
  {
  }

  lemma LowerIsHex(h: string, p: string)
    requires LowerHex(h) == p && AllHex(p)
    ensures AllHex(h)
  {
    forall i | 0 <= i < |h| ensures IsHex(h[i]) {
      assert p[i] == LowerDigit(h[i]);
    }
  }

  lemma HyphenatedSpelling(s: string, u: Uuid)
    requires |s| == 36
    ensures ParseHyphenated(s) == Some(u) <==> LowerHex(s) == PrintUuid(u)
  {
    UuidDigits();
    UuidShape(u);
    LowerGroups(s);
    var h, p := Unhyphenate(s), HexNumber(u, 32);
    HyphenateFacts(p);
    assert PrintUuid(u) == Hyphenate(p);
    hide Hyphenate, Unhyphenate, HexNumber, NumberOfHex, PrintUuid, LowerHex;
    if AllHex(h) {
      LowerHexNumber(h, u);
    }
    if ParseHyphenated(s) == Some(u) {
      SameGroups(LowerHex(s), PrintUuid(u));
    }
    if LowerHex(s) == PrintUuid(u) {
      LowerIsHex(h, p);
    }
  }

  lemma SameGroups(s: string, t: string)
    requires |s| == |t| == 36 && Unhyphenate(s) == Unhyphenate(t)
    requires s[8] == t[8] && s[13] == t[13] && s[18] == t[18] && s[23] == t[23]
    ensures s == t
  {
    var h, k := Unhyphenate(s), Unhyphenate(t);
    assert s[..8] == h[..8] && t[..8] == k[..8] && s[9..13] == h[8..12] && t[9..13] == k[8..12];
    assert s[14..18] == h[12..16] && t[14..18] == k[12..16] && s[19..23] == h[16..20] && t[19..23] == k[16..20];
    assert s[24..] == h[20..] && t[24..] == k[20..];
    forall i | 0 <= i < 36 ensures s[i] == t[i] {
      if i < 8 {
        assert s[i] == s[..8][i];
      } else if 9 <= i < 13 {
        assert s[i] == s[9..13][i - 9] && t[i] == t[9..13][i - 9];
      } else if 14 <= i < 18 {
        assert s[i] == s[14..18][i - 14] && t[i] == t[14..18][i - 14];
      } else if 19 <= i < 23 {
        assert s[i] == s[19..23][i - 19] && t[i] == t[19..23][i - 19];
      } else if 24 <= i {
        assert s[i] == s[24..][i - 24] && t[i] == t[24..][i - 24];
      }
    }
  }

  lemma BareSpelling(s: string, u: Uuid)
    requires |s| == 32
    ensures ParseUuid(s) == Some(u) <==> LowerHex(s) == Unhyphenate(PrintUuid(u))
  {
    UuidDigits();
    var h := HexNumber(u, 32);
    HyphenateFacts(h);
    if AllHex(s) {
      LowerHexNumber(s, u);
    } else if LowerHex(s) == h {
      forall i | 0 <= i < 32 ensures IsHex(s[i]) {
        assert LowerHex(s)[i] == LowerDigit(s[i]) && IsHex(h[i]);
      }
    }
  }

  // The texts of a UUID are its printed form with digits of either case,
  // bare, in braces or after `urn:uuid:`, and its 32 digits on their own.
  lemma UuidTexts(s: string, u: Uuid)
    ensures ParseUuid(s) == Some(u) <==>
            || LowerHex(s) == PrintUuid(u)
            || LowerHex(s) == Unhyphenate(PrintUuid(u))
            || (|s| == 38 && s == "{" + s[1..37] + "}" && LowerHex(s[1..37]) == PrintUuid(u))
            || (|s| == 45 && s == "urn:uuid:" + s[9..] && LowerHex(s[9..]) == PrintUuid(u))
  {
    if |s| == 32 {
      BareSpelling(s, u);
    }
    hide Hyphenate, Unhyphenate, ParseHyphenated, PrintUuid, LowerHex, HexNumber, NumberOfHex;
    if |s| == 36 {
      HyphenatedSpelling(s, u);
    } else if |s| == 38 {
      HyphenatedSpelling(s[1..37], u);
      assert s == "{" + s[1..37] + "}" <==> s[0] == '{' && s[37] == '}';
    } else if |s| == 45 {
      HyphenatedSpelling(s[9..], u);
      assert s == "urn:uuid:" + s[9..] <==> s[..9] == "urn:uuid:";
    }
  }

  lemma UuidInjective(u: Uuid, v: Uuid)
    requires PrintUuid(u) == PrintUuid(v)
    ensures u == v
  {
    UuidRoundTrip(u);
    UuidRoundTrip(v);
    hide ParseUuid, PrintUuid;
  }

  // ----- 64-bit decimals --------------------------------------------------

  const I64_MIN: int := -0x8000_0000_0000_0000
  const I64_MAX: int := 0x7FFF_FFFF_FFFF_FFFF

  predicate IsI64(n: int) { I64_MIN <= n <= I64_MAX }

  predicate IsDigit(c: char) { '0' <= c <= '9' }

  predicate AllDigits(s: string) { forall i :: 0 <= i < |s| ==> IsDigit(s[i]) }

  function PrintNat(n: nat): (s: string)
    ensures |s| >= 1 && AllDigits(s)
  {
    var d := [('0' as nat + n % 10) as char];
    if n < 10 then d else PrintNat(n / 10) + d
  }

  function PrintInt(n: int): string {
    if n < 0 then "-" + PrintNat(-n) else PrintNat(n)
  }

  function NumberOfDigits(s: string): nat
    requires AllDigits(s)
  {
    if s == "" then 0
    else
      var init := s[..|s| - 1];
      assert AllDigits(init);
      10 * NumberOfDigits(init) + (s[|s| - 1] as nat - '0' as nat)
  }

  function ReadDigits(negative: bool, body: string): (r: Option<int>)
    ensures r.Some? ==> IsI64(r.value)
  {
    if body == "" || !AllDigits(body) then None
    else
      var n: int := NumberOfDigits(body);
      var v := if negative then -n else n;
      if IsI64(v) then Some(v) else None
  }

  // `str::parse::<i64>`: an optional sign, then at least one digit; leading
  // zeros are accepted, a value outside 64 bits is not.
  function ParseI64(s: string): (r: Option<int>)
    ensures r.Some? ==> IsI64(r.value)
  {
    if s != "" && s[0] == '-' then ReadDigits(true, s[1..])
    else if s != "" && s[0] == '+' then ReadDigits(false, s[1..])
    else ReadDigits(false, s)
  }

  lemma {:induction false} NatRoundTrip(n: nat)
    ensures NumberOfDigits(PrintNat(n)) == n
  {
    var s := PrintNat(n);
    if n < 10 {
      assert s[..|s| - 1] == "";
    } else {
      NatRoundTrip(n / 10);
      assert s[..|s| - 1] == PrintNat(n / 10);
    }
  }

  lemma I64RoundTrip(n: int)
    requires IsI64(n)
    ensures ParseI64(PrintInt(n)) == Some(n)
  {
    var s := PrintInt(n);
    if n < 0 {
      NatRoundTrip(-n);
      assert s[0] == '-' && s[1..] == PrintNat(-n);
      assert ReadDigits(true, s[1..]) == Some(n);
    } else {
      NatRoundTrip(n);
      assert IsDigit(s[0]);
      assert ReadDigits(false, s) == Some(n);
    }
  }

  // The printed form has no sign but a minus and no leading zero.
  lemma {:induction false} PrintNatShape(n: nat)
    ensures PrintNat(n)[0] == '0' <==> n == 0
  {
    if n >= 10 {
      PrintNatShape(n / 10);
    }
  }

  lemma PrintIntShape(n: int)
    ensures PrintInt(n)[0] == '-' <==> n < 0
    ensures var digits := if n < 0 then PrintInt(n)[1..] else PrintInt(n);
            digits != "" && AllDigits(digits) && (digits[0] == '0' <==> n == 0)
  {
    PrintNatShape(if n < 0 then -n else n);
    if n < 0 {
      assert PrintInt(n)[1..] == PrintNat(-n);
    }
  }

  lemma PrintIntPlain(n: int)
    ensures '.' !in PrintInt(n) && '|' !in PrintInt(n)
  {
    forall c | c in PrintInt(n) ensures c == '-' || IsDigit(c) {}
  }

  lemma PrintIntInjective(m: int, n: int)
    requires PrintInt(m) == PrintInt(n)
    ensures m == n
  {
    NatRoundTrip(if m < 0 then -m else m);
    NatRoundTrip(if n < 0 then -n else n);
    assert (m < 0) == (PrintInt(m)[0] == '-') by { assert m >= 0 ==> IsDigit(PrintInt(m)[0]); }
    assert (n < 0) == (PrintInt(n)[0] == '-') by { assert n >= 0 ==> IsDigit(PrintInt(n)[0]); }
    if m < 0 {
      assert PrintInt(m)[1..] == PrintNat(-m) && PrintInt(n)[1..] == PrintNat(-n);
    }
  }

  // ----- emails -----------------------------------------------------------

  predicate IsBlank(c: char) { c == ' ' || '\t' <= c <= '\r' }

  function TrimLeft(s: string): string {
    if s != "" && IsBlank(s[0]) then TrimLeft(s[1..]) else s
  }

  function TrimRight(s: string): string {
    if s != "" && IsBlank(s[|s| - 1]) then TrimRight(s[..|s| - 1]) else s
  }

  function LowerChar(c: char): char {
    if 'A' <= c <= 'Z' then (c as nat + 32) as char else c
  }

  function Lower(s: string): (r: string)
    ensures |r| == |s| && forall i :: 0 <= i < |s| ==> r[i] == LowerChar(s[i])
  {
    seq(|s|, i requires 0 <= i < |s| => LowerChar(s[i]))
  }

  // `normalize_email`: trim, then lower-case.
  function NormalizeEmail(email: string): string {
    Lower(TrimRight(TrimLeft(email)))
  }

  predicate Trimmed(s: string) {
    s == "" || (!IsBlank(s[0]) && !IsBlank(s[|s| - 1]))
  }

  lemma {:induction false} TrimLeftFacts(s: string)
    ensures TrimLeft(s) == "" || !IsBlank(TrimLeft(s)[0])
  {
    if s != "" && IsBlank(s[0]) {
      TrimLeftFacts(s[1..]);
    }
  }

  lemma {:induction false} TrimRightFacts(s: string)
    ensures var t := TrimRight(s); t == "" || (!IsBlank(t[|t| - 1]) && s != "" && t[0] == s[0])
  {
    if s != "" && IsBlank(s[|s| - 1]) {
      TrimRightFacts(s[..|s| - 1]);
    }
  }

  predicate AllBlank(s: string) { forall i :: 0 <= i < |s| ==> s[i] == ' ' || '\t' <= s[i] <= '\r' }

  lemma {:induction false} TrimmedLeft(s: string) returns (a: string)
    ensures s == a + TrimLeft(s) && AllBlank(a)
  {
    a := "";
    if s != "" && IsBlank(s[0]) {
      var rest := TrimmedLeft(s[1..]);
      a := [s[0]] + rest;
    }
  }

  lemma {:induction false} TrimmedRight(s: string) returns (b: string)
    ensures s == TrimRight(s) + b && AllBlank(b)
  {
    b := "";
    if s != "" && IsBlank(s[|s| - 1]) {
      var rest := TrimmedRight(s[..|s| - 1]);
      b := rest + [s[|s| - 1]];
    }
  }

  // Normalising takes the blanks off both ends and lowers the capitals left.
  lemma NormalizeMeans(email: string) returns (a: string, t: string, b: string)
    ensures email == a + t + b && AllBlank(a) && AllBlank(b)
    ensures t != "" ==> !AllBlank([t[0]]) && !AllBlank([t[|t| - 1]])
    ensures |NormalizeEmail(email)| == |t|
    ensures forall i :: 0 <= i < |t| ==>
              NormalizeEmail(email)[i] == if 'A' <= t[i] <= 'Z' then (t[i] as int + 32) as char else t[i]
  {
    a := TrimmedLeft(email);
    b := TrimmedRight(TrimLeft(email));
    t := TrimRight(TrimLeft(email));
    TrimLeftFacts(email);
    TrimRightFacts(TrimLeft(email));
    if t != "" {
      assert !IsBlank([t[0]][0]) && !IsBlank([t[|t| - 1]][0]);
    }
  }

  // Normal forms are exactly the trimmed strings without capitals.
  lemma NormalForm(email: string)
    ensures NormalizeEmail(email) == email <==> Trimmed(email) && Lower(email) == email
    ensures Trimmed(NormalizeEmail(email)) && Lower(NormalizeEmail(email)) == NormalizeEmail(email)
  {
    TrimLeftFacts(email);
    TrimRightFacts(TrimLeft(email));
    var n := NormalizeEmail(email);
    assert Lower(n) == n;
    assert Trimmed(n);
  }

  // Normalising twice is normalising once.
  lemma NormalizeIdempotent(email: string)
    ensures NormalizeEmail(NormalizeEmail(email)) == NormalizeEmail(email)
  {
    NormalForm(email);
    NormalForm(NormalizeEmail(email));
  }

  // The length of a string in bytes of UTF-8 (section 3 of RFC 3629).
  function Utf8Length(s: string): nat {
    if s == "" then 0
    else
      var c := s[0] as nat;
      (if c < 0x80 then 1 else if c < 0x800 then 2 else if c < 0x10000 then 3 else 4) + Utf8Length(s[1..])
  }

  // Never fewer bytes than characters.
  lemma {:induction false} Utf8LengthAtLeast(s: string)
    ensures Utf8Length(s) >= |s|
  {
    if s != "" {
      Utf8LengthAtLeast(s[1..]);
    }
  }
}
