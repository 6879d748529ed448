/** `zagens://open` deep links (crates/config/src/deep_link.rs).

    Rust strings are UTF-8; here a string stands for its bytes, one `char` below U+0100 per byte, so that
    percent-encoding (section 2.1 of RFC 3986) acts on bytes as it does in the source. */
module DeepLink {
  import opened Text

  ghost predicate IsBytes(s: string) {
    forall i :: 0 <= i < |s| ==> s[i] as int < 256
  }

  // ---- Percent-encoding ----

  predicate Unreserved(c: char) {
    IsAsciiAlnum(c) || c == '-' || c == '_' || c == '.' || c == '~'
  }

  function UpperHex(n: nat): (c: char)
    requires n < 16
    ensures HexValue(c) == Some(n)
  {
    if n < 10 then ('0' as int + n) as char else ('A' as int + n - 10) as char
  }

  function HexValue(c: char): Option<nat> {
    if '0' <= c <= '9' then Some(c as int - '0' as int)
    else if 'a' <= c <= 'f' then Some(c as int - 'a' as int + 10)
    else if 'A' <= c <= 'F' then Some(c as int - 'A' as int + 10)
    else None
  }

  /** `u8::from_str_radix` on two bytes: two hex digits, or a plus sign and one. */
  function HexPair(a: char, b: char): (v: Option<nat>)
    ensures v.Some? ==> v.value < 256
  {
    if HexValue(b).None? then None
    else if a == '+' then HexValue(b)
    else if HexValue(a).None? then None
    else Some(16 * HexValue(a).value + HexValue(b).value)
  }

  function EncodeByte(b: char): string
    requires b as int < 256
  {
    if Unreserved(b) then [b]
    else if b == ' ' then "%20"
    else ['%', UpperHex(b as int / 16), UpperHex(b as int % 16)]
  }

  function Encoded(s: string): string
    requires IsBytes(s)
  {
    if s == "" then "" else EncodeByte(s[0]) + Encoded(s[1..])
  }

  function Decoded(s: string): string {
    if s == "" then ""
    else if s[0] == '%' && |s| > 2 && HexPair(s[1], s[2]).Some? then
      [HexPair(s[1], s[2]).value as char] + Decoded(s[3..])
    else [s[0]] + Decoded(s[1..])
  }

  method EncodeQueryComponent(input: string) returns (out: string)
    requires IsBytes(input)
    ensures out == Encoded(input)
  {
    out := "";
    for i := 0 to |input|
      invariant out + Encoded(input[i..]) == Encoded(input)
    {
      assert input[i..][1..] == input[i + 1..];
      out := out + EncodeByte(input[i]);
    }
    assert input[|input|..] == "";
  }

  lemma DecodeEncodedByte(b: char, rest: string)
    requires b as int < 256
    ensures Decoded(EncodeByte(b) + rest) == [b] + Decoded(rest)
  {
    var s := EncodeByte(b) + rest;
    if Unreserved(b) {
      assert s[1..] == rest;
    } else {
      assert s == ['%', UpperHex(b as int / 16), UpperHex(b as int % 16)] + rest by {
        assert ' ' as int == 32 && UpperHex(2) == '2' && UpperHex(0) == '0';
      }
      assert s[3..] == rest;
    }
  }

  /** Unescaping inverts encoding on every byte string. */
  lemma {:induction false} DecodeInvertsEncode(s: string)
    requires IsBytes(s)
    ensures Decoded(Encoded(s)) == s
  {
    if s != "" {
      DecodeEncodedByte(s[0], Encoded(s[1..]));
      DecodeInvertsEncode(s[1..]);
      assert s == [s[0]] + s[1..];
    }
  }

  lemma EncodedByteIsSafe(b: char)
    requires b as int < 256
    ensures EncodeByte(b) != ""
    ensures forall i :: 0 <= i < |EncodeByte(b)| ==> Unreserved(EncodeByte(b)[i]) || EncodeByte(b)[i] == '%'
  {
  }

  /** An encoded component is made of unreserved characters and percent signs alone. */
  lemma {:induction false} EncodedIsSafe(s: string)
    requires IsBytes(s)
    ensures forall i :: 0 <= i < |Encoded(s)| ==> Unreserved(Encoded(s)[i]) || Encoded(s)[i] == '%'
  {
    if s != "" {
      EncodedByteIsSafe(s[0]);
      EncodedIsSafe(s[1..]);
    }
  }

  lemma {:induction false} PlainDecodesToItself(s: string)
    requires '%' !in s
    ensures Decoded(s) == s
  {
    if s != "" {
      PlainDecodesToItself(s[1..]);
      assert s == [s[0]] + s[1..];
    }
  }

  predicate IsHexDigit(c: char) {
    '0' <= c <= '9' || 'a' <= c <= 'f' || 'A' <= c <= 'F'
  }

  function UpperCase(c: char): char {
    if 'a' <= c <= 'z' then (c as int - 32) as char else c
  }

  /** Which bytes are sent as they are. */
  lemma SentAsIsIff(b: char)
    requires b as int < 256
    ensures EncodeByte(b) == [b] <==>
              || 'A' <= b <= 'Z' || 'a' <= b <= 'z' || '0' <= b <= '9'
              || b == '-' || b == '_' || b == '.' || b == '~'
    ensures EncodeByte(b) != [b] ==> |EncodeByte(b)| == 3 && EncodeByte(b)[0] == '%'
  {
  }

  /** Escapes read alike in lower and upper case. */
  lemma EscapeCaseDoesNotMatter(a: char, b: char, rest: string)
    requires IsHexDigit(a) && IsHexDigit(b)
    ensures Decoded(['%', a, b] + rest) == Decoded(['%', UpperCase(a), UpperCase(b)] + rest)
  {
    var s, t := ['%', a, b] + rest, ['%', UpperCase(a), UpperCase(b)] + rest;
    assert s[3..] == rest && t[3..] == rest;
    assert HexValue(a) == HexValue(UpperCase(a)) && HexValue(b) == HexValue(UpperCase(b));
  }

  /** A plus sign reads like a zero in the first place of an escape. */
  lemma PlusReadsLikeZero(b: char, rest: string)
    requires IsHexDigit(b)
    ensures Decoded(['%', '+', b] + rest) == Decoded(['%', '0', b] + rest)
  {
    var s, t := ['%', '+', b] + rest, ['%', '0', b] + rest;
    assert s[3..] == rest && t[3..] == rest;
  }

  /** What is no escape stays as it is. */
  lemma BrokenEscapeStays(a: char, b: char, rest: string)
    requires !IsHexDigit(b) || (!IsHexDigit(a) && a != '+')
    ensures Decoded(['%', a, b] + rest) == ['%'] + Decoded([a, b] + rest)
  {
    var s := ['%', a, b] + rest;
    assert s[1..] == [a, b] + rest;
  }

  // ---- UTF-8 ----

  /** How many bytes a well-formed character with this first byte has; 0 if none starts with it. */
  function Need(first: char): (n: nat)
    ensures n <= 4
  {
    if first < '\U{80}' then 1
    else if '\U{C2}' <= first <= '\U{DF}' then 2
    else if '\U{E0}' <= first <= '\U{EF}' then 3
    else if '\U{F0}' <= first <= '\U{F4}' then 4
    else 0
  }

  predicate IsTail(b: char) {
    '\U{80}' <= b <= '\U{BF}'
  }

  /** The second byte is narrower after four first bytes: no overlong forms, no surrogates, nothing past U+10FFFF. */
  predicate IsSecond(first: char, b: char) {
    && IsTail(b)
    && (first == '\U{E0}' ==> b >= '\U{A0}')
    && (first == '\U{ED}' ==> b <= '\U{9F}')
    && (first == '\U{F0}' ==> b >= '\U{90}')
    && (first == '\U{F4}' ==> b <= '\U{8F}')
  }

  /** How many bytes at the start of `s` begin a well-formed character. */
  function Begun(s: string): (n: nat)
    requires s != ""
    ensures n <= |s| && n <= Need(s[0])
  {
    var need := Need(s[0]);
    if need == 0 then 0
    else if need == 1 || |s| == 1 || !IsSecond(s[0], s[1]) then 1
    else if need == 2 || |s| == 2 || !IsTail(s[2]) then 2
    else if need == 3 || |s| == 3 || !IsTail(s[3]) then 3
    else 4
  }

  predicate StartsWell(s: string): (w: bool)
    requires s != ""
    ensures w ==> 0 < Need(s[0]) <= |s|
  {
    Need(s[0]) > 0 && Begun(s) == Need(s[0])
  }

  predicate IsUtf8(s: string)
    decreases |s|
  {
    s == "" || (StartsWell(s) && IsUtf8(s[Need(s[0])..]))
  }

  /** A Unicode scalar value. */
  predicate IsScalar(n: nat) {
    n < 0xD800 || 0xE000 <= n < 0x11_0000
  }

  /** Its UTF-8 bytes. */
  function Utf8Of(n: nat): string
    requires IsScalar(n)
  {
    if n < 0x80 then [n as char]
    else if n < 0x800 then [(0xC0 + n / 64) as char, (0x80 + n % 64) as char]
    else if n < 0x1_0000 then
      [(0xE0 + n / 4096) as char, (0x80 + n / 64 % 64) as char, (0x80 + n % 64) as char]
    else
      [(0xF0 + n / 262144) as char, (0x80 + n / 4096 % 64) as char, (0x80 + n / 64 % 64) as char,
       (0x80 + n % 64) as char]
  }

  lemma ScalarIsWellFormed(n: nat)
    requires IsScalar(n)
    ensures var c := Utf8Of(n); c != "" && |c| == Need(c[0]) && StartsWell(c)
  {
    if 0x800 <= n < 0x1_0000 {
      ThreePartsFit(n);
    } else if n >= 0x1_0000 {
      FourPartsFit(n);
    }
  }

  lemma ThreePartsFit(n: nat)
    requires IsScalar(n) && 0x800 <= n < 0x1_0000
    ensures var c := Utf8Of(n); |c| == 3 == Need(c[0]) && IsSecond(c[0], c[1]) && IsTail(c[2])
  {
    var x, y := n / 4096, n / 64 % 64;
    assert x < 16 && (x == 0 ==> y >= 32) && (x == 13 ==> y < 32);
  }

  lemma FourPartsFit(n: nat)
    requires IsScalar(n) && n >= 0x1_0000
    ensures var c := Utf8Of(n); |c| == 4 == Need(c[0]) && IsSecond(c[0], c[1]) && IsTail(c[2]) && IsTail(c[3])
  {
    var w, x := n / 262144, n / 4096 % 64;
    assert w < 5 && (w == 0 ==> x >= 16) && (w == 4 ==> x < 16);
  }

  lemma WellFormedIsScalar(c: string) returns (n: nat)
    requires c != "" && |c| == Need(c[0]) && StartsWell(c)
    ensures IsScalar(n) && Utf8Of(n) == c
  {
    if |c| == 1 {
      n := c[0] as int;
    } else if |c| == 2 {
      n := (c[0] as int - 0xC0) * 64 + (c[1] as int - 0x80);
    } else if |c| == 3 {
      n := ThreeBytes(c);
    } else {
      n := FourBytes(c);
    }
  }

  lemma ThreeBytes(c: string) returns (n: nat)
    requires |c| == 3 == Need(c[0]) && StartsWell(c)
    ensures IsScalar(n) && Utf8Of(n) == c
  {
    var x, y, z := c[0] as int - 0xE0, c[1] as int - 0x80, c[2] as int - 0x80;
    n := x * 4096 + y * 64 + z;
    assert n % 64 == z && n / 64 == x * 64 + y && n / 4096 == x;
  }

  lemma FourBytes(c: string) returns (n: nat)
    requires |c| == 4 == Need(c[0]) && StartsWell(c)
    ensures IsScalar(n) && Utf8Of(n) == c
  {
    var w, x, y, z := FourParts(c);
    n := w * 262144 + x * 4096 + y * 64 + z;
    SixBitDigits(n, w, x, y, z);
    hide StartsWell, Need, IsTail, IsSecond;
  }

  lemma FourParts(c: string) returns (w: nat, x: nat, y: nat, z: nat)
    requires |c| == 4 == Need(c[0]) && StartsWell(c)
    ensures x < 64 && y < 64 && z < 64 && 16 <= w * 64 + x < 272
    ensures c == [(0xF0 + w) as char, (0x80 + x) as char, (0x80 + y) as char, (0x80 + z) as char]
  {
    w, x, y, z := c[0] as int - 0xF0, c[1] as int - 0x80, c[2] as int - 0x80, c[3] as int - 0x80;
  }

  lemma SixBitDigits(n: nat, w: nat, x: nat, y: nat, z: nat)
    requires x < 64 && y < 64 && z < 64 && n == w * 262144 + x * 4096 + y * 64 + z
    ensures n / 262144 == w && n / 4096 % 64 == x && n / 64 % 64 == y && n % 64 == z
  {
    assert n / 64 == w * 4096 + x * 64 + y && n / 4096 == w * 64 + x;
  }

  /** Well-formed characters are exactly the encodings of Unicode scalar values. */
  lemma WellFormedIff(c: string)
    requires c != ""
    ensures |c| == Need(c[0]) && StartsWell(c) <==> exists n: nat :: IsScalar(n) && Utf8Of(n) == c
  {
    hide StartsWell, Need, Utf8Of;
    if |c| == Need(c[0]) && StartsWell(c) {
      var n := WellFormedIsScalar(c);
    }
    forall n: nat | IsScalar(n) && Utf8Of(n) == c ensures |c| == Need(c[0]) && StartsWell(c) {
      ScalarIsWellFormed(n);
    }
  }

  /** U+FFFD. */
  const REPLACEMENT := "\U{EF}\U{BF}\U{BD}"

  /** `String::from_utf8_lossy`: each maximal beginning of a character that goes no further becomes U+FFFD. */
  function Lossy(s: string): string
    decreases |s|
  {
    if s == "" then ""
    else if StartsWell(s) then s[..Need(s[0])] + Lossy(s[Need(s[0])..])
    else REPLACEMENT + Lossy(s[if Begun(s) == 0 then 1 else Begun(s)..])
  }

  lemma CharacterThenUtf8(c: string, rest: string)
    requires c != "" && |c| == Need(c[0]) && StartsWell(c) && IsUtf8(rest)
    ensures IsUtf8(c + rest)
  {
    var s := c + rest;
    assert s[|c|..] == rest;
    assert Begun(s) == Begun(c);
  }

  lemma FirstCharacter(s: string)
    requires s != "" && StartsWell(s)
    ensures var c := s[..Need(s[0])]; c != "" && |c| == Need(c[0]) && StartsWell(c)
  {
    var c := s[..Need(s[0])];
    assert forall i :: 0 <= i < |c| ==> c[i] == s[i];
  }

  lemma ReplacementIsCharacter()
    ensures |REPLACEMENT| == Need(REPLACEMENT[0]) && StartsWell(REPLACEMENT)
  {
  }

  /** Whatever the bytes, the result is a string. */
  lemma {:induction false} LossyIsUtf8(s: string)
    ensures IsUtf8(Lossy(s))
    decreases |s|
  {
    hide StartsWell, Need, Begun, IsUtf8;
    if s == "" {
      EmptyIsUtf8();
    } else if StartsWell(s) {
      FirstCharacter(s);
      LossyIsUtf8(s[Need(s[0])..]);
      CharacterThenUtf8(s[..Need(s[0])], Lossy(s[Need(s[0])..]));
    } else {
      var rest := s[if Begun(s) == 0 then 1 else Begun(s)..];
      LossyIsUtf8(rest);
      ReplacementIsCharacter();
      CharacterThenUtf8(REPLACEMENT, Lossy(rest));
    }
  }

  lemma EmptyIsUtf8()
    ensures IsUtf8("")
  {
  }

  lemma ReplacementStartsWell(rest: string)
    ensures StartsWell(REPLACEMENT + rest)
  {
    var s := REPLACEMENT + rest;
    assert s[0] == REPLACEMENT[0] && s[1] == REPLACEMENT[1] && s[2] == REPLACEMENT[2];
  }

  /** Exact: the lossy conversion keeps bytes as they are if and only if they are well-formed. */
  lemma {:induction false} LossyKeepsIff(s: string)
    ensures Lossy(s) == s <==> IsUtf8(s)
    decreases |s|
  {
    hide StartsWell, Need, Begun;
    if s != "" {
      if StartsWell(s) {
        var n := Need(s[0]);
        LossyKeepsIff(s[n..]);
        assert s == s[..n] + s[n..];
        assert Lossy(s)[n..] == Lossy(s[n..]);
      } else {
        ReplacementStartsWell(Lossy(s[if Begun(s) == 0 then 1 else Begun(s)..]));
      }
    }
  }

  lemma {:induction false} AsciiIsUtf8(s: string)
    requires forall i :: 0 <= i < |s| ==> s[i] < '\U{80}'
    ensures IsUtf8(s)
  {
    if s != "" {
      AsciiIsUtf8(s[1..]);
    }
  }

  /** `percent_decode`: unescape, then make a string of the bytes. */
  function DecodedText(s: string): string {
    Lossy(Decoded(s))
  }

  method PercentDecode(input: string) returns (text: string)
    ensures text == DecodedText(input)
    ensures IsUtf8(text)
  {
    hide HexPair, HexValue, Decoded, IsUtf8, Lossy;
    var out := "";
    var i := 0;
    while i < |input|
      invariant 0 <= i <= |input|
      invariant out + Decoded(input[i..]) == Decoded(input)
    {
      if input[i] == '%' && i + 2 < |input| && HexPair(input[i + 1], input[i + 2]).Some? {
        DecodesEscape(input, i);
        out := out + [HexPair(input[i + 1], input[i + 2]).value as char];
        i := i + 3;
      } else {
        DecodesByte(input, i);
        out := out + [input[i]];
        i := i + 1;
      }
    }
    assert input[i..] == "";
    DecodesNothing();
    assert out + "" == out == Decoded(input);
    LossyIsUtf8(out);
    text := Lossy(out);
  }

  lemma DecodesNothing()
    ensures Decoded("") == ""
  {
  }

  lemma DecodesEscape(input: string, i: nat)
    requires i + 2 < |input| && input[i] == '%' && HexPair(input[i + 1], input[i + 2]).Some?
    ensures Decoded(input[i..]) == [HexPair(input[i + 1], input[i + 2]).value as char] + Decoded(input[i + 3..])
  {
    hide HexPair, HexValue;
    assert input[i..][3..] == input[i + 3..];
  }

  lemma DecodesByte(input: string, i: nat)
    requires i < |input|
    requires !(input[i] == '%' && i + 2 < |input| && HexPair(input[i + 1], input[i + 2]).Some?)
    ensures Decoded(input[i..]) == [input[i]] + Decoded(input[i + 1..])
  {
    hide HexPair, HexValue;
    assert input[i..][1..] == input[i + 1..];
  }

  /** The bytes of a Rust string. */
  ghost predicate IsText(s: string) {
    IsBytes(s) && IsUtf8(s)
  }

  /** Decoding inverts encoding on every string. */
  lemma TextRoundTrip(s: string)
    requires IsText(s)
    ensures DecodedText(Encoded(s)) == s
  {
    DecodeInvertsEncode(s);
    LossyKeepsIff(s);
  }

  // ---- Trimming bytes ----

  /** The UTF-8 encodings of Unicode White_Space. */
  predicate IsSpaceBytes(b: string) {
    || (|b| == 1 && ('\t' <= b[0] <= '\r' || b[0] == ' '))
    || (|b| == 2 && b[0] == '\U{C2}' && (b[1] == '\U{85}' || b[1] == '\U{A0}'))
    || (|b| == 3 && b[0] == '\U{E1}' && b[1] == '\U{9A}' && b[2] == '\U{80}')
    || (|b| == 3 && b[0] == '\U{E2}' && b[1] == '\U{80}'
        && ('\U{80}' <= b[2] <= '\U{8A}' || b[2] == '\U{A8}' || b[2] == '\U{A9}' || b[2] == '\U{AF}'))
    || (|b| == 3 && b[0] == '\U{E2}' && b[1] == '\U{81}' && b[2] == '\U{9F}')
    || (|b| == 3 && b[0] == '\U{E3}' && b[1] == '\U{80}' && b[2] == '\U{80}')
  }

  predicate StartsInSpace(s: string, n: nat) {
    n <= |s| && IsSpaceBytes(s[..n])
  }

  predicate EndsInSpace(s: string, n: nat) {
    n <= |s| && IsSpaceBytes(s[|s| - n..])
  }

  /** How many bytes of white space `s` starts with: 0 to 3. */
  function SpacePrefix(s: string): (n: nat)
    ensures n <= |s|
  {
    if StartsInSpace(s, 1) then 1 else if StartsInSpace(s, 2) then 2 else if StartsInSpace(s, 3) then 3 else 0
  }

  function SpaceSuffix(s: string): (n: nat)
    ensures n <= |s|
  {
    if EndsInSpace(s, 1) then 1 else if EndsInSpace(s, 2) then 2 else if EndsInSpace(s, 3) then 3 else 0
  }

  function TrimStartBytes(s: string): string
    decreases |s|
  {
    if SpacePrefix(s) == 0 then s else TrimStartBytes(s[SpacePrefix(s)..])
  }

  function TrimEndBytes(s: string): string
    decreases |s|
  {
    if SpaceSuffix(s) == 0 then s else TrimEndBytes(s[..|s| - SpaceSuffix(s)])
  }

  function TrimBytes(s: string): string {
    TrimEndBytes(TrimStartBytes(s))
  }

  /** White space in bytes is white space in characters. */
  lemma SpaceBytesIff(c: char)
    requires c as int < 0x1_0000
    ensures IsSpaceBytes(Utf8Of(c as int)) <==> IsSpace(c)
  {
  }

  /** Some white-space characters, one after the other. */
  predicate AllSpaceBytes(s: string)
    decreases |s|
  {
    s == "" || (SpacePrefix(s) > 0 && AllSpaceBytes(s[SpacePrefix(s)..]))
  }

  predicate AllSpaceBytesBackwards(s: string)
    decreases |s|
  {
    s == "" || (SpaceSuffix(s) > 0 && AllSpaceBytesBackwards(s[..|s| - SpaceSuffix(s)]))
  }

  lemma PrefixOfWhole(part: string, rest: string)
    ensures SpacePrefix(part) > 0 ==> SpacePrefix(part + rest) == SpacePrefix(part)
    ensures 0 < SpacePrefix(part + rest) <= |part| ==> SpacePrefix(part + rest) == SpacePrefix(part)
  {
    hide IsSpaceBytes;
    assert forall n :: 0 <= n <= |part| ==> (part + rest)[..n] == part[..n];
  }

  lemma EndsAlike(rest: string, part: string, n: nat)
    requires n <= |part|
    ensures EndsInSpace(rest + part, n) == EndsInSpace(part, n)
  {
    hide IsSpaceBytes;
    var s := rest + part;
    assert s[|s| - n..] == part[|part| - n..];
  }

  lemma SuffixOfWhole(rest: string, part: string)
    ensures 0 < SpaceSuffix(rest + part) <= |part| ==> SpaceSuffix(rest + part) == SpaceSuffix(part)
  {
    hide EndsInSpace;
    forall n | 0 < n <= |part| ensures EndsInSpace(rest + part, n) == EndsInSpace(part, n) {
      EndsAlike(rest, part, n);
    }
  }

  lemma {:induction false} TrimStartCuts(s: string) returns (before: string)
    ensures s == before + TrimStartBytes(s) && AllSpaceBytes(before) && SpacePrefix(TrimStartBytes(s)) == 0
    decreases |s|
  {
    hide SpacePrefix;
    var n := SpacePrefix(s);
    if n == 0 {
      before := "";
    } else {
      var more := TrimStartCuts(s[n..]);
      before := s[..n] + more;
      assert s == before + TrimStartBytes(s);
      PrefixOfWhole(before, TrimStartBytes(s));
      assert before[n..] == more;
    }
  }

  lemma {:induction false} TrimEndCuts(s: string) returns (after: string)
    ensures s == TrimEndBytes(s) + after && AllSpaceBytesBackwards(after) && SpaceSuffix(TrimEndBytes(s)) == 0
    decreases |s|
  {
    hide SpaceSuffix;
    var n := SpaceSuffix(s);
    if n == 0 {
      after := "";
      assert s == s + after;
    } else {
      var m := |s| - n;
      var more := TrimEndCuts(s[..m]);
      after := more + s[m..];
      assert s == TrimEndBytes(s) + after;
      SuffixOfWhole(TrimEndBytes(s), after);
      assert after[..|after| - n] == more;
    }
  }

  /** Trimming cuts white-space characters off both ends and leaves none there. */
  lemma TrimBytesCuts(s: string) returns (before: string, after: string)
    ensures s == before + TrimBytes(s) + after && AllSpaceBytes(before) && AllSpaceBytesBackwards(after)
    ensures SpacePrefix(TrimBytes(s)) == 0 && SpaceSuffix(TrimBytes(s)) == 0
  {
    hide SpacePrefix, SpaceSuffix, AllSpaceBytes, AllSpaceBytesBackwards, TrimStartBytes, TrimEndBytes;
    before := TrimStartCuts(s);
    after := TrimEndCuts(TrimStartBytes(s));
    PrefixOfWhole(TrimBytes(s), after);
    assert before + (TrimBytes(s) + after) == before + TrimBytes(s) + after;
  }

  predicate IsGraphic(c: char) {
    '!' <= c <= '~'
  }

  lemma GraphicIsNoSpace(b: string)
    requires b != "" && (IsGraphic(b[0]) || IsGraphic(b[|b| - 1]))
    ensures !IsSpaceBytes(b)
  {
  }

  lemma PrefixIsNoSpace(s: string, n: nat)
    requires s != "" && IsGraphic(s[0]) && 1 <= n
    ensures !StartsInSpace(s, n)
  {
    hide IsSpaceBytes, IsGraphic;
    if n <= |s| {
      var b := s[..n];
      assert b[0] == s[0];
      GraphicIsNoSpace(b);
    }
  }

  lemma SuffixIsNoSpace(s: string, n: nat)
    requires s != "" && IsGraphic(s[|s| - 1]) && 1 <= n
    ensures !EndsInSpace(s, n)
  {
    hide IsSpaceBytes, IsGraphic;
    if n <= |s| {
      var b := s[|s| - n..];
      assert b[n - 1] == s[|s| - 1];
      GraphicIsNoSpace(b);
    }
  }

  lemma GraphicEndsStay(s: string)
    requires s != "" && IsGraphic(s[0]) && IsGraphic(s[|s| - 1])
    ensures TrimBytes(s) == s
  {
    hide StartsInSpace, EndsInSpace, IsGraphic;
    forall n | 1 <= n <= 3 ensures !StartsInSpace(s, n) && !EndsInSpace(s, n) {
      PrefixIsNoSpace(s, n);
      SuffixIsNoSpace(s, n);
    }
  }

  // ---- Queries ----

  function AddParam(params: map<string, string>, pair: string): map<string, string> {
    if pair == "" then params
    else
      var (key, value) := match SplitOnce(pair, '=') case Some(kv) => kv case None => (pair, "");
      if key == "" then params else params[DecodedText(key) := DecodedText(value)]
  }

  function Params(pairs: seq<string>): map<string, string> {
    if pairs == [] then map[] else AddParam(Params(pairs[..|pairs| - 1]), pairs[|pairs| - 1])
  }

  method ParseQuery(query: string) returns (params: map<string, string>)
    ensures params == Params(Split(query, '&'))
  {
    var pairs := Split(query, '&');
    params := map[];
    for i := 0 to |pairs|
      invariant params == Params(pairs[..i])
    {
      assert pairs[..i + 1][..i] == pairs[..i];
      if pairs[i] == "" {
        continue;
      }
      var key, value := pairs[i], "";
      var cut := SplitOnce(pairs[i], '=');
      if cut.Some? {
        key, value := cut.value.0, cut.value.1;
      }
      if key == "" {
        continue;
      }
      var k := PercentDecode(key);
      var v := PercentDecode(value);
      params := params[k := v];
    }
    assert pairs[..|pairs|] == pairs;
  }

  // ---- Open links ----

  datatype DeepLinkError =
    | Empty | BadScheme | BadHost | MissingWorkspace
    | InvalidWorkspace(reason: string)
    | InvalidTaskType(taskType: string)

  datatype DeepLinkOpen = DeepLinkOpen(
    workspace: string,
    prompt: Option<string>,
    taskType: Option<string>,
    useWorktree: Option<bool>)

  datatype Outcome<+T> = Opened(value: T) | Failed(error: DeepLinkError)

  const PREFIX := "zagens://"
  const HOST := "open"

  function TrimEndSlashes(s: string): string {
    if s != "" && s[|s| - 1] == '/' then TrimEndSlashes(s[..|s| - 1]) else s
  }

  /** What the platform and the file system say about a path: whether one of its components is `..`, and the check
      `user_scoped_workspace`. */
  datatype Paths = Paths(hasParentDir: string -> bool, resolve: string -> Result<string>)

  function ValidateWorkspace(raw: string, paths: Paths): Outcome<string> {
    var trimmed := TrimBytes(raw);
    if trimmed == "" then Failed(MissingWorkspace)
    else if paths.hasParentDir(trimmed) then Failed(InvalidWorkspace("path must not contain `..`"))
    else match paths.resolve(trimmed)
      case Ok(path) => Opened(path)
      case Err(m) => Failed(InvalidWorkspace(m))
  }

  function NonBlankPrompt(prompt: Option<string>): Option<string> {
    if prompt.Some? && TrimBytes(prompt.value) != "" then Some(TrimBytes(prompt.value)) else None
  }

  function Lookup(params: map<string, string>, key: string): Option<string> {
    if key in params then Some(params[key]) else None
  }

  /** What `parse_open_url` makes of decoded parameters. */
  function OpenFromParams(params: map<string, string>, paths: Paths): Outcome<DeepLinkOpen> {
    if "workspace" !in params then Failed(MissingWorkspace)
    else match ValidateWorkspace(params["workspace"], paths)
      case Failed(e) => Failed(e)
      case Opened(workspace) =>
        var prompt := NonBlankPrompt(Lookup(params, "prompt"));
        var task := Lookup(params, "task_type");
        var worktree :=
          if "use_worktree" in params then Some(params["use_worktree"] in ["1", "true", "yes", "on"]) else None;
        if task.None? || task.value == "" then Opened(DeepLinkOpen(workspace, prompt, None, worktree))
        else if task.value == "code" || task.value == "office" then
          Opened(DeepLinkOpen(workspace, prompt, Some("code"), worktree))
        else if task.value == "auto" then Opened(DeepLinkOpen(workspace, prompt, Some("auto"), worktree))
        else Failed(InvalidTaskType(task.value))
  }

  function ParseOpenUrl(raw: string, paths: Paths): Outcome<DeepLinkOpen> {
    var trimmed := TrimBytes(raw);
    if trimmed == "" then Failed(Empty)
    else if !(PREFIX <= trimmed) then Failed(BadScheme)
    else
      var rest := trimmed[|PREFIX|..];
      var (head, query) := match SplitOnce(rest, '?') case Some(hq) => hq case None => (rest, "");
      if Split(TrimEndSlashes(head), '/')[0] != HOST then Failed(BadHost)
      else OpenFromParams(Params(Split(query, '&')), paths)
  }

  predicate KnownTask(taskType: Option<string>) {
    taskType.Some? && taskType.value in ["code", "auto"]
  }

  /** A link or query with one more `key=value` behind an ampersand, if it is sent at all. */
  function WithPart(link: string, sent: bool, key: string, encoded: string): (r: string)
    ensures !sent ==> r == link
  {
    if sent then link + "&" + (key + "=" + encoded) else link
  }

  function WithParts(link: string, prompt: Option<string>, taskType: Option<string>, useWorktree: bool): string
    requires prompt.Some? ==> IsBytes(prompt.value)
  {
    var encoded := if prompt.Some? then Encoded(prompt.value) else "";
    var link := WithPart(link, NonBlankPrompt(prompt).Some?, "prompt", encoded);
    var link := WithPart(link, KnownTask(taskType), "task_type", if taskType.Some? then taskType.value else "");
    WithPart(link, useWorktree, "use_worktree", "1")
  }

  function OpenUrl(workspace: string, prompt: Option<string>, taskType: Option<string>, useWorktree: bool): string
    requires IsBytes(workspace) && (prompt.Some? ==> IsBytes(prompt.value))
  {
    WithParts(PREFIX + HOST + "?workspace=" + Encoded(workspace), prompt, taskType, useWorktree)
  }

  lemma PushedParts(link: string, key: string, encoded: string)
    ensures link + ("&" + key + "=") + encoded == WithPart(link, true, key, encoded)
    ensures link + ("&" + key + "=" + encoded) == WithPart(link, true, key, encoded)
  {
    assert link + ("&" + key + "=") + encoded == link + "&" + (key + "=" + encoded);
    assert link + ("&" + key + "=" + encoded) == link + "&" + (key + "=" + encoded);
  }

  /** `build_open_url`, given the displayed workspace path. */
  method BuildOpenUrl(workspace: string, prompt: Option<string>, taskType: Option<string>, useWorktree: bool)
    returns (url: string)
    requires IsBytes(workspace) && (prompt.Some? ==> IsBytes(prompt.value))
    ensures url == OpenUrl(workspace, prompt, taskType, useWorktree)
  {
    hide Encoded, TrimBytes, IsBytes, WithPart;
    var encoded := EncodeQueryComponent(workspace);
    url := PREFIX + HOST + "?workspace=" + encoded;
    if prompt.Some? && TrimBytes(prompt.value) != "" {
      assert "&prompt=" == "&" + "prompt" + "=";
      PushedParts(url, "prompt", Encoded(prompt.value));
      url := url + "&prompt=";
      encoded := EncodeQueryComponent(prompt.value);
      url := url + encoded;
    }
    if KnownTask(taskType) {
      assert "&task_type=" == "&" + "task_type" + "=";
      PushedParts(url, "task_type", taskType.value);
      url := url + "&task_type=";
      url := url + taskType.value;
    }
    if useWorktree {
      assert "&use_worktree=1" == "&" + "use_worktree" + "=" + "1";
      PushedParts(url, "use_worktree", "1");
      url := url + "&use_worktree=1";
    }
  }

  /** The parameters that went into a built link: a blank prompt and an unknown task type stay out. */
  function SentParams(
    workspace: string, prompt: Option<string>, taskType: Option<string>, useWorktree: bool): map<string, string>
  {
    map["workspace" := workspace]
    + (if NonBlankPrompt(prompt).Some? then map["prompt" := prompt.value] else map[])
    + (if KnownTask(taskType) then map["task_type" := taskType.value] else map[])
    + (if useWorktree then map["use_worktree" := "1"] else map[])
  }

  predicate Plain(s: string) {
    forall i :: 0 <= i < |s| ==> Unreserved(s[i])
  }

  /** One `key=value` of a built query, and what it decodes to. */
  ghost predicate Sends(pair: string, key: string, value: string) {
    && '&' !in pair
    && pair != ""
    && IsGraphic(pair[|pair| - 1])
    && forall params :: AddParam(params, pair) == params[key := value]
  }

  lemma SafePairIsClean(key: string, encoded: string)
    requires key != "" && Plain(key)
    requires forall i :: 0 <= i < |encoded| ==> Unreserved(encoded[i]) || encoded[i] == '%'
    ensures var pair := key + "=" + encoded;
      pair != "" && '=' !in key && '%' !in key && '&' !in pair && IsGraphic(pair[|pair| - 1])
  {
  }

  lemma SafePairIsRead(key: string, encoded: string, params: map<string, string>)
    requires key != "" && '=' !in key
    ensures AddParam(params, key + "=" + encoded) == params[DecodedText(key) := DecodedText(encoded)]
  {
    hide DecodedText;
    assert key + "=" + encoded == key + ['='] + encoded;
    SplitOnceAt(key, '=', encoded);
  }

  lemma PlainIsItsText(s: string)
    requires Plain(s)
    ensures DecodedText(s) == s
  {
    PlainDecodesToItself(s);
    AsciiIsUtf8(s);
    LossyKeepsIff(s);
  }

  lemma SafeSends(key: string, encoded: string, value: string)
    requires key != "" && Plain(key)
    requires forall i :: 0 <= i < |encoded| ==> Unreserved(encoded[i]) || encoded[i] == '%'
    requires DecodedText(encoded) == value
    ensures Sends(key + "=" + encoded, key, value)
  {
    hide DecodedText, Unreserved, AddParam, IsGraphic, Plain;
    SafePairIsClean(key, encoded);
    PlainIsItsText(key);
    forall params ensures AddParam(params, key + "=" + encoded) == params[key := value] {
      SafePairIsRead(key, encoded, params);
    }
  }

  lemma PlainSends(key: string, value: string)
    requires key != "" && Plain(key)
    requires Plain(value)
    ensures Sends(key + "=" + value, key, value)
  {
    hide Sends, DecodedText;
    PlainIsItsText(value);
    SafeSends(key, value, value);
  }

  lemma EncodedSends(key: string, value: string)
    requires key != "" && IsText(value) && Plain(key)
    ensures Sends(key + "=" + Encoded(value), key, value)
  {
    hide Sends, DecodedText, Encoded, Unreserved, IsUtf8;
    EncodedIsSafe(value);
    TextRoundTrip(value);
    SafeSends(key, Encoded(value), value);
  }

  lemma JoinSnoc(pieces: seq<string>, last: string)
    requires pieces != []
    ensures Join(pieces + [last], '&') == Join(pieces, '&') + ['&'] + last
  {
    if |pieces| == 1 {
      assert (pieces + [last])[1..] == [last];
    } else {
      assert (pieces + [last])[1..] == pieces[1..] + [last];
      JoinSnoc(pieces[1..], last);
    }
  }

  lemma ParamsSnoc(pairs: seq<string>, pair: string, key: string, value: string)
    requires Sends(pair, key, value)
    ensures Params(pairs + [pair]) == Params(pairs)[key := value]
  {
    assert (pairs + [pair])[..|pairs|] == pairs;
  }

  /** The query of a built link, as far as it has been written. */
  ghost predicate Query(query: string, pairs: seq<string>, params: map<string, string>) {
    && pairs != []
    && query == Join(pairs, '&')
    && (forall i :: 0 <= i < |pairs| ==> '&' !in pairs[i])
    && Params(pairs) == params
    && query != "" && IsGraphic(query[|query| - 1])
  }

  lemma QueryGrows(
    query: string, pairs: seq<string>, params: map<string, string>, pair: string, key: string, value: string)
    requires Query(query, pairs, params) && Sends(pair, key, value)
    ensures Query(query + "&" + pair, pairs + [pair], params[key := value])
  {
    hide AddParam, Join, Params, Unreserved;
    JoinSnoc(pairs, pair);
    ParamsSnoc(pairs, pair, key, value);
    assert query + "&" + pair == query + ['&'] + pair;
  }

  lemma KeysArePlain()
    ensures Plain("workspace") && Plain("prompt")
    ensures Plain("task_type") && Plain("use_worktree")
  {
  }

  lemma ValuesArePlain()
    ensures Plain("code") && Plain("auto") && Plain("1")
  {
  }

  /** One more part of a built query is one more parameter. */
  lemma PartIsParam(
    query: string, pairs: seq<string>, params: map<string, string>, sent: bool, key: string, encoded: string,
    value: string)
    returns (newPairs: seq<string>)
    requires Query(query, pairs, params) && (sent ==> Sends(key + "=" + encoded, key, value))
    ensures Query(WithPart(query, sent, key, encoded), newPairs, params + if sent then map[key := value] else map[])
  {
    hide Query, Sends;
    newPairs := if sent then pairs + [key + "=" + encoded] else pairs;
    if sent {
      QueryGrows(query, pairs, params, key + "=" + encoded, key, value);
      assert params + map[key := value] == params[key := value];
    } else {
      assert params + map[] == params;
    }
  }

  lemma QueryStarts(workspace: string) returns (pairs: seq<string>)
    requires IsText(workspace)
    ensures Query("workspace=" + Encoded(workspace), pairs, map["workspace" := workspace])
  {
    hide Encoded, Unreserved, AddParam, IsGraphic, IsBytes;
    KeysArePlain();
    var pair := "workspace=" + Encoded(workspace);
    assert "workspace" + "=" + Encoded(workspace) == pair;
    EncodedSends("workspace", workspace);
    assert [] + [pair] == [pair];
    ParamsSnoc([], pair, "workspace", workspace);
    pairs := [pair];
  }

  /** The query of a built link reads back as exactly the parameters sent. */
  lemma BuiltQuery(workspace: string, prompt: Option<string>, taskType: Option<string>, useWorktree: bool)
    returns (pairs: seq<string>)
    requires IsText(workspace) && (prompt.Some? ==> IsText(prompt.value))
    ensures Query(WithParts("workspace=" + Encoded(workspace), prompt, taskType, useWorktree), pairs,
      SentParams(workspace, prompt, taskType, useWorktree))
  {
    hide Encoded, Unreserved, AddParam, IsGraphic, IsBytes, Plain, Sends, Query, TrimBytes, WithPart;
    KeysArePlain();
    ValuesArePlain();
    var query, params := "workspace=" + Encoded(workspace), map["workspace" := workspace];
    pairs := QueryStarts(workspace);
    if prompt.Some? { EncodedSends("prompt", prompt.value); }
    var encoded := if prompt.Some? then Encoded(prompt.value) else "";
    pairs := PartIsParam(query, pairs, params, NonBlankPrompt(prompt).Some?, "prompt", encoded,
      if prompt.Some? then prompt.value else "");
    query := WithPart(query, NonBlankPrompt(prompt).Some?, "prompt", encoded);
    params := params + if NonBlankPrompt(prompt).Some? then map["prompt" := prompt.value] else map[];
    var task := if taskType.Some? then taskType.value else "";
    if KnownTask(taskType) { PlainSends("task_type", task); }
    pairs := PartIsParam(query, pairs, params, KnownTask(taskType), "task_type", task, task);
    query := WithPart(query, KnownTask(taskType), "task_type", task);
    params := params + if KnownTask(taskType) then map["task_type" := taskType.value] else map[];
    PlainSends("use_worktree", "1");
    pairs := PartIsParam(query, pairs, params, useWorktree, "use_worktree", "1", "1");
  }

  /** Parsing the query of a built link gives what went in and nothing else. */
  lemma BuiltParams(workspace: string, prompt: Option<string>, taskType: Option<string>, useWorktree: bool)
    requires IsText(workspace) && (prompt.Some? ==> IsText(prompt.value))
    ensures Params(Split(WithParts("workspace=" + Encoded(workspace), prompt, taskType, useWorktree), '&'))
      == SentParams(workspace, prompt, taskType, useWorktree)
  {
    hide Encoded, SentParams, WithParts, Params, Join, IsGraphic, IsBytes;
    var pairs := BuiltQuery(workspace, prompt, taskType, useWorktree);
    SplitJoin(pairs, '&');
  }

  lemma WithPartAfter(head: string, link: string, sent: bool, key: string, encoded: string)
    ensures WithPart(head + link, sent, key, encoded) == head + WithPart(link, sent, key, encoded)
  {
    if sent {
      assert head + link + "&" + (key + "=" + encoded) == head + (link + "&" + (key + "=" + encoded));
    }
  }

  lemma WithPartsAfter(head: string, link: string, prompt: Option<string>, taskType: Option<string>, useWorktree: bool)
    requires prompt.Some? ==> IsBytes(prompt.value)
    ensures WithParts(head + link, prompt, taskType, useWorktree)
      == head + WithParts(link, prompt, taskType, useWorktree)
  {
    hide WithPart, Encoded, TrimBytes, IsBytes;
    var encoded := if prompt.Some? then Encoded(prompt.value) else "";
    var task := if taskType.Some? then taskType.value else "";
    WithPartAfter(head, link, NonBlankPrompt(prompt).Some?, "prompt", encoded);
    var link1 := WithPart(link, NonBlankPrompt(prompt).Some?, "prompt", encoded);
    WithPartAfter(head, link1, KnownTask(taskType), "task_type", task);
    var link2 := WithPart(link1, KnownTask(taskType), "task_type", task);
    WithPartAfter(head, link2, useWorktree, "use_worktree", "1");
  }

  lemma HostOfHost()
    ensures Split(TrimEndSlashes(HOST), '/')[0] == HOST && '?' !in HOST
  {
    SplitPiece(HOST, '/');
  }

  lemma OpenLinkShape(url: string, query: string)
    requires url == PREFIX + HOST + ['?'] + query
    requires query != "" && IsGraphic(query[|query| - 1])
    ensures url != "" && PREFIX <= url && IsGraphic(url[0]) && IsGraphic(url[|url| - 1])
    ensures SplitOnce(url[|PREFIX|..], '?') == Some((HOST, query))
  {
    assert url[0] == 'z';
    assert url[|PREFIX|..] == HOST + ['?'] + query;
    HostOfHost();
    SplitOnceAt(HOST, '?', query);
  }

  /** A link to `open` is read by its query alone. */
  lemma OpenLinkIsItsQuery(url: string, query: string, paths: Paths)
    requires url == PREFIX + HOST + ['?'] + query
    requires query != "" && IsGraphic(query[|query| - 1])
    ensures ParseOpenUrl(url, paths) == OpenFromParams(Params(Split(query, '&')), paths)
  {
    hide OpenFromParams, Params, TrimBytes, IsGraphic, TrimEndSlashes, Split, SplitOnce;
    OpenLinkShape(url, query);
    GraphicEndsStay(url);
    HostOfHost();
  }

  lemma OpenUrlIsQuery(workspace: string, prompt: Option<string>, taskType: Option<string>, useWorktree: bool)
    requires IsBytes(workspace) && (prompt.Some? ==> IsBytes(prompt.value))
    ensures OpenUrl(workspace, prompt, taskType, useWorktree)
      == PREFIX + HOST + ['?'] + WithParts("workspace=" + Encoded(workspace), prompt, taskType, useWorktree)
  {
    hide Encoded, IsBytes, WithParts;
    assert PREFIX + HOST + "?workspace=" + Encoded(workspace)
        == PREFIX + HOST + ['?'] + ("workspace=" + Encoded(workspace));
    WithPartsAfter(PREFIX + HOST + ['?'], "workspace=" + Encoded(workspace), prompt, taskType, useWorktree);
  }

  lemma SentParamsOpen(
    workspace: string, prompt: Option<string>, taskType: Option<string>, useWorktree: bool,
    paths: Paths)
    ensures OpenFromParams(SentParams(workspace, prompt, taskType, useWorktree), paths) ==
      match ValidateWorkspace(workspace, paths)
      case Failed(e) => Failed(e)
      case Opened(path) => Opened(DeepLinkOpen(path, NonBlankPrompt(prompt),
        if KnownTask(taskType) then taskType else None, if useWorktree then Some(true) else None))
  {
    hide ValidateWorkspace, TrimBytes;
    var params := SentParams(workspace, prompt, taskType, useWorktree);
    assert params["workspace"] == workspace;
    assert NonBlankPrompt(Lookup(params, "prompt")) == NonBlankPrompt(prompt);
    assert Lookup(params, "task_type") == if KnownTask(taskType) then taskType else None;
    assert Lookup(params, "use_worktree") == if useWorktree then Some("1") else None;
  }

  /** Parsing a built link: the validated workspace, the trimmed prompt unless blank, the task type if it is one
      the parser knows, and the worktree flag only when set. */
  lemma BuiltLinkReadsBack(
    workspace: string, prompt: Option<string>, taskType: Option<string>, useWorktree: bool,
    paths: Paths)
    requires IsText(workspace) && (prompt.Some? ==> IsText(prompt.value))
    ensures ParseOpenUrl(OpenUrl(workspace, prompt, taskType, useWorktree), paths) ==
      match ValidateWorkspace(workspace, paths)
      case Failed(e) => Failed(e)
      case Opened(path) => Opened(DeepLinkOpen(path, NonBlankPrompt(prompt),
        if KnownTask(taskType) then taskType else None, if useWorktree then Some(true) else None))
  {
    hide Encoded, IsBytes, TrimBytes, WithParts, Params, Join, IsGraphic, ValidateWorkspace, OpenFromParams, OpenUrl,
      SentParams, ParseOpenUrl, Split, Decoded;
    var pairs := BuiltQuery(workspace, prompt, taskType, useWorktree);
    BuiltParams(workspace, prompt, taskType, useWorktree);
    OpenUrlIsQuery(workspace, prompt, taskType, useWorktree);
    OpenLinkIsItsQuery(OpenUrl(workspace, prompt, taskType, useWorktree),
      WithParts("workspace=" + Encoded(workspace), prompt, taskType, useWorktree), paths);
    SentParamsOpen(workspace, prompt, taskType, useWorktree, paths);
  }

  // ---- What the parser refuses ----

  /** Blank links, and links of another scheme. */
  lemma ForeignSchemeIsRefused(raw: string, paths: Paths)
    ensures TrimBytes(raw) == "" <==> ParseOpenUrl(raw, paths) == Failed(Empty)
    ensures TrimBytes(raw) != "" && !("zagens://" <= TrimBytes(raw)) <==> ParseOpenUrl(raw, paths) == Failed(BadScheme)
  {
    hide TrimBytes, Params, Split, SplitOnce, TrimEndSlashes;
  }

  lemma FirstPiece(host: string, tail: string)
    requires '/' !in host && (tail == "" || tail[0] == '/')
    ensures Split(host + tail, '/')[0] == host
  {
    hide Split;
    if tail == "" {
      assert host + tail == host;
      SplitPiece(host, '/');
    } else {
      assert host + tail == host + ['/'] + tail[1..];
      SplitHead(host, '/', tail[1..]);
    }
  }

  lemma {:induction false} SlashesKeepHost(host: string, tail: string)
    requires '/' !in host && (tail == "" || tail[0] == '/')
    ensures Split(TrimEndSlashes(host + tail), '/')[0] == host
    decreases |tail|
  {
    hide Split;
    var s := host + tail;
    if s != "" && s[|s| - 1] == '/' {
      assert tail != "";
      assert s[..|s| - 1] == host + tail[..|tail| - 1];
      SlashesKeepHost(host, tail[..|tail| - 1]);
    } else {
      FirstPiece(host, tail);
    }
  }

  lemma HeadOfRest(host: string, tail: string)
    requires '/' !in host && '?' !in host && (tail == "" || tail[0] == '/' || tail[0] == '?')
    ensures var head := match SplitOnce(host + tail, '?') case Some(hq) => hq.0 case None => host + tail;
            Split(TrimEndSlashes(head), '/')[0] == host
  {
    hide SplitOnce, Split, TrimEndSlashes;
    var rest := host + tail;
    var cut := SplitOnce(rest, '?');
    if cut.None? {
      assert forall i :: 0 <= i < |tail| ==> rest[|host| + i] == tail[i];
      SlashesKeepHost(host, tail);
    } else {
      var head := cut.value.0;
      assert rest == head + ['?'] + cut.value.1;
      assert rest[|head|] == '?';
      assert |head| >= |host|;
      var more := head[|host|..];
      assert head == rest[..|head|] && rest[..|host|] == host;
      assert head[..|host|] == host;
      assert head == host + more;
      assert more != "" ==> more[0] == rest[|host|] == tail[0];
      SlashesKeepHost(host, more);
    }
  }

  /** A link is one to `open` exactly when what stands between the scheme and the next slash or question mark says so;
      slashes after it make no difference. */
  lemma ForeignHostIsRefused(raw: string, host: string, tail: string, paths: Paths)
    requires TrimBytes(raw) == "zagens://" + host + tail
    requires '/' !in host && '?' !in host && (tail == "" || tail[0] == '/' || tail[0] == '?')
    ensures ParseOpenUrl(raw, paths) == Failed(BadHost) <==> host != "open"
  {
    hide TrimBytes, Params, Split, SplitOnce, TrimEndSlashes, ValidateWorkspace, NonBlankPrompt;
    var trimmed := TrimBytes(raw);
    assert trimmed[|PREFIX|..] == host + tail;
    HeadOfRest(host, tail);
    OnlyWorkspaceAndTaskFail(
      Params(Split(match SplitOnce(host + tail, '?') case Some(hq) => hq.1 case None => "", '&')), paths);
  }

  lemma OnlyWorkspaceAndTaskFail(params: map<string, string>, paths: Paths)
    ensures OpenFromParams(params, paths) != Failed(BadHost)
  {
    hide TrimBytes, NonBlankPrompt;
  }

  /** The workspace is asked for first, then the task type; an unknown one refuses the link. */
  lemma TaskTypesRead(params: map<string, string>, paths: Paths)
    requires "workspace" in params && ValidateWorkspace(params["workspace"], paths).Opened?
    ensures var link := OpenFromParams(params, paths);
            && ("task_type" !in params || params["task_type"] == "" ==> link.Opened? && link.value.taskType == None)
            && ("task_type" in params ==>
                  var task := params["task_type"];
                  && (task == "code" || task == "office" ==> link.Opened? && link.value.taskType == Some("code"))
                  && (task == "auto" ==> link.Opened? && link.value.taskType == Some("auto"))
                  && (link == Failed(InvalidTaskType(task)) <==> task !in ["", "code", "office", "auto"]))
            && (link.Opened? ==>
                  && link.value.workspace == ValidateWorkspace(params["workspace"], paths).value
                  && (link.value.prompt.Some? <==> "prompt" in params && TrimBytes(params["prompt"]) != "")
                  && (link.value.prompt.Some? ==> link.value.prompt.value == TrimBytes(params["prompt"]))
                  && (link.value.useWorktree.None? <==> "use_worktree" !in params)
                  && (link.value.useWorktree == Some(true) <==>
                      "use_worktree" in params && params["use_worktree"] in ["1", "true", "yes", "on"]))
  {
    hide ValidateWorkspace, TrimBytes;
  }

  /** No link opens without a workspace that is not blank, does not climb, and passes the check. */
  lemma WorkspaceIsRequired(params: map<string, string>, paths: Paths)
    requires OpenFromParams(params, paths).Opened?
    ensures "workspace" in params
    ensures var path := TrimBytes(params["workspace"]);
            && path != "" && !paths.hasParentDir(path)
            && paths.resolve(path) == Ok(OpenFromParams(params, paths).value.workspace)
  {
    hide TrimBytes, NonBlankPrompt;
  }
}
