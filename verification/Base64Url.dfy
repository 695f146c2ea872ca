/** The unpadded base64url encoder and decoder, loop by loop, against section 5 of RFC 4648. */
module Base64Url {
  import opened Schema
  import opened JsNumbers

  type Sextet = x: int | 0 <= x < 64 witness 0

  // ----- RFC 4648 -----

  // Three bytes are four 6-bit groups, and back.
  function Sextet0(x: Byte): Sextet { var b: int := x; b / 4 }
  function Sextet1(x: Byte, y: Byte): Sextet { var b: int, c: int := x, y; b % 4 * 16 + c / 16 }
  function Sextet2(y: Byte, z: Byte): Sextet { var b: int, c: int := y, z; b % 16 * 4 + c / 64 }
  function Sextet3(z: Byte): Sextet { var b: int := z; b % 64 }
  function Octet0(p: Sextet, q: Sextet): Byte { var s: int, t: int := p, q; s * 4 + t / 16 }
  function Octet1(q: Sextet, r: Sextet): Byte { var s: int, t: int := q, r; s % 16 * 16 + t / 4 }
  function Octet2(r: Sextet, t: Sextet): Byte { var s: int, u: int := r, t; s % 4 * 64 + u }

  // The groups of a byte string, the last one filled with zero bits on the right (section 4).
  function Sextets(b: seq<Byte>): (s: seq<Sextet>)
    ensures |s| == (4 * |b| + 2) / 3
  {
    if |b| == 0 then []
    else if |b| == 1 then [Sextet0(b[0]), Sextet1(b[0], 0)]
    else if |b| == 2 then [Sextet0(b[0]), Sextet1(b[0], b[1]), Sextet2(b[1], 0)]
    else [Sextet0(b[0]), Sextet1(b[0], b[1]), Sextet2(b[1], b[2]), Sextet3(b[2])] + Sextets(b[3..])
  }

  function Octets(s: seq<Sextet>): seq<Byte>
    requires |s| % 4 != 1
  {
    if |s| == 0 then []
    else if |s| == 2 then [Octet0(s[0], s[1])]
    else if |s| == 3 then [Octet0(s[0], s[1]), Octet1(s[1], s[2])]
    else [Octet0(s[0], s[1]), Octet1(s[1], s[2]), Octet2(s[2], s[3])] + Octets(s[4..])
  }

  // Tables 1 and 2.
  function Letter(v: Sextet, url: bool): char {
    if v < 26 then 'A' + v as char
    else if v < 52 then 'a' + (v - 26) as char
    else if v < 62 then '0' + (v - 52) as char
    else if v == 62 then (if url then '-' else '+')
    else if url then '_' else '/'
  }

  function Value(c: char, url: bool): Option<Sextet> {
    if 'A' <= c <= 'Z' then Some((c - 'A') as int)
    else if 'a' <= c <= 'z' then Some((c - 'a') as int + 26)
    else if '0' <= c <= '9' then Some((c - '0') as int + 52)
    else if c == (if url then '-' else '+') then Some(62)
    else if c == (if url then '_' else '/') then Some(63)
    else None
  }

  function Text(s: seq<Sextet>, url: bool): string {
    seq(|s|, i requires 0 <= i < |s| => Letter(s[i], url))
  }

  predicate InAlphabet(s: string, url: bool) {
    forall i :: 0 <= i < |s| ==> Value(s[i], url).Some?
  }

  function Values(s: string, url: bool): (v: seq<Sextet>)
    requires InAlphabet(s, url)
    ensures |v| == |s|
  {
    seq(|s|, i requires 0 <= i < |s| => Value(s[i], url).value)
  }

  // Read as big-endian numbers, three bytes and their four groups are the same 24 bits.
  lemma SameTwentyFourBits(x: Byte, y: Byte, z: Byte)
    ensures var a: int, b: int, c: int := x, y, z;
      var p: int, q: int, r: int, t: int := Sextet0(x), Sextet1(x, y), Sextet2(y, z), Sextet3(z);
      ((p * 64 + q) * 64 + r) * 64 + t == (a * 256 + b) * 256 + c
  {}

  // The test vectors of section 10 of RFC 4648, unpadded, and one with the two letters of its own alphabet.
  lemma TestVectors()
    ensures Encoded([0x66]) == "Zg" && Encoded([0x66, 0x6f]) == "Zm8" && Encoded([0x66, 0x6f, 0x6f]) == "Zm9v"
    ensures Encoded([0x66, 0x6f, 0x6f, 0x62]) == "Zm9vYg" && Encoded([0x66, 0x6f, 0x6f, 0x62, 0x61]) == "Zm9vYmE"
    ensures Encoded([0x66, 0x6f, 0x6f, 0x62, 0x61, 0x72]) == "Zm9vYmFy" && Encoded([0xfb, 0xef, 0xff, 0xff]) == "--___w"
  {}

  function Encoded(b: seq<Byte>): string {
    Text(Sextets(b), true)
  }

  function Decoded(s: string): Option<seq<Byte>> {
    if s != "" && InAlphabet(s, true) && |s| % 4 != 1 then Some(Octets(Values(s, true))) else None
  }

  // ----- Round trips -----

  lemma ThreeBytes(x: Byte, y: Byte, z: Byte)
    ensures Octet0(Sextet0(x), Sextet1(x, y)) == x && Octet1(Sextet1(x, y), Sextet2(y, z)) == y && Octet2(Sextet2(y, z), Sextet3(z)) == z
  {}

  lemma FourGroups(p: Sextet, q: Sextet, r: Sextet, t: Sextet)
    ensures Sextet0(Octet0(p, q)) == p && Sextet1(Octet0(p, q), Octet1(q, r)) == q
    ensures Sextet2(Octet1(q, r), Octet2(r, t)) == r && Sextet3(Octet2(r, t)) == t
  {}

  lemma {:induction false} OctetsOfSextets(b: seq<Byte>)
    ensures |Sextets(b)| % 4 != 1 && Octets(Sextets(b)) == b
    decreases |b|
  {
    hide Sextet0, Sextet1, Sextet2, Sextet3, Octet0, Octet1, Octet2;
    if |b| >= 3 {
      OctetsOfSextets(b[3..]);
      assert Sextets(b)[4..] == Sextets(b[3..]);
      assert b == [b[0], b[1], b[2]] + b[3..];
      ThreeBytes(b[0], b[1], b[2]);
    } else if |b| == 2 {
      ThreeBytes(b[0], b[1], 0);
    } else if |b| == 1 {
      ThreeBytes(b[0], 0, 0);
    }
  }

  // The bits that the last letter carries beyond the last byte.
  predicate Canonical(s: seq<Sextet>) {
    && |s| % 4 != 1
    && (|s| % 4 == 2 ==> s[|s| - 1] % 16 == 0)
    && (|s| % 4 == 3 ==> s[|s| - 1] % 4 == 0)
  }

  lemma TwoLeft(p: Sextet, q: Sextet)
    ensures Sextets(Octets([p, q])) == [p, q / 16 * 16]
  {
    assert Sextet0(Octet0(p, q)) == p && Sextet1(Octet0(p, q), 0) == q / 16 * 16;
    hide Sextet0, Sextet1, Octet0;
  }

  lemma ThreeLeft(p: Sextet, q: Sextet, r: Sextet)
    ensures Sextets(Octets([p, q, r])) == [p, q, r / 4 * 4]
  {
    assert Sextet0(Octet0(p, q)) == p && Sextet1(Octet0(p, q), Octet1(q, r)) == q && Sextet2(Octet1(q, r), 0) == r / 4 * 4;
    hide Sextet0, Sextet1, Sextet2, Octet0, Octet1;
  }

  lemma ShortOctets(s: seq<Sextet>)
    requires |s| < 4 && |s| != 1
    ensures Sextets(Octets(s)) == s <==> Canonical(s)
  {
    hide Sextets, Octets;
    if |s| == 0 {
      NoneLeft();
      assert s == [];
    } else if |s| == 2 {
      assert s == [s[0], s[1]];
      TwoLeft(s[0], s[1]);
    } else {
      assert s == [s[0], s[1], s[2]];
      ThreeLeft(s[0], s[1], s[2]);
    }
  }

  lemma NoneLeft()
    ensures Sextets(Octets([])) == []
  {}

  lemma SextetsMore(x: Byte, y: Byte, z: Byte, b: seq<Byte>)
    ensures Sextets([x, y, z] + b) == [Sextet0(x), Sextet1(x, y), Sextet2(y, z), Sextet3(z)] + Sextets(b)
  {
    assert ([x, y, z] + b)[3..] == b;
    hide Sextet0, Sextet1, Sextet2, Sextet3;
  }

  lemma FourSextets(s: seq<Sextet>)
    requires |s| % 4 != 1 && |s| >= 4
    ensures Sextets(Octets(s)) == [s[0], s[1], s[2], s[3]] + Sextets(Octets(s[4..]))
  {
    hide Sextets, Sextet0, Sextet1, Sextet2, Sextet3, Octet0, Octet1, Octet2;
    FourGroups(s[0], s[1], s[2], s[3]);
    var b := Octets(s);
    assert b == [b[0], b[1], b[2]] + Octets(s[4..]);
    SextetsMore(b[0], b[1], b[2], Octets(s[4..]));
  }

  // A text is the encoding of what it decodes to exactly when its spare bits are zero.
  lemma {:induction false} SextetsOfOctets(s: seq<Sextet>)
    requires |s| % 4 != 1
    ensures Sextets(Octets(s)) == s <==> Canonical(s)
    decreases |s|
  {
    hide Sextets, Octets;
    if |s| < 4 {
      ShortOctets(s);
    } else {
      FourSextets(s);
      SextetsOfOctets(s[4..]);
      assert s == [s[0], s[1], s[2], s[3]] + s[4..];
    }
  }

  lemma ValueOfLetter(v: Sextet, url: bool)
    ensures Value(Letter(v, url), url) == Some(v) && Letter(v, url) != '='
  {}

  lemma LetterOfValue(c: char, url: bool)
    requires Value(c, url).Some?
    ensures Letter(Value(c, url).value, url) == c && c != '='
  {}

  lemma TextValues(s: seq<Sextet>, url: bool)
    ensures InAlphabet(Text(s, url), url) && Values(Text(s, url), url) == s
  {
    forall i | 0 <= i < |s|
      ensures Value(Text(s, url)[i], url) == Some(s[i])
    {
      ValueOfLetter(s[i], url);
    }
  }

  lemma ValuesText(s: string, url: bool)
    requires InAlphabet(s, url)
    ensures Text(Values(s, url), url) == s
  {
    forall i | 0 <= i < |s|
      ensures Letter(Value(s[i], url).value, url) == s[i]
    {
      LetterOfValue(s[i], url);
    }
  }

  // The decoder undoes the encoder on every byte string but the empty one, whose encoding it refuses.
  lemma DecodesEncoded(b: seq<Byte>)
    ensures Decoded(Encoded(b)) == (if b == [] then None else Some(b))
    ensures InAlphabet(Encoded(b), true) && |Encoded(b)| % 4 != 1
  {
    TextValues(Sextets(b), true);
    OctetsOfSextets(b);
  }

  // The encoder undoes the decoder exactly on canonical texts: other spellings of the same bytes exist.
  lemma EncodesDecoded(s: string)
    requires Decoded(s).Some?
    ensures Encoded(Decoded(s).value) == s <==> Canonical(Values(s, true))
  {
    SextetsOfOctets(Values(s, true));
    ValuesText(s, true);
    TextValues(Sextets(Octets(Values(s, true))), true);
  }

  // ----- btoa and atob, on strings of characters below 256 -----

  predicate Binary(s: string) {
    forall i :: 0 <= i < |s| ==> s[i] as int < 256
  }

  function Codes(s: string): seq<Byte>
    requires Binary(s)
  {
    seq(|s|, i requires 0 <= i < |s| => s[i] as int)
  }

  function FromCodes(b: seq<Byte>): (s: string)
    ensures |s| == |b| && Binary(s)
  {
    seq(|b|, i requires 0 <= i < |b| => (b[i] as int) as char)
  }

  function Repeat(c: char, n: nat): string {
    seq(n, _ => c)
  }

  function Btoa(binary: string): string
    requires Binary(binary)
  {
    var s := Sextets(Codes(binary));
    Text(s, false) + Repeat('=', (4 - |s| % 4) % 4)
  }

  // A full quantum may end in one or two `=`.
  function Unpadded(s: string): string {
    if |s| % 4 == 0 && |s| >= 1 && s[|s| - 1] == '=' then
      if |s| >= 2 && s[|s| - 2] == '=' then s[..|s| - 2] else s[..|s| - 1]
    else s
  }

  // None where `atob` throws.
  function Atob(s: string): Option<string> {
    var t := Unpadded(s);
    if |t| % 4 == 1 || !InAlphabet(t, false) then None else Some(FromCodes(Octets(Values(t, false))))
  }

  // ----- The encoder -----

  function ReplaceAll(s: string, from: char, to: char): string {
    seq(|s|, i requires 0 <= i < |s| => if s[i] == from then to else s[i])
  }

  // `.replace(/=+$/u, '')`
  function StripEnd(s: string): string {
    if s != "" && s[|s| - 1] == '=' then StripEnd(s[..|s| - 1]) else s
  }

  lemma {:induction false} StripsPadding(s: string, n: nat)
    requires s == "" || s[|s| - 1] != '='
    ensures StripEnd(s + Repeat('=', n)) == s
    decreases n
  {
    if n == 0 {
      assert s + Repeat('=', 0) == s;
    } else {
      assert (s + Repeat('=', n))[..|s| + n - 1] == s + Repeat('=', n - 1);
      StripsPadding(s, n - 1);
    }
  }

  lemma UrlText(s: seq<Sextet>, n: nat)
    ensures ReplaceAll(ReplaceAll(Text(s, false) + Repeat('=', n), '+', '-'), '/', '_') == Text(s, true) + Repeat('=', n)
  {}

  method BytesToBase64Url(bytes: seq<Byte>) returns (text: string)
    ensures text == Encoded(bytes)
  {
    hide Sextets, Letter;
    var binary := "";
    for i := 0 to |bytes|
      invariant binary == FromCodes(bytes[..i])
    {
      binary := binary + [(bytes[i] as int) as char];
    }
    assert bytes[..|bytes|] == bytes;
    assert Codes(binary) == bytes;
    text := StripEnd(ReplaceAll(ReplaceAll(Btoa(binary), '+', '-'), '/', '_'));
    var s := Sextets(bytes);
    UrlText(s, (4 - |s| % 4) % 4);
    if s != [] { ValueOfLetter(s[|s| - 1], true); }
    StripsPadding(Text(s, true), (4 - |s| % 4) % 4);
  }

  // ----- The decoder -----

  // One letter over a full quantum gets three `=`, which `atob` refuses.
  lemma AtobOfPadded(t: string)
    requires InAlphabet(t, false)
    ensures Atob(t + Repeat('=', (4 - |t| % 4) % 4)) ==
      if |t| % 4 == 1 then None else Some(FromCodes(Octets(Values(t, false))))
  {
    var n := (4 - |t| % 4) % 4;
    var s := t + Repeat('=', n);
    assert |s| % 4 == 0;
    if t != "" { LetterOfValue(t[|t| - 1], false); }
    if n == 3 {
      assert Unpadded(s) == t + "=";
      assert (t + "=")[|t|] == '=';
      assert !InAlphabet(t + "=", false);
    } else {
      assert Unpadded(s) == t;
    }
  }

  lemma StandardLetters(s: string)
    requires InAlphabet(s, true)
    ensures var t := ReplaceAll(ReplaceAll(s, '-', '+'), '_', '/');
      |t| == |s| && InAlphabet(t, false) && Values(t, false) == Values(s, true)
  {}

  // The loop that reads the character codes into a byte array.
  method CharCodes(binary: string) returns (bytes: seq<Byte>)
    requires Binary(binary)
    ensures bytes == Codes(binary)
  {
    var buffer := new Byte[|binary|](_ => 0);
    for i := 0 to |binary|
      invariant forall j :: 0 <= j < i ==> buffer[j] == binary[j] as int
    {
      buffer[i] := binary[i] as int;
    }
    bytes := buffer[..];
  }

  lemma CodesOfChars(b: seq<Byte>)
    ensures Codes(FromCodes(b)) == b
  {}

  method Base64UrlToBytes(value: string) returns (bytes: Option<seq<Byte>>)
    ensures bytes == Decoded(value)
  {
    hide Atob, Octets, ReplaceAll, Value, Values, FromCodes, Repeat, Codes;
    if |value| == 0 || !InAlphabet(value, true) {
      return None;
    }
    StandardLetters(value);
    hide InAlphabet;
    var standard := ReplaceAll(ReplaceAll(value, '-', '+'), '_', '/');
    AtobOfPadded(standard);
    var binary := Atob(standard + Repeat('=', (4 - |value| % 4) % 4));
    if binary.None? {
      return None;
    }
    CodesOfChars(Octets(Values(value, true)));
    var codes := CharCodes(binary.value);
    bytes := Some(codes);
  }
}
