/**
 Header values: plain ASCII as it is, anything else in a base64 sentinel (the standard alphabet of
 section 4 of RFC 4648, with padding). Values are the UTF-8 bytes of a text.
 */
module HeaderValue {
  import opened Bytes

  // ---- base64 ----

  const PAD: byte := 61

  function Letter(i: int): byte
    requires 0 <= i < 64
  {
    if i < 26 then 65 + i
    else if i < 52 then 71 + i
    else if i < 62 then i - 4
    else if i == 62 then 43
    else 47
  }

  /** The alphabet of section 4 of RFC 4648: capitals, small letters, digits, plus and slash. */
  lemma LettersAreTheAlphabet(i: int)
    requires 0 <= i < 64
    ensures i < 26 ==> Letter(i) == 'A' as int + i
    ensures 26 <= i < 52 ==> Letter(i) == 'a' as int + (i - 26)
    ensures 52 <= i < 62 ==> Letter(i) == '0' as int + (i - 52)
    ensures Letter(62) == '+' as int && Letter(63) == '/' as int && PAD == '=' as int
  {
  }

  function Value(b: byte): (i: int)
    ensures 0 <= i < 64
  {
    if 65 <= b <= 90 then b - 65
    else if 97 <= b <= 122 then b - 71
    else if 48 <= b <= 57 then b + 4
    else if b == 43 then 62
    else 63
  }

  lemma ValueOfLetter(i: int)
    requires 0 <= i < 64
    ensures Value(Letter(i)) == i && 33 <= Letter(i) <= 126 && Letter(i) != PAD
  {
  }

  /** Three bytes as four letters. */
  function Group(a: byte, b: byte, c: byte): seq<byte> {
    [Letter(a / 4), Letter(a % 4 * 16 + b / 16), Letter(b % 16 * 4 + c / 64), Letter(c % 64)]
  }

  function Base64(s: seq<byte>): seq<byte> {
    if s == [] then []
    else if |s| == 1 then Group(s[0], 0, 0)[..2] + [PAD, PAD]
    else if |s| == 2 then Group(s[0], s[1], 0)[..3] + [PAD]
    else Group(s[0], s[1], s[2]) + Base64(s[3..])
  }

  /** Four letters as three bytes. */
  function Ungroup(t: seq<byte>): seq<byte>
    requires |t| == 4
  {
    var a, b, c, d := Value(t[0]), Value(t[1]), Value(t[2]), Value(t[3]);
    [a * 4 + b / 16, b % 16 * 16 + c / 4, c % 4 * 64 + d]
  }

  function FromBase64(t: seq<byte>): seq<byte> {
    if |t| < 4 then []
    else if t[2] == PAD then Ungroup(t[..4])[..1]
    else if t[3] == PAD then Ungroup(t[..4])[..2]
    else Ungroup(t[..4]) + FromBase64(t[4..])
  }

  /** The letters of a group are the four digits, most significant first, of its three bytes in base 64. */
  lemma GroupIsNumber(a: byte, b: byte, c: byte)
    ensures
      var g := Group(a, b, c);
      ((Value(g[0]) * 64 + Value(g[1])) * 64 + Value(g[2])) * 64 + Value(g[3]) == (a * 256 + b) * 256 + c
  {
    ValueOfLetter(a / 4);
    ValueOfLetter(a % 4 * 16 + b / 16);
    ValueOfLetter(b % 16 * 4 + c / 64);
    ValueOfLetter(c % 64);
  }

  /** Six bits and two bits, four and four, two and six make the bytes again. */
  lemma BitsRecombine(a: byte, b: byte, c: byte)
    ensures a / 4 * 4 + (a % 4 * 16 + b / 16) / 16 == a
    ensures (a % 4 * 16 + b / 16) % 16 * 16 + (b % 16 * 4 + c / 64) / 4 == b
    ensures (b % 16 * 4 + c / 64) % 4 * 64 + c % 64 == c
  {
    assert (a % 4 * 16 + b / 16) / 16 == a % 4 && (a % 4 * 16 + b / 16) % 16 == b / 16;
    assert (b % 16 * 4 + c / 64) / 4 == b % 16 && (b % 16 * 4 + c / 64) % 4 == c / 64;
  }

  lemma GroupRoundTrip(a: byte, b: byte, c: byte)
    ensures Ungroup(Group(a, b, c)) == [a, b, c]
  {
    ValueOfLetter(a / 4);
    ValueOfLetter(a % 4 * 16 + b / 16);
    ValueOfLetter(b % 16 * 4 + c / 64);
    ValueOfLetter(c % 64);
    BitsRecombine(a, b, c);
  }

  lemma GroupIsPrintable(a: byte, b: byte, c: byte)
    ensures forall i | 0 <= i < 4 :: 33 <= Group(a, b, c)[i] <= 126 && Group(a, b, c)[i] != PAD
  {
    ValueOfLetter(a / 4);
    ValueOfLetter(a % 4 * 16 + b / 16);
    ValueOfLetter(b % 16 * 4 + c / 64);
    ValueOfLetter(c % 64);
  }

  lemma OneByteRoundTrip(a: byte)
    ensures FromBase64(Group(a, 0, 0)[..2] + [PAD, PAD]) == [a]
  {
    var t := Group(a, 0, 0)[..2] + [PAD, PAD];
    assert t[..4] == t;
    ValueOfLetter(a / 4);
    ValueOfLetter(a % 4 * 16);
  }

  lemma TwoByteRoundTrip(a: byte, b: byte)
    ensures FromBase64(Group(a, b, 0)[..3] + [PAD]) == [a, b]
  {
    var t := Group(a, b, 0)[..3] + [PAD];
    assert t[..4] == t;
    ValueOfLetter(a / 4);
    ValueOfLetter(a % 4 * 16 + b / 16);
    ValueOfLetter(b % 16 * 4);
  }

  lemma {:induction false} Base64RoundTrip(s: seq<byte>)
    ensures FromBase64(Base64(s)) == s
  {
    if |s| == 1 {
      OneByteRoundTrip(s[0]);
    } else if |s| == 2 {
      TwoByteRoundTrip(s[0], s[1]);
    } else if |s| > 2 {
      var group, rest := Group(s[0], s[1], s[2]), Base64(s[3..]);
      GroupRoundTrip(s[0], s[1], s[2]);
      GroupIsPrintable(s[0], s[1], s[2]);
      Base64RoundTrip(s[3..]);
      assert (group + rest)[..4] == group && (group + rest)[4..] == rest;
      assert s == [s[0], s[1], s[2]] + s[3..];
    }
  }

  lemma {:induction false} Base64IsPrintable(s: seq<byte>)
    ensures forall i | 0 <= i < |Base64(s)| :: 33 <= Base64(s)[i] <= 126
  {
    if s != [] {
      GroupIsPrintable(s[0], if |s| > 1 then s[1] else 0, if |s| > 2 then s[2] else 0);
    }
    if |s| > 2 {
      Base64IsPrintable(s[3..]);
    }
  }

  // ---- header values ----

  const SPACE: byte := 32
  /** `=?base64?` */
  const OPEN: seq<byte> := [61, 63, 98, 97, 115, 101, 54, 52, 63]
  /** `?=` */
  const CLOSE: seq<byte> := [63, 61]

  predicate EndsWith(s: seq<byte>, end: seq<byte>) {
    |end| <= |s| && s[|s| - |end|..] == end
  }

  predicate LooksEncoded(s: seq<byte>) {
    OPEN <= s && EndsWith(s, CLOSE)
  }

  predicate Printable(s: seq<byte>) {
    forall i | 0 <= i < |s| :: 32 <= s[i] <= 126
  }

  predicate NoEdgeSpaces(s: seq<byte>) {
    s != [] ==> s[0] != SPACE && s[|s| - 1] != SPACE
  }

  /** `encode_header_value`. */
  function EncodeHeader(value: seq<byte>): seq<byte> {
    if Printable(value) && NoEdgeSpaces(value) && !LooksEncoded(value) then value
    else OPEN + Base64(value) + CLOSE
  }

  /** The receiver's reading of a header value. */
  function DecodeHeader(header: seq<byte>): seq<byte> {
    if LooksEncoded(header) && |header| >= |OPEN| + |CLOSE| then FromBase64(header[|OPEN|..|header| - |CLOSE|]) else header
  }

  lemma SentinelIsSafe(text: seq<byte>)
    requires forall i | 0 <= i < |text| :: 33 <= text[i] <= 126
    ensures Printable(OPEN + text + CLOSE) && NoEdgeSpaces(OPEN + text + CLOSE)
  {
    var h := OPEN + text + CLOSE;
    assert h[0] == 61 && h[|h| - 1] == 61;
    assert forall i | |OPEN| <= i < |h| - 2 :: h[i] == text[i - |OPEN|];
  }

  lemma SentinelOpens(text: seq<byte>)
    ensures LooksEncoded(OPEN + text + CLOSE)
    ensures (OPEN + text + CLOSE)[|OPEN|..|OPEN + text + CLOSE| - |CLOSE|] == text
  {
    var h := OPEN + text + CLOSE;
    assert h[|h| - 2..] == CLOSE && h[..|OPEN|] == OPEN;
  }

  /** Main result: every value is encoded as a safe header value and read back. */
  lemma HeaderRoundTrip(value: seq<byte>)
    ensures DecodeHeader(EncodeHeader(value)) == value
    ensures Printable(EncodeHeader(value)) && NoEdgeSpaces(EncodeHeader(value))
  {
    Base64RoundTrip(value);
    Base64IsPrintable(value);
    SentinelIsSafe(Base64(value));
    SentinelOpens(Base64(value));
  }

  /** Printable, without edge spaces, and no sentinel itself. */
  predicate Plain(value: seq<byte>) {
    && (forall b | b in value :: 32 <= b <= 126)
    && (|value| > 0 ==> value[0] != 32 && value[|value| - 1] != 32)
    && !(|value| >= 9 && value[..9] == OPEN && value[|value| - 2..] == CLOSE)
  }

  lemma PlainMeans(value: seq<byte>)
    ensures Plain(value) <==> Printable(value) && NoEdgeSpaces(value) && !LooksEncoded(value)
  {
    assert forall i | 0 <= i < |value| :: value[i] in value;
    assert OPEN <= value <==> |value| >= 9 && value[..9] == OPEN;
  }

  /** A value is sent as it is exactly if it is plain, and otherwise in the sentinel. */
  lemma PlainIff(value: seq<byte>)
    ensures EncodeHeader(value) == value <==> Plain(value)
    ensures !Plain(value) ==> EncodeHeader(value) == OPEN + Base64(value) + CLOSE
    ensures OPEN == [61, 63, 98, 97, 115, 101, 54, 52, 63] && CLOSE == [63, 61]
  {
    PlainMeans(value);
    Base64IsLonger(value);
    var sentinel := OPEN + Base64(value) + CLOSE;
    assert |sentinel| == 11 + |Base64(value)|;
  }

  lemma {:induction false} Base64IsLonger(s: seq<byte>)
    ensures |Base64(s)| >= |s|
  {
    if |s| > 2 {
      Base64IsLonger(s[3..]);
    }
  }

  lemma EncodeHeaderInjective(s: string, t: string)
    requires EncodeHeader(Utf8(s)) == EncodeHeader(Utf8(t))
    ensures s == t
  {
    HeaderRoundTrip(Utf8(s));
    HeaderRoundTrip(Utf8(t));
    Utf8Injective(s, t);
  }
}
