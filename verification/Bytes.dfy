/** Bytes, and the UTF-8 encoding of text. */
module Bytes {
  type byte = b: int | 0 <= b < 256

  function Utf8Char(c: char): seq<byte> {
    var n := c as int;
    if n < 0x80 then [n]
    else if n < 0x800 then [0xC0 + n / 64, 0x80 + n % 64]
    else if n < 0x10000 then [0xE0 + n / 64 / 64, 0x80 + n / 64 % 64, 0x80 + n % 64]
    else [0xF0 + n / 64 / 64 / 64, 0x80 + n / 64 / 64 % 64, 0x80 + n / 64 % 64, 0x80 + n % 64]
  }

  function Utf8(s: string): seq<byte> {
    if s == "" then [] else Utf8Char(s[0]) + Utf8(s[1..])
  }

  /** The code point at the front of well-formed UTF-8, and its length. */
  function Front(b: seq<byte>): (int, nat)
    requires b != []
  {
    var x := b[0] as int;
    if x < 0x80 || |b| < 2 then (x, 1)
    else
      var y := b[1] as int - 0x80;
      if x < 0xE0 || |b| < 3 then ((x - 0xC0) * 64 + y, 2)
      else
        var z := b[2] as int - 0x80;
        if x < 0xF0 || |b| < 4 then (((x - 0xE0) * 64 + y) * 64 + z, 3)
        else
          var u := b[3] as int - 0x80;
          ((((x - 0xF0) * 64 + y) * 64 + z) * 64 + u, 4)
  }

  lemma FrontOfUtf8(c: char, rest: seq<byte>)
    ensures Front(Utf8Char(c) + rest) == (c as int, |Utf8Char(c)|)
  {
  }

  /** Different texts have different encodings. */
  lemma {:induction false} Utf8Injective(s: string, t: string)
    requires Utf8(s) == Utf8(t)
    ensures s == t
  {
    if s != "" && t != "" {
      FrontOfUtf8(s[0], Utf8(s[1..]));
      FrontOfUtf8(t[0], Utf8(t[1..]));
      var n := |Utf8Char(s[0])|;
      assert Utf8(s)[n..] == Utf8(s[1..]) && Utf8(t)[n..] == Utf8(t[1..]);
      Utf8Injective(s[1..], t[1..]);
      assert s == [s[0]] + s[1..] && t == [t[0]] + t[1..];
    }
  }
}
