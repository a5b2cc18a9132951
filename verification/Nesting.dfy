/**
 The byte scanner that guards the JSON parser against deep nesting, against the depth of the value
 that a JSON text denotes.

 A `Doc` is the concrete syntax of one JSON text (RFC 8259): it keeps the whitespace, the way each
 string character is escaped and the order of members, so every JSON text is `Print` of a `Doc`.
 */
module Nesting {
  import opened Bytes

  const QUOTE: byte := 34
  const COMMA: byte := 44
  const COLON: byte := 58
  const OPEN_BRACKET: byte := 91
  const BACKSLASH: byte := 92
  const CLOSE_BRACKET: byte := 93
  const OPEN_BRACE: byte := 123
  const CLOSE_BRACE: byte := 125

  // ---- JSON texts ----

  /** One character of a JSON string: as it is, escaped by a backslash, or `\u` and four hex digits. */
  datatype Char = Plain(b: byte) | Short(b: byte) | Unicode(a: byte, b: byte, c: byte, d: byte)

  datatype Doc =
    | Scalar(text: seq<byte>)  // a number, true, false or null
    | Text(chars: seq<Char>)
    | Array(pad: seq<byte>, items: seq<Doc>)
    | Object(pad: seq<byte>, members: seq<Member>)
    | Spaced(before: seq<byte>, doc: Doc, after: seq<byte>)

  datatype Member = Member(lead: seq<byte>, key: seq<Char>, gap: seq<byte>, value: Doc)

  /** Not one of the bytes the scanner looks at outside strings. */
  predicate Neutral(b: byte) {
    b != QUOTE && b != OPEN_BRACKET && b != CLOSE_BRACKET && b != OPEN_BRACE && b != CLOSE_BRACE
  }

  predicate AllNeutral(s: seq<byte>) {
    forall i | 0 <= i < |s| :: Neutral(s[i])
  }

  predicate HexDigit(b: byte) {
    48 <= b <= 57 || 65 <= b <= 70 || 97 <= b <= 102
  }

  /** Section 7 of RFC 8259: quotation marks, reverse solidus and control characters are escaped. */
  predicate WfChar(c: Char) {
    match c
    case Plain(b) => b >= 32 && b != QUOTE && b != BACKSLASH
    case Short(b) => b in {34, 92, 47, 98, 102, 110, 114, 116}
    case Unicode(a, b, c, d) => HexDigit(a) && HexDigit(b) && HexDigit(c) && HexDigit(d)
  }

  predicate WfString(chars: seq<Char>) {
    forall i | 0 <= i < |chars| :: WfChar(chars[i])
  }

  predicate Wf(doc: Doc) {
    match doc
    case Scalar(text) => AllNeutral(text)
    case Text(chars) => WfString(chars)
    case Array(pad, items) => AllNeutral(pad) && forall i | 0 <= i < |items| :: Wf(items[i])
    case Object(pad, members) =>
      AllNeutral(pad) && forall i | 0 <= i < |members| :: WfMember(members[i])
    case Spaced(before, inner, after) => AllNeutral(before) && Wf(inner) && AllNeutral(after)
  }

  predicate WfMember(m: Member) {
    AllNeutral(m.lead) && WfString(m.key) && AllNeutral(m.gap) && Wf(m.value)
  }

  function PrintChar(c: Char): seq<byte> {
    match c
    case Plain(b) => [b]
    case Short(b) => [BACKSLASH, b]
    case Unicode(a, b, c, d) => [BACKSLASH, 117, a, b, c, d]
  }

  function PrintChars(chars: seq<Char>): seq<byte> {
    if chars == [] then [] else PrintChar(chars[0]) + PrintChars(chars[1..])
  }

  function PrintString(chars: seq<Char>): seq<byte> {
    [QUOTE] + PrintChars(chars) + [QUOTE]
  }

  function Print(doc: Doc): seq<byte> {
    match doc
    case Scalar(text) => text
    case Text(chars) => PrintString(chars)
    case Array(pad, items) => [OPEN_BRACKET] + pad + PrintItems(items) + [CLOSE_BRACKET]
    case Object(pad, members) => [OPEN_BRACE] + pad + PrintMembers(members) + [CLOSE_BRACE]
    case Spaced(before, inner, after) => before + Print(inner) + after
  }

  function PrintItems(items: seq<Doc>): seq<byte> {
    if items == [] then []
    else Print(items[0]) + (if |items| == 1 then [] else [COMMA]) + PrintItems(items[1..])
  }

  function PrintMembers(members: seq<Member>): seq<byte> {
    if members == [] then []
    else
      members[0].lead + PrintString(members[0].key) + members[0].gap + [COLON] + Print(members[0].value)
      + (if |members| == 1 then [] else [COMMA]) + PrintMembers(members[1..])
  }

  function Max(a: nat, b: nat): nat {
    if a >= b then a else b
  }

  /** How many containers are open at the deepest point. */
  function Depth(doc: Doc): nat {
    match doc
    case Scalar(_) => 0
    case Text(_) => 0
    case Array(_, items) => 1 + ItemsDepth(items)
    case Object(_, members) => 1 + MembersDepth(members)
    case Spaced(_, inner, _) => Depth(inner)
  }

  function ItemsDepth(items: seq<Doc>): nat {
    if items == [] then 0 else Max(Depth(items[0]), ItemsDepth(items[1..]))
  }

  function MembersDepth(members: seq<Member>): nat {
    if members == [] then 0 else Max(Depth(members[0].value), MembersDepth(members[1..]))
  }

  // ---- the scanner ----

  datatype Scan = TooDeep | At(depth: nat, inString: bool, escaped: bool)

  function Step(st: Scan, b: byte, max: nat): Scan {
    if st.TooDeep? then st
    else if st.inString then
      if st.escaped then st.(escaped := false)
      else if b == BACKSLASH then st.(escaped := true)
      else if b == QUOTE then st.(inString := false)
      else st
    else if b == QUOTE then st.(inString := true)
    else if b == OPEN_BRACE || b == OPEN_BRACKET then
      if st.depth + 1 > max then TooDeep else st.(depth := st.depth + 1)
    else if b == CLOSE_BRACE || b == CLOSE_BRACKET then
      st.(depth := if st.depth == 0 then 0 else st.depth - 1)
    else st
  }

  function ScanAll(st: Scan, s: seq<byte>, max: nat): Scan
    decreases |s|
  {
    if s == [] then st else ScanAll(Step(st, s[0], max), s[1..], max)
  }

  const START := At(0, false, false)

  lemma {:induction false} ScanConcat(st: Scan, a: seq<byte>, b: seq<byte>, max: nat)
    ensures ScanAll(st, a + b, max) == ScanAll(ScanAll(st, a, max), b, max)
    decreases |a|
  {
    if a == [] {
      assert a + b == b;
    } else {
      assert (a + b)[1..] == a[1..] + b;
      ScanConcat(Step(st, a[0], max), a[1..], b, max);
    }
  }

  lemma {:induction false} ScanTooDeep(s: seq<byte>, max: nat)
    ensures ScanAll(TooDeep, s, max) == TooDeep
  {
    if s != [] {
      ScanTooDeep(s[1..], max);
    }
  }

  /** `exceeds_max_nesting`. */
  method ExceedsMaxNesting(bytes: seq<byte>, maxDepth: nat) returns (exceeds: bool)
    ensures exceeds <==> ScanAll(START, bytes, maxDepth).TooDeep?
  {
    var depth: nat := 0;
    var inString := false;
    var escaped := false;
    for i := 0 to |bytes|
      invariant ScanAll(START, bytes, maxDepth) == ScanAll(At(depth, inString, escaped), bytes[i..], maxDepth)
    {
      var b := bytes[i];
      assert bytes[i..][1..] == bytes[i + 1..];
      if inString {
        if escaped {
          escaped := false;
        } else if b == BACKSLASH {
          escaped := true;
        } else if b == QUOTE {
          inString := false;
        }
        continue;
      }
      if b == QUOTE {
        inString := true;
      } else if b == OPEN_BRACE || b == OPEN_BRACKET {
        depth := depth + 1;
        if depth > maxDepth {
          ScanTooDeep(bytes[i + 1..], maxDepth);
          return true;
        }
      } else if b == CLOSE_BRACE || b == CLOSE_BRACKET {
        depth := if depth == 0 then 0 else depth - 1;
      }
    }
    exceeds := false;
  }

  // ---- the scanner on JSON texts ----

  lemma {:induction false} ScanNeutral(d: nat, s: seq<byte>, max: nat)
    requires AllNeutral(s)
    ensures ScanAll(At(d, false, false), s, max) == At(d, false, false)
  {
    if s != [] {
      ScanNeutral(d, s[1..], max);
    }
  }

  lemma {:induction false} ScanInside(d: nat, s: seq<byte>, max: nat)
    requires forall i | 0 <= i < |s| :: s[i] != QUOTE && s[i] != BACKSLASH
    ensures ScanAll(At(d, true, false), s, max) == At(d, true, false)
  {
    if s != [] {
      ScanInside(d, s[1..], max);
    }
  }

  lemma ScanChar(d: nat, c: Char, max: nat)
    requires WfChar(c)
    ensures ScanAll(At(d, true, false), PrintChar(c), max) == At(d, true, false)
  {
    var st := At(d, true, false);
    if c.Plain? {
      ScanInside(d, PrintChar(c), max);
    } else {
      // The backslash and the byte it escapes, then hex digits if any.
      var escaped, digits := PrintChar(c)[1..2], PrintChar(c)[2..];
      assert PrintChar(c) == [BACKSLASH] + escaped + digits;
      ScanConcat(st, [BACKSLASH] + escaped, digits, max);
      ScanConcat(st, [BACKSLASH], escaped, max);
      assert escaped[1..] == [];
      ScanInside(d, digits, max);
    }
  }

  lemma {:induction false} ScanChars(d: nat, chars: seq<Char>, max: nat)
    requires WfString(chars)
    ensures ScanAll(At(d, true, false), PrintChars(chars), max) == At(d, true, false)
  {
    if chars != [] {
      ScanChar(d, chars[0], max);
      ScanChars(d, chars[1..], max);
      ScanConcat(At(d, true, false), PrintChar(chars[0]), PrintChars(chars[1..]), max);
    }
  }

  /** Brackets, quotes and backslashes inside a string are never counted. */
  lemma ScanString(d: nat, chars: seq<Char>, max: nat)
    requires WfString(chars)
    ensures ScanAll(At(d, false, false), PrintString(chars), max) == At(d, false, false)
  {
    ScanConcat(At(d, false, false), [QUOTE], PrintChars(chars), max);
    ScanChars(d, chars, max);
    ScanConcat(At(d, false, false), [QUOTE] + PrintChars(chars), [QUOTE], max);
  }

  /** From depth `d`, the text of something `n` deep is too deep or leaves the scanner where it was. */
  function Passed(d: nat, n: nat, max: nat): Scan {
    if d + n > max then TooDeep else At(d, false, false)
  }

  /** A container: its opening byte, its content and its closing byte. */
  lemma ScanContainer(d: nat, open: byte, pad: seq<byte>, content: seq<byte>, close: byte, n: nat, max: nat)
    requires (open == OPEN_BRACKET && close == CLOSE_BRACKET) || (open == OPEN_BRACE && close == CLOSE_BRACE)
    requires AllNeutral(pad) && d <= max
    requires d + 1 <= max ==> ScanAll(At(d + 1, false, false), content, max) == Passed(d + 1, n, max)
    ensures ScanAll(At(d, false, false), [open] + pad + content + [close], max) == Passed(d, 1 + n, max)
  {
    var st := At(d, false, false);
    ScanConcat(st, [open] + pad + content, [close], max);
    ScanConcat(st, [open] + pad, content, max);
    ScanConcat(st, [open], pad, max);
    if d + 1 > max {
      ScanTooDeep(pad, max);
      ScanTooDeep(content, max);
      ScanTooDeep([close], max);
    } else {
      ScanNeutral(d + 1, pad, max);
      ScanTooDeep([close], max);
    }
  }

  lemma {:induction false} ScanDoc(d: nat, doc: Doc, max: nat)
    requires Wf(doc) && d <= max
    ensures ScanAll(At(d, false, false), Print(doc), max) == Passed(d, Depth(doc), max)
    decreases doc, 1
  {
    match doc
    case Scalar(text) => ScanNeutral(d, text, max);
    case Text(chars) => ScanString(d, chars, max);
    case Array(pad, items) =>
      if d + 1 <= max {
        ScanItems(d + 1, items, max);
      }
      ScanContainer(d, OPEN_BRACKET, pad, PrintItems(items), CLOSE_BRACKET, ItemsDepth(items), max);
    case Object(pad, members) =>
      if d + 1 <= max {
        ScanMembers(d + 1, members, max);
      }
      ScanContainer(d, OPEN_BRACE, pad, PrintMembers(members), CLOSE_BRACE, MembersDepth(members), max);
    case Spaced(before, inner, after) =>
      ScanConcat(At(d, false, false), before + Print(inner), after, max);
      ScanConcat(At(d, false, false), before, Print(inner), max);
      ScanNeutral(d, before, max);
      ScanDoc(d, inner, max);
      ScanNeutral(d, after, max);
      ScanTooDeep(after, max);
  }

  /** A part that leaves the scanner in place or stops it, a neutral separator, and the rest. */
  lemma ScanThen(d: nat, first: seq<byte>, n: nat, sep: seq<byte>, rest: seq<byte>, m: nat, max: nat)
    requires AllNeutral(sep)
    requires ScanAll(At(d, false, false), first, max) == Passed(d, n, max)
    requires ScanAll(At(d, false, false), rest, max) == Passed(d, m, max)
    ensures ScanAll(At(d, false, false), first + sep + rest, max) == Passed(d, Max(n, m), max)
  {
    ScanConcat(At(d, false, false), first + sep, rest, max);
    ScanConcat(At(d, false, false), first, sep, max);
    ScanNeutral(d, sep, max);
    ScanTooDeep(sep, max);
    ScanTooDeep(rest, max);
  }

  lemma {:induction false} ScanItems(d: nat, items: seq<Doc>, max: nat)
    requires (forall i | 0 <= i < |items| :: Wf(items[i])) && d <= max
    ensures ScanAll(At(d, false, false), PrintItems(items), max) == Passed(d, ItemsDepth(items), max)
    decreases items, 0
  {
    if items != [] {
      ScanDoc(d, items[0], max);
      ScanItems(d, items[1..], max);
      ScanThen(d, Print(items[0]), Depth(items[0]), if |items| == 1 then [] else [COMMA],
               PrintItems(items[1..]), ItemsDepth(items[1..]), max);
    }
  }

  lemma ScanMember(d: nat, m: Member, max: nat)
    requires WfMember(m) && ScanAll(At(d, false, false), Print(m.value), max) == Passed(d, Depth(m.value), max)
    ensures
      ScanAll(At(d, false, false), m.lead + PrintString(m.key) + m.gap + [COLON] + Print(m.value), max)
      == Passed(d, Depth(m.value), max)
  {
    var st := At(d, false, false);
    ScanConcat(st, m.lead + PrintString(m.key) + m.gap + [COLON], Print(m.value), max);
    ScanConcat(st, m.lead + PrintString(m.key) + m.gap, [COLON], max);
    ScanConcat(st, m.lead + PrintString(m.key), m.gap, max);
    ScanConcat(st, m.lead, PrintString(m.key), max);
    ScanNeutral(d, m.lead, max);
    ScanString(d, m.key, max);
    ScanNeutral(d, m.gap, max);
    ScanNeutral(d, [COLON], max);
  }

  lemma {:induction false} ScanMembers(d: nat, members: seq<Member>, max: nat)
    requires (forall i | 0 <= i < |members| :: WfMember(members[i])) && d <= max
    ensures ScanAll(At(d, false, false), PrintMembers(members), max) == Passed(d, MembersDepth(members), max)
    decreases members, 0
  {
    if members != [] {
      var m := members[0];
      ScanDoc(d, m.value, max);
      ScanMember(d, m, max);
      ScanMembers(d, members[1..], max);
      ScanThen(d, m.lead + PrintString(m.key) + m.gap + [COLON] + Print(m.value), Depth(m.value),
               if |members| == 1 then [] else [COMMA], PrintMembers(members[1..]), MembersDepth(members[1..]), max);
    }
  }

  /** Main result: the scanner reports a JSON text exactly when its value is nested deeper than the limit. */
  lemma ScannerMeasuresDepth(doc: Doc, max: nat)
    requires Wf(doc)
    ensures ScanAll(START, Print(doc), max).TooDeep? <==> Depth(doc) > max
  {
    ScanDoc(0, doc, max);
  }

  // ---- bytes that are not one JSON text ----

  predicate Closers(s: seq<byte>) {
    forall i | 0 <= i < |s| :: s[i] == CLOSE_BRACKET || s[i] == CLOSE_BRACE
  }

  lemma {:induction false} ScanClosers(s: seq<byte>, max: nat)
    requires Closers(s)
    ensures ScanAll(START, s, max) == START
  {
    if s != [] {
      ScanClosers(s[1..], max);
    }
  }

  /** JSON texts one after the other, each after closing brackets that close nothing. */
  datatype Stray = Stray(closers: seq<byte>, doc: Doc)

  function PrintStrays(strays: seq<Stray>): seq<byte> {
    if strays == [] then [] else strays[0].closers + Print(strays[0].doc) + PrintStrays(strays[1..])
  }

  /** Closing brackets that close nothing do not buy depth for what follows. */
  lemma {:induction false} StrayClosersDoNotCount(strays: seq<Stray>, max: nat)
    requires forall i | 0 <= i < |strays| :: Closers(strays[i].closers) && Wf(strays[i].doc)
    ensures
      ScanAll(START, PrintStrays(strays), max).TooDeep? <==>
        exists i | 0 <= i < |strays| :: Depth(strays[i].doc) > max
  {
    if strays != [] {
      var first, rest := strays[0], PrintStrays(strays[1..]);
      ScanConcat(START, first.closers + Print(first.doc), rest, max);
      ScanConcat(START, first.closers, Print(first.doc), max);
      ScanClosers(first.closers, max);
      ScanDoc(0, first.doc, max);
      if Depth(first.doc) > max {
        ScanTooDeep(rest, max);
      } else {
        StrayClosersDoNotCount(strays[1..], max);
        assert forall i | 0 < i < |strays| :: strays[i] == strays[1..][i - 1];
        if i :| 0 <= i < |strays[1..]| && Depth(strays[1..][i].doc) > max {
          assert strays[i + 1] == strays[1..][i];
        }
      }
    }
  }
}
