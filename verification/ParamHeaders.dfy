/**
 Tool arguments mirrored into `Mcp-Param-*` headers: the walk over a tool's schema that finds the
 annotated arguments, and the headers built from a call.
 */
module ParamHeaders {
  import opened Options
  import opened Json
  import opened Bytes
  import opened HeaderValue

  // ---- the schema walk ----

  function Get(v: Json, key: string): Option<Json> {
    if v.Obj? && key in v.fields then Some(v.fields[key]) else None
  }

  function Properties(schema: Json): map<string, Json> {
    var p := Get(schema, "properties");
    if p.Some? && p.value.Obj? then p.value.fields else map[]
  }

  /** The header suffix of a property that is annotated and primitive. */
  function Annotation(prop: Json): Option<string> {
    var name, kind := Get(prop, "x-mcp-header"), Get(prop, "type");
    if name.Some? && name.value.Str? && kind in {Some(Str("string")), Some(Str("integer")), Some(Str("boolean"))}
    then Some(name.value.s) else None
  }

  /** The subschema reached through `properties` keys alone. */
  function Reach(schema: Json, path: seq<string>): Option<Json>
    decreases |path|
  {
    if path == [] then Some(schema)
    else if path[0] in Properties(schema) then Reach(Properties(schema)[path[0]], path[1..])
    else None
  }

  /** The reference: `path` leads to a string, integer or boolean property annotated with `name`. */
  predicate Annotated(schema: Json, path: seq<string>, name: string) {
    && path != [] && Reach(schema, path).Some? && Reach(schema, path).value.Obj?
    && var prop := Reach(schema, path).value.fields;
       && "x-mcp-header" in prop && prop["x-mcp-header"] == Str(name)
       && "type" in prop
       && (prop["type"] == Str("string") || prop["type"] == Str("integer") || prop["type"] == Str("boolean"))
  }

  type Found = seq<(seq<string>, string)>

  lemma PropertyIsSmaller(schema: Json, key: string)
    requires key in Properties(schema)
    ensures Properties(schema)[key] < schema
  {
    var p := schema.fields["properties"];
    assert p.fields[key] < p;
  }

  lemma BelowIs(schema: Json, key: string, path: seq<string>, name: string)
    requires key in Properties(schema) && path != [] && path[0] == key
    ensures
      var prop := Properties(schema)[key];
      Annotated(schema, path, name) <==> (path == [key] && Annotation(prop) == Some(name)) || Annotated(prop, path[1..], name)
  {
    var prop := Properties(schema)[key];
    assert Reach(schema, path) == Reach(prop, path[1..]);
    if path[1..] == [] {
      assert path == [key] && Reach(prop, path[1..]) == Some(prop);
    } else {
      assert path != [key];
    }
  }

  /** The inner `walk`: with `path` as the keys so far, adds what lies below `schema`. */
  method Walk(schema: Json, path: seq<string>, found: Found) returns (out: Found)
    ensures
      forall p: seq<string>, n: string ::
        (p, n) in out <==> (p, n) in found || (path <= p && Annotated(schema, p[|path|..], n))
    decreases schema
  {
    out := found;
    var props := Properties(schema);
    var todo := props.Keys;
    while todo != {}
      invariant todo <= props.Keys
      invariant
        forall p: seq<string>, n: string ::
          (p, n) in out <==>
            (p, n) in found || (path <= p && Annotated(schema, p[|path|..], n) && p[|path|] !in todo)
      decreases todo
    {
      var key :| key in todo;
      PropertyIsSmaller(schema, key);
      ghost var before := out;
      if Annotation(props[key]).Some? {
        out := out + [(path + [key], Annotation(props[key]).value)];
      }
      out := Walk(props[key], path + [key], out);
      forall p: seq<string>, n: string
        ensures
          (p, n) in out <==>
            (p, n) in before || (path <= p && p[|path|..] != [] && p[|path|] == key && Annotated(schema, p[|path|..], n))
      {
        AddedBelow(schema, path, key, p, n);
      }
      todo := todo - {key};
    }
  }

  lemma AddedBelow(schema: Json, path: seq<string>, key: string, p: seq<string>, n: string)
    requires key in Properties(schema)
    ensures
      var prop := Properties(schema)[key];
      (path <= p && p[|path|..] != [] && p[|path|] == key && Annotated(schema, p[|path|..], n)) <==>
        || (p == path + [key] && Annotation(prop) == Some(n))
        || (path + [key] <= p && Annotated(prop, p[|path| + 1..], n))
  {
    if path <= p && p[|path|..] != [] && p[|path|] == key {
      BelowIs(schema, key, p[|path|..], n);
      assert p[|path|..][1..] == p[|path| + 1..];
      assert p[|path|..] == [key] <==> p == path + [key];
      assert path + [key] <= p;
    }
  }

  /** `param_header_paths`: exactly the annotated primitive properties, each with the path that leads to it. */
  method ParamHeaderPaths(schema: Json) returns (out: Found)
    ensures forall p: seq<string>, n: string :: (p, n) in out <==> Annotated(schema, p, n)
  {
    out := Walk(schema, [], []);
    assert forall p: seq<string> :: p[0..] == p;
  }

  // ---- headers of a call ----

  function Digit(n: nat): char
    requires n < 10
  {
    ['0', '1', '2', '3', '4', '5', '6', '7', '8', '9'][n]
  }

  function Natural(n: nat): string {
    if n < 10 then [Digit(n)] else Natural(n / 10) + [Digit(n % 10)]
  }

  function Decimal(i: int): string {
    if i < 0 then "-" + Natural(-i) else Natural(i)
  }

  /** `header_text`: a string, boolean or integer as text. */
  function HeaderText(v: Json): Option<string> {
    match v
    case Str(s) => Some(s)
    case Bool(b) => Some(if b then "true" else "false")
    case Int(i) => Some(Decimal(i))
    case _ => None
  }

  /** The number that a text of digits denotes. */
  function ReadNatural(s: string): int {
    if s == "" then 0 else ReadNatural(s[..|s| - 1]) * 10 + (s[|s| - 1] as int - '0' as int)
  }

  lemma {:induction false} NaturalReads(n: nat)
    ensures ReadNatural(Natural(n)) == n
    ensures forall c | c in Natural(n) :: '0' <= c <= '9'
    ensures Natural(n) != "" && (n > 0 ==> Natural(n)[0] != '0')
    ensures n < 10 ==> |Natural(n)| == 1
  {
    if n < 10 {
      assert Natural(n)[..0] == "";
    } else {
      NaturalReads(n / 10);
      assert Natural(n)[..|Natural(n)| - 1] == Natural(n / 10);
    }
  }

  /** Integers are written in decimal without leading zeros, a minus sign before negative ones. */
  lemma DecimalReads(i: int)
    ensures
      var s := Decimal(i);
      if i < 0 then s[..1] == "-" && ReadNatural(s[1..]) == -i && s[1] != '0' else ReadNatural(s) == i && s[0] != '-'
    ensures Decimal(0) == "0"
  {
    NaturalReads(if i < 0 then -i else i);
    if i < 0 {
      assert Decimal(i)[1..] == Natural(-i);
    } else {
      assert Decimal(i)[0] in Natural(i);
    }
  }

  /** Strings are themselves, booleans their names, integers decimal; nothing else has a header text. */
  lemma TextOfValues(v: Json)
    ensures v.Str? ==> HeaderText(v) == Some(v.s)
    ensures v == Bool(true) ==> HeaderText(v) == Some("true")
    ensures v == Bool(false) ==> HeaderText(v) == Some("false")
    ensures v.Int? && v.i >= 0 ==> HeaderText(v).Some? && ReadNatural(HeaderText(v).value) == v.i
    ensures HeaderText(v).Some? <==> v.Str? || v.Bool? || v.Int?
  {
    if v.Int? {
      DecimalReads(v.i);
    }
  }

  lemma {:induction false} NaturalInjective(m: nat, n: nat)
    requires Natural(m) == Natural(n)
    ensures m == n
  {
    var s, t := Natural(m), Natural(n);
    assert s[|s| - 1] == Digit(m % 10) && t[|t| - 1] == Digit(n % 10);
    if m >= 10 && n >= 10 {
      assert s[..|s| - 1] == Natural(m / 10) && t[..|t| - 1] == Natural(n / 10);
      NaturalInjective(m / 10, n / 10);
    } else {
      NaturalNotEmpty(m / 10);
      NaturalNotEmpty(n / 10);
    }
  }

  lemma {:induction false} NaturalNotEmpty(n: nat)
    ensures Natural(n) != "" && Natural(n)[0] != '-'
  {
    if n >= 10 {
      NaturalNotEmpty(n / 10);
    }
  }

  lemma DecimalInjective(i: int, j: int)
    requires Decimal(i) == Decimal(j)
    ensures i == j
  {
    NaturalNotEmpty(if i < 0 then -i else i);
    NaturalNotEmpty(if j < 0 then -j else j);
    assert (i < 0) == (Decimal(i)[0] == '-') && (j < 0) == (Decimal(j)[0] == '-');
    if i < 0 {
      assert Decimal(i)[1..] == Natural(-i) && Decimal(j)[1..] == Natural(-j);
      NaturalInjective(-i, -j);
    } else {
      NaturalInjective(i, j);
    }
  }

  predicate SameKind(v: Json, w: Json) {
    (v.Str? && w.Str?) || (v.Bool? && w.Bool?) || (v.Int? && w.Int?)
  }

  /** Of two values of the same kind, the header text tells which. */
  lemma HeaderTextInjective(v: Json, w: Json)
    requires SameKind(v, w) && HeaderText(v) == HeaderText(w)
    ensures v == w
  {
    if v.Int? {
      DecimalInjective(v.i, w.i);
    } else if v.Bool? {
      assert |"true"| != |"false"|;
    }
  }

  /** The argument at a path. */
  function Argument(args: Json, path: seq<string>): Option<Json>
    decreases |path|
  {
    if path == [] then Some(args)
    else if Get(args, path[0]).Some? then Argument(Get(args, path[0]).value, path[1..])
    else None
  }

  function TextAt(args: Json, path: seq<string>): Option<string> {
    var v := Argument(args, path);
    if v.Some? then HeaderText(v.value) else None
  }

  function LowerChar(c: char): char {
    if 'A' <= c <= 'Z' then c - 'A' + 'a' else c
  }

  function Lower(s: string): string {
    seq(|s|, i requires 0 <= i < |s| => LowerChar(s[i]))
  }

  /** The characters of a header name: the tokens of section 5.6.2 of RFC 9110. */
  predicate TokenChar(c: char) {
    'a' <= c <= 'z' || 'A' <= c <= 'Z' || '0' <= c <= '9' || c in "!#$%&'*+-.^_`|~"
  }

  /** The name of the header for a suffix, if it is a valid one; names are compared in lower case. */
  function HeaderName(suffix: string): Option<string> {
    if forall i | 0 <= i < |suffix| :: TokenChar(suffix[i]) then Some("mcp-param-" + Lower(suffix)) else None
  }

  predicate SameLetter(a: char, b: char) {
    || a == b
    || ('a' <= a <= 'z' && b as int == a as int - 32)
    || ('a' <= b <= 'z' && a as int == b as int - 32)
  }

  lemma CutPrefix(prefix: string, rest: string)
    ensures (prefix + rest)[..|prefix|] == prefix && (prefix + rest)[|prefix|..] == rest
  {
  }

  lemma LowerIs(a: string)
    ensures |Lower(a)| == |a|
    ensures forall i | 0 <= i < |a| :: SameLetter(Lower(a)[i], a[i]) && !('A' <= Lower(a)[i] <= 'Z')
  {
  }

  /** The header is named by the prefix and the suffix in small letters. */
  lemma HeaderNameIs(a: string)
    ensures HeaderName(a).Some? <==> forall c | c in a :: TokenChar(c)
    ensures
      HeaderName(a).Some? ==>
        var name := HeaderName(a).value;
        && |name| >= 10 && name[..10] == "mcp-param-" && |name[10..]| == |a|
        && forall i | 0 <= i < |a| :: SameLetter(name[10..][i], a[i]) && !('A' <= name[10..][i] <= 'Z')
  {
    assert forall i | 0 <= i < |a| :: a[i] in a;
    LowerIs(a);
    assert |"mcp-param-"| == 10;
    CutPrefix("mcp-param-", Lower(a));
  }

  lemma LowerClashIff(a: string, b: string)
    ensures Lower(a) == Lower(b) <==> |a| == |b| && forall i | 0 <= i < |a| :: SameLetter(a[i], b[i])
  {
    if Lower(a) == Lower(b) {
      forall i | 0 <= i < |a|
        ensures SameLetter(a[i], b[i])
      {
        assert Lower(a)[i] == Lower(b)[i];
      }
    }
  }

  /** Header names clash exactly if they differ at most in the case of ASCII letters. */
  lemma HeaderNamesClashIff(a: string, b: string)
    requires HeaderName(a).Some? && HeaderName(b).Some?
    ensures
      HeaderName(a) == HeaderName(b) <==> |a| == |b| && forall i | 0 <= i < |a| :: SameLetter(a[i], b[i])
  {
    CutPrefix("mcp-param-", Lower(a));
    CutPrefix("mcp-param-", Lower(b));
    LowerClashIff(a, b);
  }

  type Headers = map<string, seq<byte>>

  /** The value that an annotation gives its header, if the name is valid and the argument is there. */
  function Mirrored(args: Json, f: (seq<string>, string)): Option<seq<byte>> {
    if HeaderName(f.1).Some? && TextAt(args, f.0).Some? then Some(EncodeHeader(Utf8(TextAt(args, f.0).value))) else None
  }

  function Put(headers: Headers, args: Json, f: (seq<string>, string)): Headers {
    if Mirrored(args, f).Some? then headers[HeaderName(f.1).value := Mirrored(args, f).value] else headers
  }

  /** The headers of a call: later annotations replace earlier ones of the same name. */
  function Mirror(args: Json, found: Found): Headers {
    if found == [] then map[] else Put(Mirror(args, found[..|found| - 1]), args, found[|found| - 1])
  }

  /** The `Mcp-Param-*` part of `modern_headers`. */
  method MirrorArguments(args: Json, found: Found) returns (headers: Headers)
    ensures headers == Mirror(args, found)
  {
    headers := map[];
    for i := 0 to |found|
      invariant headers == Mirror(args, found[..i])
    {
      assert found[..i + 1][..i] == found[..i];
      var text, name := TextAt(args, found[i].0), HeaderName(found[i].1);
      if text.Some? && name.Some? {
        headers := headers[name.value := EncodeHeader(Utf8(text.value))];
      }
    }
    assert found[..|found|] == found;
  }

  /** No other annotation has the same header name. */
  predicate NoClash(found: Found, f: (seq<string>, string)) {
    forall k | 0 <= k < |found| && found[k] != f :: HeaderName(found[k].1) != HeaderName(f.1)
  }

  /** A header that no other annotation claims is there exactly when its argument is, with that value. */
  lemma {:induction false} UnclashedHeader(args: Json, found: Found, f: (seq<string>, string))
    requires f in found && NoClash(found, f) && HeaderName(f.1).Some?
    ensures
      var name := HeaderName(f.1).value;
      && (name in Mirror(args, found) <==> Mirrored(args, f).Some?)
      && (name in Mirror(args, found) ==> Mirror(args, found)[name] == Mirrored(args, f).value)
  {
    var shorter, last := found[..|found| - 1], found[|found| - 1];
    assert found == shorter + [last];
    if f in shorter {
      UnclashedHeader(args, shorter, f);
    } else {
      NotClaimed(args, shorter, HeaderName(f.1).value);
    }
  }

  lemma {:induction false} NotClaimed(args: Json, found: Found, name: string)
    requires forall k | 0 <= k < |found| :: HeaderName(found[k].1) != Some(name)
    ensures name !in Mirror(args, found)
  {
    if found != [] {
      NotClaimed(args, found[..|found| - 1], name);
    }
  }

  /**
   Main result: a mirrored header is a safe value, and what a receiver reads in it is the argument's
   text, which among the values of the argument's kind belongs to the argument alone.
   */
  lemma MirroredHeaderDecodes(args: Json, f: (seq<string>, string))
    requires Mirrored(args, f).Some?
    ensures
      var value := Mirrored(args, f).value;
      var a := Argument(args, f.0).value;
      && DecodeHeader(value) == Utf8(HeaderText(a).value)
      && Printable(value) && NoEdgeSpaces(value)
      && (forall v | SameKind(v, a) && EncodeHeader(Utf8(HeaderText(v).value)) == value :: v == a)
  {
    var value := Mirrored(args, f).value;
    var a := Argument(args, f.0).value;
    HeaderRoundTrip(Utf8(HeaderText(a).value));
    forall v | SameKind(v, a) && EncodeHeader(Utf8(HeaderText(v).value)) == value
      ensures v == a
    {
      EncodeHeaderInjective(HeaderText(v).value, HeaderText(a).value);
      HeaderTextInjective(v, a);
    }
  }

  // ---- from the schema to the headers ----

  /** Every header comes from some annotation. */
  lemma {:induction false} HeadersAreMirrored(args: Json, found: Found, name: string)
    requires name in Mirror(args, found)
    ensures
      exists k | 0 <= k < |found| ::
        HeaderName(found[k].1) == Some(name) && Mirrored(args, found[k]) == Some(Mirror(args, found)[name])
  {
    var shorter, last := found[..|found| - 1], found[|found| - 1];
    if HeaderName(last.1) != Some(name) || Mirrored(args, last).None? {
      HeadersAreMirrored(args, shorter, name);
      var k :| 0 <= k < |shorter| && HeaderName(shorter[k].1) == Some(name)
               && Mirrored(args, shorter[k]) == Some(Mirror(args, shorter)[name]);
      assert found[k] == shorter[k];
    }
  }

  /** The annotation has a valid header name that no other annotation of the schema has. */
  ghost predicate Unclashed(schema: Json, path: seq<string>, suffix: string) {
    && Annotated(schema, path, suffix) && HeaderName(suffix).Some?
    && forall p: seq<string>, n: string | Annotated(schema, p, n) && (p, n) != (path, suffix) ::
         HeaderName(n) != HeaderName(suffix)
  }

  /** A receiver finds the argument's text in the header if there is such an argument, and else no header. */
  predicate Carries(headers: Headers, suffix: string, text: Option<string>) {
    HeaderName(suffix).Some? ==>
      var name := HeaderName(suffix).value;
      && (name in headers <==> text.Some?)
      && (name in headers ==>
            && DecodeHeader(headers[name]) == Utf8(text.value)
            && Printable(headers[name]) && NoEdgeSpaces(headers[name]))
  }

  /**
   Main result: the headers of a call, from the schema its tool was listed with. Every annotated
   argument whose header name is valid and its own can be read back from that header, and no header
   is there without an annotated argument.
   */
  method CallHeaders(schema: Json, args: Json) returns (headers: Headers)
    ensures forall path: seq<string>, suffix: string | Unclashed(schema, path, suffix) ::
        Carries(headers, suffix, TextAt(args, path))
    ensures forall name | name in headers ::
        exists path: seq<string>, suffix: string | Annotated(schema, path, suffix) ::
          HeaderName(suffix) == Some(name) && TextAt(args, path).Some?
  {
    var found := ParamHeaderPaths(schema);
    headers := MirrorArguments(args, found);
    forall path: seq<string>, suffix: string | Unclashed(schema, path, suffix)
      ensures Carries(headers, suffix, TextAt(args, path))
    {
      UnclashedCarries(args, schema, found, path, suffix);
    }
    forall name | name in headers
      ensures
        exists path: seq<string>, suffix: string | Annotated(schema, path, suffix) ::
          HeaderName(suffix) == Some(name) && TextAt(args, path).Some?
    {
      HeadersAreMirrored(args, found, name);
      var k :| 0 <= k < |found| && HeaderName(found[k].1) == Some(name) && Mirrored(args, found[k]).Some?;
      assert (found[k].0, found[k].1) in found;
    }
  }

  lemma UnclashedCarries(args: Json, schema: Json, found: Found, path: seq<string>, suffix: string)
    requires forall p: seq<string>, n: string :: (p, n) in found <==> Annotated(schema, p, n)
    requires Unclashed(schema, path, suffix)
    ensures Carries(Mirror(args, found), suffix, TextAt(args, path))
  {
    var f := (path, suffix);
    assert f in found;
    forall k | 0 <= k < |found| && found[k] != f
      ensures HeaderName(found[k].1) != HeaderName(suffix)
    {
      assert (found[k].0, found[k].1) in found;
    }
    UnclashedHeader(args, found, f);
    if Mirrored(args, f).Some? {
      MirroredHeaderDecodes(args, f);
    }
  }
}
