/**
 The text of an event stream by a grammar of its own, what it denotes, and that the decoder reads
 exactly that out of it, wherever it is cut. Every text is a stream of this grammar.
 */
module SseStream {
  import opened Options
  import opened Lines
  import opened Sse

  /** One line: blank, a comment, a name alone, or a name and a value with or without the optional space. */
  datatype Content =
    | Blank
    | Comment(text: string)
    | Name(name: string)
    | Field(name: string, space: bool, value: string)

  /** A line ends in LF, or in CR and LF. */
  datatype StreamLine = StreamLine(content: Content, cr: bool)

  function PrintContent(c: Content): string {
    match c
    case Blank => ""
    case Comment(text) => ":" + text
    case Name(name) => name
    case Field(name, space, value) => name + ":" + (if space then " " else "") + value
  }

  function PrintLine(l: StreamLine): string {
    PrintContent(l.content) + (if l.cr then "\r\n" else "\n")
  }

  function Print(lines: seq<StreamLine>): string {
    if lines == [] then "" else PrintLine(lines[0]) + Print(lines[1..])
  }

  predicate Colonless(name: string) {
    name != "" && forall i | 0 <= i < |name| :: name[i] != ':'
  }

  /** Names have no colon, a value without the optional space does not begin with one. */
  predicate WfContent(c: Content) {
    match c
    case Blank => true
    case Comment(_) => true
    case Name(name) => Colonless(name)
    case Field(name, space, value) => Colonless(name) && (!space && value != "" ==> value[0] != ' ')
  }

  /** No line break inside a line, and a CR at the end of a line belongs to its end. */
  predicate Wf(l: StreamLine) {
    var text := PrintContent(l.content);
    WfContent(l.content) && Unbroken(text) && (!l.cr && text != "" ==> text[|text| - 1] != '\r')
  }

  predicate WfAll(lines: seq<StreamLine>) {
    forall i | 0 <= i < |lines| :: Wf(lines[i])
  }

  // ---- what a stream denotes ----

  /** The values given to a field, in order; a name alone gives the empty one. */
  function Values(lines: seq<StreamLine>, name: string): seq<string> {
    if lines == [] then []
    else
      (match lines[0].content
       case Name(n) => if n == name then [""] else []
       case Field(n, _, value) => if n == name then [value] else []
       case _ => [])
      + Values(lines[1..], name)
  }

  function LastOf(values: seq<string>): Option<string> {
    if values == [] then None else Some(values[|values| - 1])
  }

  /** The event of the lines before a blank one, if they give any data. */
  function EventOf(block: seq<StreamLine>): seq<SseEvent> {
    var data := Values(block, "data");
    if data == [] then []
    else [SseEvent(LastOf(Values(block, "event")), Join(data), LastOf(Values(block, "id")))]
  }

  /** The lines up to the first blank one. */
  function Block(lines: seq<StreamLine>): (block: seq<StreamLine>)
    ensures |block| <= |lines| && block == lines[..|block|]
    ensures forall i | 0 <= i < |block| :: !block[i].content.Blank?
    ensures |block| < |lines| ==> lines[|block|].content.Blank?
  {
    if lines == [] || lines[0].content.Blank? then [] else [lines[0]] + Block(lines[1..])
  }

  /** The events of a stream: one for each block with data that a blank line ends. */
  function Events(lines: seq<StreamLine>): seq<SseEvent> {
    var block := Block(lines);
    if |block| == |lines| then [] else EventOf(block) + Events(lines[|block| + 1..])
  }

  /** The lines after the last blank one. */
  function Unfinished(lines: seq<StreamLine>): seq<StreamLine> {
    var block := Block(lines);
    if |block| == |lines| then lines else Unfinished(lines[|block| + 1..])
  }

  /** What has been read of an event whose blank line is still to come. */
  function PendingOf(block: seq<StreamLine>): Pending {
    Pending(LastOf(Values(block, "event")), LastOf(Values(block, "id")), Values(block, "data"))
  }

  // ---- the decoder on a stream ----

  /** The line as the decoder sees it: without its LF. */
  function Raw(l: StreamLine): string {
    PrintContent(l.content) + if l.cr then "\r" else ""
  }

  function RawAll(lines: seq<StreamLine>): seq<string> {
    seq(|lines|, i requires 0 <= i < |lines| => Raw(lines[i]))
  }

  lemma {:induction false} PrintIsUnlines(lines: seq<StreamLine>)
    ensures Print(lines) == Unlines(RawAll(lines))
  {
    if lines != [] {
      PrintIsUnlines(lines[1..]);
      assert RawAll(lines)[1..] == RawAll(lines[1..]);
      assert PrintLine(lines[0]) == Raw(lines[0]) + "\n";
    }
  }

  lemma CrIsDropped(l: StreamLine)
    requires Wf(l)
    ensures DropCr(Raw(l)) == PrintContent(l.content)
  {
  }

  lemma {:induction false} ValuesAppend(a: seq<StreamLine>, b: seq<StreamLine>, name: string)
    ensures Values(a + b, name) == Values(a, name) + Values(b, name)
    decreases |a|
  {
    if a == [] {
      assert a + b == b;
    } else {
      assert (a + b)[1..] == a[1..] + b;
      ValuesAppend(a[1..], b, name);
    }
  }

  lemma ReadsComment(p: Pending, text: string)
    ensures ApplyLine(p, ":" + text) == p
  {
  }

  lemma ReadsName(p: Pending, name: string)
    requires Colonless(name)
    ensures ApplyLine(p, name) == Assign(p, name, "")
  {
    assert Find(name, ':') == |name|;
    assert name[..|name|] == name;
  }

  lemma ReadsField(p: Pending, name: string, space: bool, value: string)
    requires WfContent(Field(name, space, value))
    ensures ApplyLine(p, PrintContent(Field(name, space, value))) == Assign(p, name, value)
  {
    var rest := (if space then " " else "") + value;
    var line := name + ":" + (if space then " " else "") + value;
    assert line == name + ":" + rest;
    assert line[|name|] == ':' && line[..|name|] == name;
    assert Find(line, ':') == |name|;
    assert line[|name| + 1..] == rest;
    assert space ==> rest[0] == ' ' && rest[1..] == value;
    assert !space ==> rest == value;
  }

  lemma ValuesOfOne(l: StreamLine, name: string)
    ensures
      Values([l], name) ==
        match l.content
        case Name(n) => if n == name then [""] else []
        case Field(n, _, value) => if n == name then [value] else []
        case _ => []
  {
  }

  function Given(value: bool, v: string): seq<string> {
    if value then [v] else []
  }

  lemma LastOneMore(values: seq<string>, value: string)
    ensures LastOf(values + [value]) == Some(value) && values + [] == values
  {
  }

  /** What one more value of a field makes of the pending event. */
  lemma PendingOneMore(block: seq<StreamLine>, l: StreamLine, name: string, value: string)
    requires Values([l], "data") == Given(name == "data", value)
    requires Values([l], "event") == Given(name == "event", value)
    requires Values([l], "id") == Given(name == "id", value)
    ensures PendingOf(block + [l]) == Assign(PendingOf(block), name, value)
  {
    ValuesAppend(block, [l], "data");
    ValuesAppend(block, [l], "event");
    ValuesAppend(block, [l], "id");
    LastOneMore(Values(block, "data"), value);
    LastOneMore(Values(block, "event"), value);
    LastOneMore(Values(block, "id"), value);
  }

  lemma PendingNoMore(block: seq<StreamLine>, l: StreamLine)
    requires Values([l], "data") == Values([l], "event") == Values([l], "id") == []
    ensures PendingOf(block + [l]) == PendingOf(block)
  {
    ValuesAppend(block, [l], "data");
    ValuesAppend(block, [l], "event");
    ValuesAppend(block, [l], "id");
    LastOneMore(Values(block, "data"), "");
    LastOneMore(Values(block, "event"), "");
    LastOneMore(Values(block, "id"), "");
  }

  /** A line that is not blank is applied to the pending event. */
  lemma TakesLine(p: Pending, l: StreamLine)
    requires Wf(l) && !l.content.Blank?
    ensures TakeLine(p, Raw(l)) == (ApplyLine(p, PrintContent(l.content)), [])
  {
    CrIsDropped(l);
  }

  /** It adds what the line says. */
  lemma AppliesLine(block: seq<StreamLine>, l: StreamLine)
    requires Wf(l) && !l.content.Blank?
    ensures ApplyLine(PendingOf(block), PrintContent(l.content)) == PendingOf(block + [l])
  {
    ValuesOfOne(l, "data");
    ValuesOfOne(l, "event");
    ValuesOfOne(l, "id");
    match l.content
    case Comment(text) =>
      ReadsComment(PendingOf(block), text);
      PendingNoMore(block, l);
    case Name(name) =>
      ReadsName(PendingOf(block), name);
      PendingOneMore(block, l, name, "");
    case Field(name, space, value) =>
      ReadsField(PendingOf(block), name, space, value);
      PendingOneMore(block, l, name, value);
  }

  lemma ReadsBlank(block: seq<StreamLine>, l: StreamLine)
    requires Wf(l) && l.content.Blank?
    ensures TakeLine(PendingOf(block), Raw(l)) == (PendingOf([]), EventOf(block))
  {
    CrIsDropped(l);
  }

  lemma ReadsLine(block: seq<StreamLine>, l: StreamLine)
    requires Wf(l) && !l.content.Blank?
    ensures TakeLine(PendingOf(block), Raw(l)) == (PendingOf(block + [l]), [])
  {
    TakesLine(PendingOf(block), l);
    AppliesLine(block, l);
  }

  function Texts<T>(raw: T -> string, items: seq<T>): seq<string> {
    if items == [] then [] else [raw(items[0])] + Texts(raw, items[1..])
  }

  /** Where each item, read as text, extends what the items before it come to, so do all of them. */
  ghost predicate Extends<S, T(!new), E>(step: (S, string) -> (S, seq<E>), state: seq<T> -> S, raw: T -> string, ok: T -> bool) {
    forall before, item | ok(item) :: step(state(before), raw(item)) == (state(before + [item]), [])
  }

  lemma {:induction false} FoldExtends<S, T(!new), E>(
      step: (S, string) -> (S, seq<E>), state: seq<T> -> S, raw: T -> string, ok: T -> bool, before: seq<T>, items: seq<T>)
    requires Extends(step, state, raw, ok) && forall i | 0 <= i < |items| :: ok(items[i])
    ensures Fold(step, state(before), Texts(raw, items)) == (state(before + items), [])
    decreases |items|
  {
    if items == [] {
      assert before + items == before;
    } else {
      var longer := before + [items[0]];
      assert ok(items[0]) && step(state(before), raw(items[0])) == (state(longer), []);
      FoldExtends(step, state, raw, ok, longer, items[1..]);
      assert longer + items[1..] == before + items;
      assert Texts(raw, items) == [raw(items[0])] + Texts(raw, items[1..]);
      assert Texts(raw, items)[1..] == Texts(raw, items[1..]);
      var none: seq<E> := [];
      assert none + none == none;
    }
  }

  lemma {:induction false} RawAllIsTexts(lines: seq<StreamLine>)
    ensures RawAll(lines) == Texts(Raw, lines)
  {
    if lines != [] {
      RawAllIsTexts(lines[1..]);
      assert RawAll(lines) == [Raw(lines[0])] + RawAll(lines[1..]);
    }
  }

  /** Reading the lines of a block. */
  lemma FoldBlock(block: seq<StreamLine>)
    requires WfAll(block) && forall i | 0 <= i < |block| :: !block[i].content.Blank?
    ensures Fold(TakeLine, PendingOf([]), RawAll(block)) == (PendingOf(block), [])
  {
    var ok := (l: StreamLine) => Wf(l) && !l.content.Blank?;
    forall before, l | ok(l)
      ensures TakeLine(PendingOf(before), Raw(l)) == (PendingOf(before + [l]), [])
    {
      ReadsLine(before, l);
    }
    FoldExtends(TakeLine, PendingOf, Raw, ok, [], block);
    RawAllIsTexts(block);
    assert [] + block == block;
  }

  /** A block, the blank line that ends it, and whatever the rest of the stream comes to. */
  lemma FoldEnded(block: seq<StreamLine>, blank: StreamLine, rest: seq<StreamLine>, state: Pending, out: seq<SseEvent>)
    requires WfAll(block) && forall i | 0 <= i < |block| :: !block[i].content.Blank?
    requires Wf(blank) && blank.content.Blank?
    requires Fold(TakeLine, PendingOf([]), RawAll(rest)) == (state, out)
    ensures Fold(TakeLine, PendingOf([]), RawAll(block) + ([Raw(blank)] + RawAll(rest))) == (state, EventOf(block) + out)
  {
    FoldBlock(block);
    ReadsBlank(block, blank);
    FoldOne(TakeLine, PendingOf(block), Raw(blank));
    FoldConcat(TakeLine, PendingOf(block), [Raw(blank)], RawAll(rest));
    FoldConcat(TakeLine, PendingOf([]), RawAll(block), [Raw(blank)] + RawAll(rest));
    assert [] + (EventOf(block) + out) == EventOf(block) + out;
  }

  lemma RawSplit(lines: seq<StreamLine>, k: nat)
    requires k < |lines|
    ensures RawAll(lines) == RawAll(lines[..k]) + ([Raw(lines[k])] + RawAll(lines[k + 1..]))
  {
  }

  lemma {:induction false} FoldStream(lines: seq<StreamLine>)
    requires WfAll(lines)
    ensures Fold(TakeLine, PendingOf([]), RawAll(lines)) == (PendingOf(Unfinished(lines)), Events(lines))
    decreases |lines|
  {
    var k := |Block(lines)|;
    if k == |lines| {
      FoldBlock(lines);
      assert lines[..k] == lines;
    } else {
      FoldStream(lines[k + 1..]);
      FoldEnded(lines[..k], lines[k], lines[k + 1..], PendingOf(Unfinished(lines[k + 1..])), Events(lines[k + 1..]));
      RawSplit(lines, k);
    }
  }

  lemma RawOneIsUnbroken(l: StreamLine)
    requires Wf(l)
    ensures Unbroken(Raw(l))
  {
  }

  lemma RawIsUnbroken(lines: seq<StreamLine>)
    requires WfAll(lines)
    ensures forall l | l in RawAll(lines) :: Unbroken(l)
  {
    forall i | 0 <= i < |lines|
      ensures Unbroken(RawAll(lines)[i])
    {
      RawOneIsUnbroken(lines[i]);
    }
  }

  /**
   Main result: a stream, cut anywhere and with the start of another line after it, is decoded to the
   events it denotes; what is left is the unfinished event and that start.
   */
  lemma StreamIsDecoded(lines: seq<StreamLine>, rest: string, chunks: seq<string>)
    requires WfAll(lines) && Unbroken(rest) && Concat(chunks) == Print(lines) + rest
    ensures
      DrainAll(TakeLine, NOTHING, "", chunks) == Reading(PendingOf(Unfinished(lines)), rest, Events(lines))
  {
    ChunksDoNotMatter(TakeLine, NOTHING, "", chunks);
    assert "" + Concat(chunks) == Concat(chunks);
    PrintIsUnlines(lines);
    RawIsUnbroken(lines);
    SplitUnlines(RawAll(lines), rest);
    SplitSingle(rest);
    assert ButLast(RawAll(lines) + [rest]) == RawAll(lines);
    FoldStream(lines);
  }

  // ---- what the encoder writes ----

  function Line(name: string, value: string): StreamLine {
    StreamLine(Field(name, true, value), false)
  }

  function NameLine(name: string, value: Option<string>): seq<StreamLine> {
    if value.Some? then [Line(name, FirstLine(value.value))] else []
  }

  function PayloadLines(lines: seq<string>): seq<StreamLine> {
    seq(|lines|, i requires 0 <= i < |lines| => Line("data", lines[i]))
  }

  /** The event name, the id, a data line for each line of the payload, and a blank line. */
  function Written(e: SseEvent): seq<StreamLine> {
    NameLine("event", e.event) + NameLine("id", e.id) + PayloadLines(Split(e.data)) + [StreamLine(Blank, false)]
  }

  lemma RawOfLine(name: string, value: string)
    ensures Raw(Line(name, value)) == name + ": " + value
  {
    assert ":" + " " == ": ";
    assert name + ":" + " " + value + "" == name + (":" + " ") + value;
  }

  lemma RawConcat(a: seq<StreamLine>, b: seq<StreamLine>)
    ensures RawAll(a + b) == RawAll(a) + RawAll(b)
  {
  }

  lemma RawOfName(name: string, value: Option<string>)
    ensures RawAll(NameLine(name, value)) == Sse.Field(name, value)
  {
    if value.Some? {
      RawOfLine(name, FirstLine(value.value));
    }
  }

  lemma RawOfPayload(lines: seq<string>)
    ensures RawAll(PayloadLines(lines)) == DataLines(lines)
  {
    forall i | 0 <= i < |lines|
      ensures RawAll(PayloadLines(lines))[i] == DataLines(lines)[i]
    {
      RawOfLine("data", lines[i]);
      assert "data" + ": " == "data: ";
    }
  }

  /** The encoder writes exactly these lines, each ended by LF. */
  lemma EncodeWrites(e: SseEvent)
    ensures Encode(e) == Print(Written(e))
  {
    var names, ids, data := NameLine("event", e.event), NameLine("id", e.id), PayloadLines(Split(e.data));
    var blank := StreamLine(Blank, false);
    RawOfName("event", e.event);
    RawOfName("id", e.id);
    RawOfPayload(Split(e.data));
    RawConcat(names, ids);
    RawConcat(names + ids, data);
    RawConcat(names + ids + data, [blank]);
    assert RawAll([blank]) == [""];
    PrintIsUnlines(Written(e));
  }

  // ---- every text is a stream ----

  /** The content of the grammar that prints as this text. */
  function Parse(text: string): Content {
    var i := Find(text, ':');
    if text == "" then Blank
    else if i == 0 then Comment(text[1..])
    else if i == |text| then Name(text)
    else if i + 1 < |text| && text[i + 1] == ' ' then Field(text[..i], true, text[i + 2..])
    else Field(text[..i], false, text[i + 1..])
  }

  lemma CutAtColon(text: string, i: nat)
    requires i < |text| && text[i] == ':'
    ensures text == text[..i] + ":" + "" + text[i + 1..]
    ensures i + 1 < |text| && text[i + 1] == ' ' ==> text == text[..i] + ":" + " " + text[i + 2..]
  {
  }

  lemma ParsePrints(text: string)
    ensures PrintContent(Parse(text)) == text && WfContent(Parse(text))
  {
    var i := Find(text, ':');
    if i < |text| {
      CutAtColon(text, i);
    }
  }

  /** The line whose text, without the LF, is this one. */
  function LineOf(raw: string): StreamLine {
    StreamLine(Parse(DropCr(raw)), DropCr(raw) != raw)
  }

  lemma LineOfIsWf(raw: string)
    requires Unbroken(raw)
    ensures Wf(LineOf(raw)) && Raw(LineOf(raw)) == raw
  {
    ParsePrints(DropCr(raw));
    assert DropCr(raw) != raw ==> raw == DropCr(raw) + "\r";
    assert raw + "" == raw;
  }

  lemma EveryTextIsAStream(text: string) returns (lines: seq<StreamLine>, rest: string)
    ensures WfAll(lines) && Unbroken(rest) && text == Print(lines) + rest
  {
    var raws := ButLast(Split(text));
    rest := Last(Split(text));
    lines := seq(|raws|, i requires 0 <= i < |raws| => LineOf(raws[i]));
    forall i | 0 <= i < |raws|
      ensures Wf(lines[i]) && Raw(lines[i]) == raws[i]
    {
      assert raws[i] == Split(text)[i];
      LineOfIsWf(raws[i]);
    }
    assert RawAll(lines) == raws;
    PrintIsUnlines(lines);
    JoinSplit(text);
    JoinIsUnlines(Split(text));
  }

  lemma {:induction false} JoinIsUnlines(lines: seq<string>)
    requires lines != []
    ensures Join(lines) == Unlines(ButLast(lines)) + Last(lines)
  {
    if |lines| > 1 {
      JoinIsUnlines(lines[1..]);
      assert ButLast(lines)[1..] == ButLast(lines[1..]);
      assert ButLast(lines)[0] == lines[0];
    }
  }
}
