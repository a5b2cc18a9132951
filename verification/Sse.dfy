/** Server-sent events: the encoder and the streaming decoder. */
module Sse {
  import opened Options
  import opened Lines

  datatype SseEvent = SseEvent(event: Option<string>, data: string, id: Option<string>)

  datatype Pending = Pending(event: Option<string>, id: Option<string>, dataLines: seq<string>)

  const NOTHING := Pending(None, None, [])

  // ---- encoding ----

  /** Up to the first line break of either kind, or all of it if there is none. */
  function FirstLine(s: string): (l: string)
    ensures Unbroken(l) && forall k | 0 <= k < |l| :: l[k] != '\r'
    ensures l <= s && (|l| == |s| || s[|l|] == '\n' || s[|l|] == '\r')
    ensures l == s <==> '\n' !in s && '\r' !in s
  {
    if s == "" || s[0] == '\n' || s[0] == '\r' then ""
    else
      assert s == [s[0]] + s[1..];
      [s[0]] + FirstLine(s[1..])
  }

  function Field(name: string, value: Option<string>): seq<string> {
    if value.Some? then [name + ": " + FirstLine(value.value)] else []
  }

  function DataLines(lines: seq<string>): seq<string> {
    seq(|lines|, i requires 0 <= i < |lines| => "data: " + lines[i])
  }

  /** The lines that carry an event. */
  function EventLines(e: SseEvent): seq<string> {
    Field("event", e.event) + Field("id", e.id) + DataLines(Split(e.data)) + [""]
  }

  function Encode(e: SseEvent): string {
    Unlines(EventLines(e))
  }

  function EncodeAll(events: seq<SseEvent>): string {
    if events == [] then "" else Encode(events[0]) + EncodeAll(events[1..])
  }

  /** Appends one line to the text being built. */
  lemma OneMoreLine(lines: seq<string>, line: string)
    ensures Unlines(lines + [line]) == Unlines(lines) + line + "\n"
  {
    UnlinesAppend(lines, [line]);
    assert Unlines([line]) == line + "\n" + "";
  }

  /** Appends a line to the text of the lines written so far. */
  method PushLine(text: string, line: string, ghost written: seq<string>) returns (out: string)
    requires text == Unlines(written)
    ensures out == Unlines(written + [line])
  {
    OneMoreLine(written, line);
    out := text + line;
    out := out + "\n";
  }

  /** `encode_sse_event`. */
  method EncodeSseEvent(e: SseEvent) returns (out: string)
    ensures out == Encode(e)
  {
    out := "";
    if e.event.Some? {
      out := PushLine(out, "event" + ": " + FirstLine(e.event.value), []);
    }
    assert [] + Field("event", e.event) == Field("event", e.event);
    if e.id.Some? {
      out := PushLine(out, "id" + ": " + FirstLine(e.id.value), Field("event", e.event));
    }
    ghost var names := Field("event", e.event) + Field("id", e.id);
    assert e.id.None? ==> names == Field("event", e.event);
    out := PushData(out, Split(e.data), names);
    out := PushLine(out, "", names + DataLines(Split(e.data)));
  }

  /** One `data` line for each line of the payload. */
  method PushData(text: string, lines: seq<string>, ghost written: seq<string>) returns (out: string)
    requires text == Unlines(written)
    ensures out == Unlines(written + DataLines(lines))
  {
    out := text;
    assert written + DataLines(lines)[..0] == written;
    for i := 0 to |lines|
      invariant out == Unlines(written + DataLines(lines)[..i])
    {
      assert written + DataLines(lines)[..i + 1] == written + DataLines(lines)[..i] + ["data: " + lines[i]];
      out := PushLine(out, "data: " + lines[i], written + DataLines(lines)[..i]);
    }
    assert DataLines(lines)[..|lines|] == DataLines(lines);
  }

  // ---- decoding ----

  function DropCr(line: string): string {
    if line != "" && line[|line| - 1] == '\r' then line[..|line| - 1] else line
  }

  /** `PendingEvent::apply_line`. */
  function ApplyLine(p: Pending, line: string): Pending {
    if line != "" && line[0] == ':' then p
    else
      var i := Find(line, ':');
      var raw := if i < |line| then line[i + 1..] else "";
      var value := if raw != "" && raw[0] == ' ' then raw[1..] else raw;
      Assign(p, line[..i], value)
  }

  function Assign(p: Pending, field: string, value: string): Pending {
    match field
    case "data" => p.(dataLines := p.dataLines + [value])
    case "event" => p.(event := Some(value))
    case "id" => p.(id := Some(value))
    case _ => p
  }

  /** A blank line dispatches the pending event if it has data; any other line is applied to it. */
  function TakeLine(p: Pending, raw: string): (Pending, seq<SseEvent>) {
    var line := DropCr(raw);
    if line != "" then (ApplyLine(p, line), [])
    else (NOTHING, if p.dataLines == [] then [] else [SseEvent(p.event, Join(p.dataLines), p.id)])
  }

  class SseDecoder {
    var buffer: string
    var pending: Pending

    constructor ()
      ensures buffer == "" && pending == NOTHING
    {
      buffer, pending := "", NOTHING;
    }

    method Dispatch() returns (out: seq<SseEvent>)
      modifies this`pending
      ensures (pending, out) == TakeLine(old(pending), "")
    {
      if pending.dataLines == [] {
        pending := NOTHING;
        return [];
      }
      out := [SseEvent(pending.event, Join(pending.dataLines), pending.id)];
      pending := NOTHING;
    }

    /** Reads every complete line of what has arrived so far. */
    method Feed(chunk: string) returns (events: seq<SseEvent>)
      modifies this
      ensures Reading(pending, buffer, events) == Drain(TakeLine, old(pending), old(buffer) + chunk)
    {
      buffer := buffer + chunk;
      events := [];
      ghost var all := Drain(TakeLine, pending, buffer);
      assert [] + all.out == all.out;
      var idx := Find(buffer, '\n');
      while idx < |buffer|
        invariant idx == Find(buffer, '\n')
        invariant all == Prefixed(events, Drain(TakeLine, pending, buffer))
        decreases |buffer|
      {
        var raw, rest := buffer[..idx], buffer[idx + 1..];
        assert buffer == raw + "\n" + rest;
        DrainOn(TakeLine, pending, raw, rest, events, all);
        var line := DropCr(raw);
        buffer := rest;
        if line == "" {
          var dispatched := Dispatch();
          events := events + dispatched;
        } else {
          pending := ApplyLine(pending, line);
          assert events + [] == events;
        }
        idx := Find(buffer, '\n');
      }
      SplitSingle(buffer);
      assert events + [] == events;
    }
  }
}
