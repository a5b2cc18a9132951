/** Decoding undoes encoding, wherever the stream is cut. */
module SseRoundTrip {
  import opened Options
  import opened Lines
  import opened Sse

  function DropCrs(lines: seq<string>): seq<string> {
    seq(|lines|, i requires 0 <= i < |lines| => DropCr(lines[i]))
  }

  function FirstLineOf(s: Option<string>): Option<string> {
    if s.Some? then Some(FirstLine(s.value)) else None
  }

  /** What the wire format can carry of an event. */
  function Normal(e: SseEvent): SseEvent {
    SseEvent(FirstLineOf(e.event), Join(DropCrs(Split(e.data))), FirstLineOf(e.id))
  }

  function NormalAll(events: seq<SseEvent>): seq<SseEvent> {
    if events == [] then [] else [Normal(events[0])] + NormalAll(events[1..])
  }

  /** How a decoder reads a line `name: value`. */
  lemma TakeField(p: Pending, name: string, value: string)
    requires name != "" && forall k | 0 <= k < |name| :: name[k] != ':'
    ensures TakeLine(p, name + ": " + value) == (Assign(p, name, DropCr(value)), [])
  {
    var line := DropCr(name + ": " + value);
    assert line == name + ": " + DropCr(value);
    assert line[|name|] == ':' && line[..|name|] == name;
    assert Find(line, ':') == |name|;
    assert line[|name| + 1..] == " " + DropCr(value);
    assert (" " + DropCr(value))[1..] == DropCr(value);
  }

  lemma FoldField(p: Pending, name: string, value: Option<string>, rest: seq<string>)
    requires name == "event" || name == "id"
    ensures
      Fold(TakeLine, p, Field(name, value) + rest) ==
        Fold(TakeLine, if value.None? then p else Assign(p, name, FirstLine(value.value)), rest)
  {
    if value.Some? {
      var l := FirstLine(value.value);
      TakeField(p, name, l);
      FoldSilent(TakeLine, [p, Assign(p, name, l)], [name + ": " + l], rest);
    } else {
      assert [] + rest == rest;
    }
  }

  lemma TakeData(p: Pending, line: string)
    ensures TakeLine(p, "data: " + line) == (p.(dataLines := p.dataLines + [DropCr(line)]), [])
  {
    assert "data" + ": " == "data: ";
    TakeField(p, "data", line);
  }

  /** The pending event after the first `i` data lines. */
  function WithData(p: Pending, lines: seq<string>, i: nat): Pending
    requires i <= |lines|
  {
    p.(dataLines := p.dataLines + DropCrs(lines)[..i])
  }

  lemma TakeNextData(p: Pending, lines: seq<string>, i: nat)
    requires i < |lines|
    ensures TakeLine(WithData(p, lines, i), "data: " + lines[i]) == (WithData(p, lines, i + 1), [])
  {
    TakeData(WithData(p, lines, i), lines[i]);
    assert p.dataLines + DropCrs(lines)[..i + 1] == p.dataLines + DropCrs(lines)[..i] + [DropCr(lines[i])];
  }

  lemma FoldData(p: Pending, lines: seq<string>, rest: seq<string>)
    ensures Fold(TakeLine, p, DataLines(lines) + rest) == Fold(TakeLine, p.(dataLines := p.dataLines + DropCrs(lines)), rest)
  {
    var states := seq(|lines| + 1, i requires 0 <= i <= |lines| => WithData(p, lines, i));
    forall i | 0 <= i < |lines|
      ensures TakeLine(states[i], DataLines(lines)[i]) == (states[i + 1], [])
    {
      TakeNextData(p, lines, i);
    }
    FoldSilent(TakeLine, states, DataLines(lines), rest);
    assert states[0] == p;
    assert DropCrs(lines)[..|lines|] == DropCrs(lines);
  }

  lemma FoldNames(e: SseEvent, rest: seq<string>)
    ensures
      Fold(TakeLine, NOTHING, Field("event", e.event) + (Field("id", e.id) + rest)) ==
        Fold(TakeLine, Pending(FirstLineOf(e.event), FirstLineOf(e.id), []), rest)
  {
    FoldField(NOTHING, "event", e.event, Field("id", e.id) + rest);
    FoldField(Pending(FirstLineOf(e.event), None, []), "id", e.id, rest);
  }

  /** The lines of an event give back the event, normalised, and leave the decoder as new. */
  lemma FoldEvent(e: SseEvent)
    ensures Fold(TakeLine, NOTHING, EventLines(e)) == (NOTHING, [Normal(e)])
  {
    var data := DataLines(Split(e.data));
    assert EventLines(e) == Field("event", e.event) + (Field("id", e.id) + (data + [""]));
    FoldNames(e, data + [""]);
    var p := Pending(FirstLineOf(e.event), FirstLineOf(e.id), []);
    FoldData(p, Split(e.data), [""]);
    assert p.dataLines + DropCrs(Split(e.data)) == DropCrs(Split(e.data));
    BlankLineDispatches(p.(dataLines := DropCrs(Split(e.data))));
  }

  lemma BlankLineDispatches(p: Pending)
    requires p.dataLines != []
    ensures Fold(TakeLine, p, [""]) == (NOTHING, [SseEvent(p.event, Join(p.dataLines), p.id)])
  {
    var event := SseEvent(p.event, Join(p.dataLines), p.id);
    assert TakeLine(p, "") == (NOTHING, [event]);
    assert [event] + [] == [event];
  }

  lemma EventLinesUnbroken(e: SseEvent)
    ensures forall l | l in EventLines(e) :: Unbroken(l)
  {
    var data := DataLines(Split(e.data));
    forall l | l in data
      ensures Unbroken(l)
    {
      var i :| 0 <= i < |data| && data[i] == l;
      assert Unbroken(Split(e.data)[i]);
    }
    assert forall l | l in Field("event", e.event) :: Unbroken(l);
    assert forall l | l in Field("id", e.id) :: Unbroken(l);
    assert Unbroken("");
  }

  lemma {:induction false} DrainEvents(events: seq<SseEvent>)
    ensures Drain(TakeLine, NOTHING, EncodeAll(events)) == Reading(NOTHING, "", NormalAll(events))
  {
    if events != [] {
      var lines, rest := EventLines(events[0]), EncodeAll(events[1..]);
      EventLinesUnbroken(events[0]);
      SplitUnlines(lines, rest);
      assert ButLast(lines + Split(rest)) == lines + ButLast(Split(rest));
      FoldEvent(events[0]);
      FoldConcat(TakeLine, NOTHING, lines, ButLast(Split(rest)));
      DrainEvents(events[1..]);
    }
  }

  /** Main result: however the encoded events are cut into chunks, they are decoded in order, normalised. */
  lemma DecodeUndoesEncode(events: seq<SseEvent>, chunks: seq<string>)
    requires Concat(chunks) == EncodeAll(events)
    ensures DrainAll(TakeLine, NOTHING, "", chunks) == Reading(NOTHING, "", NormalAll(events))
  {
    ChunksDoNotMatter(TakeLine, NOTHING, "", chunks);
    assert "" + Concat(chunks) == Concat(chunks);
    DrainEvents(events);
  }

  predicate SingleLine(s: Option<string>) {
    s.Some? ==> '\n' !in s.value && '\r' !in s.value
  }

  lemma DropCrsUnbroken(lines: seq<string>)
    requires forall l | l in lines :: Unbroken(l)
    ensures forall l | l in DropCrs(lines) :: Unbroken(l)
  {
    forall l | l in DropCrs(lines)
      ensures Unbroken(l)
    {
      var i :| 0 <= i < |lines| && DropCr(lines[i]) == l;
      assert Unbroken(lines[i]);
    }
  }

  lemma DropCrsIsIdentityIff(lines: seq<string>)
    ensures DropCrs(lines) == lines <==> forall l | l in lines :: DropCr(l) == l
  {
    if DropCrs(lines) == lines {
      forall l | l in lines
        ensures DropCr(l) == l
      {
        var i :| 0 <= i < |lines| && lines[i] == l;
        assert DropCrs(lines)[i] == lines[i];
      }
    }
  }

  /** The payload survives exactly when none of its lines ends in a CR. */
  lemma DataSurvivesIff(data: string)
    ensures Join(DropCrs(Split(data))) == data <==> forall l | l in Split(data) :: DropCr(l) == l
  {
    JoinSplit(data);
    DropCrsUnbroken(Split(data));
    SplitJoin(DropCrs(Split(data)));
    DropCrsIsIdentityIff(Split(data));
  }

  /** Nothing is lost exactly when the names are single lines and no data line ends in a CR. */
  lemma LosslessIff(e: SseEvent)
    ensures
      Normal(e) == e <==>
        SingleLine(e.event) && SingleLine(e.id) && forall l | l in Split(e.data) :: DropCr(l) == l
  {
    DataSurvivesIff(e.data);
  }
}
