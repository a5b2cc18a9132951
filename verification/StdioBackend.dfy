/**
 `StdioBackend` as written: a class whose methods insert into, remove from and drain the table of
 pending requests. Each method is a run of the steps of `Stdio`.
 */
module StdioBackend {
  import opened Stdio

  class Backend {
    var requestCounter: nat
    var calls: map<nat, Call>
    var pending: set<nat>
    var mail: map<nat, Reply>
    var read: seq<Line>
    var removed: seq<nat>
    var connected: bool

    constructor ()
      ensures View() == EMPTY
    {
      requestCounter, calls, pending, mail, read, removed, connected := 0, map[], {}, map[], [], [], false;
    }

    function View(): State
      reads this
    {
      State(requestCounter, calls, pending, mail, read, removed, connected)
    }

    /** `send_request` up to the point where it waits: take an id, register it, write the request. */
    method Begin(writeOk: bool) returns (id: nat)
      modifies this`requestCounter, this`calls, this`pending
      ensures ValidRun(old(View()), [Allocate, Insert(id), Write(id, writeOk)])
      ensures View() == Run(old(View()), [Allocate, Insert(id), Write(id, writeOk)])
      ensures id == old(requestCounter)
    {
      ghost var s0 := View();
      id := requestCounter;
      requestCounter := requestCounter + 1;
      calls := calls[id := Call(Allocated, 0)];
      ghost var s1 := View();
      pending := pending + {id};
      calls := calls[id := Call(Registered, |read|)];
      ghost var s2 := View();
      calls := calls[id := calls[id].(phase := if writeOk then Waiting else Done(WriteFailed))];
      RunOne(s2, Write(id, writeOk), []);
      RunOne(s1, Insert(id), [Write(id, writeOk)]);
      RunOne(s0, Allocate, [Insert(id), Write(id, writeOk)]);
    }

    /** The rest of `send_request`: the reply if there is one, else the timeout with its best-effort cleanup. */
    method Await(id: nat, locked: bool) returns (outcome: Outcome)
      requires id in calls && calls[id].phase.Waiting?
      modifies this`calls, this`pending, this`removed
      ensures
        var step := if id in old(mail) then Receive(id) else Timeout(id, locked);
        View() == Next(old(View()), step)
      ensures outcome == if id in old(mail) then Got(old(mail)[id]) else TimedOut
    {
      if id in mail {
        outcome := Got(mail[id]);
      } else {
        outcome := TimedOut;
        if !locked && id in pending {
          pending := pending - {id};
          removed := removed + [id];
        }
      }
      calls := calls[id := calls[id].(phase := Done(outcome))];
    }

    /** `pending.remove(&id)` and, if the entry was there, the send into its channel. */
    method Finish(id: nat, reply: Reply)
      requires id in pending
      modifies this`pending, this`mail, this`removed
      ensures View() == Complete(old(View()), id, reply)
    {
      if Listening(View(), id) {
        mail := mail[id := reply];
      }
      pending := pending - {id};
      removed := removed + [id];
    }

    /** `read_responses`: lines are taken one by one and matched with the table by id. */
    method ReadResponses(lines: seq<Line>)
      modifies this`pending, this`mail, this`removed, this`read
      ensures ValidRun(old(View()), Reads(lines)) && View() == Run(old(View()), Reads(lines))
    {
      for i := 0 to |lines|
        invariant ValidRun(old(View()), Reads(lines[..i])) && View() == Run(old(View()), Reads(lines[..i]))
      {
        ghost var before := View();
        var line := lines[i];
        read := read + [line];
        if line.Answer? && line.id >= 0 && line.id in pending {
          Finish(line.id, Answered(|read| - 1));
        }
        assert View() == Next(before, Read(line));
        assert lines[..i + 1] == lines[..i] + [line];
        ReadsOneMore(old(View()), lines[..i], line);
      }
      assert lines[..|lines|] == lines;
    }

    /** When the reader exits: mark as disconnected, then fail every pending request, in any order. */
    method ReaderDone() returns (ghost order: seq<nat>)
      modifies this`pending, this`mail, this`removed, this`connected
      ensures Enumerates(order, old(pending)) && !connected && pending == {}
      ensures View() == CompleteAll(old(View()).(connected := false), order)
    {
      connected := false;
      ghost var start := View();
      order := [];
      while pending != {}
        invariant pending <= start.pending && !connected
        invariant forall id | id in start.pending :: id in pending <==> id !in order
        invariant forall id | id in order :: id in start.pending
        invariant forall i, j | 0 <= i < j < |order| :: order[i] != order[j]
        invariant View() == CompleteAll(start, order)
        decreases pending
      {
        var id :| id in pending;
        CompleteAllOneMore(start, order, id);
        Finish(id, Disconnected);
        order := order + [id];
      }
    }
  }

  function Reads(lines: seq<Line>): seq<Step> {
    seq(|lines|, i requires 0 <= i < |lines| => Read(lines[i]))
  }

  lemma RunOne(s: State, step: Step, rest: seq<Step>)
    requires Enabled(s, step) && ValidRun(Next(s, step), rest)
    ensures ValidRun(s, [step] + rest) && Run(s, [step] + rest) == Run(Next(s, step), rest)
  {
    assert ([step] + rest)[1..] == rest;
  }

  lemma {:induction false} RunConcat(s: State, a: seq<Step>, step: Step)
    requires ValidRun(s, a) && Enabled(Run(s, a), step)
    ensures ValidRun(s, a + [step]) && Run(s, a + [step]) == Next(Run(s, a), step)
    decreases |a|
  {
    if a == [] {
      assert (a + [step])[1..] == [];
    } else {
      assert (a + [step])[1..] == a[1..] + [step];
      RunConcat(Next(s, a[0]), a[1..], step);
    }
  }

  lemma ReadsOneMore(s: State, lines: seq<Line>, line: Line)
    requires ValidRun(s, Reads(lines))
    ensures ValidRun(s, Reads(lines + [line])) && Run(s, Reads(lines + [line])) == Next(Run(s, Reads(lines)), Read(line))
  {
    assert Reads(lines + [line]) == Reads(lines) + [Read(line)];
    RunConcat(s, Reads(lines), Read(line));
  }

  lemma {:induction false} CompleteAllOneMore(s: State, order: seq<nat>, id: nat)
    ensures CompleteAll(s, order + [id]) == Complete(CompleteAll(s, order), id, Disconnected)
    decreases |order|
  {
    if order == [] {
      assert (order + [id])[1..] == [];
    } else {
      assert (order + [id])[1..] == order[1..] + [id];
      CompleteAllOneMore(Complete(s, order[0], Disconnected), order[1..], id);
    }
  }
}
