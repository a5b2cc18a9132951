/** Correlation of requests and responses over whole runs of the stdio channel. */
module StdioSafety {
  import opened Stdio

  predicate AnswerTo(line: Line, id: nat) {
    line.Answer? && line.id == id
  }

  predicate NoAnswerBetween(read: seq<Line>, id: nat, from: nat, to: nat) {
    forall i | from <= i < to && i < |read| :: !AnswerTo(read[i], id)
  }

  /** A reply that is a response is the first one with the caller's id since its request was registered. */
  predicate Matches(s: State, id: nat, call: Call, reply: Reply) {
    reply.Answered? ==>
      && call.since <= reply.line < |s.read|
      && AnswerTo(s.read[reply.line], id)
      && NoAnswerBetween(s.read, id, call.since, reply.line)
  }

  predicate CallOk(s: State, id: nat) {
    id in s.calls ==>
      var call := s.calls[id];
      && id < s.next && call.since <= |s.read|
      && (id in s.mail ==> Matches(s, id, call, s.mail[id]))
      && (id in s.pending ==> !call.phase.Allocated? && id !in s.mail && NoAnswerBetween(s.read, id, call.since, |s.read|))
      && (call.phase.Allocated? ==> id !in s.mail && id !in s.removed)
      && (call.phase.Registered? || call.phase.Waiting? ==> id in s.pending || id in s.mail)
      && (call.phase.Done? && call.phase.outcome.Got? ==> Matches(s, id, call, call.phase.outcome.reply))
  }

  predicate TableOk(s: State) {
    && (forall id | id in s.calls :: id < s.next)
    && (forall id | id in s.pending :: id in s.calls && id !in s.removed)
    && (forall id | id in s.removed :: id in s.calls)
    && (forall id | id in s.mail :: id in s.calls)
    && (forall i, j | 0 <= i < j < |s.removed| :: s.removed[i] != s.removed[j])
  }

  ghost predicate Inv(s: State) {
    TableOk(s) && forall id :: CallOk(s, id)
  }

  lemma CompleteKeepsInv(s: State, id: nat, reply: Reply)
    requires Inv(s) && id in s.pending
    requires id in s.calls ==> Matches(s, id, s.calls[id], reply)
    ensures Inv(Complete(s, id, reply))
  {
    var s' := Complete(s, id, reply);
    assert CallOk(s, id);
    forall d: nat
      ensures CallOk(s', d)
    {
      assert CallOk(s, d);
    }
  }

  /** After a drain the table is empty and every caller that still listened has its reply. */
  lemma {:induction false} DrainKeepsInv(s: State, order: seq<nat>)
    requires Inv(s) && Enumerates(order, s.pending)
    ensures Inv(CompleteAll(s, order))
    ensures CompleteAll(s, order).pending == {} && CompleteAll(s, order).calls == s.calls
    ensures forall id | id in s.pending && Listening(s, id) :: id in CompleteAll(s, order).mail && CompleteAll(s, order).mail[id] == Disconnected
    ensures forall id | id in s.mail && id !in s.pending :: id in CompleteAll(s, order).mail && CompleteAll(s, order).mail[id] == s.mail[id]
    decreases |order|
  {
    if order == [] {
      assert forall id | id in s.pending :: id in order;
    } else {
      var s' := Complete(s, order[0], Disconnected);
      CompleteKeepsInv(s, order[0], Disconnected);
      assert order == [order[0]] + order[1..];
      assert Enumerates(order[1..], s'.pending);
      DrainKeepsInv(s', order[1..]);
    }
  }

  lemma ReadKeepsInv(s: State, line: Line)
    requires Inv(s)
    ensures Inv(Next(s, Read(line)))
  {
    var s' := s.(read := s.read + [line]);
    if line.Answer? && line.id >= 0 && line.id in s.pending {
      assert CallOk(s, line.id);
      var after := Next(s, Read(line));
      forall d: nat
        ensures CallOk(after, d)
      {
        assert CallOk(s, d);
      }
    } else {
      forall d: nat
        ensures CallOk(s', d)
      {
        assert CallOk(s, d);
      }
    }
  }

  /** The steps of a caller by itself. */
  predicate OfCaller(step: Step) {
    step.Insert? || step.Write? || step.Receive? || step.Timeout?
  }

  lemma CallerKeepsInv(s: State, step: Step)
    requires Inv(s) && OfCaller(step) && Enabled(s, step)
    ensures Inv(Next(s, step))
  {
    assert CallOk(s, step.id);
    var s' := Next(s, step);
    forall d: nat
      ensures CallOk(s', d)
    {
      assert CallOk(s, d);
    }
  }

  lemma NextKeepsInv(s: State, step: Step)
    requires Inv(s) && Enabled(s, step)
    ensures Inv(Next(s, step))
  {
    if step.Read? {
      ReadKeepsInv(s, step.line);
    } else if step.Drain? {
      DrainKeepsInv(s, step.order);
    } else if OfCaller(step) {
      CallerKeepsInv(s, step);
    } else {
      var s' := Next(s, step);
      forall d: nat
        ensures CallOk(s', d)
      {
        assert CallOk(s, d);
      }
    }
  }

  lemma {:induction false} RunKeepsInv(s: State, steps: seq<Step>)
    requires Inv(s) && ValidRun(s, steps)
    ensures Inv(Run(s, steps))
    decreases |steps|
  {
    if steps != [] {
      NextKeepsInv(s, steps[0]);
      RunKeepsInv(Next(s, steps[0]), steps[1..]);
    }
  }

  /**
   Main result: in every run, a caller that got a response got the first one with its own id since
   it registered, and no line answered two callers.
   */
  lemma AnswersReachTheirCallers(steps: seq<Step>, id: nat)
    requires ValidRun(EMPTY, steps)
    requires id in Run(EMPTY, steps).calls
    requires
      var phase := Run(EMPTY, steps).calls[id].phase;
      phase.Done? && phase.outcome.Got? && phase.outcome.reply.Answered?
    ensures
      var s := Run(EMPTY, steps);
      var call := s.calls[id];
      var line := call.phase.outcome.reply.line;
      && call.since <= line < |s.read| && AnswerTo(s.read[line], id)
      && NoAnswerBetween(s.read, id, call.since, line)
      && forall other | other in s.calls && s.calls[other].phase == call.phase :: other == id
  {
    RunKeepsInv(EMPTY, steps);
    var s := Run(EMPTY, steps);
    assert CallOk(s, id);
    forall other | other in s.calls && s.calls[other].phase == s.calls[id].phase
      ensures other == id
    {
      assert CallOk(s, other);
    }
  }

  /** Every id leaves the table at most once and is never in it again. */
  lemma IdsLeaveOnce(steps: seq<Step>)
    requires ValidRun(EMPTY, steps)
    ensures
      var s := Run(EMPTY, steps);
      && (forall i, j | 0 <= i < j < |s.removed| :: s.removed[i] != s.removed[j])
      && (forall id | id in s.removed :: id !in s.pending)
  {
    RunKeepsInv(EMPTY, steps);
  }

  /** A waiting caller is in the table or has its reply, so its channel never closes without one. */
  lemma NobodyWaitsInVain(steps: seq<Step>, id: nat)
    requires ValidRun(EMPTY, steps) && Listening(Run(EMPTY, steps), id)
    ensures id in Run(EMPTY, steps).pending || id in Run(EMPTY, steps).mail
  {
    RunKeepsInv(EMPTY, steps);
    assert CallOk(Run(EMPTY, steps), id);
  }

  /** When a reader exits, everything then pending is failed and the table is empty. */
  lemma ExitFailsAllPending(steps: seq<Step>, order: seq<nat>)
    requires ValidRun(EMPTY, steps) && Enumerates(order, Run(EMPTY, steps).pending)
    ensures
      var s := Run(EMPTY, steps);
      var s' := Next(s, Drain(order));
      && s'.pending == {}
      && (forall id | id in s.pending && Listening(s, id) :: id in s'.mail && s'.mail[id] == Disconnected)
      && (forall id | Listening(s', id) :: id in s'.mail)
  {
    RunKeepsInv(EMPTY, steps);
    var s := Run(EMPTY, steps);
    DrainKeepsInv(s, order);
    var s' := Next(s, Drain(order));
    forall id | Listening(s', id)
      ensures id in s'.mail
    {
      assert CallOk(s', id);
    }
  }

  lemma {:induction false} DrainKeepsCalls(s: State, order: seq<nat>)
    ensures CompleteAll(s, order).calls == s.calls
    decreases |order|
  {
    if order != [] {
      DrainKeepsCalls(Complete(s, order[0], Disconnected), order[1..]);
    }
  }

  /** What a caller returned never changes: late, duplicate or unsolicited responses cannot reach it. */
  lemma {:induction false} OutcomesAreFinal(s: State, steps: seq<Step>, id: nat)
    requires Inv(s) && ValidRun(s, steps)
    requires id in s.calls && s.calls[id].phase.Done?
    ensures id in Run(s, steps).calls && Run(s, steps).calls[id] == s.calls[id]
    decreases |steps|
  {
    if steps != [] {
      if steps[0].Drain? {
        DrainKeepsCalls(s, steps[0].order);
      }
      NextKeepsInv(s, steps[0]);
      OutcomesAreFinal(Next(s, steps[0]), steps[1..], id);
    }
  }
}
