/**
 The table of pending requests and the replies, told by the steps of a run alone: when an id is in
 the table, and which step decides what its caller gets.
 */
module StdioTrace {
  import opened Stdio
  import opened StdioSafety

  /** The steps that take an id out of the table: its answer, the end of a reader, its timeout if the table is free. */
  predicate Concerns(step: Step, id: nat) {
    || (step.Read? && step.line.Answer? && step.line.id == id)
    || step.Drain?
    || step == Timeout(id, false)
  }

  predicate NoneConcerns(steps: seq<Step>, id: nat, from: int) {
    forall j | 0 <= j < |steps| && from < j :: !Concerns(steps[j], id)
  }

  /** Registered, and nothing since has taken it out. */
  predicate Tabled(steps: seq<Step>, id: nat) {
    exists k | 0 <= k < |steps| :: steps[k] == Insert(id) && NoneConcerns(steps, id, k)
  }

  /** Step `j` is the first one that concerns `id` since it was registered by step `k`. */
  predicate Settles(steps: seq<Step>, id: nat, k: nat, j: nat) {
    k < j < |steps| && steps[k] == Insert(id) && Concerns(steps[j], id) && NoneConcerns(steps[..j], id, k)
  }

  function Reads(steps: seq<Step>): nat {
    if steps == [] then 0
    else Reads(steps[..|steps| - 1]) + if steps[|steps| - 1].Read? then 1 else 0
  }

  /** The reply that the settling step sends: the line just read, or the news that the backend is gone. */
  predicate RepliesWith(steps: seq<Step>, j: nat, reply: Reply)
    requires j < |steps|
  {
    match steps[j]
    case Read(_) => reply == Answered(Reads(steps[..j]))
    case Drain(_) => reply == Disconnected
    case _ => false
  }

  predicate ReplyOf(steps: seq<Step>, id: nat, reply: Reply) {
    exists k: nat, j: nat | k < j < |steps| :: Settles(steps, id, k, j) && RepliesWith(steps, j, reply)
  }

  // ---- one more step ----

  lemma {:induction false} RunOneMore(s: State, steps: seq<Step>, step: Step)
    requires ValidRun(s, steps + [step])
    ensures ValidRun(s, steps) && Enabled(Run(s, steps), step)
    ensures Run(s, steps + [step]) == Next(Run(s, steps), step)
    decreases |steps|
  {
    if steps == [] {
      assert steps + [step] == [step];
    } else {
      assert (steps + [step])[1..] == steps[1..] + [step];
      RunOneMore(Next(s, steps[0]), steps[1..], step);
    }
  }

  lemma NoneConcernsOn(steps: seq<Step>, step: Step, id: nat, from: nat)
    requires from < |steps|
    ensures NoneConcerns(steps + [step], id, from) <==> NoneConcerns(steps, id, from) && !Concerns(step, id)
  {
    var all := steps + [step];
    assert all[|steps|] == step && forall j | 0 <= j < |steps| :: all[j] == steps[j];
  }

  lemma TabledOn(steps: seq<Step>, step: Step, id: nat)
    ensures Tabled(steps + [step], id) <==> step == Insert(id) || (Tabled(steps, id) && !Concerns(step, id))
  {
    var all := steps + [step];
    assert forall j | 0 <= j < |steps| :: all[j] == steps[j];
    if Tabled(all, id) {
      var k :| 0 <= k < |all| && all[k] == Insert(id) && NoneConcerns(all, id, k);
      if k < |steps| {
        NoneConcernsOn(steps, step, id, k);
      }
    }
    if step == Insert(id) {
      assert all[|steps|] == Insert(id) && NoneConcerns(all, id, |steps|);
    } else if Tabled(steps, id) && !Concerns(step, id) {
      var k :| 0 <= k < |steps| && steps[k] == Insert(id) && NoneConcerns(steps, id, k);
      NoneConcernsOn(steps, step, id, k);
      assert all[k] == Insert(id);
    }
  }

  lemma ReplyOn(steps: seq<Step>, step: Step, id: nat, reply: Reply)
    requires ReplyOf(steps, id, reply)
    ensures ReplyOf(steps + [step], id, reply)
  {
    var all := steps + [step];
    var k: nat, j: nat :| k < j < |steps| && Settles(steps, id, k, j) && RepliesWith(steps, j, reply);
    assert all[..j] == steps[..j] && all[k] == steps[k] && all[j] == steps[j];
    assert Settles(all, id, k, j) && RepliesWith(all, j, reply);
  }

  /** The step that settles an id which was in the table. */
  lemma ReplySent(steps: seq<Step>, step: Step, id: nat, reply: Reply)
    requires Tabled(steps, id) && Concerns(step, id)
    requires if step.Read? then reply == Answered(Reads(steps)) else step.Drain? && reply == Disconnected
    ensures ReplyOf(steps + [step], id, reply)
  {
    var all := steps + [step];
    var k :| 0 <= k < |steps| && steps[k] == Insert(id) && NoneConcerns(steps, id, k);
    assert all[..|steps|] == steps && all[k] == steps[k] && all[|steps|] == step;
    assert Settles(all, id, k, |steps|) && RepliesWith(all, |steps|, reply);
  }

  // ---- the run follows its steps ----

  /** What a drain sends, id by id. */
  lemma {:induction false} DrainMail(s: State, order: seq<nat>, id: nat)
    ensures
      var s' := CompleteAll(s, order);
      && s'.calls == s.calls && s'.read == s.read
      && (id in s'.pending <==> id in s.pending && id !in order)
      && (id in s'.mail <==> id in s.mail || (id in order && Listening(s, id)))
      && (id in s'.mail ==> s'.mail[id] == if id in order && Listening(s, id) then Disconnected else s.mail[id])
    decreases |order|
  {
    if order != [] {
      DrainMail(Complete(s, order[0], Disconnected), order[1..], id);
      assert order == [order[0]] + order[1..];
    }
  }

  predicate TimedOutIn(steps: seq<Step>, id: nat) {
    exists j | 0 <= j < |steps| :: steps[j].Timeout? && steps[j].id == id
  }

  predicate WriteFailedIn(steps: seq<Step>, id: nat) {
    exists j | 0 <= j < |steps| :: steps[j] == Write(id, false)
  }

  predicate OutcomeOf(steps: seq<Step>, id: nat, outcome: Outcome) {
    match outcome
    case Got(reply) => ReplyOf(steps, id, reply)
    case TimedOut => TimedOutIn(steps, id)
    case WriteFailed => WriteFailedIn(steps, id)
  }

  predicate Told(steps: seq<Step>, s: State, id: nat) {
    && |s.read| == Reads(steps)
    && (id in s.pending <==> Tabled(steps, id))
    && (id in s.mail ==> ReplyOf(steps, id, s.mail[id]))
    && (id in s.calls && s.calls[id].phase.Done? ==> OutcomeOf(steps, id, s.calls[id].phase.outcome))
    && (TimedOutIn(steps, id) ==> id in s.calls && s.calls[id].phase == Done(TimedOut))
    && (WriteFailedIn(steps, id) ==> id in s.calls && s.calls[id].phase == Done(WriteFailed))
  }

  lemma TimedOutOn(steps: seq<Step>, step: Step, id: nat)
    ensures TimedOutIn(steps + [step], id) <==> TimedOutIn(steps, id) || (step.Timeout? && step.id == id)
    ensures WriteFailedIn(steps + [step], id) <==> WriteFailedIn(steps, id) || step == Write(id, false)
  {
    var all := steps + [step];
    assert all[|steps|] == step && forall j | 0 <= j < |steps| :: all[j] == steps[j];
    if TimedOutIn(steps, id) {
      var j :| 0 <= j < |steps| && steps[j].Timeout? && steps[j].id == id;
      assert all[j].Timeout? && all[j].id == id;
    }
    if WriteFailedIn(steps, id) {
      var j :| 0 <= j < |steps| && steps[j] == Write(id, false);
      assert all[j] == Write(id, false);
    }
  }

  lemma OutcomeOn(steps: seq<Step>, step: Step, id: nat, outcome: Outcome)
    requires OutcomeOf(steps, id, outcome)
    ensures OutcomeOf(steps + [step], id, outcome)
  {
    var all := steps + [step];
    match outcome
    case Got(reply) => ReplyOn(steps, step, id, reply);
    case TimedOut =>
      var j :| 0 <= j < |steps| && steps[j].Timeout? && steps[j].id == id;
      assert all[j] == steps[j];
    case WriteFailed =>
      var j :| 0 <= j < |steps| && steps[j] == Write(id, false);
      assert all[j] == steps[j];
  }

  lemma OneMoreRead(steps: seq<Step>, step: Step)
    ensures Reads(steps + [step]) == Reads(steps) + if step.Read? then 1 else 0
  {
    assert (steps + [step])[..|steps|] == steps;
  }

  /** The replies that were there stay what they were. */
  lemma OldReplies(steps: seq<Step>, step: Step, s: State, id: nat)
    requires Told(steps, s, id)
    ensures id in s.mail ==> ReplyOf(steps + [step], id, s.mail[id])
    ensures id in s.calls && s.calls[id].phase.Done? ==> OutcomeOf(steps + [step], id, s.calls[id].phase.outcome)
  {
    if id in s.mail {
      ReplyOn(steps, step, id, s.mail[id]);
    }
    if id in s.calls && s.calls[id].phase.Done? {
      OutcomeOn(steps, step, id, s.calls[id].phase.outcome);
    }
  }

  lemma ReadTold(steps: seq<Step>, s: State, line: Line, id: nat)
    requires Told(steps, s, id) && Inv(s)
    ensures Told(steps + [Read(line)], Next(s, Read(line)), id)
  {
    var step := Read(line);
    OneMoreRead(steps, step);
    TabledOn(steps, step, id);
    TimedOutOn(steps, step, id);
    OldReplies(steps, step, s, id);
    assert CallOk(s, id);
    if line.Answer? && line.id == id && id in s.pending {
      ReplySent(steps, step, id, Answered(|s.read|));
    }
  }

  lemma DrainTold(steps: seq<Step>, s: State, order: seq<nat>, id: nat)
    requires Told(steps, s, id) && Inv(s) && Enumerates(order, s.pending)
    ensures Told(steps + [Drain(order)], Next(s, Drain(order)), id)
  {
    var step := Drain(order);
    OneMoreRead(steps, step);
    TabledOn(steps, step, id);
    TimedOutOn(steps, step, id);
    OldReplies(steps, step, s, id);
    DrainMail(s, order, id);
    if id in order && Listening(s, id) {
      ReplySent(steps, step, id, Disconnected);
    }
  }

  lemma CallerTold(steps: seq<Step>, s: State, step: Step, id: nat)
    requires Told(steps, s, id) && Inv(s) && Enabled(s, step) && !step.Read? && !step.Drain?
    ensures Told(steps + [step], Next(s, step), id)
  {
    OneMoreRead(steps, step);
    TabledOn(steps, step, id);
    TimedOutOn(steps, step, id);
    OldReplies(steps, step, s, id);
    assert CallOk(s, id);
    assert (steps + [step])[|steps|] == step;
  }

  lemma {:induction false} RunTold(steps: seq<Step>, id: nat)
    requires ValidRun(EMPTY, steps)
    ensures Told(steps, Run(EMPTY, steps), id)
    decreases |steps|
  {
    if steps != [] {
      var before, step := steps[..|steps| - 1], steps[|steps| - 1];
      assert steps == before + [step];
      RunOneMore(EMPTY, before, step);
      RunTold(before, id);
      RunKeepsInv(EMPTY, before);
      var s := Run(EMPTY, before);
      match step
      case Read(line) => ReadTold(before, s, line, id);
      case Drain(order) => DrainTold(before, s, order, id);
      case _ => CallerTold(before, s, step, id);
    }
  }

  /**
   Main result: an id is in the table exactly from its registration to the first of its answer, the end
   of a reader, and its timeout with the table free; a failed write leaves it there.
   */
  lemma TableIff(steps: seq<Step>, id: nat)
    requires ValidRun(EMPTY, steps)
    ensures
      id in Run(EMPTY, steps).pending <==>
        exists k | 0 <= k < |steps| ::
          steps[k] == Insert(id) && forall j | k < j < |steps| :: !Concerns(steps[j], id)
  {
    RunTold(steps, id);
    if id in Run(EMPTY, steps).pending {
      var k :| 0 <= k < |steps| && steps[k] == Insert(id) && NoneConcerns(steps, id, k);
      assert forall j | k < j < |steps| :: !Concerns(steps[j], id);
    }
    if k :| 0 <= k < |steps| && steps[k] == Insert(id) && forall j | k < j < |steps| :: !Concerns(steps[j], id) {
      assert NoneConcerns(steps, id, k);
    }
  }

  /**
   Main result: every outcome was decided by the first step that concerned the id, or by its own timeout
   or failed write, and these two are always final.
   */
  lemma OutcomesAreDecided(steps: seq<Step>, id: nat)
    requires ValidRun(EMPTY, steps)
    requires id in Run(EMPTY, steps).calls && Run(EMPTY, steps).calls[id].phase.Done?
    ensures
      var outcome := Run(EMPTY, steps).calls[id].phase.outcome;
      && OutcomeOf(steps, id, outcome)
      && (outcome == TimedOut <==> TimedOutIn(steps, id))
      && (outcome == WriteFailed <==> WriteFailedIn(steps, id))
  {
    RunTold(steps, id);
  }

  /** A caller that still listens has its reply as soon as such a step has come. */
  lemma SettledMeansReplied(steps: seq<Step>, id: nat)
    requires ValidRun(EMPTY, steps) && Listening(Run(EMPTY, steps), id) && !Tabled(steps, id)
    ensures id in Run(EMPTY, steps).mail && ReplyOf(steps, id, Run(EMPTY, steps).mail[id])
  {
    RunTold(steps, id);
    NobodyWaitsInVain(steps, id);
  }

  /** The last word on the connection was that it is up. */
  predicate SaidUp(steps: seq<Step>) {
    exists k | 0 <= k < |steps| ::
      && steps[k] == SetConnected(true)
      && forall j | k < j < |steps| :: !steps[j].SetConnected? && !steps[j].ReaderExit?
  }

  lemma SaidUpOn(steps: seq<Step>, step: Step)
    ensures
      SaidUp(steps + [step]) <==>
        step == SetConnected(true) || (SaidUp(steps) && !step.SetConnected? && !step.ReaderExit?)
  {
    var all := steps + [step];
    assert all[|steps|] == step && forall j | 0 <= j < |steps| :: all[j] == steps[j];
    if SaidUp(steps) && !step.SetConnected? && !step.ReaderExit? {
      var k :| 0 <= k < |steps| && steps[k] == SetConnected(true)
               && forall j | k < j < |steps| :: !steps[j].SetConnected? && !steps[j].ReaderExit?;
      assert all[k] == SetConnected(true);
    }
  }

  /** Whether the backend counts as connected is what was said of it last. */
  lemma {:induction false} ConnectedAsLastSaid(steps: seq<Step>)
    requires ValidRun(EMPTY, steps)
    ensures Run(EMPTY, steps).connected <==> SaidUp(steps)
    decreases |steps|
  {
    if steps != [] {
      var before, step := steps[..|steps| - 1], steps[|steps| - 1];
      assert steps == before + [step];
      RunOneMore(EMPTY, before, step);
      ConnectedAsLastSaid(before);
      SaidUpOn(before, step);
      if step.Drain? {
        DrainKeepsConnected(Run(EMPTY, before), step.order);
      }
    }
  }

  lemma {:induction false} DrainKeepsConnected(s: State, order: seq<nat>)
    ensures CompleteAll(s, order).connected == s.connected
    decreases |order|
  {
    if order != [] {
      DrainKeepsConnected(Complete(s, order[0], Disconnected), order[1..]);
    }
  }
}
