/**
 Requests and responses over a child process's pipes: callers, timeouts and reader tasks share one
 table of pending requests. Every step below is one stretch without interruption.
 */
module Stdio {

  /** A line from the backend: a response with a numeric id, or anything that the reader skips. */
  datatype Line = Answer(id: int, ok: bool, payload: string) | Skipped

  /** What is sent through a caller's channel; `line` is the position of the response among all lines read. */
  datatype Reply = Answered(line: nat) | Disconnected

  datatype Outcome = Got(reply: Reply) | WriteFailed | TimedOut

  /** A request: not yet in the table, in it and being written, written, or over. */
  datatype Phase = Allocated | Registered | Waiting | Done(outcome: Outcome)

  /** `since`: how many lines had been read when the request entered the table. */
  datatype Call = Call(phase: Phase, since: nat)

  datatype State = State(
    next: nat,
    calls: map<nat, Call>,
    pending: set<nat>,
    mail: map<nat, Reply>,
    read: seq<Line>,
    removed: seq<nat>,  // ids in the order in which they left the table
    connected: bool)

  datatype Step =
    | Allocate
    | Insert(id: nat)
    | Write(id: nat, ok: bool)
    | Receive(id: nat)
    | Timeout(id: nat, locked: bool)
    | Read(line: Line)
    | ReaderExit
    | Drain(order: seq<nat>)
    | SetConnected(connected: bool)

  /** The caller has not gone away: a reply sent now reaches it. */
  predicate Listening(s: State, id: nat) {
    id in s.calls && (s.calls[id].phase.Registered? || s.calls[id].phase.Waiting?)
  }

  /** Each element of `ids` once. */
  predicate Enumerates(order: seq<nat>, ids: set<nat>) {
    && (forall i, j | 0 <= i < j < |order| :: order[i] != order[j])
    && (forall id | id in order :: id in ids)
    && (forall id | id in ids :: id in order)
  }

  predicate Enabled(s: State, step: Step) {
    match step
    case Allocate => true
    case Insert(id) => id in s.calls && s.calls[id].phase.Allocated?
    case Write(id, _) => id in s.calls && s.calls[id].phase.Registered?
    case Receive(id) => id in s.calls && s.calls[id].phase.Waiting? && id in s.mail
    case Timeout(id, _) => id in s.calls && s.calls[id].phase.Waiting? && id !in s.mail
    case Read(_) => true
    case ReaderExit => true
    case Drain(order) => Enumerates(order, s.pending)
    case SetConnected(_) => true
  }

  function Phased(s: State, id: nat, phase: Phase): State
    requires id in s.calls
  {
    s.(calls := s.calls[id := s.calls[id].(phase := phase)])
  }

  /** Takes `id` out of the table and sends `reply` to its caller, if the caller still listens. */
  function Complete(s: State, id: nat, reply: Reply): State {
    s.(pending := s.pending - {id},
       removed := s.removed + [id],
       mail := if Listening(s, id) then s.mail[id := reply] else s.mail)
  }

  function CompleteAll(s: State, order: seq<nat>): State
    decreases |order|
  {
    if order == [] then s else CompleteAll(Complete(s, order[0], Disconnected), order[1..])
  }

  function Next(s: State, step: Step): State
    requires Enabled(s, step)
  {
    match step
    case Allocate => s.(next := s.next + 1, calls := s.calls[s.next := Call(Allocated, 0)])
    case Insert(id) =>
      s.(pending := s.pending + {id}, calls := s.calls[id := Call(Registered, |s.read|)])
    case Write(id, ok) => Phased(s, id, if ok then Waiting else Done(WriteFailed))
    case Receive(id) => Phased(s, id, Done(Got(s.mail[id])))
    case Timeout(id, locked) =>
      var s' := Phased(s, id, Done(TimedOut));
      if locked || id !in s.pending then s' else s'.(pending := s.pending - {id}, removed := s.removed + [id])
    case Read(line) =>
      var s' := s.(read := s.read + [line]);
      if line.Answer? && line.id >= 0 && line.id in s.pending then Complete(s', line.id, Answered(|s.read|)) else s'
    case ReaderExit => s.(connected := false)
    case Drain(order) => CompleteAll(s, order)
    case SetConnected(connected) => s.(connected := connected)
  }

  predicate ValidRun(s: State, steps: seq<Step>)
    decreases |steps|
  {
    steps == [] || (Enabled(s, steps[0]) && ValidRun(Next(s, steps[0]), steps[1..]))
  }

  function Run(s: State, steps: seq<Step>): State
    requires ValidRun(s, steps)
    decreases |steps|
  {
    if steps == [] then s else Run(Next(s, steps[0]), steps[1..])
  }

  const EMPTY := State(0, map[], {}, map[], [], [], false)
}
