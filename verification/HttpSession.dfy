/**
 Requests of one HTTP backend: sending, the OAuth2 retry after a 401, and the recovery of a lost
 session by a shared handshake. As for tokens, a call is cut at its await points into sections.
 */
module HttpSession {
  import opened Options

  /** What a response body says to `parse_response` and `session_not_initialized`. */
  datatype Body =
    | Result(initialize: bool)  // a JSON-RPC result; `initialize`: also a well-formed initialize result
    | NotInitialized            // a JSON-RPC error saying that the session is not initialized
    | Other

  datatype Answer = NoAnswer | Answer(status: nat, session: Option<string>, body: Body)

  predicate Success(a: Answer) {
    a.Answer? && 200 <= a.status < 300
  }

  predicate Unauthorized(a: Answer) {
    a.Answer? && a.status == 401
  }

  /** How `send_request_inner` ends: with a result, or with a failure that may tell of a lost session. */
  datatype Verdict = Good(initialize: bool) | Bad(lost: bool)

  function Judge(sent: Option<string>, a: Answer): Verdict {
    if a.NoAnswer? then Bad(false)
    else if !Success(a) then Bad((a.status == 404 && sent.Some?) || a.body.NotInitialized?)
    else if a.body.Result? then Good(a.body.initialize)
    else Bad(a.body.NotInitialized?)
  }

  /** After the OAuth2 retry no failure counts as a lost session. */
  function JudgeRetry(a: Answer): Verdict {
    if Success(a) && a.body.Result? then Good(a.body.initialize) else Bad(false)
  }

  /**
   One POST of a body and, after a 401, what came of it: whether a token was found and, if so, the
   answer to the second POST. `sent` is the session id that went with it.
   */
  datatype Round = Round(sent: Option<string>, answer: Answer, token: Option<bool>, again: Option<Answer>)

  /** What a request is for: the caller's own, first or again, or the `initialize` of a handshake. */
  datatype Job = First(epoch: nat) | Again(epoch: nat) | Init(epoch: nat, stale: Option<string>)

  datatype Pc =
    | Begin
    | Sending(job: Job)
    | Waiting(job: Job, sent: Option<string>)
    | Fetching(job: Job, round: Round)
    | WaitingAgain(job: Job, round: Round)
    | AwaitReinit(epoch: nat)
    | Deciding(epoch: nat)
    | Notifying(epoch: nat, stale: Option<string>)
    | Finished(ok: bool, epoch: nat, stale: Option<string>)
    | Restoring(stale: Option<string>)
    | Done(ok: bool)

  /**
   One `send_request`. `recoverable`: neither `initialize` nor a sessionless request; `oauth`: the
   401 retry applies. `own` counts the POSTs of its body, `all` every POST it made. `first`, `shake`
   and `second` keep its rounds: of its own body, of a handshake that it ran, and of its body again.
   */
  datatype Call = Call(
    recoverable: bool, oauth: bool, pc: Pc, own: nat, all: nat,
    first: Option<Round>, shake: Option<Round>, second: Option<Round>)

  datatype Shared = Shared(
    epoch: nat,
    session: Option<string>,
    ids: seq<string>,   // every session id that was recorded, in order
    toolsRefresh: bool,
    started: seq<nat>,  // the epoch at which each handshake was started
    finished: nat,      // handshakes that ended
    succeeded: nat,     // and those that succeeded
    relisted: nat)      // successes known when the registry last took `toolsRefresh`

  /** Program counters at which the caller owns the re-initialisation lock. */
  predicate Holds(pc: Pc) {
    match pc
    case Sending(job) => job.Init?
    case Waiting(job, _) => job.Init?
    case Fetching(job, _) => job.Init?
    case WaitingAgain(job, _) => job.Init?
    case Deciding(_) => true
    case Notifying(_, _) => true
    case Finished(_, _, _) => true
    case Restoring(_) => true
    case _ => false
  }

  datatype Input = Silent | Arrived(answer: Answer) | TokenFetched(ok: bool)

  predicate Fits(pc: Pc, input: Input) {
    match pc
    case Waiting(_, _) => input.Arrived?
    case WaitingAgain(_, _) => input.Arrived?
    case Fetching(_, _) => input.TokenFetched?
    case Done(_) => false
    case _ => input.Silent?
  }

  function Captured(session: Option<string>, a: Answer): Option<string> {
    if a.Answer? && a.session.Some? then a.session else session
  }

  /** An answer may carry a session id to be recorded. */
  function Heard(sh: Shared, a: Answer): Shared {
    if a.Answer? && a.session.Some? then sh.(session := a.session, ids := sh.ids + [a.session.value]) else sh
  }

  /** Where a call goes when one of its requests has been judged. */
  function AfterJob(job: Job, recoverable: bool, v: Verdict): Pc {
    match job
    case First(epoch) =>
      if v.Bad? && v.lost && recoverable then AwaitReinit(epoch) else Done(v.Good?)
    case Again(_) => Done(v.Good?)
    case Init(epoch, stale) =>
      if v.Good? && v.initialize then Notifying(epoch, stale) else Finished(false, epoch, stale)
  }

  /** One of the requests is over, with this verdict. */
  function Judged(call: Call, job: Job, round: Round, v: Verdict): Call {
    var judged := call.(pc := AfterJob(job, call.recoverable, v));
    match job
    case First(_) => judged.(first := Some(round))
    case Init(_, _) => judged.(shake := Some(round))
    case Again(_) => judged.(second := Some(round))
  }

  function Posted(call: Call, job: Job, pc: Pc): Call {
    call.(pc := pc, own := call.own + (if job.Init? then 0 else 1), all := call.all + 1)
  }

  function Section(sh: Shared, call: Call, input: Input): (Shared, Call)
    requires Fits(call.pc, input)
  {
    match call.pc
    case Begin => (sh, call.(pc := Sending(First(sh.epoch))))
    case Sending(job) => (sh, Posted(call, job, Waiting(job, sh.session)))
    case Waiting(job, sent) =>
      var a := input.answer;
      var round := Round(sent, a, None, None);
      (Heard(sh, a),
       if Unauthorized(a) && call.oauth then call.(pc := Fetching(job, round)) else Judged(call, job, round, Judge(sent, a)))
    case Fetching(job, round) =>
      var round' := round.(token := Some(input.ok));
      (sh, if input.ok then Posted(call, job, WaitingAgain(job, round'))
           else Judged(call, job, round', Judge(round.sent, round.answer)))
    case WaitingAgain(job, round) =>
      (Heard(sh, input.answer), Judged(call, job, round.(again := Some(input.answer)), JudgeRetry(input.answer)))
    case AwaitReinit(epoch) => (sh, call.(pc := Deciding(epoch)))
    case Deciding(epoch) =>
      if sh.epoch != epoch then (sh, call.(pc := Sending(Again(epoch))))
      else (sh.(session := None, started := sh.started + [epoch]), call.(pc := Sending(Init(epoch, sh.session))))
    case Notifying(epoch, stale) => (sh, call.(pc := Finished(true, epoch, stale), all := call.all + 1))
    case Finished(ok, epoch, stale) =>
      (sh.(epoch := sh.epoch + 1, finished := sh.finished + 1,
           toolsRefresh := sh.toolsRefresh || ok, succeeded := sh.succeeded + if ok then 1 else 0),
       call.(pc := if ok then Sending(Again(epoch)) else Restoring(stale)))
    case Restoring(stale) =>
      (sh.(session := sh.session.OrElse(stale)), call.(pc := Done(false)))
  }

  // ---- one call running on by itself ----

  predicate AloneOk(sh: Shared, call: Call, inputs: seq<Input>)
    decreases |inputs|
  {
    inputs == [] ||
    (&& Fits(call.pc, inputs[0])
     && var (sh', call') := Section(sh, call, inputs[0]);
        AloneOk(sh', call', inputs[1..]))
  }

  /** Where an uninterrupted call gets, given what the outside world supplies to its sections. */
  function Alone(sh: Shared, call: Call, inputs: seq<Input>): (Shared, Call)
    requires AloneOk(sh, call, inputs)
    decreases |inputs|
  {
    if inputs == [] then (sh, call)
    else var (sh', call') := Section(sh, call, inputs[0]); Alone(sh', call', inputs[1..])
  }

  lemma {:induction false} AloneOneMore(sh: Shared, call: Call, inputs: seq<Input>, input: Input)
    requires AloneOk(sh, call, inputs) && Fits(Alone(sh, call, inputs).1.pc, input)
    ensures AloneOk(sh, call, inputs + [input])
    ensures
      var (sh', call') := Alone(sh, call, inputs);
      Alone(sh, call, inputs + [input]) == Section(sh', call', input)
    decreases |inputs|
  {
    if inputs == [] {
      assert (inputs + [input])[1..] == [];
    } else {
      assert (inputs + [input])[1..] == inputs[1..] + [input];
      var (sh', call') := Section(sh, call, inputs[0]);
      AloneOneMore(sh', call', inputs[1..], input);
    }
  }

  // ---- what rounds come to, said of the server's answers ----

  predicate GoodAnswer(a: Answer) {
    a.Answer? && 200 <= a.status <= 299 && a.body.Result?
  }

  /** A well-formed result of `initialize`. */
  predicate GoodInit(a: Answer) {
    GoodAnswer(a) && a.body.initialize
  }

  /** A 404 for the session that was sent, or an error saying that the session is not initialized. */
  predicate LostAnswer(sent: Option<string>, a: Answer) {
    a.Answer? && ((a.status == 404 && sent.Some?) || a.body.NotInitialized?)
  }

  /** The 401 retry was made exactly if it applies and a token was found. */
  predicate Whole(r: Round, oauth: bool) {
    if r.answer.Answer? && r.answer.status == 401 && oauth then r.token.Some? && (r.token.value <==> r.again.Some?)
    else r.token.None? && r.again.None?
  }

  function Decisive(r: Round): Answer {
    if r.again.Some? then r.again.value else r.answer
  }

  /** After the 401 retry no failure tells of a lost session. */
  predicate Lost(r: Round) {
    r.again.None? && LostAnswer(r.sent, r.answer)
  }

  function Posts(r: Option<Round>): nat {
    if r.None? then 0 else if r.value.again.Some? then 2 else 1
  }

  /** The POSTs of a handshake: a good one also sends a notification. */
  function ShakePosts(r: Option<Round>): nat {
    Posts(r) + if r.Some? && GoodInit(Decisive(r.value)) then 1 else 0
  }
}
