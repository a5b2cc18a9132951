/**
 Any number of requests on one backend, interleaved: handshakes are shared, a failed one does not
 lose the session id, and no request is POSTed without bound.
 */
module SessionProtocol {
  import opened Options
  import opened HttpSession

  datatype State = State(sh: Shared, lock: Option<nat>, calls: map<nat, Call>)

  datatype Step =
    | Start(call: nat, recoverable: bool, oauth: bool)
    | Advance(call: nat, input: Input)
    | Capture(session: string)  // a connect() elsewhere records the session id it was given
    | TakeRefresh               // the registry takes the flag and lists the tools again

  predicate Enabled(s: State, step: Step) {
    match step
    case Start(c, _, _) => c !in s.calls
    case Advance(c, input) =>
      && c in s.calls && Fits(s.calls[c].pc, input)
      && (!Holds(s.calls[c].pc) && Holds(Section(s.sh, s.calls[c], input).1.pc) ==> s.lock.None?)
    case Capture(_) => true
    case TakeRefresh => true
  }

  function Next(s: State, step: Step): State
    requires Enabled(s, step)
  {
    match step
    case Start(c, recoverable, oauth) => s.(calls := s.calls[c := Call(recoverable, oauth, Begin, 0, 0, None, None, None)])
    case Advance(c, input) =>
      var (sh, call) := Section(s.sh, s.calls[c], input);
      State(sh,
            if Holds(call.pc) then Some(c) else if Holds(s.calls[c].pc) then None else s.lock,
            s.calls[c := call])
    case Capture(session) => s.(sh := s.sh.(session := Some(session), ids := s.sh.ids + [session]))
    case TakeRefresh => s.(sh := s.sh.(toolsRefresh := false, relisted := s.sh.succeeded))
  }

  predicate ValidRun(s: State, steps: seq<Step>)
    decreases |steps|
  {
    steps == [] || (Enabled(s, steps[0]) && ValidRun(Next(s, steps[0]), steps[1..]))
  }

  function Run(s: State, steps: seq<Step>): State
    requires ValidRun(s, steps)
    decreases |steps|
  {
    if steps == [] then s else Run(Next(s, steps[0]), steps[1..])
  }

  predicate Newest(session: string, ids: seq<string>) {
    ids != [] && session == ids[|ids| - 1]
  }

  predicate Initial(s: State) {
    && s.sh.epoch == 0 && s.sh.started == [] && s.sh.finished == 0
    && s.sh.succeeded == 0 && s.sh.relisted == 0 && !s.sh.toolsRefresh
    && (s.sh.session.Some? ==> Newest(s.sh.session.value, s.sh.ids))
    && s.lock.None? && s.calls == map[]
  }

  predicate LockOk(s: State) {
    && (s.lock.Some? ==> s.lock.value in s.calls)
    && (forall c | c in s.calls :: Holds(s.calls[c].pc) <==> s.lock == Some(c))
  }

  function HolderPc(s: State): Pc {
    if s.lock.Some? && s.lock.value in s.calls then s.calls[s.lock.value].pc else Begin
  }

  // ---- handshakes ----

  /** The epoch of the handshake that the lock owner is running, if it is running one. */
  function Attempt(pc: Pc): Option<nat> {
    match pc
    case Sending(Init(epoch, _)) => Some(epoch)
    case Waiting(Init(epoch, _), _) => Some(epoch)
    case Fetching(Init(epoch, _), _) => Some(epoch)
    case WaitingAgain(Init(epoch, _), _) => Some(epoch)
    case Notifying(epoch, _) => Some(epoch)
    case Finished(_, epoch, _) => Some(epoch)
    case _ => None
  }

  /** Handshakes were started once at each epoch, in order; a running one has the current epoch. */
  predicate Counted(sh: Shared, pc: Pc) {
    && sh.finished == sh.epoch
    && sh.relisted <= sh.succeeded <= sh.finished && (sh.toolsRefresh <==> sh.relisted < sh.succeeded)
    && (Attempt(pc).Some? ==> Attempt(pc).value == sh.epoch)
    && |sh.started| == sh.epoch + (if Attempt(pc).Some? then 1 else 0)
    && forall i | 0 <= i < |sh.started| :: sh.started[i] == i
  }

  /** A call never knows a later epoch, and sends again only after its own epoch's handshake ended. */
  predicate InTime(job: Job, epoch: nat) {
    match job
    case First(e) => e <= epoch
    case Again(e) => e < epoch
    case Init(e, _) => e == epoch
  }

  predicate OnTime(pc: Pc, epoch: nat) {
    match pc
    case Sending(job) => InTime(job, epoch)
    case Waiting(job, _) => InTime(job, epoch)
    case Fetching(job, _) => InTime(job, epoch)
    case WaitingAgain(job, _) => InTime(job, epoch)
    case AwaitReinit(e) => e <= epoch
    case Deciding(e) => e <= epoch
    case _ => true
  }

  lemma OwnerKeepsCount(sh: Shared, call: Call, input: Input)
    requires Holds(call.pc) && Fits(call.pc, input) && Counted(sh, call.pc) && OnTime(call.pc, sh.epoch)
    ensures
      var (sh', call') := Section(sh, call, input);
      && Counted(sh', if Holds(call'.pc) then call'.pc else Begin)
      && OnTime(call'.pc, sh'.epoch) && sh.epoch <= sh'.epoch
  {
  }

  /** Without the lock a call at most records a session id and becomes the owner. */
  lemma OthersTouchOnlySession(sh: Shared, call: Call, input: Input)
    requires !Holds(call.pc) && Fits(call.pc, input)
    ensures
      var (sh', call') := Section(sh, call, input);
      && sh' == sh.(session := sh'.session, ids := sh'.ids) && (sh.session.Some? ==> sh'.session.Some?)
      && (OnTime(call.pc, sh.epoch) ==> OnTime(call'.pc, sh.epoch))
      && (Holds(call'.pc) ==> call'.pc.Deciding?)
  {
  }

  predicate SharedState(s: State) {
    && LockOk(s)
    && Counted(s.sh, HolderPc(s))
    && forall c | c in s.calls :: OnTime(s.calls[c].pc, s.sh.epoch)
  }

  lemma LaterIsOnTime(pc: Pc, epoch: nat, later: nat)
    requires OnTime(pc, epoch) && !Holds(pc) && epoch <= later
    ensures OnTime(pc, later)
  {
  }

  lemma NextKeepsShared(s: State, step: Step)
    requires SharedState(s) && Enabled(s, step)
    ensures SharedState(Next(s, step))
  {
    var s' := Next(s, step);
    if step.Advance? {
      var c := step.call;
      if Holds(s.calls[c].pc) {
        OwnerKeepsCount(s.sh, s.calls[c], step.input);
        forall d | d in s.calls && d != c
          ensures OnTime(s'.calls[d].pc, s'.sh.epoch)
        {
          LaterIsOnTime(s.calls[d].pc, s.sh.epoch, s'.sh.epoch);
        }
      } else {
        OthersTouchOnlySession(s.sh, s.calls[c], step.input);
      }
    }
  }

  lemma {:induction false} RunKeepsShared(s: State, steps: seq<Step>)
    requires SharedState(s) && ValidRun(s, steps)
    ensures SharedState(Run(s, steps))
    decreases |steps|
  {
    if steps != [] {
      NextKeepsShared(s, steps[0]);
      RunKeepsShared(Next(s, steps[0]), steps[1..]);
    }
  }

  /** The requests that a call sends after recovery: they rely on the handshake of this epoch. */
  predicate ResendsAfter(pc: Pc, epoch: nat) {
    || pc == Sending(Again(epoch))
    || (pc.Waiting? && pc.job == Again(epoch))
    || (pc.Fetching? && pc.job == Again(epoch))
    || (pc.WaitingAgain? && pc.job == Again(epoch))
  }

  ghost predicate ResendsAreLate(s: State) {
    forall c, e: nat | c in s.calls && ResendsAfter(s.calls[c].pc, e) ::
      e < s.sh.finished && e < |s.sh.started| && s.sh.started[e] == e
  }

  predicate StartedOnce(started: seq<nat>) {
    forall i, j | 0 <= i < j < |started| :: started[i] != started[j]
  }

  lemma SharedImpliesLate(s: State)
    requires SharedState(s)
    ensures ResendsAreLate(s)
  {
    forall c, e: nat | c in s.calls && ResendsAfter(s.calls[c].pc, e)
      ensures e < s.sh.finished && e < |s.sh.started| && s.sh.started[e] == e
    {
      assert OnTime(s.calls[c].pc, s.sh.epoch);
    }
  }

  /**
   Main result: at most one handshake is started per epoch, the epoch counts the finished ones, a
   call that read epoch e sends again only once the one handshake of e is over, and the registry is
   told to list tools exactly while a success is news to it.
   */
  lemma HandshakesAreShared(s: State, steps: seq<Step>)
    requires Initial(s) && ValidRun(s, steps)
    ensures
      var s' := Run(s, steps);
      && s'.sh.epoch == s'.sh.finished
      && (s'.sh.toolsRefresh <==> s'.sh.relisted < s'.sh.succeeded)
      && s'.sh.finished <= |s'.sh.started| <= s'.sh.finished + 1
      && StartedOnce(s'.sh.started)
      && ResendsAreLate(s')
  {
    RunKeepsShared(s, steps);
    SharedImpliesLate(Run(s, steps));
  }

  // ---- the session id ----

  /** The id set aside by a running handshake. */
  function SetAside(pc: Pc): Option<string> {
    match pc
    case Sending(Init(_, stale)) => stale
    case Waiting(Init(_, stale), _) => stale
    case Fetching(Init(_, stale), _) => stale
    case WaitingAgain(Init(_, stale), _) => stale
    case Notifying(_, stale) => stale
    case Finished(_, _, stale) => stale
    case Restoring(stale) => stale
    case _ => None
  }

  /** A session id is recorded, or the running handshake will put one back should it fail. */
  predicate Kept(s: State) {
    LockOk(s) && (s.sh.session.Some? || SetAside(HolderPc(s)).Some?)
  }

  lemma OwnerKeepsSession(sh: Shared, call: Call, input: Input)
    requires Holds(call.pc) && Fits(call.pc, input)
    requires sh.session.Some? || SetAside(call.pc).Some?
    ensures
      var (sh', call') := Section(sh, call, input);
      && sh'.succeeded >= sh.succeeded
      && (sh'.succeeded == sh.succeeded ==>
            sh'.session.Some? || (Holds(call'.pc) && SetAside(call'.pc).Some?))
  {
  }

  lemma NextKeepsSession(s: State, step: Step)
    requires Kept(s) && Enabled(s, step)
    ensures
      var s' := Next(s, step);
      s'.sh.succeeded >= s.sh.succeeded && (s'.sh.succeeded == s.sh.succeeded ==> Kept(s'))
  {
    if step.Advance? {
      var call := s.calls[step.call];
      if Holds(call.pc) {
        OwnerKeepsSession(s.sh, call, step.input);
      } else {
        OthersTouchOnlySession(s.sh, call, step.input);
      }
    }
  }

  lemma {:induction false} SuccessesOnlyGrow(s: State, steps: seq<Step>)
    requires ValidRun(s, steps)
    ensures Run(s, steps).sh.succeeded >= s.sh.succeeded
    decreases |steps|
  {
    if steps != [] {
      SuccessesOnlyGrow(Next(s, steps[0]), steps[1..]);
    }
  }

  /** Main result: failing handshakes, however many and however interleaved, never lose the session id. */
  lemma {:induction false} FailedHandshakesKeepSession(s: State, steps: seq<Step>)
    requires Kept(s) && ValidRun(s, steps)
    requires Run(s, steps).sh.succeeded == s.sh.succeeded
    ensures Kept(Run(s, steps))
    ensures Run(s, steps).lock.None? ==> Run(s, steps).sh.session.Some?
    decreases |steps|
  {
    if steps != [] {
      NextKeepsSession(s, steps[0]);
      SuccessesOnlyGrow(Next(s, steps[0]), steps[1..]);
      FailedHandshakesKeepSession(Next(s, steps[0]), steps[1..]);
    }
  }

  /** The recorded id is the newest one, and so is an id set aside while none is recorded. */
  predicate HasNewest(sh: Shared, pc: Pc) {
    && (sh.session.Some? ==> Newest(sh.session.value, sh.ids))
    && (sh.session.None? && SetAside(pc).Some? ==> Newest(SetAside(pc).value, sh.ids))
  }

  lemma OwnerKeepsNewest(sh: Shared, call: Call, input: Input)
    requires Holds(call.pc) && Fits(call.pc, input) && HasNewest(sh, call.pc)
    ensures
      var (sh', call') := Section(sh, call, input);
      HasNewest(sh', if Holds(call'.pc) then call'.pc else Begin)
  {
  }

  lemma OthersKeepNewest(sh: Shared, call: Call, input: Input, holder: Pc)
    requires !Holds(call.pc) && Fits(call.pc, input) && HasNewest(sh, holder)
    ensures HasNewest(Section(sh, call, input).0, holder)
  {
  }

  lemma NextKeepsNewest(s: State, step: Step)
    requires LockOk(s) && HasNewest(s.sh, HolderPc(s)) && Enabled(s, step)
    ensures
      var s' := Next(s, step);
      LockOk(s') && HasNewest(s'.sh, HolderPc(s'))
  {
    if step.Advance? {
      var call := s.calls[step.call];
      if Holds(call.pc) {
        OwnerKeepsNewest(s.sh, call, step.input);
      } else {
        OthersKeepNewest(s.sh, call, step.input, HolderPc(s));
        OthersTouchOnlySession(s.sh, call, step.input);
      }
    }
  }

  lemma {:induction false} RunKeepsNewest(s: State, steps: seq<Step>)
    requires LockOk(s) && HasNewest(s.sh, HolderPc(s)) && ValidRun(s, steps)
    ensures
      var s' := Run(s, steps);
      LockOk(s') && HasNewest(s'.sh, HolderPc(s'))
    decreases |steps|
  {
    if steps != [] {
      NextKeepsNewest(s, steps[0]);
      RunKeepsNewest(Next(s, steps[0]), steps[1..]);
    }
  }

  /**
   Main result: in every interleaving, a recorded session id is the newest that any answer brought.
   In particular, a failed handshake never puts an old id back over one that came in meanwhile.
   */
  lemma SessionIsNewest(s: State, steps: seq<Step>)
    requires Initial(s) && ValidRun(s, steps)
    ensures
      var sh := Run(s, steps).sh;
      sh.session.Some? ==> Newest(sh.session.value, sh.ids)
  {
    RunKeepsNewest(s, steps);
  }

  // ---- what a request sends, and what it returns ----

  /** The call's first answer told of a lost session, and it may do something about it. */
  predicate Recovering(call: Call) {
    && call.recoverable && call.second.None?
    && call.first.Some? && Whole(call.first.value, call.oauth) && Lost(call.first.value)
    && call.own == 1
  }

  /** Where the call stands when the request of `job` has been POSTed `n` times. */
  predicate SentBy(call: Call, job: Job, n: nat) {
    match job
    case First(_) => call.first.None? && call.shake.None? && call.second.None? && call.own == call.all == n
    case Init(_, _) => Recovering(call) && call.shake.None? && call.all == 1 + n
    case Again(_) =>
      && Recovering(call.(own := 1)) && ShookWell(call)
      && call.own == 1 + n && call.all == 1 + n + ShakePosts(call.shake)
  }

  /** The call ran no handshake or a good one. */
  predicate ShookWell(call: Call) {
    call.shake.Some? ==> Whole(call.shake.value, call.oauth) && GoodInit(Decisive(call.shake.value))
  }

  /** A 401 for which a token is being looked for, or was found. */
  predicate Refused(call: Call, round: Round, token: Option<bool>) {
    call.oauth && Unauthorized(round.answer) && round.token == token && round.again.None?
  }

  predicate Shaken(call: Call, ok: bool) {
    && Recovering(call) && call.shake.Some? && Whole(call.shake.value, call.oauth)
    && (ok <==> GoodInit(Decisive(call.shake.value)))
  }

  predicate Follows(call: Call) {
    match call.pc
    case Begin => SentBy(call, First(0), 0)
    case Sending(job) => SentBy(call, job, 0)
    case Waiting(job, _) => SentBy(call, job, 1)
    case Fetching(job, round) => SentBy(call, job, 1) && Refused(call, round, None)
    case WaitingAgain(job, round) => SentBy(call, job, 2) && Refused(call, round, Some(true))
    case AwaitReinit(_) => Recovering(call) && call.shake.None? && call.all == 1
    case Deciding(_) => Recovering(call) && call.shake.None? && call.all == 1
    case Notifying(_, _) => Shaken(call, true) && call.all == 1 + Posts(call.shake)
    case Finished(ok, _, _) => Shaken(call, ok) && call.all == 1 + ShakePosts(call.shake)
    case Restoring(_) => Shaken(call, false) && call.all == 1 + ShakePosts(call.shake)
    case Done(ok) => Followed(call, ok)
  }

  /** The whole story of a finished call, told by the answers it got. */
  predicate Followed(call: Call, ok: bool) {
    && call.first.Some? && Whole(call.first.value, call.oauth)
    && (if call.recoverable && Lost(call.first.value) then
          if call.second.None? then
            // its own handshake failed
            && !ok && call.shake.Some? && Whole(call.shake.value, call.oauth) && !GoodInit(Decisive(call.shake.value))
          else
            // its own handshake succeeded or another call's is over, and it sent its request again
            && Whole(call.second.value, call.oauth) && (ok <==> GoodAnswer(Decisive(call.second.value)))
            && ShookWell(call)
        else
          && call.shake.None? && call.second.None? && (ok <==> GoodAnswer(Decisive(call.first.value))))
    && call.own == Posts(call.first) + Posts(call.second)
    && call.all == call.own + ShakePosts(call.shake)
  }

  /** A verdict says of the answers of a round what it should. */
  predicate Fair(v: Verdict, round: Round) {
    && (v.Good? <==> GoodAnswer(Decisive(round)))
    && (v.Good? && v.initialize <==> GoodInit(Decisive(round)))
    && (v == Bad(true) <==> Lost(round))
  }

  lemma JudgeIsFair(round: Round)
    requires round.again.None?
    ensures Fair(Judge(round.sent, round.answer), round)
  {
  }

  lemma JudgeRetryIsFair(round: Round)
    requires round.again.Some?
    ensures Fair(JudgeRetry(round.again.value), round)
  {
  }

  lemma JudgedFollows(call: Call, job: Job, round: Round, v: Verdict)
    requires SentBy(call, job, Posts(Some(round))) && Whole(round, call.oauth) && Fair(v, round)
    ensures Follows(Judged(call, job, round, v))
  {
  }

  /** Sections in which an answer or a token comes in. */
  predicate Listens(pc: Pc) {
    pc.Waiting? || pc.Fetching? || pc.WaitingAgain?
  }

  lemma AnswerFollows(sh: Shared, call: Call, input: Input)
    requires Listens(call.pc) && Fits(call.pc, input) && Follows(call)
    ensures Follows(Section(sh, call, input).1)
  {
    match call.pc
    case Waiting(job, sent) =>
      var round := Round(sent, input.answer, None, None);
      if !(Unauthorized(input.answer) && call.oauth) {
        JudgeIsFair(round);
        JudgedFollows(call, job, round, Judge(sent, input.answer));
      }
    case Fetching(job, round) =>
      if !input.ok {
        JudgeIsFair(round.(token := Some(false)));
        JudgedFollows(call, job, round.(token := Some(false)), Judge(round.sent, round.answer));
      }
    case WaitingAgain(job, round) =>
      var round' := round.(again := Some(input.answer));
      JudgeRetryIsFair(round');
      JudgedFollows(call, job, round', JudgeRetry(input.answer));
  }

  lemma QuietFollows(sh: Shared, call: Call, input: Input)
    requires !Listens(call.pc) && Fits(call.pc, input) && Follows(call)
    ensures Follows(Section(sh, call, input).1)
  {
  }

  lemma SectionFollows(sh: Shared, call: Call, input: Input)
    requires Fits(call.pc, input) && Follows(call)
    ensures Follows(Section(sh, call, input).1)
  {
    if Listens(call.pc) {
      AnswerFollows(sh, call, input);
    } else {
      QuietFollows(sh, call, input);
    }
  }

  lemma {:induction false} RunFollows(s: State, steps: seq<Step>)
    requires ValidRun(s, steps) && forall c | c in s.calls :: Follows(s.calls[c])
    ensures forall c | c in Run(s, steps).calls :: Follows(Run(s, steps).calls[c])
    decreases |steps|
  {
    if steps != [] {
      if steps[0].Advance? {
        SectionFollows(s.sh, s.calls[steps[0].call], steps[0].input);
      }
      RunFollows(Next(s, steps[0]), steps[1..]);
    }
  }

  /**
   Main result, for every interleaving and every server: what a finished call has sent and what it
   returned. It sent its request again exactly if its first answer told of a lost session and no
   handshake of its own failed, it used the 401 retry exactly where that applies, and its result is
   that of the last answer to its own body.
   */
  lemma CallsFollowProtocol(s: State, steps: seq<Step>, c: nat)
    requires Initial(s) && ValidRun(s, steps)
    requires c in Run(s, steps).calls && Run(s, steps).calls[c].pc.Done?
    ensures
      var call := Run(s, steps).calls[c];
      var ok := call.pc.ok;
      && call.first.Some? && Whole(call.first.value, call.oauth)
      && (call.second.Some? ==> Whole(call.second.value, call.oauth))
      && (call.shake.Some? ==> Whole(call.shake.value, call.oauth))
      && (ok <==> GoodAnswer(Decisive(if call.second.Some? then call.second.value else call.first.value)))
      && (call.second.Some? <==>
            && call.recoverable && Lost(call.first.value)
            && (call.shake.Some? ==> GoodInit(Decisive(call.shake.value))))
      && (call.shake.Some? ==> call.recoverable && Lost(call.first.value))
      && call.own == Posts(call.first) + Posts(call.second)
      && call.all == call.own + ShakePosts(call.shake)
  {
    RunFollows(s, steps);
  }

  lemma FollowingIsBounded(call: Call)
    requires Follows(call)
    ensures call.own <= 3 && call.own <= call.all <= 6
    ensures call.pc.Done? ==> call.own >= 1 && call.first.Some?
    ensures
      call.first.Some? && !LostAnswer(call.first.value.sent, call.first.value.answer)
      && !(Unauthorized(call.first.value.answer) && call.oauth)
      ==> call.own == call.all == 1
    ensures !call.recoverable ==> call.own == call.all <= 2
  {
  }

  /**
   Main result, for every interleaving, every server and every moment: a request has POSTed its body at
   most three times and made at most six POSTs; no second one if its first answer was neither a lost
   session nor a 401 that the token manager acts on; and at least one once it is finished.
   */
  lemma PostsAreBounded(s: State, steps: seq<Step>, c: nat)
    requires Initial(s) && ValidRun(s, steps)
    requires c in Run(s, steps).calls
    ensures
      var call := Run(s, steps).calls[c];
      && call.own <= 3 && call.own <= call.all <= 6
      && (call.pc.Done? ==> call.own >= 1 && call.first.Some?)
      && (call.first.Some? && !LostAnswer(call.first.value.sent, call.first.value.answer)
          && !(Unauthorized(call.first.value.answer) && call.oauth)
          ==> call.own == call.all == 1)
      && (!call.recoverable ==> call.own == call.all <= 2)
  {
    RunFollows(s, steps);
    FollowingIsBounded(Run(s, steps).calls[c]);
  }
}
