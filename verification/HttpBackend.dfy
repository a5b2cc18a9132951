/**
 `HttpBackend` as written: a class whose methods POST to a server, record session ids and redo the
 handshake. The server is an arbitrary function from the number of a POST to its answer, and the
 token manager one that says whether it finds a token after that POST. A call that runs undisturbed is
 proved to go through the sections of `HttpSession`, and to end as its answers say.
 */
module HttpBackend {
  import opened Options
  import opened HttpSession

  /** The round that starts with POST `n`. */
  function RoundAt(server: nat -> Answer, tokenFound: nat -> bool, oauth: bool, sent: Option<string>, n: nat): Round {
    var a := server(n);
    if !(a.Answer? && a.status == 401 && oauth) then Round(sent, a, None, None)
    else if tokenFound(n) then Round(sent, a, Some(true), Some(server(n + 1)))
    else Round(sent, a, Some(false), None)
  }

  /** The session id once the answers of a round are in. */
  function SessionAfter(session: Option<string>, r: Round): Option<string> {
    var first := if r.answer.Answer? && r.answer.session.Some? then r.answer.session else session;
    if r.again.Some? && r.again.value.Answer? && r.again.value.session.Some? then r.again.value.session else first
  }

  /** From `start`, the inputs in `trace` lead the call `first` to `sh` and `call`. */
  ghost predicate Reached(start: Shared, first: Call, trace: seq<Input>, sh: Shared, call: Call) {
    AloneOk(start, first, trace) && Alone(start, first, trace) == (sh, call)
  }

  /** Takes a trace over one more section. */
  lemma Onward(start: Shared, first: Call, trace: seq<Input>, sh: Shared, call: Call, input: Input)
    returns (longer: seq<Input>, call': Call)
    requires Reached(start, first, trace, sh, call) && Fits(call.pc, input)
    ensures call' == Section(sh, call, input).1
    ensures Reached(start, first, longer, Section(sh, call, input).0, call')
  {
    AloneOneMore(start, first, trace, input);
    longer, call' := trace + [input], Section(sh, call, input).1;
  }

  /** The call once the round of a job is over. */
  function AfterRound(call: Call, job: Job, r: Round): Call {
    var sent := call.(own := call.own + if job.Init? then 0 else Posts(Some(r)), all := call.all + Posts(Some(r)));
    Judged(sent, job, r, if r.again.Some? then JudgeRetry(r.again.value) else Judge(r.sent, r.answer))
  }

  function HeardRound(sh: Shared, r: Round): Shared {
    if r.again.Some? then Heard(Heard(sh, r.answer), r.again.value) else Heard(sh, r.answer)
  }

  lemma ThroughRound(start: Shared, first: Call, trace: seq<Input>, sh: Shared, call: Call, job: Job, r: Round)
    returns (longer: seq<Input>)
    requires Reached(start, first, trace, sh, call) && call.pc == Sending(job)
    requires Whole(r, call.oauth) && r.sent == sh.session
    ensures Reached(start, first, longer, HeardRound(sh, r), AfterRound(call, job, r))
  {
    var call';
    longer, call' := Onward(start, first, trace, sh, call, Silent);
    longer, call' := Onward(start, first, longer, sh, call', Arrived(r.answer));
    if r.token.Some? {
      var heard := Heard(sh, r.answer);
      longer, call' := Onward(start, first, longer, heard, call', TokenFetched(r.token.value));
      if r.again.Some? {
        longer, call' := Onward(start, first, longer, heard, call', Arrived(r.again.value));
      }
    }
  }

  /** A handshake with this round: what it leaves shared, and the call that ran it. */
  function Shaken(sh: Shared, r: Round): Shared {
    var sh' := HeardRound(sh.(session := None, started := sh.started + [sh.epoch]), r);
    var ended := sh'.(epoch := sh'.epoch + 1, finished := sh'.finished + 1);
    if GoodInit(Decisive(r)) then ended.(toolsRefresh := true, succeeded := ended.succeeded + 1)
    else if ended.session.None? then ended.(session := sh.session)
    else ended
  }

  function AfterShake(call: Call, seen: nat, r: Round): Call {
    call.(pc := if GoodInit(Decisive(r)) then Sending(Again(seen)) else Done(false),
          all := call.all + ShakePosts(Some(r)), shake := Some(r))
  }

  lemma ThroughReinit(start: Shared, first: Call, trace: seq<Input>, sh: Shared, call: Call, r: Round)
    returns (longer: seq<Input>)
    requires Reached(start, first, trace, sh, call) && call.pc == AwaitReinit(sh.epoch)
    requires Whole(r, call.oauth) && r.sent == None
    ensures Reached(start, first, longer, Shaken(sh, r), AfterShake(call, sh.epoch, r))
  {
    longer := ThroughLock(start, first, trace, sh, call);
    var cleared := sh.(session := None, started := sh.started + [sh.epoch]);
    var job := Init(sh.epoch, sh.session);
    var begun := call.(pc := Sending(job));
    longer := ThroughRound(start, first, longer, cleared, begun, job, r);
    longer := ThroughEnd(start, first, longer, HeardRound(cleared, r), AfterRound(begun, job, r), sh.epoch, sh.session, r);
  }

  /** Into the lock, to the start of a handshake. */
  lemma ThroughLock(start: Shared, first: Call, trace: seq<Input>, sh: Shared, call: Call)
    returns (longer: seq<Input>)
    requires Reached(start, first, trace, sh, call) && call.pc == AwaitReinit(sh.epoch)
    ensures
      Reached(start, first, longer, sh.(session := None, started := sh.started + [sh.epoch]),
              call.(pc := Sending(Init(sh.epoch, sh.session))))
  {
    var call';
    longer, call' := Onward(start, first, trace, sh, call, Silent);
    longer, call' := Onward(start, first, longer, sh, call', Silent);
  }

  /** The notification after a good handshake, the new epoch, and the old session id back after a bad one. */
  lemma ThroughEnd(
      start: Shared, first: Call, trace: seq<Input>, sh: Shared, call: Call, epoch: nat, stale: Option<string>, r: Round)
    returns (longer: seq<Input>)
    requires Reached(start, first, trace, sh, call)
    requires call.pc == if GoodInit(Decisive(r)) then Notifying(epoch, stale) else Finished(false, epoch, stale)
    ensures
      var ended := sh.(epoch := sh.epoch + 1, finished := sh.finished + 1);
      if GoodInit(Decisive(r)) then
        Reached(start, first, longer, ended.(toolsRefresh := true, succeeded := ended.succeeded + 1),
                call.(pc := Sending(Again(epoch)), all := call.all + 1))
      else
        Reached(start, first, longer, ended.(session := sh.session.OrElse(stale)), call.(pc := Done(false)))
  {
    var call';
    longer, call' := Onward(start, first, trace, sh, call, Silent);
    if GoodInit(Decisive(r)) {
      longer, call' := Onward(start, first, longer, sh, call', Silent);
    } else {
      var ended := sh.(epoch := sh.epoch + 1, finished := sh.finished + 1);
      longer, call' := Onward(start, first, longer, ended, call', Silent);
    }
  }

  /** What an undisturbed call with these rounds leaves shared. */
  function CallEnds(sh: Shared, recoverable: bool, first: Round, shake: Round, second: Round): Shared {
    var sh1 := HeardRound(sh, first);
    if !(recoverable && Lost(first)) then sh1
    else if GoodInit(Decisive(shake)) then HeardRound(Shaken(sh1, shake), second)
    else Shaken(sh1, shake)
  }

  /**
   An undisturbed call of the step system, with these rounds: it leaves the same shared state, returns
   what its last answer says, and makes the POSTs of its rounds.
   */
  lemma CallRuns(sh: Shared, recoverable: bool, oauth: bool, first: Round, shake: Round, second: Round)
    returns (trace: seq<Input>, call: Call)
    requires Whole(first, oauth) && Whole(shake, oauth) && Whole(second, oauth)
    requires first.sent == sh.session && shake.sent == None
    requires second.sent == Shaken(HeardRound(sh, first), shake).session
    ensures
      Reached(sh, Call(recoverable, oauth, Begin, 0, 0, None, None, None), trace,
              CallEnds(sh, recoverable, first, shake, second), call)
    ensures call.pc.Done? && call.first == Some(first)
    ensures
      if !(recoverable && Lost(first)) then
        call.shake == None && call.second == None
      else
        call.shake == Some(shake) && call.second == if GoodInit(Decisive(shake)) then Some(second) else None
  {
    var begin := Call(recoverable, oauth, Begin, 0, 0, None, None, None);
    trace, call := Onward(sh, begin, [], sh, begin, Silent);
    trace := ThroughRound(sh, begin, trace, sh, call, First(sh.epoch), first);
    call := AfterRound(call, First(sh.epoch), first);
    FirstRoundEnds(sh, recoverable, oauth, first);
    if recoverable && Lost(first) {
      var sh1 := HeardRound(sh, first);
      trace := ThroughReinit(sh, begin, trace, sh1, call, shake);
      call := AfterShake(call, sh.epoch, shake);
      if GoodInit(Decisive(shake)) {
        trace := ThroughRound(sh, begin, trace, Shaken(sh1, shake), call, Again(sh.epoch), second);
        call := AfterRound(call, Again(sh.epoch), second);
      }
    }
  }

  lemma FirstRoundEnds(sh: Shared, recoverable: bool, oauth: bool, first: Round)
    requires Whole(first, oauth)
    ensures
      var call := AfterRound(Call(recoverable, oauth, Sending(First(sh.epoch)), 0, 0, None, None, None), First(sh.epoch), first);
      && call.first == Some(first) && call.shake == None && call.second == None
      && if recoverable && Lost(first) then call.pc == AwaitReinit(HeardRound(sh, first).epoch) else call.pc.Done?
  {
  }

  class Backend {
    const server: nat -> Answer
    const tokenFound: nat -> bool
    const oauth: bool
    var session: Option<string>
    var epoch: nat
    var toolsRefresh: bool
    var posts: nat
    ghost var history: Shared

    constructor (server: nat -> Answer, tokenFound: nat -> bool, oauth: bool)
      ensures this.server == server && this.tokenFound == tokenFound && this.oauth == oauth
      ensures session == None && epoch == 0 && !toolsRefresh && posts == 0
      ensures View() == Shared(0, None, [], false, [], 0, 0, 0)
    {
      this.server := server;
      this.tokenFound := tokenFound;
      this.oauth := oauth;
      session, epoch, toolsRefresh, posts := None, 0, false, 0;
      history := Shared(0, None, [], false, [], 0, 0, 0);
    }

    /** The fields, beside what the step system counts and records. */
    ghost function View(): Shared
      reads this
    {
      history.(session := session, epoch := epoch, toolsRefresh := toolsRefresh)
    }

    method PostJson() returns (a: Answer)
      modifies this`session, this`posts, this`history
      ensures a == server(old(posts)) && posts == old(posts) + 1
      ensures View() == Heard(old(View()), a)
    {
      a := server(posts);
      posts := posts + 1;
      history := Heard(View(), a);
      if a.Answer? && a.session.Some? {
        session := a.session;
      }
    }

    /** One round: which answer decides, and that a retry never tells of a lost session. */
    method SendRequestInner() returns (v: Verdict)
      modifies this`session, this`posts, this`history
      ensures
        var r := RoundAt(server, tokenFound, oauth, old(session), old(posts));
        && posts == old(posts) + Posts(Some(r)) && session == SessionAfter(old(session), r)
        && (v.Good? <==> GoodAnswer(Decisive(r))) && (v.Good? && v.initialize <==> GoodInit(Decisive(r)))
        && (v == Bad(true) <==> Lost(r))
        && View() == HeardRound(old(View()), r)
    {
      var sent := session;
      var a := PostJson();
      if Unauthorized(a) && oauth {
        if tokenFound(posts - 1) {
          var again := PostJson();
          if Success(again) && again.body.Result? {
            return Good(again.body.initialize);
          }
          return Bad(false);
        }
      }
      if a.NoAnswer? {
        return Bad(false);
      }
      if !Success(a) {
        if a.status == 404 && sent.Some? {
          return Bad(true);
        }
        return Bad(a.body.NotInitialized?);
      }
      if a.body.Result? {
        return Good(a.body.initialize);
      }
      v := Bad(a.body.NotInitialized?);
    }

    /** A round of `initialize`, and the notification only after a good one. */
    method Handshake() returns (ok: bool)
      modifies this`session, this`posts, this`history
      ensures
        var r := RoundAt(server, tokenFound, oauth, old(session), old(posts));
        && (ok <==> GoodInit(Decisive(r)))
        && posts == old(posts) + ShakePosts(Some(r)) && session == SessionAfter(old(session), r)
        && View() == HeardRound(old(View()), r)
    {
      var v := SendRequestInner();
      if v.Bad? || !v.initialize {
        return false;
      }
      posts := posts + 1;
      ok := true;
    }

    /** One handshake per epoch, without a session id: a caller that saw an earlier epoch does nothing. */
    method Reinitialize(seen: nat) returns (ok: bool)
      modifies this`session, this`posts, this`epoch, this`toolsRefresh, this`history
      ensures
        if old(epoch) != seen then
          ok && View() == old(View()) && posts == old(posts)
        else
          var r := RoundAt(server, tokenFound, oauth, None, old(posts));
          && (ok <==> GoodInit(Decisive(r)))
          && epoch == old(epoch) + 1 && posts == old(posts) + ShakePosts(Some(r))
          && toolsRefresh == (old(toolsRefresh) || ok)
          && session == (if !ok && SessionAfter(None, r).None? then old(session) else SessionAfter(None, r))
          && View() == Shaken(old(View()), r)
    {
      if epoch != seen {
        return true;
      }
      var stale := session;
      session := None;
      history := history.(started := history.started + [seen]);
      ok := Handshake();
      epoch := epoch + 1;
      history := history.(finished := history.finished + 1, succeeded := history.succeeded + if ok then 1 else 0);
      if ok {
        toolsRefresh := true;
      } else if session.None? {
        session := stale;
      }
    }

    /**
     Sends a request, recovering once from a lost session: the handshake, and if that is good the same
     request again. `own` counts the POSTs of its own body.
     */
    method SendRequest(recoverable: bool) returns (ok: bool, own: nat)
      modifies this`session, this`posts, this`epoch, this`toolsRefresh, this`history
      ensures
        var first := RoundAt(server, tokenFound, oauth, old(session), old(posts));
        var afterFirst := old(posts) + Posts(Some(first));
        if !(recoverable && Lost(first)) then
          && (ok <==> GoodAnswer(Decisive(first))) && own == Posts(Some(first)) && posts == afterFirst
          && epoch == old(epoch) && toolsRefresh == old(toolsRefresh) && session == SessionAfter(old(session), first)
        else
          var shake := RoundAt(server, tokenFound, oauth, None, afterFirst);
          var afterShake := afterFirst + ShakePosts(Some(shake));
          && epoch == old(epoch) + 1
          && if GoodInit(Decisive(shake)) then
               var second := RoundAt(server, tokenFound, oauth, SessionAfter(None, shake), afterShake);
               && (ok <==> GoodAnswer(Decisive(second)))
               && own == Posts(Some(first)) + Posts(Some(second)) && posts == afterShake + Posts(Some(second))
               && toolsRefresh && session == SessionAfter(SessionAfter(None, shake), second)
             else
               && !ok && own == Posts(Some(first)) && posts == afterShake && toolsRefresh == old(toolsRefresh)
               && session == (if SessionAfter(None, shake).Some? then SessionAfter(None, shake)
                              else SessionAfter(old(session), first))
      ensures 1 <= own <= 3 && old(posts) + own <= posts <= old(posts) + 6
      ensures
        var first := RoundAt(server, tokenFound, oauth, old(session), old(posts));
        var shake := RoundAt(server, tokenFound, oauth, None, old(posts) + Posts(Some(first)));
        var second := RoundAt(server, tokenFound, oauth, SessionAfter(None, shake),
                              old(posts) + Posts(Some(first)) + ShakePosts(Some(shake)));
        View() == CallEnds(old(View()), recoverable, first, shake, second)
    {
      var seen, before := epoch, posts;
      var v := SendRequestInner();
      own := posts - before;
      if v != Bad(true) || !recoverable {
        return v.Good?, own;
      }
      ok := Reinitialize(seen);
      if !ok {
        return;
      }
      before := posts;
      v := SendRequestInner();
      ok, own := v.Good?, own + (posts - before);
    }
  }
}
