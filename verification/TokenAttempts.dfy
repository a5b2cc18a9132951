/**
 What one `get_token` call may send, with other processes free to rewrite the store and to use up
 tokens at any time: at most two refresh requests, the second only after a 400 or 401 and with
 another token that was in the store; and a granted request is what the call returns. A stored token
 that is live rescues the call.
 */
module TokenAttempts {
  import opened Options
  import opened Tokens
  import opened TokenProtocol

  /** The requests that one caller sent, in order. */
  function Own(log: seq<Sent>, c: nat): seq<Sent> {
    if log == [] then []
    else Own(log[..|log| - 1], c) + if log[|log| - 1].caller == c then [log[|log| - 1]] else []
  }

  lemma OwnAppend(log: seq<Sent>, e: Sent, c: nat)
    ensures Own(log + [e], c) == Own(log, c) + if e.caller == c then [e] else []
  {
    assert (log + [e])[..|log|] == log;
  }

  lemma {:induction false} OwnOfUnused(log: seq<Sent>, c: nat)
    requires forall e | e in log :: e.caller != c
    ensures Own(log, c) == []
  {
    if log != [] {
      OwnOfUnused(log[..|log| - 1], c);
    }
  }

  function RefreshOf(store: Option<PersistedToken>): set<string> {
    if store.Some? && store.value.refresh.Some? then {store.value.refresh.value} else {}
  }

  /** Every refresh token that was in the store at some point of a run. */
  function EverStored(cfg: Config, s: State, steps: seq<Step>): set<string>
    requires ValidRun(cfg, s, steps)
    decreases |steps|
  {
    RefreshOf(s.sh.store) + if steps == [] then {} else EverStored(cfg, Next(cfg, s, steps[0]), steps[1..])
  }

  /** `stored` are the refresh tokens that the store has held. */
  predicate AtMostTwo(own: seq<Sent>, stored: set<string>) {
    && |own| <= 2
    && (|own| == 2 ==>
          Rejected(own[0].reply) && own[1].refresh != own[0].refresh && own[1].refresh in stored)
  }

  predicate LastGranted(own: seq<Sent>) {
    own != [] && own[|own| - 1].reply.Granted?
  }

  /** One request so far, refused as such. */
  predicate RejectedOnce(own: seq<Sent>) {
    |own| == 1 && Rejected(own[0].reply)
  }

  /** What a caller has sent by the time it reaches `pc`. */
  predicate Tried(own: seq<Sent>, pc: Pc, stored: set<string>) {
    match pc
    case Identify(refresh, Second) => RejectedOnce(own) && refresh != own[0].refresh && refresh in stored
    case Post(refresh, _, Second) => RejectedOnce(own) && refresh != own[0].refresh && refresh in stored
    case Replied(refresh, reply, First) => |own| == 1 && own[0].refresh == refresh && own[0].reply == reply
    case Replied(refresh, reply, Second) => |own| == 2 && AtMostTwo(own, stored) && own[1].reply == reply
    case LoadStored(rejected) => RejectedOnce(own) && own[0].refresh == rejected
    case InstallStored(token) =>
      RejectedOnce(own) && token.refresh != Some(own[0].refresh) && RefreshOf(Some(token)) <= stored
    case AwaitAcquire => AtMostTwo(own, stored) && !LastGranted(own)
    case Recheck => AtMostTwo(own, stored) && !LastGranted(own)
    case Register => AtMostTwo(own, stored) && !LastGranted(own)
    case RequestGrant(_) => AtMostTwo(own, stored) && !LastGranted(own)
    case GrantReplied(_) => AtMostTwo(own, stored) && !LastGranted(own)
    case Save(token, _) => AtMostTwo(own, stored) && (LastGranted(own) ==> own[|own| - 1].reply.body.access == token.access)
    case Done(outcome) => AtMostTwo(own, stored) && (LastGranted(own) ==> outcome == Token(own[|own| - 1].reply.body.access))
    case _ => own == []
  }

  lemma SectionKeepsTried(cfg: Config, daemon: bool, sh: Shared, pc: Pc, input: Input, own: seq<Sent>, sent: seq<Sent>, stored: set<string>)
    requires Allowed(sh.issuer, pc, input) && Tried(own, pc, stored) && RefreshOf(sh.store) <= stored
    requires if pc.Post? then |sent| == 1 && sent[0].refresh == pc.refresh && sent[0].reply == input.reply else sent == []
    ensures Tried(own + sent, Section(cfg, daemon, sh, pc, input).1, stored)
  {
    if sent == [] {
      assert own + sent == own;
    }
  }

  predicate TriedState(s: State, stored: set<string>) {
    forall c | c in s.callers :: Tried(Own(s.log, c), s.callers[c].pc, stored)
  }

  /** A step adds its request to those of its own caller. */
  lemma OwnAfter(cfg: Config, s: State, c: nat, input: Input, d: nat)
    requires Enabled(cfg, s, Advance(c, input))
    ensures
      Own(Next(cfg, s, Advance(c, input)).log, d)
      == Own(s.log, d) + if d == c then Logged(s, c, s.callers[c].pc, input) else []
  {
    var sent := Logged(s, c, s.callers[c].pc, input);
    if sent != [] {
      OwnAppend(s.log, sent[0], d);
    } else {
      assert s.log + [] == s.log;
    }
    assert Own(s.log, d) + [] == Own(s.log, d);
  }

  lemma AdvanceKeepsTried(cfg: Config, s: State, c: nat, input: Input, stored: set<string>, d: nat)
    requires TriedState(s, stored) && RefreshOf(s.sh.store) <= stored && Enabled(cfg, s, Advance(c, input))
    requires d in s.callers
    ensures
      var s' := Next(cfg, s, Advance(c, input));
      Tried(Own(s'.log, d), s'.callers[d].pc, stored)
  {
    OwnAfter(cfg, s, c, input, d);
    if d == c {
      var pc := s.callers[c].pc;
      SectionKeepsTried(cfg, s.callers[c].daemon, s.sh, pc, input, Own(s.log, c), Logged(s, c, pc, input), stored);
    } else {
      assert Own(s.log, d) + [] == Own(s.log, d);
    }
  }

  lemma NextKeepsTried(cfg: Config, s: State, step: Step, stored: set<string>)
    requires TriedState(s, stored) && RefreshOf(s.sh.store) <= stored && Enabled(cfg, s, step)
    ensures TriedState(Next(cfg, s, step), stored)
  {
    match step
    case Call(c, _) => OwnOfUnused(s.log, c);
    case CallAdopt(c) => OwnOfUnused(s.log, c);
    case Advance(c, input) =>
      var s' := Next(cfg, s, step);
      forall d | d in s'.callers
        ensures Tried(Own(s'.log, d), s'.callers[d].pc, stored)
      {
        AdvanceKeepsTried(cfg, s, c, input, stored, d);
      }
    case _ =>
  }

  lemma {:induction false} RunKeepsTried(cfg: Config, s: State, steps: seq<Step>, stored: set<string>)
    requires ValidRun(cfg, s, steps) && TriedState(s, stored) && EverStored(cfg, s, steps) <= stored
    ensures TriedState(Run(cfg, s, steps), stored)
    decreases |steps|
  {
    if steps != [] {
      NextKeepsTried(cfg, s, steps[0], stored);
      RunKeepsTried(cfg, Next(cfg, s, steps[0]), steps[1..], stored);
    }
  }

  /** What a caller's program counter says about its requests, whatever it is. */
  lemma TriedMeans(own: seq<Sent>, pc: Pc, stored: set<string>)
    requires Tried(own, pc, stored)
    ensures AtMostTwo(own, stored)
    ensures pc.Done? && LastGranted(own) ==> pc.outcome == Token(own[|own| - 1].reply.body.access)
  {
  }

  /** Main result, for every run with any other processes: what call `c` has sent, and what it returns. */
  lemma AtMostTwoRefreshesPerCall(cfg: Config, s: State, steps: seq<Step>, c: nat)
    requires Initial(s) && ValidRun(cfg, s, steps) && c in Run(cfg, s, steps).callers
    ensures
      var s' := Run(cfg, s, steps);
      var own := Own(s'.log, c);
      && |own| <= 2
      && (|own| == 2 ==>
            && Rejected(own[0].reply)
            && own[1].refresh != own[0].refresh
            && own[1].refresh in EverStored(cfg, s, steps))
      && (s'.callers[c].pc.Done? && own != [] && own[|own| - 1].reply.Granted? ==>
            s'.callers[c].pc.outcome == Token(own[|own| - 1].reply.body.access))
  {
    var stored := EverStored(cfg, s, steps);
    RunKeepsTried(cfg, s, steps, stored);
    TriedMeans(Own(Run(cfg, s, steps).log, c), Run(cfg, s, steps).callers[c].pc, stored);
  }

  /** The rejected call gets ready to present a stored token that has expired, under the client it is stored with. */
  lemma RejectionReadiesStored(cfg: Config, daemon: bool, sh: Shared, refresh: string, status: nat, token: PersistedToken)
    requires cfg.hasStore && EndpointKnown(cfg, sh) && Rejected(Refused(status))
    requires sh.store == Some(token) && token.refresh.Some? && token.refresh != Some(refresh)
    requires !Usable(token.expiresAtUnix, sh.now)
    ensures
      var start := Replied(refresh, Refused(status), First);
      var installed := Installed(cfg, sh.cache, token, sh.now);
      && AloneOk(cfg, daemon, sh, start, [Silent, Silent, Silent, Silent])
      && Alone(cfg, daemon, sh, start, [Silent, Silent, Silent, Silent])
         == (sh.(cache := Some(installed)), Post(token.refresh.value, installed.clientId.GetOr(""), Second))
  {
    var installed := Installed(cfg, sh.cache, token, sh.now);
    var sh' := sh.(cache := Some(installed));
    var second := Identify(token.refresh.value, Second);
    AloneFirst(cfg, daemon, sh', second, Silent, sh', Post(token.refresh.value, installed.clientId.GetOr(""), Second), []);
    AloneFirst(cfg, daemon, sh, InstallStored(token), Silent, sh', second, [Silent]);
    AloneFirst(cfg, daemon, sh, LoadStored(refresh), Silent, sh, InstallStored(token), [Silent, Silent]);
    AloneFirst(cfg, daemon, sh, Replied(refresh, Refused(status), First), Silent, sh, LoadStored(refresh),
               [Silent, Silent, Silent]);
  }

  /** A stored token that can still be used is installed and returned. */
  lemma RejectionReturnsStored(cfg: Config, daemon: bool, sh: Shared, refresh: string, status: nat, token: PersistedToken)
    requires cfg.hasStore && Rejected(Refused(status))
    requires sh.store == Some(token) && token.refresh != Some(refresh) && Usable(token.expiresAtUnix, sh.now)
    ensures
      var start := Replied(refresh, Refused(status), First);
      && AloneOk(cfg, daemon, sh, start, [Silent, Silent, Silent])
      && Alone(cfg, daemon, sh, start, [Silent, Silent, Silent])
         == (sh.(cache := Some(Installed(cfg, sh.cache, token, sh.now))), Done(Token(token.access)))
  {
    var sh' := sh.(cache := Some(Installed(cfg, sh.cache, token, sh.now)));
    AloneFirst(cfg, daemon, sh, InstallStored(token), Silent, sh', Done(Token(token.access)), []);
    AloneFirst(cfg, daemon, sh, LoadStored(refresh), Silent, sh, InstallStored(token), [Silent]);
    AloneFirst(cfg, daemon, sh, Replied(refresh, Refused(status), First), Silent, sh, LoadStored(refresh), [Silent, Silent]);
  }

  /** A refresh was rejected, and the store holds a token with another refresh token or none. */
  predicate RejectedBesideStored(cfg: Config, s: State, c: nat, token: PersistedToken) {
    && cfg.hasStore && EndpointKnown(cfg, s.sh) && s.sh.store == Some(token)
    && c in s.callers && s.lock == Some(c)
    && var pc := s.callers[c].pc;
       pc.Replied? && Rejected(pc.reply) && pc.tries.First? && token.refresh != Some(pc.refresh)
  }

  /** What makes a refresh with the stored token succeed. */
  predicate RefreshesWell(s: State, token: PersistedToken, body: TokenBody) {
    && token.refresh.Some? && token.refresh.value in s.sh.issuer.live
    && (body.refresh.Some? ==> body.refresh == token.refresh || body.refresh.value !in s.sh.issuer.issuedTo)
  }

  /** The outside of the rest of the call: nothing if the stored token can be used, else a granted refresh. */
  function Rescue(s: State, token: PersistedToken, body: TokenBody): seq<Input> {
    if Usable(token.expiresAtUnix, s.sh.now) then [Silent, Silent, Silent]
    else [Silent, Silent, Silent, Silent, TokenReply(Granted(body), {}), Silent, Silent]
  }

  lemma ExpiredStoredTokenRescues(cfg: Config, s: State, c: nat, token: PersistedToken, body: TokenBody)
    requires RejectedBesideStored(cfg, s, c, token)
    requires !Usable(token.expiresAtUnix, s.sh.now) && RefreshesWell(s, token, body)
    ensures ValidRun(cfg, s, Solo(c, Rescue(s, token, body)))
    ensures
      var s' := Run(cfg, s, Solo(c, Rescue(s, token, body)));
      && c in s'.callers && s'.callers[c].pc == Done(Token(body.access)) && s'.lock.None?
      && s'.sh.cache.Some? && s'.sh.store.Some?
      && s'.sh.cache.value.access == s'.sh.store.value.access == body.access
      && s'.sh.cache.value.refresh == s'.sh.store.value.refresh == body.refresh.OrElse(token.refresh)
      && s'.sh.cache.value.refresh.value in s'.sh.issuer.live
  {
    var daemon, start := s.callers[c].daemon, s.callers[c].pc;
    var four, reply := [Silent, Silent, Silent, Silent], TokenReply(Granted(body), {});
    RejectionReadiesStored(cfg, daemon, s.sh, start.refresh, start.reply.status, token);
    AloneOneMore(cfg, daemon, s.sh, start, four, reply);
    AloneOneMore(cfg, daemon, s.sh, start, four + [reply], Silent);
    AloneOneMore(cfg, daemon, s.sh, start, four + [reply] + [Silent], Silent);
    assert four + [reply] + [Silent] + [Silent] == Rescue(s, token, body);
    SoloRun(cfg, s, c, Rescue(s, token, body));
  }

  /**
   After a rejected refresh, a different stored token makes the call succeed, in daemon mode and out of
   it: without another request if it can still be used, and otherwise if it is live and its refresh is
   answered well. The token returned is left cached and stored.
   */
  lemma StoredTokenRescues(cfg: Config, s: State, c: nat, token: PersistedToken, body: TokenBody)
    requires RejectedBesideStored(cfg, s, c, token)
    requires Usable(token.expiresAtUnix, s.sh.now) || RefreshesWell(s, token, body)
    ensures ValidRun(cfg, s, Solo(c, Rescue(s, token, body)))
    ensures
      var s' := Run(cfg, s, Solo(c, Rescue(s, token, body)));
      && c in s'.callers && s'.lock.None? && s'.sh.cache.Some? && s'.sh.store.Some?
      && s'.callers[c].pc == Done(Token(s'.sh.cache.value.access))
      && s'.sh.cache.value.access == s'.sh.store.value.access
      && s'.sh.cache.value.refresh == s'.sh.store.value.refresh
      && if Usable(token.expiresAtUnix, s.sh.now) then
           s'.sh.store == s.sh.store && s'.log == s.log
         else
           && s'.sh.store.value.access == body.access
           && s'.sh.store.value.refresh == body.refresh.OrElse(token.refresh)
           && s'.sh.store.value.refresh.value in s'.sh.issuer.live
  {
    if Usable(token.expiresAtUnix, s.sh.now) {
      var pc := s.callers[c].pc;
      RejectionReturnsStored(cfg, s.callers[c].daemon, s.sh, pc.refresh, pc.reply.status, token);
      SoloRun(cfg, s, c, Rescue(s, token, body));
      SilentRunSendsNothing(cfg, s, c, Rescue(s, token, body));
    } else {
      ExpiredStoredTokenRescues(cfg, s, c, token, body);
    }
  }
}
