/**
 Any number of `get_token` calls on one expired token share a single refresh: whatever the
 interleaving, one request is sent and every call returns the access token it brought.
 */
module SingleFlight {
  import opened Options
  import opened Tokens
  import opened TokenProtocol

  /** An expired cached token with a refresh token, the lock free, and calls that have just been made. */
  predicate ExpiredStart(cfg: Config, s: State) {
    && s.sh.cache.Some? && s.sh.cache.value.refresh.Some? && !CacheUsable(s.sh)
    && EndpointKnown(cfg, s.sh)
    && s.lock.None? && s.log == []
    && forall c | c in s.callers :: s.callers[c].pc.Enter?
  }

  /** Time passes and `get_token` calls are made and run; nothing else happens. */
  predicate OnlyGetToken(step: Step) {
    step.Tick? || step.Call? || step.Advance?
  }

  /** The refresh succeeded if it was answered, and its token, once cached, has more than 30 s left. */
  predicate Fortunate(s: State) {
    && (forall e | e in s.log :: e.reply.Granted?)
    && (s.log != [] && !HolderPc(s).Replied? ==> CacheUsable(s.sh))
  }

  predicate FortunateRun(cfg: Config, s: State, steps: seq<Step>)
    requires ValidRun(cfg, s, steps)
    decreases |steps|
  {
    && Fortunate(s)
    && (steps != [] ==> OnlyGetToken(steps[0]) && FortunateRun(cfg, Next(cfg, s, steps[0]), steps[1..]))
  }

  /** Nothing sent yet: the token is still the expired one. */
  predicate Before(cfg: Config, s: State) {
    && s.log == []
    && s.sh.cache.Some? && s.sh.cache.value.refresh.Some? && !CacheUsable(s.sh)
    && forall c | c in s.callers ::
         var pc := s.callers[c].pc;
         pc.Enter? || pc.AwaitRefresh? || pc.Reread? || (pc.Identify? && pc.tries.First?) || (pc.Post? && pc.tries.First?)
  }

  /** One request is being answered. */
  predicate During(s: State) {
    && |s.log| == 1 && HolderPc(s).Replied? && HolderPc(s).reply == s.log[0].reply
    && s.sh.cache.Some? && s.sh.cache.value.refresh.Some? && !CacheUsable(s.sh)
    && forall c | c in s.callers ::
         s.callers[c].pc.Enter? || s.callers[c].pc.AwaitRefresh? || s.lock == Some(c)
  }

  /** The new token is cached; every call that is over returned it. */
  predicate After(s: State) {
    && |s.log| == 1 && s.log[0].reply.Granted?
    && s.sh.cache.Some? && s.sh.cache.value.access == s.log[0].reply.body.access
    && forall c | c in s.callers ::
         var pc := s.callers[c].pc;
         || pc.Enter? || pc.AwaitRefresh? || pc.Reread?
         || (pc.Save? && pc.token.access == s.log[0].reply.body.access)
         || pc == Done(Token(s.log[0].reply.body.access))
  }

  predicate Phase(cfg: Config, s: State) {
    LockOk(s) && EndpointKnown(cfg, s.sh) && (Before(cfg, s) || During(s) || After(s))
  }

  lemma AdvanceBefore(cfg: Config, s: State, c: nat, input: Input)
    requires Phase(cfg, s) && Before(cfg, s) && Enabled(cfg, s, Advance(c, input))
    requires Fortunate(Next(cfg, s, Advance(c, input)))
    ensures
      var s' := Next(cfg, s, Advance(c, input));
      if s.callers[c].pc.Post? then During(s') else Before(cfg, s')
  {
    AdvanceSeenFromLock(cfg, s, c, input);
  }

  lemma AdvanceDuring(cfg: Config, s: State, c: nat, input: Input)
    requires Phase(cfg, s) && During(s) && Fortunate(s) && Enabled(cfg, s, Advance(c, input))
    requires Fortunate(Next(cfg, s, Advance(c, input)))
    ensures
      var s' := Next(cfg, s, Advance(c, input));
      if s.lock == Some(c) then After(s') else During(s')
  {
    AdvanceSeenFromLock(cfg, s, c, input);
  }

  lemma AdvanceAfter(cfg: Config, s: State, c: nat, input: Input)
    requires Phase(cfg, s) && After(s) && Fortunate(s) && Enabled(cfg, s, Advance(c, input))
    requires Fortunate(Next(cfg, s, Advance(c, input)))
    ensures After(Next(cfg, s, Advance(c, input)))
  {
    AdvanceSeenFromLock(cfg, s, c, input);
  }

  lemma NextKeepsPhase(cfg: Config, s: State, step: Step)
    requires Phase(cfg, s) && Fortunate(s) && Enabled(cfg, s, step) && OnlyGetToken(step)
    requires Fortunate(Next(cfg, s, step))
    ensures Phase(cfg, Next(cfg, s, step))
  {
    NextKeepsLock(cfg, s, step);
    match step
    case Advance(c, input) =>
      if Before(cfg, s) {
        AdvanceBefore(cfg, s, c, input);
      } else if During(s) {
        AdvanceDuring(cfg, s, c, input);
      } else {
        AdvanceAfter(cfg, s, c, input);
      }
    case _ =>
  }

  lemma {:induction false} RunKeepsPhase(cfg: Config, s: State, steps: seq<Step>)
    requires Phase(cfg, s) && ValidRun(cfg, s, steps) && FortunateRun(cfg, s, steps)
    ensures Phase(cfg, Run(cfg, s, steps))
    decreases |steps|
  {
    if steps != [] {
      var s' := Next(cfg, s, steps[0]);
      assert FortunateRun(cfg, s', steps[1..]);
      NextKeepsPhase(cfg, s, steps[0]);
      RunKeepsPhase(cfg, s', steps[1..]);
    }
  }

  /**
   Main result: never more than one request, and every finished call returned its access token; so
   once any call is over, exactly one request was sent.
   */
  lemma OneRefreshServesAll(cfg: Config, s: State, steps: seq<Step>)
    requires ExpiredStart(cfg, s) && ValidRun(cfg, s, steps) && FortunateRun(cfg, s, steps)
    ensures
      var s' := Run(cfg, s, steps);
      && |s'.log| <= 1
      && forall c | c in s'.callers && s'.callers[c].pc.Done? ::
           |s'.log| == 1 && s'.log[0].reply.Granted? && s'.callers[c].pc.outcome == Token(s'.log[0].reply.body.access)
  {
    assert Before(cfg, s);
    RunKeepsPhase(cfg, s, steps);
  }
}
