/**
 Any number of `get_token` calls without a token and without a refresh token share a single grant:
 whatever the interleaving, one grant request is sent and every call returns the access token it
 brought. A call made in daemon mode can miss it, and exactly then.
 */
module GrantFlight {
  import opened Options
  import opened Tokens
  import opened TokenProtocol

  /** A grant can be asked for: by the configured client, or by one that can be registered. */
  predicate CanAsk(cfg: Config, sh: Shared) {
    EndpointKnown(cfg, sh) && !cfg.grant.UnsupportedGrant? && (cfg.clientId.Some? || sh.discovered == Some(true))
  }

  /** No usable token and nothing to refresh, the lock free, and calls that have just been made. */
  predicate TokenlessStart(cfg: Config, s: State) {
    && CanAsk(cfg, s.sh) && !CacheUsable(s.sh) && CachedRefresh(s.sh.cache).None?
    && s.lock.None? && s.log == [] && s.grants == []
    && forall c | c in s.callers :: s.callers[c].pc.Enter?
  }

  /**
   When calls in daemon mode are served like any other: they cannot ask a user for consent, and they
   give up on a cached entry without a refresh token, which registering a client leaves behind.
   */
  predicate ServesDaemons(cfg: Config, start: Shared) {
    start.cache.None? && cfg.clientId.Some? && cfg.grant.ClientCredentials?
  }

  /** Time passes, calls are made and run, in daemon mode only if `daemons`, and registering a client works. */
  predicate OnlySuchCalls(cfg: Config, daemons: bool, s: State, step: Step) {
    match step
    case Tick(_) => true
    case Call(_, daemon) => daemon ==> daemons
    case Advance(c, input) => c in s.callers && s.callers[c].pc.Register? && input.Registration? ==> input.client.Some?
    case _ => false
  }

  /** The grant was given if it was answered, and its token, once cached, has more than 30 s left. */
  predicate Fortunate(s: State) {
    && (forall e | e in s.grants :: e.reply.Granted?)
    && (s.grants != [] && !HolderPc(s).GrantReplied? ==> CacheUsable(s.sh))
  }

  predicate FortunateRun(cfg: Config, daemons: bool, s: State, steps: seq<Step>)
    requires ValidRun(cfg, s, steps)
    decreases |steps|
  {
    && Fortunate(s)
    && (steps != [] ==>
          OnlySuchCalls(cfg, daemons, s, steps[0]) && FortunateRun(cfg, daemons, Next(cfg, s, steps[0]), steps[1..]))
  }

  /** Nothing asked yet. */
  predicate Before(cfg: Config, daemons: bool, s: State) {
    && s.grants == [] && !CacheUsable(s.sh) && CachedRefresh(s.sh.cache).None?
    && (daemons ==> s.sh.cache.None?)
    && forall c | c in s.callers ::
         var pc := s.callers[c].pc;
         pc.Enter? || pc.AwaitAcquire? || pc.Recheck? || (pc.Register? && cfg.clientId.None?) || pc.RequestGrant?
  }

  /** One request is being answered. */
  predicate During(cfg: Config, daemons: bool, s: State) {
    && |s.grants| == 1 && HolderPc(s).GrantReplied? && HolderPc(s).reply == s.grants[0].reply
    && !CacheUsable(s.sh) && CachedRefresh(s.sh.cache).None?
    && (daemons ==> s.sh.cache.None?)
    && forall c | c in s.callers ::
         s.callers[c].pc.Enter? || s.callers[c].pc.AwaitAcquire? || s.lock == Some(c)
  }

  /** The new token is cached; every call that is over returned it. */
  predicate After(s: State) {
    && |s.grants| == 1 && s.grants[0].reply.Granted?
    && s.sh.cache.Some? && s.sh.cache.value.access == s.grants[0].reply.body.access
    && forall c | c in s.callers ::
         var pc := s.callers[c].pc;
         || pc.Enter? || pc.AwaitAcquire? || pc.Recheck?
         || (pc.Save? && pc.token.access == s.grants[0].reply.body.access)
         || pc == Done(Token(s.grants[0].reply.body.access))
  }

  predicate Phase(cfg: Config, daemons: bool, s: State) {
    && LockOk(s) && CanAsk(cfg, s.sh) && s.log == []
    && (daemons ==> cfg.clientId.Some? && cfg.grant.ClientCredentials?)
    && (forall c | c in s.callers :: s.callers[c].daemon ==> daemons)
    && (Before(cfg, daemons, s) || During(cfg, daemons, s) || After(s))
  }

  /** The lock owner registers and asks; everybody else waits for the lock. */
  lemma AdvanceBefore(cfg: Config, daemons: bool, s: State, c: nat, input: Input)
    requires Phase(cfg, daemons, s) && Before(cfg, daemons, s) && Enabled(cfg, s, Advance(c, input))
    requires OnlySuchCalls(cfg, daemons, s, Advance(c, input))
    ensures
      var s' := Next(cfg, s, Advance(c, input));
      s'.log == [] && if s.callers[c].pc.RequestGrant? then During(cfg, daemons, s') else Before(cfg, daemons, s')
  {
    AdvanceSeenFromLock(cfg, s, c, input);
  }

  lemma AdvanceDuring(cfg: Config, daemons: bool, s: State, c: nat, input: Input)
    requires Phase(cfg, daemons, s) && During(cfg, daemons, s) && Fortunate(s) && Enabled(cfg, s, Advance(c, input))
    ensures
      var s' := Next(cfg, s, Advance(c, input));
      s'.log == [] && if s.lock == Some(c) then After(s') else During(cfg, daemons, s')
  {
    AdvanceSeenFromLock(cfg, s, c, input);
  }

  lemma AdvanceAfter(cfg: Config, daemons: bool, s: State, c: nat, input: Input)
    requires Phase(cfg, daemons, s) && After(s) && Fortunate(s) && Enabled(cfg, s, Advance(c, input))
    ensures
      var s' := Next(cfg, s, Advance(c, input));
      s'.log == [] && After(s')
  {
    AdvanceSeenFromLock(cfg, s, c, input);
  }

  lemma NextKeepsPhase(cfg: Config, daemons: bool, s: State, step: Step)
    requires Phase(cfg, daemons, s) && Fortunate(s) && Enabled(cfg, s, step) && OnlySuchCalls(cfg, daemons, s, step)
    ensures Phase(cfg, daemons, Next(cfg, s, step))
  {
    NextKeepsLock(cfg, s, step);
    match step
    case Advance(c, input) =>
      if Before(cfg, daemons, s) {
        AdvanceBefore(cfg, daemons, s, c, input);
      } else if During(cfg, daemons, s) {
        AdvanceDuring(cfg, daemons, s, c, input);
      } else {
        AdvanceAfter(cfg, daemons, s, c, input);
      }
    case _ =>
  }

  lemma {:induction false} RunKeepsPhase(cfg: Config, daemons: bool, s: State, steps: seq<Step>)
    requires Phase(cfg, daemons, s) && ValidRun(cfg, s, steps) && FortunateRun(cfg, daemons, s, steps)
    ensures Phase(cfg, daemons, Run(cfg, s, steps))
    decreases |steps|
  {
    if steps != [] {
      NextKeepsPhase(cfg, daemons, s, steps[0]);
      RunKeepsPhase(cfg, daemons, Next(cfg, s, steps[0]), steps[1..]);
    }
  }

  /** Every finished call returned the access token of the one grant. */
  predicate AllServed(s: State) {
    forall c | c in s.callers && s.callers[c].pc.Done? ::
      && |s.grants| == 1 && s.grants[0].reply.Granted?
      && s.callers[c].pc.outcome == Token(s.grants[0].reply.body.access)
  }

  /**
   Main result: never a refresh request, never more than one grant request, and every finished call
   returned its access token; so once any call is over, exactly one was sent.
   */
  lemma OneGrantServesAll(cfg: Config, daemons: bool, s: State, steps: seq<Step>)
    requires TokenlessStart(cfg, s) && (daemons ==> ServesDaemons(cfg, s.sh))
    requires forall c | c in s.callers :: s.callers[c].daemon ==> daemons
    requires ValidRun(cfg, s, steps) && FortunateRun(cfg, daemons, s, steps)
    ensures
      var s' := Run(cfg, s, steps);
      && s'.log == [] && |s'.grants| <= 1
      && forall c | c in s'.callers && s'.callers[c].pc.Done? ::
           && |s'.grants| == 1 && s'.grants[0].reply.Granted?
           && s'.callers[c].pc.outcome == Token(s'.grants[0].reply.body.access)
  {
    assert Before(cfg, daemons, s);
    RunKeepsPhase(cfg, daemons, s, steps);
  }

  // ---- daemon mode ----

  /** A run that is as fortunate as can be, and ends with a call in daemon mode that failed. */
  ghost predicate LetsDown(cfg: Config, s: State, steps: seq<Step>, d: nat) {
    && ValidRun(cfg, s, steps) && FortunateRun(cfg, true, s, steps)
    && var s' := Run(cfg, s, steps);
       d in s'.callers && s'.callers[d].daemon && s'.callers[d].pc.Done? && s'.callers[d].pc.outcome.Failed? && s'.grants == []
  }

  lemma LetsDownFirst(cfg: Config, s: State, step: Step, rest: seq<Step>, d: nat)
    requires Enabled(cfg, s, step) && OnlySuchCalls(cfg, true, s, step) && s.grants == []
    requires LetsDown(cfg, Next(cfg, s, step), rest, d)
    ensures LetsDown(cfg, s, [step] + rest, d)
  {
    RunFirst(cfg, s, step, rest);
    assert ([step] + rest)[1..] == rest;
  }

  /** On a cached entry without a refresh token, the call gives up at once. */
  lemma EntryLetsDown(cfg: Config, s: State, d: nat)
    requires s.sh.cache.Some? && !CacheUsable(s.sh) && CachedRefresh(s.sh.cache).None?
    requires s.grants == [] && Unused(s, d)
    ensures LetsDown(cfg, s, [Call(d, true)] + ([Advance(d, Silent)] + []), d)
  {
    var s1 := Next(cfg, s, Call(d, true));
    var s2 := Next(cfg, s1, Advance(d, Silent));
    assert LetsDown(cfg, s2, [], d);
    LetsDownFirst(cfg, s1, Advance(d, Silent), [], d);
    LetsDownFirst(cfg, s, Call(d, true), [Advance(d, Silent)] + [], d);
  }

  /** A grant that needs a user is not asked for. */
  lemma ConsentLetsDown(cfg: Config, s: State, d: nat)
    requires s.sh.cache.None? && cfg.grant.AuthorizationCode? && s.lock.None? && s.grants == [] && Unused(s, d)
    ensures
      var go := Advance(d, Silent);
      LetsDown(cfg, s, [Call(d, true)] + ([go] + ([go] + ([go] + []))), d)
  {
    var go := Advance(d, Silent);
    var s1 := Next(cfg, s, Call(d, true));
    var s2 := Next(cfg, s1, go);
    var s3 := Next(cfg, s2, go);
    var s4 := Next(cfg, s3, go);
    assert LetsDown(cfg, s4, [], d);
    LetsDownFirst(cfg, s3, go, [], d);
    LetsDownFirst(cfg, s2, go, [go] + [], d);
    LetsDownFirst(cfg, s1, go, [go] + ([go] + []), d);
    LetsDownFirst(cfg, s, Call(d, true), [go] + ([go] + ([go] + [])), d);
  }

  /** A call beside it that has come to the point of registering a client does so. */
  lemma RegistrarLetsDown(cfg: Config, s: State, c: nat, d: nat)
    requires c in s.callers && s.callers[c].pc.Register? && s.sh.cache.None? && s.grants == []
    requires Unused(s, d) && s.lock == Some(c)
    ensures
      LetsDown(cfg, s, [Advance(c, Registration(Some("")))] + ([Call(d, true)] + ([Advance(d, Silent)] + [])), d)
  {
    var register := Advance(c, Registration(Some("")));
    EntryLetsDown(cfg, Next(cfg, s, register), d);
    LetsDownFirst(cfg, s, register, [Call(d, true)] + ([Advance(d, Silent)] + []), d);
  }

  /** Beside a call that has registered a client and not yet been answered, the call finds such an entry. */
  lemma RegistrationLetsDown(cfg: Config, s: State, c: nat, d: nat)
    requires TokenlessStart(cfg, s) && s.callers == map[] && c != d
    requires s.sh.cache.None? && cfg.clientId.None?
    ensures
      var go, down := Advance(c, Silent), [Call(d, true)] + ([Advance(d, Silent)] + []);
      LetsDown(cfg, s, [Call(c, false)] + ([go] + ([go] + ([go] + ([Advance(c, Registration(Some("")))] + down)))), d)
  {
    var go := Advance(c, Silent);
    var down := [Advance(c, Registration(Some("")))] + ([Call(d, true)] + ([Advance(d, Silent)] + []));
    var s1 := Next(cfg, s, Call(c, false));
    var s2 := Next(cfg, s1, go);
    var s3 := Next(cfg, s2, go);
    var s4 := Next(cfg, s3, go);
    RegistrarLetsDown(cfg, s4, c, d);
    LetsDownFirst(cfg, s3, go, down, d);
    LetsDownFirst(cfg, s2, go, [go] + down, d);
    LetsDownFirst(cfg, s1, go, [go] + ([go] + down), d);
    LetsDownFirst(cfg, s, Call(c, false), [go] + ([go] + ([go] + down)), d);
  }

  lemma DaemonIsLetDown(cfg: Config, s: State) returns (steps: seq<Step>)
    requires TokenlessStart(cfg, s) && s.callers == map[] && !ServesDaemons(cfg, s.sh)
    ensures LetsDown(cfg, s, steps, 1)
  {
    var go := Advance(1, Silent);
    if s.sh.cache.Some? {
      EntryLetsDown(cfg, s, 1);
      steps := [Call(1, true)] + ([go] + []);
    } else if cfg.grant.AuthorizationCode? {
      ConsentLetsDown(cfg, s, 1);
      steps := [Call(1, true)] + ([go] + ([go] + ([go] + [])));
    } else {
      RegistrationLetsDown(cfg, s, 0, 1);
      var on, down := Advance(0, Silent), [Call(1, true)] + ([go] + []);
      steps := [Call(0, false)] + ([on] + ([on] + ([on] + ([Advance(0, Registration(Some("")))] + down))));
    }
  }

  ghost predicate DaemonsAreServed(cfg: Config, s: State) {
    forall steps | ValidRun(cfg, s, steps) && FortunateRun(cfg, true, s, steps) :: AllServed(Run(cfg, s, steps))
  }

  /**
   Calls in daemon mode are all served, in every such run, if and only if the cache starts empty, the
   client id is configured and the grant needs no user.
   */
  lemma DaemonsAreServedIff(cfg: Config, s: State)
    requires TokenlessStart(cfg, s) && s.callers == map[]
    ensures DaemonsAreServed(cfg, s) <==> ServesDaemons(cfg, s.sh)
  {
    if ServesDaemons(cfg, s.sh) {
      forall steps | ValidRun(cfg, s, steps) && FortunateRun(cfg, true, s, steps)
        ensures AllServed(Run(cfg, s, steps))
      {
        OneGrantServesAll(cfg, true, s, steps);
      }
    } else {
      var steps := DaemonIsLetDown(cfg, s);
      assert !AllServed(Run(cfg, s, steps));
    }
  }
}
