/**
 A refresh token is only good for the client it was issued to. Over every run, each refresh request
 carries that client's id, as long as a client registered over another client's cached refresh token
 is then granted a refresh token of its own, and other processes store tokens together with their client.
 */
module TokenClients {
  import opened Options
  import opened Tokens
  import opened TokenProtocol
  import opened TokenSafety

  /** A refresh token and the client id kept beside it belong together; the configured id wins. */
  predicate PairOk(cfg: Config, issuer: Issuer, refresh: Option<string>, client: Option<string>) {
    refresh.Some? ==>
      && cfg.clientId.OrElse(client).Some?
      && refresh.value in issuer.issuedTo
      && issuer.issuedTo[refresh.value] == cfg.clientId.OrElse(client).value
  }

  predicate CachePaired(cfg: Config, sh: Shared) {
    PairOk(cfg, sh.issuer, CachedRefresh(sh.cache), CachedClient(sh.cache))
  }

  predicate StorePaired(cfg: Config, issuer: Issuer, store: Option<PersistedToken>) {
    store.Some? ==> PairOk(cfg, issuer, store.value.refresh, store.value.clientId)
  }

  /** A refresh token on its way from the provider to the cache belongs to the cached client. */
  predicate PendingPaired(cfg: Config, sh: Shared, reply: Reply) {
    reply.Granted? ==> PairOk(cfg, sh.issuer, reply.body.refresh, CachedClient(sh.cache))
  }

  predicate BringsRefresh(reply: Reply) {
    reply.Granted? && reply.body.refresh.Some?
  }

  /**
   Between a registration and the answer to its grant the cached refresh token may be another client's:
   the lock owner presents nothing there, and a new refresh token replaces it.
   */
  predicate Paired(cfg: Config, sh: Shared, pc: Pc) {
    && ((pc.RequestGrant? && cfg.clientId.None?) || pc.GrantReplied? || CachePaired(cfg, sh))
    && StorePaired(cfg, sh.issuer, sh.store)
    && match pc
       case Identify(refresh, _) => CachedRefresh(sh.cache) == Some(refresh)
       case Post(refresh, client, _) =>
         CachedRefresh(sh.cache) == Some(refresh) && CurrentClient(cfg, sh.cache) == Some(client)
       case Replied(refresh, reply, _) => CachedRefresh(sh.cache) == Some(refresh) && PendingPaired(cfg, sh, reply)
       case Register => cfg.clientId.None?
       case RequestGrant(client) => CurrentClient(cfg, sh.cache) == Some(client)
       case GrantReplied(reply) => PendingPaired(cfg, sh, reply) && (BringsRefresh(reply) || CachePaired(cfg, sh))
       case Save(token, _) => sh.cache == Some(token)
       case InstallStored(stored) => PairOk(cfg, sh.issuer, stored.refresh, stored.clientId)
       case AdoptInstall(stored) => PairOk(cfg, sh.issuer, stored.refresh, stored.clientId)
       case _ => true
  }

  predicate PairedState(cfg: Config, s: State) {
    && LockOk(s)
    && Paired(cfg, s.sh, HolderPc(s))
    && (forall e | e in s.log :: e.owner == Some(e.client) && (cfg.clientId.Some? ==> e.client == cfg.clientId.value))
  }

  /** The cached refresh token, if any, was issued to this client. */
  predicate CachedFor(sh: Shared, client: string) {
    var refresh := CachedRefresh(sh.cache);
    refresh.Some? ==> refresh.value in sh.issuer.issuedTo && sh.issuer.issuedTo[refresh.value] == client
  }

  /**
   The excluded steps: a registered client gets no refresh token while another client's is cached, and
   another process stores a token without its client.
   */
  predicate Careful(cfg: Config, s: State, step: Step) {
    match step
    case Advance(c, input) =>
      cfg.clientId.None? && c in s.callers && s.callers[c].pc.RequestGrant? && input.TokenReply?
      ==> BringsRefresh(input.reply) || CachedFor(s.sh, s.callers[c].pc.client)
    case OtherProcess(stored, issued, live) =>
      StorePaired(cfg, Issuer(live, issued + s.sh.issuer.issuedTo), stored)
    case _ => true
  }

  predicate CarefulRun(cfg: Config, s: State, steps: seq<Step>)
    requires ValidRun(cfg, s, steps)
    decreases |steps|
  {
    steps == [] || (Careful(cfg, s, steps[0]) && CarefulRun(cfg, Next(cfg, s, steps[0]), steps[1..]))
  }

  lemma SectionKeepsPaired(cfg: Config, daemon: bool, sh: Shared, pc: Pc, input: Input)
    requires Holds(pc) && Allowed(sh.issuer, pc, input) && Paired(cfg, sh, pc)
    requires cfg.clientId.None? && pc.RequestGrant? ==> BringsRefresh(input.reply) || CachedFor(sh, pc.client)
    ensures
      var (sh', pc') := Section(cfg, daemon, sh, pc, input);
      Paired(cfg, sh', if Holds(pc') then pc' else Enter)
  {
  }

  lemma NextKeepsPaired(cfg: Config, s: State, step: Step)
    requires PairedState(cfg, s) && Enabled(cfg, s, step) && Careful(cfg, s, step)
    ensures PairedState(cfg, Next(cfg, s, step))
  {
    NextKeepsLock(cfg, s, step);
    match step
    case Advance(c, input) =>
      AdvanceSeenFromLock(cfg, s, c, input);
      if Holds(s.callers[c].pc) {
        SectionKeepsPaired(cfg, s.callers[c].daemon, s.sh, s.callers[c].pc, input);
      }
    case _ =>
  }

  lemma {:induction false} RunKeepsPaired(cfg: Config, s: State, steps: seq<Step>)
    requires PairedState(cfg, s) && ValidRun(cfg, s, steps) && CarefulRun(cfg, s, steps)
    ensures PairedState(cfg, Run(cfg, s, steps))
    decreases |steps|
  {
    if steps != [] {
      NextKeepsPaired(cfg, s, steps[0]);
      RunKeepsPaired(cfg, Next(cfg, s, steps[0]), steps[1..]);
    }
  }

  /** Main result: every refresh request carries the id of the client its token was issued to. */
  lemma RefreshesKeepTheirClient(cfg: Config, s: State, steps: seq<Step>)
    requires Initial(s) && StorePaired(cfg, s.sh.issuer, s.sh.store)
    requires ValidRun(cfg, s, steps) && CarefulRun(cfg, s, steps)
    ensures
      forall e | e in Run(cfg, s, steps).log ::
        e.owner == Some(e.client) && (cfg.clientId.Some? ==> e.client == cfg.clientId.value)
  {
    RunKeepsPaired(cfg, s, steps);
  }

  /**
   A client registered over the cached entry: once the grant is answered, the cache is paired exactly
   if it held no refresh token, or this client's, or the grant brought one.
   */
  lemma RegistrationKeepsPairingIff(cfg: Config, daemon: bool, sh: Shared, id: string, reply: Reply, revoked: set<string>)
    requires Paired(cfg, sh, Register) && Allowed(sh.issuer, RequestGrant(id), TokenReply(reply, revoked))
    ensures
      var inputs := [Registration(Some(id)), TokenReply(reply, revoked), Silent];
      && AloneOk(cfg, daemon, sh, Register, inputs)
      && (CachePaired(cfg, Alone(cfg, daemon, sh, Register, inputs).0) <==>
            CachedRefresh(sh.cache).None? || CachedClient(sh.cache) == Some(id) || BringsRefresh(reply))
  {
    RegisterAndGrant(cfg, daemon, sh, id, reply, revoked);
  }

  function Renamed(sh: Shared, id: string): Shared {
    sh.(cache := Some(WithClient(sh.cache, id, sh.now)))
  }

  /** The shared data once a newly registered client's grant has been answered, and what comes next. */
  function Granted(cfg: Config, sh: Shared, id: string, reply: Reply, revoked: set<string>): (Shared, Pc) {
    var sh' := Renamed(sh, id).(issuer := IssuerAfterGrant(sh.issuer, id, reply, revoked));
    if reply.Granted? then
      var token := AfterResponse(cfg, sh'.cache, reply.body, sh.now);
      (sh'.(cache := Some(token)), SaveOrDone(cfg, token, reply.body))
    else (sh', Done(Failed(NotGranted)))
  }

  lemma RegisterAndGrant(cfg: Config, daemon: bool, sh: Shared, id: string, reply: Reply, revoked: set<string>)
    requires Allowed(sh.issuer, RequestGrant(id), TokenReply(reply, revoked))
    ensures
      var inputs := [Registration(Some(id)), TokenReply(reply, revoked), Silent];
      && AloneOk(cfg, daemon, sh, Register, inputs)
      && Alone(cfg, daemon, sh, Register, inputs) == Granted(cfg, sh, id, reply, revoked)
  {
    var registered := Renamed(sh, id);
    var answered := registered.(issuer := IssuerAfterGrant(sh.issuer, id, reply, revoked));
    var (sh', pc') := Granted(cfg, sh, id, reply, revoked);
    AloneFirst(cfg, daemon, answered, GrantReplied(reply), Silent, sh', pc', []);
    AloneFirst(cfg, daemon, registered, RequestGrant(id), TokenReply(reply, revoked), answered, GrantReplied(reply), [Silent]);
    AloneFirst(cfg, daemon, sh, Register, Registration(Some(id)), registered, RequestGrant(id),
               [TokenReply(reply, revoked)] + [Silent]);
    assert [Registration(Some(id))] + ([TokenReply(reply, revoked)] + [Silent])
        == [Registration(Some(id)), TokenReply(reply, revoked), Silent];
  }

  // The request sent later: exactly the same condition decides whether it carries the right client id.

  /**
   Caller `c` waits to acquire a new token, with an expired token cached, nobody refreshing and
   only dynamic registration to get a client id from.
   */
  predicate AboutToRegister(cfg: Config, s: State, c: nat) {
    && cfg.clientId.None? && cfg.endpoint && s.sh.discovered == Some(true)
    && s.lock.None? && c in s.callers && s.callers[c].pc == AwaitAcquire
    && (cfg.grant.ClientCredentials? || (cfg.grant.AuthorizationCode? && !s.callers[c].daemon))
    && CachedRefresh(s.sh.cache).Some? && !CacheUsable(s.sh)
  }

  /** The outside of a call that registers as `id` and gets `reply` to its grant. */
  function Registering(cfg: Config, id: string, reply: Reply, revoked: set<string>): seq<Input> {
    [Silent, Silent, Registration(Some(id)), TokenReply(reply, revoked), Silent]
    + if reply.Granted? && cfg.hasStore then [Silent] else []
  }

  /** Where such a call ends. */
  function Registered(cfg: Config, sh: Shared, id: string, reply: Reply, revoked: set<string>): (Shared, Pc) {
    var (sh', pc) := Granted(cfg, sh, id, reply, revoked);
    if pc.Save? then (sh'.(store := Some(Persisted(pc.token, pc.life, sh'.now))), Done(Token(pc.token.access))) else (sh', pc)
  }

  lemma RegistrationRuns(cfg: Config, s: State, c: nat, id: string, reply: Reply, revoked: set<string>)
    requires AboutToRegister(cfg, s, c) && Allowed(s.sh.issuer, RequestGrant(id), TokenReply(reply, revoked))
    ensures
      var inputs := Registering(cfg, id, reply, revoked);
      && AloneOk(cfg, s.callers[c].daemon, s.sh, AwaitAcquire, inputs)
      && Alone(cfg, s.callers[c].daemon, s.sh, AwaitAcquire, inputs) == Registered(cfg, s.sh, id, reply, revoked)
  {
    var daemon, sh := s.callers[c].daemon, s.sh;
    var three := [Registration(Some(id)), TokenReply(reply, revoked), Silent];
    RegisterAndGrant(cfg, daemon, sh, id, reply, revoked);
    AloneFirst(cfg, daemon, sh, Recheck, Silent, sh, Register, three);
    AloneFirst(cfg, daemon, sh, AwaitAcquire, Silent, sh, Recheck, [Silent] + three);
    var five := [Silent, Silent, Registration(Some(id)), TokenReply(reply, revoked), Silent];
    assert [Silent] + ([Silent] + three) == five;
    if reply.Granted? && cfg.hasStore {
      AloneOneMore(cfg, daemon, sh, AwaitAcquire, five, Silent);
    } else {
      assert five + [] == five;
    }
  }

  /**
   Main result on registration: when it is over and the token has expired again, the next refresh
   request is sent as the new client, and that is the token's client if and only if the old token was
   the same client's or the grant brought a new one. A refused grant fails this, and so does a granted
   one without a refresh token.
   */
  lemma RefreshAfterRegistrationIff(
      cfg: Config, s: State, c: nat, d: nat, id: string, reply: Reply, revoked: set<string>, seconds: nat)
    requires AboutToRegister(cfg, s, c) && Unused(s, d) && CachePaired(cfg, s.sh)
    requires Allowed(s.sh.issuer, RequestGrant(id), TokenReply(reply, revoked))
    requires reply.Granted? ==> seconds >= reply.body.expiresIn.GetOr(DEFAULT_LIFE)
    ensures
      var steps := Solo(c, Registering(cfg, id, reply, revoked));
      && ValidRun(cfg, s, steps)
      && var e := NextRefresh(cfg, Next(cfg, Run(cfg, s, steps), Tick(seconds)), d);
         && e.Some? && e.value.client == id
         && (e.value.owner == Some(e.value.client) <==> CachedClient(s.sh.cache) == Some(id) || BringsRefresh(reply))
  {
    var steps := Solo(c, Registering(cfg, id, reply, revoked));
    RegistrationRuns(cfg, s, c, id, reply, revoked);
    SoloRun(cfg, s, c, Registering(cfg, id, reply, revoked));
    NextRefreshIsCachedPair(cfg, Next(cfg, Run(cfg, s, steps), Tick(seconds)), d);
  }

  // ---- how a run gets there ----

  /** A process that starts on an expired stored token, with neither a client id nor a usable token. */
  predicate StaleStart(cfg: Config, s: State) {
    && Initial(s) && cfg.hasStore && cfg.endpoint && cfg.clientId.None?
    && (cfg.grant.ClientCredentials? || cfg.grant.AuthorizationCode?)
    && StoredRefresh(s.sh.store).Some? && !Usable(s.sh.store.value.expiresAtUnix, s.sh.now)
  }

  /** The outside of a call whose refresh breaks. */
  const BROKEN_REFRESH := [Silent, Silent, Silent, Silent, TokenReply(Broken, {}), Silent]

  lemma BrokenRefreshAsksForGrant(cfg: Config, sh: Shared)
    requires EndpointKnown(cfg, sh) && CachedRefresh(sh.cache).Some? && !CacheUsable(sh)
    ensures
      AloneOk(cfg, false, sh, Enter, BROKEN_REFRESH) && Alone(cfg, false, sh, Enter, BROKEN_REFRESH) == (sh, AwaitAcquire)
  {
    var four := [Silent, Silent, Silent, Silent];
    CallReadiesCachedPair(cfg, false, sh);
    AloneOneMore(cfg, false, sh, Enter, four, TokenReply(Broken, {}));
    AloneOneMore(cfg, false, sh, Enter, four + [TokenReply(Broken, {})], Silent);
    assert four + [TokenReply(Broken, {})] + [Silent] == BROKEN_REFRESH;
  }

  /** Adoption of the stored token. */
  function AdoptSteps(): seq<Step> {
    [Discover(true)] + ([CallAdopt(0)] + Solo(0, [Silent, Silent, Silent, Silent]))
  }

  lemma StaleAdoption(cfg: Config, s: State)
    requires StaleStart(cfg, s)
    ensures ValidRun(cfg, s, AdoptSteps())
    ensures
      var s' := Run(cfg, s, AdoptSteps());
      && s'.sh == s.sh.(discovered := Some(true), cache := Some(Installed(cfg, None, s.sh.store.value, s.sh.now)))
      && s'.lock.None? && Unused(s', 1) && Unused(s', 2)
  {
    var adopt := Solo(0, [Silent, Silent, Silent, Silent]);
    var s1 := Next(cfg, s, Discover(true));
    var s2 := Next(cfg, s1, CallAdopt(0));
    AdoptInstalls(cfg, s2.sh);
    SoloRun(cfg, s2, 0, [Silent, Silent, Silent, Silent]);
    RunFirst(cfg, s1, CallAdopt(0), adopt);
    RunFirst(cfg, s, Discover(true), [CallAdopt(0)] + adopt);
  }

  /** Then an interactive call whose refresh breaks. */
  function BreakSteps(): seq<Step> {
    [Call(1, false)] + Solo(1, BROKEN_REFRESH)
  }

  lemma BreakLeadsToRegistration(cfg: Config, s: State)
    requires cfg.endpoint && CachedRefresh(s.sh.cache).Some? && !CacheUsable(s.sh)
    requires s.lock.None? && Unused(s, 1) && Unused(s, 2)
    ensures ValidRun(cfg, s, BreakSteps())
    ensures
      var s' := Run(cfg, s, BreakSteps());
      && s'.sh == s.sh && s'.lock.None? && 1 in s'.callers && s'.callers[1] == Caller(false, AwaitAcquire)
      && Unused(s', 2)
  {
    var called := Next(cfg, s, Call(1, false));
    BrokenRefreshAsksForGrant(cfg, called.sh);
    SoloRun(cfg, called, 1, BROKEN_REFRESH);
    RunFirst(cfg, s, Call(1, false), Solo(1, BROKEN_REFRESH));
  }

  /** Every such start has a run that is about to register over the stored token, still paired. */
  lemma RegistrationIsReached(cfg: Config, s: State)
    requires StaleStart(cfg, s) && StorePaired(cfg, s.sh.issuer, s.sh.store)
    ensures ValidRun(cfg, s, AdoptSteps() + BreakSteps())
    ensures
      var s' := Run(cfg, s, AdoptSteps() + BreakSteps());
      && AboutToRegister(cfg, s', 1) && Unused(s', 2) && CachePaired(cfg, s'.sh)
      && CachedClient(s'.sh.cache) == s.sh.store.value.clientId
  {
    StaleAdoption(cfg, s);
    BreakLeadsToRegistration(cfg, Run(cfg, s, AdoptSteps()));
    RunOn(cfg, s, AdoptSteps(), BreakSteps());
  }
}
