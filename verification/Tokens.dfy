/**
 OAuth2 tokens of one HTTP backend: the cached and the persisted form, the token endpoint, and
 the sections of `OAuth2TokenManager` that run without interruption.

 A call of `get_token` or `adopt_persisted` is cut at its await points. Each piece is one
 `Section`: it starts at a program counter, reads and writes the shared state, and ends at the
 next program counter. Time is counted in seconds on one clock.
 */
module Tokens {
  import opened Options

  const MARGIN := 30
  const DEFAULT_LIFE := 3600

  datatype GrantType = ClientCredentials | AuthorizationCode | UnsupportedGrant

  /** `endpoint` says whether a non-empty token endpoint is configured. */
  datatype Config = Config(clientId: Option<string>, endpoint: bool, grant: GrantType, hasStore: bool)

  datatype TokenCache =
    TokenCache(access: string, refresh: Option<string>, clientId: Option<string>, expiresAt: nat)

  datatype PersistedToken =
    PersistedToken(access: string, refresh: Option<string>, clientId: Option<string>, expiresAtUnix: nat)

  /** The fields of a token response; `access_token` is present, the others may be absent. */
  datatype TokenBody = TokenBody(access: string, refresh: Option<string>, expiresIn: Option<nat>)

  /**
   What a request to the token endpoint comes to. `Broken` is a transport error, a body that does
   not parse or a success without `access_token`; `Refused` is any non-success status.
   */
  datatype Reply = Granted(body: TokenBody) | Refused(status: nat) | Broken

  predicate Rejected(reply: Reply) {
    reply.Refused? && (reply.status == 400 || reply.status == 401)
  }

  /** The provider: refresh tokens it accepts now, and the client each one was ever issued to. */
  datatype Issuer = Issuer(live: set<string>, issuedTo: map<string, string>)

  datatype Shared = Shared(
    now: nat,
    discovered: Option<bool>,  // metadata found by a 401, and whether it names a registration endpoint
    cache: Option<TokenCache>,
    store: Option<PersistedToken>,
    issuer: Issuer)

  predicate Usable(expiresAt: nat, now: nat) {
    expiresAt > now + MARGIN
  }

  predicate CacheUsable(sh: Shared) {
    sh.cache.Some? && Usable(sh.cache.value.expiresAt, sh.now)
  }

  function CachedClient(cache: Option<TokenCache>): Option<string> {
    if cache.Some? then cache.value.clientId else None
  }

  function CachedRefresh(cache: Option<TokenCache>): Option<string> {
    if cache.Some? then cache.value.refresh else None
  }

  /** `current_client_id`: the configured id wins over the cached one. */
  function CurrentClient(cfg: Config, cache: Option<TokenCache>): Option<string> {
    cfg.clientId.OrElse(CachedClient(cache))
  }

  /** `install_persisted`. */
  function Installed(cfg: Config, cache: Option<TokenCache>, p: PersistedToken, now: nat): TokenCache {
    TokenCache(p.access, p.refresh,
               cfg.clientId.OrElse(p.clientId).OrElse(CachedClient(cache)),
               if p.expiresAtUnix > now then p.expiresAtUnix else now)
  }

  /** `set_dynamic_client_id`. */
  function WithClient(cache: Option<TokenCache>, id: string, now: nat): TokenCache {
    if cache.Some? then cache.value.(clientId := Some(id)) else TokenCache("", None, Some(id), now)
  }

  /** The cache part of `cache_token_response`. */
  function AfterResponse(cfg: Config, cache: Option<TokenCache>, body: TokenBody, now: nat): TokenCache {
    TokenCache(body.access, body.refresh.OrElse(CachedRefresh(cache)), CurrentClient(cfg, cache),
               now + body.expiresIn.GetOr(DEFAULT_LIFE))
  }

  /** `save_token`. */
  function Persisted(token: TokenCache, life: nat, now: nat): PersistedToken {
    PersistedToken(token.access, token.refresh, token.clientId, now + life)
  }

  function IssuerAfterRefresh(issuer: Issuer, refresh: string, client: string, reply: Reply): Issuer {
    if reply.Granted? && reply.body.refresh.Some? then
      var handed := reply.body.refresh.value;
      Issuer(issuer.live - {refresh} + {handed},
             if handed in issuer.issuedTo then issuer.issuedTo else issuer.issuedTo[handed := client])
    else issuer
  }

  function IssuerAfterGrant(issuer: Issuer, client: string, reply: Reply, revoked: set<string>): Issuer {
    if reply.Granted? && reply.body.refresh.Some? then
      var handed := reply.body.refresh.value;
      Issuer(issuer.live - revoked + {handed}, issuer.issuedTo[handed := client])
    else issuer
  }

  // ---- the pieces of a call ----

  datatype Tries = First | Second

  /** The errors of `get_token`. */
  datatype Why =
    | NoRefreshToken  // expired, in daemon mode, and nothing to refresh it with
    | NotRefreshed    // in daemon mode, the refresh gave no token
    | CannotAsk       // no endpoint, grant or client id to ask with
    | NotRegistered   // no client could be registered
    | NotGranted      // the grant gave no token

  datatype Outcome = Token(access: string) | Failed(why: Why) | Adopted(token: Option<string>)

  datatype Pc =
    | Enter
    | AwaitRefresh
    | Reread
    | Identify(refresh: string, tries: Tries)
    | Post(refresh: string, client: string, tries: Tries)
    | Replied(refresh: string, reply: Reply, tries: Tries)
    | LoadStored(rejected: string)
    | InstallStored(stored: PersistedToken)
    | AwaitAcquire
    | Recheck
    | Register
    | RequestGrant(client: string)
    | GrantReplied(reply: Reply)
    | Save(token: TokenCache, life: nat)
    | AdoptEnter
    | AdoptCheck
    | AdoptLoad
    | AdoptInstall(stored: PersistedToken)
    | Done(outcome: Outcome)

  /** Program counters at which the caller owns the refresh lock. */
  predicate Holds(pc: Pc) {
    !pc.Enter? && !pc.AwaitRefresh? && !pc.AwaitAcquire? && !pc.AdoptEnter? && !pc.Done?
  }

  /** What the outside world supplies to a section. */
  datatype Input =
    | Silent
    | TokenReply(reply: Reply, revoked: set<string>)
    | Registration(client: Option<string>)

  /**
   The provider's rules: a refresh is granted only for a live token, which is retired when the
   response carries another one; tokens it hands out are new (a refresh may also repeat the one
   presented).
   */
  predicate Allowed(issuer: Issuer, pc: Pc, input: Input) {
    match pc
    case Post(refresh, _, _) =>
      && input.TokenReply?
      && (input.reply.Granted? ==>
            && refresh in issuer.live
            && (input.reply.body.refresh.Some? ==>
                  var handed := input.reply.body.refresh.value;
                  handed == refresh || handed !in issuer.issuedTo))
    case RequestGrant(_) =>
      && input.TokenReply?
      && (input.reply.Granted? && input.reply.body.refresh.Some? ==>
            input.reply.body.refresh.value !in issuer.issuedTo)
    case Register => input.Registration?
    case Done(_) => false
    case _ => input.Silent?
  }

  predicate EndpointKnown(cfg: Config, sh: Shared) {
    cfg.endpoint || sh.discovered.Some?
  }

  /** A refresh that gave no token: the daemon reports it, an interactive run asks for a new grant. */
  function GiveUp(daemon: bool, why: Why): Pc {
    if daemon then Done(Failed(why)) else AwaitAcquire
  }

  function SaveOrDone(cfg: Config, token: TokenCache, body: TokenBody): Pc {
    if cfg.hasStore then Save(token, body.expiresIn.GetOr(DEFAULT_LIFE)) else Done(Token(body.access))
  }

  /** The second half of `get_token`: which grant to run, if any. */
  function ChooseGrant(cfg: Config, daemon: bool, sh: Shared): Pc {
    if !EndpointKnown(cfg, sh) || cfg.grant.UnsupportedGrant? || (cfg.grant.AuthorizationCode? && daemon) then
      Done(Failed(CannotAsk))
    else if cfg.clientId.Some? then RequestGrant(cfg.clientId.value)
    else if sh.discovered == Some(true) then Register
    else Done(Failed(CannotAsk))
  }

  function Section(cfg: Config, daemon: bool, sh: Shared, pc: Pc, input: Input): (Shared, Pc)
    requires Allowed(sh.issuer, pc, input)
  {
    match pc
    case Enter =>
      (sh, if sh.cache.None? then AwaitAcquire
           else if CacheUsable(sh) then Done(Token(sh.cache.value.access))
           else if sh.cache.value.refresh.Some? then AwaitRefresh
           else GiveUp(daemon, NoRefreshToken))
    case AwaitRefresh => (sh, Reread)
    case Reread =>
      (sh, if CacheUsable(sh) then Done(Token(sh.cache.value.access))
           else if CachedRefresh(sh.cache).Some? then Identify(CachedRefresh(sh.cache).value, First)
           else AwaitAcquire)
    case Identify(refresh, tries) =>
      (sh, if EndpointKnown(cfg, sh) then Post(refresh, CurrentClient(cfg, sh.cache).GetOr(""), tries)
           else GiveUp(daemon, NotRefreshed))
    case Post(refresh, client, tries) =>
      (sh.(issuer := IssuerAfterRefresh(sh.issuer, refresh, client, input.reply)),
       Replied(refresh, input.reply, tries))
    case Replied(refresh, reply, tries) =>
      if reply.Granted? then
        var token := AfterResponse(cfg, sh.cache, reply.body, sh.now);
        (sh.(cache := Some(token)), SaveOrDone(cfg, token, reply.body))
      else
        (sh, if Rejected(reply) && tries.First? && cfg.hasStore then LoadStored(refresh) else GiveUp(daemon, NotRefreshed))
    case LoadStored(rejected) =>
      (sh, if sh.store.None? || sh.store.value.refresh == Some(rejected) then GiveUp(daemon, NotRefreshed)
           else InstallStored(sh.store.value))
    case InstallStored(stored) =>
      (sh.(cache := Some(Installed(cfg, sh.cache, stored, sh.now))),
       if Usable(stored.expiresAtUnix, sh.now) then Done(Token(stored.access))
       else if stored.refresh.Some? then Identify(stored.refresh.value, Second)
       else GiveUp(daemon, NotRefreshed))
    case AwaitAcquire => (sh, Recheck)
    case Recheck =>
      (sh, if CacheUsable(sh) then Done(Token(sh.cache.value.access)) else ChooseGrant(cfg, daemon, sh))
    case Register =>
      if input.client.None? then (sh, Done(Failed(NotRegistered)))
      else (sh.(cache := Some(WithClient(sh.cache, input.client.value, sh.now))), RequestGrant(input.client.value))
    case RequestGrant(client) =>
      (sh.(issuer := IssuerAfterGrant(sh.issuer, client, input.reply, input.revoked)),
       GrantReplied(input.reply))
    case GrantReplied(reply) =>
      if reply.Granted? then
        var token := AfterResponse(cfg, sh.cache, reply.body, sh.now);
        (sh.(cache := Some(token)), SaveOrDone(cfg, token, reply.body))
      else (sh, Done(Failed(NotGranted)))
    case Save(token, life) =>
      (sh.(store := Some(Persisted(token, life, sh.now))), Done(Token(token.access)))
    case AdoptEnter => (sh, if cfg.hasStore then AdoptCheck else Done(Adopted(None)))
    case AdoptCheck =>
      (sh, if sh.cache.Some? && sh.cache.value.access != "" then Done(Adopted(None)) else AdoptLoad)
    case AdoptLoad =>
      (sh, if sh.store.None? || (!Usable(sh.store.value.expiresAtUnix, sh.now) && sh.store.value.refresh.None?)
           then Done(Adopted(None))
           else AdoptInstall(sh.store.value))
    case AdoptInstall(stored) =>
      (sh.(cache := Some(Installed(cfg, sh.cache, stored, sh.now))),
       Done(Adopted(if Usable(stored.expiresAtUnix, sh.now) then Some(stored.access) else None)))
  }

  // ---- one call running on by itself ----

  predicate AloneOk(cfg: Config, daemon: bool, sh: Shared, pc: Pc, inputs: seq<Input>)
    decreases |inputs|
  {
    inputs == [] ||
    (&& Allowed(sh.issuer, pc, inputs[0])
     && var (sh', pc') := Section(cfg, daemon, sh, pc, inputs[0]);
        AloneOk(cfg, daemon, sh', pc', inputs[1..]))
  }

  /** Where an uninterrupted call gets, given what the outside world supplies to its sections. */
  function Alone(cfg: Config, daemon: bool, sh: Shared, pc: Pc, inputs: seq<Input>): (Shared, Pc)
    requires AloneOk(cfg, daemon, sh, pc, inputs)
    decreases |inputs|
  {
    if inputs == [] then (sh, pc)
    else var (sh', pc') := Section(cfg, daemon, sh, pc, inputs[0]); Alone(cfg, daemon, sh', pc', inputs[1..])
  }

  lemma AloneFirst(cfg: Config, daemon: bool, sh: Shared, pc: Pc, input: Input, sh': Shared, pc': Pc, rest: seq<Input>)
    requires Allowed(sh.issuer, pc, input) && Section(cfg, daemon, sh, pc, input) == (sh', pc')
    requires AloneOk(cfg, daemon, sh', pc', rest)
    ensures AloneOk(cfg, daemon, sh, pc, [input] + rest)
    ensures Alone(cfg, daemon, sh, pc, [input] + rest) == Alone(cfg, daemon, sh', pc', rest)
  {
    assert ([input] + rest)[1..] == rest;
  }

  lemma {:induction false} AloneOneMore(cfg: Config, daemon: bool, sh: Shared, pc: Pc, inputs: seq<Input>, input: Input)
    requires AloneOk(cfg, daemon, sh, pc, inputs)
    requires var (sh', pc') := Alone(cfg, daemon, sh, pc, inputs); Allowed(sh'.issuer, pc', input)
    ensures AloneOk(cfg, daemon, sh, pc, inputs + [input])
    ensures
      var (sh', pc') := Alone(cfg, daemon, sh, pc, inputs);
      Alone(cfg, daemon, sh, pc, inputs + [input]) == Section(cfg, daemon, sh', pc', input)
    decreases |inputs|
  {
    if inputs == [] {
      assert (inputs + [input])[1..] == [];
    } else {
      assert (inputs + [input])[1..] == inputs[1..] + [input];
      var (sh', pc') := Section(cfg, daemon, sh, pc, inputs[0]);
      AloneOneMore(cfg, daemon, sh', pc', inputs[1..], input);
    }
  }
}
