/**
 `OAuth2TokenManager` as written: a class whose methods replace the cached and the stored token.
 How a call that runs undisturbed ends is said here in one go: which token it returns, and what it
 leaves cached and stored. The methods are proved to end so, and so are the sections of the `Tokens`
 module, run in order; hence the interleaved system is made of exactly the pieces of these methods.
 */
module TokenManager {
  import opened Options
  import opened Tokens

  /** What the network would answer, should it be asked. */
  datatype World = World(first: Reply, second: Reply, grant: Reply, revoked: set<string>, registration: Option<string>)

  datatype RefreshResult = Refreshed(access: string) | RefreshFailed(rejected: bool)

  // ---- how an undisturbed call ends ----

  /** What the provider answers; an answer against its rules is taken as a broken one. */
  function RefreshReply(issuer: Issuer, refresh: string, proposed: Reply): Reply {
    if Allowed(issuer, Post(refresh, "", First), TokenReply(proposed, {})) then proposed else Broken
  }

  function GrantReply(issuer: Issuer, proposed: Reply, revoked: set<string>): Reply {
    if Allowed(issuer, RequestGrant(""), TokenReply(proposed, revoked)) then proposed else Broken
  }

  /** A token response: its token is cached and stored, with the old refresh token if it brings none. */
  function Obtain(cfg: Config, sh: Shared, client: Option<string>, body: TokenBody): Shared {
    var refresh := if body.refresh.Some? then body.refresh else if sh.cache.Some? then sh.cache.value.refresh else None;
    var until := sh.now + if body.expiresIn.Some? then body.expiresIn.value else 3600;
    sh.(cache := Some(TokenCache(body.access, refresh, client, until)),
        store := if cfg.hasStore then Some(PersistedToken(body.access, refresh, client, until)) else sh.store)
  }

  /** The client id of requests: the configured one, else the cached one. */
  function Client(cfg: Config, sh: Shared): Option<string> {
    if cfg.clientId.Some? then cfg.clientId else if sh.cache.Some? then sh.cache.value.clientId else None
  }

  /** A stored token taken over, with its expiry unless that has passed. */
  function Adopt(cfg: Config, sh: Shared, stored: PersistedToken): Shared {
    var client := if cfg.clientId.None? && stored.clientId.Some? then stored.clientId else Client(cfg, sh);
    sh.(cache := Some(TokenCache(stored.access, stored.refresh, client,
                                 if stored.expiresAtUnix < sh.now then sh.now else stored.expiresAtUnix)))
  }

  function AdoptEnds(cfg: Config, sh: Shared): (Shared, Option<string>) {
    if !cfg.hasStore || (sh.cache.Some? && sh.cache.value.access != "") || sh.store.None? then (sh, None)
    else
      var stored := sh.store.value;
      if stored.expiresAtUnix > sh.now + 30 then (Adopt(cfg, sh, stored), Some(stored.access))
      else if stored.refresh.Some? then (Adopt(cfg, sh, stored), None)
      else (sh, None)
  }

  function RefreshEnds(cfg: Config, sh: Shared, refresh: string, proposed: Reply): (Shared, RefreshResult) {
    if !cfg.endpoint && sh.discovered.None? then (sh, RefreshFailed(false))
    else
      match RefreshReply(sh.issuer, refresh, proposed)
      case Granted(body) =>
        var issuer := IssuerAfterRefresh(sh.issuer, refresh, Client(cfg, sh).GetOr(""), Granted(body));
        (Obtain(cfg, sh.(issuer := issuer), Client(cfg, sh), body), Refreshed(body.access))
      case Refused(status) => (sh, RefreshFailed(status == 400 || status == 401))
      case Broken => (sh, RefreshFailed(false))
  }

  /** After a rejected refresh: the token in the store, if it is another one. */
  function RetryEnds(cfg: Config, sh: Shared, rejected: string, proposed: Reply): (Shared, Option<string>) {
    if !cfg.hasStore || sh.store.None? || sh.store.value.refresh == Some(rejected) then (sh, None)
    else
      var stored := sh.store.value;
      var sh' := Adopt(cfg, sh, stored);
      if stored.expiresAtUnix > sh.now + 30 then (sh', Some(stored.access))
      else if stored.refresh.None? then (sh', None)
      else
        var (sh'', result) := RefreshEnds(cfg, sh', stored.refresh.value, proposed);
        (sh'', if result.Refreshed? then Some(result.access) else None)
  }

  function GrantEnds(cfg: Config, sh: Shared, client: string, world: World): (Shared, Outcome) {
    match GrantReply(sh.issuer, world.grant, world.revoked)
    case Granted(body) =>
      var issuer := IssuerAfterGrant(sh.issuer, client, Granted(body), world.revoked);
      (Obtain(cfg, sh.(issuer := issuer), Some(client), body), Token(body.access))
    case _ => (sh, Failed(NotGranted))
  }

  function AcquireEnds(cfg: Config, daemon: bool, sh: Shared, world: World): (Shared, Outcome) {
    if sh.cache.Some? && sh.cache.value.expiresAt > sh.now + 30 then (sh, Token(sh.cache.value.access))
    else if !cfg.endpoint && sh.discovered.None? then (sh, Failed(CannotAsk))
    else if cfg.grant.UnsupportedGrant? || (cfg.grant.AuthorizationCode? && daemon) then (sh, Failed(CannotAsk))
    else if cfg.clientId.Some? then GrantEnds(cfg, sh, cfg.clientId.value, world)
    else if sh.discovered != Some(true) then (sh, Failed(CannotAsk))
    else if world.registration.None? then (sh, Failed(NotRegistered))
    else
      var id := world.registration.value;
      var entry := if sh.cache.Some? then sh.cache.value.(clientId := Some(id)) else TokenCache("", None, Some(id), sh.now);
      GrantEnds(cfg, sh.(cache := Some(entry)), id, world)
  }

  function GetTokenEnds(cfg: Config, daemon: bool, sh: Shared, world: World): (Shared, Outcome) {
    if sh.cache.None? then AcquireEnds(cfg, daemon, sh, world)
    else if sh.cache.value.expiresAt > sh.now + 30 then (sh, Token(sh.cache.value.access))
    else if sh.cache.value.refresh.None? then
      if daemon then (sh, Failed(NoRefreshToken)) else AcquireEnds(cfg, daemon, sh, world)
    else
      var refresh := sh.cache.value.refresh.value;
      var (sh1, result) := RefreshEnds(cfg, sh, refresh, world.first);
      match result
      case Refreshed(access) => (sh1, Token(access))
      case RefreshFailed(rejected) =>
        var (sh2, token) := if rejected then RetryEnds(cfg, sh1, refresh, world.second) else (sh1, None);
        if token.Some? then (sh2, Token(token.value))
        else if daemon then (sh2, Failed(NotRefreshed))
        else AcquireEnds(cfg, daemon, sh2, world)
  }

  /** The token returned is the cached one and, unless nothing changed, the stored one. */
  predicate Kept(cfg: Config, sh: Shared, sh': Shared, access: string) {
    && sh'.cache.Some? && sh'.cache.value.access == access
    && (sh' == sh || !cfg.hasStore ||
          (sh'.store.Some? && sh'.store.value.access == access
           && sh'.store.value.refresh == sh'.cache.value.refresh
           && sh'.store.value.expiresAtUnix == sh'.cache.value.expiresAt))
  }

  predicate UsableCache(sh: Shared) {
    sh.cache.Some? && sh.cache.value.expiresAt > sh.now + 30
  }

  lemma RefreshKeeps(cfg: Config, sh: Shared, refresh: string, proposed: Reply)
    ensures
      var (sh', result) := RefreshEnds(cfg, sh, refresh, proposed);
      if result.Refreshed? then Kept(cfg, sh, sh', result.access) && proposed.Granted? else sh' == sh
    ensures RefreshEnds(cfg, sh, refresh, proposed).0.now == sh.now
  {
  }

  lemma RetryKeeps(cfg: Config, sh: Shared, rejected: string, proposed: Reply)
    ensures
      var (sh', token) := RetryEnds(cfg, sh, rejected, proposed);
      token.Some? ==> Kept(cfg, sh, sh', token.value) && (proposed.Granted? || UsableCache(sh'))
  {
  }

  lemma AcquireKeeps(cfg: Config, daemon: bool, sh: Shared, world: World)
    ensures
      var (sh', outcome) := AcquireEnds(cfg, daemon, sh, world);
      outcome.Token? ==> Kept(cfg, sh, sh', outcome.access) && (world.grant.Granted? || (sh' == sh && UsableCache(sh)))
  {
  }

  /** The token returned is the cached one, usable unless just granted; if it is new, it is stored too. */
  lemma ReturnedTokenIsCached(cfg: Config, daemon: bool, sh: Shared, world: World)
    ensures
      var (sh', outcome) := GetTokenEnds(cfg, daemon, sh, world);
      outcome.Token? ==>
        && sh'.cache.Some? && sh'.cache.value.access == outcome.access
        && (!world.first.Granted? && !world.second.Granted? && !world.grant.Granted? ==> UsableCache(sh'))
  {
    AcquireKeeps(cfg, daemon, sh, world);
    if sh.cache.Some? && sh.cache.value.refresh.Some? {
      var refresh := sh.cache.value.refresh.value;
      RefreshKeeps(cfg, sh, refresh, world.first);
      var sh1 := RefreshEnds(cfg, sh, refresh, world.first).0;
      RetryKeeps(cfg, sh1, refresh, world.second);
      AcquireKeeps(cfg, daemon, RetryEnds(cfg, sh1, refresh, world.second).0, world);
      AcquireKeeps(cfg, daemon, sh1, world);
    }
  }

  // ---- the way there ----

  /** From `start` at `from`, the inputs in `trace` lead to `sh` at `pc`. */
  ghost predicate Reached(cfg: Config, daemon: bool, start: Shared, from: Pc, trace: seq<Input>, sh: Shared, pc: Pc) {
    && AloneOk(cfg, daemon, start, from, trace)
    && Alone(cfg, daemon, start, from, trace) == (sh, pc)
  }

  /** Takes a trace over one more section. */
  lemma Onward(cfg: Config, daemon: bool, start: Shared, from: Pc, trace: seq<Input>, sh: Shared, pc: Pc, input: Input)
    returns (longer: seq<Input>)
    requires Reached(cfg, daemon, start, from, trace, sh, pc) && Allowed(sh.issuer, pc, input)
    ensures
      var (sh', pc') := Section(cfg, daemon, sh, pc, input);
      Reached(cfg, daemon, start, from, longer, sh', pc')
  {
    AloneOneMore(cfg, daemon, start, from, trace, input);
    longer := trace + [input];
  }

  /** After a refresh that gave no token. */
  function AfterFailure(cfg: Config, daemon: bool, refresh: string, tries: Tries, rejected: bool): Pc {
    if rejected && tries.First? && cfg.hasStore then LoadStored(refresh) else GiveUp(daemon, NotRefreshed)
  }

  /** A token response goes through the cache and, if there is one, the store. */
  lemma ResponseRuns(cfg: Config, daemon: bool, start: Shared, from: Pc, trace: seq<Input>, sh: Shared, pc: Pc, body: TokenBody)
    returns (longer: seq<Input>)
    requires Reached(cfg, daemon, start, from, trace, sh, pc)
    requires (pc.Replied? || pc.GrantReplied?) && pc.reply == Granted(body)
    ensures Reached(cfg, daemon, start, from, longer, Obtain(cfg, sh, Client(cfg, sh), body), Done(Token(body.access)))
  {
    longer := Onward(cfg, daemon, start, from, trace, sh, pc, Silent);
    if cfg.hasStore {
      var token := AfterResponse(cfg, sh.cache, body, sh.now);
      longer := Onward(cfg, daemon, start, from, longer, sh.(cache := Some(token)),
                       Save(token, body.expiresIn.GetOr(DEFAULT_LIFE)), Silent);
    }
  }

  /** The provider's side of a refresh, once the request is answered. */
  function Answered(cfg: Config, sh: Shared, refresh: string, proposed: Reply): Shared {
    sh.(issuer := IssuerAfterRefresh(sh.issuer, refresh, Client(cfg, sh).GetOr(""), RefreshReply(sh.issuer, refresh, proposed)))
  }

  lemma RequestRuns(
      cfg: Config, daemon: bool, start: Shared, from: Pc, trace: seq<Input>, sh: Shared, refresh: string, tries: Tries, proposed: Reply)
    returns (longer: seq<Input>)
    requires Reached(cfg, daemon, start, from, trace, sh, Identify(refresh, tries)) && EndpointKnown(cfg, sh)
    ensures
      Reached(cfg, daemon, start, from, longer, Answered(cfg, sh, refresh, proposed),
              Replied(refresh, RefreshReply(sh.issuer, refresh, proposed), tries))
  {
    longer := Onward(cfg, daemon, start, from, trace, sh, Identify(refresh, tries), Silent);
    longer := Onward(cfg, daemon, start, from, longer, sh, Post(refresh, Client(cfg, sh).GetOr(""), tries),
                     TokenReply(RefreshReply(sh.issuer, refresh, proposed), {}));
  }

  lemma RefreshEndsAs(cfg: Config, sh: Shared, refresh: string, proposed: Reply)
    requires EndpointKnown(cfg, sh)
    ensures
      var reply := RefreshReply(sh.issuer, refresh, proposed);
      var sh' := Answered(cfg, sh, refresh, proposed);
      RefreshEnds(cfg, sh, refresh, proposed) ==
        if reply.Granted? then (Obtain(cfg, sh', Client(cfg, sh'), reply.body), Refreshed(reply.body.access))
        else (sh', RefreshFailed(Rejected(reply)))
  {
  }

  lemma RefreshRuns(
      cfg: Config, daemon: bool, start: Shared, from: Pc, trace: seq<Input>, sh: Shared, refresh: string, tries: Tries, proposed: Reply)
    returns (longer: seq<Input>)
    requires Reached(cfg, daemon, start, from, trace, sh, Identify(refresh, tries))
    ensures
      var (sh', result) := RefreshEnds(cfg, sh, refresh, proposed);
      Reached(cfg, daemon, start, from, longer, sh',
              if result.Refreshed? then Done(Token(result.access))
              else AfterFailure(cfg, daemon, refresh, tries, result.rejected))
  {
    if !EndpointKnown(cfg, sh) {
      longer := Onward(cfg, daemon, start, from, trace, sh, Identify(refresh, tries), Silent);
    } else {
      var reply := RefreshReply(sh.issuer, refresh, proposed);
      var sh' := Answered(cfg, sh, refresh, proposed);
      RefreshEndsAs(cfg, sh, refresh, proposed);
      longer := RequestRuns(cfg, daemon, start, from, trace, sh, refresh, tries, proposed);
      if reply.Granted? {
        longer := ResponseRuns(cfg, daemon, start, from, longer, sh', Replied(refresh, reply, tries), reply.body);
      } else {
        longer := Onward(cfg, daemon, start, from, longer, sh', Replied(refresh, reply, tries), Silent);
      }
    }
  }

  lemma RetryRuns(
      cfg: Config, daemon: bool, start: Shared, from: Pc, trace: seq<Input>, sh: Shared, rejected: string, proposed: Reply)
    returns (longer: seq<Input>)
    requires Reached(cfg, daemon, start, from, trace, sh, AfterFailure(cfg, daemon, rejected, First, true))
    ensures
      var (sh', token) := RetryEnds(cfg, sh, rejected, proposed);
      Reached(cfg, daemon, start, from, longer, sh',
              if token.Some? then Done(Token(token.value)) else GiveUp(daemon, NotRefreshed))
  {
    longer := trace;
    if cfg.hasStore {
      longer := Onward(cfg, daemon, start, from, trace, sh, LoadStored(rejected), Silent);
      if sh.store.Some? && sh.store.value.refresh != Some(rejected) {
        var stored := sh.store.value;
        longer := Onward(cfg, daemon, start, from, longer, sh, InstallStored(stored), Silent);
        if !Usable(stored.expiresAtUnix, sh.now) && stored.refresh.Some? {
          longer := RefreshRuns(cfg, daemon, start, from, longer, Adopt(cfg, sh, stored), stored.refresh.value, Second, proposed);
        }
      }
    }
  }

  lemma GrantRuns(
      cfg: Config, daemon: bool, start: Shared, from: Pc, trace: seq<Input>, sh: Shared, client: string, world: World)
    returns (longer: seq<Input>)
    requires Reached(cfg, daemon, start, from, trace, sh, RequestGrant(client)) && Client(cfg, sh) == Some(client)
    ensures
      var (sh', outcome) := GrantEnds(cfg, sh, client, world);
      Reached(cfg, daemon, start, from, longer, sh', Done(outcome))
  {
    var reply := GrantReply(sh.issuer, world.grant, world.revoked);
    longer := Onward(cfg, daemon, start, from, trace, sh, RequestGrant(client), TokenReply(reply, world.revoked));
    var sh' := sh.(issuer := IssuerAfterGrant(sh.issuer, client, reply, world.revoked));
    if reply.Granted? {
      longer := ResponseRuns(cfg, daemon, start, from, longer, sh', GrantReplied(reply), reply.body);
    } else {
      longer := Onward(cfg, daemon, start, from, longer, sh', GrantReplied(reply), Silent);
    }
  }

  lemma AcquireRuns(cfg: Config, daemon: bool, start: Shared, from: Pc, trace: seq<Input>, sh: Shared, world: World)
    returns (longer: seq<Input>)
    requires Reached(cfg, daemon, start, from, trace, sh, AwaitAcquire)
    ensures
      var (sh', outcome) := AcquireEnds(cfg, daemon, sh, world);
      Reached(cfg, daemon, start, from, longer, sh', Done(outcome))
  {
    longer := Onward(cfg, daemon, start, from, trace, sh, AwaitAcquire, Silent);
    longer := Onward(cfg, daemon, start, from, longer, sh, Recheck, Silent);
    var next := Section(cfg, daemon, sh, Recheck, Silent).1;
    if next.RequestGrant? {
      longer := GrantRuns(cfg, daemon, start, from, longer, sh, cfg.clientId.value, world);
    } else if next.Register? {
      longer := Onward(cfg, daemon, start, from, longer, sh, Register, Registration(world.registration));
      if world.registration.Some? {
        var id := world.registration.value;
        longer := GrantRuns(cfg, daemon, start, from, longer, sh.(cache := Some(WithClient(sh.cache, id, sh.now))), id, world);
      }
    }
  }

  /** Main result: the sections of an undisturbed `get_token`, run in order, end as said above. */
  lemma GetTokenRuns(cfg: Config, daemon: bool, sh: Shared, world: World) returns (trace: seq<Input>)
    ensures
      var (sh', outcome) := GetTokenEnds(cfg, daemon, sh, world);
      Reached(cfg, daemon, sh, Enter, trace, sh', Done(outcome))
  {
    trace := Onward(cfg, daemon, sh, Enter, [], sh, Enter, Silent);
    var next := Section(cfg, daemon, sh, Enter, Silent).1;
    if next.AwaitAcquire? {
      trace := AcquireRuns(cfg, daemon, sh, Enter, trace, sh, world);
    } else if next.AwaitRefresh? {
      trace := RefreshingRuns(cfg, daemon, sh, trace, world);
    }
  }

  lemma RefreshingRuns(cfg: Config, daemon: bool, sh: Shared, before: seq<Input>, world: World) returns (trace: seq<Input>)
    requires Reached(cfg, daemon, sh, Enter, before, sh, AwaitRefresh)
    requires !CacheUsable(sh) && CachedRefresh(sh.cache).Some?
    ensures
      var (sh', outcome) := GetTokenEnds(cfg, daemon, sh, world);
      Reached(cfg, daemon, sh, Enter, trace, sh', Done(outcome))
  {
    var refresh := sh.cache.value.refresh.value;
    trace := Onward(cfg, daemon, sh, Enter, before, sh, AwaitRefresh, Silent);
    trace := Onward(cfg, daemon, sh, Enter, trace, sh, Reread, Silent);
    trace := RefreshRuns(cfg, daemon, sh, Enter, trace, sh, refresh, First, world.first);
    var (sh1, result) := RefreshEnds(cfg, sh, refresh, world.first);
    if result.RefreshFailed? {
      var (sh2, token) := (sh1, None);
      if result.rejected {
        trace := RetryRuns(cfg, daemon, sh, Enter, trace, sh1, refresh, world.second);
        sh2, token := RetryEnds(cfg, sh1, refresh, world.second).0, RetryEnds(cfg, sh1, refresh, world.second).1;
      }
      if token.None? && !daemon {
        trace := AcquireRuns(cfg, daemon, sh, Enter, trace, sh2, world);
      }
    }
  }

  /** And so do those of an undisturbed `adopt_persisted`. */
  lemma AdoptRuns(cfg: Config, sh: Shared) returns (trace: seq<Input>)
    ensures
      var (sh', token) := AdoptEnds(cfg, sh);
      Reached(cfg, true, sh, AdoptEnter, trace, sh', Done(Adopted(token)))
  {
    trace := Onward(cfg, true, sh, AdoptEnter, [], sh, AdoptEnter, Silent);
    if cfg.hasStore {
      trace := Onward(cfg, true, sh, AdoptEnter, trace, sh, AdoptCheck, Silent);
      if sh.cache.None? || sh.cache.value.access == "" {
        trace := Onward(cfg, true, sh, AdoptEnter, trace, sh, AdoptLoad, Silent);
        if Section(cfg, true, sh, AdoptLoad, Silent).1.AdoptInstall? {
          trace := Onward(cfg, true, sh, AdoptEnter, trace, sh, AdoptInstall(sh.store.value), Silent);
        }
      }
    }
  }

  class OAuth2TokenManager {
    const cfg: Config
    var now: nat
    var discovered: Option<bool>
    var cache: Option<TokenCache>
    var store: Option<PersistedToken>
    var issuer: Issuer

    constructor (cfg: Config, now: nat, store: Option<PersistedToken>, issuer: Issuer)
      ensures this.cfg == cfg && View() == Shared(now, None, None, store, issuer)
    {
      this.cfg := cfg;
      this.now := now;
      this.discovered := None;
      this.cache := None;
      this.store := store;
      this.issuer := issuer;
    }

    function View(): Shared
      reads this
    {
      Shared(now, discovered, cache, store, issuer)
    }

    method InstallPersisted(persisted: PersistedToken)
      modifies this`cache
      ensures cache == Some(Installed(cfg, old(cache), persisted, now))
      ensures View() == Adopt(cfg, old(View()), persisted)
    {
      var remaining := if persisted.expiresAtUnix > now then persisted.expiresAtUnix - now else 0;
      var clientId := cfg.clientId;
      if clientId.None? {
        clientId := persisted.clientId;
      }
      if clientId.None? && cache.Some? {
        clientId := cache.value.clientId;
      }
      cache := Some(TokenCache(persisted.access, persisted.refresh, clientId, now + remaining));
    }

    method SetDynamicClientId(id: string)
      modifies this`cache
      ensures cache == Some(WithClient(old(cache), id, now))
    {
      if cache.Some? {
        cache := Some(cache.value.(clientId := Some(id)));
      } else {
        cache := Some(TokenCache("", None, Some(id), now));
      }
    }

    /** Replaces the cache, then writes the same token to the store. */
    method CacheTokenResponse(body: TokenBody) returns (access: string)
      modifies this`cache, this`store
      ensures access == body.access && View() == Obtain(cfg, old(View()), Client(cfg, old(View())), body)
      ensures cache == Some(AfterResponse(cfg, old(cache), body, now))
      ensures
        store == if cfg.hasStore then Some(Persisted(cache.value, body.expiresIn.GetOr(DEFAULT_LIFE), now)) else old(store)
    {
      access := body.access;
      var life := body.expiresIn.GetOr(DEFAULT_LIFE);
      var refresh := body.refresh;
      var clientId := cfg.clientId;
      if cache.Some? {
        if refresh.None? {
          refresh := cache.value.refresh;
        }
        if clientId.None? {
          clientId := cache.value.clientId;
        }
      }
      cache := Some(TokenCache(access, refresh, clientId, now + life));
      if cfg.hasStore {
        store := Some(PersistedToken(access, refresh, clientId, now + life));
      }
    }

    method AskForRefresh(refresh: string, client: string, tries: Tries, proposed: Reply) returns (reply: Reply)
      modifies this`issuer
      ensures Allowed(old(issuer), Post(refresh, client, tries), TokenReply(reply, {}))
      ensures reply == RefreshReply(old(issuer), refresh, proposed)
      ensures issuer == IssuerAfterRefresh(old(issuer), refresh, client, reply)
    {
      reply := RefreshReply(issuer, refresh, proposed);
      issuer := IssuerAfterRefresh(issuer, refresh, client, reply);
    }

    method AskForGrant(client: string, proposed: Reply, revoked: set<string>) returns (reply: Reply)
      modifies this`issuer
      ensures Allowed(old(issuer), RequestGrant(client), TokenReply(reply, revoked))
      ensures reply == GrantReply(old(issuer), proposed, revoked)
      ensures issuer == IssuerAfterGrant(old(issuer), client, reply, revoked)
    {
      reply := GrantReply(issuer, proposed, revoked);
      issuer := IssuerAfterGrant(issuer, client, reply, revoked);
    }

    /** `adopt_persisted`, from the first look at the cache to the returned token. */
    method AdoptPersisted() returns (token: Option<string>)
      modifies this`cache
      ensures (View(), token) == AdoptEnds(cfg, old(View()))
    {
      if !cfg.hasStore {
        return None;
      }
      if cache.Some? && cache.value.access != "" {
        return None;
      }
      if store.None? || (!Usable(store.value.expiresAtUnix, now) && store.value.refresh.None?) {
        return None;
      }
      var persisted := store.value;
      InstallPersisted(persisted);
      token := if Usable(persisted.expiresAtUnix, now) then Some(persisted.access) else None;
    }

    method DoRefresh(refresh: string, proposed: Reply) returns (result: RefreshResult)
      modifies this`cache, this`store, this`issuer
      ensures (View(), result) == RefreshEnds(cfg, old(View()), refresh, proposed)
    {
      if !EndpointKnown(cfg, View()) {
        return RefreshFailed(false);
      }
      var client := cfg.clientId;
      if client.None? && cache.Some? {
        client := cache.value.clientId;
      }
      var reply := AskForRefresh(refresh, client.GetOr(""), First, proposed);
      if !reply.Granted? {
        return RefreshFailed(Rejected(reply));
      }
      var access := CacheTokenResponse(reply.body);
      result := Refreshed(access);
    }

    method RetryWithStored(rejected: string, proposed: Reply) returns (token: Option<string>)
      modifies this`cache, this`store, this`issuer
      ensures (View(), token) == RetryEnds(cfg, old(View()), rejected, proposed)
    {
      if !cfg.hasStore || store.None? || store.value.refresh == Some(rejected) {
        return None;
      }
      var stored := store.value;
      InstallPersisted(stored);
      if Usable(stored.expiresAtUnix, now) {
        return Some(stored.access);
      }
      if stored.refresh.None? {
        return None;
      }
      var result := DoRefresh(stored.refresh.value, proposed);
      token := if result.Refreshed? then Some(result.access) else None;
    }

    /** The token request of a grant, and what becomes of its answer. */
    method RunGrant(client: string, world: World) returns (outcome: Outcome)
      requires Client(cfg, View()) == Some(client)
      modifies this`cache, this`store, this`issuer
      ensures (View(), outcome) == GrantEnds(cfg, old(View()), client, world)
    {
      var reply := AskForGrant(client, world.grant, world.revoked);
      if !reply.Granted? {
        return Failed(NotGranted);
      }
      var access := CacheTokenResponse(reply.body);
      outcome := Token(access);
    }

    /** The second half of `get_token`: a new grant, registering a client first if none is configured. */
    method Acquire(daemon: bool, world: World) returns (outcome: Outcome)
      modifies this`cache, this`store, this`issuer
      ensures (View(), outcome) == AcquireEnds(cfg, daemon, old(View()), world)
    {
      if CacheUsable(View()) {
        return Token(cache.value.access);
      }
      if !EndpointKnown(cfg, View()) || cfg.grant.UnsupportedGrant? || (cfg.grant.AuthorizationCode? && daemon) {
        return Failed(CannotAsk);
      }
      var client;
      if cfg.clientId.Some? {
        client := cfg.clientId.value;
      } else if discovered == Some(true) {
        if world.registration.None? {
          return Failed(NotRegistered);
        }
        client := world.registration.value;
        SetDynamicClientId(client);
      } else {
        return Failed(CannotAsk);
      }
      outcome := RunGrant(client, world);
    }

    /** `get_token`, undisturbed. */
    method GetToken(daemon: bool, world: World) returns (outcome: Outcome)
      modifies this`cache, this`store, this`issuer
      ensures (View(), outcome) == GetTokenEnds(cfg, daemon, old(View()), world)
    {
      if cache.Some? {
        if CacheUsable(View()) {
          return Token(cache.value.access);
        }
        if cache.value.refresh.Some? {
          var refresh := cache.value.refresh.value;
          var result := DoRefresh(refresh, world.first);
          if result.Refreshed? {
            return Token(result.access);
          }
          if result.rejected {
            var token := RetryWithStored(refresh, world.second);
            if token.Some? {
              return Token(token.value);
            }
          }
          if daemon {
            return Failed(NotRefreshed);
          }
        } else if daemon {
          return Failed(NoRefreshToken);
        }
      }
      outcome := Acquire(daemon, world);
    }
  }
}
