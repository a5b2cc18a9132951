/**
 Safety of the shared token manager over whole runs: refresh requests present live tokens as long as
 other processes leave the manager's tokens live, and exactly then; and the cache and the store agree
 whenever the refresh lock is free, if nobody else writes the store.
 */
module TokenSafety {
  import opened Options
  import opened Tokens
  import opened TokenProtocol

  // ---- live tokens ----

  predicate LiveIn(issuer: Issuer, refresh: Option<string>) {
    refresh.Some? ==> refresh.value in issuer.live
  }

  function StoredRefresh(store: Option<PersistedToken>): Option<string> {
    if store.Some? then store.value.refresh else None
  }

  /** What holds between two refreshes, and while the lock owner has changed nothing yet. */
  predicate Settled(cfg: Config, sh: Shared) {
    && LiveIn(sh.issuer, CachedRefresh(sh.cache))
    && (cfg.hasStore ==> LiveIn(sh.issuer, StoredRefresh(sh.store)))
  }

  /** The token that the next cache write will hold is live. */
  predicate PendingLive(cfg: Config, sh: Shared, reply: Reply) {
    if reply.Granted? then LiveIn(sh.issuer, reply.body.refresh.OrElse(CachedRefresh(sh.cache))) else Settled(cfg, sh)
  }

  /** The invariant, as seen from the program counter of the lock owner. */
  predicate Safe(cfg: Config, sh: Shared, pc: Pc) {
    match pc
    case Identify(refresh, _) => Settled(cfg, sh) && CachedRefresh(sh.cache) == Some(refresh)
    case Post(refresh, _, _) => Settled(cfg, sh) && CachedRefresh(sh.cache) == Some(refresh)
    case Replied(refresh, reply, _) => PendingLive(cfg, sh, reply) && CachedRefresh(sh.cache) == Some(refresh)
    case GrantReplied(reply) => PendingLive(cfg, sh, reply)
    case Save(token, _) => cfg.hasStore && sh.cache == Some(token) && LiveIn(sh.issuer, token.refresh)
    case InstallStored(stored) => cfg.hasStore && Settled(cfg, sh) && LiveIn(sh.issuer, stored.refresh)
    case AdoptInstall(stored) => cfg.hasStore && Settled(cfg, sh) && LiveIn(sh.issuer, stored.refresh)
    case LoadStored(_) => cfg.hasStore && Settled(cfg, sh)
    case AdoptCheck => cfg.hasStore && Settled(cfg, sh)
    case AdoptLoad => cfg.hasStore && Settled(cfg, sh)
    case _ => Settled(cfg, sh)
  }

  lemma SectionKeepsSafe(cfg: Config, daemon: bool, sh: Shared, pc: Pc, input: Input)
    requires Holds(pc) && Allowed(sh.issuer, pc, input) && Safe(cfg, sh, pc)
    ensures
      var (sh', pc') := Section(cfg, daemon, sh, pc, input);
      Safe(cfg, sh', if Holds(pc') then pc' else Enter)
  {
  }

  predicate SafeState(cfg: Config, s: State) {
    && LockOk(s)
    && Safe(cfg, s.sh, HolderPc(s))
    && (forall e | e in s.log :: e.live)
  }

  function Handed(reply: Reply): Option<string> {
    if reply.Granted? then reply.body.refresh else None
  }

  /** The refresh token that the lock owner is about to put into the cache. */
  function InHand(pc: Pc): Option<string> {
    match pc
    case Replied(_, reply, _) => Handed(reply)
    case GrantReplied(reply) => Handed(reply)
    case InstallStored(stored) => stored.refresh
    case AdoptInstall(stored) => stored.refresh
    case _ => None
  }

  /** The token stays live if it was. */
  predicate Spares(s: State, refresh: Option<string>, live: set<string>) {
    refresh.Some? && refresh.value in s.sh.issuer.live ==> refresh.value in live
  }

  /** Another process uses up no refresh token of the manager, and stores only a live one. */
  predicate Harmless(cfg: Config, s: State, step: Step) {
    step.OtherProcess? ==>
      && Spares(s, CachedRefresh(s.sh.cache), step.live)
      && Spares(s, InHand(HolderPc(s)), step.live)
      && (cfg.hasStore && StoredRefresh(step.stored).Some? ==> StoredRefresh(step.stored).value in step.live)
  }

  predicate HarmlessRun(cfg: Config, s: State, steps: seq<Step>)
    requires ValidRun(cfg, s, steps)
    decreases |steps|
  {
    steps == [] || (Harmless(cfg, s, steps[0]) && HarmlessRun(cfg, Next(cfg, s, steps[0]), steps[1..]))
  }

  lemma NextKeepsSafe(cfg: Config, s: State, step: Step)
    requires SafeState(cfg, s) && Enabled(cfg, s, step) && Harmless(cfg, s, step)
    ensures SafeState(cfg, Next(cfg, s, step))
  {
    NextKeepsLock(cfg, s, step);
    match step
    case Advance(c, input) =>
      AdvanceSeenFromLock(cfg, s, c, input);
      if Holds(s.callers[c].pc) {
        SectionKeepsSafe(cfg, s.callers[c].daemon, s.sh, s.callers[c].pc, input);
      }
    case _ =>
  }

  lemma {:induction false} RunKeepsSafe(cfg: Config, s: State, steps: seq<Step>)
    requires SafeState(cfg, s) && ValidRun(cfg, s, steps) && HarmlessRun(cfg, s, steps)
    ensures SafeState(cfg, Run(cfg, s, steps))
    decreases |steps|
  {
    if steps != [] {
      NextKeepsSafe(cfg, s, steps[0]);
      RunKeepsSafe(cfg, Next(cfg, s, steps[0]), steps[1..]);
    }
  }

  /** A process start whose stored refresh token, if any, is still live. */
  predicate GoodStart(cfg: Config, s: State) {
    Initial(s) && (cfg.hasStore ==> LiveIn(s.sh.issuer, StoredRefresh(s.sh.store)))
  }

  /** Main result: as long as other processes are harmless, no interleaving ever presents a retired token. */
  lemma RefreshesPresentLiveTokens(cfg: Config, s: State, steps: seq<Step>)
    requires GoodStart(cfg, s) && ValidRun(cfg, s, steps) && HarmlessRun(cfg, s, steps)
    ensures forall e | e in Run(cfg, s, steps).log :: e.live
  {
    RunKeepsSafe(cfg, s, steps);
  }

  // ---- no other process ----

  predicate SoleWriter(steps: seq<Step>) {
    forall step | step in steps :: !step.OtherProcess?
  }

  lemma {:induction false} SoleWriterIsHarmless(cfg: Config, s: State, steps: seq<Step>)
    requires ValidRun(cfg, s, steps) && SoleWriter(steps)
    ensures HarmlessRun(cfg, s, steps)
    decreases |steps|
  {
    if steps != [] {
      SoleWriterIsHarmless(cfg, Next(cfg, s, steps[0]), steps[1..]);
    }
  }

  /** The cache has no token, or exactly the stored one, which the store does not expire earlier. */
  predicate Synced(cache: Option<TokenCache>, store: Option<PersistedToken>, now: nat) {
    || cache.None?
    || (cache.value.access == "" && cache.value.refresh.None? && cache.value.expiresAt <= now)
    || (store.Some? && store.value.access == cache.value.access && store.value.refresh == cache.value.refresh
        && (cache.value.expiresAt > now ==> store.value.expiresAtUnix >= cache.value.expiresAt))
  }

  /** Cache and store agree, except between writing the one and the other. */
  predicate InSync(cfg: Config, sh: Shared, pc: Pc) {
    match pc
    case Save(token, life) => cfg.hasStore && sh.cache == Some(token) && token.expiresAt <= sh.now + life
    case InstallStored(stored) => sh.store == Some(stored)
    case AdoptInstall(stored) => sh.store == Some(stored)
    case _ => cfg.hasStore ==> Synced(sh.cache, sh.store, sh.now)
  }

  lemma SectionKeepsSync(cfg: Config, daemon: bool, sh: Shared, pc: Pc, input: Input)
    requires Holds(pc) && Allowed(sh.issuer, pc, input) && InSync(cfg, sh, pc)
    ensures
      var (sh', pc') := Section(cfg, daemon, sh, pc, input);
      InSync(cfg, sh', if Holds(pc') then pc' else Enter)
  {
  }

  lemma {:induction false} RunKeepsSync(cfg: Config, s: State, steps: seq<Step>)
    requires LockOk(s) && InSync(cfg, s.sh, HolderPc(s)) && ValidRun(cfg, s, steps) && SoleWriter(steps)
    ensures
      var s' := Run(cfg, s, steps);
      LockOk(s') && InSync(cfg, s'.sh, HolderPc(s'))
    decreases |steps|
  {
    if steps != [] {
      NextKeepsSync(cfg, s, steps[0]);
      RunKeepsSync(cfg, Next(cfg, s, steps[0]), steps[1..]);
    }
  }

  lemma NextKeepsSync(cfg: Config, s: State, step: Step)
    requires LockOk(s) && InSync(cfg, s.sh, HolderPc(s)) && Enabled(cfg, s, step) && !step.OtherProcess?
    ensures
      var s' := Next(cfg, s, step);
      LockOk(s') && InSync(cfg, s'.sh, HolderPc(s'))
  {
    NextKeepsLock(cfg, s, step);
    match step
    case Advance(c, input) =>
      AdvanceSeenFromLock(cfg, s, c, input);
      if Holds(s.callers[c].pc) {
        SectionKeepsSync(cfg, s.callers[c].daemon, s.sh, s.callers[c].pc, input);
      }
    case _ =>
  }

  /** Whenever the refresh lock is free, the cache holds no token or the stored one, which is live. */
  lemma CacheAgreesWithStore(cfg: Config, s: State, steps: seq<Step>)
    requires GoodStart(cfg, s) && ValidRun(cfg, s, steps) && SoleWriter(steps)
    requires cfg.hasStore && Run(cfg, s, steps).lock.None?
    ensures
      var sh := Run(cfg, s, steps).sh;
      Synced(sh.cache, sh.store, sh.now) && LiveIn(sh.issuer, CachedRefresh(sh.cache)) && LiveIn(sh.issuer, StoredRefresh(sh.store))
  {
    SoleWriterIsHarmless(cfg, s, steps);
    RunKeepsSafe(cfg, s, steps);
    RunKeepsSync(cfg, s, steps);
  }

  /** A stored token that `adopt_persisted` takes: it can still be used, or refreshed. */
  predicate Adoptable(store: Option<PersistedToken>, now: nat) {
    store.Some? && (Usable(store.value.expiresAtUnix, now) || store.value.refresh.Some?)
  }

  /** On an empty cache, an uninterrupted `adopt_persisted` installs such a token, and returns it if it can be used. */
  lemma AdoptInstalls(cfg: Config, sh: Shared)
    requires cfg.hasStore && sh.cache.None? && Adoptable(sh.store, sh.now)
    ensures
      && AloneOk(cfg, true, sh, AdoptEnter, [Silent, Silent, Silent, Silent])
      && var (sh', pc) := Alone(cfg, true, sh, AdoptEnter, [Silent, Silent, Silent, Silent]);
         && sh' == sh.(cache := Some(Installed(cfg, None, sh.store.value, sh.now)))
         && pc == Done(Adopted(if Usable(sh.store.value.expiresAtUnix, sh.now) then Some(sh.store.value.access) else None))
  {
    var stored := sh.store.value;
    var sh' := sh.(cache := Some(Installed(cfg, None, stored, sh.now)));
    var done := Section(cfg, true, sh, AdoptInstall(stored), Silent).1;
    AloneFirst(cfg, true, sh, AdoptInstall(stored), Silent, sh', done, []);
    AloneFirst(cfg, true, sh, AdoptLoad, Silent, sh, AdoptInstall(stored), [Silent]);
    AloneFirst(cfg, true, sh, AdoptCheck, Silent, sh, AdoptLoad, [Silent, Silent]);
    AloneFirst(cfg, true, sh, AdoptEnter, Silent, sh, AdoptCheck, [Silent, Silent, Silent]);
  }

  /**
   A restart loses nothing: after any run, restarting and adopting the store gives back the access
   and refresh token that the cache held, with the refresh token still live.
   */
  lemma RestartContinues(cfg: Config, s: State, steps: seq<Step>, c: nat)
    requires GoodStart(cfg, s) && ValidRun(cfg, s, steps) && SoleWriter(steps)
    requires cfg.hasStore && Run(cfg, s, steps).lock.None?
    requires CachedRefresh(Run(cfg, s, steps).sh.cache).Some?
    requires Unused(Next(cfg, Run(cfg, s, steps), Restart), c)
    ensures
      var before := Run(cfg, s, steps);
      var connecting := Next(cfg, Next(cfg, before, Restart), CallAdopt(c));
      var adopt := Solo(c, [Silent, Silent, Silent, Silent]);
      && ValidRun(cfg, connecting, adopt)
      && var after := Run(cfg, connecting, adopt);
         && after.sh.cache.Some? && after.lock.None?
         && after.sh.cache.value.access == before.sh.cache.value.access
         && after.sh.cache.value.refresh == before.sh.cache.value.refresh
         && LiveIn(after.sh.issuer, after.sh.cache.value.refresh)
         && (CacheUsable(before.sh) ==> CacheUsable(after.sh))
  {
    CacheAgreesWithStore(cfg, s, steps);
    var connecting := Next(cfg, Next(cfg, Run(cfg, s, steps), Restart), CallAdopt(c));
    AdoptInstalls(cfg, connecting.sh);
    SoloRun(cfg, connecting, c, [Silent, Silent, Silent, Silent]);
  }

  // ---- when another process does harm ----

  lemma {:induction false} SoloIsSole(c: nat, inputs: seq<Input>)
    ensures SoleWriter(Solo(c, inputs))
  {
    if inputs != [] {
      SoloIsSole(c, inputs[1..]);
    }
  }

  /** The cached token expires, and a call `d` presents it. */
  function PresentSteps(s: State, d: nat): seq<Step> {
    var wait := if s.sh.cache.Some? then s.sh.cache.value.expiresAt else 0;
    var present := Solo(d, [Silent, Silent, Silent, Silent]) + [Advance(d, TokenReply(Broken, {}))];
    [Discover(true)] + ([Tick(wait)] + ([Call(d, true)] + present))
  }

  /** A new call on an expired token, from its start to its request. */
  lemma CallPresentsCached(cfg: Config, s: State, d: nat)
    requires EndpointKnown(cfg, s.sh) && CachedRefresh(s.sh.cache).Some? && !CacheUsable(s.sh)
    requires s.lock.None? && d in s.callers && s.callers[d] == Caller(true, Enter)
    ensures
      var present := Solo(d, [Silent, Silent, Silent, Silent]) + [Advance(d, TokenReply(Broken, {}))];
      && ValidRun(cfg, s, present) && SoleWriter(present)
      && var log := Run(cfg, s, present).log;
         log != [] && (log[|log| - 1].live <==> CachedRefresh(s.sh.cache).value in s.sh.issuer.live)
  {
    var last := Advance(d, TokenReply(Broken, {}));
    CallReadiesCachedPair(cfg, true, s.sh);
    SoloRun(cfg, s, d, [Silent, Silent, Silent, Silent]);
    SoloIsSole(d, [Silent, Silent, Silent, Silent]);
    RunFirst(cfg, Run(cfg, s, Solo(d, [Silent, Silent, Silent, Silent])), last, []);
    assert [last] + [] == [last];
    RunOn(cfg, s, Solo(d, [Silent, Silent, Silent, Silent]), [last]);
  }

  lemma CachedIsPresented(cfg: Config, s: State, d: nat)
    requires s.lock.None? && Unused(s, d) && CachedRefresh(s.sh.cache).Some?
    ensures ValidRun(cfg, s, PresentSteps(s, d)) && SoleWriter(PresentSteps(s, d))
    ensures
      var log := Run(cfg, s, PresentSteps(s, d)).log;
      log != [] && (log[|log| - 1].live <==> CachedRefresh(s.sh.cache).value in s.sh.issuer.live)
  {
    var wait := Tick(s.sh.cache.value.expiresAt);
    var s1 := Next(cfg, s, Discover(true));
    var s2 := Next(cfg, s1, wait);
    var s3 := Next(cfg, s2, Call(d, true));
    CallPresentsCached(cfg, s3, d);
    var present := Solo(d, [Silent, Silent, Silent, Silent]) + [Advance(d, TokenReply(Broken, {}))];
    RunFirst(cfg, s2, Call(d, true), present);
    RunFirst(cfg, s1, wait, [Call(d, true)] + present);
    RunFirst(cfg, s, Discover(true), [wait] + ([Call(d, true)] + present));
  }

  /** The manager starts again and adopts what is stored. */
  function ReadoptSteps(c: nat): seq<Step> {
    [Restart] + ([CallAdopt(c)] + Solo(c, [Silent, Silent, Silent, Silent]))
  }

  lemma StoredIsAdopted(cfg: Config, s: State, c: nat)
    requires cfg.hasStore && s.lock.None? && Unused(s, c) && StoredRefresh(s.sh.store).Some?
    ensures ValidRun(cfg, s, ReadoptSteps(c)) && SoleWriter(ReadoptSteps(c))
    ensures
      var s' := Run(cfg, s, ReadoptSteps(c));
      && s'.lock.None? && s'.sh.issuer == s.sh.issuer
      && CachedRefresh(s'.sh.cache) == StoredRefresh(s.sh.store)
      && (forall d | d != c && Unused(s, d) :: Unused(s', d))
  {
    var connecting := Next(cfg, Next(cfg, s, Restart), CallAdopt(c));
    AdoptInstalls(cfg, connecting.sh);
    SoloRun(cfg, connecting, c, [Silent, Silent, Silent, Silent]);
    SoloIsSole(c, [Silent, Silent, Silent, Silent]);
    RunFirst(cfg, Next(cfg, s, Restart), CallAdopt(c), Solo(c, [Silent, Silent, Silent, Silent]));
    RunFirst(cfg, s, Restart, [CallAdopt(c)] + Solo(c, [Silent, Silent, Silent, Silent]));
  }

  /** However the manager runs on by itself, it presents only live tokens. */
  ghost predicate StaysSafe(cfg: Config, s: State) {
    forall steps | ValidRun(cfg, s, steps) && SoleWriter(steps) :: forall e | e in Run(cfg, s, steps).log :: e.live
  }

  /**
   What another process may do while nobody refreshes: every way to run on presents only live tokens
   if and only if it leaves the cached refresh token live and stores none that is not.
   */
  lemma HarmlessIff(cfg: Config, s: State, step: Step, c: nat, d: nat)
    requires SafeState(cfg, s) && s.lock.None? && step.OtherProcess?
    requires Unused(s, c) && Unused(s, d) && c != d
    ensures StaysSafe(cfg, Next(cfg, s, step)) <==> Harmless(cfg, s, step)
  {
    var s' := Next(cfg, s, step);
    if Harmless(cfg, s, step) {
      forall steps | ValidRun(cfg, s', steps) && SoleWriter(steps)
        ensures forall e | e in Run(cfg, s', steps).log :: e.live
      {
        NextKeepsSafe(cfg, s, step);
        SoleWriterIsHarmless(cfg, s', steps);
        RunKeepsSafe(cfg, s', steps);
      }
    } else if !LiveIn(s'.sh.issuer, CachedRefresh(s'.sh.cache)) {
      CachedIsPresented(cfg, s', d);
    } else {
      StoredIsAdopted(cfg, s', c);
      var s'' := Run(cfg, s', ReadoptSteps(c));
      CachedIsPresented(cfg, s'', d);
      RunOn(cfg, s', ReadoptSteps(c), PresentSteps(s'', d));
    }
  }
}
