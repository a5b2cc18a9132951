/**
 Any number of callers sharing one token manager, interleaved at their await points.

 The state adds to the shared data the owner of the refresh lock, each caller's program counter
 and logs of every refresh request and every grant request sent. `Next` is one step of the whole system, `Run` a sequence
 of them.
 */
module TokenProtocol {
  import opened Options
  import opened Tokens

  datatype Caller = Caller(daemon: bool, pc: Pc)

  /** One refresh request, with the provider's view of it at the moment it arrived. */
  datatype Sent = Sent(caller: nat, refresh: string, client: string, live: bool, owner: Option<string>, reply: Reply)

  /** One request for a new grant. */
  datatype Asked = Asked(caller: nat, client: string, reply: Reply)

  datatype State = State(sh: Shared, lock: Option<nat>, callers: map<nat, Caller>, log: seq<Sent>, grants: seq<Asked>)

  datatype Step =
    | Tick(seconds: nat)
    | Discover(registration: bool)
    | Call(caller: nat, daemon: bool)
    | CallAdopt(caller: nat)
    | Advance(caller: nat, input: Input)
    | Restart
    | OtherProcess(stored: Option<PersistedToken>, issued: map<string, string>, live: set<string>)

  /** Where the owner of the refresh lock is; any unlocked program counter stands for "nobody". */
  function HolderPc(s: State): Pc {
    if s.lock.Some? && s.lock.value in s.callers then s.callers[s.lock.value].pc else Enter
  }

  /** Every call has a number of its own. */
  predicate Unused(s: State, c: nat) {
    && c !in s.callers
    && (forall e | e in s.log :: e.caller != c)
    && (forall e | e in s.grants :: e.caller != c)
  }

  predicate Enabled(cfg: Config, s: State, step: Step) {
    match step
    case Tick(_) => true
    case Discover(_) => true
    case Call(c, _) => Unused(s, c)
    case CallAdopt(c) => Unused(s, c)
    case Advance(c, input) =>
      && c in s.callers
      && Allowed(s.sh.issuer, s.callers[c].pc, input)
      && (!Holds(s.callers[c].pc) && Holds(Section(cfg, s.callers[c].daemon, s.sh, s.callers[c].pc, input).1)
          ==> s.lock.None?)
    case Restart => s.lock.None?
    case OtherProcess(_, _, _) => true
  }

  function Logged(s: State, c: nat, pc: Pc, input: Input): seq<Sent>
    requires Allowed(s.sh.issuer, pc, input)
  {
    if pc.Post? then
      var issuedTo := s.sh.issuer.issuedTo;
      [Sent(c, pc.refresh, pc.client, pc.refresh in s.sh.issuer.live,
            if pc.refresh in issuedTo then Some(issuedTo[pc.refresh]) else None, input.reply)]
    else []
  }

  function Next(cfg: Config, s: State, step: Step): State
    requires Enabled(cfg, s, step)
  {
    match step
    case Tick(seconds) => s.(sh := s.sh.(now := s.sh.now + seconds))
    case Discover(registration) => s.(sh := s.sh.(discovered := Some(registration)))
    case Call(c, daemon) => s.(callers := s.callers[c := Caller(daemon, Enter)])
    case CallAdopt(c) => s.(callers := s.callers[c := Caller(true, AdoptEnter)])
    case Advance(c, input) =>
      var caller := s.callers[c];
      var (sh, pc) := Section(cfg, caller.daemon, s.sh, caller.pc, input);
      State(sh,
            if Holds(pc) then Some(c) else if Holds(caller.pc) then None else s.lock,
            s.callers[c := caller.(pc := pc)],
            s.log + Logged(s, c, caller.pc, input),
            s.grants + if caller.pc.RequestGrant? then [Asked(c, caller.pc.client, input.reply)] else [])
    case Restart => s.(sh := s.sh.(cache := None, discovered := None), lock := None, callers := map[])
    case OtherProcess(stored, issued, live) =>
      s.(sh := s.sh.(store := stored, issuer := Issuer(live, issued + s.sh.issuer.issuedTo)))
  }

  predicate ValidRun(cfg: Config, s: State, steps: seq<Step>)
    decreases |steps|
  {
    steps == [] || (Enabled(cfg, s, steps[0]) && ValidRun(cfg, Next(cfg, s, steps[0]), steps[1..]))
  }

  function Run(cfg: Config, s: State, steps: seq<Step>): State
    requires ValidRun(cfg, s, steps)
    decreases |steps|
  {
    if steps == [] then s else Run(cfg, Next(cfg, s, steps[0]), steps[1..])
  }

  lemma RunIsNext(cfg: Config, s: State, steps: seq<Step>)
    requires |steps| > 0 && Enabled(cfg, s, steps[0]) && ValidRun(cfg, Next(cfg, s, steps[0]), steps[1..])
    ensures ValidRun(cfg, s, steps)
    ensures Run(cfg, s, steps) == Run(cfg, Next(cfg, s, steps[0]), steps[1..])
  {
  }

  lemma RunFirst(cfg: Config, s: State, step: Step, rest: seq<Step>)
    requires Enabled(cfg, s, step) && ValidRun(cfg, Next(cfg, s, step), rest)
    ensures ValidRun(cfg, s, [step] + rest) && Run(cfg, s, [step] + rest) == Run(cfg, Next(cfg, s, step), rest)
  {
    assert ([step] + rest)[1..] == rest;
  }

  lemma {:induction false} RunOn(cfg: Config, s: State, a: seq<Step>, b: seq<Step>)
    requires ValidRun(cfg, s, a) && ValidRun(cfg, Run(cfg, s, a), b)
    ensures ValidRun(cfg, s, a + b) && Run(cfg, s, a + b) == Run(cfg, Run(cfg, s, a), b)
    decreases |a|
  {
    if a == [] {
      assert a + b == b;
    } else {
      assert (a + b)[1..] == a[1..] + b;
      RunOn(cfg, Next(cfg, s, a[0]), a[1..], b);
    }
  }

  predicate Initial(s: State) {
    s.sh.cache.None? && s.lock.None? && s.callers == map[] && s.log == [] && s.grants == []
  }

  /** The refresh lock has exactly the owner that its callers' program counters say. */
  predicate LockOk(s: State) {
    && (s.lock.Some? ==> s.lock.value in s.callers)
    && (forall c | c in s.callers :: Holds(s.callers[c].pc) <==> s.lock == Some(c))
  }

  lemma NextKeepsLock(cfg: Config, s: State, step: Step)
    requires LockOk(s) && Enabled(cfg, s, step)
    ensures LockOk(Next(cfg, s, step))
  {
  }

  /**
   How a step looks from the refresh lock: either the owner runs one section, or a caller without
   it leaves the shared data alone and at most becomes the owner.
   */
  lemma AdvanceSeenFromLock(cfg: Config, s: State, c: nat, input: Input)
    requires LockOk(s) && Enabled(cfg, s, Advance(c, input))
    ensures
      var s' := Next(cfg, s, Advance(c, input));
      var pc := s.callers[c].pc;
      if Holds(pc) then
        && HolderPc(s) == pc
        && var (sh, pc') := Section(cfg, s.callers[c].daemon, s.sh, pc, input);
           s'.sh == sh && HolderPc(s') == if Holds(pc') then pc' else Enter
      else
        && s'.sh == s.sh && s'.log == s.log
        && (HolderPc(s') == HolderPc(s)
            || (HolderPc(s) == Enter && HolderPc(s') in {Reread, Recheck, AdoptCheck}))
  {
  }

  // ---- one caller running on by itself ----

  function Solo(c: nat, inputs: seq<Input>): seq<Step> {
    if inputs == [] then [] else [Advance(c, inputs[0])] + Solo(c, inputs[1..])
  }

  /** With the refresh lock free or its own, a caller that runs alone does what `Alone` says. */
  lemma {:induction false} SoloRun(cfg: Config, s: State, c: nat, inputs: seq<Input>)
    requires c in s.callers && s.lock == (if Holds(s.callers[c].pc) then Some(c) else None)
    requires AloneOk(cfg, s.callers[c].daemon, s.sh, s.callers[c].pc, inputs)
    ensures ValidRun(cfg, s, Solo(c, inputs))
    ensures
      var (sh, pc) := Alone(cfg, s.callers[c].daemon, s.sh, s.callers[c].pc, inputs);
      var s' := Run(cfg, s, Solo(c, inputs));
      && s'.sh == sh && s'.callers == s.callers[c := s.callers[c].(pc := pc)]
      && s'.lock == if Holds(pc) then Some(c) else None
    ensures forall e | e in Run(cfg, s, Solo(c, inputs)).log :: e in s.log || e.caller == c
    ensures forall e | e in Run(cfg, s, Solo(c, inputs)).grants :: e in s.grants || e.caller == c
    decreases |inputs|
  {
    if inputs != [] {
      var s' := Next(cfg, s, Advance(c, inputs[0]));
      SoloRun(cfg, s', c, inputs[1..]);
      RunIsNext(cfg, s, Solo(c, inputs));
    }
  }

  /** Without a reply from the provider, nothing was sent. */
  lemma {:induction false} SilentRunSendsNothing(cfg: Config, s: State, c: nat, inputs: seq<Input>)
    requires ValidRun(cfg, s, Solo(c, inputs)) && forall i | i in inputs :: i.Silent?
    ensures Run(cfg, s, Solo(c, inputs)).log == s.log
    decreases |inputs|
  {
    if inputs != [] {
      assert inputs[0] in inputs;
      assert Logged(s, c, s.callers[c].pc, inputs[0]) == [];
      assert s.log + [] == s.log;
      SilentRunSendsNothing(cfg, Next(cfg, s, Advance(c, inputs[0])), c, inputs[1..]);
    }
  }

  /** A call on an expired cache gets ready to present the cached refresh token and client id. */
  lemma CallReadiesCachedPair(cfg: Config, daemon: bool, sh: Shared)
    requires EndpointKnown(cfg, sh) && CachedRefresh(sh.cache).Some? && !CacheUsable(sh)
    ensures
      && AloneOk(cfg, daemon, sh, Enter, [Silent, Silent, Silent, Silent])
      && Alone(cfg, daemon, sh, Enter, [Silent, Silent, Silent, Silent])
         == (sh, Post(CachedRefresh(sh.cache).value, CurrentClient(cfg, sh.cache).GetOr(""), First))
  {
    var refresh := CachedRefresh(sh.cache).value;
    var ready := Post(refresh, CurrentClient(cfg, sh.cache).GetOr(""), First);
    AloneFirst(cfg, daemon, sh, Identify(refresh, First), Silent, sh, ready, []);
    AloneFirst(cfg, daemon, sh, Reread, Silent, sh, Identify(refresh, First), [Silent]);
    AloneFirst(cfg, daemon, sh, AwaitRefresh, Silent, sh, Reread, [Silent, Silent]);
    AloneFirst(cfg, daemon, sh, Enter, Silent, sh, AwaitRefresh, [Silent, Silent, Silent]);
  }

  /** The request that a new call `d` logs when it runs alone and its first refresh breaks. */
  function NextRefresh(cfg: Config, s: State, d: nat): Option<Sent> {
    if !Enabled(cfg, s, Call(d, true)) then None
    else
      var called := Next(cfg, s, Call(d, true));
      if !ValidRun(cfg, called, Solo(d, [Silent, Silent, Silent, Silent])) then None
      else
        var ready := Run(cfg, called, Solo(d, [Silent, Silent, Silent, Silent]));
        if !Enabled(cfg, ready, Advance(d, TokenReply(Broken, {}))) then None
        else
          var log := Next(cfg, ready, Advance(d, TokenReply(Broken, {}))).log;
          if |log| > |ready.log| then Some(log[|ready.log|]) else None
  }

  lemma NextRefreshIsCachedPair(cfg: Config, s: State, d: nat)
    requires EndpointKnown(cfg, s.sh) && s.lock.None? && Unused(s, d)
    requires CachedRefresh(s.sh.cache).Some? && !CacheUsable(s.sh)
    ensures
      var refresh, issuer := CachedRefresh(s.sh.cache).value, s.sh.issuer;
      NextRefresh(cfg, s, d) ==
        Some(Sent(d, refresh, CurrentClient(cfg, s.sh.cache).GetOr(""), refresh in issuer.live,
                  if refresh in issuer.issuedTo then Some(issuer.issuedTo[refresh]) else None, Broken))
  {
    var called := Next(cfg, s, Call(d, true));
    CallReadiesCachedPair(cfg, true, called.sh);
    SoloRun(cfg, called, d, [Silent, Silent, Silent, Silent]);
  }
}
