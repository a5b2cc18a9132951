/**
 Why a `get_token` call fails, and how many grants it asks for, over every run with any other
 processes: at most one, and an interactive call never fails over a refresh.
 */
module TokenReasons {
  import opened Options
  import opened Tokens
  import opened TokenProtocol

  /** The grants that one caller asked for, in order. */
  function OwnGrants(grants: seq<Asked>, c: nat): seq<Asked> {
    if grants == [] then []
    else
      OwnGrants(grants[..|grants| - 1], c)
      + if grants[|grants| - 1].caller == c then [grants[|grants| - 1]] else []
  }

  lemma OwnGrantsAppend(grants: seq<Asked>, e: Asked, c: nat)
    ensures OwnGrants(grants + [e], c) == OwnGrants(grants, c) + if e.caller == c then [e] else []
  {
    assert (grants + [e])[..|grants|] == grants;
  }

  lemma {:induction false} OwnGrantsOfUnused(grants: seq<Asked>, c: nat)
    requires forall e | e in grants :: e.caller != c
    ensures OwnGrants(grants, c) == []
  {
    if grants != [] {
      OwnGrantsOfUnused(grants[..|grants| - 1], c);
    }
  }

  predicate GrantedOnce(own: seq<Asked>, access: string) {
    |own| == 1 && own[0].reply.Granted? && own[0].reply.body.access == access
  }

  /** What a caller has asked for by the time it reaches `pc`, and why it failed. */
  predicate Reasoned(cfg: Config, daemon: bool, own: seq<Asked>, pc: Pc) {
    match pc
    case GrantReplied(reply) => |own| == 1 && own[0].reply == reply
    case Save(token, _) => own == [] || GrantedOnce(own, token.access)
    case Done(Token(access)) => own == [] || GrantedOnce(own, access)
    case Done(Failed(why)) => Reason(cfg, daemon, own, why)
    case Done(Adopted(_)) => own == []
    case Register => own == [] && cfg.clientId.None?
    case _ => own == []
  }

  /** A grant can be asked for whatever has been discovered. */
  predicate CanAlwaysAsk(cfg: Config, daemon: bool) {
    cfg.endpoint && cfg.clientId.Some? && (cfg.grant.ClientCredentials? || (cfg.grant.AuthorizationCode? && !daemon))
  }

  predicate Reason(cfg: Config, daemon: bool, own: seq<Asked>, why: Why) {
    match why
    case NoRefreshToken => daemon && own == []
    case NotRefreshed => daemon && own == []
    case CannotAsk => own == [] && !CanAlwaysAsk(cfg, daemon)
    case NotRegistered => own == [] && cfg.clientId.None?
    case NotGranted => |own| == 1 && !own[0].reply.Granted?
  }

  lemma SectionKeepsReason(cfg: Config, daemon: bool, sh: Shared, pc: Pc, input: Input, own: seq<Asked>, asked: seq<Asked>)
    requires Allowed(sh.issuer, pc, input) && Reasoned(cfg, daemon, own, pc)
    requires if pc.RequestGrant? then |asked| == 1 && asked[0].reply == input.reply else asked == []
    ensures Reasoned(cfg, daemon, own + asked, Section(cfg, daemon, sh, pc, input).1)
  {
    assert own + [] == own;
    assert [] + asked == asked;
  }

  predicate ReasonedState(cfg: Config, s: State) {
    forall c | c in s.callers :: Reasoned(cfg, s.callers[c].daemon, OwnGrants(s.grants, c), s.callers[c].pc)
  }

  /** A step adds its grant request to those of its own caller. */
  lemma OwnGrantsAfter(cfg: Config, s: State, c: nat, input: Input, d: nat)
    requires Enabled(cfg, s, Advance(c, input))
    ensures
      var pc := s.callers[c].pc;
      OwnGrants(Next(cfg, s, Advance(c, input)).grants, d)
      == OwnGrants(s.grants, d) + if d == c && pc.RequestGrant? then [Asked(c, pc.client, input.reply)] else []
  {
    var pc := s.callers[c].pc;
    if pc.RequestGrant? {
      OwnGrantsAppend(s.grants, Asked(c, pc.client, input.reply), d);
    } else {
      assert s.grants + [] == s.grants;
    }
    assert OwnGrants(s.grants, d) + [] == OwnGrants(s.grants, d);
  }

  lemma AdvanceKeepsReason(cfg: Config, s: State, c: nat, input: Input, d: nat)
    requires ReasonedState(cfg, s) && Enabled(cfg, s, Advance(c, input)) && d in s.callers
    ensures
      var s' := Next(cfg, s, Advance(c, input));
      Reasoned(cfg, s'.callers[d].daemon, OwnGrants(s'.grants, d), s'.callers[d].pc)
  {
    OwnGrantsAfter(cfg, s, c, input, d);
    if d == c {
      var pc := s.callers[c].pc;
      SectionKeepsReason(cfg, s.callers[c].daemon, s.sh, pc, input, OwnGrants(s.grants, c),
                         if pc.RequestGrant? then [Asked(c, pc.client, input.reply)] else []);
    } else {
      assert OwnGrants(s.grants, d) + [] == OwnGrants(s.grants, d);
    }
  }

  lemma NextKeepsReason(cfg: Config, s: State, step: Step)
    requires ReasonedState(cfg, s) && Enabled(cfg, s, step)
    ensures ReasonedState(cfg, Next(cfg, s, step))
  {
    match step
    case Call(c, _) => OwnGrantsOfUnused(s.grants, c);
    case CallAdopt(c) => OwnGrantsOfUnused(s.grants, c);
    case Advance(c, input) =>
      var s' := Next(cfg, s, step);
      forall d | d in s'.callers
        ensures Reasoned(cfg, s'.callers[d].daemon, OwnGrants(s'.grants, d), s'.callers[d].pc)
      {
        AdvanceKeepsReason(cfg, s, c, input, d);
      }
    case _ =>
  }

  lemma {:induction false} RunKeepsReason(cfg: Config, s: State, steps: seq<Step>)
    requires ReasonedState(cfg, s) && ValidRun(cfg, s, steps)
    ensures ReasonedState(cfg, Run(cfg, s, steps))
    decreases |steps|
  {
    if steps != [] {
      NextKeepsReason(cfg, s, steps[0]);
      RunKeepsReason(cfg, Next(cfg, s, steps[0]), steps[1..]);
    }
  }

  /**
   Main result, for every run with any other processes: a call asks for at most one grant and returns
   its token if it is given. An interactive call fails only if it could not ask, no client could be
   registered, or the one grant it asked for was not given; only calls in daemon mode fail without
   having tried that.
   */
  lemma CallsFailForReason(cfg: Config, s: State, steps: seq<Step>, c: nat)
    requires Initial(s) && ValidRun(cfg, s, steps)
    requires c in Run(cfg, s, steps).callers && Run(cfg, s, steps).callers[c].pc.Done?
    ensures
      var s' := Run(cfg, s, steps);
      var own := OwnGrants(s'.grants, c);
      var outcome := s'.callers[c].pc.outcome;
      && |own| <= 1
      && (|own| == 1 && own[0].reply.Granted? ==> outcome == Token(own[0].reply.body.access))
      && (|own| == 1 && !own[0].reply.Granted? ==> outcome == Failed(NotGranted))
      && (outcome == Failed(NotGranted) ==> |own| == 1)
      && (outcome.Failed? && !s'.callers[c].daemon ==> outcome.why in {CannotAsk, NotRegistered, NotGranted})
      && (outcome == Failed(NotRegistered) ==> cfg.clientId.None?)
      && (outcome == Failed(CannotAsk) ==> !CanAlwaysAsk(cfg, s'.callers[c].daemon))
  {
    RunKeepsReason(cfg, s, steps);
    var s' := Run(cfg, s, steps);
    assert Reasoned(cfg, s'.callers[c].daemon, OwnGrants(s'.grants, c), s'.callers[c].pc);
  }
}
