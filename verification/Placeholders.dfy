/**
 Expansion of `{{env:NAME}}` and `{{secret:NAME}}` in configuration values: a bounded loop of
 find-and-replace on the text, against simultaneous substitution in a template.
 */
module Placeholders {
  import opened Options

  const MAX_PASSES := 16

  /** The process environment, and the upper-casing that secret names go through. */
  datatype World = World(env: map<string, string>, upper: string -> string)

  datatype Kind = Env | Secret

  function Opening(kind: Kind): string {
    match kind
    case Env => "{{env:"
    case Secret => "{{secret:"
  }

  function Lookup(w: World, kind: Kind, name: string): Option<string> {
    var key := if kind.Env? then name else "HEADLESS_MCP_SECRET_" + w.upper(name);
    if key in w.env then Some(w.env[key]) else None
  }

  function Marker(name: string): string {
    "{{unresolved:" + name + "}}"
  }

  // ---- the loop on text ----

  /** The text cut in two where `pat` first starts in it. */
  function Break(s: string, pat: string): Option<(string, string)> {
    if pat <= s then Some(("", s))
    else if s == "" then None
    else
      var rest := Break(s[1..], pat);
      if rest.Some? then Some(([s[0]] + rest.value.0, rest.value.1)) else None
  }

  /** `pat` is in `s` at position `i`. */
  predicate StartsAt(s: string, pat: string, i: nat) {
    i + |pat| <= |s| && s[i..i + |pat|] == pat
  }

  /** Both parts together are the text, and the second starts with `pat`. */
  lemma {:induction false} BreakCuts(s: string, pat: string)
    requires Break(s, pat).Some?
    ensures s == Break(s, pat).value.0 + Break(s, pat).value.1 && pat <= Break(s, pat).value.1
  {
    if !(pat <= s) {
      BreakCuts(s[1..], pat);
      var (before, tail) := Break(s[1..], pat).value;
      assert s == [s[0]] + (before + tail);
    }
  }

  lemma StartsInRest(s: string, pat: string, i: nat)
    requires i > 0 && s != "" && StartsAt(s, pat, i)
    ensures StartsAt(s[1..], pat, i - 1)
  {
    assert s[1..][i - 1..i - 1 + |pat|] == s[i..i + |pat|];
  }

  /** It starts nowhere before. */
  lemma {:induction false} BreakIsFirst(s: string, pat: string, i: nat)
    requires StartsAt(s, pat, i)
    ensures Break(s, pat).Some? && |Break(s, pat).value.0| <= i
  {
    if i == 0 {
      assert s[..|pat|] == pat;
    } else if !(pat <= s) {
      StartsInRest(s, pat, i);
      BreakIsFirst(s[1..], pat, i - 1);
    }
  }

  datatype Attempt = Absent | Unclosed | Replaced(text: string)

  lemma OpeningHasNoClose(kind: Kind)
    ensures forall j | 0 <= j < |Opening(kind)| :: Opening(kind)[j] != '}'
  {
  }

  /** The closing braces of a placeholder come after its opening. */
  lemma CloseFollowsOpening(tail: string, kind: Kind)
    requires Opening(kind) <= tail && Break(tail, "}}").Some?
    ensures |Opening(kind)| <= |Break(tail, "}}").value.0| && |Break(tail, "}}").value.1| >= 2
  {
    BreakCuts(tail, "}}");
    var (before, rest) := Break(tail, "}}").value;
    OpeningHasNoClose(kind);
    assert tail[|before|] == rest[0] == '}';
    assert forall j | 0 <= j < |Opening(kind)| :: tail[j] == Opening(kind)[j];
  }

  /** Replaces the placeholder at the front of `tail`. */
  function Splice(w: World, before: string, tail: string, kind: Kind): Attempt
    requires Opening(kind) <= tail
  {
    var close := Break(tail, "}}");
    if close.None? then Unclosed
    else
      CloseFollowsOpening(tail, kind);
      var name := close.value.0[|Opening(kind)|..];
      Replaced(before + (Lookup(w, kind, name).GetOr(Marker(name)) + close.value.1[2..]))
  }

  /** One search for a placeholder of a kind, and its replacement. */
  function ReplaceFirst(w: World, s: string, kind: Kind): Attempt {
    var found := Break(s, Opening(kind));
    if found.None? then Absent
    else
      BreakCuts(s, Opening(kind));
      Splice(w, found.value.0, found.value.1, kind)
  }

  /** One pass: an environment placeholder if there is one, else a secret; `None` ends the loop. */
  function Pass(w: World, s: string): Option<string> {
    match ReplaceFirst(w, s, Env)
    case Replaced(text) => Some(text)
    case Unclosed => None
    case Absent =>
      match ReplaceFirst(w, s, Secret)
      case Replaced(text) => Some(text)
      case _ => None
  }

  /** Steps taken one after the other, at most `n`, until there is none. */
  function Iterate<T>(step: T -> Option<T>, x: T, n: nat): T
    decreases n
  {
    if n == 0 || step(x).None? then x else Iterate(step, step(x).value, n - 1)
  }

  function Passer(w: World): string -> Option<string> {
    s => Pass(w, s)
  }

  function Passes(w: World, s: string, n: nat): string {
    Iterate(Passer(w), s, n)
  }

  /** `step` is a round of the loop; the loop itself needs to know no more of it. */
  ghost predicate IsPass(w: World, step: string -> Option<string>) {
    forall s {:trigger Passer(w)(s)} :: step(s) == Passer(w)(s)
  }

  /** One round of the loop: looks for an environment placeholder, and if there is none for a secret. */
  method PassOnce(w: World, s: string, ghost step: string -> Option<string>) returns (result: string, changed: bool)
    requires IsPass(w, step)
    ensures step(s) == if changed then Some(result) else None
  {
    assert step(s) == Passer(w)(s);
    result, changed := s, false;
    var attempt := ReplaceFirst(w, s, Env);
    if attempt.Replaced? {
      result, changed := attempt.text, true;
    } else if attempt.Absent? {
      attempt := ReplaceFirst(w, s, Secret);
      if attempt.Replaced? {
        result, changed := attempt.text, true;
      }
    }
  }

  /** The loop, with any limit on its rounds. */
  method Expand(w: World, raw: string, limit: nat, ghost step: string -> Option<string>) returns (result: string)
    requires IsPass(w, step)
    ensures result == Iterate(step, raw, limit)
  {
    result := raw;
    for i := 0 to limit
      invariant Iterate(step, result, limit - i) == Iterate(step, raw, limit)
    {
      var next, changed := PassOnce(w, result, step);
      if !changed {
        break;
      }
      result := next;
    }
  }

  /** `resolve_value`. */
  method ResolveValue(w: World, raw: string) returns (result: string)
    ensures result == Passes(w, raw, MAX_PASSES)
  {
    result := Expand(w, raw, MAX_PASSES, Passer(w));
  }

  // ---- templates ----

  /** A piece of a template: literal text, a placeholder, or the marker of one that is unset. */
  datatype Piece = Lit(text: string) | Hole(kind: Kind, name: string) | Unset(name: string)

  predicate Braceless(s: string) {
    forall i | 0 <= i < |s| :: s[i] != '{' && s[i] != '}'
  }

  function Render(p: Piece): string {
    match p
    case Lit(text) => text
    case Hole(kind, name) => Opening(kind) + name + "}}"
    case Unset(name) => Marker(name)
  }

  function RenderAll(t: seq<Piece>): string {
    if t == [] then "" else Render(t[0]) + RenderAll(t[1..])
  }

  function Resolve(w: World, p: Piece): Piece {
    if !p.Hole? then p
    else
      var value := Lookup(w, p.kind, p.name);
      if value.Some? then Lit(value.value) else Unset(p.name)
  }

  /** The reference: every placeholder replaced at once. */
  function ResolveAll(w: World, t: seq<Piece>): seq<Piece> {
    if t == [] then [] else [Resolve(w, t[0])] + ResolveAll(w, t[1..])
  }

  function Holes(t: seq<Piece>): nat {
    if t == [] then 0 else (if t[0].Hole? then 1 else 0) + Holes(t[1..])
  }

  predicate Has(t: seq<Piece>, kind: Kind) {
    t != [] && ((t[0].Hole? && t[0].kind == kind) || Has(t[1..], kind))
  }

  /** The template with its first placeholder of a kind replaced. */
  function ResolveOne(w: World, t: seq<Piece>, kind: Kind): seq<Piece>
    requires Has(t, kind)
  {
    if t[0].Hole? && t[0].kind == kind then [Resolve(w, t[0])] + t[1..] else [t[0]] + ResolveOne(w, t[1..], kind)
  }

  /** Literals, names and the values looked up contain no braces. */
  predicate Clean(w: World, p: Piece) {
    match p
    case Lit(text) => Braceless(text)
    case Hole(kind, name) => Braceless(name) && (Lookup(w, kind, name).Some? ==> Braceless(Lookup(w, kind, name).value))
    case Unset(name) => Braceless(name)
  }

  predicate CleanAll(w: World, t: seq<Piece>) {
    forall i | 0 <= i < |t| :: Clean(w, t[i])
  }

  // ---- finding placeholders in a rendered template ----

  /** No occurrence of `pat` starts inside the first `n` characters. */
  predicate NoneStartsBefore(s: string, pat: string, n: nat) {
    forall i: nat | i < n :: !StartsAt(s, pat, i)
  }

  /** The cut of a text with more text in front of it. */
  function After(a: string, cut: Option<(string, string)>): Option<(string, string)> {
    if cut.Some? then Some((a + cut.value.0, cut.value.1)) else None
  }

  lemma StartsOneLater(a: string, b: string, pat: string, i: nat)
    requires a != "" && StartsAt(a[1..] + b, pat, i)
    ensures StartsAt(a + b, pat, i + 1)
  {
    assert (a + b)[i + 1..i + 1 + |pat|] == (a[1..] + b)[i..i + |pat|];
  }

  lemma PrefixStarts(s: string, pat: string)
    requires pat <= s
    ensures StartsAt(s, pat, 0)
  {
    assert s[0..0 + |pat|] == pat;
  }

  lemma {:induction false} BreakSkips(a: string, b: string, pat: string)
    requires NoneStartsBefore(a + b, pat, |a|)
    ensures Break(a + b, pat) == After(a, Break(b, pat))
    decreases |a|
  {
    if a == "" {
      assert a + b == b;
      assert After("", Break(b, pat)) == Break(b, pat) by {
        if Break(b, pat).Some? {
          assert "" + Break(b, pat).value.0 == Break(b, pat).value.0;
        }
      }
    } else {
      forall i: nat | i < |a| - 1
        ensures !StartsAt(a[1..] + b, pat, i)
      {
        if StartsAt(a[1..] + b, pat, i) {
          StartsOneLater(a, b, pat, i);
        }
      }
      BreakSkips(a[1..], b, pat);
      assert !StartsAt(a + b, pat, 0);
      if pat <= a + b {
        PrefixStarts(a + b, pat);
      }
      assert (a + b)[1..] == a[1..] + b;
      if Break(b, pat).Some? {
        assert [a[0]] + (a[1..] + Break(b, pat).value.0) == a + Break(b, pat).value.0;
      }
    }
  }

  /** A letter after the two opening braces tells the kinds of pieces apart; no other brace opens. */
  lemma PieceShape(w: World, p: Piece)
    requires Clean(w, p) && !p.Lit?
    ensures |Render(p)| > 2
    ensures Render(p)[2] == if p.Unset? then 'u' else if p.kind.Env? then 'e' else 's'
    ensures forall i | 2 <= i < |Render(p)| :: Render(p)[i] != '{'
  {
  }

  /** A piece that is not a placeholder of the kind contains no start of one. */
  lemma OtherPieceHasNoOpening(w: World, p: Piece, kind: Kind, rest: string)
    requires Clean(w, p) && !(p.Hole? && p.kind == kind)
    ensures NoneStartsBefore(Render(p) + rest, Opening(kind), |Render(p)|)
  {
    var s, pat := Render(p) + rest, Opening(kind);
    assert |pat| > 2 && pat[0] == '{' && pat[1] == '{' && pat[2] == if kind.Env? then 'e' else 's';
    if !p.Lit? {
      PieceShape(w, p);
      NoOpeningInside(s, |Render(p)|, pat);
    } else {
      assert forall i | 0 <= i < |p.text| :: s[i] != pat[0];
    }
  }

  lemma NoOpeningInside(s: string, n: nat, pat: string)
    requires 2 < n <= |s| && |pat| > 2 && pat[0] == '{' && pat[1] == '{' && pat[2] != s[2]
    requires forall i | 2 <= i < n :: s[i] != '{'
    ensures NoneStartsBefore(s, pat, n)
  {
    forall i: nat | i < n
      ensures !StartsAt(s, pat, i)
    {
      if i + |pat| <= |s| {
        var there := s[i..i + |pat|];
        assert there[0] == s[i] && there[1] == s[i + 1] && there[2] == s[i + 2];
      }
    }
  }

  // ---- one pass on a rendered template ----

  lemma NoStart(a: string, b: string, pat: string)
    requires pat != "" && forall i | 0 <= i < |a| :: a[i] != pat[0]
    ensures NoneStartsBefore(a + b, pat, |a|)
  {
    forall i: nat | i < |a|
      ensures !StartsAt(a + b, pat, i)
    {
      assert i + |pat| <= |a + b| ==> (a + b)[i..i + |pat|][0] == a[i];
    }
  }

  lemma FindClose(kind: Kind, name: string, rest: string)
    requires Braceless(name)
    ensures Break(Opening(kind) + name + "}}" + rest, "}}") == Some((Opening(kind) + name, "}}" + rest))
  {
    var head := Opening(kind) + name;
    OpeningHasNoClose(kind);
    assert forall i | 0 <= i < |head| :: head[i] != '}';
    assert Opening(kind) + name + "}}" + rest == head + ("}}" + rest);
    NoStart(head, "}}" + rest, "}}");
    BreakSkips(head, "}}" + rest, "}}");
    assert "}}" <= "}}" + rest;
    assert head + "" == head;
  }

  lemma SpliceAtFront(w: World, kind: Kind, name: string, rest: string)
    requires Braceless(name)
    ensures
      var tail := Opening(kind) + name + "}}" + rest;
      && Opening(kind) <= tail
      && Splice(w, "", tail, kind) == Replaced(Lookup(w, kind, name).GetOr(Marker(name)) + rest)
  {
    FindClose(kind, name, rest);
    assert (Opening(kind) + name)[|Opening(kind)|..] == name;
    assert ("}}" + rest)[2..] == rest;
    var out := Lookup(w, kind, name).GetOr(Marker(name)) + rest;
    assert "" + out == out;
  }

  /** A placeholder at the front is replaced. */
  lemma ReplaceAtFront(w: World, p: Piece, rest: string)
    requires p.Hole? && Clean(w, p)
    ensures ReplaceFirst(w, Render(p) + rest, p.kind) == Replaced(Render(Resolve(w, p)) + rest)
  {
    var s := Render(p) + rest;
    SpliceAtFront(w, p.kind, p.name, rest);
    assert Break(s, Opening(p.kind)) == Some(("", s));
  }

  function Behind(a: string, attempt: Attempt): Attempt {
    if attempt.Replaced? then Replaced(a + attempt.text) else attempt
  }

  lemma SpliceBehind(w: World, a: string, before: string, tail: string, kind: Kind)
    requires Opening(kind) <= tail
    ensures Splice(w, a + before, tail, kind) == Behind(a, Splice(w, before, tail, kind))
  {
  }

  /** Text in front without an opening stays in front. */
  lemma ReplaceBehind(w: World, a: string, b: string, kind: Kind)
    requires NoneStartsBefore(a + b, Opening(kind), |a|)
    ensures ReplaceFirst(w, a + b, kind) == Behind(a, ReplaceFirst(w, b, kind))
  {
    BreakSkips(a, b, Opening(kind));
    var found := Break(b, Opening(kind));
    if found.Some? {
      BreakCuts(b, Opening(kind));
      SpliceBehind(w, a, found.value.0, found.value.1, kind);
    }
  }

  lemma {:induction false} ReplaceInTemplate(w: World, t: seq<Piece>, kind: Kind)
    requires CleanAll(w, t)
    ensures
      ReplaceFirst(w, RenderAll(t), kind) ==
        if Has(t, kind) then Replaced(RenderAll(ResolveOne(w, t, kind))) else Absent
  {
    if t != [] {
      var p, rest := t[0], RenderAll(t[1..]);
      if p.Hole? && p.kind == kind {
        ReplaceAtFront(w, p, rest);
      } else {
        OtherPieceHasNoOpening(w, p, kind, rest);
        ReplaceBehind(w, Render(p), rest, kind);
        ReplaceInTemplate(w, t[1..], kind);
      }
    }
  }

  /** The placeholder that a pass picks. */
  function Pick(t: seq<Piece>): Kind {
    if Has(t, Env) then Env else Secret
  }

  lemma PassOnTemplate(w: World, t: seq<Piece>)
    requires CleanAll(w, t)
    ensures
      Pass(w, RenderAll(t)) ==
        if Has(t, Pick(t)) then Some(RenderAll(ResolveOne(w, t, Pick(t)))) else None
  {
    ReplaceInTemplate(w, t, Env);
    ReplaceInTemplate(w, t, Secret);
  }

  lemma {:induction false} HolesAreFound(t: seq<Piece>)
    ensures Holes(t) == 0 <==> !Has(t, Env) && !Has(t, Secret)
  {
    if t != [] {
      HolesAreFound(t[1..]);
    }
  }

  lemma ResolveKeepsClean(w: World, p: Piece)
    requires Clean(w, p)
    ensures Clean(w, Resolve(w, p)) && !Resolve(w, p).Hole? && Resolve(w, Resolve(w, p)) == Resolve(w, p)
  {
  }

  /** Resolving one placeholder leaves one less, keeps the template clean and changes no final value. */
  lemma {:induction false} ResolveOneProgress(w: World, t: seq<Piece>, kind: Kind)
    requires CleanAll(w, t) && Has(t, kind)
    ensures Holes(ResolveOne(w, t, kind)) == Holes(t) - 1
    ensures CleanAll(w, ResolveOne(w, t, kind))
    ensures ResolveAll(w, ResolveOne(w, t, kind)) == ResolveAll(w, t)
  {
    if t[0].Hole? && t[0].kind == kind {
      ResolveKeepsClean(w, t[0]);
    } else {
      ResolveOneProgress(w, t[1..], kind);
    }
  }

  lemma {:induction false} NothingLeftToResolve(w: World, t: seq<Piece>)
    requires Holes(t) == 0
    ensures ResolveAll(w, t) == t
  {
    if t != [] {
      NothingLeftToResolve(w, t[1..]);
      assert t == [t[0]] + t[1..];
    }
  }

  lemma {:induction false} ResolvedHasNoHoles(w: World, t: seq<Piece>)
    requires CleanAll(w, t)
    ensures Holes(ResolveAll(w, t)) == 0 && CleanAll(w, ResolveAll(w, t))
  {
    if t != [] {
      ResolveKeepsClean(w, t[0]);
      ResolvedHasNoHoles(w, t[1..]);
    }
  }

  /** What a pass does to a template. */
  function Fill(w: World, t: seq<Piece>): Option<seq<Piece>> {
    if Has(t, Pick(t)) then Some(ResolveOne(w, t, Pick(t))) else None
  }

  function Filler(w: World): seq<Piece> -> Option<seq<Piece>> {
    t => Fill(w, t)
  }

  /** The template after `n` passes. */
  function Remaining(w: World, t: seq<Piece>, n: nat): seq<Piece> {
    Iterate(Filler(w), t, n)
  }

  /** A step seen through `show` is a step of the other kind, and `ok` is kept. */
  ghost predicate Shows<S(!new), T(!new)>(f: S -> Option<S>, g: T -> Option<T>, show: T -> S, ok: T -> bool) {
    forall x | ok(x) ::
      && f(show(x)) == (if g(x).Some? then Some(show(g(x).value)) else None)
      && (g(x).Some? ==> ok(g(x).value))
  }

  lemma {:induction false} IterateShows<S(!new), T(!new)>(
      f: S -> Option<S>, g: T -> Option<T>, show: T -> S, ok: T -> bool, x: T, n: nat)
    requires Shows(f, g, show, ok) && ok(x)
    ensures Iterate(f, show(x), n) == show(Iterate(g, x, n))
    decreases n
  {
    if n > 0 && g(x).Some? {
      IterateShows(f, g, show, ok, g(x).value, n - 1);
    }
  }

  lemma PassFills(w: World, t: seq<Piece>)
    requires CleanAll(w, t)
    ensures Passer(w)(RenderAll(t)) == if Fill(w, t).Some? then Some(RenderAll(Fill(w, t).value)) else None
    ensures Fill(w, t).Some? ==> CleanAll(w, Fill(w, t).value)
  {
    PassOnTemplate(w, t);
    if Fill(w, t).Some? {
      ResolveOneProgress(w, t, Pick(t));
    }
  }

  lemma PassesOnTemplate(w: World, t: seq<Piece>, n: nat)
    requires CleanAll(w, t)
    ensures Passes(w, RenderAll(t), n) == RenderAll(Remaining(w, t, n))
  {
    forall u | CleanAll(w, u)
      ensures Passer(w)(RenderAll(u)) == if Filler(w)(u).Some? then Some(RenderAll(Filler(w)(u).value)) else None
      ensures Filler(w)(u).Some? ==> CleanAll(w, Filler(w)(u).value)
    {
      PassFills(w, u);
    }
    IterateShows(Passer(w), Filler(w), RenderAll, u => CleanAll(w, u), t, n);
  }

  /** Each pass takes one placeholder away, as long as there are any. */
  lemma {:induction false} RemainingHoles(w: World, t: seq<Piece>, n: nat)
    requires CleanAll(w, t)
    ensures Holes(Remaining(w, t, n)) == if Holes(t) <= n then 0 else Holes(t) - n
    ensures CleanAll(w, Remaining(w, t, n)) && ResolveAll(w, Remaining(w, t, n)) == ResolveAll(w, t)
    decreases n
  {
    HolesAreFound(t);
    if n > 0 && Has(t, Pick(t)) {
      ResolveOneProgress(w, t, Pick(t));
      RemainingHoles(w, ResolveOne(w, t, Pick(t)), n - 1);
    }
  }

  /** With any limit on the passes, the loop is simultaneous substitution exactly up to that many placeholders. */
  lemma PassesSubstituteIff(w: World, t: seq<Piece>, n: nat)
    requires CleanAll(w, t)
    ensures Passes(w, RenderAll(t), n) == RenderAll(ResolveAll(w, t)) <==> Holes(t) <= n
  {
    var left := Remaining(w, t, n);
    PassesOnTemplate(w, t, n);
    RemainingHoles(w, t, n);
    if Holes(t) <= n {
      NothingLeftToResolve(w, left);
    } else {
      ResolvedHasNoHoles(w, t);
      RenderingShowsHoles(w, left, ResolveAll(w, t));
    }
  }

  /** A template with placeholders does not look like one without. */
  lemma RenderingShowsHoles(w: World, left: seq<Piece>, done: seq<Piece>)
    requires CleanAll(w, left) && CleanAll(w, done) && Holes(left) > 0 && Holes(done) == 0
    ensures RenderAll(left) != RenderAll(done)
  {
    PassOnTemplate(w, left);
    PassOnTemplate(w, done);
    HolesAreFound(left);
    HolesAreFound(done);
  }

  /**
   Main result: on clean templates the loop is simultaneous substitution exactly when there are at
   most sixteen placeholders; names that are not set are left visible by their marker.
   */
  lemma LoopIsSubstitutionIff(w: World, t: seq<Piece>)
    requires CleanAll(w, t)
    ensures Passes(w, RenderAll(t), MAX_PASSES) == RenderAll(ResolveAll(w, t)) <==> Holes(t) <= 16
  {
    PassesSubstituteIff(w, t, MAX_PASSES);
  }

  // ---- single placeholders ----

  /** What a placeholder stands for: the variable of its kind, or the marker. */
  function ValueOf(w: World, kind: Kind, name: string): string {
    var key := if kind.Secret? then "HEADLESS_MCP_SECRET_" + w.upper(name) else name;
    if key in w.env then w.env[key] else "{{unresolved:" + name + "}}"
  }

  function OpeningOf(kind: Kind): string {
    if kind.Secret? then "{{secret:" else "{{env:"
  }

  /** A value with one placeholder: it is replaced, and the text around it stays. */
  lemma OnePlaceholder(w: World, kind: Kind, before: string, name: string, after: string)
    requires Braceless(before) && Braceless(after) && Clean(w, Hole(kind, name))
    ensures
      Passes(w, before + OpeningOf(kind) + name + "}}" + after, MAX_PASSES) == before + ValueOf(w, kind, name) + after
  {
    var hole := Hole(kind, name);
    HoleIs(w, kind, name);
    RenderThree(Lit(before), hole, Lit(after));
    RenderThree(Lit(before), Resolve(w, hole), Lit(after));
    ResolveThree(w, Lit(before), hole, Lit(after));
    LoopIsSubstitutionIff(w, [Lit(before), hole, Lit(after)]);
    Reassociate(before, OpeningOf(kind), name, "}}", after);
  }

  lemma Reassociate(a: string, b: string, c: string, d: string, e: string)
    ensures a + (b + c + d) + e == a + b + c + d + e
  {
  }

  lemma HoleIs(w: World, kind: Kind, name: string)
    ensures Render(Hole(kind, name)) == OpeningOf(kind) + name + "}}"
    ensures Render(Resolve(w, Hole(kind, name))) == ValueOf(w, kind, name)
  {
  }

  lemma ResolveThree(w: World, a: Piece, b: Piece, c: Piece)
    ensures ResolveAll(w, [a, b, c]) == [Resolve(w, a), Resolve(w, b), Resolve(w, c)]
    ensures Holes([a, b, c]) <= 3
  {
    assert [a, b, c][1..] == [b, c] && [b, c][1..] == [c] && [c][1..] == [];
    assert Holes([c]) == (if c.Hole? then 1 else 0) + Holes([]);
    assert Holes([b, c]) == (if b.Hole? then 1 else 0) + Holes([c]);
    assert ResolveAll(w, [c]) == [Resolve(w, c)] + ResolveAll(w, []);
    assert ResolveAll(w, [b, c]) == [Resolve(w, b)] + ResolveAll(w, [c]);
  }

  lemma RenderThree(a: Piece, b: Piece, c: Piece)
    ensures RenderAll([a, b, c]) == Render(a) + Render(b) + Render(c)
  {
    assert [a, b, c][1..] == [b, c] && [b, c][1..] == [c] && [c][1..] == [];
    assert Render(c) + "" == Render(c);
  }

  lemma NoneInEither(a: string, b: string, rest: string, pat: string)
    requires NoneStartsBefore(a + (b + rest), pat, |a|) && NoneStartsBefore(b + rest, pat, |b|)
    ensures NoneStartsBefore((a + b) + rest, pat, |a + b|)
  {
    var s := a + (b + rest);
    assert (a + b) + rest == s;
    forall i: nat | i < |a + b| && StartsAt(s, pat, i)
      ensures i < |a| || StartsAt(b + rest, pat, i - |a|)
    {
      if i >= |a| {
        assert (b + rest)[i - |a|..i - |a| + |pat|] == s[i..i + |pat|];
      }
    }
  }

  /** A template without a kind of placeholder has no start of one. */
  lemma {:induction false} NoneInTemplate(w: World, t: seq<Piece>, rest: string, kind: Kind)
    requires CleanAll(w, t) && !Has(t, kind)
    ensures NoneStartsBefore(RenderAll(t) + rest, Opening(kind), |RenderAll(t)|)
  {
    if t != [] {
      OtherPieceHasNoOpening(w, t[0], kind, RenderAll(t[1..]) + rest);
      NoneInTemplate(w, t[1..], rest, kind);
      NoneInEither(Render(t[0]), RenderAll(t[1..]), rest, Opening(kind));
    }
  }

  lemma {:induction false} NoCloseFound(s: string)
    requires forall i | 0 <= i < |s| :: s[i] != '}'
    ensures Break(s, "}}").None?
  {
    if s != "" {
      NoCloseFound(s[1..]);
      assert "}}"[0] == '}' && s[0] != '}';
    }
  }

  lemma UnclosedIsSeen(w: World, kind: Kind, name: string)
    requires Braceless(name)
    ensures ReplaceFirst(w, Opening(kind) + name, kind) == Unclosed
  {
    var s := Opening(kind) + name;
    OpeningHasNoClose(kind);
    NoCloseFound(s);
    assert Break(s, Opening(kind)) == Some(("", s));
  }

  /** An environment placeholder that is never closed ends the loop, even before secrets that are. */
  lemma UnclosedEndsLoop(w: World, t: seq<Piece>, name: string, n: nat)
    requires CleanAll(w, t) && !Has(t, Env) && Braceless(name)
    ensures Passes(w, RenderAll(t) + ("{{env:" + name), n) == RenderAll(t) + ("{{env:" + name)
  {
    UnclosedIsSeen(w, Env, name);
    NoneInTemplate(w, t, "{{env:" + name, Env);
    ReplaceBehind(w, RenderAll(t), "{{env:" + name, Env);
  }
}
