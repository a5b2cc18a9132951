/**
 Text as lines: splitting and joining at line breaks, and a reader that consumes a growing buffer
 line by line with an arbitrary step per line.
 */
module Lines {

  /** The first position of `c`, or the length if there is none. */
  function Find(s: string, c: char): (i: nat)
    ensures i <= |s| && (forall k | 0 <= k < i :: s[k] != c) && (i < |s| ==> s[i] == c)
  {
    if s == "" || s[0] == c then 0 else 1 + Find(s[1..], c)
  }

  predicate Unbroken(line: string) {
    forall k | 0 <= k < |line| :: line[k] != '\n'
  }

  /** The pieces between line breaks; the last one has no break after it. */
  function Split(s: string): (lines: seq<string>)
    ensures lines != []
    ensures forall l | l in lines :: Unbroken(l)
    decreases |s|
  {
    var i := Find(s, '\n');
    if i == |s| then [s] else [s[..i]] + Split(s[i + 1..])
  }

  function Join(lines: seq<string>): string {
    if lines == [] then "" else if |lines| == 1 then lines[0] else lines[0] + "\n" + Join(lines[1..])
  }

  /** Every line with a break after it. */
  function Unlines(lines: seq<string>): string {
    if lines == [] then "" else lines[0] + "\n" + Unlines(lines[1..])
  }

  lemma SplitLine(line: string, rest: string)
    requires Unbroken(line)
    ensures Split(line + "\n" + rest) == [line] + Split(rest)
  {
    var s := line + "\n" + rest;
    assert s[|line|] == '\n' && s[..|line|] == line && s[|line| + 1..] == rest;
    assert Find(s, '\n') == |line|;
  }

  lemma CutAtBreak(s: string, i: nat)
    requires i < |s| && s[i] == '\n'
    ensures s == s[..i] + "\n" + s[i + 1..]
  {
  }

  lemma JoinFirst(line: string, rest: seq<string>)
    requires rest != []
    ensures Join([line] + rest) == line + "\n" + Join(rest)
  {
    assert ([line] + rest)[1..] == rest;
  }

  lemma {:induction false} JoinSplit(s: string)
    ensures Join(Split(s)) == s
    decreases |s|
  {
    var i := Find(s, '\n');
    if i < |s| {
      JoinSplit(s[i + 1..]);
      JoinFirst(s[..i], Split(s[i + 1..]));
      CutAtBreak(s, i);
    }
  }

  lemma {:induction false} SplitJoin(lines: seq<string>)
    requires lines != [] && forall l | l in lines :: Unbroken(l)
    ensures Split(Join(lines)) == lines
  {
    if |lines| == 1 {
      SplitSingle(lines[0]);
      assert lines == [lines[0]];
    } else {
      SplitLine(lines[0], Join(lines[1..]));
      SplitJoin(lines[1..]);
      assert lines == [lines[0]] + lines[1..];
    }
  }

  lemma {:induction false} SplitUnlines(lines: seq<string>, rest: string)
    requires forall l | l in lines :: Unbroken(l)
    ensures Split(Unlines(lines) + rest) == lines + Split(rest)
    decreases |lines|
  {
    if lines == [] {
      assert "" + rest == rest;
    } else {
      assert Unlines(lines) + rest == lines[0] + "\n" + (Unlines(lines[1..]) + rest);
      SplitLine(lines[0], Unlines(lines[1..]) + rest);
      SplitUnlines(lines[1..], rest);
    }
  }

  lemma {:induction false} UnlinesAppend(a: seq<string>, b: seq<string>)
    ensures Unlines(a + b) == Unlines(a) + Unlines(b)
    decreases |a|
  {
    if a == [] {
      assert a + b == b;
    } else {
      assert (a + b)[1..] == a[1..] + b;
      UnlinesAppend(a[1..], b);
    }
  }

  function Last(lines: seq<string>): string
    requires lines != []
  {
    lines[|lines| - 1]
  }

  function ButLast(lines: seq<string>): seq<string>
    requires lines != []
  {
    lines[..|lines| - 1]
  }

  lemma SplitSingle(line: string)
    requires Unbroken(line)
    ensures Split(line) == [line]
  {
  }

  /** Text that arrives later continues the last line. */
  lemma {:induction false} SplitConcat(a: string, b: string)
    ensures Split(a + b) == ButLast(Split(a)) + Split(Last(Split(a)) + b)
    decreases |a|
  {
    var i := Find(a, '\n');
    if i == |a| {
      SplitSingle(a);
      assert [] + Split(a + b) == Split(a + b);
    } else {
      var line, rest := a[..i], a[i + 1..];
      assert a + b == line + "\n" + (rest + b);
      SplitLine(line, rest + b);
      SplitConcat(rest, b);
      Regroup(line, Split(rest), Split(Last(Split(rest)) + b));
    }
  }

  lemma Regroup(line: string, tail: seq<string>, more: seq<string>)
    requires tail != []
    ensures ButLast([line] + tail) + more == [line] + (ButLast(tail) + more)
    ensures Last([line] + tail) == Last(tail)
  {
    assert ButLast([line] + tail) == [line] + ButLast(tail);
  }

  // ---- reading line by line ----

  /** The state and the output after a sequence of lines. */
  function Fold<S, E>(step: (S, string) -> (S, seq<E>), state: S, lines: seq<string>): (S, seq<E>)
    decreases |lines|
  {
    if lines == [] then (state, [])
    else
      var (state', out) := step(state, lines[0]);
      var (state'', more) := Fold(step, state', lines[1..]);
      (state'', out + more)
  }

  lemma {:induction false} FoldConcat<S, E>(step: (S, string) -> (S, seq<E>), state: S, a: seq<string>, b: seq<string>)
    ensures
      var (state', out) := Fold(step, state, a);
      var (state'', more) := Fold(step, state', b);
      Fold(step, state, a + b) == (state'', out + more)
    decreases |a|
  {
    if a == [] {
      assert a + b == b;
      var more := Fold(step, state, b).1;
      assert [] + more == more;
    } else {
      var (state', out) := step(state, a[0]);
      assert (a + b)[1..] == a[1..] + b;
      FoldConcat(step, state', a[1..], b);
      var (mid, more) := Fold(step, state', a[1..]);
      var last := Fold(step, mid, b).1;
      assert out + (more + last) == (out + more) + last;
    }
  }

  lemma FoldOne<S, E>(step: (S, string) -> (S, seq<E>), state: S, line: string)
    ensures Fold(step, state, [line]) == step(state, line)
  {
    var out := step(state, line).1;
    assert out + [] == out;
  }

  /** Lines without output: only the states they lead through matter. */
  lemma {:induction false} FoldSilent<S, E>(step: (S, string) -> (S, seq<E>), states: seq<S>, lines: seq<string>, rest: seq<string>)
    requires |states| == |lines| + 1
    requires forall i | 0 <= i < |lines| :: step(states[i], lines[i]) == (states[i + 1], [])
    ensures Fold(step, states[0], lines + rest) == Fold(step, states[|lines|], rest)
    decreases |lines|
  {
    if lines == [] {
      assert lines + rest == rest;
    } else {
      assert (lines + rest)[1..] == lines[1..] + rest;
      FoldSilent(step, states[1..], lines[1..], rest);
      var out := Fold(step, states[1], lines[1..] + rest).1;
      assert [] + out == out;
    }
  }

  datatype Reading<S, E> = Reading(state: S, rest: string, out: seq<E>)

  /** Reads a buffer up to its last line break: the state reached, what is left and what came out. */
  function Drain<S, E>(step: (S, string) -> (S, seq<E>), state: S, buffer: string): Reading<S, E> {
    var (state', out) := Fold(step, state, ButLast(Split(buffer)));
    Reading(state', Last(Split(buffer)), out)
  }

  function Prefixed<S, E>(out: seq<E>, r: Reading<S, E>): Reading<S, E> {
    r.(out := out + r.out)
  }

  lemma FoldLine<S, E>(step: (S, string) -> (S, seq<E>), state: S, line: string, rest: seq<string>)
    requires rest != []
    ensures
      var (state', out) := step(state, line);
      var (state'', more) := Fold(step, state', ButLast(rest));
      Fold(step, state, ButLast([line] + rest)) == (state'', out + more) && Last([line] + rest) == Last(rest)
  {
    assert ButLast([line] + rest) == [line] + ButLast(rest);
    FoldConcat(step, state, [line], ButLast(rest));
    FoldOne(step, state, line);
  }

  /** One turn of a loop that takes lines off the buffer and collects what comes out. */
  lemma DrainOn<S, E>(step: (S, string) -> (S, seq<E>), state: S, line: string, rest: string, out: seq<E>, all: Reading<S, E>)
    requires Unbroken(line) && all == Prefixed(out, Drain(step, state, line + "\n" + rest))
    ensures
      var (state', more) := step(state, line);
      all == Prefixed(out + more, Drain(step, state', rest))
  {
    SplitLine(line, rest);
    FoldLine(step, state, line, Split(rest));
    var (state', more) := step(state, line);
    var tail := Drain(step, state', rest).out;
    assert out + (more + tail) == (out + more) + tail;
  }

  /** Chunks read one after the other, each appended to what the previous ones left. */
  function DrainAll<S, E>(step: (S, string) -> (S, seq<E>), state: S, buffer: string, chunks: seq<string>): Reading<S, E>
    decreases |chunks|
  {
    if chunks == [] then Reading(state, buffer, [])
    else
      var r := Drain(step, state, buffer + chunks[0]);
      Prefixed(r.out, DrainAll(step, r.state, r.rest, chunks[1..]))
  }

  function Concat(chunks: seq<string>): string {
    if chunks == [] then "" else chunks[0] + Concat(chunks[1..])
  }

  /** Cutting the input anywhere gives the same state, the same rest and the same output. */
  lemma DrainInTwo<S, E>(step: (S, string) -> (S, seq<E>), state: S, a: string, b: string)
    ensures
      var r := Drain(step, state, a);
      Drain(step, state, a + b) == Prefixed(r.out, Drain(step, r.state, r.rest + b))
  {
    SplitConcat(a, b);
    var tail := Split(Last(Split(a)) + b);
    assert ButLast(Split(a + b)) == ButLast(Split(a)) + ButLast(tail);
    FoldConcat(step, state, ButLast(Split(a)), ButLast(tail));
  }

  /** Main result: only the concatenation of the chunks matters. */
  lemma {:induction false} ChunksDoNotMatter<S, E>(step: (S, string) -> (S, seq<E>), state: S, buffer: string, chunks: seq<string>)
    requires Unbroken(buffer)
    ensures DrainAll(step, state, buffer, chunks) == Drain(step, state, buffer + Concat(chunks))
    decreases |chunks|
  {
    if chunks == [] {
      assert buffer + "" == buffer;
      assert Split(buffer) == [buffer];
    } else {
      var r := Drain(step, state, buffer + chunks[0]);
      ChunksDoNotMatter(step, r.state, r.rest, chunks[1..]);
      DrainInTwo(step, state, buffer + chunks[0], Concat(chunks[1..]));
      assert buffer + chunks[0] + Concat(chunks[1..]) == buffer + Concat(chunks);
    }
  }
}
