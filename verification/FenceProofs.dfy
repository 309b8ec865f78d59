/** Code fences described line by line, and the recogniser against that description. */
module FenceProofs {
  import opened Prelude
  import opened Sanitize

  /** `line` is `k` spaces, `n` times `c`, and a rest. */
  ghost predicate Shaped(line: string, k: nat, c: char, n: nat, rest: string) {
    line == Repeat(' ', k) + Repeat(c, n) + rest
  }

  /** An opening line: at most three spaces, exactly `n >= 3` of a fence character, and a rest
      that for backticks holds no backtick. */
  ghost predicate Opens(line: string, c: char, n: nat) {
    && (c == '`' || c == '~') && n >= 3
    && exists k: nat, rest: string ::
         && Shaped(line, k, c, n, rest) && k <= 3
         && (rest == "" || rest[0] != c) && (c == '`' ==> '`' !in rest)
  }

  /** A closing line: at most three spaces, at least `n` of the character, and white space. */
  ghost predicate Closes(line: string, c: char, n: nat) {
    exists k: nat, m: nat, rest: string :: Shaped(line, k, c, m, rest) && k <= 3 && m >= n && AllWhitespace(rest)
  }

  /** With nothing open a line opens what it opens; an open fence ends at its closing line. */
  ghost predicate Moves(open: Option<Fence>, line: string, next: Option<Fence>) {
    match open
    case None => forall c, n: nat :: Opens(line, c, n) <==> next == Some(Fence(c, n))
    case Some(fence) => next == if Closes(line, fence.marker, fence.length) then None else open
  }

  /** `states` are the open fences before, between and after the lines. */
  ghost predicate Follows(states: seq<Option<Fence>>, lines: seq<string>) {
    && |states| == |lines| + 1 && states[0] == None
    && forall i :: 0 <= i < |lines| ==> Moves(states[i], lines[i], states[i + 1])
  }

  /** After its last line `text` leaves exactly `open` open. */
  ghost predicate LeavesOpen(text: string, open: Option<Fence>) {
    exists states :: Follows(states, Lines(text)) && states[|states| - 1] == open
  }

  // ----- one line -----

  ghost predicate IsFence(open: Option<Fence>) {
    open.Some? ==> (open.value.marker == '`' || open.value.marker == '~') && open.value.length >= 3
  }

  lemma {:induction false} FoldIsFence(open: Option<Fence>, lines: seq<string>)
    requires IsFence(open)
    ensures IsFence(FoldFence(open, lines))
    decreases |lines|
  {
    if lines != [] {
      FoldIsFence(open, lines[..|lines| - 1]);
    }
  }

  lemma {:induction false} CountLeading(c: char, n: nat, rest: string)
    requires rest == "" || rest[0] != c
    ensures LeadingCount(Repeat(c, n) + rest, c) == n
    decreases n
  {
    if n == 0 {
      assert Repeat(c, 0) + rest == rest;
    } else {
      assert (Repeat(c, n) + rest)[1..] == Repeat(c, n - 1) + rest;
      CountLeading(c, n - 1, rest);
    }
  }

  lemma SplitLeading(s: string, c: char)
    ensures s == Repeat(c, LeadingCount(s, c)) + s[LeadingCount(s, c)..]
  {
  }

  /** A line of that shape, with nothing more of the character, is recognised as such. */
  lemma ShapedIsMarker(line: string, k: nat, c: char, n: nat, rest: string)
    requires Shaped(line, k, c, n, rest) && k <= 3 && n >= 3
    requires (c == '`' || c == '~') && (rest == "" || rest[0] != c)
    ensures FenceMarker(line) == Some(Marker(c, n, rest))
  {
    var tail := Repeat(c, n) + rest;
    assert line == Repeat(' ', k) + tail;
    assert tail[0] == c;
    CountLeading(' ', k, tail);
    assert line[k..] == tail;
    CountLeading(c, n, rest);
    assert tail[n..] == rest;
  }

  lemma MarkerIsShaped(line: string)
    requires FenceMarker(line).Some?
    ensures var m := FenceMarker(line).value;
            var k := LeadingCount(line, ' ');
            && Shaped(line, k, m.marker, m.length, m.remainder) && k <= 3 && m.length >= 3
            && (m.marker == '`' || m.marker == '~') && (m.remainder == "" || m.remainder[0] != m.marker)
  {
    var k := LeadingCount(line, ' ');
    SplitLeading(line, ' ');
    SplitLeading(line[k..], line[k]);
  }

  lemma OpensIsMarker(line: string, c: char, n: nat)
    ensures Opens(line, c, n) <==>
              exists rest: string :: FenceMarker(line) == Some(Marker(c, n, rest)) && (c == '`' ==> '`' !in rest)
  {
    if Opens(line, c, n) {
      var k: nat, rest: string :| && Shaped(line, k, c, n, rest) && k <= 3
                                  && (rest == "" || rest[0] != c) && (c == '`' ==> '`' !in rest);
      ShapedIsMarker(line, k, c, n, rest);
    }
    if FenceMarker(line).Some? {
      MarkerIsShaped(line);
    }
    hide FenceMarker, Shaped;
  }

  lemma ClosesIsMarker(line: string, fence: Fence)
    requires IsFence(Some(fence))
    ensures Closes(line, fence.marker, fence.length) <==>
              && FenceMarker(line).Some? && FenceMarker(line).value.marker == fence.marker
              && FenceMarker(line).value.length >= fence.length && AllWhitespace(FenceMarker(line).value.remainder)
  {
    if Closes(line, fence.marker, fence.length) {
      var k: nat, m: nat, rest: string :|
        Shaped(line, k, fence.marker, m, rest) && k <= 3 && m >= fence.length && AllWhitespace(rest);
      assert rest != "" ==> IsWhitespace(rest[0]);
      ShapedIsMarker(line, k, fence.marker, m, rest);
    }
    if FenceMarker(line).Some? {
      MarkerIsShaped(line);
    }
    hide FenceMarker, Shaped, AllWhitespace;
  }

  /** The recogniser moves from line to line as described. */
  lemma StepMoves(open: Option<Fence>, line: string)
    requires IsFence(open)
    ensures Moves(open, line, FenceStep(open, line))
  {
    hide FenceMarker, Opens, Closes, AllWhitespace;
    match open
    case None =>
      forall c, n: nat ensures Opens(line, c, n) <==> FenceStep(open, line) == Some(Fence(c, n)) {
        OpensIsMarker(line, c, n);
      }
    case Some(fence) => ClosesIsMarker(line, fence);
  }

  /** No line can be taken to open two fences. */
  lemma MovesOnce(open: Option<Fence>, line: string, next: Option<Fence>, other: Option<Fence>)
    requires Moves(open, line, next) && Moves(open, line, other)
    ensures next == other
  {
    hide Opens, Closes;
    if open.None? && next.Some? {
      assert Opens(line, next.value.marker, next.value.length);
    }
    if open.None? && other.Some? {
      assert Opens(line, other.value.marker, other.value.length);
    }
  }

  // ----- a whole text -----

  lemma {:induction false} FoldFollows(lines: seq<string>) returns (states: seq<Option<Fence>>)
    ensures Follows(states, lines) && states[|lines|] == FoldFence(None, lines)
    decreases |lines|
  {
    hide Moves, FenceStep;
    if lines == [] {
      states := [None];
    } else {
      var n := |lines| - 1;
      var before := FoldFollows(lines[..n]);
      FoldIsFence(None, lines[..n]);
      StepMoves(before[n], lines[n]);
      states := before + [FoldFence(None, lines)];
      forall i | 0 <= i < |lines| ensures Moves(states[i], lines[i], states[i + 1]) {
        if i < n {
          assert Moves(before[i], lines[..n][i], before[i + 1]);
        }
      }
    }
  }

  lemma {:induction false} FollowsIsFold(states: seq<Option<Fence>>, lines: seq<string>, k: nat)
    requires Follows(states, lines) && k <= |lines|
    ensures states[k] == FoldFence(None, lines[..k])
    decreases k
  {
    hide Moves, FenceStep;
    if k > 0 {
      FollowsIsFold(states, lines, k - 1);
      assert lines[..k][..k - 1] == lines[..k - 1];
      FoldIsFence(None, lines[..k - 1]);
      StepMoves(states[k - 1], lines[k - 1]);
      MovesOnce(states[k - 1], lines[k - 1], states[k], FoldFence(None, lines[..k]));
    }
  }

  /** Main result: the recogniser finds exactly the fence that the lines, read one after the
      other, leave open. */
  lemma UnclosedIsLeftOpen(text: string, open: Option<Fence>)
    ensures LeavesOpen(text, open) <==> open == UnclosedFence(text)
  {
    hide Follows, FoldFence, Lines;
    var lines := Lines(text);
    var states := FoldFollows(lines);
    FollowsEnds(states, lines);
    if LeavesOpen(text, open) {
      var other := AsStates(text, open);
      FollowsIsFold(other, lines, |lines|);
      assert lines[..|lines|] == lines;
    }
  }

  lemma AsStates(text: string, open: Option<Fence>) returns (states: seq<Option<Fence>>)
    requires LeavesOpen(text, open)
    ensures Follows(states, Lines(text)) && |states| == |Lines(text)| + 1 && states[|Lines(text)|] == open
  {
    states :| Follows(states, Lines(text)) && states[|states| - 1] == open;
  }

  lemma FollowsEnds(states: seq<Option<Fence>>, lines: seq<string>)
    requires Follows(states, lines)
    ensures |states| == |lines| + 1
  {
  }

  // ----- lines -----

  function Joined(lines: seq<string>): string {
    if |lines| == 0 then "" else if |lines| == 1 then lines[0] else lines[0] + "\n" + Joined(lines[1..])
  }

  /** The lines hold no line feed and, put together with line feeds, are the text. */
  lemma {:induction false} LinesMeans(text: string)
    ensures Joined(Lines(text)) == text
    ensures forall i :: 0 <= i < |Lines(text)| ==> '\n' !in Lines(text)[i]
  {
    if text != "" {
      var rest := Lines(text[1..]);
      LinesMeans(text[1..]);
      assert text == [text[0]] + text[1..];
      if text[0] == '\n' {
        assert Lines(text)[1..] == rest;
        assert "" + "\n" + Joined(rest) == text;
      } else if |rest| > 1 {
        assert Lines(text)[1..] == rest[1..];
        assert [text[0]] + rest[0] + "\n" + Joined(rest[1..]) == [text[0]] + Joined(rest);
      }
    }
  }
}
