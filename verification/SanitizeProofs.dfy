/** What body preparation promises: display safety, accounting, maximality, idempotence. */
module SanitizeProofs {
  import opened Prelude
  import opened Sanitize
  import opened FenceProofs

  // ----- lines and fences -----

  lemma {:induction false} LinesJoin(a: string, b: string)
    ensures Lines(a + "\n" + b) == Lines(a) + Lines(b)
  {
    if a == "" {
      assert a + "\n" + b == "\n" + b;
      assert ("\n" + b)[1..] == b;
    } else {
      assert (a + "\n" + b)[1..] == a[1..] + "\n" + b;
      LinesJoin(a[1..], b);
    }
  }

  lemma {:induction false} PlainLine(s: string)
    requires '\n' !in s
    ensures Lines(s) == [s]
  {
    if s != "" {
      PlainLine(s[1..]);
      assert [s[0]] + s[1..] == s;
      assert Lines(s)[1..] == [];
    }
  }

  lemma {:induction false} FoldAppend(open: Option<Fence>, a: seq<string>, b: seq<string>)
    ensures FoldFence(open, a + b) == FoldFence(FoldFence(open, a), b)
    decreases |b|
  {
    if b == [] {
      assert a + b == a;
    } else {
      assert (a + b)[..|a + b| - 1] == a + b[..|b| - 1];
      FoldAppend(open, a, b[..|b| - 1]);
    }
  }

  lemma {:induction false} CountRepeat(c: char, n: nat)
    ensures LeadingCount(Repeat(c, n), c) == n
    decreases n
  {
    if n > 0 {
      assert Repeat(c, n)[1..] == Repeat(c, n - 1);
      CountRepeat(c, n - 1);
    }
  }

  /** A line of exactly the opening marker closes the fence. */
  lemma ClosingLine(fence: Fence)
    requires IsFence(Some(fence))
    ensures FenceStep(Some(fence), Repeat(fence.marker, fence.length)) == None
    ensures '\n' !in Repeat(fence.marker, fence.length)
  {
    var line := Repeat(fence.marker, fence.length);
    CountRepeat(fence.marker, fence.length);
    assert line[0] == fence.marker;
    assert LeadingCount(line, ' ') == 0;
    assert line[0..] == line;
    assert line[fence.length..] == "";
  }

  lemma AdvisoryIsAscii()
    ensures Advisory()[0] == 'P'
    ensures forall i :: 0 <= i < ADVISORY_LENGTH ==> 0x20 <= Advisory()[i] as int < 0x7F
  {
  }

  lemma NoMarker(line: string)
    requires line == "" || line[0] !in {' ', '`', '~'}
    ensures FenceMarker(line) == None
  {
  }

  lemma AdvisoryLine()
    ensures '\n' !in Advisory() && NoControls(Advisory())
    ensures FenceMarker(Advisory()) == None && FenceMarker("") == None
  {
    hide Advisory, FenceMarker;
    AdvisoryIsAscii();
    NoMarker(Advisory());
    NoMarker("");
  }

  /** `s` without its final line feed, if it has one. */
  function Stem(s: string): string {
    if s != "" && s[|s| - 1] == '\n' then s[..|s| - 1] else s
  }

  lemma StemFence(s: string)
    ensures EndLine(s) == Stem(s) + "\n"
    ensures UnclosedFence(Stem(s)) == UnclosedFence(s)
  {
    if s != "" && s[|s| - 1] == '\n' {
      assert s == Stem(s) + "\n" + "";
      LinesJoin(Stem(s), "");
      FoldAppend(None, Lines(Stem(s)), [""]);
      AdvisoryLine();
      assert FoldFence(FoldFence(None, Lines(Stem(s))), [""]) == FoldFence(None, Lines(Stem(s)));
    }
  }

  /** The lines after an ended line: nothing, then the advisory, which opens no fence. */
  lemma TailLines(q: string, open: Option<Fence>)
    requires UnclosedFence(q) == open
    ensures UnclosedFence(q + "\n" + ("" + "\n" + Advisory())) == open
  {
    hide Advisory, FenceMarker, Lines, FoldFence;
    AdvisoryLine();
    PlainLine("");
    PlainLine(Advisory());
    LinesJoin("", Advisory());
    LinesJoin(q, "" + "\n" + Advisory());
    assert [""] + [Advisory()] == ["", Advisory()];
    FoldAppend(None, Lines(q), ["", Advisory()]);
    FoldTwo(open, "", Advisory());
  }

  /** A line that closes the fence left open by `q`. */
  lemma ClosedStem(q: string, fence: Fence)
    requires UnclosedFence(q) == Some(fence) && IsFence(Some(fence))
    ensures UnclosedFence(q + "\n" + Repeat(fence.marker, fence.length)) == None
  {
    var line := Repeat(fence.marker, fence.length);
    ClosingLine(fence);
    hide FenceMarker, FenceStep, Repeat;
    PlainLine(line);
    LinesJoin(q, line);
    assert (Lines(q) + [line])[..|Lines(q)|] == Lines(q);
  }

  lemma RenderFolds(prefix: string)
    ensures UnclosedFence(Render(prefix)) == None
  {
    hide Advisory, FenceMarker, FenceStep, FoldFence, Lines, Repeat;
    var open := UnclosedFence(prefix);
    var q := Stem(prefix);
    FoldIsFence(None, Lines(prefix));
    StemFence(prefix);
    if open.Some? {
      var line := Repeat(open.value.marker, open.value.length);
      ClosedStem(q, open.value);
      TailLines(q + "\n" + line, None);
      assert CloseFence(prefix) == q + "\n" + line + "\n";
      assert Render(prefix) == q + "\n" + line + "\n" + ("" + "\n" + Advisory());
    } else {
      TailLines(q, None);
      assert Render(prefix) == q + "\n" + ("" + "\n" + Advisory());
    }
  }

  /** Main result: whatever was retained, the lines of its rendering leave no fence open. */
  lemma RenderClosesFence(prefix: string)
    ensures LeavesOpen(Render(prefix), None)
  {
    hide Render, LeavesOpen, UnclosedFence;
    RenderFolds(prefix);
    UnclosedIsLeftOpen(Render(prefix), None);
  }

  lemma FoldTwo(open: Option<Fence>, a: string, b: string)
    ensures FoldFence(open, [a, b]) == FenceStep(FenceStep(open, a), b)
  {
    hide FenceStep;
    assert [a, b][..1] == [a] && [a][..0] == [];
    assert FoldFence(open, [a]) == FenceStep(open, a);
  }

  // ----- what a rendering contains -----

  lemma RenderIsClean(prefix: string)
    requires NoControls(prefix)
    ensures NoControls(Render(prefix))
    ensures prefix <= Render(prefix)
    ensures |Advisory()| <= |Render(prefix)|
    ensures Render(prefix)[|Render(prefix)| - |Advisory()|..] == Advisory()
  {
    hide Advisory, Lines, FoldFence, FenceMarker, LeadingCount;
    FoldIsFence(None, Lines(prefix));
    AdvisoryLine();
    var close := CloseFence(prefix);
    assert NoControls(close) && prefix <= close;
    hide CloseFence;
    assert Render(prefix) == EndLine(close) + "\n" + Advisory();
  }

  // ----- which prefixes are candidates -----

  /** Room for the advisory is lost once and for all: candidates are an initial segment. */
  lemma {:induction false} ReserveIsDownward(pieces: seq<string>, j: nat, k: nat, maxScalars: nat, maxBytes: nat)
    requires j <= k <= |pieces| && HasReserve(pieces, k, maxScalars, maxBytes)
    ensures HasReserve(pieces, j, maxScalars, maxBytes)
    decreases k - j
  {
    if j < k {
      hide Advisory, Bytes;
      ConcatStep(pieces, k - 1);
      ReserveIsDownward(pieces, j, k - 1, maxScalars, maxBytes);
    }
  }

  lemma {:induction false} RetainedIsExact(pieces: seq<string>, k: nat, j: nat, maxScalars: nat, maxBytes: nat)
    requires k < j <= |pieces|
    requires k > 0 ==> HasReserve(pieces, k, maxScalars, maxBytes)
    ensures j <= Retained(pieces, k, maxScalars, maxBytes) <==> HasReserve(pieces, j, maxScalars, maxBytes)
    decreases |pieces| - k
  {
    if !HasReserve(pieces, k + 1, maxScalars, maxBytes) {
      if HasReserve(pieces, j, maxScalars, maxBytes) {
        ReserveIsDownward(pieces, k + 1, j, maxScalars, maxBytes);
      }
    } else if j > k + 1 {
      RetainedIsExact(pieces, k + 1, j, maxScalars, maxBytes);
    }
  }

  /** A whole-grapheme prefix with room for two line feeds and the advisory, holding
      something visible, whose rendering fits both budgets. */
  ghost predicate Presentable(pieces: seq<string>, k: nat, maxScalars: nat, maxBytes: nat) {
    && 1 <= k <= |pieces|
    && HasReserve(pieces, k, maxScalars, maxBytes)
    && IsUsable(pieces, k, maxScalars, maxBytes)
  }

  ghost predicate NeedsTransformation(raw: string, maxScalars: nat, maxBytes: nat) {
    !NoControls(raw) || !FitsWithin(raw, maxScalars, maxBytes)
  }

  /** Main result: a body is shown untouched exactly when it needs no transformation;
      otherwise the longest presentable prefix is rendered, and the body is refused
      exactly when there is none. */
  lemma LongestPresentable(raw: string, pieces: seq<string>, maxScalars: nat, maxBytes: nat)
    requires IsSegmentation(pieces, Clean(raw))
    ensures var r := Prepare(raw, pieces, maxScalars, maxBytes);
            if !NeedsTransformation(raw, maxScalars, maxBytes) then r == Ok(PreparedBody(raw, None))
            else if r.Ok? then
              exists k: nat | Presentable(pieces, k, maxScalars, maxBytes) ::
                && |Concat(pieces[..k])| <= |Clean(raw)|
                && (forall j: nat | Presentable(pieces, j, maxScalars, maxBytes) :: j <= k)
                && r.value.body == Render(Concat(pieces[..k]))
                && r.value.localLoss == Some(LocalBodyLoss(
                     |raw| - |Clean(raw)|, |Clean(raw)| - |Concat(pieces[..k])|, Bytes(r.value.body)))
            else
              && r.error == BodyError(|raw| - |Clean(raw)|, |Clean(raw)|)
              && !exists k :: Presentable(pieces, k, maxScalars, maxBytes)
  {
    var clean := Clean(raw);
    hide Advisory, Render, Bytes, HasReserve, IsUsable, Concat, Retained;
    if NeedsTransformation(raw, maxScalars, maxBytes) {
      var n := Retained(pieces, 0, maxScalars, maxBytes);
      forall j | 1 <= j <= |pieces|
        ensures j <= n <==> HasReserve(pieces, j, maxScalars, maxBytes)
      {
        RetainedIsExact(pieces, 0, j, maxScalars, maxBytes);
      }
      var best := BestUsable(pieces, n, maxScalars, maxBytes);
      if best.Some? {
        ConcatSplit(pieces, best.value);
        assert Presentable(pieces, best.value, maxScalars, maxBytes);
      }
    }
  }

  /** Main result: a body shown with loss is safe to display and every scalar of the
      input is accounted for. */
  lemma LossyBodyIsSafe(raw: string, pieces: seq<string>, maxScalars: nat, maxBytes: nat)
    requires IsSegmentation(pieces, Clean(raw))
    requires Prepare(raw, pieces, maxScalars, maxBytes).Ok?
    requires Prepare(raw, pieces, maxScalars, maxBytes).value.localLoss.Some?
    ensures var body := Prepare(raw, pieces, maxScalars, maxBytes).value.body;
            var loss := Prepare(raw, pieces, maxScalars, maxBytes).value.localLoss.value;
            && FitsWithin(body, maxScalars, maxBytes)
            && NoControls(body)
            && LeavesOpen(body, None)
            && |Advisory()| <= |body| && body[|body| - |Advisory()|..] == Advisory()
            && loss.displayedBytes == Bytes(body)
            && exists retained: nat | retained <= |Clean(raw)| ::
                 && Clean(raw)[..retained] <= body
                 && !AllWhitespace(Clean(raw)[..retained])
                 && loss.controlsRemoved + loss.scalarsClipped + retained == |raw|
  {
    hide Advisory, Render, Bytes, Retained, Clean, LeavesOpen;
    var n := Retained(pieces, 0, maxScalars, maxBytes);
    var k := BestUsable(pieces, n, maxScalars, maxBytes).value;
    var prefix := Concat(pieces[..k]);
    ConcatSplit(pieces, k);
    assert prefix == Clean(raw)[..|prefix|];
    RenderClosesFence(prefix);
    RenderIsClean(prefix);
  }

  /** Main result: preparing a prepared body again changes nothing and measures no loss,
      however the second text is segmented. */
  lemma PreparingAgainIsIdentity(raw: string, pieces: seq<string>, again: seq<string>, maxScalars: nat, maxBytes: nat)
    requires IsSegmentation(pieces, Clean(raw))
    requires Prepare(raw, pieces, maxScalars, maxBytes).Ok?
    ensures var body := Prepare(raw, pieces, maxScalars, maxBytes).value.body;
            Prepare(body, again, maxScalars, maxBytes) == Ok(PreparedBody(body, None))
  {
    var prepared := Prepare(raw, pieces, maxScalars, maxBytes).value;
    if prepared.localLoss.Some? {
      LossyBodyIsSafe(raw, pieces, maxScalars, maxBytes);
    }
  }

  /** The reserve of two line feeds skips a rendering that would fit exactly when the
      prefix already ends its line, has no open fence, and fills a budget to the brim. */
  lemma ReserveSkips(pieces: seq<string>, k: nat, maxScalars: nat, maxBytes: nat)
    requires 1 <= k <= |pieces| && IsUsable(pieces, k, maxScalars, maxBytes)
    ensures var prefix := Concat(pieces[..k]);
            !HasReserve(pieces, k, maxScalars, maxBytes) <==>
            && prefix != "" && prefix[|prefix| - 1] == '\n' && UnclosedFence(prefix).None?
            && (|Render(prefix)| == maxScalars || Bytes(Render(prefix)) == maxBytes)
  {
    RenderLength(Concat(pieces[..k]));
    hide Render, Concat, Bytes, UnclosedFence;
  }

  /** How much longer a rendering is than the prefix it shows. */
  lemma RenderLength(prefix: string)
    ensures var exact := prefix != "" && prefix[|prefix| - 1] == '\n' && UnclosedFence(prefix).None?;
            if exact then
              && |Render(prefix)| == |prefix| + 1 + ADVISORY_LENGTH
              && Bytes(Render(prefix)) == Bytes(prefix) + 1 + ADVISORY_LENGTH
            else
              && |Render(prefix)| >= |prefix| + 2 + ADVISORY_LENGTH
              && Bytes(Render(prefix)) >= Bytes(prefix) + 2 + ADVISORY_LENGTH
  {
    hide Advisory, Lines, FoldFence, FenceMarker, Bytes, CloseFence;
    var close := CloseFence(prefix);
    EndLineBytes(close);
    AdvisoryBytes();
    BytesAppend(EndLine(close) + "\n", Advisory());
    BytesAppend(EndLine(close), "\n");
    CloseLength(prefix);
  }

  lemma CloseLength(prefix: string)
    ensures var close := CloseFence(prefix);
            if UnclosedFence(prefix).None? then close == prefix
            else
              && close != "" && close[|close| - 1] == '\n'
              && |close| >= |prefix| + 4 && Bytes(close) >= Bytes(prefix) + 4
  {
    hide Lines, FoldFence, FenceMarker, Bytes;
    FoldIsFence(None, Lines(prefix));
    match UnclosedFence(prefix)
    case None =>
    case Some(fence) =>
      var line := Repeat(fence.marker, fence.length);
      EndLineBytes(prefix);
      BytesAppend(EndLine(prefix) + line, "\n");
      BytesAppend(EndLine(prefix), line);
      BytesAtLeast(line);
  }

  lemma EndLineBytes(s: string)
    ensures Bytes("\n") == 1
    ensures Bytes(EndLine(s)) == Bytes(s) + |EndLine(s)| - |s|
  {
    if EndLine(s) != s {
      BytesAppend(s, "\n");
    }
  }

  lemma {:induction false} AsciiBytes(s: string)
    requires forall i :: 0 <= i < |s| ==> s[i] as int < 0x80
    ensures Bytes(s) == |s|
  {
    if s != "" {
      AsciiBytes(s[1..]);
    }
  }

  lemma AdvisoryBytes()
    ensures Bytes(Advisory()) == ADVISORY_LENGTH
  {
    hide Bytes;
    AsciiBytes(Advisory());
  }

  lemma {:induction false} BytesAtLeast(s: string)
    ensures Bytes(s) >= |s|
  {
    if s != "" {
      BytesAtLeast(s[1..]);
    }
  }
}
