/**
 Preparing a provider body for display under a scalar and a byte budget.

 A string is a sequence of Unicode scalars; `Bytes` is its UTF-8 length. The segmentation
 into graphemes (UAX #29, section 3) is a parameter of which only this is used: its
 pieces are non-empty and concatenate to the text.
 */
module Sanitize {
  import opened Prelude

  const MAX_ID: nat := 128
  const MAX_BODY: nat := 4096
  const MAX_BODY_BYTES: nat := 4096

  /** The notice is ASCII: as many bytes as scalars. */
  const ADVISORY_LENGTH: nat := 34

  function Advisory(): (advisory: string)
    ensures |advisory| == ADVISORY_LENGTH
  {
    "Partial body; full post at source."
  }

  datatype LocalBodyLoss = LocalBodyLoss(controlsRemoved: nat, scalarsClipped: nat, displayedBytes: nat)
  datatype PreparedBody = PreparedBody(body: string, localLoss: Option<LocalBodyLoss>)
  datatype BodyError = BodyError(controlsRemoved: nat, scalarsClipped: nat)

  function CharBytes(c: char): nat {
    var code := c as int;
    if code < 0x80 then 1 else if code < 0x800 then 2 else if code < 0x1_0000 then 3 else 4
  }

  function Bytes(s: string): nat {
    if s == "" then 0 else CharBytes(s[0]) + Bytes(s[1..])
  }

  /** General category Cc. */
  predicate IsControl(c: char) {
    var code := c as int;
    code < 0x20 || 0x7F <= code <= 0x9F
  }

  predicate IsDisallowed(c: char) {
    IsControl(c) && c != '\t' && c != '\n'
  }

  /** The White_Space property. */
  predicate IsWhitespace(c: char) {
    var code := c as int;
    || 0x09 <= code <= 0x0D || code == 0x20 || code == 0x85 || code == 0xA0 || code == 0x1680
    || 0x2000 <= code <= 0x200A || code == 0x2028 || code == 0x2029 || code == 0x202F
    || code == 0x205F || code == 0x3000
  }

  predicate AllWhitespace(s: string) {
    forall i :: 0 <= i < |s| ==> IsWhitespace(s[i])
  }

  predicate NoControls(s: string) {
    forall i :: 0 <= i < |s| ==> !IsDisallowed(s[i])
  }

  /** `raw` without its disallowed controls. */
  function Clean(raw: string): (clean: string)
    ensures NoControls(clean)
    ensures |clean| <= |raw|
    ensures |clean| == |raw| ==> clean == raw
    ensures NoControls(raw) ==> clean == raw
  {
    if raw == "" then ""
    else if IsDisallowed(raw[0]) then Clean(raw[1..])
    else [raw[0]] + Clean(raw[1..])
  }

  predicate FitsWithin(s: string, maxScalars: nat, maxBytes: nat) {
    |s| <= maxScalars && Bytes(s) <= maxBytes
  }

  /** `body_is_displayable`. */
  predicate IsDisplayable(body: string) {
    FitsWithin(body, MAX_BODY, MAX_BODY_BYTES) && NoControls(body)
  }

  /** `paste_token`: bounded, non-empty, free of control characters. */
  predicate IsPasteSafe(raw: string, max: nat) {
    raw != "" && Bytes(raw) <= max && forall i :: 0 <= i < |raw| ==> !IsControl(raw[i])
  }

  // ----- code fences -----

  datatype Marker = Marker(marker: char, length: nat, remainder: string)
  datatype Fence = Fence(marker: char, length: nat)

  function LeadingCount(s: string, c: char): (n: nat)
    ensures n <= |s|
    ensures forall i :: 0 <= i < n ==> s[i] == c
    ensures n < |s| ==> s[n] != c
  {
    if s != "" && s[0] == c then 1 + LeadingCount(s[1..], c) else 0
  }

  function FenceMarker(line: string): Option<Marker> {
    var indent := LeadingCount(line, ' ');
    if indent > 3 then None
    else
      var rest := line[indent..];
      if rest == "" then None
      else
        var marker := rest[0];
        if marker != '`' && marker != '~' then None
        else
          var length := LeadingCount(rest, marker);
          if length < 3 then None else Some(Marker(marker, length, rest[length..]))
  }

  /** How one line changes the open fence. */
  function FenceStep(open: Option<Fence>, line: string): Option<Fence> {
    match FenceMarker(line)
    case None => open
    case Some(Marker(marker, length, remainder)) =>
      match open
      case Some(fence) =>
        if marker == fence.marker && length >= fence.length && AllWhitespace(remainder) then None
        else open
      case None =>
        if marker != '`' || '`' !in remainder then Some(Fence(marker, length)) else None
  }

  function FoldFence(open: Option<Fence>, lines: seq<string>): Option<Fence>
    decreases |lines|
  {
    if lines == [] then open
    else FenceStep(FoldFence(open, lines[..|lines| - 1]), lines[|lines| - 1])
  }

  /** `text` split at every line feed. */
  function Lines(text: string): (lines: seq<string>)
    ensures lines != []
  {
    if text == "" then [""]
    else
      var rest := Lines(text[1..]);
      if text[0] == '\n' then [""] + rest else [[text[0]] + rest[0]] + rest[1..]
  }

  function UnclosedFence(text: string): Option<Fence> {
    FoldFence(None, Lines(text))
  }

  method FindUnclosedFence(text: string) returns (open: Option<Fence>)
    ensures open == UnclosedFence(text)
  {
    hide FenceMarker, AllWhitespace, Lines;
    open := None;
    var lines := Lines(text);
    for i := 0 to |lines|
      invariant open == FoldFence(None, lines[..i])
    {
      assert lines[..i + 1][..i] == lines[..i];
      var line := lines[i];
      var found := FenceMarker(line);
      if found.Some? {
        var m := found.value;
        if open.Some? && m.marker == open.value.marker && m.length >= open.value.length && AllWhitespace(m.remainder) {
          open := None;
        } else if open.None? && (m.marker != '`' || '`' !in m.remainder) {
          open := Some(Fence(m.marker, m.length));
        }
      }
    }
    assert lines[..|lines|] == lines;
  }

  // ----- rendering a clipped body -----

  function EndLine(s: string): string {
    if s != "" && s[|s| - 1] == '\n' then s else s + "\n"
  }

  function Repeat(c: char, n: nat): string {
    seq(n, _ => c)
  }

  function CloseFence(prefix: string): string {
    match UnclosedFence(prefix)
    case None => prefix
    case Some(fence) => EndLine(prefix) + Repeat(fence.marker, fence.length) + "\n"
  }

  /** A retained prefix with its open fence closed and the advisory appended. */
  function Render(prefix: string): string {
    EndLine(CloseFence(prefix)) + "\n" + Advisory()
  }

  function Concat(pieces: seq<string>): string {
    if pieces == [] then "" else Concat(pieces[..|pieces| - 1]) + pieces[|pieces| - 1]
  }

  ghost predicate IsSegmentation(pieces: seq<string>, text: string) {
    Concat(pieces) == text && forall i | 0 <= i < |pieces| :: pieces[i] != ""
  }

  /** The first `k` graphemes leave room for two line feeds and the advisory. */
  predicate HasReserve(pieces: seq<string>, k: nat, maxScalars: nat, maxBytes: nat)
    requires k <= |pieces|
  {
    var prefix := Concat(pieces[..k]);
    |prefix| + 2 + ADVISORY_LENGTH <= maxScalars && Bytes(prefix) + 2 + ADVISORY_LENGTH <= maxBytes
  }

  /** How many graphemes the retaining loop takes before it stops. */
  function Retained(pieces: seq<string>, k: nat, maxScalars: nat, maxBytes: nat): (n: nat)
    requires k <= |pieces|
    ensures k <= n <= |pieces|
    decreases |pieces| - k
  {
    if k == |pieces| || !HasReserve(pieces, k + 1, maxScalars, maxBytes) then k
    else Retained(pieces, k + 1, maxScalars, maxBytes)
  }

  /** The first `k` graphemes hold something visible and their rendering fits. */
  predicate IsUsable(pieces: seq<string>, k: nat, maxScalars: nat, maxBytes: nat)
    requires k <= |pieces|
  {
    var prefix := Concat(pieces[..k]);
    !AllWhitespace(prefix) && FitsWithin(Render(prefix), maxScalars, maxBytes)
  }

  /** The largest usable count in `1..=k`. */
  function BestUsable(pieces: seq<string>, k: nat, maxScalars: nat, maxBytes: nat): (best: Option<nat>)
    requires k <= |pieces|
    ensures best.Some? ==> 1 <= best.value <= k && IsUsable(pieces, best.value, maxScalars, maxBytes)
    ensures forall j | 1 <= j <= k && IsUsable(pieces, j, maxScalars, maxBytes) :: best.Some? && j <= best.value
  {
    if k == 0 then None
    else if IsUsable(pieces, k, maxScalars, maxBytes) then Some(k)
    else BestUsable(pieces, k - 1, maxScalars, maxBytes)
  }

  /** `prepare_body_with_limits`. */
  function Prepare(raw: string, pieces: seq<string>, maxScalars: nat, maxBytes: nat): Result<PreparedBody, BodyError> {
    var clean := Clean(raw);
    var removed := |raw| - |clean|;
    if removed == 0 && FitsWithin(clean, maxScalars, maxBytes) then Ok(PreparedBody(clean, None))
    else
      match BestUsable(pieces, Retained(pieces, 0, maxScalars, maxBytes), maxScalars, maxBytes)
      case None => Err(BodyError(removed, |clean|))
      case Some(k) =>
        var prefix := Concat(pieces[..k]);
        var body := Render(prefix);
        var clipped := if |prefix| <= |clean| then |clean| - |prefix| else 0;
        Ok(PreparedBody(body, Some(LocalBodyLoss(removed, clipped, Bytes(body)))))
  }

  lemma {:induction false} BytesAppend(a: string, b: string)
    ensures Bytes(a + b) == Bytes(a) + Bytes(b)
  {
    if a == "" {
      assert a + b == b;
    } else {
      assert (a + b)[1..] == a[1..] + b;
      BytesAppend(a[1..], b);
    }
  }

  lemma {:induction false} ConcatSplit(pieces: seq<string>, k: nat)
    requires k <= |pieces|
    ensures |Concat(pieces[..k])| <= |Concat(pieces)|
    ensures Concat(pieces[..k]) == Concat(pieces)[..|Concat(pieces[..k])|]
    decreases |pieces|
  {
    if k == |pieces| {
      assert pieces[..k] == pieces;
    } else {
      var shorter := pieces[..|pieces| - 1];
      ConcatSplit(shorter, k);
      assert shorter[..k] == pieces[..k];
    }
  }

  lemma CleanStep(raw: string, i: nat)
    requires i < |raw|
    ensures Clean(raw[..i + 1]) == Clean(raw[..i]) + (if IsDisallowed(raw[i]) then "" else [raw[i]])
  {
    assert raw[..i + 1] == raw[..i] + [raw[i]];
    CleanAppend(raw[..i], raw[i]);
  }

  lemma {:induction false} CleanAppend(s: string, c: char)
    ensures Clean(s + [c]) == Clean(s) + (if IsDisallowed(c) then "" else [c])
  {
    if s == "" {
      assert s + [c] == [c];
    } else {
      assert (s + [c])[1..] == s[1..] + [c];
      CleanAppend(s[1..], c);
    }
  }

  /** First loop: strip disallowed controls and count them. */
  method StripControls(raw: string) returns (clean: string, removed: nat)
    ensures clean == Clean(raw)
    ensures removed == |raw| - |clean|
  {
    clean, removed := "", 0;
    for i := 0 to |raw|
      invariant clean == Clean(raw[..i])
      invariant removed == i - |clean|
    {
      CleanStep(raw, i);
      if IsDisallowed(raw[i]) {
        removed := removed + 1;
      } else {
        clean := clean + [raw[i]];
      }
    }
    assert raw[..|raw|] == raw;
  }

  lemma ConcatStep(pieces: seq<string>, k: nat)
    requires k < |pieces|
    ensures Concat(pieces[..k + 1]) == Concat(pieces[..k]) + pieces[k]
    ensures Bytes(Concat(pieces[..k + 1])) == Bytes(Concat(pieces[..k])) + Bytes(pieces[k])
  {
    assert pieces[..k + 1][..k] == pieces[..k];
    BytesAppend(Concat(pieces[..k]), pieces[k]);
  }

  lemma NothingRetained(pieces: seq<string>)
    ensures Concat(pieces[..0]) == "" && Bytes("") == 0
  {
  }

  /** Second loop: take graphemes while two line feeds and the advisory still fit. */
  method RetainGraphemes(pieces: seq<string>, maxScalars: nat, maxBytes: nat) returns (ends: seq<nat>)
    ensures |ends| == Retained(pieces, 0, maxScalars, maxBytes)
    ensures forall i :: 0 <= i < |ends| ==> ends[i] == |Concat(pieces[..i + 1])|
  {
    hide Advisory, Concat, Bytes;
    ends := [];
    var retainedScalars := 0;
    var retainedBytes := 0;
    var k := 0;
    assert |Concat(pieces[..0])| == 0 && Bytes(Concat(pieces[..0])) == 0 by { NothingRetained(pieces); }
    while k < |pieces|
      invariant k <= |pieces| && |ends| == k
      invariant retainedScalars == |Concat(pieces[..k])| && retainedBytes == Bytes(Concat(pieces[..k]))
      invariant forall i :: 0 <= i < k ==> ends[i] == |Concat(pieces[..i + 1])|
      invariant Retained(pieces, 0, maxScalars, maxBytes) == Retained(pieces, k, maxScalars, maxBytes)
    {
      ConcatStep(pieces, k);
      if retainedScalars + |pieces[k]| + 2 + ADVISORY_LENGTH > maxScalars
         || retainedBytes + Bytes(pieces[k]) + 2 + ADVISORY_LENGTH > maxBytes {
        return;
      }
      retainedScalars := retainedScalars + |pieces[k]|;
      retainedBytes := retainedBytes + Bytes(pieces[k]);
      ends := ends + [retainedScalars];
      k := k + 1;
    }
  }

  /** Close an open fence and append the advisory, pushing onto one buffer. */
  method AppendAdvisory(prefix: string) returns (body: string)
    ensures body == Render(prefix)
  {
    body := prefix;
    var open := FindUnclosedFence(prefix);
    if open.Some? {
      if body == "" || body[|body| - 1] != '\n' {
        body := body + "\n";
      }
      body := body + Repeat(open.value.marker, open.value.length);
      body := body + "\n";
    }
    if body == "" || body[|body| - 1] != '\n' {
      body := body + "\n";
    }
    body := body + "\n";
    body := body + Advisory();
  }

  /** Third loop: give graphemes back until something visible fits with the advisory. */
  method PrepareBodyWithLimits(raw: string, pieces: seq<string>, maxScalars: nat, maxBytes: nat)
    returns (r: Result<PreparedBody, BodyError>)
    requires IsSegmentation(pieces, Clean(raw))
    ensures r == Prepare(raw, pieces, maxScalars, maxBytes)
  {
    hide Advisory, Concat, Bytes, Render, Clean, Retained;
    var clean, controlsRemoved := StripControls(raw);
    if controlsRemoved == 0 && |clean| <= maxScalars && Bytes(clean) <= maxBytes {
      return Ok(PreparedBody(clean, None));
    }
    var ends := RetainGraphemes(pieces, maxScalars, maxBytes);
    ghost var k := |ends|;
    while ends != []
      invariant |ends| <= k <= |pieces|
      invariant forall i :: 0 <= i < |ends| ==> ends[i] == |Concat(pieces[..i + 1])|
      invariant BestUsable(pieces, k, maxScalars, maxBytes) == BestUsable(pieces, |ends|, maxScalars, maxBytes)
      decreases |ends|
    {
      var scalarEnd := ends[|ends| - 1];
      ConcatSplit(pieces, |ends|);
      var prefix := clean[..scalarEnd];
      assert prefix == Concat(pieces[..|ends|]);
      ends := ends[..|ends| - 1];
      if AllWhitespace(prefix) {
        continue;
      }
      var body := AppendAdvisory(prefix);
      if |body| <= maxScalars && Bytes(body) <= maxBytes {
        return Ok(PreparedBody(body, Some(LocalBodyLoss(controlsRemoved, |clean| - scalarEnd, Bytes(body)))));
      }
    }
    return Err(BodyError(controlsRemoved, |clean|));
  }
}
