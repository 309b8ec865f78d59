/** Exactly when a frame goes out, a request is made, and the pending request is settled. */
module TransportReplies {
  import opened Prelude
  import opened Transport
  import opened TransportProofs
  import opened TransportRuns

  // ----- when a frame is written -----

  /** The pipe took bytes, or only asked to wait. */
  predicate MovesOn(e: WriteEvent) {
    (e.Done? && e.count > 0) || e == Blocked(false)
  }

  function TakenBy(events: seq<WriteEvent>): nat {
    if events == [] then 0 else (if events[0].Done? then events[0].count else 0) + TakenBy(events[1..])
  }

  /** The first `k` events, and no fewer, take `n` bytes. */
  ghost predicate TakesAll(n: nat, events: seq<WriteEvent>, k: nat) {
    && k <= |events| && (forall i :: 0 <= i < k ==> MovesOn(events[i]))
    && n <= TakenBy(events[..k]) && (if n == 0 then k == 0 else k > 0 && TakenBy(events[..k - 1]) < n)
  }

  /** The flush waits until event `j`, which completes it. */
  ghost predicate FlushesAt(events: seq<WriteEvent>, k: nat, j: nat) {
    k <= j < |events| && events[j].Done? && forall i :: k <= i < j ==> events[i] == Blocked(false)
  }

  ghost predicate Writes(n: nat, events: seq<WriteEvent>) {
    exists k: nat, j: nat :: TakesAll(n, events, k) && FlushesAt(events, k, j)
  }

  lemma {:induction false} FlushIsExact(events: seq<WriteEvent>)
    ensures Flush(events).Ok? <==> exists j: nat :: FlushesAt(events, 0, j)
    decreases |events|
  {
    if events != [] {
      FlushIsExact(events[1..]);
      if events[0].Done? {
        assert FlushesAt(events, 0, 0);
      }
      if j: nat :| FlushesAt(events[1..], 0, j) && events[0] == Blocked(false) {
        assert FlushesAt(events, 0, j + 1);
      }
      if j: nat :| FlushesAt(events, 0, j) && j > 0 {
        assert events[0] == Blocked(false);
        assert FlushesAt(events[1..], 0, j - 1);
      }
    }
  }

  lemma TakesNone(events: seq<WriteEvent>)
    ensures Writes(0, events) <==> exists j: nat :: FlushesAt(events, 0, j)
  {
    if j: nat :| FlushesAt(events, 0, j) {
      assert TakesAll(0, events, 0);
    }
  }

  /** One event less to take. */
  lemma TakesRest(n: nat, events: seq<WriteEvent>, k: nat)
    requires events != [] && n > 0 && MovesOn(events[0])
    ensures var taken := if events[0].Done? then events[0].count else 0;
            TakesAll(n, events, k + 1) <==> TakesAll(if taken >= n then 0 else n - taken, events[1..], k)
  {
    var rest := events[1..];
    if k < |events| {
      assert events[..k + 1][1..] == rest[..k] && events[..k + 1][0] == events[0];
      assert (forall i :: 0 <= i < k + 1 ==> MovesOn(events[i])) <==> (forall i :: 0 <= i < k ==> MovesOn(rest[i])) by {
        assert forall i :: 0 <= i < k ==> rest[i] == events[i + 1];
        assert forall i :: 1 <= i < k + 1 ==> events[i] == rest[i - 1];
      }
      if k > 0 {
        assert events[..k][1..] == rest[..k - 1] && events[..k][0] == events[0];
      }
    }
  }

  lemma FlushesLater(events: seq<WriteEvent>, k: nat, j: nat)
    requires events != []
    ensures FlushesAt(events, k + 1, j + 1) <==> FlushesAt(events[1..], k, j)
  {
    var rest := events[1..];
    assert forall i :: 0 <= i < |rest| ==> rest[i] == events[i + 1];
    assert forall i :: 1 <= i < |events| ==> events[i] == rest[i - 1];
  }

  lemma WritesRest(n: nat, events: seq<WriteEvent>)
    requires events != [] && n > 0
    ensures var taken := if events[0].Done? then events[0].count else 0;
            Writes(n, events) <==> MovesOn(events[0]) && Writes(if taken >= n then 0 else n - taken, events[1..])
  {
    hide TakesAll, FlushesAt;
    var taken := if events[0].Done? then events[0].count else 0;
    var left := if taken >= n then 0 else n - taken;
    if Writes(n, events) {
      var k: nat, j: nat :| TakesAll(n, events, k) && FlushesAt(events, k, j);
      TakesSome(n, events, k, j);
      TakesRest(n, events, k - 1);
      FlushesLater(events, k - 1, j - 1);
    }
    if MovesOn(events[0]) && Writes(left, events[1..]) {
      var k: nat, j: nat :| TakesAll(left, events[1..], k) && FlushesAt(events[1..], k, j);
      TakesRest(n, events, k);
      FlushesLater(events, k, j);
    }
  }

  lemma TakesSome(n: nat, events: seq<WriteEvent>, k: nat, j: nat)
    requires n > 0 && TakesAll(n, events, k) && FlushesAt(events, k, j)
    ensures events != [] && k > 0 && j > 0 && MovesOn(events[0])
  {
  }

  /** Main result: a frame is written exactly when the pipe, only waiting in between, takes as
      many bytes as it has and then completes the flush. */
  lemma {:induction false} WriteIsExact(frame: Bytes, events: seq<WriteEvent>, wrote: bool)
    ensures WriteAll(frame, events, wrote).1.Ok? <==> Writes(|frame|, events)
    decreases |events|
  {
    hide TakesAll, FlushesAt, Writes;
    if frame == [] {
      FlushIsExact(events);
      TakesNone(events);
    } else if events == [] {
      NothingWrites(|frame|);
    } else {
      WritesRest(|frame|, events);
      match events[0]
      case Done(n) =>
        if n > 0 {
          var k := AtMost(n, |frame|);
          WriteIsExact(frame[k..], events[1..], true);
        }
      case Blocked(expired) => if !expired { WriteIsExact(frame, events[1..], wrote); }
      case Broken =>
    }
  }

  lemma NothingWrites(n: nat)
    requires n > 0
    ensures !Writes(n, [])
  {
  }

  // ----- when a request is made -----

  /** Nothing stands in the way of a request. */
  predicate IsFree(s: State) {
    !s.ambiguous && s.initialized && s.pending == [] && s.nextId < MAX_U64
  }

  /** A request goes out exactly on a free transport, for a kind it makes, when its frame fits
      and is written; it is then the one pending request. */
  lemma RequestIsExact(w: World, s: State, kind: RequestKind, params: string, about: Option<string>)
    ensures var (t, r) := SendRequest(w, s, kind, params, about);
            var encoded := w.encode(Request(s.nextId, kind, params));
            && (r.Ok? <==>
                  && IsFree(s) && kind != Initialize && encoded.Fits?
                  && Writes(|encoded.bytes|, w.pipe(|s.wire|)))
            && (r.Ok? ==>
                  && t == s.(nextId := s.nextId + 1, frame := [], pending := [Pending(s.nextId, kind, about)],
                             wire := s.wire + [Attempt(Some(s.nextId), encoded.bytes, |encoded.bytes|, Ok(()))]))
  {
    var encoded := w.encode(Request(s.nextId, kind, params));
    if encoded.Fits? {
      WriteIsExact(encoded.bytes, w.pipe(|s.wire|), false);
      ReceiptIsSound(encoded.bytes, w.pipe(|s.wire|), false);
      OnlyOk(WriteAll(encoded.bytes, w.pipe(|s.wire|), false).1);
    }
    assert [] + [Pending(s.nextId, kind, about)] == [Pending(s.nextId, kind, about)];
    hide WriteAll, Writes;
  }

  lemma OnlyOk(r: Result<(), WriteFailure>)
    ensures r.Ok? ==> r == Ok(())
  {
    if r.Ok? {
      assert r.value == ();
    }
  }

  /** A turn is prepared exactly on a free transport when its frame fits; one that does not fit
      spends its id and leaves nothing in the buffer. */
  lemma PreparedIsExact(w: World, s: State, thread: string, input: string)
    ensures var (t, r) := PrepareTurn(w, s, thread, input);
            var encoded := w.encode(Turn(s.nextId, thread, input));
            && (r.Ok? <==> IsFree(s) && encoded.Fits?)
            && (r.Ok? ==> r.value == s.nextId && t == s.(nextId := s.nextId + 1, frame := encoded.bytes))
            && (r.Err? ==> t == if IsFree(s) then s.(nextId := s.nextId + 1, frame := []) else s)
  {
  }

  /** A prepared turn is dispatched exactly when the buffer is written. */
  lemma DispatchIsExact(w: World, s: State, id: nat)
    ensures var (t, r) := Dispatch(w, s, id);
            && (r.Ok? <==> Writes(|s.frame|, w.pipe(|s.wire|)))
            && (r.Ok? ==>
                  t == s.(frame := [], ambiguous := false, pending := s.pending + [Pending(id, TurnStart, None)],
                          wire := s.wire + [Attempt(Some(id), s.frame, |s.frame|, Ok(()))]))
  {
    WriteIsExact(s.frame, w.pipe(|s.wire|), false);
    ReceiptIsSound(s.frame, w.pipe(|s.wire|), false);
    OnlyOk(WriteAll(s.frame, w.pipe(|s.wire|), false).1);
    hide WriteAll, Writes;
  }

  // ----- when the pending request is settled -----

  /** The line answers request `id` with `body`. */
  predicate Answers(read: Read, id: nat, body: ResultJson) {
    read.Line? && read.content == Ok(Response(id, body))
  }

  predicate Denies(read: Read, id: nat) {
    read.Line? && read.content == Ok(NativeError(id))
  }

  /** What a call's result says of the request `p` that was pending, and of the last line. */
  ghost predicate SettlesAs(p: Pending, last: Read, left: seq<Pending>, r: Result<Received, Error>) {
    && (left == [] || left == [p])
    && (r.Ok? ==> && left == [] && last.Line? && last.content.Ok? && last.content.value.Response?
                  && last.content.value.id == p.id && ParseResponse(last.content.value.body, p) == Ok(r.value))
    && (r == Err(Native) <==> left == [] && Denies(last, p.id))
    && (left == [] && last.Line? && last.content.Ok? && last.content.value.Response? ==> r.Ok?)
  }

  lemma ReadOneSettles(w: World, s: State, p: Pending)
    requires Sane(w) && s.pending == [p]
    ensures var (t, r) := ReadOne(w, s);
            && t.pos == s.pos + 1
            && (r == Ok(None) ==> t.pending == [p])
            && (r != Ok(None) ==>
                  SettlesAs(p, w.peer(s.pos), t.pending, if r.Err? then Err(r.error) else Ok(r.value.value)))
  {
    var read := w.peer(s.pos);
    assert read.Line? && read.content.Err? ==> read.content.error in {Malformed, Bounds};
    if read.Line? && read.content.Ok? && s.stdout + read.length <= MAX_STDOUT {
      var s2 := s.(pos := s.pos + 1, stdout := s.stdout + read.length);
      assert ReadOne(w, s) == HandleInbound(w, s2, read.content.value);
      hide ReadOne, Sane;
      HandleSettles(w, s2, read.content.value, p);
      hide HandleInbound, SettlesAs;
      assert read == Line(read.length, Ok(read.content.value));
    } else {
      assert ReadOne(w, s).1.Err? && ReadOne(w, s).1.error != Native && ReadOne(w, s).0.pending == [p];
      hide ReadOne, Sane, ParseResponse;
    }
  }

  lemma HandleSettles(w: World, s: State, inbound: Inbound, p: Pending)
    requires s.pending == [p]
    ensures var (t, r) := HandleInbound(w, s, inbound);
            && t.pos == s.pos
            && (r == Ok(None) ==> t.pending == [p])
            && (r != Ok(None) ==>
                  forall length: nat ::
                    SettlesAs(p, Line(length, Ok(inbound)), t.pending,
                              if r.Err? then Err(r.error) else Ok(r.value.value)))
  {
    match inbound
    case Response(_, body) =>
      SendKeepsRest(w, s.(ambiguous := false), InitializedNote, None);
      NotesFail(w, s.(ambiguous := false), InitializedNote);
      ParseFails(body, p);
      hide Send, ParseResponse;
      assert [p][1..] == [];
    case ServerRequest(requestId) =>
      SendKeepsRest(w, s, Refusal(requestId), None);
      NotesFail(w, s, Refusal(requestId));
      hide Send, ParseResponse;
    case _ => hide ParseResponse;
  }

  lemma ParseFails(body: ResultJson, p: Pending)
    ensures ParseResponse(body, p).Err? ==> ParseResponse(body, p).error != Native
  {
    hide ActiveThread, IdleThread;
  }

  lemma NotesFail(w: World, s: State, message: Outbound)
    ensures var r := Send(w, s, message, None).1;
            r.Err? ==> r.error != Native
  {
    var encoded := w.encode(message);
    if encoded.Fits? {
      NeverNative(encoded.bytes, w.pipe(|s.wire|), false);
    }
    hide WriteAll;
  }

  lemma {:induction false} NeverNative(frame: Bytes, events: seq<WriteEvent>, wrote: bool)
    ensures var r := WriteAll(frame, events, wrote).1;
            r.Err? ==> r.error.error != Native
    decreases |events|
  {
    if frame == [] {
      FlushNeverNative(events);
    } else if events != [] {
      match events[0]
      case Done(n) => if n > 0 { NeverNative(frame[AtMost(n, |frame|)..], events[1..], true); }
      case Blocked(expired) => if !expired { NeverNative(frame, events[1..], wrote); }
      case Broken =>
    }
  }

  lemma {:induction false} FlushNeverNative(events: seq<WriteEvent>)
    ensures Flush(events).Err? ==> Flush(events).error.error != Native
    decreases |events|
  {
    if events != [] && events[0].Blocked? { FlushNeverNative(events[1..]); }
  }

  /** Main result: while a request is pending, a receive succeeds exactly when its last line
      is a response to that request of the shape it expects, and says "native" exactly when
      that line is an error for it; only then, and always then, is the request gone. */
  lemma {:induction false} LoopSettles(w: World, s: State, p: Pending)
    requires Sane(w) && s.stdout <= MAX_STDOUT && s.pending == [p]
    ensures var (t, r) := ReadLoop(w, s);
            s.pos < t.pos && SettlesAs(p, w.peer(t.pos - 1), t.pending, r)
    decreases MAX_STDOUT - s.stdout
  {
    hide ReadOne, Sane, SettlesAs;
    ReadOneBudget(w, s);
    ReadOneSettles(w, s, p);
    var (t, r) := ReadOne(w, s);
    if r == Ok(None) {
      LoopSettles(w, t, p);
    }
  }

  /** The handshake completes when its response was read and its own note written. */
  lemma HandshakeCompletes(w: World, s: State, body: ResultJson)
    requires s.pending == [Pending(1, Initialize, None)] && Answers(w.peer(s.pos), 1, body)
    requires s.stdout + w.peer(s.pos).length <= MAX_STDOUT
    requires w.encode(InitializedNote).Fits?
    requires Writes(|w.encode(InitializedNote).bytes|, w.pipe(|s.wire|))
    ensures var (t, r) := ReadOne(w, s);
            r == Ok(Some(Initialized)) && t.initialized && t.pending == [] && !t.ambiguous
  {
    WriteIsExact(w.encode(InitializedNote).bytes, w.pipe(|s.wire|), false);
    hide WriteAll, Writes;
  }

  /** The handshake goes out exactly once, on a transport that is not latched and has nothing
      pending, when its frame fits and is written. */
  lemma HandshakeIsExact(w: World, s: State)
    ensures var (t, r) := Handshake(w, s);
            var encoded := w.encode(InitializeRequest);
            && (r.Ok? <==>
                  && !s.ambiguous && !s.initialized && s.pending == []
                  && encoded.Fits? && Writes(|encoded.bytes|, w.pipe(|s.wire|)))
            && (r.Ok? ==> t.pending == [Pending(1, Initialize, None)] && |t.wire| == |s.wire| + 1
                          && t.wire[|s.wire|].request == Some(1) && t.wire[|s.wire|].frame == encoded.bytes)
  {
    var encoded := w.encode(InitializeRequest);
    if encoded.Fits? {
      WriteIsExact(encoded.bytes, w.pipe(|s.wire|), false);
    }
    hide WriteAll, Writes;
  }

  // ----- when the latch is set -----

  /** A message that is begun, not finished, and of which the pipe may hold a part. */
  predicate MaybeWritten(w: World, s: State, message: Outbound) {
    && w.encode(message).Fits?
    && var (accepted, outcome) := WriteAll(w.encode(message).bytes, w.pipe(|s.wire|), false);
       outcome.Err? && (accepted > 0 || w.encode(message).bytes == [])
  }

  /** A message sent on an unlatched transport latches it exactly when it may be written. */
  lemma SendLatches(w: World, s: State, message: Outbound, request: Option<nat>)
    requires !s.ambiguous
    ensures var (t, r) := Send(w, s, message, request);
            && (t.ambiguous <==> MaybeWritten(w, s, message))
            && (t.ambiguous ==> r == Err(Ambiguous))
  {
    if w.encode(message).Fits? {
      ReceiptIsSound(w.encode(message).bytes, w.pipe(|s.wire|), false);
    }
    hide WriteAll;
  }

  /** The line leaves the pending request in doubt: it cannot be classified, it answers
      another request, it answers this one in no shape it expects, or it is a notification
      before the handshake is complete. */
  predicate Confuses(content: Result<Inbound, Error>, s: State) {
    && s.pending != []
    && match content
       case Err(_) => true
       case Ok(Response(id, body)) => id != s.pending[0].id || ParseResponse(body, s.pending[0]).Err?
       case Ok(NativeError(id)) => id != s.pending[0].id
       case Ok(Note(_)) => !s.initialized
       case Ok(ServerRequest(_)) => false
  }

  /** What the next read makes the transport write. */
  predicate WritesInDoubt(w: World, content: Result<Inbound, Error>, s: State) {
    match content
    case Ok(ServerRequest(requestId)) => MaybeWritten(w, s, Refusal(requestId))
    case Ok(Response(id, body)) =>
      && s.pending != [] && id == s.pending[0].id && ParseResponse(body, s.pending[0]) == Ok(Initialized)
      && MaybeWritten(w, s, InitializedNote)
    case _ => false
  }

  /** Main result: one read latches a transport exactly when, with a request pending, it fails
      or brings a line within the limit that leaves the request in doubt, or when what it is
      answered with may have been written in part. */
  lemma ReadOneLatches(w: World, s: State)
    requires !s.ambiguous
    ensures var read := w.peer(s.pos);
            ReadOne(w, s).0.ambiguous <==>
              if read.Failed? then s.pending != []
              else
                && s.stdout + read.length <= MAX_STDOUT
                && (Confuses(read.content, s) || WritesInDoubt(w, read.content, s))
  {
    var read := w.peer(s.pos);
    if read.Line? && s.stdout + read.length <= MAX_STDOUT && read.content.Ok? {
      var s2 := s.(pos := s.pos + 1, stdout := s.stdout + read.length);
      match read.content.value
      case ServerRequest(requestId) => SendLatches(w, s2, Refusal(requestId), None);
      case Response(id, body) =>
        SendLatches(w, s2.(ambiguous := false), InitializedNote, None);
        if s.pending != [] { OnlyHandshake(body, s.pending[0]); }
      case _ =>
    }
    hide Send, ParseResponse, WriteAll;
  }
}
