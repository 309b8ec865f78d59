/** What a write's disposition proves, and the lifecycle of one observed turn. */
module ControllerTurn {
  import opened Prelude
  import Sanitize
  import opened Transport
  import opened TransportProofs
  import opened TransportRuns
  import opened Controllers
  import opened ControllerProofs

  // ----- dispositions -----

  lemma {:induction false} WriteErrors(frame: Bytes, events: seq<WriteEvent>, wrote: bool)
    ensures var outcome := WriteAll(frame, events, wrote).1;
            outcome.Err? ==> outcome.error.error in {Ambiguous, Deadline, Closed}
    decreases |events|
  {
    if frame == [] {
      FlushErrors(events);
    } else if events != [] {
      match events[0]
      case Done(n) => if n > 0 { WriteErrors(frame[AtMost(n, |frame|)..], events[1..], true); }
      case Blocked(expired) => if !expired { WriteErrors(frame, events[1..], wrote); }
      case Broken =>
    }
  }

  lemma {:induction false} FlushErrors(events: seq<WriteEvent>)
    ensures Flush(events).Err? ==> Flush(events).error.error in {Ambiguous, Deadline}
    decreases |events|
  {
    if events != [] && events[0].Blocked? { FlushErrors(events[1..]); }
  }

  lemma SendErrors(w: World, s: State, message: Outbound, request: Option<nat>)
    ensures var r := Send(w, s, message, request).1;
            r.Err? ==> r.error in {Ambiguous, Deadline, Closed, Bounds}
  {
    var encoded := w.encode(message);
    if encoded.Fits? {
      WriteErrors(encoded.bytes, w.pipe(|s.wire|), false);
    }
    hide WriteAll;
  }

  predicate IsNativeError(read: Read, id: nat) {
    read.Line? && read.content == Ok(NativeError(id))
  }

  predicate IsTurnResponse(read: Read, id: nat, turn: string) {
    && read.Line? && read.content.Ok? && read.content.value.Response? && read.content.value.id == id
    && read.content.value.body.turnRef == Some(turn)
  }

  /** A native error and a started turn are always the reply to the pending turn. */
  ghost predicate TurnReply(w: World, s: State, t: State, r: Result<Received, Error>)
    requires s.pending != []
  {
    && 0 < t.pos
    && (r == Err(Native) ==> IsNativeError(w.peer(t.pos - 1), s.pending[0].id))
    && (r.Ok? && r.value.TurnStarted? ==> IsTurnResponse(w.peer(t.pos - 1), s.pending[0].id, r.value.turn))
  }

  lemma ReadOneReply(w: World, s: State)
    requires Sane(w) && s.pending != []
    ensures var (t, r) := ReadOne(w, s);
            && t.pos == s.pos + 1
            && (r == Err(Native) ==> IsNativeError(w.peer(s.pos), s.pending[0].id))
            && (r.Ok? && r.value.Some? && r.value.value.TurnStarted? ==>
                  IsTurnResponse(w.peer(s.pos), s.pending[0].id, r.value.value.turn))
  {
    var read := w.peer(s.pos);
    assert read.Line? && read.content.Err? ==> read.content.error in {Malformed, Bounds};
    hide Sane;
    if read.Line? && read.content.Ok? && s.stdout + read.length <= MAX_STDOUT {
      var s2 := s.(pos := s.pos + 1, stdout := s.stdout + read.length);
      match read.content.value
      case Response(_, body) =>
        SendErrors(w, s2.(ambiguous := false), InitializedNote, None);
        SendKeepsRest(w, s2.(ambiguous := false), InitializedNote, None);
        ParseErrors(body, s.pending[0]);
        hide Send, ParseResponse;
      case ServerRequest(requestId) =>
        SendErrors(w, s2, Refusal(requestId), None);
        SendKeepsRest(w, s2, Refusal(requestId), None);
        hide Send;
      case _ =>
    }
  }

  lemma ParseErrors(body: ResultJson, pending: Pending)
    ensures var r := ParseResponse(body, pending);
            && (r.Err? ==> r.error in {Malformed, Bounds, Correlation})
            && (r.Ok? && r.value.TurnStarted? ==> body.turnRef == Some(r.value.turn))
  {
    hide IdleThread, ActiveThread, NativeRef;
  }

  lemma {:induction false} LoopReply(w: World, s: State)
    requires Sane(w) && s.stdout <= MAX_STDOUT && s.pending != []
    ensures var (t, r) := ReadLoop(w, s);
            TurnReply(w, s, t, r)
    decreases MAX_STDOUT - s.stdout
  {
    hide ReadOne, Sane, IsNativeError, IsTurnResponse;
    ReadOneBudget(w, s);
    ReadOneReply(w, s);
    var (t, r) := ReadOne(w, s);
    if r == Ok(None) {
      LoopReply(w, t);
    }
  }

  /** What a disposition says of the attempt `a` to write turn `id` and of the last read. */
  ghost predicate Backs(a: Attempt, last: Read, id: nat, disposition: Disposition, noted: bool,
                        seal: string -> Option<Id>)
  {
    && a.request == Some(id) && a.accepted <= |a.frame|
    && match disposition
       case ProvenNotAccepted =>
         (a.outcome.Err? && a.accepted == 0) || (a.outcome.Ok? && IsNativeError(last, id))
       case Accepted(turnRef) =>
         && a.outcome.Ok? && a.accepted == |a.frame|
         && exists turn :: IsTurnResponse(last, id, turn) && seal(turn) == Some(turnRef)
       case Unknown => noted
       case IdleEpochInvalidated(_, _) => false
  }

  /** The disposition of a dispatched turn is backed by the first attempt it made. */
  ghost predicate Proves(w: World, c: Value, d: Value, id: nat, command: Command, seal: string -> Option<Id>,
                         disposition: Disposition)
  {
    && |c.t.wire| < |d.t.wire| && c.t.wire == d.t.wire[..|c.t.wire|] && 0 < d.t.pos
    && d.t.wire[|c.t.wire|].frame == c.t.frame
    && Backs(d.t.wire[|c.t.wire|], w.peer(d.t.pos - 1), id, disposition,
             d.reconciling == Some(command.correlation), seal)
  }

  lemma DispatchGood(w: World, s: State, id: nat)
    requires GoodState(s) && s.pending == [] && 2 <= id < s.nextId && !Framed(s.wire, id)
    ensures var (t, sent) := Dispatch(w, s, id);
            && t.pos == s.pos && t.stdout == s.stdout
            && |t.wire| == |s.wire| + 1 && t.wire[..|s.wire|] == s.wire
            && t.wire[|s.wire|].request == Some(id) && t.wire[|s.wire|].frame == s.frame
            && t.wire[|s.wire|].outcome == sent && SoundAttempt(t.wire[|s.wire|])
            && GoodState(t) && (sent.Ok? ==> t.pending == [Pending(id, TurnStart, None)])
  {
    OfferWrites(w, s, s.frame, Some(id));
    var t := Offer(w, s, s.frame, Some(id)).0;
    assert WireKept(s, t, Some(id));
    WireKeptIsGood(s, t, Some(id), s.nextId, s.nextId);
    hide Offer, GoodWire, Framed, SoundAttempt, WireKept;
  }

  /** Main result: for every pipe and every process. "Not accepted" means that no byte of the
      frame was taken or a native error for exactly this id arrived; "accepted" means the
      whole buffer was taken, flushed, and answered under this id. */
  lemma DispositionIsSound(w: World, c: Value, id: nat, command: Command, seal: string -> Option<Id>)
    requires Sane(w) && GoodState(c.t) && c.t.pending == []
    requires 0 < c.t.pos && 2 <= id < c.t.nextId && !Framed(c.t.wire, id)
    ensures var (d, disposition) := Perform(w, c, id, command, seal);
            Proves(w, c, d, id, command, seal, disposition)
  {
    hide Dispatch, GoodState, Framed, Receive, IsNativeError, IsTurnResponse, Sane;
    DispatchGood(w, c.t, id);
    var (t1, sent) := Dispatch(w, c.t, id);
    if sent.Ok? {
      ReceiveReply(w, t1);
      assert Receive(w, t1).0.wire[..|c.t.wire|] == c.t.wire;
    }
  }

  lemma ReceiveReply(w: World, s: State)
    requires Sane(w) && GoodState(s) && s.pending != []
    ensures var (t, r) := Receive(w, s);
            TurnReply(w, s, t, r) && s.wire <= t.wire && s.stdout <= MAX_STDOUT
  {
    ReceiveObeys(w, s);
    hide ReadLoop, IsNativeError, IsTurnResponse, GoodWire;
    LoopReply(w, s);
  }

  /** A refused write framed nothing under its id; a dispatched one framed what the buffer held. */
  lemma ReserveKeepsWire(w: World, c: Value, lane: Lane, command: Command, thread: Option<string>, live: bool,
                         bound: bool, leased: bool)
    requires Sane(w) && GoodState(c.t)
    ensures var (d, reserved) := Reserve(w, c, lane, command, thread, live, bound, leased);
            && c.t.wire <= d.t.wire && (forall id: nat :: Framed(d.t.wire, id) ==> Framed(c.t.wire, id))
            && GoodState(d.t)
            && (reserved.Ok? ==> 0 < d.t.pos)
  {
    hide PrepareTurn, Drain, Framed, GoodWire, Sane;
    if thread.Some? {
      var t1 := PrepareTurn(w, c.t, thread.value, command.input).0;
      PrepareGood(w, c.t, thread.value, command.input);
      DrainKeepsWire(w, t1, c.epoch);
      assert Drain(w, t1, c.epoch).2.Ok? ==> 0 < Drain(w, t1, c.epoch).0.pos;
    }
  }

  lemma PrepareGood(w: World, s: State, thread: string, input: string)
    requires GoodState(s)
    ensures var (t, r) := PrepareTurn(w, s, thread, input);
            && GoodState(t) && t.wire == s.wire && t.pos == s.pos && t.pending == s.pending
            && (s.ambiguous ==> t == s)
            && (r.Ok? ==> t.pending == [] && !t.ambiguous && r.value == s.nextId && t.nextId == s.nextId + 1
                          && 2 <= r.value && !Framed(t.wire, r.value))
  {
    LimitGrows(s.wire, s.nextId);
    FreshId(s);
    hide GoodWire, Framed;
  }

  lemma {:induction false} DrainKeepsWire(w: World, t: State, epoch: nat)
    requires Sane(w) && GoodState(t)
    ensures var (u, _, r) := Drain(w, t, epoch);
            && t.wire <= u.wire && (forall id: nat :: Framed(u.wire, id) ==> Framed(t.wire, id))
            && GoodState(u) && t.pos <= u.pos && (r.Ok? ==> t.pos < u.pos)
    decreases Budget(t)
  {
    hide Receive, Sane, GoodWire, Framed;
    ReceiveObeys(w, t);
    ReceiveBudget(w, t);
    var (u, r) := Receive(w, t);
    if r.Ok? {
      DrainKeepsWire(w, u, Bump(epoch));
    } else {
      ErrorReads(w, t);
    }
  }

  lemma ErrorReads(w: World, t: State)
    requires Ready(w, t) && Receive(w, t).1.Err?
    ensures t.pos < Receive(w, t).0.pos
  {
    hide ReadLoop;
    ReadLoopBudget(w, t);
  }

  /** What a whole write proves, whatever the process sends and the pipe takes. */
  ghost predicate TurnProves(w: World, c: Value, d: Value, command: Command, thread: Option<string>,
                             r: Result<Disposition, ()>, seal: string -> Option<Id>)
  {
    var id := c.t.nextId;
    if Framed(d.t.wire, id) then
      && r.Ok? && 0 < d.t.pos && thread.Some? && w.encode(Turn(id, thread.value, command.input)).Fits?
      && exists k :: 0 <= k < |d.t.wire|
           && d.t.wire[k].frame == (if Rejects(w, c.t) then []
                                    else w.encode(Turn(id, thread.value, command.input)).bytes)
           && Backs(d.t.wire[k], w.peer(d.t.pos - 1), id, r.value, d.reconciling == Some(command.correlation), seal)
    else r.Err? || r.value.ProvenNotAccepted? || r.value.IdleEpochInvalidated?
  }

  /** What is left to be dispatched by a reservation that was not refused. */
  ghost predicate ReadyToSend(w: World, c: Value, d: Value, command: Command, thread: Option<string>, id: nat) {
    && id == c.t.nextId && 2 <= id < d.t.nextId && !Framed(d.t.wire, id)
    && GoodState(d.t) && d.t.pending == [] && 0 < d.t.pos
    && thread.Some? && w.encode(Turn(id, thread.value, command.input)).Fits?
    && d.t.frame == if Rejects(w, c.t) then [] else w.encode(Turn(id, thread.value, command.input)).bytes
  }

  lemma ReservedIsReady(w: World, c: Value, d: Value, lane: Lane, command: Command, thread: Option<string>, live: bool,
                        bound: bool, leased: bool, id: nat)
    requires Sane(w) && GoodState(c.t) && Bounded(c.t, c.epoch) && command.epoch <= c.epoch
    requires Reserve(w, c, lane, command, thread, live, bound, leased) == (d, Ok(id))
    ensures ReadyToSend(w, c, d, command, thread, id) && d.t.stdout <= MAX_STDOUT
  {
    assert 2 <= c.t.nextId;
    hide Reserve, Sane, Framed, GoodWire, Rejects;
    FreshId(c.t);
    ReserveKeepsWire(w, c, lane, command, thread, live, bound, leased);
    FrameAtDispatch(w, c, lane, command, thread, live, bound, leased);
  }

  lemma DispatchedIsSound(w: World, c: Value, d: Value, command: Command, thread: Option<string>, id: nat,
                          seal: string -> Option<Id>)
    requires Sane(w) && ReadyToSend(w, c, d, command, thread, id) && d.t.stdout <= MAX_STDOUT
    ensures var (e, disposition) := Perform(w, d, id, command, seal);
            TurnProves(w, c, e, command, thread, Ok(disposition), seal)
  {
    hide Perform, Sane, Framed, GoodState, Rejects, Backs;
    DispositionIsSound(w, d, id, command, seal);
    var (e, disposition) := Perform(w, d, id, command, seal);
    var k := |d.t.wire|;
    Attempted(e.t.wire[k], w.peer(e.t.pos - 1), id, disposition, e.reconciling == Some(command.correlation), seal);
    FramedAt(e.t.wire, k, id);
  }

  /** Main result: write-disposition soundness of the whole operation. */
  lemma WriteIsSound(w: World, c: Value, lane: Lane, command: Command, thread: Option<string>, live: bool,
                     bound: bool, leased: bool, seal: string -> Option<Id>)
    requires Sane(w) && GoodState(c.t) && Bounded(c.t, c.epoch) && command.epoch <= c.epoch
    ensures var (d, r) := WriteTurn(w, c, lane, command, thread, live, bound, leased, seal);
            TurnProves(w, c, d, command, thread, r, seal)
  {
    hide Perform, Reserve, Sane, Framed, GoodState, TurnProves, ReadyToSend;
    var (d, reserved) := Reserve(w, c, lane, command, thread, live, bound, leased);
    if reserved.Ok? {
      ReservedIsReady(w, c, d, lane, command, thread, live, bound, leased, reserved.value);
      DispatchedIsSound(w, c, d, command, thread, reserved.value, seal);
    } else {
      RefusedIsSound(w, c, d, lane, command, thread, live, bound, leased, reserved.error, seal);
    }
  }

  lemma RefusedIsSound(w: World, c: Value, d: Value, lane: Lane, command: Command, thread: Option<string>, live: bool,
                       bound: bool, leased: bool, refused: Refused, seal: string -> Option<Id>)
    requires Sane(w) && GoodState(c.t)
    requires Reserve(w, c, lane, command, thread, live, bound, leased) == (d, Err(refused))
    ensures TurnProves(w, c, d, command, thread,
                       if refused.BindingRejected? then Err(()) else Ok(refused.disposition), seal)
  {
    hide Reserve, Sane, Framed, Backs;
    FreshId(c.t);
    ReserveKeepsWire(w, c, lane, command, thread, live, bound, leased);
    Refusals(w, c, lane, command, thread, live, bound, leased);
  }

  lemma Attempted(a: Attempt, last: Read, id: nat, disposition: Disposition, noted: bool, seal: string -> Option<Id>)
    requires Backs(a, last, id, disposition, noted, seal)
    ensures a.request == Some(id)
  {
  }

  lemma FramedAt(wire: seq<Attempt>, k: nat, id: nat)
    requires k < |wire| && wire[k].request == Some(id)
    ensures Framed(wire, id)
  {
  }

  lemma Refusals(w: World, c: Value, lane: Lane, command: Command, thread: Option<string>, live: bool,
                 bound: bool, leased: bool)
    requires Ready(w, c.t) && Reserve(w, c, lane, command, thread, live, bound, leased).1.Err?
    ensures var refused := Reserve(w, c, lane, command, thread, live, bound, leased).1.error;
            || refused.BindingRejected?
            || refused.disposition.ProvenNotAccepted? || refused.disposition.IdleEpochInvalidated?
  {
    hide Drain, PrepareTurn;
  }

  // ----- the case in which the frame is lost -----

  const SAMPLE_FRAME: Bytes := [10]

  /** The server asks something, the pipe is stuck while that is refused, then it is free;
      the next line answers request 2. */
  const SAMPLE_WORLD := World(
    i => if i == 0 then Line(10, Ok(ServerRequest("1")))
         else Line(10, Ok(Response(2, ResultJson(None, None, Some("t"))))),
    k => if k == 0 then [Blocked(true)] else [Done(1), Done(1)],
    _ => Fits(SAMPLE_FRAME))

  const SAMPLE_STATE := NEW.(initialized := true)
  const SAMPLE_CONTROLLER := Fresh(SAMPLE_STATE).(laneProbe := Some("p"))
  const SAMPLE_COMMAND := Command("p", 0, "go", "c")

  lemma SampleDrain()
    ensures Ready(SAMPLE_WORLD, SAMPLE_STATE)
    ensures var t := SAMPLE_STATE.(frame := SAMPLE_FRAME, nextId := 3);
            Drain(SAMPLE_WORLD, t, 0) ==
              (t.(frame := [], stdout := 10, pos := 1,
                  wire := [Attempt(None, SAMPLE_FRAME, 0, Err(WriteFailure(Deadline, ProvenNotWritten)))]),
               0, Ok(()))
  {
    var w := SAMPLE_WORLD;
    var t := SAMPLE_STATE.(frame := SAMPLE_FRAME, nextId := 3);
    assert Sane(w);
    var failed := Attempt(None, SAMPLE_FRAME, 0, Err(WriteFailure(Deadline, ProvenNotWritten)));
    var u := t.(frame := [], stdout := 10, pos := 1, wire := [failed]);
    assert WriteAll(SAMPLE_FRAME, w.pipe(0), false) == (0, failed.outcome);
    assert Offer(w, t.(stdout := 10, pos := 1), SAMPLE_FRAME, None).0 == u;
    assert ReadOne(w, t) == (u, Err(Deadline));
  }

  /** A turn reported as accepted of which the pipe was offered no byte: the drain took the
      failed refusal for "no data", and the frame it wiped was dispatched empty. */
  lemma AcceptedWithoutBytes(seal: string -> Option<Id>)
    requires seal("t").Some?
    ensures Ready(SAMPLE_WORLD, SAMPLE_STATE)
    ensures var (d, r) := WriteTurn(SAMPLE_WORLD, SAMPLE_CONTROLLER, Lane("p", 0), SAMPLE_COMMAND, Some("th"), true,
                                    true, true, seal);
            && r == Ok(Accepted(seal("t").value))
            && |d.t.wire| == 2 && d.t.wire[1] == Attempt(Some(2), [], 0, Ok(()))
  {
    var w := SAMPLE_WORLD;
    SampleDrain();
    var t := SAMPLE_STATE.(frame := SAMPLE_FRAME, nextId := 3);
    assert PrepareTurn(w, SAMPLE_STATE, "th", "go") == (t, Ok(2));
    var u := Drain(w, t, 0).0;
    var c := SAMPLE_CONTROLLER;
    assert Reserve(w, c, Lane("p", 0), SAMPLE_COMMAND, Some("th"), true, true, true) == (c.(t := u), Ok(2));
    hide Drain, Reserve, PrepareTurn;
    assert WriteAll([], w.pipe(1), false) == (0, Ok(()));
    var v := u.(wire := u.wire + [Attempt(Some(2), [], 0, Ok(()))], pending := [Pending(2, TurnStart, None)]);
    assert |u.wire| == 1 && u.frame == [] && u.pending == [];
    assert Flush(w.pipe(1)) == Ok(());
    assert Offer(w, u, u.frame, Some(2)) == (u.(wire := u.wire + [Attempt(Some(2), [], 0, Ok(()))]), Ok(()));
    assert u.pending + [Pending(2, TurnStart, None)] == [Pending(2, TurnStart, None)];
    assert Dispatch(w, u, 2) == (v, Ok(()));
    SampleReply(v);
  }

  lemma SampleReply(v: State)
    requires v.pos == 1 && v.stdout == 10 && v.pending == [Pending(2, TurnStart, None)] && !v.ambiguous
    ensures ReadOne(SAMPLE_WORLD, v) == (v.(pos := 2, stdout := 20, pending := []), Ok(Some(TurnStarted("t"))))
  {
    var body := ResultJson(None, None, Some("t"));
    assert Sanitize.Bytes("t") == 1 by { assert "t"[1..] == ""; }
    assert ParseResponse(body, v.pending[0]) == Ok(TurnStarted("t"));
    assert v.pending[1..] == [];
  }
}
