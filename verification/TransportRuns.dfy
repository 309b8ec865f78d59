/**
 Whole sessions of one transport: requests, prepared turns and receives in any order.

 A prepared turn is a permit to write the frame that was encoded for it. The one rule of a
 session is that a permit is used or given up before another request. Receiving while it is
 out is allowed, although it can replace the prepared frame: `intact` says whether it has.
 */
module TransportRuns {
  import opened Prelude
  import opened Transport
  import opened TransportProofs

  /** `out` are the notifications handed on, `refused` the reads of those answered with an
      error, with what the transport held then. */
  datatype Session = Session(
    state: State, permit: Option<Permit>, intact: bool, out: seq<Notification>, refused: map<nat, Reason>)

  datatype Reason = Reason(error: Error, queued: nat, read: nat)

  datatype Permit = Permit(id: nat, thread: string, input: string)

  datatype Op =
    | Ask(kind: RequestKind, params: string, about: Option<string>)
    | Prepare(thread: string, input: string)
    | Abandon
    | Commit
    | Take

  ghost function Taken(w: World, l: Session): Session
    requires Sane(w) && l.state.stdout <= MAX_STDOUT
  {
    var (t, r) := Receive(w, l.state);
    Session(t, l.permit, l.intact && !Rejects(w, l.state), l.out + Out(r),
            if t.pos > l.state.pos && Answered(w, t, r) < t.pos
            then l.refused[t.pos - 1 := Reason(r.error, |t.notes|, t.stdout)] else l.refused)
  }

  ghost function Do(w: World, l: Session, op: Op): Session {
    match op
    case Ask(kind, params, about) =>
      if l.permit.Some? then l else l.(state := SendRequest(w, l.state, kind, params, about).0)
    case Prepare(thread, input) =>
      if l.permit.Some? then l
      else
        var (t, r) := PrepareTurn(w, l.state, thread, input);
        l.(state := t, permit := if r.Ok? then Some(Permit(r.value, thread, input)) else None, intact := true)
    case Abandon => l.(state := Discard(l.state), permit := None)
    case Commit =>
      if l.permit.None? then l
      else l.(state := Dispatch(w, l.state, l.permit.value.id).0, permit := None)
    case Take =>
      if Sane(w) && l.state.stdout <= MAX_STDOUT then Taken(w, l) else l
  }

  ghost function Run(w: World, l: Session, ops: seq<Op>): Session
    decreases |ops|
  {
    if ops == [] then l else Do(w, Run(w, l, ops[..|ops| - 1]), ops[|ops| - 1])
  }

  /** A transport starts with its one handshake request. */
  function Start(w: World): Session {
    Session(Handshake(w, NEW).0, None, false, [], map[])
  }

  // ----- what was written -----

  ghost predicate Framed(wire: seq<Attempt>, id: nat) {
    exists i :: 0 <= i < |wire| && wire[i].request == Some(id)
  }

  /** Request ids are below `limit`, and no id was framed twice. */
  ghost predicate GoodWire(wire: seq<Attempt>, limit: nat) {
    && (forall i | 0 <= i < |wire| :: SoundAttempt(wire[i]))
    && (forall i | 0 <= i < |wire| :: wire[i].request.Some? ==> wire[i].request.value < limit)
    && (forall i, j | 0 <= i < j < |wire| ::
          wire[i].request.Some? ==> wire[i].request != wire[j].request)
  }

  lemma OfferWrites(w: World, s: State, frame: Bytes, request: Option<nat>)
    ensures var (t, outcome) := Offer(w, s, frame, request);
            && |t.wire| == |s.wire| + 1 && t.wire[..|s.wire|] == s.wire
            && var a := t.wire[|s.wire|];
               a.request == request && a.frame == frame && a.outcome == outcome && SoundAttempt(a)
  {
    ReceiptIsSound(frame, w.pipe(|s.wire|), false);
  }

  lemma OneMoreAttempt(wire: seq<Attempt>, a: Attempt, limit: nat, more: nat)
    requires GoodWire(wire, limit) && SoundAttempt(a) && limit <= more
    requires a.request.Some? ==> a.request.value < more && !Framed(wire, a.request.value)
    ensures GoodWire(wire + [a], more)
    ensures forall id: nat :: Framed(wire + [a], id) ==> Framed(wire, id) || a.request == Some(id)
  {
    hide SoundAttempt;
    var longer := wire + [a];
    forall id: nat | Framed(longer, id) && a.request != Some(id) ensures Framed(wire, id) {
      var i :| 0 <= i < |longer| && longer[i].request == Some(id);
      assert wire[i].request == Some(id);
    }
  }

  /** Writing on the way never frames a new request id. */
  ghost predicate WireKept(s: State, t: State, request: Option<nat>) {
    t.wire == s.wire
    || (|t.wire| == |s.wire| + 1 && t.wire[..|s.wire|] == s.wire
        && SoundAttempt(t.wire[|s.wire|]) && t.wire[|s.wire|].request == request)
  }

  lemma SendWrites(w: World, s: State, message: Outbound, request: Option<nat>)
    ensures var (t, r) := Send(w, s, message, request);
            && WireKept(s, t, request) && t == s.(frame := t.frame, ambiguous := t.ambiguous, wire := t.wire)
            && (s.ambiguous ==> t == s && r == Err(Ambiguous))
            && (!s.ambiguous && t.ambiguous ==> r.Err?)
  {
    var encoded := w.encode(message);
    if encoded.Fits? {
      OfferWrites(w, s, encoded.bytes, request);
    }
    hide Offer, SoundAttempt;
  }

  lemma WireKeptIsGood(s: State, t: State, request: Option<nat>, limit: nat, more: nat)
    requires GoodWire(s.wire, limit) && WireKept(s, t, request) && limit <= more
    requires request.Some? ==> request.value < more && !Framed(s.wire, request.value)
    ensures GoodWire(t.wire, more)
    ensures forall id: nat :: Framed(t.wire, id) ==> Framed(s.wire, id) || request == Some(id)
  {
    if t.wire != s.wire {
      assert t.wire == s.wire + [t.wire[|s.wire|]];
      OneMoreAttempt(s.wire, t.wire[|s.wire|], limit, more);
    }
    hide SoundAttempt, Framed;
  }

  // ----- what a receive does to a prepared frame -----

  predicate IsServerRequest(read: Read) {
    read.Line? && read.content.Ok? && read.content.value.ServerRequest?
  }

  /** The next receive answers a request of the server. */
  predicate Rejects(w: World, s: State) {
    s.notes == [] && IsServerRequest(w.peer(s.pos)) && s.stdout + w.peer(s.pos).length <= MAX_STDOUT
  }

  /** The frame buffer is shared: with nothing pending, one receive leaves a prepared frame
      alone unless it answers a request of the server, and then the frame is gone. */
  lemma RejectionWipesFrame(w: World, s: State)
    requires Sane(w) && s.stdout <= MAX_STDOUT && s.pending == [] && !s.ambiguous
    ensures var (t, r) := Receive(w, s);
            && t.pending == []
            && (!Rejects(w, s) ==> t.frame == s.frame && !t.ambiguous)
            && (Rejects(w, s) ==>
                  var encoded := w.encode(Refusal(w.peer(s.pos).content.value.requestId));
                  t.frame == if encoded.Fits? then [] else encoded.partial)
            && (r == Ok(ServerRequestRejected) ==> t.frame == [] && !t.ambiguous)
  {
    hide Sane, WriteAll, ParseResponse;
    if s.notes == [] {
      ReadOneBudget(w, s);
    }
  }

  /** Dispatching after that would write an empty frame, and count the turn as sent. */
  lemma StaleDispatchSendsNothing(w: World, s: State, id: nat)
    requires Sane(w) && s.stdout <= MAX_STDOUT && s.pending == [] && !s.ambiguous
    requires Receive(w, s).1 == Ok(ServerRequestRejected)
    ensures var t := Receive(w, s).0;
            var (u, outcome) := Dispatch(w, t, id);
            && u.wire == t.wire + [Attempt(Some(id), [], 0, outcome)]
            && (outcome.Ok? ==> u.pending == [Pending(id, TurnStart, None)] && !u.ambiguous)
  {
    hide Sane, Receive;
    RejectionWipesFrame(w, s);
  }

  // ----- what one read can change -----

  predicate IsReplyTo(read: Read, id: nat) {
    && read.Line? && read.content.Ok?
    && (read.content.value.Response? || read.content.value.NativeError?) && read.content.value.id == id
  }

  /** Only a reply to the pending request clears the latch or the request; with nothing
      pending a latched transport writes nothing. */
  ghost predicate ReadLaw(w: World, s: State, t: State) {
    && t.nextId == s.nextId && WireKept(s, t, None)
    && (s.initialized ==> t.initialized)
    && (t.pending == s.pending
        || (s.pending != [] && t.pending == s.pending[1..] && IsReplyTo(w.peer(s.pos), s.pending[0].id)))
    && (s.ambiguous && !t.ambiguous ==> s.pending != [] && IsReplyTo(w.peer(s.pos), s.pending[0].id))
    && (s.ambiguous && s.pending == [] ==> t.wire == s.wire && t.frame == s.frame)
  }

  lemma ReadOneLaw(w: World, s: State)
    ensures var (t, r) := ReadOne(w, s);
            ReadLaw(w, s, t) && (r == Ok(None) ==> t.ambiguous == s.ambiguous)
  {
    var read := w.peer(s.pos);
    if read.Line? && read.content.Ok? && s.stdout + read.length <= MAX_STDOUT {
      var s2 := s.(pos := s.pos + 1, stdout := s.stdout + read.length);
      assert ReadOne(w, s) == HandleInbound(w, s2, read.content.value);
      hide ReadOne;
      HandleLaw(w, s2, read.content.value, s);
    }
    hide SoundAttempt, HandleInbound;
  }

  lemma HandleLaw(w: World, s2: State, inbound: Inbound, s: State)
    requires s2 == s.(pos := s2.pos, stdout := s2.stdout)
    requires w.peer(s.pos).Line? && w.peer(s.pos).content == Ok(inbound)
    ensures var (t, r) := HandleInbound(w, s2, inbound);
            ReadLaw(w, s, t) && (r == Ok(None) ==> t.ambiguous == s.ambiguous)
  {
    match inbound
    case Response(_, _) => SendWrites(w, s2.(ambiguous := false), InitializedNote, None);
    case ServerRequest(requestId) => SendWrites(w, s2, Refusal(requestId), None);
    case _ =>
    hide Send, ParseResponse, SoundAttempt;
  }

  // ----- sessions -----

  ghost predicate GoodState(s: State) {
    && |s.pending| <= 1 && |s.notes| <= MAX_QUEUE && |s.notes| <= s.stdout <= MAX_STDOUT
    && 2 <= s.nextId <= MAX_U64
    && (s.pending != [] ==> s.pending[0].id < s.nextId)
    && GoodWire(s.wire, s.nextId)
  }

  lemma ReadOneGood(w: World, s: State)
    requires Sane(w) && GoodState(s)
    ensures GoodState(ReadOne(w, s).0)
    ensures forall id: nat :: Framed(ReadOne(w, s).0.wire, id) ==> Framed(s.wire, id)
  {
    hide ReadOne, Sane, GoodWire, Framed, WireKept;
    ReadOneBudget(w, s);
    ReadOneLaw(w, s);
    WireKeptIsGood(s, ReadOne(w, s).0, None, s.nextId, s.nextId);
  }

  /** The law of a whole receive: `ReadLaw` with the reply as its last read. */
  ghost predicate ReceiveLaw(w: World, s: State, t: State) {
    && t.nextId == s.nextId && s.pos <= t.pos && s.wire <= t.wire
    && (s.initialized ==> t.initialized)
    && (t.pending == s.pending
        || (s.pending != [] && t.pending == s.pending[1..] && s.pos < t.pos
            && IsReplyTo(w.peer(t.pos - 1), s.pending[0].id)))
    && (s.ambiguous && !t.ambiguous ==>
          s.pending != [] && s.pos < t.pos && IsReplyTo(w.peer(t.pos - 1), s.pending[0].id))
    && (s.ambiguous && s.pending == [] ==> t.wire == s.wire && t.frame == s.frame)
    && (forall id: nat :: Framed(t.wire, id) ==> Framed(s.wire, id))
  }

  lemma {:induction false} ReadLoopLaw(w: World, s: State)
    requires Sane(w) && GoodState(s)
    ensures var t := ReadLoop(w, s).0;
            GoodState(t) && ReceiveLaw(w, s, t) && s.pos < t.pos
    decreases MAX_STDOUT - s.stdout
  {
    hide ReadOne, Sane, GoodWire, Framed, IsReplyTo, SoundAttempt;
    ReadOneBudget(w, s);
    ReadOneLaw(w, s);
    ReadOneGood(w, s);
    var (t, r) := ReadOne(w, s);
    assert s.wire <= t.wire;
    hide WireKept;
    if r == Ok(None) {
      ReadLoopLaw(w, t);
    }
  }

  lemma ReceiveObeys(w: World, s: State)
    requires Sane(w) && GoodState(s)
    ensures var t := Receive(w, s).0;
            GoodState(t) && ReceiveLaw(w, s, t)
  {
    hide ReadLoop, Framed, GoodWire;
    ReadLoopLaw(w, s);
  }

  /** At most one request is pending; a permit's id was never framed; while a permit is
      intact the latch is clear and the buffer holds exactly the frame that was prepared. */
  ghost predicate Flight(w: World, l: Session) {
    && GoodState(l.state)
    && (l.permit.Some? ==>
          && 2 <= l.permit.value.id < l.state.nextId && !Framed(l.state.wire, l.permit.value.id)
          && l.state.pending == []
          && (l.intact ==>
                && !l.state.ambiguous
                && var permit := l.permit.value;
                   w.encode(Turn(permit.id, permit.thread, permit.input)) == Fits(l.state.frame)))
  }

  lemma FreshId(s: State)
    requires GoodState(s)
    ensures !Framed(s.wire, s.nextId)
  {
  }

  lemma AskKeeps(w: World, s: State, kind: RequestKind, params: string, about: Option<string>)
    requires GoodState(s)
    ensures GoodState(SendRequest(w, s, kind, params, about).0)
    ensures s.ambiguous ==> SendRequest(w, s, kind, params, about).0 == s
  {
    if Admissible(s).Ok? {
      var s1 := s.(nextId := s.nextId + 1);
      FreshId(s);
      SendWrites(w, s1, Request(s.nextId, kind, params), Some(s.nextId));
      var t := Send(w, s1, Request(s.nextId, kind, params), Some(s.nextId)).0;
      hide Send, WireKept, Framed, GoodWire;
      WireKeptIsGood(s1, t, Some(s.nextId), s.nextId, s.nextId + 1);
      LimitGrows(s.wire, s.nextId);
    }
  }

  lemma LimitGrows(wire: seq<Attempt>, limit: nat)
    requires GoodWire(wire, limit)
    ensures GoodWire(wire, limit + 1)
  {
    hide SoundAttempt;
  }

  lemma PrepareKeeps(w: World, l: Session, thread: string, input: string)
    requires Flight(w, l) && l.permit.None?
    ensures Flight(w, Do(w, l, Prepare(thread, input)))
    ensures l.state.ambiguous ==> Do(w, l, Prepare(thread, input)).state == l.state
  {
    FreshId(l.state);
    LimitGrows(l.state.wire, l.state.nextId);
    hide GoodWire, Framed;
  }

  /** Using a permit writes the buffer under its id; while it is intact, that is exactly the
      frame prepared for it. */
  lemma CommitKeeps(w: World, l: Session)
    requires Flight(w, l) && l.permit.Some?
    ensures Flight(w, Do(w, l, Commit))
    ensures var t := Do(w, l, Commit).state;
            var id := l.permit.value.id;
            && |t.wire| == |l.state.wire| + 1 && t.wire[..|l.state.wire|] == l.state.wire
            && t.wire[|l.state.wire|].request == Some(id) && t.wire[|l.state.wire|].frame == l.state.frame
            && (l.intact ==> w.encode(Turn(id, l.permit.value.thread, l.permit.value.input)) == Fits(l.state.frame))
  {
    var s := l.state;
    var id := l.permit.value.id;
    OfferWrites(w, s, s.frame, Some(id));
    var t := Offer(w, s, s.frame, Some(id)).0;
    assert WireKept(s, t, Some(id));
    WireKeptIsGood(s, t, Some(id), s.nextId, s.nextId);
    hide Offer, WireKept, Framed, GoodWire, SoundAttempt;
  }

  lemma TakeKeeps(w: World, l: Session)
    requires Sane(w) && Flight(w, l)
    ensures Flight(w, Do(w, l, Take))
  {
    hide GoodWire, Framed, Receive, Answered, Sane, Rejects;
    ReceiveObeys(w, l.state);
    if l.permit.Some? && l.intact {
      RejectionWipesFrame(w, l.state);
    }
  }

  lemma StepFlight(w: World, l: Session, op: Op)
    requires Sane(w) && Flight(w, l)
    ensures Flight(w, Do(w, l, op))
  {
    hide GoodWire, Framed, Receive, Sane, SendRequest, PrepareTurn, Dispatch, GoodState;
    match op
    case Ask(kind, params, about) =>
      AskKeeps(w, l.state, kind, params, about);
    case Prepare(thread, input) =>
      if l.permit.None? { PrepareKeeps(w, l, thread, input); }
    case Abandon => DiscardKeeps(l.state);
    case Commit =>
      if l.permit.Some? { CommitKeeps(w, l); }
    case Take => TakeKeeps(w, l);
  }

  lemma DiscardKeeps(s: State)
    requires GoodState(s)
    ensures GoodState(Discard(s))
  {
  }

  lemma StartFlight(w: World)
    ensures Flight(w, Start(w))
  {
    SendWrites(w, NEW, InitializeRequest, Some(1));
    hide Send;
  }

  /** Main result: over every session at most one request is pending, its id was handed out
      before, no request id is framed twice, and an intact permit is backed by its frame. */
  lemma {:induction false} SingleFlight(w: World, ops: seq<Op>)
    requires Sane(w)
    ensures Flight(w, Run(w, Start(w), ops))
    decreases |ops|
  {
    hide Flight, Do, Sane;
    if ops == [] {
      StartFlight(w);
    } else {
      SingleFlight(w, ops[..|ops| - 1]);
      StepFlight(w, Run(w, Start(w), ops[..|ops| - 1]), ops[|ops| - 1]);
    }
  }

  // ----- the latch -----

  /** The state in which a receive makes its last read. */
  ghost function BeforeLast(w: World, s: State): State
    requires Sane(w) && s.stdout <= MAX_STDOUT
    decreases MAX_STDOUT - s.stdout
  {
    ReadOneBudget(w, s);
    var (t, r) := ReadOne(w, s);
    if r == Ok(None) then BeforeLast(w, t) else s
  }

  /** The next line is a reply that settles the pending request: a native error for it, or a
      response of the shape it expects; the handshake also has its own note to write. */
  predicate Settles(w: World, s: State) {
    var read := w.peer(s.pos);
    && s.pending != [] && IsReplyTo(read, s.pending[0].id) && s.stdout + read.length <= MAX_STDOUT
    && (read.content.value.Response? ==>
          && ParseResponse(read.content.value.body, s.pending[0]).Ok?
          && (s.pending[0].kind == Initialize ==>
                !Send(w, s.(pos := s.pos + 1, stdout := s.stdout + read.length, ambiguous := false),
                      InitializedNote, None).0.ambiguous))
  }

  lemma ReadOneClears(w: World, s: State)
    requires s.ambiguous
    ensures !ReadOne(w, s).0.ambiguous <==> Settles(w, s)
  {
    var read := w.peer(s.pos);
    if read.Line? && read.content.Ok? && read.content.value.ServerRequest? {
      SendWrites(w, s.(pos := s.pos + 1, stdout := s.stdout + read.length),
                 Refusal(read.content.value.requestId), None);
    }
    if s.pending != [] && read.Line? && read.content.Ok? && read.content.value.Response? {
      OnlyHandshake(read.content.value.body, s.pending[0]);
    }
    hide Send, ParseResponse;
  }

  lemma OnlyHandshake(body: ResultJson, pending: Pending)
    ensures ParseResponse(body, pending).Ok? ==>
              (ParseResponse(body, pending).value.Initialized? <==> pending.kind == Initialize)
  {
    hide ParseThreadState, NativeRef;
  }

  lemma {:induction false} LoopClears(w: World, s: State)
    requires Sane(w) && s.stdout <= MAX_STDOUT && s.ambiguous
    ensures var last := BeforeLast(w, s);
            && last.ambiguous && last.pending == s.pending && s.pos <= last.pos
            && ReadLoop(w, s).0 == ReadOne(w, last).0
            && (!ReadLoop(w, s).0.ambiguous <==> Settles(w, last))
    decreases MAX_STDOUT - s.stdout
  {
    hide ReadOne, Sane, Settles, SoundAttempt;
    ReadOneBudget(w, s);
    ReadOneLaw(w, s);
    ReadOneClears(w, s);
    var (t, r) := ReadOne(w, s);
    if r == Ok(None) {
      LoopClears(w, t);
    }
  }

  /** A permit used when the pipe takes all of the buffer, whatever it holds. */
  predicate Overwrites(w: World, l: Session) {
    l.permit.Some? && WriteAll(l.state.frame, w.pipe(|l.state.wire|), false).1.Ok?
  }

  /** Main result: a step clears the latch exactly when it is a receive whose last read
      settles the pending request, or a permit used although latched whose write succeeds:
      dispatching sets the latch by its own outcome, without looking at it. */
  lemma LatchClears(w: World, l: Session, op: Op)
    requires Sane(w) && Flight(w, l) && l.state.ambiguous
    ensures !Do(w, l, op).state.ambiguous <==>
              || (op.Take? && l.state.pending != [] && Settles(w, BeforeLast(w, l.state)))
              || (op.Commit? && Overwrites(w, l))
  {
    hide GoodWire, Framed, Sane, Settles, BeforeLast, ReadLoop, WriteAll;
    match op
    case Ask(kind, params, about) => AskKeeps(w, l.state, kind, params, about);
    case Take =>
      if l.state.pending == [] {
        ReceiveObeys(w, l.state);
      } else {
        LoopClears(w, l.state);
      }
    case _ =>
  }

  /** Only a permit that is not intact can be used while latched. */
  lemma LatchedPermitIsStale(w: World, l: Session)
    requires Flight(w, l) && l.state.ambiguous && l.permit.Some?
    ensures !l.intact && l.state.pending == []
  {
  }

  ghost predicate Latched(l: Session) {
    l.state.ambiguous && l.state.pending == []
  }

  /** The operations use a permit that was out before them. */
  ghost predicate UsesPermit(ops: seq<Op>) {
    exists i :: 0 <= i < |ops| && ops[i].Commit? && Abandon !in ops[..i]
  }

  lemma UsesOneMore(ops: seq<Op>, op: Op)
    ensures UsesPermit(ops + [op]) <==> UsesPermit(ops) || (op.Commit? && Abandon !in ops)
  {
    var longer := ops + [op];
    if UsesPermit(ops) {
      var i :| 0 <= i < |ops| && ops[i].Commit? && Abandon !in ops[..i];
      assert longer[i] == ops[i] && longer[..i] == ops[..i];
    }
    assert longer[..|ops|] == ops && longer[|ops|] == op;
    if UsesPermit(longer) {
      var i :| 0 <= i < |longer| && longer[i].Commit? && Abandon !in longer[..i];
      if i < |ops| {
        assert ops[i] == longer[i] && ops[..i] == longer[..i];
      }
    }
  }

  lemma WireGrows(w: World, l: Session, op: Op)
    requires Sane(w) && Flight(w, l)
    ensures |l.state.wire| <= |Do(w, l, op).state.wire|
  {
    hide GoodWire, Framed, Receive, Sane, IsReplyTo, WriteAll;
    match op
    case Ask(kind, params, about) =>
      var id := l.state.nextId;
      SendWrites(w, l.state.(nextId := id + 1), Request(id, kind, params), Some(id));
      hide Send;
    case Take => ReceiveObeys(w, l.state);
    case _ =>
  }

  lemma LatchedStep(w: World, l: Session, op: Op)
    requires Sane(w) && Flight(w, l) && Latched(l)
    ensures var m := Do(w, l, op);
            if op.Commit? && l.permit.Some? then |m.state.wire| > |l.state.wire|
            else Latched(m) && m.state.wire == l.state.wire && m.permit == if op.Abandon? then None else l.permit
  {
    hide GoodWire, Framed, Receive, Sane, IsReplyTo, WriteAll;
    match op
    case Ask(kind, params, about) => AskKeeps(w, l.state, kind, params, about);
    case Take => ReceiveObeys(w, l.state);
    case _ =>
  }

  /** Main result: once latched with nothing pending, nothing is written ever again, exactly
      unless a permit that was already out is used. */
  lemma {:induction false} LatchIsAbsorbing(w: World, l: Session, ops: seq<Op>)
    requires Sane(w) && Flight(w, l) && Latched(l)
    ensures var m := Run(w, l, ops);
            && Flight(w, m)
            && if l.permit.Some? && UsesPermit(ops) then |m.state.wire| > |l.state.wire|
               else Latched(m) && m.state.wire == l.state.wire
                    && m.permit == if Abandon in ops then None else l.permit
    decreases |ops|
  {
    hide Flight, Do, Sane, Latched;
    if ops != [] {
      hide UsesPermit;
      var n := |ops| - 1;
      var mid := Run(w, l, ops[..n]);
      assert ops == ops[..n] + [ops[n]];
      LatchIsAbsorbing(w, l, ops[..n]);
      StepFlight(w, mid, ops[n]);
      UsesOneMore(ops[..n], ops[n]);
      if l.permit.Some? && UsesPermit(ops[..n]) {
        WireGrows(w, mid, ops[n]);
      } else {
        LatchedStep(w, mid, ops[n]);
      }
    }
  }

  // ----- a latch overwritten -----

  /** A request of the server whose refusal the pipe takes in part; then the pipe is free. */
  const STUCK_WORLD := World(
    i => if i == 0 then Line(10, Ok(ServerRequest("1"))) else Read.Failed(Deadline, 0),
    k => if k == 0 then [Done(1), Broken] else [Done(1)],
    (o: Outbound) => if o.Refusal? then Fits([1, 2]) else Fits([10]))

  const STUCK_SESSION := Session(NEW.(initialized := true), None, true, [], map[])

  /** The session after its turn was prepared, and after the refusal was cut short. */
  const PREPARED_SESSION :=
    STUCK_SESSION.(state := NEW.(initialized := true, frame := [10], nextId := 3),
                   permit := Some(Permit(2, "th", "go")))

  const CUT_ATTEMPT := Attempt(None, [1, 2], 1, Err(WriteFailure(Closed, PossiblyWritten)))

  const LATCHED_STATE :=
    NEW.(initialized := true, nextId := 3, pos := 1, stdout := 10, wire := [CUT_ATTEMPT], ambiguous := true)

  lemma CutRefusal()
    ensures Sane(STUCK_WORLD) && Receive(STUCK_WORLD, PREPARED_SESSION.state) == (LATCHED_STATE, Err(Ambiguous))
  {
    var w := STUCK_WORLD;
    var frame: Bytes := [1, 2];
    assert w.pipe(0)[1..] == [Broken] && frame[1..] == [2];
    assert WriteAll(frame[1..], [Broken], true) == (0, CUT_ATTEMPT.outcome);
    assert WriteAll(frame, w.pipe(0), false) == (1, CUT_ATTEMPT.outcome);
    assert [] + [CUT_ATTEMPT] == [CUT_ATTEMPT];
    assert ReadOne(w, PREPARED_SESSION.state) == (LATCHED_STATE, Err(Ambiguous));
  }

  lemma StaleDispatch()
    ensures var (t, outcome) := Dispatch(STUCK_WORLD, LATCHED_STATE, 2);
            outcome.Ok? && !t.ambiguous && t.pending == [Pending(2, TurnStart, None)] && |t.wire| == 2 && t.pos == 1
  {
    assert Flush(STUCK_WORLD.pipe(1)) == Ok(());
    assert LATCHED_STATE.frame == [] && LATCHED_STATE.pending == [];
  }

  lemma RunOfTwo(w: World, l: Session, first: Op, second: Op)
    ensures Run(w, l, [first, second]) == Do(w, Do(w, l, first), second)
  {
    hide Do;
    var ops := [first, second];
    assert ops[..1] == [first] && ops[..1][..0] == [];
    assert Run(w, l, ops[..1]) == Do(w, Run(w, l, []), first);
  }

  /** Prepared, then latched by a refusal that may have been written, then dispatched: the
      latch is clear and a turn pending, though no reply was ever read. */
  lemma LatchOverwritten()
    ensures Sane(STUCK_WORLD) && Flight(STUCK_WORLD, STUCK_SESSION)
    ensures var l := Run(STUCK_WORLD, STUCK_SESSION, [Prepare("th", "go"), Take]);
            var m := Do(STUCK_WORLD, l, Commit);
            && Latched(l) && l.permit.Some? && |l.state.wire| == 1
            && !m.state.ambiguous && m.state.pending == [Pending(2, TurnStart, None)] && |m.state.wire| == 2
            && m.state.pos == 1
  {
    var w := STUCK_WORLD;
    CutRefusal();
    StaleDispatch();
    RunOfTwo(w, STUCK_SESSION, Prepare("th", "go"), Take);
    hide Sane, Receive, Dispatch, Rejects, Run;
    assert Do(w, STUCK_SESSION, Prepare("th", "go")) == PREPARED_SESSION;
    var l := Do(w, PREPARED_SESSION, Take);
    assert l.state == LATCHED_STATE && l.permit == Some(Permit(2, "th", "go"));
  }

  // ----- notifications over a session -----

  /** The notifications among the reads from `at` to `end` that were not refused, in order. */
  function Kept(w: World, at: nat, end: nat, refused: set<nat>): seq<Notification>
    decreases end
  {
    if end <= at then []
    else
      Kept(w, at, end - 1, refused)
      + if end - 1 !in refused && IsNote(w.peer(end - 1)) then [w.peer(end - 1).content.value.notification] else []
  }

  ghost predicate Below(refused: set<nat>, limit: nat) {
    forall r | r in refused :: r < limit
  }

  lemma {:induction false} KeptExtends(w: World, at: nat, mid: nat, end: nat, before: set<nat>, refused: set<nat>)
    requires at <= mid <= end && Below(before, mid)
    requires forall r | r in refused :: r in before || r >= mid
    requires before <= refused
    ensures Kept(w, at, end, refused) == Kept(w, at, mid, before) + Kept(w, mid, end, refused)
    decreases end
  {
    hide IsNote;
    if mid < end {
      KeptExtends(w, at, mid, end - 1, before, refused);
    } else {
      SameBelow(w, at, end, before, refused);
    }
  }

  lemma {:induction false} SameBelow(w: World, at: nat, end: nat, before: set<nat>, refused: set<nat>)
    requires before <= refused && forall r | r in refused && r !in before :: r >= end
    ensures Kept(w, at, end, refused) == Kept(w, at, end, before)
    decreases end
  {
    if at < end {
      SameBelow(w, at, end - 1, before, refused);
    }
  }

  lemma {:induction false} KeptIsArrived(w: World, at: nat, end: nat, refused: set<nat>)
    requires forall r | r in refused :: r < at || r >= end
    ensures Kept(w, at, end, refused) == Arrived(w, at, end)
    decreases end
  {
    if at < end {
      KeptIsArrived(w, at, end - 1, refused);
    }
  }

  /** A notification was refused only for a full queue or for exceeding the output limit. */
  predicate Justified(w: World, at: nat, reason: Reason) {
    && IsNote(w.peer(at))
    && (|| (reason.error == Degraded && reason.queued == MAX_QUEUE)
        || (reason.error == Bounds && reason.read + w.peer(at).length > MAX_STDOUT))
  }

  /** The refusals of `m` are those of `l` and justified later ones. */
  ghost predicate RefusesMore(w: World, l: Session, m: Session) {
    && l.state.pos <= m.state.pos && Below(m.refused.Keys, m.state.pos)
    && (forall r | r in l.refused :: r in m.refused && m.refused[r] == l.refused[r])
    && (forall r: nat | r in m.refused && r !in l.refused :: r >= l.state.pos && Justified(w, r, m.refused[r]))
  }

  /** A receive keeps the count: everything that arrived is handed on, queued, or refused. */
  lemma TakeIsFifo(w: World, l: Session)
    requires Sane(w) && l.state.stdout <= MAX_STDOUT && l.state.initialized && Below(l.refused.Keys, l.state.pos)
    ensures var m := Taken(w, l);
            && m.state.initialized && RefusesMore(w, l, m)
            && m.out + m.state.notes == l.out + l.state.notes + Kept(w, l.state.pos, m.state.pos, m.refused.Keys)
  {
    hide Receive, Sane, Arrived, Rejects;
    ReceiveIsFifo(w, l.state);
    var (t, r) := Receive(w, l.state);
    var m := Taken(w, l);
    var at := l.state.pos;
    hide IsNote;
    if t.pos == at {
    } else if Answered(w, t, r) == t.pos {
      KeptIsArrived(w, at, t.pos, m.refused.Keys);
    } else {
      KeptIsArrived(w, at, t.pos - 1, m.refused.Keys);
      assert t.pos - 1 in m.refused;
      assert Kept(w, at, t.pos, m.refused.Keys) == Kept(w, at, t.pos - 1, m.refused.Keys) + [];
    }
    assert l.out + (Out(r) + t.notes) == m.out + t.notes;
  }

  lemma OtherKeepsNotes(w: World, l: Session, op: Op)
    requires !op.Take?
    ensures var m := Do(w, l, op);
            && m.out == l.out && m.refused == l.refused && m.state.notes == l.state.notes
            && m.state.pos == l.state.pos && m.state.initialized == l.state.initialized
  {
    if op.Ask? {
      var id := l.state.nextId;
      SendKeepsRest(w, l.state.(nextId := id + 1), Request(id, op.kind, op.params), Some(id));
    }
    hide Send, WriteAll;
  }

  /** Main result: over any session after the handshake, however requests and responses
      interleave, the notifications handed on, then those queued, are exactly those that
      arrived, in order, but for the ones answered with `Degraded` on a full queue or with
      `Bounds` over the output limit. */
  lemma {:induction false} NotificationsAreFifo(w: World, l: Session, ops: seq<Op>)
    requires Sane(w) && Flight(w, l) && l.state.initialized && Below(l.refused.Keys, l.state.pos)
    ensures var m := Run(w, l, ops);
            && Flight(w, m) && m.state.initialized && |m.state.notes| <= MAX_QUEUE && RefusesMore(w, l, m)
            && m.out + m.state.notes == l.out + l.state.notes + Kept(w, l.state.pos, m.state.pos, m.refused.Keys)
    decreases |ops|
  {
    hide Sane, Justified, GoodWire, Framed, Kept, Do;
    if ops == [] {
      EmptyKept(w, l.state.pos, l.refused.Keys);
    } else {
      var op := ops[|ops| - 1];
      var mid := Run(w, l, ops[..|ops| - 1]);
      NotificationsAreFifo(w, l, ops[..|ops| - 1]);
      StepFlight(w, mid, op);
      hide RefusesMore;
      SessionStep(w, l, mid, op);
    }
  }

  lemma EmptyKept(w: World, at: nat, refused: set<nat>)
    ensures Kept(w, at, at, refused) == []
  {
  }

  lemma SessionStep(w: World, l: Session, mid: Session, op: Op)
    requires Sane(w) && mid.state.stdout <= MAX_STDOUT && mid.state.initialized && RefusesMore(w, l, mid)
    requires mid.out + mid.state.notes
             == l.out + l.state.notes + Kept(w, l.state.pos, mid.state.pos, mid.refused.Keys)
    ensures var m := Do(w, mid, op);
            && m.state.initialized && RefusesMore(w, l, m)
            && m.out + m.state.notes == l.out + l.state.notes + Kept(w, l.state.pos, m.state.pos, m.refused.Keys)
  {
    hide Kept, Justified;
    if op.Take? {
      var m := Taken(w, mid);
      TakeIsFifo(w, mid);
      hide Taken, Sane;
      KeptExtends(w, l.state.pos, mid.state.pos, m.state.pos, mid.refused.Keys, m.refused.Keys);
    } else {
      OtherKeepsNotes(w, mid, op);
      hide Do;
    }
  }
}
