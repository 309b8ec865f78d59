/**
 The bounded stdio transport to one app-server process.

 `State` is the value of a `TransportState` with what its two pipes have seen: `pos`
 counts the reads made, `wire` the frames whose writing was begun. The process is a
 `World`: an endless stream of whole-line reads, what the pipe does with each frame, and
 how a message is encoded. A read that fails is one event of the stream, whatever the
 deadline was; what it took of a line is lost, as the line buffer is cleared on entry.
 */
module Transport {
  import opened Prelude
  import Sanitize

  const MAX_STDOUT: nat := 0x10_0000
  const MAX_QUEUE: nat := 64
  const MAX_NATIVE_REF: nat := 1024

  newtype Byte = x: int | 0 <= x < 256
  type Bytes = seq<Byte>

  datatype Error =
    | Bounds | Malformed | Correlation | Ambiguous | Deadline | Closed | Preflight | Unsupported
    | Native | Degraded

  datatype TerminalClass = Succeeded | Interrupted | Failed

  datatype Notification =
    | Signal
    | TurnBegan(thread: string, turn: string)
    | TurnEnded(thread: string, turn: string, outcome: TerminalClass)
    | TurnUnclear(thread: string, turn: string)

  // ----- decoded responses -----

  datatype TurnJson = TurnJson(id: Option<string>, status: Option<string>)

  datatype StatusJson = StatusJson(kind: string, activeFlags: Option<seq<string>>)

  datatype ThreadJson = ThreadJson(id: string, status: Option<StatusJson>, turns: Option<seq<TurnJson>>)

  /** A response's result, read in each of the three shapes a request can expect. */
  datatype ResultJson = ResultJson(threadRef: Option<string>, threadState: Option<ThreadJson>, turnRef: Option<string>)

  datatype Inbound =
    | Response(id: nat, body: ResultJson)
    | NativeError(id: nat)
    | Note(notification: Notification)
    | ServerRequest(requestId: string)

  /** One read: a whole line with its length and class, or a failure with what it took of a
      line, which is lost. */
  datatype Read =
    | Line(length: nat, content: Result<Inbound, Error>)
    | Failed(error: Error, taken: nat)

  // ----- writes -----

  datatype WriteEvent = Done(count: nat) | Blocked(expired: bool) | Broken

  datatype Receipt = ProvenNotWritten | PossiblyWritten | Written

  datatype WriteFailure = WriteFailure(error: Error, receipt: Receipt)

  datatype RequestKind = Initialize | ThreadStart | ThreadResume | ThreadRead | TurnStart

  datatype Outbound =
    | InitializeRequest
    | InitializedNote
    | Request(id: nat, kind: RequestKind, params: string)
    | Turn(id: nat, thread: string, input: string)
    | Refusal(requestId: string)

  /** A message as a frame, or the part of it that fitted the frame limit. */
  datatype Encoded = Fits(bytes: Bytes) | TooLong(partial: Bytes)

  datatype World = World(peer: nat -> Read, pipe: nat -> seq<WriteEvent>, encode: Outbound -> Encoded)

  /** Lines hold at least their line feed, and so do frames; lines that cannot be classified
      and reads that fail do so for the reasons those functions give. */
  ghost predicate Sane(w: World) {
    && (forall i: nat :: w.peer(i).Line? ==>
          && w.peer(i).length >= 1
          && (w.peer(i).content.Err? ==> w.peer(i).content.error in {Malformed, Bounds}))
    && (forall i: nat :: w.peer(i).Failed? ==> w.peer(i).error in {Closed, Malformed, Bounds, Deadline})
    && (forall o: Outbound :: w.encode(o).Fits? ==> w.encode(o).bytes != [])
  }

  /** One begun frame: the request it carries, how many bytes the pipe took, the outcome. */
  datatype Attempt = Attempt(request: Option<nat>, frame: Bytes, accepted: nat, outcome: Result<(), WriteFailure>)

  // ----- the transport -----

  datatype Pending = Pending(id: nat, kind: RequestKind, thread: Option<string>)

  datatype State = State(
    frame: Bytes, stdout: nat, pending: seq<Pending>, notes: seq<Notification>, ambiguous: bool,
    initialized: bool, nextId: nat, pos: nat, wire: seq<Attempt>)

  datatype ThreadState = Idle | ActiveTurn(active: string) | Unproven

  datatype Received =
    | Initialized
    | ThreadStarted(thread: string)
    | ThreadResumed(state: ThreadState)
    | ThreadReported(state: ThreadState)
    | TurnStarted(turn: string)
    | Notified(notification: Notification)
    | ServerRequestRejected

  const NEW := State([], 0, [], [], false, false, 2, 0, [])

  // ----- parsing -----

  /** `NativeRef::parse_borrowed`. */
  function NativeRef(s: string): Result<string, Error> {
    if s != "" && Sanitize.Bytes(s) <= MAX_NATIVE_REF then Ok(s) else Err(Bounds)
  }

  predicate IsDone(status: Option<string>) {
    status == Some("completed") || status == Some("interrupted") || status == Some("failed")
  }

  predicate HasRef(turn: TurnJson) {
    turn.id.Some? && NativeRef(turn.id.value).Ok?
  }

  /** `parse_idle_thread`. */
  function IdleThread(thread: ThreadJson): ThreadState {
    if thread.turns.None? then Unproven
    else if |thread.turns.value| > MAX_QUEUE then Unproven
    else if exists i :: 0 <= i < |thread.turns.value|
                        && (!HasRef(thread.turns.value[i]) || !IsDone(thread.turns.value[i].status)) then Unproven
    else Idle
  }

  /** The single turn in progress among `turns`, given the one found before them. */
  function ActiveAmong(turns: seq<TurnJson>, found: Option<string>): Option<string> {
    if turns == [] then found
    else if !HasRef(turns[0]) then None
    else if IsDone(turns[0].status) then ActiveAmong(turns[1..], found)
    else if turns[0].status == Some("inProgress") && found.None? then ActiveAmong(turns[1..], turns[0].id)
    else None
  }

  /** `parse_active_thread`. */
  function ActiveThread(thread: ThreadJson, flags: seq<string>): Option<string> {
    if exists i :: 0 <= i < |flags| && flags[i] != "waitingOnApproval" && flags[i] != "waitingOnUserInput" then None
    else if thread.turns.None? then None
    else if |thread.turns.value| > MAX_QUEUE then None
    else ActiveAmong(thread.turns.value, None)
  }

  /** `parse_thread_state_raw`; the proof prehash is represented by the active turn. */
  function ParseThreadState(body: ResultJson, requested: string): Result<ThreadState, Error> {
    if body.threadState.None? then Err(Malformed)
    else
      var thread := body.threadState.value;
      if NativeRef(thread.id).Err? then Err(Bounds)
      else if thread.id != requested then Err(Correlation)
      else if thread.status.None? then Ok(Unproven)
      else if thread.status.value.kind == "idle" then Ok(IdleThread(thread))
      else if thread.status.value.kind == "active" then
        if thread.status.value.activeFlags.None? then Ok(Unproven)
        else
          match ActiveThread(thread, thread.status.value.activeFlags.value)
          case Some(turn) => Ok(ActiveTurn(turn))
          case None => Ok(Unproven)
      else Ok(Unproven)
  }

  /** `parse_response`. */
  function ParseResponse(body: ResultJson, pending: Pending): Result<Received, Error> {
    match pending.kind
    case Initialize => Ok(Initialized)
    case ThreadStart =>
      if body.threadRef.None? then Err(Malformed)
      else if NativeRef(body.threadRef.value).Err? then Err(Bounds)
      else Ok(ThreadStarted(body.threadRef.value))
    case TurnStart =>
      if body.turnRef.None? then Err(Malformed)
      else if NativeRef(body.turnRef.value).Err? then Err(Bounds)
      else Ok(TurnStarted(body.turnRef.value))
    case _ =>
      if pending.thread.None? then Err(Correlation)
      else
        match ParseThreadState(body, pending.thread.value)
        case Err(e) => Err(e)
        case Ok(state) => Ok(if pending.kind == ThreadResume then ThreadResumed(state) else ThreadReported(state))
  }

  // ----- writing one frame -----

  function Failure(error: Error, wrote: bool): Result<(), WriteFailure> {
    Err(WriteFailure(error, if wrote then PossiblyWritten else ProvenNotWritten))
  }

  function Flush(events: seq<WriteEvent>): Result<(), WriteFailure> {
    if events == [] then Failure(Deadline, true)
    else
      match events[0]
      case Done(_) => Ok(())
      case Blocked(expired) => if expired then Failure(Deadline, true) else Flush(events[1..])
      case Broken => Failure(Ambiguous, true)
  }

  function AtMost(n: nat, limit: nat): nat {
    if n <= limit then n else limit
  }

  /** `write_all_until`: bytes taken, and the outcome. Running out of events is the deadline. */
  function WriteAll(frame: Bytes, events: seq<WriteEvent>, wrote: bool): (nat, Result<(), WriteFailure>)
    decreases |events|
  {
    if frame == [] then (0, Flush(events))
    else if events == [] then (0, Failure(Deadline, wrote))
    else
      match events[0]
      case Done(n) =>
        if n == 0 then (0, Failure(Ambiguous, wrote))
        else
          var k := AtMost(n, |frame|);
          var (rest, outcome) := WriteAll(frame[k..], events[1..], true);
          (k + rest, outcome)
      case Blocked(expired) =>
        if expired then (0, Failure(Deadline, wrote)) else WriteAll(frame, events[1..], wrote)
      case Broken => (0, Failure(Closed, wrote))
  }

  /** Offer `frame` to the pipe and wipe the buffer. */
  function Offer(w: World, s: State, frame: Bytes, request: Option<nat>): (State, Result<(), WriteFailure>) {
    var (accepted, outcome) := WriteAll(frame, w.pipe(|s.wire|), false);
    (s.(frame := [], wire := s.wire + [Attempt(request, frame, accepted, outcome)]), outcome)
  }

  /** `write`: a message too long for a frame leaves its beginning in the buffer. */
  function Write(w: World, s: State, message: Outbound, request: Option<nat>): (State, Result<(), WriteFailure>) {
    match w.encode(message)
    case TooLong(partial) => (s.(frame := partial), Failure(Bounds, false))
    case Fits(bytes) => Offer(w, s, bytes, request)
  }

  /** `send`. */
  function Send(w: World, s: State, message: Outbound, request: Option<nat>): (State, Result<(), Error>) {
    if s.ambiguous then (s, Err(Ambiguous))
    else
      var (t, outcome) := Write(w, s, message, request);
      match outcome
      case Ok(_) => (t, Ok(()))
      case Err(failure) =>
        if failure.receipt == PossiblyWritten then (t.(ambiguous := true), Err(Ambiguous))
        else (t, Err(failure.error))
  }

  // ----- requests -----

  /** `initialize`. */
  function Handshake(w: World, s: State): (State, Result<(), Error>) {
    if s.ambiguous then (s, Err(Ambiguous))
    else if s.initialized || s.pending != [] then (s, Err(Bounds))
    else
      var (t, sent) := Send(w, s, InitializeRequest, Some(1));
      if sent.Err? then (t, sent) else (t.(pending := t.pending + [Pending(1, Initialize, None)]), sent)
  }

  function Admissible(s: State): Result<(), Error> {
    if s.ambiguous then Err(Ambiguous)
    else if !s.initialized then Err(Preflight)
    else if s.pending != [] then Err(Bounds)
    else if s.nextId >= MAX_U64 then Err(Bounds)
    else Ok(())
  }

  /** `send_request`: the id is spent even when the kind is refused. */
  function SendRequest(w: World, s: State, kind: RequestKind, params: string, thread: Option<string>)
    : (State, Result<(), Error>)
  {
    if Admissible(s).Err? then (s, Admissible(s))
    else
      var id := s.nextId;
      var s1 := s.(nextId := id + 1);
      if kind == Initialize then (s1, Err(Unsupported))
      else
        var (t, sent) := Send(w, s1, Request(id, kind, params), Some(id));
        if sent.Err? then (t, sent) else (t.(pending := t.pending + [Pending(id, kind, thread)]), sent)
  }

  /** `prepare_turn`: encode the frame, to be dispatched later. */
  function PrepareTurn(w: World, s: State, thread: string, input: string): (State, Result<nat, Error>) {
    if Admissible(s).Err? then (s, Err(Admissible(s).error))
    else
      var id := s.nextId;
      match w.encode(Turn(id, thread, input))
      case TooLong(_) => (s.(nextId := id + 1, frame := []), Err(Bounds))
      case Fits(bytes) => (s.(nextId := id + 1, frame := bytes), Ok(id))
  }

  function Discard(s: State): State {
    s.(frame := [])
  }

  /** `dispatch_prepared_turn`: whatever is in the buffer is written. */
  function Dispatch(w: World, s: State, id: nat): (State, Result<(), WriteFailure>) {
    var (t, outcome) := Offer(w, s, s.frame, Some(id));
    if outcome.Ok? || outcome.error.receipt == PossiblyWritten then
      (t.(ambiguous := outcome.Err?, pending := t.pending + [Pending(id, TurnStart, None)]), outcome)
    else (t, outcome)
  }

  // ----- receiving -----

  /** `handle_inbound`; Ok(None) when the caller should go on reading. */
  function HandleInbound(w: World, s: State, inbound: Inbound): (State, Result<Option<Received>, Error>) {
    var wasPending := s.pending != [];
    match inbound
    case Response(id, body) =>
      if !wasPending then (s, Err(Correlation))
      else if s.pending[0].id != id then (s.(ambiguous := true), Err(Correlation))
      else
        var parsed := ParseResponse(body, s.pending[0]);
        if parsed.Err? then (s.(ambiguous := true), Err(parsed.error))
        else
          var s1 := s.(ambiguous := false);
          if parsed.value.Initialized? then
            var (t, sent) := Send(w, s1, InitializedNote, None);
            if sent.Err? then (t, Err(sent.error))
            else (t.(initialized := true, pending := t.pending[1..]), Ok(Some(parsed.value)))
          else (s1.(pending := s1.pending[1..]), Ok(Some(parsed.value)))
    case NativeError(id) =>
      if wasPending && s.pending[0].id == id then
        (s.(ambiguous := false, pending := s.pending[1..]), Err(Native))
      else (s.(ambiguous := s.ambiguous || wasPending), Err(Correlation))
    case Note(notification) =>
      if !s.initialized then (s.(ambiguous := s.ambiguous || wasPending), Err(Correlation))
      else if !wasPending then (s, Ok(Some(Notified(notification))))
      else if |s.notes| == MAX_QUEUE then (s, Err(Degraded))
      else (s.(notes := s.notes + [notification]), Ok(None))
    case ServerRequest(requestId) =>
      var (t, sent) := Send(w, s, Refusal(requestId), None);
      if sent.Err? then (t, Err(sent.error))
      else (t, Ok(if wasPending then None else Some(ServerRequestRejected)))
  }

  /** One read and what it leads to. */
  function ReadOne(w: World, s: State): (State, Result<Option<Received>, Error>) {
    var s1 := s.(pos := s.pos + 1);
    match w.peer(s.pos)
    case Failed(e, _) =>
      if s.pending != [] then (s1.(ambiguous := true), Err(Ambiguous)) else (s1, Err(e))
    case Line(length, content) =>
      if s.stdout + length > MAX_STDOUT then (s1, Err(Bounds))
      else
        var s2 := s1.(stdout := s.stdout + length);
        match content
        case Err(e) => (s2.(ambiguous := s.ambiguous || s.pending != []), Err(e))
        case Ok(inbound) => HandleInbound(w, s2, inbound)
  }

  lemma SendKeepsRest(w: World, s: State, message: Outbound, request: Option<nat>)
    ensures var t := Send(w, s, message, request).0;
            t == s.(frame := t.frame, ambiguous := t.ambiguous, wire := t.wire)
  {
  }

  /** What handling a line never touches, and what going on means. */
  lemma HandleShape(w: World, s: State, inbound: Inbound)
    ensures var (t, r) := HandleInbound(w, s, inbound);
            && t.stdout == s.stdout && t.pos == s.pos && t.nextId == s.nextId
            && (r == Ok(None) ==> t.pending == s.pending && s.pending != [])
            && (t.notes == s.notes || (r == Ok(None) && |s.notes| != MAX_QUEUE && inbound.Note?
                                       && t.notes == s.notes + [inbound.notification]))
  {
    match inbound
    case Response(_, _) =>
      SendKeepsRest(w, s.(ambiguous := false), InitializedNote, None);
      hide Send, ParseResponse;
    case NativeError(_) =>
    case Note(_) =>
    case ServerRequest(requestId) =>
      SendKeepsRest(w, s, Refusal(requestId), None);
      hide Send;
  }

  /** Reading never outruns the output budget, and a line that was read uses some of it. */
  lemma ReadOneBudget(w: World, s: State)
    requires Sane(w) && s.stdout <= MAX_STDOUT
    ensures var (t, r) := ReadOne(w, s);
            && t.pos == s.pos + 1 && s.stdout <= t.stdout <= MAX_STDOUT
            && (r.Ok? ==> s.stdout < t.stdout)
            && (r == Ok(None) ==> t.pending == s.pending && s.pending != [])
            && (t.notes == s.notes || (r == Ok(None) && |s.notes| != MAX_QUEUE && |t.notes| == |s.notes| + 1))
  {
    hide HandleInbound;
    var read := w.peer(s.pos);
    if read.Line? && read.content.Ok? && s.stdout + read.length <= MAX_STDOUT {
      var s2 := s.(pos := s.pos + 1, stdout := s.stdout + read.length);
      assert read.length >= 1;
      assert ReadOne(w, s) == HandleInbound(w, s2, read.content.value);
      hide Sane, ReadOne;
      HandleShape(w, s2, read.content.value);
    }
  }

  /** The read loop of `next_until`. */
  function ReadLoop(w: World, s: State): (State, Result<Received, Error>)
    requires Sane(w) && s.stdout <= MAX_STDOUT
    decreases MAX_STDOUT - s.stdout
  {
    var (t, r) := ReadOne(w, s);
    match r
    case Err(e) => (t, Err(e))
    case Ok(Some(received)) => (t, Ok(received))
    case Ok(None) =>
      ReadOneBudget(w, s);
      ReadLoop(w, t)
  }

  /** `next_until`: a queued notification first, when nothing is pending. */
  function Receive(w: World, s: State): (State, Result<Received, Error>)
    requires Sane(w) && s.stdout <= MAX_STDOUT
  {
    if s.pending == [] && s.notes != [] then (s.(notes := s.notes[1..]), Ok(Notified(s.notes[0])))
    else ReadLoop(w, s)
  }

  /** What is left of the output budget, and of the queue. */
  function Budget(s: State): int {
    MAX_STDOUT - s.stdout + |s.notes|
  }

  lemma {:induction false} ReadLoopBudget(w: World, s: State)
    requires Sane(w) && s.stdout <= MAX_STDOUT
    ensures var (t, r) := ReadLoop(w, s);
            && s.pos < t.pos && s.stdout <= t.stdout <= MAX_STDOUT
            && Budget(t) <= Budget(s) && (r.Ok? ==> Budget(t) < Budget(s))
    decreases MAX_STDOUT - s.stdout
  {
    hide ReadOne, Sane;
    ReadOneBudget(w, s);
    var (t, r) := ReadOne(w, s);
    if r == Ok(None) {
      ReadLoopBudget(w, t);
    }
  }

  /** Main result: against any process, every successful receive uses up budget, so no loop
      that goes on only after one can run forever. */
  lemma ReceiveBudget(w: World, s: State)
    requires Sane(w) && s.stdout <= MAX_STDOUT
    ensures var (t, r) := Receive(w, s);
            && s.stdout <= t.stdout <= MAX_STDOUT && 0 <= Budget(t)
            && Budget(t) <= Budget(s) && (r.Ok? ==> Budget(t) < Budget(s))
  {
    hide ReadLoop;
    ReadLoopBudget(w, s);
  }
}
