/** What the controller lane guarantees, and the one case in which a prepared frame is lost. */
module ControllerProofs {
  import opened Prelude
  import opened Transport
  import opened TransportProofs
  import opened TransportRuns
  import opened Controllers

  // ----- the epoch bound -----

  /** The epoch and the queue together never exceed the output read, so the saturating
      increment never saturates. */
  ghost predicate Bounded(t: State, epoch: nat) {
    epoch + |t.notes| <= t.stdout <= MAX_STDOUT
  }

  lemma ReceiveBounded(w: World, t: State, epoch: nat)
    requires Sane(w) && Bounded(t, epoch)
    ensures var (u, r) := Receive(w, t);
            Bounded(u, epoch) && (r.Ok? ==> Bump(epoch) == epoch + 1 && Bounded(u, epoch + 1))
  {
    hide Receive, Sane;
    ReceiveBudget(w, t);
  }

  lemma {:induction false} DrainBounded(w: World, t: State, epoch: nat)
    requires Sane(w) && Bounded(t, epoch)
    ensures var (u, e, r) := Drain(w, t, epoch);
            epoch <= e && Bounded(u, e)
    decreases Budget(t)
  {
    hide Receive, Sane;
    ReceiveBounded(w, t, epoch);
    ReceiveBudget(w, t);
    var (u, r) := Receive(w, t);
    if r.Ok? { DrainBounded(w, u, epoch + 1); }
  }

  lemma {:induction false} AwaitBounded(w: World, t: State, epoch: nat)
    requires Sane(w) && Bounded(t, epoch)
    ensures var (u, e, r) := AwaitThread(w, t, epoch);
            epoch <= e && Bounded(u, e)
    decreases Budget(t)
  {
    hide Receive, Sane;
    ReceiveBounded(w, t, epoch);
    ReceiveBudget(w, t);
    var (u, r) := Receive(w, t);
    if r.Ok? { AwaitBounded(w, u, epoch + 1); }
  }

  lemma AskBounded(w: World, t: State, epoch: nat, thread: Option<string>, live: bool)
    requires Sane(w) && Bounded(t, epoch)
    ensures var (u, e, r) := AskThread(w, t, epoch, thread, live);
            epoch <= e && Bounded(u, e)
  {
    hide SendRequest, AwaitThread, Sane;
    if thread.Some? && live {
      SendRequestBudget(w, t, ThreadRead, thread.value, thread);
      AwaitBounded(w, SendRequest(w, t, ThreadRead, thread.value, thread).0, epoch);
    }
  }

  lemma ProbeBounded(w: World, c: Value, bound: bool, probeId: Id, thread: Option<string>, live: bool)
    requires Sane(w) && Bounded(c.t, c.epoch)
    ensures var d := ProbeIdle(w, c, bound, probeId, thread, live).0;
            c.epoch <= d.epoch && Bounded(d.t, d.epoch)
  {
    hide Drain, AskThread, Sane;
    DrainBounded(w, c.t, c.epoch);
    var (t1, e1, _) := Drain(w, c.t, c.epoch);
    AskBounded(w, t1, e1, thread, live);
    var (t2, e2, _) := AskThread(w, t1, e1, thread, live);
    DrainBounded(w, t2, e2);
  }

  lemma ReserveBounded(w: World, c: Value, lane: Lane, command: Command, thread: Option<string>, live: bool,
                       bound: bool, leased: bool)
    requires Sane(w) && Bounded(c.t, c.epoch)
    ensures var d := Reserve(w, c, lane, command, thread, live, bound, leased).0;
            c.epoch <= d.epoch && Bounded(d.t, d.epoch)
  {
    hide Drain, Sane;
    if thread.Some? {
      DrainBounded(w, PrepareTurn(w, c.t, thread.value, command.input).0, c.epoch);
    }
  }

  lemma PerformBounded(w: World, c: Value, id: nat, command: Command, seal: string -> Option<Id>)
    requires Sane(w) && Bounded(c.t, c.epoch)
    ensures var d := Perform(w, c, id, command, seal).0;
            d.epoch == c.epoch && Bounded(d.t, d.epoch)
  {
    hide Receive, Sane, WriteAll;
    ReceiveBounded(w, Dispatch(w, c.t, id).0, c.epoch);
  }

  lemma {:induction false} PollBounded(w: World, c: Value, turnRef: Id, thread: string, turn: string)
    requires Sane(w) && Bounded(c.t, c.epoch)
    ensures var d := PollLoop(w, c, turnRef, thread, turn).0;
            c.epoch <= d.epoch && Bounded(d.t, d.epoch)
    decreases Budget(c.t)
  {
    hide Receive, Sane;
    ReceiveBounded(w, c.t, c.epoch);
    ReceiveBudget(w, c.t);
    var (t, r) := Receive(w, c.t);
    if r.Ok? && r.value.Notified? {
      var (d, observed) := Observe(c.(t := t, epoch := Bump(c.epoch)), r.value.notification, turnRef, thread, turn);
      if observed.None? { PollBounded(w, d, turnRef, thread, turn); }
    }
  }

  // ----- runs of a controller -----

  datatype Op =
    | Probe(bound: bool, probeId: Id, thread: Option<string>, live: bool)
    | Write(lane: Lane, command: Command, thread: Option<string>, live: bool, bound: bool, leased: bool)
    | Observation(bound: bool, turnRef: Option<Id>, thread: Option<string>, turn: Option<string>)
    | Reconciliation(bound: bool, correlation: Id)

  ghost function Act(w: World, c: Value, op: Op, seal: string -> Option<Id>): Value {
    if !Ready(w, c.t) then c
    else
      match op
      case Probe(bound, probeId, thread, live) => ProbeIdle(w, c, bound, probeId, thread, live).0
      case Write(lane, command, thread, live, bound, leased) =>
        WriteTurn(w, c, lane, command, thread, live, bound, leased, seal).0
      case Observation(bound, turnRef, thread, turn) => Poll(w, c, bound, turnRef, thread, turn).0
      case Reconciliation(bound, correlation) => Reconcile(w, c, bound, correlation, seal).0
  }

  ghost function ActAll(w: World, c: Value, ops: seq<Op>, seal: string -> Option<Id>): Value
    decreases |ops|
  {
    if ops == [] then c else Act(w, ActAll(w, c, ops[..|ops| - 1], seal), ops[|ops| - 1], seal)
  }

  lemma ActBounded(w: World, c: Value, op: Op, seal: string -> Option<Id>)
    requires Sane(w) && Bounded(c.t, c.epoch)
    ensures var d := Act(w, c, op, seal);
            c.epoch <= d.epoch && Bounded(d.t, d.epoch)
  {
    hide Receive, Sane, ProbeIdle, Reserve, Perform, PollLoop;
    match op
    case Probe(bound, probeId, thread, live) => ProbeBounded(w, c, bound, probeId, thread, live);
    case Write(lane, command, thread, live, bound, leased) =>
      ReserveBounded(w, c, lane, command, thread, live, bound, leased);
      var (d, reserved) := Reserve(w, c, lane, command, thread, live, bound, leased);
      if reserved.Ok? { PerformBounded(w, d, reserved.value, command, seal); }
    case Observation(bound, turnRef, thread, turn) =>
      if turnRef.Some? && thread.Some? && turn.Some? {
        PollBounded(w, c, turnRef.value, thread.value, turn.value);
      }
    case Reconciliation(_, _) => ReceiveBounded(w, c.t, c.epoch);
  }

  /** Main result: in every state a controller reaches from any transport it was given, the
      epoch plus the queue is at most the output read, which is at most its limit; so the
      saturating increment is exact and the epoch only grows. */
  lemma {:induction false} EpochIsBounded(w: World, t: State, ops: seq<Op>, seal: string -> Option<Id>)
    requires Sane(w) && |t.notes| <= t.stdout <= MAX_STDOUT
    ensures var c := ActAll(w, Fresh(t), ops, seal);
            Bounded(c.t, c.epoch) && c.epoch < MAX_U64
    decreases |ops|
  {
    hide Act, Sane;
    if ops != [] {
      EpochIsBounded(w, t, ops[..|ops| - 1], seal);
      ActBounded(w, ActAll(w, Fresh(t), ops[..|ops| - 1], seal), ops[|ops| - 1], seal);
    }
  }

  // ----- the prepared frame at dispatch -----

  /** A drain that leaves the epoch alone made a single receive, and that found nothing. */
  lemma QuietDrain(w: World, t: State, epoch: nat)
    requires Sane(w) && Bounded(t, epoch)
    requires Drain(w, t, epoch).1 == epoch && Drain(w, t, epoch).2.Ok?
    ensures Receive(w, t) == (Drain(w, t, epoch).0, Err(Deadline))
  {
    hide Receive, Sane;
    ReceiveBounded(w, t, epoch);
    ReceiveBudget(w, t);
    var (u, r) := Receive(w, t);
    if r.Ok? {
      hide Drain;
      DrainStep(w, t, epoch);
      DrainBounded(w, u, epoch + 1);
    }
  }

  lemma DrainStep(w: World, t: State, epoch: nat)
    requires Ready(w, t) && Receive(w, t).1.Ok?
    ensures Receive(w, t).0.stdout <= MAX_STDOUT
    ensures Drain(w, t, epoch) == Drain(w, Receive(w, t).0, Bump(epoch))
  {
    ReceiveBudget(w, t);
  }

  /** With nothing pending, "no data" means a read that failed so, or a request of the
      server whose rejection ran into the write deadline before any byte was taken. */
  lemma NoDataMeans(w: World, t: State)
    requires Ready(w, t) && t.pending == [] && !t.ambiguous && Receive(w, t).1 == Err(Deadline)
    ensures var u := Receive(w, t).0;
            && u.pos == t.pos + 1
            && if Rejects(w, t) then
              && u.stdout > t.stdout && u.frame == [] && u.pending == [] && !u.ambiguous && u.nextId == t.nextId
              && |u.wire| == |t.wire| + 1 && u.wire[|t.wire|].accepted == 0 && u.wire[|t.wire|].request.None?
            else u == t.(pos := t.pos + 1) && w.peer(t.pos).Failed? && w.peer(t.pos).error == Deadline
  {
    var read := w.peer(t.pos);
    if Rejects(w, t) {
      var s2 := t.(pos := t.pos + 1, stdout := t.stdout + read.length);
      var encoded := w.encode(Refusal(read.content.value.requestId));
      if encoded.Fits? {
        ReceiptIsSound(encoded.bytes, w.pipe(|t.wire|), false);
      }
    }
    hide WriteAll, ParseResponse;
  }

  /** Main result: when a reserved turn is dispatched, the buffer holds the frame prepared for
      its id, and no whole line was read since it was prepared, exactly when the read that ended
      the drain brought no request of the server. In that one case the buffer is empty. */
  lemma FrameAtDispatch(w: World, c: Value, lane: Lane, command: Command, thread: Option<string>, live: bool,
                        bound: bool, leased: bool)
    requires Sane(w) && Bounded(c.t, c.epoch) && command.epoch <= c.epoch
    requires Reserve(w, c, lane, command, thread, live, bound, leased).1.Ok?
    ensures var (d, reserved) := Reserve(w, c, lane, command, thread, live, bound, leased);
            var id := reserved.value;
            && thread.Some? && id == c.t.nextId && d.epoch == c.epoch
            && d.t.pending == [] && !d.t.ambiguous && d.t.nextId == id + 1
            && w.encode(Turn(id, thread.value, command.input)).Fits?
            && var frame := w.encode(Turn(id, thread.value, command.input)).bytes;
               && (d.t.frame == frame <==> !Rejects(w, c.t))
               && (d.t.stdout == c.t.stdout <==> !Rejects(w, c.t))
               && d.t.pos == c.t.pos + 1 && (w.peer(c.t.pos).Line? <==> Rejects(w, c.t))
               && (if Rejects(w, c.t) then d.t.frame == []
                   else d.t == c.t.(frame := frame, nextId := id + 1, pos := c.t.pos + 1))
  {
    var (t1, prepared) := PrepareTurn(w, c.t, thread.value, command.input);
    assert t1 == c.t.(frame := t1.frame, nextId := c.t.nextId + 1) && t1.pending == [] && !t1.ambiguous;
    assert Rejects(w, t1) == Rejects(w, c.t);
    assert t1.frame != [];
    hide Drain, Receive, Sane;
    DrainBounded(w, t1, c.epoch);
    QuietDrain(w, t1, c.epoch);
    NoDataMeans(w, t1);
  }

  /** The transport as it was when the idle answer of a probe had been read. */
  function AfterAnswer(w: World, c: Value, thread: Option<string>, live: bool): State
    requires Ready(w, c.t)
  {
    DrainBudget(w, c.t, c.epoch);
    var (t1, e1, _) := Drain(w, c.t, c.epoch);
    AskThread(w, t1, e1, thread, live).0
  }

  /** A granted lane: its epoch is current, and the drain after the answer
      read no whole line, but for the one case of a request of the server. */
  lemma GrantMeans(w: World, c: Value, bound: bool, probeId: Id, thread: Option<string>, live: bool)
    requires Sane(w) && Bounded(c.t, c.epoch) && GoodState(c.t)
    requires ProbeIdle(w, c, bound, probeId, thread, live).1.Granted?
    ensures var (d, r) := ProbeIdle(w, c, bound, probeId, thread, live);
            var t2 := AfterAnswer(w, c, thread, live);
            && d.laneProbe == Some(probeId) && r.lane == Lane(probeId, d.epoch) && Bounded(d.t, d.epoch)
            && t2.pending == [] && !t2.ambiguous
            && t2.stdout <= d.t.stdout && (d.t.stdout == t2.stdout <==> !Rejects(w, t2))
            && d.t.pos == t2.pos + 1 && (w.peer(t2.pos).Line? <==> Rejects(w, t2))
            && (!Rejects(w, t2) ==> d.t == t2.(pos := t2.pos + 1))
  {
    hide Drain, AskThread, Sane, GoodState;
    DrainBounded(w, c.t, c.epoch);
    var (t1, e1, drained) := Drain(w, c.t, c.epoch);
    DrainGood(w, c.t, c.epoch);
    AskBounded(w, t1, e1, thread, live);
    AskIdle(w, t1, e1, thread, live);
    var (t2, e2, asked) := AskThread(w, t1, e1, thread, live);
    DrainBounded(w, t2, e2);
    DrainBudget(w, t2, e2);
    QuietDrain(w, t2, e2);
    NoDataMeans(w, t2);
    hide Receive;
  }

  lemma {:induction false} DrainGood(w: World, t: State, epoch: nat)
    requires Sane(w) && GoodState(t)
    ensures GoodState(Drain(w, t, epoch).0)
    decreases Budget(t)
  {
    hide Receive, Sane, GoodWire;
    ReceiveObeys(w, t);
    ReceiveBudget(w, t);
    var (u, r) := Receive(w, t);
    if r.Ok? { DrainGood(w, u, Bump(epoch)); }
  }

  /** A reported thread answered the pending request. */
  lemma AskIdle(w: World, t: State, epoch: nat, thread: Option<string>, live: bool)
    requires Sane(w) && GoodState(t) && AskThread(w, t, epoch, thread, live).2.Ok?
    ensures var u := AskThread(w, t, epoch, thread, live).0;
            u.pending == [] && !u.ambiguous
  {
    SendRequestBudget(w, t, ThreadRead, thread.value, thread);
    AskKeeps(w, t, ThreadRead, thread.value, thread);
    hide SendRequest, AwaitThread, Sane, GoodState;
    AwaitIdle(w, SendRequest(w, t, ThreadRead, thread.value, thread).0, epoch);
  }

  lemma {:induction false} AwaitIdle(w: World, t: State, epoch: nat)
    requires Sane(w) && GoodState(t) && AwaitThread(w, t, epoch).2.Ok?
    ensures var u := AwaitThread(w, t, epoch).0;
            u.pending == [] && !u.ambiguous
    decreases Budget(t)
  {
    hide Receive, Sane, GoodWire;
    ReceiveObeys(w, t);
    ReceiveBudget(w, t);
    var (u, r) := Receive(w, t);
    if r.Ok? {
      if r.value.ThreadReported? {
        ReportedIdle(w, t);
      } else {
        AwaitIdle(w, u, Bump(epoch));
      }
    }
  }

  lemma ReportedIdle(w: World, t: State)
    requires Sane(w) && GoodState(t) && Receive(w, t).1.Ok? && Receive(w, t).1.value.ThreadReported?
    ensures Receive(w, t).0.pending == [] && !Receive(w, t).0.ambiguous
  {
    hide ReadLoop, Sane, GoodState;
    LoopReportedIdle(w, t);
  }

  lemma {:induction false} LoopReportedIdle(w: World, t: State)
    requires Sane(w) && GoodState(t) && ReadLoop(w, t).1.Ok? && ReadLoop(w, t).1.value.ThreadReported?
    ensures ReadLoop(w, t).0.pending == [] && !ReadLoop(w, t).0.ambiguous
    decreases MAX_STDOUT - t.stdout
  {
    hide Send, ParseResponse, Sane, GoodWire;
    ReadOneBudget(w, t);
    ReadOneGood(w, t);
    var (u, r) := ReadOne(w, t);
    if r == Ok(None) {
      hide ReadOne;
      LoopReportedIdle(w, u);
    }
  }
}
