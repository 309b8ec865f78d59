/**
 The controller lane over one transport: probing for an idle thread, writing one reserved
 turn, observing it, reconciling it.

 Records are passed as what they were found to say: whether a request's binding matches
 this controller, what a sealed reference opens to, whether the child lives. `seal` is how
 a native turn becomes a private reference.
 */
module Controllers {
  import opened Prelude
  import opened Transport

  datatype Value = Value(
    t: State, epoch: nat, laneProbe: Option<Id>, startedTurn: Option<Id>,
    pendingTerminal: Option<(Id, TerminalClass)>, reconciling: Option<Id>,
    terminal: bool, lostReported: bool, degradedReported: bool)

  function Fresh(t: State): Value {
    Value(t, 0, None, None, None, None, false, false, false)
  }

  ghost predicate Ready(w: World, t: State) {
    Sane(w) && t.stdout <= MAX_STDOUT
  }

  /** `bump_epoch`, saturating. */
  function Bump(epoch: nat): nat {
    if epoch >= MAX_U64 then epoch else epoch + 1
  }

  /** `drain_before_mutation`. */
  function Drain(w: World, t: State, epoch: nat): (State, nat, Result<(), Error>)
    requires Ready(w, t)
    decreases Budget(t)
  {
    ReceiveBudget(w, t);
    var (u, r) := Receive(w, t);
    if r.Ok? then Drain(w, u, Bump(epoch))
    else if r.error == Deadline then (u, epoch, Ok(()))
    else (u, epoch, Err(r.error))
  }

  // ----- probing -----

  datatype Lane = Lane(probeId: Id, epoch: nat)

  datatype ProbeResult =
    | ProbeRejected | EpochInvalidated | NotIdle | Granted(lane: Lane) | Active(epoch: nat, turn: string)

  /** Receive until the thread is reported. */
  function AwaitThread(w: World, t: State, epoch: nat): (State, nat, Result<ThreadState, Error>)
    requires Ready(w, t)
    decreases Budget(t)
  {
    ReceiveBudget(w, t);
    var (u, r) := Receive(w, t);
    if r.Err? then (u, epoch, Err(r.error))
    else if r.value.ThreadReported? then (u, epoch, Ok(r.value.state))
    else if r.value.Notified? || r.value.ServerRequestRejected? then AwaitThread(w, u, Bump(epoch))
    else (u, epoch, Err(Correlation))
  }

  lemma SendRequestBudget(w: World, s: State, kind: RequestKind, params: string, about: Option<string>)
    ensures var t := SendRequest(w, s, kind, params, about).0;
            t.stdout == s.stdout && t.notes == s.notes && t.pos == s.pos
  {
    SendKeepsRest(w, s.(nextId := s.nextId + 1), Request(s.nextId, kind, params), Some(s.nextId));
    hide Send;
  }

  /** Ask for the thread and wait for the answer. */
  function AskThread(w: World, t: State, epoch: nat, thread: Option<string>, live: bool)
    : (State, nat, Result<ThreadState, Error>)
    requires Ready(w, t)
  {
    if thread.None? then (t, epoch, Err(Malformed))
    else if !live then (t, epoch, Err(Closed))
    else
      SendRequestBudget(w, t, ThreadRead, thread.value, thread);
      var (u, sent) := SendRequest(w, t, ThreadRead, thread.value, thread);
      if sent.Err? then (u, epoch, Err(sent.error)) else AwaitThread(w, u, epoch)
  }

  lemma {:induction false} DrainBudget(w: World, t: State, epoch: nat)
    requires Ready(w, t)
    ensures var (u, e, r) := Drain(w, t, epoch);
            u.stdout <= MAX_STDOUT && t.stdout <= u.stdout && Budget(u) <= Budget(t)
    decreases Budget(t)
  {
    hide Receive, Sane;
    ReceiveBudget(w, t);
    var (u, r) := Receive(w, t);
    if r.Ok? { DrainBudget(w, u, Bump(epoch)); }
  }

  lemma {:induction false} AwaitBudget(w: World, t: State, epoch: nat)
    requires Ready(w, t)
    ensures var (u, e, r) := AwaitThread(w, t, epoch);
            u.stdout <= MAX_STDOUT && t.stdout <= u.stdout && Budget(u) <= Budget(t)
    decreases Budget(t)
  {
    hide Receive, Sane;
    ReceiveBudget(w, t);
    var (u, r) := Receive(w, t);
    if r.Ok? { AwaitBudget(w, u, Bump(epoch)); }
  }

  lemma AskBudget(w: World, t: State, epoch: nat, thread: Option<string>, live: bool)
    requires Ready(w, t)
    ensures var (u, e, r) := AskThread(w, t, epoch, thread, live);
            u.stdout <= MAX_STDOUT && t.stdout <= u.stdout && Budget(u) <= Budget(t)
  {
    if thread.Some? && live {
      SendRequestBudget(w, t, ThreadRead, thread.value, thread);
      hide SendRequest, AwaitThread;
      AwaitBudget(w, SendRequest(w, t, ThreadRead, thread.value, thread).0, epoch);
    }
  }

  /** `probe_idle`. */
  function ProbeIdle(w: World, c: Value, bound: bool, probeId: Id, thread: Option<string>, live: bool)
    : (Value, ProbeResult)
    requires Ready(w, c.t)
  {
    if !bound || c.laneProbe.Some? then (c, ProbeRejected)
    else
      DrainBudget(w, c.t, c.epoch);
      var (t1, e1, drained) := Drain(w, c.t, c.epoch);
      if drained.Err? then (c.(t := t1, epoch := e1), NotIdle)
      else
        AskBudget(w, t1, e1, thread, live);
        var (t2, e2, asked) := AskThread(w, t1, e1, thread, live);
        if asked.Err? then (c.(t := t2, epoch := e2), NotIdle)
        else
          var (t3, e3, again) := Drain(w, t2, e2);
          var c3 := c.(t := t3, epoch := e3);
          if e3 != e2 then (c3, EpochInvalidated)
          else if again.Err? then (c3, NotIdle)
          else
            match asked.value
            case Idle => (c3.(laneProbe := Some(probeId)), Granted(Lane(probeId, e2)))
            case ActiveTurn(turn) => (c3, Active(e2, turn))
            case Unproven => (c3, NotIdle)
  }

  // ----- writing the reserved turn -----

  datatype Command = Command(probeId: Id, epoch: nat, input: string, correlation: Id)

  datatype Disposition =
    | Accepted(turnRef: Id)
    | ProvenNotAccepted
    | Unknown
    | IdleEpochInvalidated(expected: nat, observed: nat)

  /** What a write is refused with before any byte is offered. */
  datatype Refused = BindingRejected | Decided(disposition: Disposition)

  /** Everything `write_reserved_turn` does before the frame is dispatched. */
  function Reserve(w: World, c: Value, lane: Lane, command: Command, thread: Option<string>, live: bool,
                   bound: bool, leased: bool): (Value, Result<nat, Refused>)
    requires Ready(w, c.t)
  {
    var freed := c.(laneProbe := None);
    if c.laneProbe != Some(command.probeId) || lane.probeId != command.probeId || lane.epoch != command.epoch then
      (freed, Err(BindingRejected))
    else if thread.None? then (freed, Err(Decided(ProvenNotAccepted)))
    else if !live then (freed, Err(Decided(ProvenNotAccepted)))
    else
      var (t1, prepared) := PrepareTurn(w, c.t, thread.value, command.input);
      if prepared.Err? then (freed.(t := t1), Err(Decided(ProvenNotAccepted)))
      else
        var (t2, e2, drained) := Drain(w, t1, c.epoch);
        var dropped := freed.(t := Discard(t2), epoch := e2);
        if drained.Err? then (dropped, Err(Decided(ProvenNotAccepted)))
        else if e2 != command.epoch then (dropped, Err(Decided(IdleEpochInvalidated(command.epoch, e2))))
        else if !bound then (dropped, Err(BindingRejected))
        else if !leased then (dropped, Err(Decided(ProvenNotAccepted)))
        else (c.(t := t2, epoch := e2), Ok(prepared.value))
  }

  lemma ReserveBudget(w: World, c: Value, lane: Lane, command: Command, thread: Option<string>, live: bool,
                      bound: bool, leased: bool)
    requires Ready(w, c.t)
    ensures var d := Reserve(w, c, lane, command, thread, live, bound, leased).0;
            c.t.stdout <= d.t.stdout <= MAX_STDOUT && Budget(d.t) <= Budget(c.t)
  {
    if thread.Some? {
      var t1 := PrepareTurn(w, c.t, thread.value, command.input).0;
      DrainBudget(w, t1, c.epoch);
      hide Drain;
    }
  }

  /** Dispatch the reserved frame and take its answer. */
  function Perform(w: World, c: Value, id: nat, command: Command, seal: string -> Option<Id>): (Value, Disposition)
    requires Ready(w, c.t)
  {
    var (t1, sent) := Dispatch(w, c.t, id);
    var freed := c.(t := t1, laneProbe := None);
    if sent.Err? then
      if sent.error.receipt == ProvenNotWritten then (freed, ProvenNotAccepted)
      else (freed.(reconciling := Some(command.correlation)), Unknown)
    else
      var (t2, r) := Receive(w, t1);
      var disposition :=
        if r.Ok? && r.value.TurnStarted? then
          if seal(r.value.turn).Some? then Accepted(seal(r.value.turn).value) else Unknown
        else if r == Err(Native) then ProvenNotAccepted
        else Unknown;
      (freed.(t := t2, reconciling := if disposition.Unknown? then Some(command.correlation) else None), disposition)
  }

  /** `write_reserved_turn`. */
  function WriteTurn(w: World, c: Value, lane: Lane, command: Command, thread: Option<string>, live: bool,
                     bound: bool, leased: bool, seal: string -> Option<Id>): (Value, Result<Disposition, ()>)
    requires Ready(w, c.t)
  {
    ReserveBudget(w, c, lane, command, thread, live, bound, leased);
    var (d, reserved) := Reserve(w, c, lane, command, thread, live, bound, leased);
    match reserved
    case Err(BindingRejected) => (d, Err(()))
    case Err(Decided(disposition)) => (d, Ok(disposition))
    case Ok(id) =>
      var (e, disposition) := Perform(w, d, id, command, seal);
      (e, Ok(disposition))
  }

  // ----- observing one turn -----

  datatype Fact =
    | Started(turnRef: Id)
    | Terminated(turnRef: Id, outcome: TerminalClass)
    | ControllerLost
    | DegradedObservation
    | UnknownObservation

  function DegradedOnce(c: Value): (Value, Option<Fact>) {
    if c.degradedReported then (c, None) else (c.(degradedReported := true), Some(DegradedObservation))
  }

  function UnknownOnce(c: Value): (Value, Option<Fact>) {
    if c.degradedReported then (c, None) else (c.(degradedReported := true), Some(UnknownObservation))
  }

  /** What one notification means for the turn `turnRef`, natively `thread` and `turn`; None
      when polling should go on. */
  function Observe(c: Value, n: Notification, turnRef: Id, thread: string, turn: string)
    : (Value, Option<Option<Fact>>)
  {
    match n
    case TurnBegan(th, tu) =>
      if th != thread || tu != turn || c.startedTurn == Some(turnRef) then (c, None)
      else (c.(startedTurn := Some(turnRef)), Some(Some(Started(turnRef))))
    case TurnEnded(th, tu, outcome) =>
      if th != thread || tu != turn || c.terminal then (c, None)
      else if c.startedTurn != Some(turnRef) then
        if c.pendingTerminal.None? then (c.(pendingTerminal := Some((turnRef, outcome))), None)
        else
          var (d, fact) := DegradedOnce(c);
          (d, Some(fact))
      else (c.(terminal := true), Some(Some(Terminated(turnRef, outcome))))
    case TurnUnclear(th, tu) =>
      if th != thread || tu != turn then (c, None) else (c, Some(Some(DegradedObservation)))
    case Signal => (c, None)
  }

  /** What a failed receive, or one that is no notification, means for a poll. */
  function PollStops(c: Value, r: Result<Received, Error>): (Value, Option<Fact>) {
    if r.Ok? then DegradedOnce(c)
    else if (r.error == Closed || r.error == Ambiguous) && !c.lostReported then
      (c.(lostReported := true), Some(ControllerLost))
    else if r.error == Malformed || r.error == Bounds || r.error == Degraded || r.error == Correlation then
      DegradedOnce(c)
    else if r.error == Deadline then (c, None)
    else UnknownOnce(c)
  }

  /** The loop of `exact_notification`. */
  function PollLoop(w: World, c: Value, turnRef: Id, thread: string, turn: string): (Value, Option<Fact>)
    requires Ready(w, c.t)
    decreases Budget(c.t)
  {
    ReceiveBudget(w, c.t);
    var (t, r) := Receive(w, c.t);
    if !(r.Ok? && r.value.Notified?) then PollStops(c.(t := t), r)
    else
      var (d, observed) := Observe(c.(t := t, epoch := Bump(c.epoch)), r.value.notification, turnRef, thread, turn);
      if observed.Some? then (d, observed.value)
      else
        assert d.t == t;
        PollLoop(w, d, turnRef, thread, turn)
  }

  /** `exact_notification`: a completion that came before its start is reported first. */
  function PollExact(w: World, c: Value, turnRef: Option<Id>, thread: Option<string>, turn: Option<string>)
    : (Value, Option<Fact>)
    requires Ready(w, c.t)
  {
    if turnRef.None? then (c, None)
    else if c.startedTurn == turnRef && c.pendingTerminal.Some? then
      var (pendingTurn, outcome) := c.pendingTerminal.value;
      var d := c.(pendingTerminal := None);
      if pendingTurn == turnRef.value then (d.(terminal := true), Some(Terminated(pendingTurn, outcome)))
      else DegradedOnce(d)
    else if thread.None? || turn.None? then DegradedOnce(c)
    else PollLoop(w, c, turnRef.value, thread.value, turn.value)
  }

  /** `poll_exact_observation`. */
  function Poll(w: World, c: Value, bound: bool, turnRef: Option<Id>, thread: Option<string>, turn: Option<string>)
    : (Value, Option<Fact>)
    requires Ready(w, c.t)
  {
    if !bound || c.lostReported then (c, None) else PollExact(w, c, turnRef, thread, turn)
  }

  // ----- reconciling -----

  /** `reconcile_exact`; `bound` stands for its durable and exact bindings. */
  function Reconcile(w: World, c: Value, bound: bool, correlation: Id, seal: string -> Option<Id>)
    : (Value, Result<Disposition, ()>)
    requires Ready(w, c.t)
  {
    if (c.reconciling.Some? && c.reconciling.value != correlation) || !bound then (c, Err(()))
    else
      var (t, r) := Receive(w, c.t);
      (c.(t := t),
       Ok(if r.Ok? && r.value.TurnStarted? then
            if seal(r.value.turn).Some? then Accepted(seal(r.value.turn).value) else Unknown
          else if r == Err(Native) then ProvenNotAccepted
          else Unknown))
  }
}
