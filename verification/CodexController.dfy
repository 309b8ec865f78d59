/** The controller lane as its owner holds it, updated in place. */
module CodexControllers {
  import opened Prelude
  import opened Transport
  import opened Controllers
  import TransportStates

  class CodexController {
    const transport: TransportStates.TransportState
    var epoch: nat
    var laneProbe: Option<Id>
    var startedTurn: Option<Id>
    var pendingTerminal: Option<(Id, TerminalClass)>
    var reconciling: Option<Id>
    var terminal: bool
    var lostReported: bool
    var degradedReported: bool

    function Current(): Value
      reads this, transport
    {
      Value(transport.Current(), epoch, laneProbe, startedTurn, pendingTerminal, reconciling, terminal,
            lostReported, degradedReported)
    }

    /** The transport's budget holds, and its world is sane. */
    ghost predicate Valid()
      reads this, transport
    {
      Ready(transport.w, transport.Current())
    }

    constructor (connected: TransportStates.TransportState)
      ensures transport == connected && Current() == Fresh(connected.Current())
    {
      transport := connected;
      epoch, laneProbe, startedTurn, pendingTerminal, reconciling := 0, None, None, None, None;
      terminal, lostReported, degradedReported := false, false, false;
    }

    method BumpEpoch()
      modifies this`epoch
      ensures epoch == Bump(old(epoch))
    {
      if epoch < MAX_U64 {
        epoch := epoch + 1;
      }
    }

    /** `drain_before_mutation`: receive until there is no data. */
    method DrainBeforeMutation() returns (r: Result<(), Error>)
      requires Valid()
      modifies this`epoch, transport
      ensures Valid()
      ensures (transport.Current(), epoch, r) == Drain(transport.w, old(transport.Current()), old(epoch))
    {
      hide Receive, Sane;
      while true
        invariant Valid()
        invariant Drain(transport.w, transport.Current(), epoch)
               == Drain(transport.w, old(transport.Current()), old(epoch))
        decreases Budget(transport.Current())
      {
        ReceiveBudget(transport.w, transport.Current());
        var received := transport.NextUntil();
        if received.Err? {
          return if received.error == Deadline then Ok(()) else Err(received.error);
        }
        BumpEpoch();
      }
    }

    /** Ask for the thread, and receive until it is reported. */
    method AskThread(thread: Option<string>, live: bool) returns (r: Result<ThreadState, Error>)
      requires Valid()
      modifies this`epoch, transport
      ensures Valid()
      ensures (transport.Current(), epoch, r)
           == Controllers.AskThread(transport.w, old(transport.Current()), old(epoch), thread, live)
    {
      hide Receive, Sane, SendRequest;
      if thread.None? {
        return Err(Malformed);
      }
      if !live {
        return Err(Closed);
      }
      SendRequestBudget(transport.w, transport.Current(), ThreadRead, thread.value, thread);
      var sent := transport.SendRequest(ThreadRead, thread.value, thread);
      if sent.Err? {
        return Err(sent.error);
      }
      ghost var asked, before := transport.Current(), epoch;
      while true
        invariant Valid()
        invariant AwaitThread(transport.w, transport.Current(), epoch) == AwaitThread(transport.w, asked, before)
        decreases Budget(transport.Current())
      {
        ReceiveBudget(transport.w, transport.Current());
        var received := transport.NextUntil();
        if received.Err? {
          return Err(received.error);
        }
        match received.value
        case ThreadReported(state) => return Ok(state);
        case Notified(_) => BumpEpoch();
        case ServerRequestRejected => BumpEpoch();
        case _ => return Err(Correlation);
      }
    }

    /** `probe_idle`. */
    method ProbeIdle(bound: bool, probeId: Id, thread: Option<string>, live: bool) returns (r: ProbeResult)
      requires Valid()
      modifies this, transport
      ensures Valid()
      ensures (Current(), r) == Controllers.ProbeIdle(transport.w, old(Current()), bound, probeId, thread, live)
    {
      hide Drain, Controllers.AskThread, Sane;
      if !bound || laneProbe.Some? {
        return ProbeRejected;
      }
      var drained := DrainBeforeMutation();
      if drained.Err? {
        return NotIdle;
      }
      var state := AskThread(thread, live);
      if state.Err? {
        return NotIdle;
      }
      var responseEpoch := epoch;
      var again := DrainBeforeMutation();
      if epoch != responseEpoch {
        return EpochInvalidated;
      }
      if again.Err? {
        return NotIdle;
      }
      match state.value
      case Idle =>
        laneProbe := Some(probeId);
        return Granted(Lane(probeId, responseEpoch));
      case ActiveTurn(turn) => return Active(responseEpoch, turn);
      case Unproven => return NotIdle;
    }

    /** What `write_reserved_turn` does before the frame is dispatched. */
    method Reserve(lane: Lane, command: Command, thread: Option<string>, live: bool, bound: bool, leased: bool)
      returns (r: Result<nat, Refused>)
      requires Valid()
      modifies this, transport
      ensures Valid()
      ensures (Current(), r)
           == Controllers.Reserve(transport.w, old(Current()), lane, command, thread, live, bound, leased)
    {
      hide Drain, Sane;
      if laneProbe != Some(command.probeId) || lane.probeId != command.probeId || lane.epoch != command.epoch {
        laneProbe := None;
        return Err(BindingRejected);
      }
      if thread.None? || !live {
        laneProbe := None;
        return Err(Decided(ProvenNotAccepted));
      }
      var prepared := transport.PrepareTurn(thread.value, command.input);
      if prepared.Err? {
        laneProbe := None;
        return Err(Decided(ProvenNotAccepted));
      }
      var drained := DrainBeforeMutation();
      var refused: Option<Refused> :=
        if drained.Err? then Some(Decided(ProvenNotAccepted))
        else if epoch != command.epoch then Some(Decided(IdleEpochInvalidated(command.epoch, epoch)))
        else if !bound then Some(BindingRejected)
        else if !leased then Some(Decided(ProvenNotAccepted))
        else None;
      if refused.Some? {
        transport.Discard();
        laneProbe := None;
        return Err(refused.value);
      }
      return Ok(prepared.value);
    }

    /** Dispatch the reserved frame and take its answer. */
    method Perform(id: nat, command: Command, seal: string -> Option<Id>) returns (disposition: Disposition)
      requires Valid()
      modifies this, transport
      ensures (Current(), disposition) == Controllers.Perform(transport.w, old(Current()), id, command, seal)
    {
      hide Receive, Sane, WriteAll;
      laneProbe := None;
      var sent := transport.Dispatch(id);
      if sent.Err? {
        if sent.error.receipt == ProvenNotWritten {
          return ProvenNotAccepted;
        }
        reconciling := Some(command.correlation);
        return Unknown;
      }
      var received := transport.NextUntil();
      disposition := Unknown;
      if received.Ok? && received.value.TurnStarted? {
        var turnRef := seal(received.value.turn);
        if turnRef.Some? {
          disposition := Accepted(turnRef.value);
        }
      } else if received == Err(Native) {
        disposition := ProvenNotAccepted;
      }
      reconciling := if disposition.Unknown? then Some(command.correlation) else None;
    }

    /** `write_reserved_turn`. */
    method WriteReservedTurn(lane: Lane, command: Command, thread: Option<string>, live: bool, bound: bool,
                             leased: bool, seal: string -> Option<Id>)
      returns (r: Result<Disposition, ()>)
      requires Valid()
      modifies this, transport
      ensures (Current(), r)
           == WriteTurn(transport.w, old(Current()), lane, command, thread, live, bound, leased, seal)
    {
      hide Controllers.Reserve, Controllers.Perform, Sane;
      var reserved := Reserve(lane, command, thread, live, bound, leased);
      if reserved.Err? {
        return if reserved.error.BindingRejected? then Err(()) else Ok(reserved.error.disposition);
      }
      var disposition := Perform(reserved.value, command, seal);
      return Ok(disposition);
    }

    method DegradedOnce() returns (fact: Option<Fact>)
      modifies this`degradedReported
      ensures (Current(), fact) == Controllers.DegradedOnce(old(Current()))
    {
      if degradedReported {
        return None;
      }
      degradedReported := true;
      return Some(DegradedObservation);
    }

    /** The loop of `exact_notification`. */
    method PollLoop(turnRef: Id, thread: string, turn: string) returns (fact: Option<Fact>)
      requires Valid()
      modifies this, transport
      ensures (Current(), fact) == Controllers.PollLoop(transport.w, old(Current()), turnRef, thread, turn)
    {
      hide Receive, Sane;
      while true
        invariant Valid()
        invariant Controllers.PollLoop(transport.w, Current(), turnRef, thread, turn)
               == Controllers.PollLoop(transport.w, old(Current()), turnRef, thread, turn)
        decreases Budget(transport.Current())
      {
        ReceiveBudget(transport.w, transport.Current());
        var received := transport.NextUntil();
        if !(received.Ok? && received.value.Notified?) {
          fact := Stops(received);
          return;
        }
        BumpEpoch();
        var n := received.value.notification;
        match n {
          case TurnBegan(th, tu) =>
            if th == thread && tu == turn && startedTurn != Some(turnRef) {
              startedTurn := Some(turnRef);
              return Some(Started(turnRef));
            }
          case TurnEnded(th, tu, outcome) =>
            if th == thread && tu == turn && !terminal {
              if startedTurn == Some(turnRef) {
                terminal := true;
                return Some(Terminated(turnRef, outcome));
              }
              if pendingTerminal.Some? {
                fact := DegradedOnce();
                return;
              }
              pendingTerminal := Some((turnRef, outcome));
            }
          case TurnUnclear(th, tu) =>
            if th == thread && tu == turn {
              return Some(DegradedObservation);
            }
          case Signal =>
        }
      }
    }

    /** A receive that brought no notification ends the poll. */
    method Stops(received: Result<Received, Error>) returns (fact: Option<Fact>)
      modifies this`lostReported, this`degradedReported
      ensures (Current(), fact) == PollStops(old(Current()), received)
    {
      if received.Ok? {
        fact := DegradedOnce();
        return;
      }
      match received.error {
        case Closed =>
          if !lostReported {
            lostReported := true;
            return Some(ControllerLost);
          }
        case Ambiguous =>
          if !lostReported {
            lostReported := true;
            return Some(ControllerLost);
          }
        case Deadline =>
          return None;
        case Malformed =>
          fact := DegradedOnce();
          return;
        case Bounds =>
          fact := DegradedOnce();
          return;
        case Degraded =>
          fact := DegradedOnce();
          return;
        case Correlation =>
          fact := DegradedOnce();
          return;
        case _ =>
      }
      if degradedReported {
        return None;
      }
      degradedReported := true;
      return Some(UnknownObservation);
    }

    /** `poll_exact_observation`. */
    method Poll(bound: bool, turnRef: Option<Id>, thread: Option<string>, turn: Option<string>)
      returns (fact: Option<Fact>)
      requires Valid()
      modifies this, transport
      ensures (Current(), fact) == Controllers.Poll(transport.w, old(Current()), bound, turnRef, thread, turn)
    {
      hide Controllers.PollLoop, Sane;
      if !bound || lostReported {
        return None;
      }
      if turnRef.None? {
        return None;
      }
      if startedTurn == turnRef && pendingTerminal.Some? {
        var (pendingTurn, outcome) := pendingTerminal.value;
        pendingTerminal := None;
        if pendingTurn == turnRef.value {
          terminal := true;
          return Some(Terminated(pendingTurn, outcome));
        }
        fact := DegradedOnce();
        return;
      }
      if thread.None? || turn.None? {
        fact := DegradedOnce();
        return;
      }
      fact := PollLoop(turnRef.value, thread.value, turn.value);
    }

    /** `reconcile_exact`. */
    method Reconcile(bound: bool, correlation: Id, seal: string -> Option<Id>) returns (r: Result<Disposition, ()>)
      requires Valid()
      modifies this, transport
      ensures (Current(), r) == Controllers.Reconcile(transport.w, old(Current()), bound, correlation, seal)
    {
      hide Receive, Sane;
      if (reconciling.Some? && reconciling.value != correlation) || !bound {
        return Err(());
      }
      var received := transport.NextUntil();
      if received.Ok? && received.value.TurnStarted? {
        var turnRef := seal(received.value.turn);
        return Ok(if turnRef.Some? then Accepted(turnRef.value) else Unknown);
      }
      return Ok(if received == Err(Native) then ProvenNotAccepted else Unknown);
    }
  }
}
