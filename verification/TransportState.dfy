/** The transport as its owner holds it, updated in place. */
module TransportStates {
  import opened Prelude
  import opened Transport

  /** `write_all_until`: offer the rest of the frame until all is taken, then flush. */
  method WriteAllUntil(frame: Bytes, events: seq<WriteEvent>) returns (accepted: nat, outcome: Result<(), WriteFailure>)
    ensures (accepted, outcome) == WriteAll(frame, events, false)
  {
    var rest, wrote, i := frame, false, 0;
    accepted := 0;
    while rest != []
      invariant i <= |events|
      invariant WriteAll(frame, events, false).0 == accepted + WriteAll(rest, events[i..], wrote).0
      invariant WriteAll(frame, events, false).1 == WriteAll(rest, events[i..], wrote).1
      decreases |events| - i
    {
      if i == |events| {
        return accepted, Failure(Deadline, wrote);
      }
      assert events[i..][1..] == events[i + 1..];
      match events[i] {
        case Done(n) =>
          if n == 0 {
            return accepted, Failure(Ambiguous, wrote);
          }
          var k := AtMost(n, |rest|);
          wrote := true;
          accepted := accepted + k;
          rest := rest[k..];
        case Blocked(expired) =>
          if expired {
            return accepted, Failure(Deadline, wrote);
          }
        case Broken =>
          return accepted, Failure(Closed, wrote);
      }
      i := i + 1;
    }
    while i < |events|
      invariant i <= |events|
      invariant WriteAll(frame, events, false).0 == accepted
      invariant WriteAll(frame, events, false).1 == Flush(events[i..])
    {
      assert events[i..][1..] == events[i + 1..];
      match events[i] {
        case Done(_) =>
          return accepted, Ok(());
        case Blocked(expired) =>
          if expired {
            return accepted, Failure(Deadline, true);
          }
        case Broken =>
          return accepted, Failure(Ambiguous, true);
      }
      i := i + 1;
    }
    return accepted, Failure(Deadline, true);
  }

  /** `parse_active_thread`: one pass over the turns, keeping the one in progress. */
  method FindActive(turns: seq<TurnJson>) returns (active: Option<string>)
    ensures active == ActiveAmong(turns, None)
  {
    active := None;
    for i := 0 to |turns|
      invariant ActiveAmong(turns, None) == ActiveAmong(turns[i..], active)
    {
      var turn := turns[i];
      assert turns[i..][1..] == turns[i + 1..];
      if !HasRef(turn) {
        return None;
      }
      if !IsDone(turn.status) {
        if turn.status == Some("inProgress") && active.None? {
          active := turn.id;
        } else {
          return None;
        }
      }
    }
  }

  class TransportState {
    const w: World
    var frame: Bytes
    var stdout: nat
    var pending: seq<Pending>
    var notes: seq<Notification>
    var ambiguous: bool
    var initialized: bool
    var nextId: nat
    var pos: nat
    var wire: seq<Attempt>

    function Current(): State
      reads this
    {
      State(frame, stdout, pending, notes, ambiguous, initialized, nextId, pos, wire)
    }

    constructor (world: World)
      ensures Current() == NEW && w == world
    {
      w := world;
      frame, stdout, pending, notes := [], 0, [], [];
      ambiguous, initialized, nextId, pos, wire := false, false, 2, 0, [];
    }

    /** Offer the buffer to the pipe, then wipe it. */
    method OfferFrame(request: Option<nat>) returns (outcome: Result<(), WriteFailure>)
      modifies this`frame, this`wire
      ensures (Current(), outcome) == Offer(w, old(Current()), old(frame), request)
    {
      var accepted;
      accepted, outcome := WriteAllUntil(frame, w.pipe(|wire|));
      wire := wire + [Attempt(request, frame, accepted, outcome)];
      frame := [];
    }

    method Send(message: Outbound, request: Option<nat>) returns (r: Result<(), Error>)
      modifies this`frame, this`wire, this`ambiguous
      ensures (Current(), r) == Transport.Send(w, old(Current()), message, request)
    {
      hide WriteAll;
      if ambiguous {
        return Err(Ambiguous);
      }
      match w.encode(message)
      case TooLong(partial) =>
        frame := partial;
        return Err(Bounds);
      case Fits(bytes) =>
        frame := bytes;
        var outcome := OfferFrame(request);
        if outcome.Ok? {
          return Ok(());
        }
        if outcome.error.receipt == PossiblyWritten {
          ambiguous := true;
          return Err(Ambiguous);
        }
        return Err(outcome.error.error);
    }

    method Handshake() returns (r: Result<(), Error>)
      modifies this
      ensures (Current(), r) == Transport.Handshake(w, old(Current()))
    {
      hide Transport.Send;
      if ambiguous {
        return Err(Ambiguous);
      }
      if initialized || pending != [] {
        return Err(Bounds);
      }
      SendKeepsRest(w, Current(), InitializeRequest, Some(1));
      r := Send(InitializeRequest, Some(1));
      if r.Ok? {
        pending := pending + [Pending(1, Initialize, None)];
      }
    }

    method SendRequest(kind: RequestKind, params: string, thread: Option<string>) returns (r: Result<(), Error>)
      modifies this
      ensures (Current(), r) == Transport.SendRequest(w, old(Current()), kind, params, thread)
    {
      hide Transport.Send;
      var admissible := Admissible(Current());
      if admissible.Err? {
        return admissible;
      }
      var id := nextId;
      nextId := nextId + 1;
      if kind == Initialize {
        return Err(Unsupported);
      }
      SendKeepsRest(w, Current(), Request(id, kind, params), Some(id));
      r := Send(Request(id, kind, params), Some(id));
      if r.Ok? {
        pending := pending + [Pending(id, kind, thread)];
      }
    }

    method PrepareTurn(thread: string, input: string) returns (r: Result<nat, Error>)
      modifies this`frame, this`nextId
      ensures (Current(), r) == Transport.PrepareTurn(w, old(Current()), thread, input)
    {
      var admissible := Admissible(Current());
      if admissible.Err? {
        return Err(admissible.error);
      }
      var id := nextId;
      nextId := nextId + 1;
      match w.encode(Turn(id, thread, input))
      case TooLong(_) =>
        frame := [];
        return Err(Bounds);
      case Fits(bytes) =>
        frame := bytes;
        return Ok(id);
    }

    method Discard()
      modifies this`frame
      ensures Current() == Transport.Discard(old(Current()))
    {
      frame := [];
    }

    method Dispatch(id: nat) returns (outcome: Result<(), WriteFailure>)
      modifies this
      ensures (Current(), outcome) == Transport.Dispatch(w, old(Current()), id)
    {
      hide WriteAll;
      outcome := OfferFrame(Some(id));
      if outcome.Ok? || outcome.error.receipt == PossiblyWritten {
        ambiguous := outcome.Err?;
        pending := pending + [Pending(id, TurnStart, None)];
      }
    }

    /** A reply to the pending request, or an uncorrelated response. */
    method HandleResponse(id: nat, body: ResultJson) returns (r: Result<Option<Received>, Error>)
      modifies this
      ensures (Current(), r) == HandleInbound(w, old(Current()), Response(id, body))
    {
      hide Transport.Send, ParseResponse;
      if pending == [] {
        return Err(Correlation);
      }
      if pending[0].id != id {
        ambiguous := true;
        return Err(Correlation);
      }
      var parsed := ParseResponse(body, pending[0]);
      if parsed.Err? {
        ambiguous := true;
        return Err(parsed.error);
      }
      ambiguous := false;
      if parsed.value.Initialized? {
        SendKeepsRest(w, Current(), InitializedNote, None);
        var sent := Send(InitializedNote, None);
        if sent.Err? {
          return Err(sent.error);
        }
        initialized := true;
      }
      pending := pending[1..];
      return Ok(Some(parsed.value));
    }

    method Handle(inbound: Inbound) returns (r: Result<Option<Received>, Error>)
      modifies this
      ensures (Current(), r) == HandleInbound(w, old(Current()), inbound)
    {
      match inbound
      case Response(id, body) =>
        r := HandleResponse(id, body);
      case NativeError(id) =>
        if pending != [] && pending[0].id == id {
          ambiguous := false;
          pending := pending[1..];
          return Err(Native);
        }
        ambiguous := ambiguous || pending != [];
        return Err(Correlation);
      case Note(notification) =>
        if !initialized {
          ambiguous := ambiguous || pending != [];
          return Err(Correlation);
        }
        if pending == [] {
          return Ok(Some(Notified(notification)));
        }
        if |notes| == MAX_QUEUE {
          return Err(Degraded);
        }
        notes := notes + [notification];
        return Ok(None);
      case ServerRequest(requestId) =>
        hide Transport.Send;
        SendKeepsRest(w, Current(), Refusal(requestId), None);
        var sent := Send(Refusal(requestId), None);
        if sent.Err? {
          return Err(sent.error);
        }
        return Ok(if pending == [] then Some(ServerRequestRejected) else None);
    }

    /** One read, and what the line it brings leads to. */
    method ReadOne() returns (r: Result<Option<Received>, Error>)
      modifies this
      ensures (Current(), r) == Transport.ReadOne(w, old(Current()))
    {
      hide HandleInbound;
      var read := w.peer(pos);
      pos := pos + 1;
      if read.Failed? {
        if pending != [] {
          ambiguous := true;
          return Err(Ambiguous);
        }
        return Err(read.error);
      }
      if stdout + read.length > MAX_STDOUT {
        return Err(Bounds);
      }
      stdout := stdout + read.length;
      if read.content.Err? {
        ambiguous := ambiguous || pending != [];
        return Err(read.content.error);
      }
      r := Handle(read.content.value);
    }

    /** `next_until`. */
    method NextUntil() returns (r: Result<Received, Error>)
      requires Sane(w) && stdout <= MAX_STDOUT
      modifies this
      ensures (Current(), r) == Receive(w, old(Current()))
    {
      hide Transport.ReadOne, Sane;
      if pending == [] && notes != [] {
        r := Ok(Notified(notes[0]));
        notes := notes[1..];
        return;
      }
      while true
        invariant stdout <= MAX_STDOUT
        invariant ReadLoop(w, Current()) == ReadLoop(w, old(Current()))
        decreases MAX_STDOUT - stdout
      {
        ReadOneBudget(w, Current());
        var outcome := ReadOne();
        match outcome
        case Err(e) => return Err(e);
        case Ok(Some(received)) => return Ok(received);
        case Ok(None) =>
      }
    }
  }
}
