/** The handled-cursor store as the daemon holds it: three fields updated in place. */
module AckStores {
  import opened Prelude
  import opened Messages
  import opened Ack

  /** `validate_leading_prefix`: two passes over one mutable set, then the comparison. */
  method ValidateLeadingPrefix(delivered: seq<Id>, drain: seq<Id>) returns (r: Result<(), AckError>)
    ensures r == match PrefixError(delivered, drain) case Some(e) => Err(e) case None => Ok(())
  {
    var seen: set<Id> := {};
    for i := 0 to |drain|
      invariant seen == set x | x in drain[..i]
      invariant Distinct(drain[..i])
    {
      assert drain[..i + 1] == drain[..i] + [drain[i]];
      if drain[i] in seen {
        return Err(DuplicateDrainRef);
      }
      seen := seen + {drain[i]};
    }
    assert drain[..|drain|] == drain;
    seen := {};
    for i := 0 to |delivered|
      invariant seen == set x | x in delivered[..i]
      invariant Distinct(delivered[..i])
    {
      assert delivered[..i + 1] == delivered[..i] + [delivered[i]];
      if delivered[i] in seen {
        return Err(DuplicateEventRef);
      }
      seen := seen + {delivered[i]};
    }
    assert delivered[..|delivered|] == delivered;
    if |drain| < |delivered| || drain[..|delivered|] != delivered {
      return Err(NotLeadingPrefix);
    }
    return Ok(());
  }

  class AckStore {
    var arm: Option<KnownArm>
    var signals: map<Id, Batch>
    var history: map<Id, Entry>

    function State(): Store
      reads this
    {
      Store(arm, signals, history)
    }

    constructor (arm: KnownArm)
      ensures State() == WithArm(arm)
    {
      this.arm := Some(arm);
      this.signals := map[];
      this.history := map[];
    }

    method NoteDelivered(id: Id, delivered: seq<Id>, drain: seq<Id>) returns (r: Result<(), AckError>)
      modifies this
      ensures (State(), r) == Ack.NoteDelivered(old(State()), id, delivered, drain)
    {
      if arm.None? {
        return Err(ArmMissing);
      }
      if delivered == [] {
        return Err(EmptyDelivery);
      }
      var leading := ValidateLeadingPrefix(delivered, drain);
      if leading.Err? {
        return leading;
      }
      var afterBound := drain[|delivered|..];
      if OtherOpen(State(), id) {
        return Err(SignalConflict);
      }
      if id in signals {
        var existing := signals[id];
        var sameAuthority := existing.armId == arm.value.armId && existing.generation == arm.value.generation;
        if sameAuthority && existing.delivered == [] && !existing.closed && existing.handled.None? {
          signals := signals[id := existing.(delivered := delivered, drain := drain, afterBound := afterBound)];
          return Ok(());
        }
        if sameAuthority && existing.delivered == delivered && existing.drain == drain {
          return Ok(());
        }
        return Err(SignalConflict);
      }
      signals := signals[id := FreshBatch(arm.value, delivered, drain)];
      return Ok(());
    }

    method NoteClaimed(id: Id) returns (r: Result<(), AckError>)
      modifies this
      ensures (State(), r) == Ack.NoteClaimed(old(State()), id)
    {
      if arm.None? {
        return Err(ArmMissing);
      }
      if OtherOpen(State(), id) {
        return Err(SignalConflict);
      }
      if id in signals {
        var existing := signals[id];
        if existing.armId == arm.value.armId && existing.generation == arm.value.generation
           && existing.delivered == [] && !existing.closed {
          return Ok(());
        }
        return Err(SignalConflict);
      }
      signals := signals[id := FreshBatch(arm.value, [], [])];
      return Ok(());
    }

    method RequireReturn(id: Id) returns (r: Result<(), AckError>)
      modifies this
      ensures (State(), r) == Ack.RequireReturn(old(State()), id)
    {
      if id !in signals {
        return Err(SignalMissing);
      }
      if signals[id].closed || signals[id].handled.Some? {
        return Err(Stale);
      }
      signals := signals[id := signals[id].(requireReturn := true)];
      return Ok(());
    }

    method NoteReturn(id: Id) returns (r: Result<(), AckError>)
      modifies this
      ensures (State(), r) == Ack.NoteReturn(old(State()), id)
    {
      if id !in signals {
        return Err(SignalMissing);
      }
      if signals[id].delivered == [] {
        return Err(BeforeDelivery);
      }
      if signals[id].requireReturn {
        signals := signals[id := signals[id].(returnCompleted := true)];
      }
      return Ok(());
    }

    /** `decide`: may move `handled` of the named batch and nothing else. */
    method Decide(request: HandledCursor, now: Time) returns (reply: HandledCursor)
      requires request.Request?
      modifies this
      ensures (State(), reply) == Ack.Decide(old(State()), request, now)
    {
      var code := Refusal(State(), request);
      if code.Some? {
        return Rejected(request.requestId, code.value, Some(now));
      }
      signals := signals[request.signalId := signals[request.signalId].(handled := Some(request.cursor))];
      return Accepted(request.requestId, request.armId, request.generation, request.signalId,
                      request.cursor, Some(now));
    }

    method RecordHandled(request: HandledCursor, now: Time) returns (r: Result<HandledCursor, AckError>)
      modifies this
      ensures (State(), r) == Ack.RecordHandled(old(State()), request, now)
    {
      if !ValidHandled(request) {
        return Err(Invalid);
      }
      if !request.Request? {
        return Err(ExpectedRequest);
      }
      if request.requestId in history {
        var existing := history[request.requestId];
        if existing.request == request {
          return Ok(existing.reply);
        }
        return Err(RequestIdConflict);
      }
      if |history| >= HISTORY_CAP {
        return Err(HistoryFull);
      }
      var reply := Decide(request, now);
      history := history[request.requestId := Entry(request, reply)];
      return Ok(reply);
    }

    method RearmFromHandled(id: Id) returns (r: Result<Id, AckError>)
      modifies this
      ensures (State(), r) == Ack.RearmFromHandled(old(State()), id)
    {
      if arm.None? {
        return Err(ArmMissing);
      }
      if id !in signals {
        return Err(SignalMissing);
      }
      var batch := signals[id];
      if batch.generation != arm.value.generation {
        return Err(Stale);
      }
      if batch.handled.None? {
        return Err(BeforeDelivery);
      }
      if batch.closed {
        return Err(Stale);
      }
      if arm.value.generation >= MAX_U64 {
        return Err(GenerationOverflow);
      }
      signals := signals[id := batch.(closed := true)];
      arm := Some(arm.value.(generation := arm.value.generation + 1));
      return Ok(batch.handled.value);
    }

    method ApplyHandled(request: HandledCursor, now: Time) returns (r: Result<HandledServe, AckError>)
      modifies this
      ensures (State(), r) == Ack.ApplyHandled(old(State()), request, now)
    {
      var recorded := RecordHandled(request, now);
      if recorded.Err? {
        return Err(recorded.error);
      }
      var reply := recorded.value;
      if !reply.Accepted? {
        return Ok(HandledServe(reply, None));
      }
      var rearmed := RearmFromHandled(reply.signalId);
      match rearmed
      case Ok(_) =>
        if arm.None? {
          return Err(ArmMissing);
        }
        return Ok(HandledServe(reply, Some(AckRearm(reply.cursor, arm.value.generation, reply.signalId))));
      case Err(e) =>
        if e == Stale {
          return Ok(HandledServe(reply, None));
        }
        return Err(e);
    }
  }
}
