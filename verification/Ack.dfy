/**
 The handled-cursor store: which delivered prefix of which signal a seat has handled.

 `Store` is the value of an `AckStore` object; the functions on it say what each
 operation does to that value. Module AckStores performs the operations in place.
 */
module Ack {
  import opened Prelude
  import opened Messages

  datatype AckError =
    | ArmMissing | EmptyDelivery | DuplicateDrainRef | DuplicateEventRef | NotLeadingPrefix
    | SignalConflict | SignalMissing | Stale | BeforeDelivery
    | Invalid | ExpectedRequest | RequestIdConflict | HistoryFull | GenerationOverflow

  datatype Batch = Batch(
    armId: Id, generation: nat, delivered: seq<Id>, drain: seq<Id>, afterBound: seq<Id>,
    handled: Option<Id>, requireReturn: bool, returnCompleted: bool, closed: bool)

  datatype Entry = Entry(request: HandledCursor, reply: HandledCursor)

  datatype Store = Store(arm: Option<KnownArm>, signals: map<Id, Batch>, history: map<Id, Entry>)

  datatype AckRearm = AckRearm(after: Id, generation: nat, signalId: Id)

  datatype HandledServe = HandledServe(reply: HandledCursor, rearm: Option<AckRearm>)

  function WithArm(arm: KnownArm): Store {
    Store(Some(arm), map[], map[])
  }

  /** `id` names an open batch of the live generation. */
  predicate IsOpen(s: Store, id: Id) {
    && s.arm.Some? && id in s.signals
    && s.signals[id].generation == s.arm.value.generation && !s.signals[id].closed
  }

  predicate OtherOpen(s: Store, id: Id) {
    exists other | other in s.signals :: other != id && IsOpen(s, other)
  }

  /** Why `delivered` is not a duplicate-free leading part of `drain`, if it is not. */
  function PrefixError(delivered: seq<Id>, drain: seq<Id>): Option<AckError> {
    if !Distinct(drain) then Some(DuplicateDrainRef)
    else if !Distinct(delivered) then Some(DuplicateEventRef)
    else if !(delivered <= drain) then Some(NotLeadingPrefix)
    else None
  }

  function FreshBatch(arm: KnownArm, delivered: seq<Id>, drain: seq<Id>): Batch
    requires |delivered| <= |drain|
  {
    Batch(arm.armId, arm.generation, delivered, drain, drain[|delivered|..], None, false, false, false)
  }

  function NoteDelivered(s: Store, id: Id, delivered: seq<Id>, drain: seq<Id>)
    : (Store, Result<(), AckError>)
  {
    if s.arm.None? then (s, Err(ArmMissing))
    else if delivered == [] then (s, Err(EmptyDelivery))
    else if PrefixError(delivered, drain).Some? then (s, Err(PrefixError(delivered, drain).value))
    else if OtherOpen(s, id) then (s, Err(SignalConflict))
    else
      var arm := s.arm.value;
      if id !in s.signals then
        (s.(signals := s.signals[id := FreshBatch(arm, delivered, drain)]), Ok(()))
      else
        var b := s.signals[id];
        var sameAuthority := b.armId == arm.armId && b.generation == arm.generation;
        if sameAuthority && b.delivered == [] && !b.closed && b.handled.None? then
          var b' := b.(delivered := delivered, drain := drain, afterBound := drain[|delivered|..]);
          (s.(signals := s.signals[id := b']), Ok(()))
        else if sameAuthority && b.delivered == delivered && b.drain == drain then (s, Ok(()))
        else (s, Err(SignalConflict))
  }

  function NoteClaimed(s: Store, id: Id): (Store, Result<(), AckError>) {
    if s.arm.None? then (s, Err(ArmMissing))
    else if OtherOpen(s, id) then (s, Err(SignalConflict))
    else
      var arm := s.arm.value;
      if id !in s.signals then
        (s.(signals := s.signals[id := FreshBatch(arm, [], [])]), Ok(()))
      else
        var b := s.signals[id];
        if b.armId == arm.armId && b.generation == arm.generation && b.delivered == [] && !b.closed
        then (s, Ok(()))
        else (s, Err(SignalConflict))
  }

  function RequireReturn(s: Store, id: Id): (Store, Result<(), AckError>) {
    if id !in s.signals then (s, Err(SignalMissing))
    else
      var b := s.signals[id];
      if b.closed || b.handled.Some? then (s, Err(Stale))
      else (s.(signals := s.signals[id := b.(requireReturn := true)]), Ok(()))
  }

  function NoteReturn(s: Store, id: Id): (Store, Result<(), AckError>) {
    if id !in s.signals then (s, Err(SignalMissing))
    else
      var b := s.signals[id];
      if b.delivered == [] then (s, Err(BeforeDelivery))
      else if b.requireReturn then
        (s.(signals := s.signals[id := b.(returnCompleted := true)]), Ok(()))
      else (s, Ok(()))
  }

  predicate HeldForReturn(s: Store, id: Id) {
    id in s.signals && s.signals[id].requireReturn && !s.signals[id].returnCompleted
  }

  /** The reason `decide` refuses `request`, in the order the tests are made. */
  function Refusal(s: Store, request: HandledCursor): Option<AckCode>
    requires request.Request?
  {
    if s.arm.None? || s.arm.value.armId != request.armId then Some(UnknownArm)
    else if s.arm.value.seatId != request.seatId then Some(SeatMismatch)
    else if s.arm.value.generation != request.generation then Some(StaleGeneration)
    else if request.signalId !in s.signals then Some(UnknownSignal)
    else
      var b := s.signals[request.signalId];
      if b.closed || b.generation != s.arm.value.generation then Some(StaleGeneration)
      else if b.delivered == [] then Some(AckBeforeDelivery)
      else if b.requireReturn && !b.returnCompleted then Some(AckBeforeDelivery)
      else if request.cursor in b.afterBound then Some(CursorBeyondDelivered)
      else match Position(b.delivered, request.cursor)
        case None => Some(CursorNotMember)
        case Some(p) =>
          if b.handled.Some? then
            match Position(b.delivered, b.handled.value)
            case Some(q) => if p < q then Some(StaleCursor) else None
            case None => None
          else None
  }

  function Decide(s: Store, request: HandledCursor, now: Time): (Store, HandledCursor)
    requires request.Request?
  {
    match Refusal(s, request)
    case Some(code) => (s, Rejected(request.requestId, code, Some(now)))
    case None =>
      var b := s.signals[request.signalId];
      (s.(signals := s.signals[request.signalId := b.(handled := Some(request.cursor))]),
       Accepted(request.requestId, request.armId, request.generation, request.signalId,
                request.cursor, Some(now)))
  }

  function RecordHandled(s: Store, request: HandledCursor, now: Time)
    : (Store, Result<HandledCursor, AckError>)
  {
    if !ValidHandled(request) then (s, Err(Invalid))
    else if !request.Request? then (s, Err(ExpectedRequest))
    else if request.requestId in s.history then
      if s.history[request.requestId].request == request
      then (s, Ok(s.history[request.requestId].reply))
      else (s, Err(RequestIdConflict))
    else if |s.history| >= HISTORY_CAP then (s, Err(HistoryFull))
    else
      var (s', reply) := Decide(s, request, now);
      (s'.(history := s'.history[request.requestId := Entry(request, reply)]), Ok(reply))
  }

  function RearmFromHandled(s: Store, id: Id): (Store, Result<Id, AckError>) {
    if s.arm.None? then (s, Err(ArmMissing))
    else if id !in s.signals then (s, Err(SignalMissing))
    else
      var arm := s.arm.value;
      var b := s.signals[id];
      if b.generation != arm.generation then (s, Err(Stale))
      else if b.handled.None? then (s, Err(BeforeDelivery))
      else if b.closed then (s, Err(Stale))
      else if arm.generation >= MAX_U64 then (s, Err(GenerationOverflow))
      else
        (s.(arm := Some(arm.(generation := arm.generation + 1)),
            signals := s.signals[id := b.(closed := true)]),
         Ok(b.handled.value))
  }

  /** Close the signal of a newly accepted reply; a signal already closed is left alone. */
  function CloseAccepted(s: Store, reply: HandledCursor): (Store, Result<HandledServe, AckError>) {
    if !reply.Accepted? then (s, Ok(HandledServe(reply, None)))
    else
      var (t, rearmed) := RearmFromHandled(s, reply.signalId);
      match rearmed
      case Ok(_) =>
        if t.arm.None? then (t, Err(ArmMissing))
        else (t, Ok(HandledServe(reply, Some(AckRearm(reply.cursor, t.arm.value.generation, reply.signalId)))))
      case Err(e) =>
        if e == Stale then (t, Ok(HandledServe(reply, None))) else (t, Err(e))
  }

  function ApplyHandled(s: Store, request: HandledCursor, now: Time)
    : (Store, Result<HandledServe, AckError>)
  {
    var (t, recorded) := RecordHandled(s, request, now);
    match recorded
    case Err(e) => (t, Err(e))
    case Ok(reply) => CloseAccepted(t, reply)
  }
}
