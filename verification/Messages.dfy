/**
 The two message families of the local socket, waiter-link and handled-cursor, with
 their semantic validation. Timestamps are carried as the instant they parse to.
 */
module Messages {
  import opened Prelude

  /** Distinct request outcomes an admission table or ack store retains. */
  const HISTORY_CAP: nat := 1024

  /** Events one `deliver_events` frame may carry. */
  const MAX_EVENTS: nat := 64

  /** The arm the daemon covers. */
  datatype KnownArm = KnownArm(
    armId: Id, generation: nat, seatId: string, route: string, coverageUntil: Time)

  datatype ProviderEvent = ProviderEvent(
    provider: string, eventRef: Id, actor: Option<string>, observedAt: Stamp, body: string)

  datatype Outcome = ReturnCompleted | ReturnFailed | LinkLost

  datatype AttachCode = ArmUnknown | GenerationStale | RouteMismatch | AlreadyAttached | CoverageEnded

  datatype WaiterLink =
    | AttachWaiter(requestId: Id, waiterId: Id, armId: Id, generation: nat,
                   seatId: string, route: string, observedAt: Stamp)
    | AttachAccepted(requestId: Id, linkId: Id, armId: Id, generation: nat,
                     route: string, acceptedAt: Stamp, leaseUntil: Stamp)
    | AttachRejected(requestId: Id, code: AttachCode, observedAt: Stamp)
    | DeliverEvents(deliveryId: Id, linkId: Id, armId: Id, generation: nat, signalId: Id,
                    route: string, events: seq<ProviderEvent>, newest: Id, attemptedAt: Stamp)
    | DeliveryResult(deliveryId: Id, linkId: Id, signalId: Id, outcome: Outcome, observedAt: Stamp)

  datatype AckCode =
    | UnknownArm | StaleGeneration | SeatMismatch | UnknownSignal | AckBeforeDelivery
    | CursorNotMember | CursorBeyondDelivered | StaleCursor

  datatype HandledCursor =
    | Request(requestId: Id, armId: Id, generation: nat, seatId: string, signalId: Id,
              cursor: Id, observedAt: Stamp)
    | Accepted(requestId: Id, armId: Id, generation: nat, signalId: Id, cursor: Id,
               acceptedAt: Stamp)
    | Rejected(requestId: Id, code: AckCode, observedAt: Stamp)

  predicate IsUlid(id: string) {
    && |id| == 26
    && forall i :: 0 <= i < |id| ==>
         || '0' <= id[i] <= '9'
         || ('A' <= id[i] <= 'Z' && id[i] !in {'I', 'L', 'O', 'U'})
  }

  predicate IsSeat(seat: string) {
    && 1 <= |seat| <= 63
    && 'a' <= seat[0] <= 'z'
    && forall i :: 0 <= i < |seat| ==>
         'a' <= seat[i] <= 'z' || '0' <= seat[i] <= '9' || seat[i] == '-'
  }

  predicate IsAttachedRoute(route: string) {
    route == "return_foreground" || route == "complete_background_tool"
  }

  predicate IsToken(token: string) {
    && 1 <= |token| <= 256
    && forall i :: 0 <= i < |token| ==> ' ' < token[i] && token[i] as int != 0x7F
  }

  predicate IsForbiddenInBody(c: char) {
    var code := c as int;
    code <= 0x08 || code == 0x0B || code == 0x0C || 0x0E <= code <= 0x1F || 0x7F <= code <= 0x9F
  }

  predicate IsBody(body: string) {
    && |body| <= 4096
    && forall i :: 0 <= i < |body| ==> !IsForbiddenInBody(body[i])
  }

  function Refs(events: seq<ProviderEvent>): (refs: seq<Id>)
    ensures |refs| == |events|
    ensures forall i :: 0 <= i < |refs| ==> refs[i] == events[i].eventRef
  {
    seq(|events|, i requires 0 <= i < |events| => events[i].eventRef)
  }

  predicate IsEvent(event: ProviderEvent) {
    && IsToken(event.provider)
    && IsToken(event.eventRef)
    && (event.actor.Some? ==> IsToken(event.actor.value))
    && event.observedAt.Some?
    && IsBody(event.body)
  }

  predicate AreEvents(events: seq<ProviderEvent>, newest: Id) {
    && 1 <= |events| <= MAX_EVENTS
    && (forall i :: 0 <= i < |events| ==> IsEvent(events[i]))
    && Distinct(Refs(events))
    && IsToken(newest)
    && newest == events[|events| - 1].eventRef
  }

  /** `validate` of the waiter-link family. */
  predicate ValidLink(message: WaiterLink) {
    match message
    case AttachWaiter(requestId, waiterId, armId, generation, seatId, route, observedAt) =>
      && IsUlid(requestId) && IsUlid(waiterId) && IsUlid(armId) && generation >= 1
      && IsSeat(seatId) && IsAttachedRoute(route) && observedAt.Some?
    case AttachAccepted(requestId, linkId, armId, generation, route, acceptedAt, leaseUntil) =>
      && IsUlid(requestId) && IsUlid(linkId) && IsUlid(armId) && generation >= 1
      && IsAttachedRoute(route) && acceptedAt.Some? && leaseUntil.Some?
      && acceptedAt.value < leaseUntil.value
    case AttachRejected(requestId, _, observedAt) =>
      IsUlid(requestId) && observedAt.Some?
    case DeliverEvents(deliveryId, linkId, armId, generation, signalId, route, events, newest, attemptedAt) =>
      && IsUlid(deliveryId) && IsUlid(linkId) && IsUlid(armId) && generation >= 1
      && IsUlid(signalId) && IsAttachedRoute(route) && attemptedAt.Some?
      && AreEvents(events, newest)
    case DeliveryResult(deliveryId, linkId, signalId, _, observedAt) =>
      IsUlid(deliveryId) && IsUlid(linkId) && IsUlid(signalId) && observedAt.Some?
  }

  /** `validate_handled`: the semantic rules of the handled-cursor family. */
  predicate ValidHandled(message: HandledCursor) {
    match message
    case Request(requestId, armId, generation, seatId, signalId, cursor, observedAt) =>
      && IsUlid(requestId) && IsUlid(armId) && generation >= 1 && IsSeat(seatId)
      && IsUlid(signalId) && IsToken(cursor) && observedAt.Some?
    case Accepted(requestId, armId, generation, signalId, cursor, acceptedAt) =>
      && IsUlid(requestId) && IsUlid(armId) && generation >= 1
      && IsUlid(signalId) && IsToken(cursor) && acceptedAt.Some?
    case Rejected(requestId, _, observedAt) =>
      IsUlid(requestId) && observedAt.Some?
  }
}
