/** Exactly when the ack store accepts, and what each refusal says. */
module AckLaws {
  import opened Prelude
  import opened Messages
  import opened Ack
  import opened AckRuns

  // ----- what a request says, and what the store knows -----

  /** The request is for the store's arm, seat and generation. */
  predicate Addressed(s: Store, request: HandledCursor)
    requires s.arm.Some? && request.Request?
  {
    var arm := s.arm.value;
    request.armId == arm.armId && request.seatId == arm.seatId && request.generation == arm.generation
  }

  /** The signal is open and delivered, and either not held for a receipt or confirmed. */
  predicate Acknowledgeable(s: Store, id: Id) {
    && IsOpen(s, id) && s.signals[id].delivered != []
    && (!s.signals[id].requireReturn || s.signals[id].returnCompleted)
  }

  /** The cursor is delivered, and what is handled lies at or before it. */
  ghost predicate Reaches(b: Batch, cursor: Id) {
    exists p :: && 0 <= p < |b.delivered| && b.delivered[p] == cursor
                && (b.handled.Some? ==> b.handled.value in b.delivered[..p + 1])
  }

  ghost predicate IsAcceptable(s: Store, request: HandledCursor)
    requires s.arm.Some? && request.Request?
  {
    && Addressed(s, request) && Acknowledgeable(s, request.signalId)
    && Reaches(s.signals[request.signalId], request.cursor)
  }

  /** The fact a refusal code states of the request. */
  ghost predicate Explains(s: Store, request: HandledCursor, code: AckCode)
    requires s.arm.Some? && request.Request?
  {
    var arm := s.arm.value;
    var id := request.signalId;
    match code
    case UnknownArm => request.armId != arm.armId
    case SeatMismatch => request.armId == arm.armId && request.seatId != arm.seatId
    case StaleGeneration =>
      && request.armId == arm.armId && request.seatId == arm.seatId
      && (request.generation != arm.generation || (id in s.signals && !IsOpen(s, id)))
    case UnknownSignal => Addressed(s, request) && id !in s.signals
    case AckBeforeDelivery => Addressed(s, request) && IsOpen(s, id) && !Acknowledgeable(s, id)
    case CursorBeyondDelivered =>
      && Addressed(s, request) && Acknowledgeable(s, id)
      && request.cursor in s.signals[id].drain && request.cursor !in s.signals[id].delivered
    case CursorNotMember =>
      Addressed(s, request) && Acknowledgeable(s, id) && request.cursor !in s.signals[id].drain
    case StaleCursor =>
      && Addressed(s, request) && Acknowledgeable(s, id)
      && request.cursor in s.signals[id].delivered && !Reaches(s.signals[id], request.cursor)
  }

  // ----- decisions -----

  lemma ReachesMeans(b: Batch, cursor: Id)
    requires GoodBatch(b) && cursor in b.delivered
    ensures Reaches(b, cursor) <==>
              (b.handled.Some? ==>
                 Position(b.delivered, b.handled.value).value <= Position(b.delivered, cursor).value)
  {
    var q := Position(b.delivered, cursor).value;
    if b.handled.Some? {
      var h := Position(b.delivered, b.handled.value).value;
      if h <= q {
        assert b.delivered[..q + 1][h] == b.handled.value;
      }
    }
    if Reaches(b, cursor) {
      var p :| && 0 <= p < |b.delivered| && b.delivered[p] == cursor
               && (b.handled.Some? ==> b.handled.value in b.delivered[..p + 1]);
      assert p == q;
    }
    hide Distinct;
  }

  lemma DrainedMeans(b: Batch, cursor: Id)
    requires GoodBatch(b)
    ensures cursor in b.afterBound <==> cursor in b.drain && cursor !in b.delivered
  {
    var n := |b.delivered|;
    assert b.drain == b.delivered + b.afterBound;
    forall i, j | 0 <= i < n && 0 <= j < |b.afterBound| ensures b.delivered[i] != b.afterBound[j] {
      assert b.drain[i] != b.drain[n + j];
    }
  }

  /** What the shape says of the batch a request names. */
  lemma NamedBatch(s: Store, g0: nat, id: Id, cursor: Id)
    requires Shape(s, g0) && id in s.signals
    ensures var b := s.signals[id];
            && (IsOpen(s, id) <==> b.generation == s.arm.value.generation)
            && (b.closed <==> !IsOpen(s, id))
            && (cursor in b.afterBound <==> cursor in b.drain && cursor !in b.delivered)
            && (cursor in b.delivered ==> cursor in b.drain) && (Reaches(b, cursor) ==> cursor in b.delivered)
            && (b.handled.Some? ==> b.handled.value in b.delivered)
            && (cursor in b.delivered ==>
                  (Reaches(b, cursor) <==>
                     (b.handled.Some? ==>
                        Position(b.delivered, b.handled.value).value <= Position(b.delivered, cursor).value)))
  {
    var b := s.signals[id];
    assert FitsBatch(s, g0, b);
    DrainedMeans(b, cursor);
    if cursor in b.delivered {
      ReachesMeans(b, cursor);
    }
  }

  /** One code at most explains a refusal, and none explains what is acceptable. */
  lemma OneExplanation(s: Store, request: HandledCursor, code: AckCode, other: AckCode)
    requires s.arm.Some? && request.Request? && Explains(s, request, code)
    requires request.signalId in s.signals && request.cursor in s.signals[request.signalId].delivered ==>
               request.cursor in s.signals[request.signalId].drain
    ensures Explains(s, request, other) ==> other == code
  {
    hide Reaches;
  }

  lemma ExplainedIsRefused(s: Store, request: HandledCursor, code: AckCode)
    requires s.arm.Some? && request.Request? && Explains(s, request, code)
    requires request.signalId in s.signals && Reaches(s.signals[request.signalId], request.cursor) ==>
               request.cursor in s.signals[request.signalId].delivered
    requires request.signalId in s.signals && request.cursor in s.signals[request.signalId].delivered ==>
               request.cursor in s.signals[request.signalId].drain
    ensures !IsAcceptable(s, request)
  {
    hide Reaches;
  }

  /** A refusal made before the cursor is looked at. */
  lemma EarlyRefusal(s: Store, g0: nat, request: HandledCursor)
    requires Shape(s, g0) && request.Request?
    requires !(Addressed(s, request) && Acknowledgeable(s, request.signalId))
    ensures Refusal(s, request).Some? && Explains(s, request, Refusal(s, request).value)
  {
    assert s.arm.Some?;
    hide Shape, Reaches;
    if request.signalId in s.signals {
      NamedBatch(s, g0, request.signalId, request.cursor);
    }
  }

  /** What is decided by the cursor alone. */
  lemma LateRefusal(s: Store, request: HandledCursor)
    requires s.arm.Some? && request.Request? && Addressed(s, request) && Acknowledgeable(s, request.signalId)
    requires !s.signals[request.signalId].closed
    ensures var b := s.signals[request.signalId];
            var cursor := request.cursor;
            Refusal(s, request) ==
              if cursor in b.afterBound then Some(CursorBeyondDelivered)
              else if cursor !in b.delivered then Some(CursorNotMember)
              else if b.handled.Some? && b.handled.value in b.delivered
                      && Position(b.delivered, cursor).value < Position(b.delivered, b.handled.value).value
              then Some(StaleCursor) else None
  {
  }

  lemma RefusalExplained(s: Store, g0: nat, request: HandledCursor)
    requires Shape(s, g0) && request.Request?
    ensures Refusal(s, request).None? ==> IsAcceptable(s, request)
    ensures Refusal(s, request).Some? ==> Explains(s, request, Refusal(s, request).value)
  {
    assert s.arm.Some?;
    hide Shape, Reaches, Position, Refusal, Addressed, IsOpen;
    if Addressed(s, request) && Acknowledgeable(s, request.signalId) {
      NamedBatch(s, g0, request.signalId, request.cursor);
      LateRefusal(s, request);
    } else {
      hide *;
      EarlyRefusal(s, g0, request);
    }
  }

  lemma RefusalIsExact(s: Store, g0: nat, request: HandledCursor)
    requires Shape(s, g0) && request.Request?
    ensures Refusal(s, request).None? <==> IsAcceptable(s, request)
    ensures forall code :: Refusal(s, request) == Some(code) <==> Explains(s, request, code)
  {
    RefusalExplained(s, g0, request);
    assert s.arm.Some?;
    hide Shape, Refusal, Explains, Reaches, IsAcceptable, Position;
    if request.signalId in s.signals {
      NamedBatch(s, g0, request.signalId, request.cursor);
    }
    forall code | Explains(s, request, code) ensures Refusal(s, request) == Some(code) {
      var found := Refusal(s, request);
      OneExplanation(s, request, code, if found.Some? then found.value else code);
      ExplainedIsRefused(s, request, code);
    }
    if Refusal(s, request).Some? {
      ExplainedIsRefused(s, request, Refusal(s, request).value);
    }
  }

  /** Main result: a new valid request is accepted exactly when it is for this arm, seat and
      generation, its signal is open, delivered and not held, and its cursor is delivered
      and not before what is handled; it then becomes what is handled. Otherwise the reply
      is the one code that explains it, and only the history grows. */
  lemma AnswerIsExact(s: Store, g0: nat, request: HandledCursor, now: Time)
    requires Shape(s, g0) && ValidHandled(request) && request.Request?
    requires request.requestId !in s.history && |s.history| < HISTORY_CAP
    ensures var (t, r) := RecordHandled(s, request, now);
            && r.Ok? && t.arm == s.arm && t.history == s.history[request.requestId := Entry(request, r.value)]
            && (if IsAcceptable(s, request) then
                  && r.value == Accepted(request.requestId, request.armId, request.generation, request.signalId,
                                         request.cursor, Some(now))
                  && var b := s.signals[request.signalId];
                     t.signals == s.signals[request.signalId := b.(handled := Some(request.cursor))]
                else
                  && t.signals == s.signals
                  && forall code ::
                       r.value == Rejected(request.requestId, code, Some(now)) <==> Explains(s, request, code))
            && (r.value.Accepted? <==> IsAcceptable(s, request))
  {
    RefusalIsExact(s, g0, request);
    hide Refusal, Shape, IsAcceptable, Explains, ValidHandled;
  }

  /** When there is no new decision: a malformed message, another family member, a replay,
      a request id used for something else, a full history. */
  lemma NoDecision(s: Store, request: HandledCursor, now: Time)
    ensures var r := RecordHandled(s, request, now).1;
            && (r == Err(Invalid) <==> !ValidHandled(request))
            && (r == Err(ExpectedRequest) <==> ValidHandled(request) && !request.Request?)
            && (r == Err(RequestIdConflict) <==>
                  && ValidHandled(request) && request.Request? && request.requestId in s.history
                  && s.history[request.requestId].request != request)
            && (r == Err(HistoryFull) <==>
                  && ValidHandled(request) && request.Request? && request.requestId !in s.history
                  && |s.history| >= HISTORY_CAP)
            && (r.Err? ==> RecordHandled(s, request, now).0 == s
                           && r.error in {Invalid, ExpectedRequest, RequestIdConflict, HistoryFull})
  {
    hide ValidHandled;
  }

  // ----- notes -----

  /** A delivery is noted exactly when its refs are a leading part of a duplicate-free drain,
      nothing else is open, and its signal is new or open and not noted otherwise. */
  lemma DeliveryIsNoted(s: Store, g0: nat, id: Id, refs: seq<Id>, drain: seq<Id>)
    requires Shape(s, g0)
    ensures var (t, r) := NoteDelivered(s, id, refs, drain);
            && (r.Ok? <==>
                  && refs != [] && Distinct(drain) && refs <= drain
                  && (forall o | o in s.signals && IsOpen(s, o) :: o == id)
                  && (id in s.signals ==>
                        && IsOpen(s, id)
                        && var b := s.signals[id];
                           b.delivered == [] || (b.delivered == refs && b.drain == drain)))
            && (r.Err? ==> t == s)
            && (r.Ok? ==>
                  && id in t.signals && IsOpen(t, id)
                  && t.signals[id].delivered == refs && t.signals[id].drain == drain
                  && t == s.(signals := s.signals[id := t.signals[id]])
                  && (id in s.signals ==>
                        && var b := s.signals[id];
                           t.signals[id] == b.(delivered := refs, drain := drain, afterBound := drain[|refs|..])))
  {
    if id in s.signals {
      assert FitsBatch(s, g0, s.signals[id]);
    }
    hide Shape;
    if refs <= drain && Distinct(drain) {
      assert Distinct(refs);
    }
  }

  /** A claim is noted exactly when nothing else is open and its signal is new, or open and
      not delivered. */
  lemma ClaimIsNoted(s: Store, g0: nat, id: Id)
    requires Shape(s, g0)
    ensures var (t, r) := NoteClaimed(s, id);
            && (r.Ok? <==>
                  && (forall o | o in s.signals && IsOpen(s, o) :: o == id)
                  && (id in s.signals ==> IsOpen(s, id) && s.signals[id].delivered == []))
            && (r.Ok? ==> && IsOpen(t, id) && t.signals[id].delivered == []
                          && t == s.(signals := s.signals[id := t.signals[id]])
                          && (id in s.signals ==> t == s))
  {
    if id in s.signals {
      NamedBatch(s, g0, id, "");
      assert FitsBatch(s, g0, s.signals[id]);
    }
    hide Shape, GoodBatch;
  }

  /** A hold is placed exactly on a signal with nothing handled. */
  lemma HoldIsPlaced(s: Store, g0: nat, id: Id)
    requires Shape(s, g0)
    ensures var (t, r) := RequireReturn(s, id);
            && (r.Ok? <==> id in s.signals && s.signals[id].handled.None?)
            && (r.Ok? ==> t == s.(signals := s.signals[id := s.signals[id].(requireReturn := true)]))
  {
    if id in s.signals {
      assert GoodBatch(s.signals[id]);
    }
  }

  /** A confirmed receipt ends the hold of exactly its own signal, once that was delivered. */
  lemma ReturnEndsHold(s: Store, id: Id, o: Id)
    ensures NoteReturn(s, id).1.Ok? <==> id in s.signals && s.signals[id].delivered != []
    ensures HeldForReturn(NoteReturn(s, id).0, o) <==>
              HeldForReturn(s, o) && !(o == id && s.signals[id].delivered != [])
    ensures id in s.signals ==>
              NoteReturn(s, id).0.signals[id]
              == s.signals[id].(returnCompleted := s.signals[id].returnCompleted
                                                   || (s.signals[id].requireReturn && s.signals[id].delivered != []))
  {
  }
}
