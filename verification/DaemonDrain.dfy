/** The daemon with the provider drain it really uses, and the pages that drain accepts but
    no waiter can be sent. */
module DaemonDrain {
  import opened Prelude
  import opened Messages
  import opened Sanitize
  import opened SanitizeProofs
  import opened WaitOn
  import opened WaitOnProofs
  import opened Daemon
  import opened DaemonInv
  import opened DaemonSteps
  import opened DaemonCoverage
  import opened DaemonAccept
  import opened DaemonTheorems
  import opened DaemonLaws
  import opened DaemonLinks
  import opened Codec
  import Ack
  import AckRuns
  import Admit
  import Deliver
  import Pipe

  // ----- what the drain can answer -----

  /** After a matched wait, the page of the real drain becomes a claim whenever it answers:
      the gate in front of the claim never refuses an event it accepted. */
  lemma GateAgrees(page: Option<seq<RawMessage>>, segment: string -> seq<string>)
    requires IsSegmenter(segment)
    ensures Claims(Matched, Parse(page, segment)) <==> Parse(page, segment).Ok?
  {
    if Parse(page, segment).Ok? {
      AcceptedPagesPassTheGate(page, segment);
    }
    hide Parse;
  }

  /** A body as it may be shown: at most 4096 scalars and as many bytes, and of the controls
      only tab and line feed. */
  ghost predicate MayShow(body: string) {
    && |body| <= 4096 && Bytes(body) <= 4096
    && forall i :: 0 <= i < |body| ==>
         0x20 <= body[i] as int < 0x7F || 0xA0 <= body[i] as int || body[i] in {'\t', '\n'}
  }

  /** A receipt of loss counts the bytes shown, and the body says at its end that it is partial. */
  ghost predicate OwnsUp(body: string, loss: Option<LocalBodyLoss>) {
    loss.Some? ==>
      loss.value.displayedBytes == Bytes(body) && exists rest :: body == rest + "Partial body; full post at source."
  }

  lemma ShowsWhenGated(event: DrainedEvent)
    ensures IsDisplayableEvent(event) <==> MayShow(event.message) && OwnsUp(event.message, event.localLoss)
  {
    var body := event.message;
    assert forall i :: 0 <= i < |body| ==>
             (!IsDisallowed(body[i]) <==>
                0x20 <= body[i] as int < 0x7F || 0xA0 <= body[i] as int || body[i] in {'\t', '\n'});
    if EndsWith(body, Advisory()) {
      assert body == body[..|body| - |Advisory()|] + Advisory();
    }
    hide Bytes;
  }

  /** What a waiter is told of a drained event: where it comes from, its own id and body, its
      author if there is one, and when it was drained. */
  predicate Carries(told: ProviderEvent, event: DrainedEvent, now: Time) {
    && told.provider == "mattermost" && told.eventRef == event.id && told.body == event.message
    && told.actor == (if event.username != "" then Some(event.username) else None) && told.observedAt == Some(now)
  }

  /** Main result: a page becomes a claim exactly when its interval matched, the drain answered
      with at least one event, and every event may be shown and owns up to what it lost. The
      claim then carries the page, event by event. */
  lemma GateIsExact(wait: WaitResult, answer: Result<seq<DrainedEvent>, DrainError>, arm: KnownArm, id: Id, now: Time)
    ensures Claims(wait, answer) <==>
              && wait == Matched && answer.Ok? && |answer.value| > 0
              && forall i :: 0 <= i < |answer.value| ==>
                   MayShow(answer.value[i].message) && OwnsUp(answer.value[i].message, answer.value[i].localLoss)
    ensures answer.Ok? ==>
              var claim := NewClaim(arm, id, answer.value, now);
              && claim.armId == arm.armId && claim.generation == arm.generation && claim.signalId == id
              && |claim.events| == |claim.eventRefs| == |answer.value|
              && forall i :: 0 <= i < |answer.value| ==>
                   Carries(claim.events[i], answer.value[i], now) && claim.eventRefs[i] == answer.value[i].id
  {
    if answer.Ok? {
      forall i | 0 <= i < |answer.value|
        ensures IsDisplayableEvent(answer.value[i]) <==>
                  MayShow(answer.value[i].message) && OwnsUp(answer.value[i].message, answer.value[i].localLoss)
      {
        ShowsWhenGated(answer.value[i]);
      }
      var page := answer.value;
      assert Refs(Pipe.ProviderEvents(page, now)) == Ids(page);
    }
    hide IsDisplayableEvent, MayShow, OwnsUp;
  }

  /** After an acknowledgement the real drain never answers "nothing left": with no events
      after the cursor the daemon halts, where an empty answer would have resumed the wait. */
  lemma EmptyHistoryHalts(s: Sys, killOk: bool, drain: Drain, spawnOk: bool, page: Option<seq<RawMessage>>,
                          segment: string -> seq<string>)
    requires IsSegmenter(segment) && s.main.Draining?
    requires Answer(s.log, s.after, drain) == Parse(page, segment)
    ensures var t := DoDrain(s, killOk, drain, spawnOk);
            && !t.main.Head?
            && (killOk && Parse(page, segment).Ok? ==> t.main.Claiming? && Claims(Matched, Ok(t.main.page)))
            && (page == Some([]) ==> t.main == Halted(2))
  {
    NoEmptyPage(page, segment);
    GateAgrees(page, segment);
    hide Parse, Answer;
  }

  // ----- pages no waiter can be sent -----

  predicate HasSpace(s: string) {
    exists i :: 0 <= i < |s| && s[i] == ' '
  }

  lemma TokenOfPasteSafe(s: string)
    requires IsPasteSafe(s, MAX_ID)
    ensures IsToken(s) <==> !HasSpace(s)
  {
    BytesAtLeast(s);
  }

  lemma BodyOfDisplayable(body: string)
    requires IsDisplayable(body)
    ensures IsBody(body)
  {
    forall i | 0 <= i < |body| ensures !IsForbiddenInBody(body[i]) {
      assert !IsDisallowed(body[i]);
    }
  }

  lemma EventOfPage(event: DrainedEvent, now: Time)
    requires IsDisplayableEvent(event) && IsPasteSafe(event.id, MAX_ID)
    requires event.username == "" || IsPasteSafe(event.username, MAX_ID)
    ensures IsEvent(Pipe.ProviderEvents([event], now)[0]) <==> !HasSpace(event.id) && !HasSpace(event.username)
  {
    BodyOfDisplayable(event.message);
    TokenOfPasteSafe(event.id);
    if event.username != "" {
      TokenOfPasteSafe(event.username);
    }
    ProviderName();
    hide IsPasteSafe, IsDisplayableEvent, IsBody, IsToken;
  }

  lemma ProviderName()
    ensures IsToken("mattermost")
  {
  }

  /** What a caller can check of a page before it is claimed under `arm` at `now`. */
  predicate IsSendable(page: seq<DrainedEvent>, now: Time, arm: KnownArm) {
    && |page| <= MAX_EVENTS
    && (forall i :: 0 <= i < |page| ==> !HasSpace(page[i].id) && !HasSpace(page[i].username))
    && IsAttachedRoute(arm.route) && arm.generation >= 1
    && LeastBytes(Pipe.ProviderEvents(page, now), arm.route, arm.generation) <= MAX_PAYLOAD
  }

  /** Of the pages the drain accepts, those a waiter can be sent are exactly the ones of at
      most 64 events, without a space in an id or a user name, whose payload fits. */
  lemma SendablePages(page: Option<seq<RawMessage>>, segment: string -> seq<string>, now: Time, arm: KnownArm)
    requires IsSegmenter(segment) && Parse(page, segment).Ok?
    ensures Sendable(Pipe.ProviderEvents(Parse(page, segment).value, now), arm.route, arm.generation)
            <==> IsSendable(Parse(page, segment).value, now, arm)
  {
    hide Parse, IsSegmenter, AreEvents, HasSpace, LeastBytes;
    ValidPages(page, segment, now);
  }

  /** What the wire's own validation asks of an accepted page. */
  lemma ValidPages(page: Option<seq<RawMessage>>, segment: string -> seq<string>, now: Time)
    requires IsSegmenter(segment) && Parse(page, segment).Ok?
    ensures var drained := Parse(page, segment).value;
            AreEvents(Pipe.ProviderEvents(drained, now), LastRef(Pipe.ProviderEvents(drained, now)))
            <==> |drained| <= MAX_EVENTS
                 && forall i :: 0 <= i < |drained| ==> !HasSpace(drained[i].id) && !HasSpace(drained[i].username)
  {
    AcceptedPagesPassTheGate(page, segment);
    var drained := Parse(page, segment).value;
    var events := Pipe.ProviderEvents(drained, now);
    hide Parse, IsDisplayableEvent, IsPasteSafe, HasSpace, IsToken, IsEvent;
    forall i | 0 <= i < |drained|
      ensures IsEvent(events[i]) <==> !HasSpace(drained[i].id) && !HasSpace(drained[i].username)
    {
      EventOfPage(drained[i], now);
      assert Pipe.ProviderEvents([drained[i]], now)[0] == events[i];
    }
    EventsHaveTokens(events);
  }

  lemma EventsHaveTokens(events: seq<ProviderEvent>)
    requires events != []
    ensures IsEvent(events[|events| - 1]) ==> IsToken(LastRef(events))
  {
    hide IsToken;
  }

  function FullPage(): (page: seq<DrainedEvent>)
    ensures |page| == MAX_EVENTS
  {
    seq(MAX_EVENTS, i requires 0 <= i < MAX_EVENTS =>
      DrainedEvent([(48 + i) as char], "seat", Repeat('x', MAX_BODY), None))
  }

  /** Sixty-four plain bodies of full length: the page passes the gate, its ids are distinct
      and free of spaces, and yet it fits no frame. */
  lemma FullPageIsTooLarge(now: Time, arm: KnownArm)
    ensures Pipe.AllDisplayable(FullPage()) && Distinct(Ids(FullPage()))
    ensures forall i | 0 <= i < MAX_EVENTS ::
              IsPasteSafe(FullPage()[i].id, MAX_ID) && !HasSpace(FullPage()[i].id) && !HasSpace(FullPage()[i].username)
    ensures AreEvents(Pipe.ProviderEvents(FullPage(), now), LastRef(Pipe.ProviderEvents(FullPage(), now)))
    ensures !Sendable(Pipe.ProviderEvents(FullPage(), now), arm.route, arm.generation)
  {
    var page := FullPage();
    var events := Pipe.ProviderEvents(page, now);
    var body := Repeat('x', MAX_BODY);
    AsciiBytes(body);
    TextAtLeast(body);
    ProviderName();
    hide Bytes, TextBytes, IsToken;
    forall i | 0 <= i < MAX_EVENTS
      ensures IsPasteSafe(page[i].id, MAX_ID) && !HasSpace(page[i].id) && !HasSpace(page[i].username)
      ensures IsEvent(events[i]) && IsToken(page[i].id) && IsDisplayableEvent(page[i])
    {
      ShortToken(page[i].id);
      SeatToken();
    }
    hide IsEvent, IsDisplayableEvent, Repeat, IsPasteSafe, HasSpace;
    assert Distinct(Ids(page));
    assert |events| * MAX_BODY >= MAX_PAYLOAD;
    FullBodiesDoNotFit(events, arm.route, arm.generation);
  }

  lemma ShortToken(s: string)
    requires |s| == 1 && '0' <= s[0] <= 'o'
    ensures IsPasteSafe(s, MAX_ID) && !HasSpace(s) && IsToken(s)
  {
    AsciiBytes(s);
  }

  lemma SeatToken()
    ensures IsToken("seat") && !HasSpace("seat")
  {
  }

  /** The link and the ids of a delivery are well formed. */
  predicate CanCarry(link: Admit.AdmittedLink, signalId: Id, mint: Id) {
    && IsUlid(mint) && IsUlid(link.linkId) && IsUlid(link.armId) && link.generation >= 1
    && IsUlid(signalId) && IsAttachedRoute(link.route)
  }

  /** The claim's signal is open in the store, alone, and not delivered. */
  ghost predicate Registered(acks: Ack.Store, claim: Pipe.SignalClaim) {
    && Ack.IsOpen(acks, claim.signalId) && !Ack.OtherOpen(acks, claim.signalId)
    && claim.eventRefs == Refs(claim.events)
    && var b := acks.signals[claim.signalId];
       b.armId == acks.arm.value.armId && b.delivered == [] && b.handled.None?
  }

  /** The store with the claim's batch delivered, whole. */
  function Delivered(acks: Ack.Store, claim: Pipe.SignalClaim): Ack.Store
    requires claim.signalId in acks.signals
  {
    var b := acks.signals[claim.signalId];
    var c := b.(delivered := claim.eventRefs, drain := claim.eventRefs, afterBound := []);
    acks.(signals := acks.signals[claim.signalId := c])
  }

  lemma RegisteredIsNoted(acks: Ack.Store, claim: Pipe.SignalClaim)
    requires Registered(acks, claim) && claim.eventRefs != [] && Distinct(claim.eventRefs)
    ensures Ack.NoteDelivered(acks, claim.signalId, Refs(claim.events), claim.eventRefs)
         == (Delivered(acks, claim), Ok(()))
  {
    assert claim.eventRefs[|claim.eventRefs|..] == [];
    hide Distinct;
  }

  /** The first delivery of a claim over a live link is written exactly when the claim's
      events are valid, the payload of just this attempt fits, and the waiter takes it. Then it
      awaits its result, the link stays, and the whole batch counts as delivered. An invalid
      batch leaves no trace; one not written stays pending, and the link is revoked. */
  lemma FirstFlush(link: Admit.AdmittedLink, pipe: Pipe.Value, acks: Ack.Store, now: Time, sendOk: bool, mint: Id)
    requires pipe.claim.Some? && pipe.ledger.None? && !pipe.attempted && now < link.leaseUntil
    requires CanCarry(link, pipe.claim.value.signalId, mint)
    ensures var claim := pipe.claim.value;
            var flushed := Pipe.Flush(Some(link), pipe, acks, now, Pipe.Io(sendOk, None), mint);
            if !AreEvents(claim.events, LastRef(claim.events)) then flushed == (pipe, acks, false, None)
            else
              var message := Deliver.NewMessage(link, claim.signalId, claim.events, now, mint);
              var pending := pipe.(ledger := Some(Deliver.Pending(mint, link.linkId, message, Deliver.Awaiting)));
              if !sendOk || !Fits(message) then flushed == (pending, acks, true, None)
              else
                && flushed.3 == Some(message) && flushed.0 == pending.(attempted := !flushed.2)
                && (Registered(acks, claim) ==> !flushed.2 && flushed.1 == Delivered(acks, claim))
  {
    hide IsUlid, IsAttachedRoute, IsEvent, Ack.NoteDelivered, Distinct, PayloadBytes, Delivered, IsToken;
    var claim := pipe.claim.value;
    if AreEvents(claim.events, LastRef(claim.events)) && Registered(acks, claim) {
      assert |claim.eventRefs| == |claim.events|;
      RegisteredIsNoted(acks, claim);
    }
    hide Registered;
  }

  /** Sendable events are written by the first attempt that falls on a whole second. */
  lemma SendableIsSent(link: Admit.AdmittedLink, pipe: Pipe.Value, acks: Ack.Store, now: Time, mint: Id)
    requires pipe.claim.Some? && pipe.ledger.None? && !pipe.attempted && now < link.leaseUntil
    requires CanCarry(link, pipe.claim.value.signalId, mint) && now % SECOND == 0
    requires Sendable(pipe.claim.value.events, link.route, link.generation)
    ensures Pipe.Flush(Some(link), pipe, acks, now, Pipe.Io(true, None), mint).3.Some?
  {
    var claim := pipe.claim.value;
    hide Pipe.Flush, IsUlid, IsEvent, Distinct, PayloadBytes, LeastBytes, IsToken;
    FirstFlush(link, pipe, acks, now, true, mint);
    PayloadOfValid(Deliver.NewMessage(link, claim.signalId, claim.events, now, mint));
  }

  /** Over any link of these coordinates, events that are not sendable are not written and
      nothing is noted as delivered, whatever is pending. */
  lemma NoFlush(link: Option<Admit.AdmittedLink>, pipe: Pipe.Value, acks: Ack.Store, now: Time, sendOk: bool, mint: Id,
                arm: KnownArm)
    requires pipe.claim.Some? && LedgerOf(pipe.claim, pipe.ledger)
    requires link.Some? ==> link.value.route == arm.route && link.value.generation == arm.generation
    requires !Sendable(pipe.claim.value.events, arm.route, arm.generation)
    ensures var (next, acks', _, sent) := Pipe.Flush(link, pipe, acks, now, Pipe.Io(sendOk, None), mint);
            next.claim == pipe.claim && acks' == acks && sent.None?
  {
    hide Sendable, Fits, Ack.NoteDelivered, Pipe.NextMessage, ValidLink, LedgerOf, Pipe.DeliverClaimed;
    if link.Some? && !(pipe.ledger.Some? && pipe.ledger.value.attempt.Terminal?) {
      var made := Pipe.NextMessage(pipe.ledger, pipe.claim.value, link.value, now, mint).1;
      NextIsValid(pipe.ledger, pipe.claim.value, link.value, now, mint);
      if made.Ok? {
        TooLarge(made.value);
      }
      NotDelivered(pipe.claim.value, link.value, pipe, acks, now, sendOk, mint);
    }
  }

  lemma NotDelivered(live: Pipe.SignalClaim, link: Admit.AdmittedLink, pipe: Pipe.Value, acks: Ack.Store, now: Time,
                     sendOk: bool, mint: Id)
    requires var made := Pipe.NextMessage(pipe.ledger, live, link, now, mint).1;
             made.Ok? ==> made.value.DeliverEvents? && !Fits(made.value)
    ensures var d := Pipe.DeliverClaimed(live, Some(link), pipe, acks, now, Some(Pipe.Io(sendOk, None)),
                                         Pipe.Pause, mint);
            d.pipe.claim == pipe.claim && d.acks == acks && d.sent.None?
  {
    hide Fits, Pipe.NextMessage, Pipe.AfterSend;
  }

  lemma NextIsValid(ledger: Deliver.Ledger, live: Pipe.SignalClaim, link: Admit.AdmittedLink, now: Time, mint: Id)
    requires LedgerOf(Some(live), ledger)
    ensures var made := Pipe.NextMessage(ledger, live, link, now, mint).1;
            made.Ok? && !(ledger.Some? && ledger.value.attempt.Terminal?) ==>
              && made.value.DeliverEvents? && ValidLink(made.value) && made.value.events == live.events
              && made.value.route == link.route && made.value.generation == link.generation
  {
    hide ValidLink;
  }

  lemma TooLarge(message: WaiterLink)
    requires message.DeliverEvents? && ValidLink(message)
    ensures Fits(message) ==> Sendable(message.events, message.route, message.generation)
  {
    if Fits(message) {
      SendableMeans(message.events, message.route, message.generation);
    }
    hide PayloadBytes;
  }

  // ----- such a page stops the daemon's progress -----

  /** A claim that cannot be delivered under the arm, never delivered and not acknowledged. */
  ghost predicate Stuck(s: Sys) {
    && s.pipe.claim.Some?
    && !Sendable(s.pipe.claim.value.events, s.arm.route, s.arm.generation)
    && s.pipe.claim.value.signalId in s.tally.store.signals
    && s.tally.store.signals[s.pipe.claim.value.signalId].delivered == []
    && s.tally.store.arm.Some? && s.tally.store.arm.value.generation == s.arm.generation
  }

  /** Nothing the daemon is for moves: the claim, the cursor, the frames, the rearms. */
  ghost predicate NoProgress(s: Sys, t: Sys) {
    && t.pipe.claim == s.pipe.claim && t.after == s.after && t.frames == s.frames && t.arm == s.arm
    && t.tally.rearms == s.tally.rearms
  }

  lemma StuckAck(s: Sys, base: Id, g0: nat, request: HandledCursor, now: Time)
    requires Inv(s, base, g0) && Stuck(s)
    ensures Stuck(DoAck(s, request, now)) && NoProgress(s, DoAck(s, request, now))
  {
    hide Inv, Agreement, LogSide, LinkSide, MainSide, DeliverySide, HoldSide, Sendable;
    if s.accept.Idle? {
      var u := AckRuns.Count(s.tally, AckRuns.Handle(request, now));
      Parts(s, base, g0);
      hide AckSide, AckRuns.Count;
      AckTally(s.tally, s.arm, g0, request, now);
      NothingToClose(s.pipe.claim, s.arm, s.tally, u, g0);
    }
  }

  /** A signal that was never delivered cannot be closed, and it is the only open one. */
  lemma NothingToClose(claim: Option<Pipe.SignalClaim>, arm: KnownArm, tally: AckRuns.Tally, u: AckRuns.Tally, g0: nat)
    requires AckSide(tally, arm, g0) && AckSide(u, arm, g0) && AckMoves(tally, u)
    requires claim.Some? && ClaimSide(claim, arm, tally.store)
    requires tally.store.arm.value.generation == arm.generation
    requires tally.store.signals[claim.value.signalId].delivered == []
    ensures u.rearms == tally.rearms && u.store.arm == tally.store.arm
    ensures claim.value.signalId in u.store.signals && u.store.signals[claim.value.signalId].delivered == []
  {
    hide AckRuns.Announces, AckRuns.GoodEntry;
    ClosedWasDelivered(tally, u, g0);
  }

  /** An acknowledgement that closes a signal found it delivered. */
  lemma ClosedWasDelivered(tally: AckRuns.Tally, u: AckRuns.Tally, g0: nat)
    requires AckRuns.Tallied(tally, g0) && AckRuns.Tallied(u, g0) && AckMoves(tally, u)
    ensures u.rearms != tally.rearms ==>
              exists id :: id in tally.store.signals && tally.store.signals[id].delivered != []
                           && tally.store.signals[id].generation == tally.store.arm.value.generation
  {
    hide AckRuns.Tallied;
    TalliedShape(tally, g0);
    TalliedShape(u, g0);
    if u.rearms != tally.rearms {
      var n := |tally.rearms|;
      assert AckRuns.Announces(u.store, u.rearms[n], g0 + n);
      var id := u.rearms[n].signalId;
      assert AckRuns.FitsBatch(u.store, g0, u.store.signals[id]);
      assert tally.store.signals[id].delivered != [];
    }
  }

  lemma StuckFlush(s: Sys, base: Id, g0: nat, now: Time, sendOk: bool, mint: Id)
    requires Inv(s, base, g0) && LinksCurrent(s) && Stuck(s)
    ensures Stuck(DoFlush(s, now, sendOk, mint)) && NoProgress(s, DoFlush(s, now, sendOk, mint))
  {
    hide Inv, AckSide, Agreement, ClaimSide, LogSide, LinkSide, MainSide, DeliverySide, HoldSide, Sendable;
    if s.main.FlushWith? {
      Parts(s, base, g0);
      OwnLedger(s.pipe, s.frames, s.arm.generation);
      NoFlush(s.main.link, s.pipe, s.tally.store, now, sendOk, mint, s.arm);
      hide Pipe.Flush, LedgerOf;
    }
  }

  /** A result, forged or not, confirms no receipt of a batch that was never delivered. */
  lemma StuckPoll(s: Sys, base: Id, g0: nat, result: WaiterLink)
    requires Inv(s, base, g0) && Stuck(s)
    ensures Stuck(DoPollResult(s, result)) && NoProgress(s, DoPollResult(s, result))
  {
    hide Inv, AckSide, Agreement, ClaimSide, LogSide, LinkSide, MainSide, DeliverySide, HoldSide, Sendable;
    if s.main.Head? && s.served.Some? {
      Parts(s, base, g0);
      OwnLedger(s.pipe, s.frames, s.arm.generation);
      ApplyEffect(s.pipe, s.tally.store, result);
      hide Pipe.ApplyVisible, LedgerOf, LedgerKeeps;
    }
  }

  /** Only the ledger, the link table, the accept thread or the main thread's place changed. */
  lemma StuckStays(s: Sys, t: Sys)
    requires Stuck(s)
    requires t.pipe.claim == s.pipe.claim && t.tally == s.tally
    requires t.arm == s.arm && t.after == s.after && t.frames == s.frames
    ensures Stuck(t) && NoProgress(s, t)
  {
    hide Sendable;
  }

  lemma StuckLoss(s: Sys, base: Id, a: Action)
    requires Stuck(s) && (a.Adopt? || a.Revoke?)
    ensures Stuck(Do(s, base, a)) && NoProgress(s, Do(s, base, a))
  {
    hide Stuck, NoProgress, Deliver.RecordResult, Admit.DropSession;
    StuckStays(s, Do(s, base, a));
  }

  /** While a claim is live the main thread neither ingests nor restarts coverage, and no
      rearm is on its way to a claim that is not acknowledged. */
  lemma StuckMain(s: Sys, base: Id, g0: nat)
    requires Inv(s, base, g0) && Stuck(s)
    ensures !s.main.Ingesting? && !s.main.Claiming?
    ensures s.main.Head? && s.channel != [] ==> s.channel[0].Attached?
  {
    hide Inv, AckSide, ClaimSide, LogSide, LinkSide, DeliverySide, HoldSide, PendingRearms;
    Parts(s, base, g0);
    if s.channel != [] && s.channel[0].CoverageRearm? {
      HeadPending(s);
    }
  }

  lemma StuckOthers(s: Sys, base: Id, g0: nat, a: Action)
    requires Inv(s, base, g0) && Stuck(s)
    requires !a.AckArrives? && !a.FlushNow? && !a.PollResult? && !a.Adopt? && !a.Revoke?
    ensures Stuck(Do(s, base, a)) && NoProgress(s, Do(s, base, a))
  {
    hide Inv, Stuck, NoProgress;
    StuckMain(s, base, g0);
    OthersStay(s, base, a);
    hide Do;
    StuckStays(s, Do(s, base, a));
  }

  lemma OthersStay(s: Sys, base: Id, a: Action)
    requires !s.main.Ingesting? && !s.main.Claiming?
    requires s.main.Head? && s.channel != [] ==> s.channel[0].Attached?
    requires !a.AckArrives? && !a.FlushNow? && !a.PollResult? && !a.Adopt? && !a.Revoke?
    ensures var t := Do(s, base, a);
            && t.pipe == s.pipe && t.tally == s.tally && t.arm == s.arm && t.after == s.after && t.frames == s.frames
  {
    hide Admit.Prepare, Admit.CommitPrepared, Answer, Pipe.RevokeOlder, DoAck, DoFlush, DoPollResult,
         DoAdopt, DoRevoke, Ingested, Pipe.TakeRearm, Pipe.RetainLive;
  }

  lemma StuckStep(s: Sys, base: Id, g0: nat, a: Action)
    requires Inv(s, base, g0) && LinksCurrent(s) && Stuck(s)
    ensures Stuck(Do(s, base, a)) && NoProgress(s, Do(s, base, a))
  {
    hide Inv, LinksCurrent, Stuck, NoProgress, DoAck, DoFlush, DoPollResult, DoAppend, DoRecv, DoAdopt, DoRevoke,
         DoChildExit, DoIngest, DoRevokeOld, DoDrain, DoClaim, DoAttachArrives, DoPrepare, DoCommit, DoSend, HaltWith;
    match a
    case AckArrives(request, now) => StuckAck(s, base, g0, request, now);
    case FlushNow(now, sendOk, mint) => StuckFlush(s, base, g0, now, sendOk, mint);
    case PollResult(result) => StuckPoll(s, base, g0, result);
    case Adopt(_, _) => StuckLoss(s, base, a);
    case Revoke(_) => StuckLoss(s, base, a);
    case _ => StuckOthers(s, base, g0, a);
  }

  /** Main result: once a page that cannot be delivered is claimed, nothing the waiters, the
      provider or the clock do moves the cursor again. Together with `UnsendablePageSticks`,
      the daemon makes progress past an accepted page only if it is sendable. */
  lemma {:induction false} UnsendableClaimIsForever(s: Sys, base: Id, g0: nat, actions: seq<Action>)
    requires Inv(s, base, g0) && LinksCurrent(s) && Stuck(s)
    ensures var t := Run(s, base, actions);
            Inv(t, base, g0) && LinksCurrent(t) && Stuck(t) && NoProgress(s, t)
    decreases |actions|
  {
    hide Inv, LinksCurrent, Stuck, Do;
    if actions != [] {
      var mid := Run(s, base, actions[..|actions| - 1]);
      var a := actions[|actions| - 1];
      UnsendableClaimIsForever(s, base, g0, actions[..|actions| - 1]);
      StuckStep(mid, base, g0, a);
      StepKeepsInv(mid, base, g0, a);
      StepKeepsCurrent(mid, base, g0, a);
    }
  }

  /** Ingesting an accepted page, after a wait or after an acknowledgement, gets the daemon
      into that state exactly when the page is not sendable. */
  lemma UnsendablePageSticks(s: Sys, base: Id, g0: nat, a: Action, page: Option<seq<RawMessage>>,
                             segment: string -> seq<string>)
    requires Inv(s, base, g0) && (a.Ingest? || a.ClaimSuffix?) && a.mintSignal !in s.tally.store.signals
    requires if a.Ingest? then s.main.Ingesting? && s.main.code == 0 else s.main.Claiming?
    requires IsSegmenter(segment) && Parse(page, segment).Ok? && PageOf(s, a) == Parse(page, segment)
    ensures Stuck(Do(s, base, a)) <==> !IsSendable(Parse(page, segment).value, a.now, s.arm)
  {
    var drained := Parse(page, segment).value;
    hide Inv, Parse, IsSegmenter, NothingOpen, AckRuns.Shape, IsSendable, Sendable, Do, Stuck, LedgerOf;
    GateAgrees(page, segment);
    SendablePages(page, segment, a.now, s.arm);
    NoneClaimed(s, base, g0);
    SameArm(s, base, g0);
    ClaimedPage(s, base, g0, a, drained);
    hide PageOf, Claims;
    StuckClaim(s, Do(s, base, a), g0, drained, a.mintSignal, a.now);
  }

  /** A page that passes the gate is claimed whether or not a link is at hand. */
  lemma ClaimedByIngest(s: Sys, wait: WaitResult, drained: seq<DrainedEvent>, link: Option<Admit.AdmittedLink>,
                        now: Time, g0: nat, id: Id, mint: Id)
    requires Claims(wait, Ok(drained)) && id !in s.tally.store.signals
    requires s.pipe == Pipe.EMPTY_PIPE && s.after.Some?
    requires AckRuns.Shape(s.tally.store, g0) && NothingOpen(s.tally.store)
    ensures var (t, coverage) := Ingested(s, wait, Ok(drained), link, now, id, mint);
            && coverage == Pipe.Pause && t.arm == s.arm && t.pipe.claim == Some(NewClaim(s.arm, id, drained, now))
            && t.tally.store == Pipe.Register(s.tally.store, id, Pipe.HasLoss(drained)).0
  {
    hide AckRuns.Shape, NothingOpen, Pipe.HasLoss, LedgerOf, ValidLink, Pipe.IngestMatch, Pipe.Register, NewClaim,
         Claims;
    IngestEffect(s.after, wait, Ok(drained), s.arm, link, now, s.tally.store, g0, id, mint);
  }

  /** What a claimed page leaves, whichever way it came. */
  lemma ClaimedPage(s: Sys, base: Id, g0: nat, a: Action, drained: seq<DrainedEvent>)
    requires (a.Ingest? || a.ClaimSuffix?) && a.mintSignal !in s.tally.store.signals
    requires if a.Ingest? then s.main.Ingesting? && s.main.code == 0 else s.main.Claiming?
    requires PageOf(s, a) == Ok(drained) && Claims(Matched, Ok(drained))
    requires s.pipe == Pipe.EMPTY_PIPE && s.after.Some?
    requires AckRuns.Shape(s.tally.store, g0) && NothingOpen(s.tally.store)
    ensures var t := Do(s, base, a);
            && t.arm == s.arm && t.pipe.claim == Some(NewClaim(s.arm, a.mintSignal, drained, a.now))
            && t.tally.store == Pipe.Register(s.tally.store, a.mintSignal, Pipe.HasLoss(drained)).0
  {
    hide AckRuns.Shape, NothingOpen, Pipe.HasLoss, Pipe.Register, NewClaim, Claims, Answer, Ingested;
    if a.Ingest? {
      ClaimedByIngest(s, Matched, drained, s.main.link, a.now, g0, a.mintSignal, a.mintDelivery);
      assert Do(s, base, a) == DoIngest(s, a.now, a.drain, a.mintSignal, a.mintDelivery, a.spawnOk);
    } else {
      ClaimedByIngest(s, Matched, drained, None, a.now, g0, a.mintSignal, "");
      assert Do(s, base, a) == DoClaim(s, a.now, a.mintSignal);
    }
  }

  lemma StuckClaim(s: Sys, t: Sys, g0: nat, drained: seq<DrainedEvent>, id: Id, now: Time)
    requires AckRuns.Shape(s.tally.store, g0) && NothingOpen(s.tally.store) && id !in s.tally.store.signals
    requires s.tally.store.arm == Some(s.arm) && t.arm == s.arm
    requires t.pipe.claim == Some(NewClaim(s.arm, id, drained, now))
    requires t.tally.store == Pipe.Register(s.tally.store, id, Pipe.HasLoss(drained)).0
    ensures Stuck(t) <==> !Sendable(Pipe.ProviderEvents(drained, now), s.arm.route, s.arm.generation)
  {
    RegisterEffect(s.tally.store, g0, id, Pipe.HasLoss(drained));
    hide Pipe.Register, AckRuns.Shape, NothingOpen, Sendable;
  }
}
