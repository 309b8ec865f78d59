/**
 A page that can be delivered is delivered, acknowledged and passed, once a waiter comes.

 The exchange is a run of the daemon's own actions: a waiter attaches, its reply is written,
 the page is written to it, it returns, and the seat acknowledges the page's last event.
 */
module DaemonProgress {
  import opened Prelude
  import opened Messages
  import opened Daemon
  import opened DaemonInv
  import opened DaemonSteps
  import opened DaemonCoverage
  import opened DaemonTheorems
  import opened DaemonLinks
  import opened DaemonDrain
  import opened DaemonDelivery
  import opened Codec
  import Ack
  import AckLaws
  import AckRuns
  import Admit
  import AdmitLaws
  import Deliver
  import Pipe

  /** What the outside brings to the exchange: two requests and fresh ids, all on one second. */
  datatype Visit = Visit(attach: WaiterLink, ack: HandledCursor, linkId: Id, deliveryId: Id, now: Time)

  /** The waiter's and the seat's requests name the arm, the claim, and its last event. */
  ghost predicate Fitting(v: Visit, s: Sys)
    requires s.pipe.claim.Some?
  {
    var c := s.pipe.claim.value;
    && v.attach.AttachWaiter? && ValidLink(v.attach) && v.attach.armId == s.arm.armId
    && v.attach.generation == s.arm.generation && v.attach.seatId == s.arm.seatId && v.attach.route == s.arm.route
    && v.attach.requestId !in s.table.history
    && v.ack.Request? && ValidHandled(v.ack) && v.ack.armId == s.arm.armId && v.ack.seatId == s.arm.seatId
    && v.ack.generation == s.arm.generation && v.ack.signalId == c.signalId && v.ack.cursor == LastRef(c.events)
    && v.ack.requestId !in s.tally.store.history
    && IsUlid(v.linkId) && IsUlid(v.deliveryId)
    && v.now < s.arm.coverageUntil && v.now % SECOND == 0
  }

  /** Between operations, with a claim that no frame was written for, nobody attached, room in
      both histories and an unspent counter. */
  ghost predicate Waits(s: Sys) {
    && s.main.Head? && s.accept.Idle? && s.channel == [] && s.served.None? && s.table.current.None?
    && s.pipe.claim.Some? && s.pipe.ledger.None? && !s.pipe.attempted && !Sent(s.frames, s.arm.generation)
    && |s.table.history| < HISTORY_CAP && |s.tally.store.history| < HISTORY_CAP && s.arm.generation < MAX_U64
    && Sendable(s.pipe.claim.value.events, s.arm.route, s.arm.generation)
  }

  /** What the waiter answers: it returned. */
  function Returned(v: Visit, signalId: Id): WaiterLink {
    DeliveryResult(v.deliveryId, v.linkId, signalId, ReturnCompleted, Some(v.now))
  }

  function Attaching(v: Visit): seq<Action> {
    [AttachArrives(v.attach), PrepareAttach(v.now, v.linkId), CommitAttach(true), Action.Send]
  }

  function Delivering(v: Visit): seq<Action> {
    [Action.Recv, Adopt(v.now, false), ReadLink, FlushNow(v.now, true, v.deliveryId)]
  }

  function Returning(v: Visit, signalId: Id): seq<Action> {
    [PollResult(Returned(v, signalId)), Action.Revoke(v.now)]
  }

  function Acknowledging(v: Visit): seq<Action> {
    [AckArrives(v.ack, v.now), Action.Send, Action.Recv]
  }

  function Exchange(v: Visit, signalId: Id): seq<Action> {
    Attaching(v) + Delivering(v) + Returning(v, signalId) + Acknowledging(v)
  }

  // ----- runs of a few actions -----

  lemma RunOfOne(s: Sys, base: Id, a: Action)
    ensures Run(s, base, [a]) == Do(s, base, a)
  {
    hide Do;
    assert [a][..0] == [] && Run(s, base, []) == s;
  }

  lemma {:induction false} RunsJoin(s: Sys, base: Id, first: seq<Action>, second: seq<Action>)
    ensures Run(s, base, first + second) == Run(Run(s, base, first), base, second)
    decreases |second|
  {
    hide Do;
    if second == [] {
      assert first + second == first;
    } else {
      var n := |second| - 1;
      RunsJoin(s, base, first, second[..n]);
      assert (first + second)[..|first + second| - 1] == first + second[..n];
    }
  }

  lemma RunOfTwo(s: Sys, base: Id, a: Action, b: Action)
    ensures Run(s, base, [a, b]) == Do(Do(s, base, a), base, b)
  {
    hide Do, Run;
    RunsJoin(s, base, [a], [b]);
    assert [a] + [b] == [a, b];
    RunOfOne(s, base, a);
    RunOfOne(Do(s, base, a), base, b);
  }

  // ----- the waiter attaches -----

  /** The link a fitting request is granted. */
  ghost predicate IsGranted(v: Visit, s: Sys, link: Admit.AdmittedLink) {
    && link.linkId == v.linkId && link.armId == s.arm.armId && link.generation == s.arm.generation
    && link.route == s.arm.route && v.now < link.leaseUntil
  }

  lemma ArmsAgree(s: Sys, base: Id, g0: nat)
    requires Inv(s, base, g0) && s.accept.Idle? && s.channel == []
    ensures s.tally.store.arm == Some(s.arm) && AckRuns.Tallied(s.tally, g0)
    ensures PendingRearms(s.channel, s.accept) == []
  {
    hide AckRuns.Tallied, ClaimSide, LogSide, DeliverySide, HoldSide, MainSide, LinkSide;
  }

  lemma Grants(s: Sys, v: Visit) returns (link: Admit.AdmittedLink)
    requires Waits(s) && Fitting(v, s)
    ensures IsGranted(v, s, link)
    ensures Admit.Decide(s.table, v.attach, v.now, [s.arm], v.linkId) == Ok(Admit.Accept(link, link.lastAccepted))
  {
    hide Sendable, ValidHandled, Sent;
    assert [s.arm][0] == s.arm && AdmitLaws.Finds([s.arm], v.attach.armId, s.arm);
    AdmitLaws.AttachIsExact(s.table, v.attach, v.now, [s.arm], v.linkId);
    assert AdmitLaws.MayAttach(s.table, v.attach, v.now, s.arm);
    hide Admit.Decide;
    var decision := Admit.Decide(s.table, v.attach, v.now, [s.arm], v.linkId).value;
    link := decision.link;
    OnlyArm(s.arm, v.attach.armId);
  }

  lemma Attaches(s: Sys, base: Id, g0: nat, v: Visit) returns (link: Admit.AdmittedLink, history: map<Id, Admit.Record>)
    requires Inv(s, base, g0) && Waits(s) && Fitting(v, s)
    ensures IsGranted(v, s, link)
    ensures var next := Admit.Served(link.lastAccepted, Some(Admit.SessionOf(link)));
            Run(s, base, Attaching(v)) == s.(table := Admit.Table(Some(link), history), channel := [Attached(next)])
  {
    ArmsAgree(s, base, g0);
    link := Grants(s, v);
    hide Inv, Sendable, AckRuns.Tallied, PendingRearms, Sent, Fitting, Run, DoSend, DoCommit, DoPrepare,
         DoAttachArrives, Admit.Decide;
    history := s.table.history[link.requestId := Admit.Record(link.request, link.lastAccepted)];
    AttachRun(s, base, v);
    AcceptSteps(s, v, link);
  }

  lemma OnlyArm(arm: KnownArm, armId: Id)
    ensures forall other :: AdmitLaws.Finds([arm], armId, other) ==> other == arm
  {
  }

  lemma AcceptSteps(s: Sys, v: Visit, link: Admit.AdmittedLink)
    requires s.accept.Idle? && s.channel == [] && s.table.current.None? && s.tally.store.arm == Some(s.arm)
    requires Admit.Decide(s.table, v.attach, v.now, [s.arm], v.linkId) == Ok(Admit.Accept(link, link.lastAccepted))
    ensures var next := Admit.Served(link.lastAccepted, Some(Admit.SessionOf(link)));
            var history := s.table.history[link.requestId := Admit.Record(link.request, link.lastAccepted)];
            DoSend(DoCommit(DoPrepare(DoAttachArrives(s, v.attach), v.now, v.linkId), true))
            == s.(table := Admit.Table(Some(link), history), channel := [Attached(next)])
  {
    hide Admit.Decide;
    var prepared := Admit.Prepared(link.lastAccepted, Some(Admit.SessionOf(link)), Some(link.leaseUntil),
                                   Admit.CommitAccept(link), v.now);
    assert DoPrepare(DoAttachArrives(s, v.attach), v.now, v.linkId) == s.(accept := Replying(prepared));
    var next := Admit.Served(link.lastAccepted, Some(Admit.SessionOf(link)));
    assert s.channel + [Attached(next)] == [Attached(next)];
  }

  lemma AttachRun(s: Sys, base: Id, v: Visit)
    ensures Run(s, base, Attaching(v))
         == DoSend(DoCommit(DoPrepare(DoAttachArrives(s, v.attach), v.now, v.linkId), true))
  {
    hide Run, DoAppend, DoRecv, DoAdopt, DoReadLink, DoFlush, DoRevoke, DoPollResult, DoChildExit, DoIngest,
         DoRevokeOld, DoDrain, DoClaim, DoAttachArrives, DoPrepare, DoCommit, DoAck, DoSend, HaltWith;
    RunOfFour(s, base, AttachArrives(v.attach), PrepareAttach(v.now, v.linkId), CommitAttach(true), Action.Send);
  }

  lemma RunOfFour(s: Sys, base: Id, a: Action, b: Action, c: Action, d: Action)
    ensures Run(s, base, [a, b, c, d]) == Do(Do(Do(Do(s, base, a), base, b), base, c), base, d)
  {
    hide Do, Run;
    RunsJoin(s, base, [a, b], [c, d]);
    assert [a, b] + [c, d] == [a, b, c, d];
    RunOfTwo(s, base, a, b);
    RunOfTwo(Do(Do(s, base, a), base, b), base, c, d);
  }

  // ----- the page is delivered -----

  /** The state in which the waiter's link is about to be used. */
  function Attended(s: Sys, link: Admit.AdmittedLink, history: map<Id, Admit.Record>): Sys {
    s.(table := Admit.Table(Some(link), history), channel := [],
       served := Some(Admit.Served(link.lastAccepted, Some(Admit.SessionOf(link)))), main := FlushWith(Some(link)))
  }

  lemma AttendSteps(s: Sys, v: Visit, link: Admit.AdmittedLink, history: map<Id, Admit.Record>)
    requires s.main.Head? && s.served.None?
    requires s.table == Admit.Table(Some(link), history)
    requires s.channel == [Attached(Admit.Served(link.lastAccepted, Some(Admit.SessionOf(link))))]
    ensures DoReadLink(DoAdopt(DoRecv(s), v.now, false)) == Attended(s, link, history)
  {
    assert s.channel[1..] == [];
  }

  lemma DeliverRun(s: Sys, base: Id, v: Visit)
    ensures Run(s, base, Delivering(v))
         == DoFlush(DoReadLink(DoAdopt(DoRecv(s), v.now, false)), v.now, true, v.deliveryId)
  {
    hide Run, DoAppend, DoRecv, DoAdopt, DoReadLink, DoFlush, DoRevoke, DoPollResult, DoChildExit, DoIngest,
         DoRevokeOld, DoDrain, DoClaim, DoAttachArrives, DoPrepare, DoCommit, DoAck, DoSend, HaltWith;
    RunOfFour(s, base, Action.Recv, Adopt(v.now, false), ReadLink, FlushNow(v.now, true, v.deliveryId));
  }

  /** What the delivery leaves: the frame written, awaiting its result, its batch noted. */
  function Carried(s: Sys, link: Admit.AdmittedLink, v: Visit): Sys
    requires s.pipe.claim.Some? && s.pipe.claim.value.events != []
    requires s.pipe.claim.value.signalId in s.tally.store.signals
  {
    var c := s.pipe.claim.value;
    var message := Deliver.NewMessage(link, c.signalId, c.events, v.now, v.deliveryId);
    var pending := Deliver.Pending(v.deliveryId, link.linkId, message, Deliver.Awaiting);
    s.(pipe := Pipe.Value(Some(pending), s.pipe.claim, true),
       tally := WithStore(s.tally, Delivered(s.tally.store, c)), main := Head,
       frames := s.frames + [Frame(c.generation, message)])
  }

  /** A claim nothing was written for is open and alone in the store. */
  lemma ClaimIsRegistered(s: Sys, base: Id, g0: nat)
    requires Inv(s, base, g0) && Noted(s) && s.pipe.claim.Some? && !Sent(s.frames, s.arm.generation)
    requires s.tally.store.arm == Some(s.arm)
    ensures Registered(s.tally.store, s.pipe.claim.value)
    ensures s.pipe.claim.value.signalId in s.tally.store.signals && s.pipe.claim.value.armId == s.arm.armId
    ensures s.pipe.claim.value.generation == s.arm.generation
  {
    hide Acked, Covered, DeliverySide, HoldSide, MainSide, LinkSide, PendingRearms, Sent, LogSide;
    var c := s.pipe.claim.value;
    assert AckRuns.FitsBatch(s.tally.store, g0, s.tally.store.signals[c.signalId]);
  }

  lemma FlushSends(s: Sys, v: Visit, link: Admit.AdmittedLink)
    requires s.main == FlushWith(Some(link)) && s.served.Some?
    requires s.pipe.claim.Some? && s.pipe.ledger.None? && !s.pipe.attempted && v.now < link.leaseUntil
    requires s.pipe.claim.value.signalId in s.tally.store.signals && Registered(s.tally.store, s.pipe.claim.value)
    requires CanCarry(link, s.pipe.claim.value.signalId, v.deliveryId) && v.now % SECOND == 0
    requires Sendable(s.pipe.claim.value.events, link.route, link.generation)
    ensures s.pipe.claim.value.events != []
    ensures DoFlush(s, v.now, true, v.deliveryId) == Carried(s, link, v)
  {
    var c := s.pipe.claim.value;
    assert AreEvents(c.events, LastRef(c.events));
    hide Pipe.Flush, Sendable, Registered, CanCarry, AreEvents, Delivered;
    FirstFlush(link, s.pipe, s.tally.store, v.now, true, v.deliveryId);
    SendableIsSent(link, s.pipe, s.tally.store, v.now, v.deliveryId);
  }

  // ----- the waiter returns -----

  lemma ReturnRun(s: Sys, base: Id, v: Visit, signalId: Id)
    ensures Run(s, base, Returning(v, signalId)) == DoRevoke(DoPollResult(s, Returned(v, signalId)), v.now)
  {
    hide Run, DoAppend, DoRecv, DoAdopt, DoReadLink, DoFlush, DoRevoke, DoPollResult, DoChildExit, DoIngest,
         DoRevokeOld, DoDrain, DoClaim, DoAttachArrives, DoPrepare, DoCommit, DoAck, DoSend, HaltWith;
    RunOfTwo(s, base, PollResult(Returned(v, signalId)), Action.Revoke(v.now));
  }

  /** A correlated return of what is awaited: the outcome is recorded, the hold lifted, and
      the waiter and its link let go. */
  lemma ReturnSteps(s: Sys, v: Visit, signalId: Id)
    requires s.main.Head? && s.served.Some? && s.pipe.claim.Some?
    requires Correlated(s.pipe, Returned(v, signalId)) && s.pipe.ledger.value.attempt.Awaiting?
    ensures var t := DoRevoke(DoPollResult(s, Returned(v, signalId)), v.now);
            && t.pipe.claim == s.pipe.claim && t.main.Head? && t.served.None?
            && t.tally == WithStore(s.tally, Ack.NoteReturn(s.tally.store, signalId).0)
            && t.log == s.log && t.after == s.after && t.arm == s.arm && t.frames == s.frames
            && t.channel == s.channel && t.accept == s.accept && t.child == s.child
  {
    hide ValidLink, Correlated, Pipe.ApplyVisible, Ack.NoteReturn, Admit.DropSession;
    ResultIsExact(s.pipe, s.tally.store, Returned(v, signalId));
    CorrelatedReturn(s.pipe, Returned(v, signalId));
  }

  lemma CorrelatedReturn(pipe: Pipe.Value, result: WaiterLink)
    requires Correlated(pipe, result)
    ensures result.DeliveryResult?
  {
  }

  // ----- the seat acknowledges -----

  lemma AckRun(s: Sys, base: Id, v: Visit)
    ensures Run(s, base, Acknowledging(v)) == DoRecv(DoSend(DoAck(s, v.ack, v.now)))
  {
    hide Run, DoAppend, DoRecv, DoAdopt, DoReadLink, DoFlush, DoRevoke, DoPollResult, DoChildExit, DoIngest,
         DoRevokeOld, DoDrain, DoClaim, DoAttachArrives, DoPrepare, DoCommit, DoAck, DoSend, HaltWith;
    RunsJoin(s, base, [AckArrives(v.ack, v.now), Action.Send], [Action.Recv]);
    assert [AckArrives(v.ack, v.now), Action.Send] + [Action.Recv] == Acknowledging(v);
    RunOfTwo(s, base, AckArrives(v.ack, v.now), Action.Send);
    RunOfOne(DoSend(DoAck(s, v.ack, v.now)), base, Action.Recv);
  }

  /** An acceptable acknowledgement is recorded: its cursor is handled, its signal still open. */
  lemma AckIsTaken(store: Ack.Store, g0: nat, ack: HandledCursor, now: Time)
    requires AckRuns.Shape(store, g0) && ValidHandled(ack) && ack.Request? && ack.requestId !in store.history
    requires |store.history| < HISTORY_CAP && store.arm.Some? && AckLaws.IsAcceptable(store, ack)
    ensures var (t, r) := Ack.RecordHandled(store, ack, now);
            && AckRuns.Shape(t, g0) && t.arm == store.arm
            && r == Ok(Accepted(ack.requestId, ack.armId, ack.generation, ack.signalId, ack.cursor, Some(now)))
            && Ack.IsOpen(t, ack.signalId) && AckRuns.Handled(t.signals[ack.signalId], ack.cursor)
  {
    hide Ack.RecordHandled, Ack.Refusal, AckRuns.Shape, AckRuns.Handled, AckRuns.KeepsHandled, AckLaws.IsAcceptable,
         AckLaws.Explains, ValidHandled;
    AckLaws.AnswerIsExact(store, g0, ack, now);
    AckRuns.RecordKeepsShape(store, g0, ack, now);
    AckLaws.RefusalIsExact(store, g0, ack);
    AckRuns.AcceptMovesForward(store, g0, ack);
  }

  /** It closes its signal and announces the next generation. */
  lemma AckCloses(store: Ack.Store, g0: nat, ack: HandledCursor, now: Time)
    requires AckRuns.Shape(store, g0) && ValidHandled(ack) && ack.Request? && ack.requestId !in store.history
    requires |store.history| < HISTORY_CAP && store.arm.Some? && AckLaws.IsAcceptable(store, ack)
    requires store.arm.value.generation < MAX_U64
    ensures Ack.ApplyHandled(store, ack, now).1
         == Ok(Ack.HandledServe(
                 Accepted(ack.requestId, ack.armId, ack.generation, ack.signalId, ack.cursor, Some(now)),
                 Some(Ack.AckRearm(ack.cursor, store.arm.value.generation + 1, ack.signalId))))
  {
    hide Ack.RecordHandled, Ack.CloseAccepted, AckRuns.Shape, AckRuns.Handled, AckLaws.IsAcceptable, ValidHandled;
    AckIsTaken(store, g0, ack, now);
    var (t, recorded) := Ack.RecordHandled(store, ack, now);
    AckRuns.CloseOutcome(t, g0, recorded.value);
  }

  lemma AckRearms(tally: AckRuns.Tally, g0: nat, ack: HandledCursor, now: Time)
    requires AckRuns.Tallied(tally, g0) && ValidHandled(ack) && ack.Request? && ack.requestId !in tally.store.history
    requires |tally.store.history| < HISTORY_CAP && tally.store.arm.value.generation < MAX_U64
    requires AckLaws.IsAcceptable(tally.store, ack)
    ensures AckRuns.Count(tally, AckRuns.Handle(ack, now)).rearms
         == tally.rearms + [Ack.AckRearm(ack.cursor, tally.store.arm.value.generation + 1, ack.signalId)]
  {
    TalliedShape(tally, g0);
    hide Ack.ApplyHandled, AckRuns.Tallied, AckRuns.Shape, ValidHandled, AckLaws.IsAcceptable, AllAnnounced;
    AckCloses(tally.store, g0, ack, now);
  }

  /** Applying it moves the cursor there and the main thread on. */
  lemma AckSteps(s: Sys, v: Visit, rearm: Ack.AckRearm)
    requires s.main.Head? && s.accept.Idle? && s.channel == [] && s.pipe.claim.Some?
    requires AckRuns.Count(s.tally, AckRuns.Handle(v.ack, v.now)).rearms == s.tally.rearms + [rearm]
    ensures var t := DoRecv(DoSend(DoAck(s, v.ack, v.now)));
            && t.after == Some(rearm.after) && t.arm == s.arm.(generation := rearm.generation)
            && t.pipe == Pipe.EMPTY_PIPE && t.main == Restarting(rearm.generation)
            && t.tally.rearms == s.tally.rearms + [rearm] && t.frames == s.frames
  {
    hide AckRuns.Count;
    var tally := AckRuns.Count(s.tally, AckRuns.Handle(v.ack, v.now));
    assert tally.rearms[|tally.rearms| - 1] == rearm;
    assert s.channel + [CoverageRearm(rearm)] == [CoverageRearm(rearm)];
  }

  // ----- the exchange -----

  /** The batch, delivered and confirmed, can be acknowledged to its last event. */
  lemma Acceptable(store: Ack.Store, c: Pipe.SignalClaim, ack: HandledCursor)
    requires Registered(store, c) && c.events != [] && ack.Request? && AckLaws.Addressed(store, ack)
    requires ack.signalId == c.signalId && ack.cursor == LastRef(c.events)
    ensures var t := Ack.NoteReturn(Delivered(store, c), c.signalId).0;
            t.arm == store.arm && t.history == store.history && AckLaws.IsAcceptable(t, ack)
  {
    var t := Ack.NoteReturn(Delivered(store, c), c.signalId).0;
    var b := t.signals[c.signalId];
    var n := |c.events| - 1;
    assert b.delivered == c.eventRefs && b.handled.None? && b.delivered[n] == ack.cursor;
    assert AckLaws.Reaches(b, ack.cursor);
    hide Ack.OtherOpen;
  }

  lemma ExchangeRuns(s: Sys, base: Id, v: Visit, signalId: Id)
    ensures Run(s, base, Exchange(v, signalId))
         == Run(Run(Run(Run(s, base, Attaching(v)), base, Delivering(v)), base, Returning(v, signalId)), base,
                Acknowledging(v))
  {
    hide Run, Attaching, Delivering, Returning, Acknowledging;
    var ad := Attaching(v) + Delivering(v);
    RunsJoin(s, base, ad + Returning(v, signalId), Acknowledging(v));
    RunsJoin(s, base, ad, Returning(v, signalId));
    RunsJoin(s, base, Attaching(v), Delivering(v));
  }

  /** The first two stages: the page's frame goes out. */
  lemma Delivers(s: Sys, base: Id, g0: nat, v: Visit) returns (link: Admit.AdmittedLink, history: map<Id, Admit.Record>)
    requires Inv(s, base, g0) && Noted(s) && Waits(s) && Fitting(v, s)
    ensures IsGranted(v, s, link) && s.tally.store.arm == Some(s.arm)
    ensures Registered(s.tally.store, s.pipe.claim.value) && s.pipe.claim.value.events != []
    ensures s.pipe.claim.value.generation == s.arm.generation
    ensures Run(Run(s, base, Attaching(v)), base, Delivering(v)) == Carried(Attended(s, link, history), link, v)
  {
    ArmsAgree(s, base, g0);
    ClaimIsRegistered(s, base, g0);
    link, history := Attaches(s, base, g0, v);
    Carries(s, v, link);
    hide Inv, Noted, Fitting, Run, AckRuns.Tallied, PendingRearms, Registered, Sendable, Sent, Carried, CanCarry,
         DoFlush, DoReadLink, DoAdopt, DoRecv;
    var s1 := Run(s, base, Attaching(v));
    AttendSteps(s1, v, link, history);
    assert Attended(s1, link, history) == Attended(s, link, history);
    FlushSends(Attended(s, link, history), v, link);
    DeliverRun(s1, base, v);
  }

  lemma Carries(s: Sys, v: Visit, link: Admit.AdmittedLink)
    requires s.pipe.claim.Some? && Fitting(v, s) && IsGranted(v, s, link)
    ensures CanCarry(link, s.pipe.claim.value.signalId, v.deliveryId) && v.now % SECOND == 0
  {
    hide IsUlid, IsAttachedRoute, IsSeat, IsToken;
  }

  lemma Returns(s: Sys, base: Id, v: Visit, signalId: Id)
    requires s.main.Head? && s.served.Some? && s.pipe.claim.Some?
    requires s.pipe.ledger.Some? && s.pipe.ledger.value.attempt.Awaiting?
    requires var p := s.pipe.ledger.value;
             && p.deliveryId == v.deliveryId && p.linkId == v.linkId
             && p.message.DeliverEvents? && p.message.signalId == signalId
    requires IsUlid(v.deliveryId) && IsUlid(v.linkId) && IsUlid(signalId)
    ensures var t := Run(s, base, Returning(v, signalId));
            && t.pipe.claim == s.pipe.claim && t.main.Head? && t.served.None?
            && t.tally == WithStore(s.tally, Ack.NoteReturn(s.tally.store, signalId).0)
            && t.after == s.after && t.arm == s.arm && t.frames == s.frames
            && t.channel == s.channel && t.accept == s.accept
  {
    hide Run, IsUlid, Ack.NoteReturn, DoPollResult, DoRevoke;
    ReturnSteps(s, v, signalId);
    ReturnRun(s, base, v, signalId);
  }

  /** The third stage: the receipt is confirmed, and the batch can be acknowledged. */
  ghost predicate Confirmed(s: Sys, t: Sys, message: WaiterLink)
    requires s.pipe.claim.Some? && s.pipe.claim.value.signalId in s.tally.store.signals
  {
    var c := s.pipe.claim.value;
    && t.pipe.claim == s.pipe.claim && t.main.Head? && t.accept.Idle? && t.channel == []
    && t.tally == WithStore(s.tally, Ack.NoteReturn(Delivered(s.tally.store, c), c.signalId).0)
    && t.after == s.after && t.arm == s.arm && t.frames == s.frames + [Frame(c.generation, message)]
  }

  lemma Confirms(s: Sys, base: Id, v: Visit, link: Admit.AdmittedLink, history: map<Id, Admit.Record>)
    requires Waits(s) && Fitting(v, s) && s.pipe.claim.value.events != []
    requires s.pipe.claim.value.signalId in s.tally.store.signals && link.linkId == v.linkId
    ensures var c := s.pipe.claim.value;
            Confirmed(s, Run(Carried(Attended(s, link, history), link, v), base, Returning(v, c.signalId)),
                      Deliver.NewMessage(link, c.signalId, c.events, v.now, v.deliveryId))
  {
    assert IsUlid(s.pipe.claim.value.signalId);
    hide Run, IsUlid, Ack.NoteReturn, Delivered, Sendable, Sent, ValidHandled, ValidLink, Returning;
    Returns(Carried(Attended(s, link, history), link, v), base, v, s.pipe.claim.value.signalId);
  }

  /** The last stage: the acknowledgement is accepted, announced and applied. */
  lemma Passes(s: Sys, t: Sys, base: Id, g0: nat, v: Visit, message: WaiterLink)
    requires Waits(s) && Fitting(v, s) && s.tally.store.arm == Some(s.arm)
    requires Registered(s.tally.store, s.pipe.claim.value) && s.pipe.claim.value.events != []
    requires Confirmed(s, t, message) && AckRuns.Tallied(t.tally, g0)
    ensures var c := s.pipe.claim.value;
            var u := Run(t, base, Acknowledging(v));
            var rearm := Ack.AckRearm(LastRef(c.events), s.arm.generation + 1, c.signalId);
            && u.after == Some(rearm.after) && u.arm == s.arm.(generation := rearm.generation)
            && u.pipe == Pipe.EMPTY_PIPE && u.main == Restarting(rearm.generation)
            && u.tally.rearms == s.tally.rearms + [rearm] && u.frames == s.frames + [Frame(c.generation, message)]
  {
    hide Run, Sendable, Sent, ValidHandled, ValidLink, AckRuns.Tallied, Ack.NoteReturn, Delivered, Registered, IsUlid,
         DoAck, DoSend, DoRecv, AckRuns.Count, AckLaws.IsAcceptable;
    Acceptable(s.tally.store, s.pipe.claim.value, v.ack);
    AckRearms(t.tally, g0, v.ack, v.now);
    AckSteps(t, v, Ack.AckRearm(v.ack.cursor, s.arm.generation + 1, s.pipe.claim.value.signalId));
    AckRun(t, base, v);
  }

  /** The page of `s` was written once, acknowledged to its last event, and passed. */
  ghost predicate Handed(s: Sys, t: Sys) {
    && s.pipe.claim.Some?
    && var c := s.pipe.claim.value;
       var rearm := Ack.AckRearm(LastRef(c.events), s.arm.generation + 1, c.signalId);
       && t.after == Some(rearm.after) && t.arm == s.arm.(generation := rearm.generation)
       && t.pipe == Pipe.EMPTY_PIPE && t.main == Restarting(rearm.generation)
       && t.tally.rearms == s.tally.rearms + [rearm]
       && |t.frames| == |s.frames| + 1 && t.frames[..|s.frames|] == s.frames
       && var frame := t.frames[|s.frames|];
          && frame.generation == s.arm.generation
          && frame.message.DeliverEvents? && frame.message.events == c.events && frame.message.signalId == c.signalId
  }

  lemma PassedIsHanded(s: Sys, u: Sys, link: Admit.AdmittedLink, now: Time, mint: Id)
    requires s.pipe.claim.Some? && s.pipe.claim.value.events != [] && s.pipe.claim.value.generation == s.arm.generation
    requires var c := s.pipe.claim.value;
             var rearm := Ack.AckRearm(LastRef(c.events), s.arm.generation + 1, c.signalId);
             && u.after == Some(rearm.after) && u.arm == s.arm.(generation := rearm.generation)
             && u.pipe == Pipe.EMPTY_PIPE && u.main == Restarting(rearm.generation)
             && u.tally.rearms == s.tally.rearms + [rearm]
             && u.frames == s.frames + [Frame(c.generation, Deliver.NewMessage(link, c.signalId, c.events, now, mint))]
    ensures Handed(s, u)
  {
  }

  lemma StartFacts(s: Sys, v: Visit, link: Admit.AdmittedLink)
    requires Waits(s) && s.pipe.claim.Some? && Registered(s.tally.store, s.pipe.claim.value) && IsGranted(v, s, link)
    ensures s.pipe.claim.value.signalId in s.tally.store.signals && link.linkId == v.linkId
  {
  }

  lemma WaitsClaim(s: Sys)
    requires Waits(s)
    ensures s.pipe.claim.Some?
  {
  }

  lemma Quiescent(s: Sys, t: Sys, message: WaiterLink)
    requires s.pipe.claim.Some? && s.pipe.claim.value.signalId in s.tally.store.signals && Confirmed(s, t, message)
    ensures t.accept.Idle? && t.channel == []
  {
  }

  /** Main result: whenever the daemon waits with a page that can be delivered, and a waiter
      and then the seat come with fitting requests, the page is written once to the waiter,
      acknowledged to its last event and passed: the cursor stands there, the generation is
      the next, and the pipe is free. */
  lemma PageIsHandled(s: Sys, base: Id, g0: nat, v: Visit)
    requires Inv(s, base, g0) && Noted(s) && Waits(s) && Fitting(v, s)
    ensures Handed(s, Run(s, base, Exchange(v, s.pipe.claim.value.signalId)))
  {
    hide *;
    WaitsClaim(s);
    var c := s.pipe.claim.value;
    var link, history := Delivers(s, base, g0, v);
    StartFacts(s, v, link);
    var s1 := Run(s, base, Attaching(v));
    var s2 := Run(s1, base, Delivering(v));
    var s3 := Run(s2, base, Returning(v, c.signalId));
    var message := Deliver.NewMessage(link, c.signalId, c.events, v.now, v.deliveryId);
    Confirms(s, base, v, link, history);
    RunKeepsInv(s, base, g0, Attaching(v));
    RunKeepsInv(s1, base, g0, Delivering(v));
    RunKeepsInv(s2, base, g0, Returning(v, c.signalId));
    Quiescent(s, s3, message);
    ArmsAgree(s3, base, g0);
    Passes(s, s3, base, g0, v, message);
    ExchangeRuns(s, base, v, c.signalId);
    PassedIsHanded(s, Run(s3, base, Acknowledging(v)), link, v.now, v.deliveryId);
  }
}
