/** What was written is what counts as delivered, and what was lost is written again. */
module DaemonDelivery {
  import opened Prelude
  import opened Messages
  import opened Daemon
  import opened DaemonInv
  import opened DaemonSteps
  import opened DaemonCoverage
  import opened DaemonTheorems
  import opened DaemonLaws
  import opened DaemonLinks
  import Ack
  import AckLaws
  import AckRuns
  import Admit
  import Codec
  import Deliver
  import Pipe
  import WaitOn

  // ----- a written frame is noted, and only a written one -----

  /** A frame was written while the main thread's present generation was live. */
  ghost predicate Sent(frames: seq<Frame>, m: nat) {
    exists i :: 0 <= i < |frames| && frames[i].generation == m
  }

  ghost predicate NotedIn(claim: Option<Pipe.SignalClaim>, store: Ack.Store, frames: seq<Frame>, m: nat) {
    claim.Some? && claim.value.signalId in store.signals ==>
      var b := store.signals[claim.value.signalId];
      && (Sent(frames, m) ==> b.delivered == claim.value.eventRefs && b.drain == claim.value.eventRefs)
      && (!Sent(frames, m) ==> b.delivered == [])
  }

  /** The live claim's batch counts as delivered exactly when a frame of it was written. */
  ghost predicate Noted(s: Sys) {
    NotedIn(s.pipe.claim, s.tally.store, s.frames, s.arm.generation)
  }

  /** In a store whose batches of other generations are closed, the claim's batch can be noted. */
  lemma SendIsNoted(claim: Option<Pipe.SignalClaim>, arm: KnownArm, store: Ack.Store, g0: nat)
    requires ClaimSide(claim, arm, store) && AckRuns.Shape(store, g0) && claim.Some? && Distinct(claim.value.eventRefs)
    requires arm.generation <= store.arm.value.generation
    ensures var c := claim.value;
            var t := Ack.NoteDelivered(store, c.signalId, c.eventRefs, c.eventRefs).0;
            && c.signalId in t.signals
            && t.signals[c.signalId].delivered == c.eventRefs && t.signals[c.signalId].drain == c.eventRefs
  {
    var c := claim.value;
    var b := store.signals[c.signalId];
    assert AckRuns.FitsBatch(store, g0, b);
    assert c.eventRefs != [] by { assert |c.eventRefs| == |c.events|; }
    assert b.delivered == [] ==> Ack.IsOpen(store, c.signalId);
    assert forall o | o in store.signals && Ack.IsOpen(store, o) && Ack.IsOpen(store, c.signalId) :: o == c.signalId;
    AckLaws.DeliveryIsNoted(store, g0, c.signalId, c.eventRefs, c.eventRefs);
    hide Ack.NoteDelivered, AckRuns.Shape, Distinct;
  }

  lemma SentOneMore(frames: seq<Frame>, frame: Frame, m: nat)
    ensures Sent(frames + [frame], m) <==> Sent(frames, m) || frame.generation == m
  {
    var more := frames + [frame];
    assert more[|frames|] == frame;
    if Sent(frames, m) {
      var i :| 0 <= i < |frames| && frames[i].generation == m;
      assert more[i].generation == m;
    }
  }

  lemma ClaimIsDistinct(s: Sys, base: Id, g0: nat)
    requires Inv(s, base, g0) && s.pipe.claim.Some?
    ensures Distinct(s.pipe.claim.value.eventRefs) && s.pipe.claim.value.generation == s.arm.generation
    ensures AckRuns.Shape(s.tally.store, g0)
    ensures s.tally.store.arm.Some? && s.arm.generation <= s.tally.store.arm.value.generation
    ensures s.pipe.claim.value.signalId in s.tally.store.signals
    ensures s.pipe.claim.value.eventRefs == Refs(s.pipe.claim.value.events) && s.pipe.claim.value.eventRefs != []
  {
    hide Acked, Covered, AckRuns.Shape, DeliverySide, HoldSide, MainSide, LinkSide, PendingRearms;
  }

  lemma FlushNoted(s: Sys, base: Id, g0: nat, now: Time, sendOk: bool, mint: Id)
    requires Inv(s, base, g0) && Noted(s)
    ensures Noted(DoFlush(s, now, sendOk, mint))
  {
    hide Inv, AckSide, Agreement, ClaimSide, LogSide, DeliverySide, HoldSide, LinkSide, MainSide, Sent, Distinct;
    if s.main.FlushWith? && s.served.Some? {
      Parts(s, base, g0);
      OwnLedger(s.pipe, s.frames, s.arm.generation);
      if s.pipe.claim.Some? {
        ClaimIsDistinct(s, base, g0);
        SendIsNoted(s.pipe.claim, s.arm, s.tally.store, g0);
      }
      FlushEffect(s.main.link, s.pipe, s.tally.store, now, sendOk, mint);
      hide Pipe.Flush, Ack.NoteDelivered, LedgerKeeps, LedgerOf, AckRuns.Shape;
      var sent := Pipe.Flush(s.main.link, s.pipe, s.tally.store, now, Pipe.Io(sendOk, None), mint).3;
      if sent.Some? {
        SentOneMore(s.frames, Frame(s.arm.generation, sent.value), s.arm.generation);
      }
    }
  }

  /** A step that leaves claim, frames and delivered prefixes alone. */
  lemma SameNoted(s: Sys, t: Sys)
    requires Noted(s) && t.pipe.claim == s.pipe.claim && t.frames == s.frames && t.arm == s.arm
    requires s.pipe.claim.Some? ==>
               var id := s.pipe.claim.value.signalId;
               id in t.tally.store.signals ==>
                 && id in s.tally.store.signals
                 && t.tally.store.signals[id].delivered == s.tally.store.signals[id].delivered
                 && t.tally.store.signals[id].drain == s.tally.store.signals[id].drain
    ensures Noted(t)
  {
    hide Sent;
  }

  lemma PollNoted(s: Sys, base: Id, g0: nat, result: WaiterLink)
    requires Inv(s, base, g0) && Noted(s)
    ensures Noted(DoPollResult(s, result))
  {
    hide Inv, AckSide, Agreement, ClaimSide, LogSide, DeliverySide, HoldSide, LinkSide, MainSide, Noted;
    if s.main.Head? && s.served.Some? {
      Parts(s, base, g0);
      OwnLedger(s.pipe, s.frames, s.arm.generation);
      ApplyEffect(s.pipe, s.tally.store, result);
      ReturnEffect(s.tally.store, if result.DeliveryResult? then result.signalId else "");
      hide Pipe.ApplyVisible, LedgerKeeps, LedgerOf, Ack.NoteReturn;
      SameNoted(s, DoPollResult(s, result));
    }
  }

  lemma AckNoted(s: Sys, base: Id, g0: nat, request: HandledCursor, now: Time)
    requires Inv(s, base, g0) && Noted(s)
    ensures Noted(DoAck(s, request, now))
  {
    hide Inv, AckSide, Agreement, ClaimSide, LogSide, DeliverySide, HoldSide, LinkSide, MainSide, Noted;
    if s.accept.Idle? {
      Parts(s, base, g0);
      AckTallied(s.tally, s.arm, g0);
      TalliedShape(s.tally, g0);
      hide AckRuns.Tallied, AckRuns.Shape;
      HandleEffect(s.tally.store, g0, request, now);
      CountedStore(s.tally, request, now);
      hide AckRuns.Count, Ack.ApplyHandled;
      SameNoted(s, DoAck(s, request, now));
    }
  }

  lemma CountedStore(tally: AckRuns.Tally, request: HandledCursor, now: Time)
    ensures AckRuns.Count(tally, AckRuns.Handle(request, now)).store == Ack.ApplyHandled(tally.store, request, now).0
  {
    hide Ack.ApplyHandled;
  }

  /** A new claim is registered and not delivered, and nothing was written for it. */
  lemma IngestNoted(s: Sys, base: Id, g0: nat, wait: WaitOn.WaitResult,
                    answer: Result<seq<WaitOn.DrainedEvent>, WaitOn.DrainError>, link: Option<Admit.AdmittedLink>,
                    now: Time, id: Id, mint: Id)
    requires Inv(s, base, g0) && s.pipe.claim.None? && id !in s.tally.store.signals
    ensures Noted(Ingested(s, wait, answer, link, now, id, mint).0)
  {
    hide Inv, NothingOpen, AckRuns.Shape, Pipe.HasLoss, NewClaim, LedgerOf, ValidLink;
    SameArm(s, base, g0);
    IngestEffect(s.after, wait, answer, s.arm, link, now, s.tally.store, g0, id, mint);
    NothingSent(s, base, g0);
    if Claims(wait, answer) {
      RegisterEffect(s.tally.store, g0, id, Pipe.HasLoss(answer.value));
      ClaimNames(s.arm, id, answer.value, now);
    }
    hide Pipe.IngestMatch, Pipe.Register, Claims, Sent;
  }

  lemma ClaimNames(arm: KnownArm, id: Id, page: seq<WaitOn.DrainedEvent>, now: Time)
    ensures NewClaim(arm, id, page, now).signalId == id
  {
  }

  lemma NothingSent(s: Sys, base: Id, g0: nat)
    requires Inv(s, base, g0) && s.pipe.claim.None?
    ensures !Sent(s.frames, s.arm.generation)
  {
    hide AckSide, Agreement, ClaimSide, LogSide, HoldSide, LinkSide, MainSide;
  }

  lemma PipeNoted(s: Sys, t: Sys)
    requires Noted(s) && t.pipe == s.pipe && t.tally == s.tally && t.frames == s.frames && t.arm == s.arm
    ensures Noted(t)
  {
  }

  lemma IngestActionNoted(s: Sys, base: Id, g0: nat, a: Action)
    requires Inv(s, base, g0) && Noted(s) && (a.Ingest? || a.ClaimSuffix?)
    ensures Noted(Do(s, base, a))
  {
    hide Inv, Noted, Answer, MainSide, Ingested;
    if a.mintSignal !in s.tally.store.signals && (s.main.Ingesting? || s.main.Claiming?) {
      NoneClaimed(s, base, g0);
      if a.Ingest? && s.main.Ingesting? {
        var answer := Answer(s.log, s.after, a.drain);
        var t := Ingested(s, WaitOn.FromCode(s.main.code), answer, s.main.link, a.now, a.mintSignal, a.mintDelivery).0;
        IngestNoted(s, base, g0, WaitOn.FromCode(s.main.code), answer, s.main.link, a.now, a.mintSignal,
                    a.mintDelivery);
        PipeNoted(t, DoIngest(s, a.now, a.drain, a.mintSignal, a.mintDelivery, a.spawnOk));
      } else if a.ClaimSuffix? && s.main.Claiming? {
        var t := Ingested(s, WaitOn.Matched, Ok(s.main.page), None, a.now, a.mintSignal, "").0;
        IngestNoted(s, base, g0, WaitOn.Matched, Ok(s.main.page), None, a.now, a.mintSignal, "");
        PipeNoted(t, DoClaim(s, a.now, a.mintSignal));
      }
    }
  }

  /** An applied rearm ends the claim. */
  lemma RecvNoted(s: Sys, base: Id, g0: nat)
    requires Inv(s, base, g0) && Noted(s)
    ensures Noted(DoRecv(s))
  {
    hide Inv, Noted, StepLaw, DoRecv;
    RecvLaw(s, base, g0);
    RecvFields(s);
    if DoRecv(s).pipe == s.pipe && DoRecv(s).arm == s.arm {
      PipeNoted(s, DoRecv(s));
    } else {
      NoClaimNoted(DoRecv(s));
    }
  }

  lemma RecvFields(s: Sys)
    ensures var t := DoRecv(s);
            && t.tally == s.tally && t.frames == s.frames
            && ((t.pipe == s.pipe && t.arm == s.arm) || t.pipe == Pipe.EMPTY_PIPE)
  {
    hide Pipe.RetainLive;
  }

  lemma NoClaimNoted(s: Sys)
    requires s.pipe.claim.None?
    ensures Noted(s)
  {
  }

  lemma LossNoted(s: Sys, base: Id, g0: nat, a: Action)
    requires Inv(s, base, g0) && Noted(s) && (a.Adopt? || a.Revoke?)
    ensures Noted(Do(s, base, a))
  {
    hide Inv, Noted, Deliver.RecordResult, Admit.DropSession;
    SameNoted(s, Do(s, base, a));
  }

  lemma QuietNoted(s: Sys, base: Id, a: Action)
    requires Noted(s) && IsQuiet(a) && !a.AckArrives?
    ensures Noted(Do(s, base, a))
  {
    hide Noted, Admit.Prepare, Admit.CommitPrepared, Answer, Pipe.RevokeOlder, DoAck, DoRecv, DoAdopt, DoFlush,
         DoRevoke, DoPollResult, DoIngest, DoClaim;
    PipeNoted(s, Do(s, base, a));
  }

  lemma StepKeepsNoted(s: Sys, base: Id, g0: nat, a: Action)
    requires Inv(s, base, g0) && Noted(s)
    ensures Noted(Do(s, base, a))
  {
    hide Inv, Noted, DoAppend, DoAdopt, DoRevoke, DoChildExit, DoIngest, DoRevokeOld, DoDrain, DoClaim,
         DoAttachArrives, DoPrepare, DoCommit, DoAck, DoSend, HaltWith, DoRecv, DoFlush, DoPollResult, DoReadLink;
    match a
    case Recv => RecvNoted(s, base, g0);
    case FlushNow(now, sendOk, mint) => FlushNoted(s, base, g0, now, sendOk, mint);
    case PollResult(result) => PollNoted(s, base, g0, result);
    case AckArrives(ack, now) => AckNoted(s, base, g0, ack, now);
    case Ingest(_, _, _, _, _) => IngestActionNoted(s, base, g0, a);
    case ClaimSuffix(_, _) => IngestActionNoted(s, base, g0, a);
    case Adopt(_, _) => LossNoted(s, base, g0, a);
    case Revoke(_) => LossNoted(s, base, g0, a);
    case _ => QuietNoted(s, base, a);
  }

  lemma {:induction false} RunKeepsNoted(s: Sys, base: Id, g0: nat, actions: seq<Action>)
    requires Inv(s, base, g0) && Noted(s)
    ensures Noted(Run(s, base, actions))
    decreases |actions|
  {
    hide Inv, Do, Noted;
    if actions != [] {
      var mid := Run(s, base, actions[..|actions| - 1]);
      RunKeepsNoted(s, base, g0, actions[..|actions| - 1]);
      RunKeepsInv(s, base, g0, actions[..|actions| - 1]);
      StepKeepsNoted(mid, base, g0, actions[|actions| - 1]);
    }
  }

  /** Main result: in every reachable state the live claim's batch counts as delivered, whole
      and to its last event, exactly when a frame of its generation was written. */
  lemma SentIsDelivered(base: Id, arm: KnownArm, actions: seq<Action>)
    requires arm.generation <= MAX_U64
    ensures var s := Reached(base, arm, actions);
            s.pipe.claim.Some? ==>
              var c := s.pipe.claim.value;
              && c.signalId in s.tally.store.signals && c.eventRefs != []
              && var b := s.tally.store.signals[c.signalId];
                 if exists i :: 0 <= i < |s.frames| && s.frames[i].generation == s.arm.generation
                 then b.delivered == c.eventRefs && b.drain == c.eventRefs else b.delivered == []
  {
    hide Run, Inv, Init;
    ReachedInv(base, arm, actions);
    InitInv(base, arm);
    InitEmpty(base, arm);
    NoClaimNoted(Init(base, arm));
    RunKeepsNoted(Init(base, arm), base, arm.generation, actions);
    var s := Reached(base, arm, actions);
    if s.pipe.claim.Some? {
      ClaimIsDistinct(s, base, arm.generation);
    }
    hide Reached;
  }

  lemma InitEmpty(base: Id, arm: KnownArm)
    ensures Init(base, arm).pipe.claim.None?
  {
  }

  // ----- a lost attempt is written again -----

  /** A delivery without an outcome, of the live claim, that this link may carry. */
  predicate MayCarry(link: Admit.AdmittedLink, claim: Option<Pipe.SignalClaim>, p: Deliver.Pending) {
    && claim.Some? && p.message.DeliverEvents? && ValidLink(p.message) && !p.attempt.Terminal?
    && p.deliveryId == p.message.deliveryId && p.linkId == p.message.linkId
    && p.message.signalId == claim.value.signalId && p.message.events == claim.value.events
    && p.message.armId == link.armId && p.message.generation == link.generation && p.message.route == link.route
    && IsUlid(link.linkId)
  }

  /** The same batch under the same delivery id, for another link. */
  function ForLink(p: Deliver.Pending, link: Admit.AdmittedLink, now: Time): WaiterLink
    requires p.message.DeliverEvents?
  {
    p.message.(linkId := link.linkId, attemptedAt := Some(now))
  }

  /** With nothing claimed, no link, or an outcome recorded, a flush does nothing at all; over
      a link whose lease is over it asks for that link to be revoked, and does nothing else. */
  lemma NothingIsAttempted(link: Option<Admit.AdmittedLink>, pipe: Pipe.Value, acks: Ack.Store, now: Time,
                           sendOk: bool, mint: Id)
    ensures var idle := pipe.claim.None? || link.None? || (pipe.ledger.Some? && pipe.ledger.value.attempt.Terminal?);
            idle || now >= link.value.leaseUntil ==>
              Pipe.Flush(link, pipe, acks, now, Pipe.Io(sendOk, None), mint) == (pipe, acks, !idle, None)
  {
    hide Pipe.DeliverClaimed;
  }

  /** A pending delivery is written over a live link exactly when its last attempt is not out
      any more, the waiter takes the frame, and the payload fits; it then awaits the result
      of that link. */
  lemma PendingIsExact(link: Admit.AdmittedLink, pipe: Pipe.Value, acks: Ack.Store, now: Time, sendOk: bool, mint: Id)
    requires pipe.ledger.Some? && MayCarry(link, pipe.claim, pipe.ledger.value) && now < link.leaseUntil
    ensures var p := pipe.ledger.value;
            var message := ForLink(p, link, now);
            var (next, _, revoke, sent) := Pipe.Flush(Some(link), pipe, acks, now, Pipe.Io(sendOk, None), mint);
            && sent == (if !pipe.attempted && sendOk && Codec.Fits(message) then Some(message) else None)
            && next.claim == pipe.claim
            && next.ledger == Some(p.(message := message, linkId := link.linkId, attempt := Deliver.Awaiting))
            && (sent.None? ==> next.attempted == pipe.attempted && revoke == !pipe.attempted)
            && (sent.Some? ==> next.attempted == !revoke)
  {
    hide IsUlid, IsAttachedRoute, AreEvents, Ack.NoteDelivered, Codec.PayloadBytes;
    var p := pipe.ledger.value;
    assert ValidLink(ForLink(p, link, now));
    assert Deliver.Redeliver(pipe.ledger, link, now)
        == (Some(p.(message := ForLink(p, link, now), linkId := link.linkId, attempt := Deliver.Awaiting)),
            Ok(ForLink(p, link, now)));
    hide Deliver.Redeliver, ValidLink;
  }

  /** Main result: an attempt that is out is not written again, but once its session is lost
      the same batch, under the same delivery id, goes to the successor link. */
  lemma LostIsWrittenAgain(link: Admit.AdmittedLink, pipe: Pipe.Value, acks: Ack.Store, lostAt: Time, now: Time,
                           mint: Id)
    requires pipe.ledger.Some? && MayCarry(link, pipe.claim, pipe.ledger.value) && now < link.leaseUntil
    requires pipe.attempted && pipe.ledger.value.attempt.Awaiting?
    ensures var p := pipe.ledger.value;
            var lost := Pipe.MarkLost(pipe, lostAt);
            var message := ForLink(p, link, now);
            && Pipe.Flush(Some(link), pipe, acks, now, Pipe.Io(true, None), mint).3.None?
            && lost == Pipe.Value(Some(p.(attempt := Deliver.Lost)), pipe.claim, false)
            && Pipe.Flush(Some(link), lost, acks, now, Pipe.Io(true, None), mint).3
               == (if Codec.Fits(message) then Some(message) else None)
  {
    hide IsUlid, IsAttachedRoute, AreEvents, Codec.PayloadBytes, Pipe.Flush, Codec.Fits;
    PendingIsExact(link, pipe, acks, now, true, mint);
    var lost := Pipe.MarkLost(pipe, lostAt);
    assert lost.ledger == Some(pipe.ledger.value.(attempt := Deliver.Lost));
    PendingIsExact(link, lost, acks, now, true, mint);
  }

  // ----- what a waiter's result does -----

  /** The result is well formed and names the pending delivery, its link and its signal. */
  predicate Correlated(pipe: Pipe.Value, result: WaiterLink) {
    && ValidLink(result) && result.DeliveryResult? && pipe.ledger.Some? && pipe.ledger.value.message.DeliverEvents?
    && result.deliveryId == pipe.ledger.value.deliveryId && result.linkId == pipe.ledger.value.linkId
    && result.signalId == pipe.ledger.value.message.signalId
  }

  /** A result is the outcome exactly when it is correlated, no loss, and comes first or says
      the same again; a completed return then lifts the hold. Anything else is a loss. */
  lemma ResultIsExact(pipe: Pipe.Value, acks: Ack.Store, result: WaiterLink)
    ensures var (next, acks', applied) := Pipe.ApplyVisible(pipe, acks, result);
            && next.claim == pipe.claim
            && (applied == Pipe.RevokeTerminal <==>
                  && Correlated(pipe, result) && result.outcome != LinkLost
                  && pipe.ledger.value.attempt in {Deliver.Awaiting, Deliver.Terminal(result.outcome)})
            && (if applied == Pipe.RevokeTerminal then
                  && next.ledger == Some(pipe.ledger.value.(attempt := Deliver.Terminal(result.outcome)))
                  && next.attempted == pipe.attempted
                  && acks' == (if result.outcome == ReturnCompleted then Ack.NoteReturn(acks, result.signalId).0
                               else acks)
                else
                  && applied == Pipe.RevokeLost && !next.attempted && acks' == acks
                  && next.ledger == (if Correlated(pipe, result) && result.outcome == LinkLost
                                        && pipe.ledger.value.attempt.Awaiting?
                                     then Some(pipe.ledger.value.(attempt := Deliver.Lost)) else pipe.ledger))
  {
    hide ValidLink, Ack.NoteReturn;
  }

  // ----- a result read at once, and a batch met again -----

  /** What follows a written frame that was noted: without a correlated result it is awaited;
      a correlated one is recorded, a loss frees the attempt, a completed return lifts the
      hold. A batch that could not be noted halts coverage. */
  lemma AfterSendIsExact(live: Pipe.SignalClaim, pipe: Pipe.Value, acks: Ack.Store, message: WaiterLink,
                         result: Option<WaiterLink>, coverage: Pipe.Coverage)
    requires message.DeliverEvents?
    ensures var d := Pipe.AfterSend(live, pipe, acks, message, result, coverage, true);
            var (noted, r) := Ack.NoteDelivered(acks, live.signalId, Refs(message.events), live.eventRefs);
            && d.sent == Some(message) && d.pipe.claim == pipe.claim
            && (if r.Err? then d.acks == noted && d.pipe == pipe && d.outcome.coverage == Pipe.Halt(2)
                else
                  && d.outcome.coverage == coverage && d.outcome.deliveryId == Some(message.deliveryId)
                  && if result.Some? && Correlated(pipe, result.value)
                        && Settles(pipe.ledger.value, result.value.outcome) then
                       var outcome := result.value.outcome;
                       var p := pipe.ledger.value;
                       && d.pipe.attempted == (outcome != LinkLost) && d.outcome.resultOutcome == Some(outcome)
                       && d.pipe.ledger == (if !p.attempt.Awaiting? then Some(p)
                                            else if outcome == LinkLost then Some(p.(attempt := Deliver.Lost))
                                            else Some(p.(attempt := Deliver.Terminal(outcome))))
                       && d.acks == (if outcome == ReturnCompleted then Ack.NoteReturn(noted, result.value.signalId).0
                                     else noted)
                     else d.acks == noted && d.pipe == pipe.(attempted := true) && d.outcome.resultOutcome.None?)
  {
    hide ValidLink, Ack.NoteDelivered, Ack.NoteReturn;
  }

  /** The outcome comes first, or repeats what the attempt already says. */
  predicate Settles(p: Deliver.Pending, outcome: Outcome) {
    match p.attempt
    case Awaiting => true
    case Lost => outcome == LinkLost
    case Terminal(existing) => outcome == existing
  }

  /** A live claim is kept: the same batch for the same arm is met again, any other refused. */
  lemma ReuseIsExact(claim: Pipe.SignalClaim, arm: KnownArm, events: seq<ProviderEvent>, mint: Id)
    ensures var (next, live) := Pipe.ClaimOrReuse(Some(claim), arm, events, mint);
            && next == Some(claim)
            && live == (if claim.armId == arm.armId && claim.generation == arm.generation && claim.events == events
                        then Some(claim) else None)
  {
  }
}
