/** What no step of the daemon can do: replace a claim without an acknowledgement, send a
    finished delivery again, or release a held page without its receipt. */
module DaemonLaws {
  import opened Prelude
  import opened Messages
  import opened WaitOn
  import opened Daemon
  import opened DaemonInv
  import opened DaemonSteps
  import opened DaemonCoverage
  import opened DaemonTheorems
  import Ack
  import AckRuns
  import Admit
  import Deliver
  import Pipe

  // ----- the law of one step -----

  /** A live claim stays until the acknowledgement that closed its signal is applied. */
  ghost predicate KeepsClaim(s: Sys, t: Sys) {
    if t.arm == s.arm then s.pipe.claim.Some? ==> t.pipe.claim == s.pipe.claim
    else
      && t.arm == s.arm.(generation := s.arm.generation + 1) && t.pipe == Pipe.EMPTY_PIPE
      && s.pipe.claim.Some? && s.pipe.claim.value.signalId in s.tally.store.signals
      && s.tally.store.signals[s.pipe.claim.value.signalId].closed
  }

  ghost predicate Finished(ledger: Deliver.Ledger) {
    ledger.Some? && ledger.value.attempt.Terminal?
  }

  /** Within a generation the pending delivery keeps its id, and its outcome once it has one. */
  ghost predicate KeepsDelivery(s: Sys, t: Sys) {
    t.arm == s.arm && s.pipe.ledger.Some? ==>
      && t.pipe.ledger.Some? && t.pipe.ledger.value.deliveryId == s.pipe.ledger.value.deliveryId
      && (Finished(s.pipe.ledger) ==> t.pipe.ledger.value.attempt == s.pipe.ledger.value.attempt)
  }

  /** A step writes at most one frame: the batch of the live claim, not yet finished. */
  ghost predicate AddsFrame(s: Sys, t: Sys) {
    t.frames == s.frames
    || (exists sent ::
          && t.frames == s.frames + [Frame(s.arm.generation, sent)]
          && s.pipe.claim.Some? && !Finished(s.pipe.ledger)
          && sent.DeliverEvents? && sent.signalId == s.pipe.claim.value.signalId
          && sent.events == s.pipe.claim.value.events)
  }

  ghost predicate StepLaw(s: Sys, t: Sys) {
    KeepsClaim(s, t) && KeepsDelivery(s, t) && AddsFrame(s, t)
  }

  lemma QuietStep(s: Sys, t: Sys)
    requires t.pipe == s.pipe && t.frames == s.frames && t.arm == s.arm
    ensures StepLaw(s, t)
  {
  }

  lemma LedgerStep(s: Sys, t: Sys)
    requires t.pipe.claim == s.pipe.claim && t.frames == s.frames && t.arm == s.arm
    requires LedgerKeeps(s.pipe.ledger, t.pipe.ledger)
    ensures StepLaw(s, t)
  {
  }

  /** The actions that touch neither the pipe, the main thread's arm nor the frames. */
  predicate IsQuiet(a: Action) {
    !a.Recv? && !a.Adopt? && !a.FlushNow? && !a.Revoke? && !a.PollResult? && !a.Ingest? && !a.ClaimSuffix?
  }

  lemma QuietActions(s: Sys, base: Id, a: Action)
    requires IsQuiet(a)
    ensures StepLaw(s, Do(s, base, a))
  {
    hide StepLaw, AckRuns.Count, Admit.Prepare, Admit.CommitPrepared, Answer, Pipe.RevokeOlder;
    QuietStep(s, Do(s, base, a));
  }

  lemma RecvLaw(s: Sys, base: Id, g0: nat)
    requires Inv(s, base, g0)
    ensures StepLaw(s, DoRecv(s))
  {
    hide Inv, StepLaw, PendingRearms;
    if s.main.Head? && s.channel != [] && s.channel[0].CoverageRearm? {
      HeadPending(s);
      PendingClosesClaim(s, base, g0);
      RecvRearm(s);
      hide DoRecv;
      ClosedByRearm(s, base, g0);
      AppliedLaw(s, DoRecv(s));
    } else {
      QuietStep(s, DoRecv(s));
    }
  }

  lemma AppliedLaw(s: Sys, t: Sys)
    requires t.arm == s.arm.(generation := s.arm.generation + 1) && t.pipe == Pipe.EMPTY_PIPE && t.frames == s.frames
    requires s.pipe.claim.Some? && s.pipe.claim.value.signalId in s.tally.store.signals
    requires s.tally.store.signals[s.pipe.claim.value.signalId].closed
    ensures StepLaw(s, t)
  {
  }

  lemma ClosedByRearm(s: Sys, base: Id, g0: nat)
    requires Inv(s, base, g0) && PendingRearms(s.channel, s.accept) != []
    ensures s.pipe.claim.Some? && s.pipe.claim.value.signalId in s.tally.store.signals
    ensures s.tally.store.signals[s.pipe.claim.value.signalId].closed
  {
    hide Inv, PendingRearms, ClaimSide, LogSide, DeliverySide, HoldSide, LinkSide, MainSide, NothingOpen,
         AckRuns.Tallied;
    PendingClosesClaim(s, base, g0);
    Parts(s, base, g0);
    TalliedShape(s.tally, g0);
    assert AckRuns.Announces(s.tally.store, s.tally.rearms[s.arm.generation - g0], s.arm.generation);
  }

  lemma LossLaw(s: Sys, base: Id, g0: nat, a: Action)
    requires Inv(s, base, g0) && (a.Adopt? || a.Revoke?)
    ensures StepLaw(s, Do(s, base, a))
  {
    hide Inv, StepLaw, AckSide, Agreement, ClaimSide, LogSide, DeliverySide, HoldSide, LinkSide, MainSide;
    Parts(s, base, g0);
    MarkLostKeeps(s.pipe, a.now, s.frames, s.arm.generation);
    hide Pipe.MarkLost, LedgerKeeps;
    var t := Do(s, base, a);
    if t.pipe == s.pipe {
      QuietStep(s, t);
    } else {
      LedgerStep(s, t);
    }
  }

  lemma PollLaw(s: Sys, base: Id, g0: nat, result: WaiterLink)
    requires Inv(s, base, g0)
    ensures StepLaw(s, DoPollResult(s, result))
  {
    hide Inv, StepLaw, AckSide, Agreement, ClaimSide, LogSide, DeliverySide, HoldSide, LinkSide, MainSide;
    Parts(s, base, g0);
    OwnLedger(s.pipe, s.frames, s.arm.generation);
    ApplyEffect(s.pipe, s.tally.store, result);
    hide Pipe.ApplyVisible, LedgerKeeps, LedgerOf;
    var t := DoPollResult(s, result);
    if t == s {
      QuietStep(s, t);
    } else {
      LedgerStep(s, t);
    }
  }

  lemma ClaimRefs(s: Sys, base: Id, g0: nat)
    requires Inv(s, base, g0) && s.pipe.claim.Some?
    ensures s.pipe.claim.value.eventRefs == Refs(s.pipe.claim.value.events)
    ensures s.pipe.claim.value.generation == s.arm.generation
  {
    hide AckSide, Agreement, LogSide, DeliverySide, HoldSide, LinkSide, MainSide;
  }

  lemma FlushLaw(s: Sys, base: Id, g0: nat, now: Time, sendOk: bool, mint: Id)
    requires Inv(s, base, g0)
    ensures StepLaw(s, DoFlush(s, now, sendOk, mint))
  {
    hide Inv, StepLaw, AckSide, Agreement, ClaimSide, LogSide, DeliverySide, HoldSide, LinkSide, MainSide;
    var t := DoFlush(s, now, sendOk, mint);
    if s.main.FlushWith? && s.served.Some? {
      Parts(s, base, g0);
      OwnLedger(s.pipe, s.frames, s.arm.generation);
      if s.pipe.claim.Some? {
        ClaimRefs(s, base, g0);
      }
      FlushEffect(s.main.link, s.pipe, s.tally.store, now, sendOk, mint);
      hide Pipe.Flush;
      var (next, acks, revoke, sent) :=
        Pipe.Flush(s.main.link, s.pipe, s.tally.store, now, Pipe.Io(sendOk, None), mint);
      SentLaw(s, t, acks, sent);
    } else {
      QuietStep(s, t);
    }
  }

  lemma SentLaw(s: Sys, t: Sys, acks: Ack.Store, sent: Option<WaiterLink>)
    requires FlushShape(s.pipe, s.tally.store, t.pipe, acks, sent) && t.arm == s.arm
    requires s.main.FlushWith? && (s.pipe.claim.Some? ==> s.pipe.claim.value.generation == s.arm.generation)
    requires t.frames == if sent.Some? && s.pipe.claim.Some?
                         then s.frames + [Frame(s.pipe.claim.value.generation, sent.value)] else s.frames
    ensures StepLaw(s, t)
  {
    if sent.Some? && s.pipe.claim.Some? {
      assert t.frames == s.frames + [Frame(s.arm.generation, sent.value)];
    }
  }

  /** With no claim an ingest has nothing to replace. */
  lemma IngestLaw(s: Sys, base: Id, g0: nat, a: Action)
    requires Inv(s, base, g0) && (a.Ingest? || a.ClaimSuffix?)
    ensures StepLaw(s, Do(s, base, a))
  {
    hide Inv, AckSide, Agreement, ClaimSide, LogSide, HoldSide, LinkSide, Pipe.IngestMatch, Answer, Segment, Covered;
    Parts(s, base, g0);
  }

  /** Main result: every step of either thread obeys the law. */
  lemma StepObeys(s: Sys, base: Id, g0: nat, a: Action)
    requires Inv(s, base, g0)
    ensures StepLaw(s, Do(s, base, a))
  {
    hide Inv, StepLaw, DoAppend, DoAdopt, DoRevoke, DoChildExit, DoIngest, DoRevokeOld, DoDrain, DoClaim,
         DoAttachArrives, DoPrepare, DoCommit, DoAck, DoSend, HaltWith, DoRecv, DoFlush, DoPollResult;
    match a
    case Recv => RecvLaw(s, base, g0);
    case FlushNow(now, sendOk, mint) => FlushLaw(s, base, g0, now, sendOk, mint);
    case PollResult(result) => PollLaw(s, base, g0, result);
    case Adopt(_, _) => LossLaw(s, base, g0, a);
    case Revoke(_) => LossLaw(s, base, g0, a);
    case Ingest(_, _, _, _, _) => IngestLaw(s, base, g0, a);
    case ClaimSuffix(_, _) => IngestLaw(s, base, g0, a);
    case _ => QuietActions(s, base, a);
  }

  // ----- one stable delivery per generation -----

  /** Main result: all frames written in one generation carry the same delivery id, signal
      and events, whatever links they went to. */
  lemma StableDelivery(base: Id, arm: KnownArm, actions: seq<Action>)
    requires arm.generation <= MAX_U64
    ensures var s := Reached(base, arm, actions);
            && (forall i, j | 0 <= i < |s.frames| && 0 <= j < |s.frames| ::
                  s.frames[i].generation == s.frames[j].generation ==>
                    SameDelivery(s.frames[i].message, s.frames[j].message))
            && (forall i | 0 <= i < |s.frames| :: s.frames[i].generation <= s.arm.generation)
  {
    hide Reached;
    ReachedInv(base, arm, actions);
    var s := Reached(base, arm, actions);
    hide Inv, AckSide, Agreement, ClaimSide, LogSide, HoldSide, LinkSide, MainSide;
    Parts(s, base, arm.generation);
  }

  /** A finished delivery stays finished until its generation is over, and the frames
      written since `s` belong to later generations. */
  ghost predicate SilentSince(s: Sys, t: Sys) {
    && s.arm.generation <= t.arm.generation
    && s.frames <= t.frames
    && (forall i | |s.frames| <= i < |t.frames| :: s.arm.generation < t.frames[i].generation)
    && (t.arm.generation == s.arm.generation ==>
          && t.arm == s.arm && s.pipe.ledger.Some? && t.pipe.ledger.Some?
          && t.pipe.ledger.value.deliveryId == s.pipe.ledger.value.deliveryId
          && t.pipe.ledger.value.attempt == s.pipe.ledger.value.attempt)
  }

  lemma SilentStep(s: Sys, t: Sys, u: Sys)
    requires Finished(s.pipe.ledger) && SilentSince(s, t) && StepLaw(t, u)
    ensures SilentSince(s, u)
  {
  }

  /** Main result: whatever losses, late or forged results and successor links follow, a
      delivery with a recorded outcome keeps that outcome and is never written again. */
  lemma {:induction false} FinishedIsFinal(s: Sys, base: Id, g0: nat, actions: seq<Action>)
    requires Inv(s, base, g0) && Finished(s.pipe.ledger)
    ensures SilentSince(s, Run(s, base, actions))
    decreases |actions|
  {
    hide Inv, Do, StepLaw;
    if actions != [] {
      var mid := Run(s, base, actions[..|actions| - 1]);
      FinishedIsFinal(s, base, g0, actions[..|actions| - 1]);
      hide SilentSince;
      RunKeepsInv(s, base, g0, actions[..|actions| - 1]);
      StepObeys(mid, base, g0, actions[|actions| - 1]);
      SilentStep(s, mid, Run(s, base, actions));
    }
  }

  // ----- lossy pages are seen before they are handled -----

  /** Main result: a page that lost content locally is handled only after a visible
      receipt of it was confirmed. */
  lemma VisibleBeforeAck(base: Id, arm: KnownArm, actions: seq<Action>)
    requires arm.generation <= MAX_U64
    ensures var s := Reached(base, arm, actions);
            forall id | id in s.tally.store.signals && id in s.lossy ::
              s.tally.store.signals[id].handled.Some? ==> id in s.completed
  {
    hide Reached;
    ReachedInv(base, arm, actions);
    var s := Reached(base, arm, actions);
    hide Inv, AckSide, Agreement, ClaimSide, LogSide, DeliverySide, LinkSide, MainSide;
    Parts(s, base, arm.generation);
  }

  /** A receipt is confirmed only by a `return_completed` result that names the pending
      delivery, its current link and the signal of the live claim, and is recorded. */
  ghost predicate ConfirmsReceipt(s: Sys, t: Sys, a: Action) {
    && a.PollResult? && a.result.DeliveryResult? && a.result.outcome == ReturnCompleted
    && t.completed == s.completed + {a.result.signalId}
    && s.pipe.claim.Some? && s.pipe.claim.value.signalId == a.result.signalId
    && s.pipe.ledger.Some? && s.pipe.ledger.value.deliveryId == a.result.deliveryId
    && s.pipe.ledger.value.linkId == a.result.linkId
    && t.pipe.ledger.Some? && t.pipe.ledger.value.attempt == Deliver.Terminal(ReturnCompleted)
  }

  lemma OnlyReceiptsComplete(s: Sys, base: Id, g0: nat, a: Action)
    requires Inv(s, base, g0)
    ensures var t := Do(s, base, a);
            t.completed == s.completed || ConfirmsReceipt(s, t, a)
  {
    hide Inv, AckSide, Agreement, ClaimSide, LogSide, HoldSide, LinkSide, MainSide, DeliverySide;
    if a.PollResult? {
      Parts(s, base, g0);
      OwnLedger(s.pipe, s.frames, s.arm.generation);
      ApplyEffect(s.pipe, s.tally.store, a.result);
      hide Pipe.ApplyVisible, LedgerKeeps, LedgerOf;
    } else {
      OthersComplete(s, base, a);
    }
  }

  lemma OthersComplete(s: Sys, base: Id, a: Action)
    requires !a.PollResult?
    ensures Do(s, base, a).completed == s.completed
  {
    hide AckRuns.Count, Admit.Prepare, Admit.CommitPrepared, Answer, Pipe.RevokeOlder, Pipe.IngestMatch, Pipe.Flush,
         Pipe.MarkLost, Pipe.TakeRearm, Admit.DropSession, Pipe.RetainLive;
  }

  /** The page an ingest works on. */
  function PageOf(s: Sys, a: Action): Result<seq<DrainedEvent>, DrainError>
    requires a.Ingest? || a.ClaimSuffix?
  {
    if a.Ingest? then Answer(s.log, s.after, a.drain)
    else if s.main.Claiming? then Ok(s.main.page) else Ok([])
  }

  lemma IngestMarks(s: Sys, base: Id, g0: nat, a: Action)
    requires Inv(s, base, g0) && a.Ingest? && s.pipe.claim.None?
    requires DoIngest(s, a.now, a.drain, a.mintSignal, a.mintDelivery, a.spawnOk).pipe.claim.Some?
    ensures var t := DoIngest(s, a.now, a.drain, a.mintSignal, a.mintDelivery, a.spawnOk);
            && PageOf(s, a).Ok?
            && t.pipe.claim == Some(NewClaim(s.arm, a.mintSignal, PageOf(s, a).value, a.now))
            && (a.mintSignal in t.lossy <==> Pipe.HasLoss(PageOf(s, a).value))
  {
    hide Inv, Pipe.HasLoss, NothingOpen, AckRuns.Shape, AckSide, Agreement, ClaimSide, LogSide, LinkSide, MainSide,
         DeliverySide, Covered, Answer;
    SameArm(s, base, g0);
    Parts(s, base, g0);
    if s.main.Ingesting? && a.mintSignal !in s.tally.store.signals {
      IngestEffect(s.after, FromCode(s.main.code), PageOf(s, a), s.arm, s.main.link, a.now, s.tally.store, g0,
                   a.mintSignal, a.mintDelivery);
      hide Pipe.IngestMatch, LedgerOf, NewClaim, Claims;
    }
  }

  lemma SuffixMarks(s: Sys, base: Id, g0: nat, a: Action)
    requires Inv(s, base, g0) && a.ClaimSuffix? && s.pipe.claim.None?
    requires DoClaim(s, a.now, a.mintSignal).pipe.claim.Some?
    ensures var t := DoClaim(s, a.now, a.mintSignal);
            && PageOf(s, a).Ok?
            && t.pipe.claim == Some(NewClaim(s.arm, a.mintSignal, PageOf(s, a).value, a.now))
            && (a.mintSignal in t.lossy <==> Pipe.HasLoss(PageOf(s, a).value))
  {
    hide Inv, Pipe.HasLoss, NothingOpen, AckRuns.Shape, AckSide, Agreement, ClaimSide, LogSide, LinkSide, MainSide,
         DeliverySide, Covered, Answer;
    SameArm(s, base, g0);
    Parts(s, base, g0);
    if a.mintSignal !in s.tally.store.signals {
      IngestEffect(s.after, Matched, PageOf(s, a), s.arm, None, a.now, s.tally.store, g0, a.mintSignal, "");
      hide Pipe.IngestMatch, LedgerOf, NewClaim, Claims;
    }
  }

  /** A new claim is the drained page, whole and in order, and is held for a receipt
      exactly when the page lost content. */
  lemma NewClaimIsMarked(s: Sys, base: Id, g0: nat, a: Action)
    requires Inv(s, base, g0) && (a.Ingest? || a.ClaimSuffix?)
    requires s.pipe.claim.None? && Do(s, base, a).pipe.claim.Some?
    ensures var t := Do(s, base, a);
            && PageOf(s, a).Ok?
            && t.pipe.claim == Some(NewClaim(s.arm, a.mintSignal, PageOf(s, a).value, a.now))
            && (a.mintSignal in t.lossy <==> Pipe.HasLoss(PageOf(s, a).value))
  {
    hide Inv, Pipe.HasLoss, NewClaim, PageOf, DoIngest, DoClaim;
    if a.Ingest? {
      IngestMarks(s, base, g0, a);
    } else {
      SuffixMarks(s, base, g0, a);
    }
  }
}
