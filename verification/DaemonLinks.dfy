/** Which links the main thread can come to use: those of the arm's route, and of the
    generation it covers or the one the store has moved on to. */
module DaemonLinks {
  import opened Prelude
  import opened Messages
  import opened Daemon
  import opened DaemonInv
  import opened DaemonSteps
  import opened DaemonCoverage
  import opened DaemonTheorems
  import Ack
  import AckRuns
  import Admit
  import AdmitRuns
  import Pipe
  import WaitOn

  /** A link read from the table while the main thread covers `arm`. */
  predicate Current(link: Option<Admit.AdmittedLink>, arm: KnownArm, generation: nat) {
    link.Some? ==> link.value.route == arm.route && arm.generation <= link.value.generation <= generation
  }

  function Held(main: Main): Option<Admit.AdmittedLink> {
    if main.FlushWith? || main.Ingesting? then main.link else None
  }

  /** Only between applying a rearm and revoking can the table still hold an older link. */
  ghost predicate LinksCurrent(s: Sys) {
    && s.tally.store.arm.Some?
    && var g := s.tally.store.arm.value.generation;
       && Current(Held(s.main), s.arm, g)
       && (s.main.Restarting? ==> s.main.generation == s.arm.generation)
       && (if s.main.Restarting? then s.table.current.Some? ==> s.table.current.value.route == s.arm.route
           else Current(s.table.current, s.arm, g))
       && (s.accept.Replying? && s.accept.prepared.pending.CommitAccept? ==>
             s.accept.prepared.pending.link.route == s.arm.route)
  }

  /** The store's arm is the main thread's, ahead of it by the pending rearms. */
  lemma ArmAhead(s: Sys, base: Id, g0: nat)
    requires Inv(s, base, g0)
    ensures s.tally.store.arm.Some? && s.arm.generation <= s.tally.store.arm.value.generation
    ensures s.tally.store.arm.value.route == s.arm.route
  {
    hide ClaimSide, LogSide, MainSide, DeliverySide, HoldSide, LinkSide, AckRuns.Tallied;
  }

  // ----- the accept thread -----

  lemma PrepareCurrent(s: Sys, base: Id, g0: nat, now: Time, mint: Id)
    requires Inv(s, base, g0) && LinksCurrent(s)
    ensures LinksCurrent(DoPrepare(s, now, mint))
  {
    hide Inv, AckSide, Agreement, ClaimSide, LogSide, DeliverySide, HoldSide, MainSide, AdmitRuns.Good;
    if s.accept.Deciding? {
      ArmAhead(s, base, g0);
      Parts(s, base, g0);
      var t := Admit.DropExpired(s.table, now);
      var coverage := s.tally.store.arm.value.coverageUntil;
      var decision := Admit.Decide(t, s.accept.request, now, s.accept.arms, mint);
      if decision.Ok? {
        AdmitRuns.DecisionMeans(t, s.accept.request, now, s.accept.arms, mint, coverage);
      }
      hide Admit.Decide, AdmitRuns.GoodLink, AdmitRuns.GoodRecord;
    }
  }

  lemma CommitCurrent(s: Sys, base: Id, g0: nat, writeOk: bool)
    requires Inv(s, base, g0) && LinksCurrent(s)
    ensures LinksCurrent(DoCommit(s, writeOk))
  {
    hide Inv, AckSide, Agreement, ClaimSide, LogSide, DeliverySide, HoldSide, MainSide, AdmitRuns.Good;
    if s.accept.Replying? {
      ArmAhead(s, base, g0);
      Parts(s, base, g0);
    }
  }

  lemma AckCurrent(s: Sys, base: Id, g0: nat, request: HandledCursor, now: Time)
    requires Inv(s, base, g0) && LinksCurrent(s)
    ensures LinksCurrent(DoAck(s, request, now))
  {
    hide Inv, AckSide, Agreement, ClaimSide, LogSide, DeliverySide, HoldSide, MainSide, LinkSide, AckRuns.Tallied;
    if s.accept.Idle? {
      var op := AckRuns.Handle(request, now);
      Parts(s, base, g0);
      AckTallied(s.tally, s.arm, g0);
      AckRuns.DaemonStep(s.tally, g0, op);
      hide AckRuns.Count;
    }
  }

  lemma AckTallied(tally: AckRuns.Tally, arm: KnownArm, g0: nat)
    requires AckSide(tally, arm, g0)
    ensures AckRuns.Tallied(tally, g0)
  {
  }

  // ----- the main thread -----

  lemma NotesKeepArm(acks: Ack.Store, id: Id, refs: seq<Id>, all: seq<Id>, lossy: bool)
    ensures Ack.NoteDelivered(acks, id, refs, all).0.arm == acks.arm
    ensures Ack.NoteReturn(acks, id).0.arm == acks.arm
    ensures Pipe.Register(acks, id, lossy).0.arm == acks.arm
  {
    hide Ack.PrefixError, Ack.OtherOpen;
  }

  /** A step that leaves links and arms alone, or drops the live link, and holds no new one. */
  lemma StaysCurrent(s: Sys, t: Sys)
    requires LinksCurrent(s) && !t.main.Restarting? && !s.main.Restarting?
    requires t.arm == s.arm && t.accept == s.accept && t.tally.store.arm == s.tally.store.arm
    requires t.table.current == s.table.current || t.table.current.None?
    requires Held(t.main).None? || Held(t.main) == s.table.current || Held(t.main) == Held(s.main)
    ensures LinksCurrent(t)
  {
  }

  lemma RecvCurrent(s: Sys)
    requires LinksCurrent(s)
    ensures LinksCurrent(DoRecv(s))
  {
    hide Pipe.RetainLive;
  }

  lemma RevokeOldCurrent(s: Sys, base: Id, g0: nat)
    requires Inv(s, base, g0) && LinksCurrent(s)
    ensures LinksCurrent(DoRevokeOld(s))
  {
    hide Inv, AckSide, Agreement, ClaimSide, LogSide, DeliverySide, HoldSide, MainSide, AdmitRuns.Good;
    if s.main.Restarting? {
      Parts(s, base, g0);
      RearmKeepsNewLinks(s.served, s.table, s.main.generation);
      hide Pipe.RevokeOlder;
    }
  }

  lemma FlushCurrent(s: Sys, base: Id, g0: nat, now: Time, sendOk: bool, mint: Id)
    requires Inv(s, base, g0) && LinksCurrent(s)
    ensures LinksCurrent(DoFlush(s, now, sendOk, mint))
  {
    hide Inv, AckSide, Agreement, ClaimSide, LogSide, DeliverySide, HoldSide, MainSide, LinkSide, LinksCurrent;
    if s.main.FlushWith? && s.served.Some? {
      Parts(s, base, g0);
      OwnLedger(s.pipe, s.frames, s.arm.generation);
      if s.pipe.claim.Some? {
        OwnRefs(s.pipe.claim, s.arm, s.tally.store);
        NotesKeepArm(s.tally.store, s.pipe.claim.value.signalId, s.pipe.claim.value.eventRefs,
                     s.pipe.claim.value.eventRefs, false);
      }
      FlushEffect(s.main.link, s.pipe, s.tally.store, now, sendOk, mint);
      hide Pipe.Flush, Ack.NoteDelivered;
    }
    StaysIfNot(s, DoFlush(s, now, sendOk, mint));
  }

  lemma OwnRefs(claim: Option<Pipe.SignalClaim>, arm: KnownArm, store: Ack.Store)
    requires ClaimSide(claim, arm, store) && claim.Some?
    ensures claim.value.eventRefs == Refs(claim.value.events)
  {
  }

  lemma StaysIfNot(s: Sys, t: Sys)
    requires LinksCurrent(s)
    requires t == s
             || (!t.main.Restarting? && !s.main.Restarting? && t.arm == s.arm && t.accept == s.accept
                 && t.tally.store.arm == s.tally.store.arm
                 && (t.table.current == s.table.current || t.table.current.None?)
                 && (Held(t.main).None? || Held(t.main) == s.table.current || Held(t.main) == Held(s.main)))
    ensures LinksCurrent(t)
  {
    hide Current, Held;
    if t != s {
      StaysCurrent(s, t);
    }
  }

  lemma PollCurrent(s: Sys, base: Id, g0: nat, result: WaiterLink)
    requires Inv(s, base, g0) && LinksCurrent(s)
    ensures LinksCurrent(DoPollResult(s, result))
  {
    hide Inv, AckSide, Agreement, ClaimSide, LogSide, DeliverySide, HoldSide, MainSide, LinkSide, LinksCurrent;
    if s.main.Head? && s.served.Some? {
      Parts(s, base, g0);
      OwnLedger(s.pipe, s.frames, s.arm.generation);
      ApplyEffect(s.pipe, s.tally.store, result);
      NotesKeepArm(s.tally.store, if result.DeliveryResult? then result.signalId else "", [], [], false);
      hide Pipe.ApplyVisible, Ack.NoteReturn;
    }
    StaysIfNot(s, DoPollResult(s, result));
  }

  /** An ingest leaves the arms alone. */
  lemma IngestedArm(s: Sys, base: Id, g0: nat, wait: WaitOn.WaitResult,
                    answer: Result<seq<WaitOn.DrainedEvent>, WaitOn.DrainError>, link: Option<Admit.AdmittedLink>,
                    now: Time, id: Id, mint: Id)
    requires Inv(s, base, g0) && s.pipe.claim.None? && id !in s.tally.store.signals
    ensures var t := Ingested(s, wait, answer, link, now, id, mint).0;
            && t.tally.store.arm == s.tally.store.arm && t.arm == s.arm && t.table == s.table && t.accept == s.accept
  {
    hide Inv, NothingOpen, AckRuns.Shape, Pipe.HasLoss, NewClaim, LedgerOf, ValidLink;
    SameArm(s, base, g0);
    IngestEffect(s.after, wait, answer, s.arm, link, now, s.tally.store, g0, id, mint);
    NotesKeepArm(s.tally.store, id, [], [], answer.Ok? && Pipe.HasLoss(answer.value));
    hide Pipe.IngestMatch, Pipe.Register;
  }

  lemma IngestCurrent(s: Sys, base: Id, g0: nat, now: Time, drain: Drain, id: Id, mint: Id, spawnOk: bool)
    requires Inv(s, base, g0) && LinksCurrent(s)
    ensures LinksCurrent(DoIngest(s, now, drain, id, mint, spawnOk))
  {
    hide Inv, LinksCurrent, Answer, MainSide;
    if id !in s.tally.store.signals && s.main.Ingesting? {
      NoneClaimed(s, base, g0);
      IngestedArm(s, base, g0, WaitOn.FromCode(s.main.code), Answer(s.log, s.after, drain), s.main.link, now, id, mint);
    }
    hide Ingested;
    StaysIfNot(s, DoIngest(s, now, drain, id, mint, spawnOk));
  }

  lemma ClaimCurrent(s: Sys, base: Id, g0: nat, now: Time, id: Id)
    requires Inv(s, base, g0) && LinksCurrent(s)
    ensures LinksCurrent(DoClaim(s, now, id))
  {
    hide Inv, LinksCurrent, MainSide;
    if id !in s.tally.store.signals && s.main.Claiming? {
      NoneClaimed(s, base, g0);
      IngestedArm(s, base, g0, WaitOn.Matched, Ok(s.main.page), None, now, id, "");
    }
    hide Ingested;
    StaysIfNot(s, DoClaim(s, now, id));
  }

  lemma NoneClaimed(s: Sys, base: Id, g0: nat)
    requires Inv(s, base, g0) && (s.main.Ingesting? || s.main.Claiming?)
    ensures s.pipe.claim.None? && s.child.None?
  {
    hide Inv, AckSide, Agreement, ClaimSide, LogSide, LinkSide, DeliverySide, HoldSide, Segment, Covered;
    Parts(s, base, g0);
  }

  lemma QuietCurrent(s: Sys, base: Id, a: Action)
    requires LinksCurrent(s)
    requires a.Adopt? || a.ReadLink? || a.Revoke? || a.PollLost? || a.ChildExit? || a.DrainAfterAck?
             || a.Stop?
    ensures LinksCurrent(Do(s, base, a))
  {
    hide LinksCurrent, Answer, Pipe.MarkLost, DoAppend, DoAttachArrives, DoSend,
         DoIngest, DoRevokeOld, DoClaim, DoPrepare, DoCommit, DoAck, DoRecv, DoFlush, DoPollResult;
    StaysIfNot(s, Do(s, base, a));
  }

  lemma HandOnCurrent(s: Sys, base: Id, a: Action)
    requires LinksCurrent(s) && (a.Append? || a.AttachArrives? || a.Send?)
    ensures LinksCurrent(Do(s, base, a))
  {
    hide DoAdopt, DoRevoke, DoChildExit, DoDrain, HaltWith, DoReadLink,
         DoIngest, DoRevokeOld, DoClaim, DoPrepare, DoCommit, DoAck, DoRecv, DoFlush, DoPollResult;
  }

  lemma StepKeepsCurrent(s: Sys, base: Id, g0: nat, a: Action)
    requires Inv(s, base, g0) && LinksCurrent(s)
    ensures LinksCurrent(Do(s, base, a))
  {
    hide Inv, LinksCurrent, DoAppend, DoAdopt, DoRevoke, DoChildExit, DoIngest, DoRevokeOld, DoDrain, DoClaim,
         DoAttachArrives, DoPrepare, DoCommit, DoAck, DoSend, HaltWith, DoRecv, DoFlush, DoPollResult, DoReadLink;
    match a
    case Recv => RecvCurrent(s);
    case FlushNow(now, sendOk, mint) => FlushCurrent(s, base, g0, now, sendOk, mint);
    case PollResult(result) => PollCurrent(s, base, g0, result);
    case Ingest(now, drain, id, mint, spawnOk) => IngestCurrent(s, base, g0, now, drain, id, mint, spawnOk);
    case ClaimSuffix(now, id) => ClaimCurrent(s, base, g0, now, id);
    case RevokeOld => RevokeOldCurrent(s, base, g0);
    case Append(_) => HandOnCurrent(s, base, a);
    case AttachArrives(_) => HandOnCurrent(s, base, a);
    case Send => HandOnCurrent(s, base, a);
    case PrepareAttach(now, mint) => PrepareCurrent(s, base, g0, now, mint);
    case CommitAttach(writeOk) => CommitCurrent(s, base, g0, writeOk);
    case AckArrives(ack, now) => AckCurrent(s, base, g0, ack, now);
    case _ => QuietCurrent(s, base, a);
  }

  /** Main result: in every reachable state, every link the main thread holds or could read
      is of the arm's route and of its own or the store's generation, except between
      applying a rearm and revoking, when the table may still hold an older one. */
  lemma {:induction false} LinksStayCurrent(base: Id, arm: KnownArm, actions: seq<Action>)
    requires arm.generation <= MAX_U64
    ensures LinksCurrent(Reached(base, arm, actions))
    decreases |actions|
  {
    hide Inv, Do, Init;
    if actions == [] {
      StartCurrent(base, arm);
    } else {
      hide LinksCurrent;
      LinksStayCurrent(base, arm, actions[..|actions| - 1]);
      ReachedInv(base, arm, actions[..|actions| - 1]);
      StepKeepsCurrent(Reached(base, arm, actions[..|actions| - 1]), base, arm.generation, actions[|actions| - 1]);
    }
  }

  lemma StartCurrent(base: Id, arm: KnownArm)
    ensures LinksCurrent(Init(base, arm))
  {
  }
}
