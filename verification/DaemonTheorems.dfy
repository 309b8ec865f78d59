/** What the daemon guarantees in every state that any interleaving can reach. */
module DaemonTheorems {
  import opened Prelude
  import opened Messages
  import opened WaitOn
  import opened Daemon
  import opened DaemonInv
  import opened DaemonSteps
  import opened DaemonCoverage
  import opened DaemonAccept
  import Ack
  import AckRuns
  import Admit
  import AdmitRuns
  import Pipe

  // ----- every reachable state -----

  lemma InitInv(base: Id, arm: KnownArm)
    requires arm.generation <= MAX_U64
    ensures Inv(Init(base, arm), base, arm.generation)
  {
    var s := Init(base, arm);
    AckRuns.RearmsExactlyOnce(arm, []);
    hide AckRuns.Tallied;
    assert Ids(s.log) == [];
  }

  lemma MoveKeeps(s: Sys, base: Id, g0: nat, a: Action)
    requires Inv(s, base, g0) && (a.ReadLink? || a.PollLost?)
    ensures Inv(Do(s, base, a), base, g0)
  {
    hide Inv, AckSide, Agreement, ClaimSide, LogSide, MainSide, DeliverySide, HoldSide, LinkSide, DoAppend, DoRecv,
         DoAdopt, DoFlush, DoRevoke, DoPollResult, DoChildExit, DoIngest, DoRevokeOld, DoDrain, DoClaim,
         DoAttachArrives, DoPrepare, DoCommit, DoAck, DoSend, HaltWith;
    var t := Do(s, base, a);
    if t != s {
      MainMoves(s, t, base, g0);
    }
  }

  /** Main result: every action of either thread keeps the invariant. */
  lemma StepKeepsInv(s: Sys, base: Id, g0: nat, a: Action)
    requires Inv(s, base, g0)
    ensures Inv(Do(s, base, a), base, g0)
  {
    hide Inv, DoAppend, DoRecv, DoAdopt, DoFlush, DoRevoke, DoPollResult, DoChildExit, DoIngest, DoRevokeOld,
         DoDrain, DoClaim, DoAttachArrives, DoPrepare, DoCommit, DoAck, DoSend, HaltWith;
    match a
    case Append(event) => AppendKeeps(s, base, g0, event);
    case Recv => RecvKeeps(s, base, g0);
    case Adopt(now, timeoutFailed) => AdoptKeeps(s, base, g0, now, timeoutFailed);
    case ReadLink => MoveKeeps(s, base, g0, a);
    case FlushNow(now, sendOk, mint) => FlushKeeps(s, base, g0, now, sendOk, mint);
    case Revoke(now) => RevokeKeeps(s, base, g0, now);
    case PollLost => MoveKeeps(s, base, g0, a);
    case PollResult(result) => PollResultKeeps(s, base, g0, result);
    case ChildExit(code) => ChildExitKeeps(s, base, g0, code);
    case Ingest(now, drain, mintSignal, mintDelivery, spawnOk) =>
      IngestKeeps(s, base, g0, now, drain, mintSignal, mintDelivery, spawnOk);
    case RevokeOld => RevokeOldKeeps(s, base, g0);
    case DrainAfterAck(killOk, drain, spawnOk) => DrainKeeps(s, base, g0, killOk, drain, spawnOk);
    case ClaimSuffix(now, mintSignal) => ClaimSuffixKeeps(s, base, g0, now, mintSignal);
    case Stop(exit) => HaltKeeps(s, base, g0, exit);
    case AttachArrives(request) => AttachArrivesKeeps(s, base, g0, request);
    case PrepareAttach(now, mint) => PrepareKeeps(s, base, g0, now, mint);
    case CommitAttach(writeOk) => CommitKeeps(s, base, g0, writeOk);
    case AckArrives(ack, now) => AckKeeps(s, base, g0, ack, now);
    case Send => SendKeeps(s, base, g0);
  }

  lemma {:induction false} RunKeepsInv(s: Sys, base: Id, g0: nat, actions: seq<Action>)
    requires Inv(s, base, g0)
    ensures Inv(Run(s, base, actions), base, g0)
    decreases |actions|
  {
    hide Inv, Do;
    if actions != [] {
      RunKeepsInv(s, base, g0, actions[..|actions| - 1]);
      StepKeepsInv(Run(s, base, actions[..|actions| - 1]), base, g0, actions[|actions| - 1]);
    }
  }

  /** The state the daemon reaches from its start by `actions`. */
  function Reached(base: Id, arm: KnownArm, actions: seq<Action>): Sys {
    Run(Init(base, arm), base, actions)
  }

  lemma ReachedInv(base: Id, arm: KnownArm, actions: seq<Action>)
    requires arm.generation <= MAX_U64
    ensures Inv(Reached(base, arm, actions), base, arm.generation)
  {
    hide Inv, Init, Run;
    InitInv(base, arm);
    RunKeepsInv(Init(base, arm), base, arm.generation, actions);
  }

  // ----- no gap and no repeat -----

  /** Where the acknowledgements recorded so far leave the cursor. */
  function AckCursor(base: Id, rearms: seq<Ack.AckRearm>): Id {
    if rearms == [] then base else rearms[|rearms| - 1].after
  }

  lemma AckedEndsAtCursor(store: Ack.Store, rearms: seq<Ack.AckRearm>, g0: nat)
    requires AckRuns.Shape(store, g0) && AllAnnounced(store, rearms, g0) && rearms != []
    ensures var acked := Acked(store, rearms);
            acked != [] && acked[|acked| - 1] == rearms[|rearms| - 1].after
  {
    var n := |rearms| - 1;
    assert AckRuns.Announces(store, rearms[n], g0 + n);
    var b := store.signals[rearms[n].signalId];
    assert AckRuns.FitsBatch(store, g0, b);
    var p := Position(b.delivered, rearms[n].after).value;
    assert UpTo(b.delivered, rearms[n].after) == b.delivered[..p + 1];
  }

  /** The acknowledged prefix fixes the cursor. */
  lemma CursorOfPrefix(ids: seq<Id>, base: Id, after: Id, cursor: Id, acked: seq<Id>)
    requires Distinct(ids) && base !in ids && (after == base || after in ids)
    requires acked == ids[..Covered(ids, after)]
    requires if acked == [] then cursor == base else cursor == acked[|acked| - 1]
    ensures after == cursor
  {
  }

  /** Every applied or pending acknowledgement, in the log. */
  lemma AckedLog(s: Sys, base: Id, g0: nat)
    requires Inv(s, base, g0)
    ensures var cursor := AckCursor(base, s.tally.rearms);
            && LogSide(Ids(s.log), base, Some(cursor), g0 + |s.tally.rearms|, g0, s.tally,
                       if PendingRearms(s.channel, s.accept) == [] then s.pipe.claim else None)
            && (PendingRearms(s.channel, s.accept) == [] ==> s.after == Some(cursor))
  {
    hide Inv, MainSide, DeliverySide, HoldSide, LinkSide, ClaimSide, AckRuns.Tallied, AckRuns.Announces,
         PendingRearms, NothingOpen, Acked, Covered, Segment, Distinct, AckRuns.Shape;
    Parts(s, base, g0);
    TalliedShape(s.tally, g0);
    var rearms := s.tally.rearms;
    if PendingRearms(s.channel, s.accept) == [] {
      var acked := Acked(s.tally.store, rearms);
      assert rearms[..s.arm.generation - g0] == rearms;
      if rearms != [] {
        AckedEndsAtCursor(s.tally.store, rearms, g0);
      } else {
        EmptyAcked(s.tally.store);
      }
      CursorOfPrefix(Ids(s.log), base, s.after.value, AckCursor(base, rearms), acked);
    } else {
      PendingClosesClaim(s, base, g0);
      LogAdvances(Ids(s.log), base, s.after, s.arm.generation, g0, s.tally, s.pipe.claim.value,
                  PendingRearms(s.channel, s.accept)[0]);
    }
  }

  lemma EmptyAcked(store: Ack.Store)
    ensures Acked(store, []) == []
  {
  }

  /** Main result: in every reachable state the acknowledged prefixes of the closed
      generations, one after the other, are exactly the log up to the last acknowledged
      cursor; a live claim that is not acknowledged is the log segment right after it. */
  lemma NoGapNoRepeat(base: Id, arm: KnownArm, actions: seq<Action>)
    requires arm.generation <= MAX_U64
    ensures var s := Reached(base, arm, actions);
            var ids := Ids(s.log);
            var cursor := AckCursor(base, s.tally.rearms);
            && Distinct(ids) && base !in ids && (cursor == base || cursor in ids)
            && s.tally.store.arm.Some?
            && |s.tally.rearms| == s.tally.store.arm.value.generation - arm.generation
            && AllAnnounced(s.tally.store, s.tally.rearms, arm.generation)
            && Acked(s.tally.store, s.tally.rearms) == ids[..Covered(ids, cursor)]
            && (s.arm.generation == s.tally.store.arm.value.generation ==>
                  && s.after == Some(cursor)
                  && (s.pipe.claim.Some? ==> Segment(ids, Covered(ids, cursor), s.pipe.claim.value.eventRefs)))
  {
    hide Reached;
    ReachedInv(base, arm, actions);
    var s := Reached(base, arm, actions);
    hide Inv, MainSide, DeliverySide, HoldSide, LinkSide, ClaimSide, AckRuns.Tallied, AckRuns.Announces,
         PendingRearms, NothingOpen, Acked, Covered, Segment, Distinct, AckRuns.Shape;
    Parts(s, base, arm.generation);
    TalliedShape(s.tally, arm.generation);
    AckedLog(s, base, arm.generation);
    assert s.tally.rearms[..|s.tally.rearms|] == s.tally.rearms;
  }

  // ----- the two threads agree on the generation -----

  /** Main result: the ack store is ahead of the main thread by exactly the rearms still
      on their way, at most one, and none while no claim is live; no link is ahead of it. */
  lemma GenerationAgreement(base: Id, arm: KnownArm, actions: seq<Action>)
    requires arm.generation <= MAX_U64
    ensures var s := Reached(base, arm, actions);
            var pending := PendingRearms(s.channel, s.accept);
            && s.tally.store.arm.Some?
            && s.tally.store.arm.value.generation - s.arm.generation == |pending| <= 1
            && (s.pipe.claim.None? ==> pending == [])
            && (pending != [] ==> s.pipe.claim.Some? && pending[0].signalId == s.pipe.claim.value.signalId)
            && (s.table.current.Some? ==> s.table.current.value.generation <= s.tally.store.arm.value.generation)
  {
    hide Reached;
    ReachedInv(base, arm, actions);
    var s := Reached(base, arm, actions);
    hide Inv, AckSide, MainSide, DeliverySide, HoldSide, LogSide, ClaimSide, PendingRearms, AdmitRuns.Good;
    Parts(s, base, arm.generation);
    if PendingRearms(s.channel, s.accept) != [] {
      PendingClosesClaim(s, base, arm.generation);
    }
  }

  /** A rearm drops the live link exactly when it is of an older generation, and stops
      serving exactly a waiter of an older generation. */
  lemma RearmKeepsNewLinks(served: Option<Admit.Served>, table: Admit.Table, generation: nat)
    ensures var (served', table') := Pipe.RevokeOlder(served, table, generation);
            && table'.current == (if table.current.Some? && table.current.value.generation < generation then None
                                  else table.current)
            && table'.history == table.history
            && served' == (if served.Some? && served.value.session.Some?
                              && served.value.session.value.generation < generation then None else served)
  {
  }

  // ----- coverage is exclusive and total -----

  ghost predicate Covering(s: Sys) {
    && (Settled(s.main) ==> s.child == if s.pipe.claim.Some? then None else Some(s.after))
    && (!s.main.Halted? && !Settled(s.main) ==> s.child.None? && s.pipe.claim.None?)
  }

  lemma CoveringHolds(s: Sys, base: Id, g0: nat)
    requires Inv(s, base, g0)
    ensures Covering(s)
  {
    hide Inv, AckSide, Agreement, DeliverySide, HoldSide, LogSide, ClaimSide, LinkSide;
    Parts(s, base, g0);
  }

  /** Main result: between operations, until a halt, exactly one holds: a provider child
      waits from the cursor, or a claim is live. */
  lemma CoverageExclusive(base: Id, arm: KnownArm, actions: seq<Action>)
    requires arm.generation <= MAX_U64
    ensures Covering(Reached(base, arm, actions))
  {
    hide *;
    ReachedInv(base, arm, actions);
    CoveringHolds(Reached(base, arm, actions), base, arm.generation);
  }
}
