/** Every action of the daemon keeps the invariant. */
module DaemonSteps {
  import opened Prelude
  import opened Messages
  import opened WaitOn
  import opened Daemon
  import opened DaemonInv
  import Ack
  import AckRuns
  import Admit
  import AdmitRuns
  import Codec
  import Deliver
  import Pipe

  // ----- store steps that leave arm, history and rearms alone -----

  ghost predicate IsNote(op: AckRuns.Op) {
    op.Claim? || op.Deliver? || op.Require? || op.Return?
  }

  lemma NoteKeepsAckSide(tally: AckRuns.Tally, arm: KnownArm, g0: nat, op: AckRuns.Op)
    requires AckSide(tally, arm, g0) && IsNote(op)
    ensures var u := AckRuns.Do(tally.store, op);
            && AckSide(WithStore(tally, u), arm, g0) && AckRuns.Evolves(tally.store, u)
            && u.arm == tally.store.arm
  {
    hide AckRuns.Tallied, AckRuns.Evolves, AckRuns.Do;
    TalliedShape(tally, g0);
    AckRuns.NoteKeepsRecord(tally.store, op);
    AckRuns.NoteKeepsTally(tally, g0, op);
    AckRuns.NoteEvolves(tally.store, g0, op);
  }

  lemma TalliedShape(tally: AckRuns.Tally, g0: nat)
    requires AckRuns.Tallied(tally, g0)
    ensures AckRuns.Shape(tally.store, g0) && tally.store.arm.Some?
    ensures g0 <= tally.store.arm.value.generation && |tally.rearms| == tally.store.arm.value.generation - g0
    ensures AllAnnounced(tally.store, tally.rearms, g0)
  {
  }

  lemma StoreKeepsLog(ids: seq<Id>, base: Id, after: Option<Id>, m: nat, g0: nat, tally: AckRuns.Tally,
                      next: AckRuns.Tally, claim: Option<Pipe.SignalClaim>)
    requires LogSide(ids, base, after, m, g0, tally, claim)
    requires AckRuns.Tallied(tally, g0) && AckRuns.Evolves(tally.store, next.store)
    requires tally.rearms <= next.rearms
    ensures LogSide(ids, base, after, m, g0, next, claim)
  {
    hide AckRuns.Tallied, AckRuns.Evolves, AckRuns.Shape, Acked, Covered, AckRuns.Announces;
    TalliedShape(tally, g0);
    AckedStays(tally.store, next.store, tally.rearms[..m - g0], g0);
    assert next.rearms[..m - g0] == tally.rearms[..m - g0];
  }

  /** The parts of the invariant that speak of the ack store, for a store `acks`. */
  ghost predicate StoreSide(s: Sys, base: Id, g0: nat, acks: Ack.Store, completed: set<Id>) {
    var tally := WithStore(s.tally, acks);
    && AckSide(tally, s.arm, g0)
    && Agreement(s.arm.generation, tally, PendingRearms(s.channel, s.accept), s.pipe.claim.Some?, g0)
    && ClaimSide(s.pipe.claim, s.arm, acks)
    && LogSide(Ids(s.log), base, s.after, s.arm.generation, g0, tally, s.pipe.claim)
    && HoldSide(acks, s.lossy, completed)
    && LinkSide(s.table, s.accept, acks.arm)
  }

  /** A note leaves the rearms, the arm and the acknowledged prefixes as they are. */
  lemma NoteKeepsRest(s: Sys, base: Id, g0: nat, op: AckRuns.Op)
    requires Inv(s, base, g0) && IsNote(op)
    ensures var u := AckRuns.Do(s.tally.store, op);
            var tally := WithStore(s.tally, u);
            && AckSide(tally, s.arm, g0)
            && Agreement(s.arm.generation, tally, PendingRearms(s.channel, s.accept), s.pipe.claim.Some?, g0)
            && LogSide(Ids(s.log), base, s.after, s.arm.generation, g0, tally, s.pipe.claim)
            && LinkSide(s.table, s.accept, u.arm)
  {
    hide AckRuns.Tallied, AckRuns.Evolves, AckRuns.Do, LinkSide, LogSide, ClaimSide, DeliverySide, HoldSide, MainSide;
    NoteKeepsAckSide(s.tally, s.arm, g0, op);
    StoreKeepsLog(Ids(s.log), base, s.after, s.arm.generation, g0, s.tally,
                  WithStore(s.tally, AckRuns.Do(s.tally.store, op)), s.pipe.claim);
  }

  // ----- the pipe's own steps -----

  /** The pending batch may change its link and attempt, not what it delivers. */
  ghost predicate LedgerKeeps(before: Deliver.Ledger, after: Deliver.Ledger) {
    before.Some? ==>
      && after.Some? && after.value.deliveryId == before.value.deliveryId
      && SameDelivery(before.value.message, after.value.message)
      && (before.value.attempt.Terminal? ==> after.value.attempt == before.value.attempt)
  }

  ghost predicate LedgerOf(claim: Option<Pipe.SignalClaim>, ledger: Deliver.Ledger) {
    ledger.Some? ==>
      && claim.Some? && ledger.value.message.DeliverEvents?
      && ledger.value.deliveryId == ledger.value.message.deliveryId
      && ledger.value.message.signalId == claim.value.signalId
      && ledger.value.message.events == claim.value.events
  }

  lemma DeliveryKept(pipe: Pipe.Value, next: Pipe.Value, frames: seq<Frame>, m: nat)
    requires DeliverySide(pipe, frames, m)
    requires next.claim == pipe.claim && (next.claim.None? ==> next == pipe)
    requires LedgerKeeps(pipe.ledger, next.ledger) && LedgerOf(next.claim, next.ledger)
    ensures DeliverySide(next, frames, m)
  {
  }

  lemma FrameAdded(pipe: Pipe.Value, frames: seq<Frame>, m: nat, sent: WaiterLink)
    requires DeliverySide(pipe, frames, m)
    requires pipe.ledger.Some? && SameDelivery(sent, pipe.ledger.value.message)
    ensures DeliverySide(pipe, frames + [Frame(m, sent)], m)
  {
  }

  lemma MarkLostKeeps(pipe: Pipe.Value, now: Time, frames: seq<Frame>, m: nat)
    requires DeliverySide(pipe, frames, m)
    ensures DeliverySide(Pipe.MarkLost(pipe, now), frames, m)
    ensures Pipe.MarkLost(pipe, now).claim == pipe.claim
    ensures LedgerKeeps(pipe.ledger, Pipe.MarkLost(pipe, now).ledger)
  {
    hide ValidLink;
    DeliveryKept(pipe, Pipe.MarkLost(pipe, now), frames, m);
  }

  /** What one waiter result does: the ledger alone, and at most one confirmed receipt. */
  lemma ApplyEffect(pipe: Pipe.Value, acks: Ack.Store, result: WaiterLink)
    requires LedgerOf(pipe.claim, pipe.ledger) && (pipe.claim.None? ==> pipe == Pipe.EMPTY_PIPE)
    ensures var (next, acks', applied) := Pipe.ApplyVisible(pipe, acks, result);
            && next.claim == pipe.claim && (next.claim.None? ==> next == pipe)
            && LedgerKeeps(pipe.ledger, next.ledger) && LedgerOf(next.claim, next.ledger)
            && applied != Pipe.Keep
            && (applied == Pipe.RevokeTerminal ==>
                  && result.DeliveryResult? && pipe.ledger.Some?
                  && result.deliveryId == pipe.ledger.value.deliveryId
                  && result.linkId == pipe.ledger.value.linkId
                  && result.signalId == pipe.claim.value.signalId
                  && next.ledger.value.attempt == Deliver.Terminal(result.outcome))
            && acks' == (if applied == Pipe.RevokeTerminal && result.outcome == ReturnCompleted
                         then Ack.NoteReturn(acks, result.signalId).0 else acks)
  {
    hide ValidLink, Ack.NoteReturn;
  }

  /** What one delivery attempt does: a written frame is noted as delivered, and nothing else is. */
  ghost predicate FlushShape(pipe: Pipe.Value, acks: Ack.Store, next: Pipe.Value,
                             acks': Ack.Store, sent: Option<WaiterLink>)
  {
    && next.claim == pipe.claim && (next.claim.None? ==> next == pipe)
    && LedgerKeeps(pipe.ledger, next.ledger) && LedgerOf(next.claim, next.ledger)
    && (sent.Some? ==>
          && next.ledger.Some? && SameDelivery(sent.value, next.ledger.value.message)
          && !(pipe.ledger.Some? && pipe.ledger.value.attempt.Terminal?))
    && (if sent.None? then acks' == acks
        else
          && pipe.claim.Some?
          && acks' == Ack.NoteDelivered(acks, pipe.claim.value.signalId, pipe.claim.value.eventRefs,
                                        pipe.claim.value.eventRefs).0)
  }

  lemma NextMessageMeans(ledger: Deliver.Ledger, live: Pipe.SignalClaim, link: Admit.AdmittedLink, now: Time, mint: Id)
    requires LedgerOf(Some(live), ledger) && !(ledger.Some? && ledger.value.attempt.Terminal?)
    ensures var (next, made) := Pipe.NextMessage(ledger, live, link, now, mint);
            && LedgerKeeps(ledger, next) && LedgerOf(Some(live), next)
            && (made.Ok? ==> made.value.DeliverEvents? && next.Some? && next.value.message == made.value
                             && next.value.attempt.Awaiting?)
            && (made.Err? && ledger.None? ==> next.None?)
            && (ledger.None? && next.Some? ==> ValidLink(next.value.message))
  {
    hide ValidLink;
  }

  lemma FlushEffect(link: Option<Admit.AdmittedLink>, pipe: Pipe.Value, acks: Ack.Store, now: Time, sendOk: bool,
                    mint: Id)
    requires LedgerOf(pipe.claim, pipe.ledger)
    requires pipe.claim.Some? ==> pipe.claim.value.eventRefs == Refs(pipe.claim.value.events)
    ensures var (next, acks', revoke, sent) := Pipe.Flush(link, pipe, acks, now, Pipe.Io(sendOk, None), mint);
            FlushShape(pipe, acks, next, acks', sent)
  {
    hide Ack.NoteDelivered, Codec.PayloadBytes, ValidLink;
    if pipe.claim.Some? && link.Some? && !(pipe.ledger.Some? && pipe.ledger.value.attempt.Terminal?) {
      NextMessageMeans(pipe.ledger, pipe.claim.value, link.value, now, mint);
    }
    hide Pipe.NextMessage;
  }

  // ----- how claim and hold follow the store -----

  lemma DeliverKeepsClaim(claim: Option<Pipe.SignalClaim>, arm: KnownArm, store: Ack.Store, g0: nat)
    requires ClaimSide(claim, arm, store) && AckRuns.Shape(store, g0) && claim.Some?
    ensures var live := claim.value;
            ClaimSide(claim, arm, Ack.NoteDelivered(store, live.signalId, live.eventRefs, live.eventRefs).0)
  {
    var c := claim.value;
    DeliverEffect(store, g0, c.signalId, c.eventRefs);
    hide Ack.NoteDelivered, AckRuns.Shape;
  }

  lemma DeliverKeepsHold(store: Ack.Store, g0: nat, id: Id, refs: seq<Id>, lossy: set<Id>, completed: set<Id>)
    requires HoldSide(store, lossy, completed) && AckRuns.Shape(store, g0) && id in store.signals
    ensures HoldSide(Ack.NoteDelivered(store, id, refs, refs).0, lossy, completed)
  {
    DeliverEffect(store, g0, id, refs);
    hide Ack.NoteDelivered, AckRuns.Shape;
  }

  lemma ReturnKeepsClaim(claim: Option<Pipe.SignalClaim>, arm: KnownArm, store: Ack.Store, id: Id)
    requires ClaimSide(claim, arm, store)
    ensures ClaimSide(claim, arm, Ack.NoteReturn(store, id).0)
  {
    ReturnEffect(store, id);
    hide Ack.NoteReturn;
  }

  lemma ReturnKeepsHold(store: Ack.Store, id: Id, lossy: set<Id>, completed: set<Id>)
    requires HoldSide(store, lossy, completed)
    ensures HoldSide(Ack.NoteReturn(store, id).0, lossy, completed + {id})
  {
    ReturnEffect(store, id);
    hide Ack.NoteReturn;
  }

  // ----- actions of the main thread on the pipe -----

  lemma FlushKeeps(s: Sys, base: Id, g0: nat, now: Time, sendOk: bool, mint: Id)
    requires Inv(s, base, g0)
    ensures Inv(DoFlush(s, now, sendOk, mint), base, g0)
  {
    if s.main.FlushWith? && s.served.Some? {
      var (next, acks, revoke, sent) :=
        Pipe.Flush(s.main.link, s.pipe, s.tally.store, now, Pipe.Io(sendOk, None), mint);
      FlushEffect(s.main.link, s.pipe, s.tally.store, now, sendOk, mint);
      hide Pipe.Flush, AckSide, Agreement, LogSide, HoldSide, LinkSide, AckRuns.Evolves, AckRuns.Tallied;
      var frames := if sent.Some? && s.pipe.claim.Some?
                    then s.frames + [Frame(s.pipe.claim.value.generation, sent.value)] else s.frames;
      DeliveryKept(s.pipe, next, s.frames, s.arm.generation);
      if sent.Some? && s.pipe.claim.Some? {
        FrameAdded(next, s.frames, s.arm.generation, sent.value);
      }
      StoreDelivered(s, base, g0, acks);
    }
  }

  /** The store of a live claim after its batch was noted as delivered, or left alone. */
  lemma StoreDelivered(s: Sys, base: Id, g0: nat, acks: Ack.Store)
    requires Inv(s, base, g0)
    requires acks == s.tally.store
             || (s.pipe.claim.Some?
                 && acks == Ack.NoteDelivered(s.tally.store, s.pipe.claim.value.signalId,
                                              s.pipe.claim.value.eventRefs, s.pipe.claim.value.eventRefs).0)
    ensures StoreSide(s, base, g0, acks, s.completed)
  {
    if acks != s.tally.store {
      var c := s.pipe.claim.value;
      var op := AckRuns.Deliver(c.signalId, c.eventRefs, c.eventRefs);
      assert acks == AckRuns.Do(s.tally.store, op);
      assert c.signalId in s.tally.store.signals;
      hide Ack.NoteDelivered, AckRuns.Do, AckRuns.Tallied, AckRuns.Shape, Agreement, LogSide, LinkSide, HoldSide,
           ClaimSide;
      TalliedShape(s.tally, g0);
      NoteKeepsRest(s, base, g0, op);
      DeliverKeepsClaim(s.pipe.claim, s.arm, s.tally.store, g0);
      DeliverKeepsHold(s.tally.store, g0, c.signalId, c.eventRefs, s.lossy, s.completed);
    }
  }

  lemma ReturnedStore(s: Sys, base: Id, g0: nat, id: Id)
    requires Inv(s, base, g0)
    ensures StoreSide(s, base, g0, Ack.NoteReturn(s.tally.store, id).0, s.completed + {id})
  {
    assert Ack.NoteReturn(s.tally.store, id).0 == AckRuns.Do(s.tally.store, AckRuns.Return(id));
    hide Ack.NoteReturn, AckRuns.Do, Agreement, LogSide, LinkSide, HoldSide, ClaimSide, AckSide;
    NoteKeepsRest(s, base, g0, AckRuns.Return(id));
    ReturnKeepsClaim(s.pipe.claim, s.arm, s.tally.store, id);
    ReturnKeepsHold(s.tally.store, id, s.lossy, s.completed);
  }

  /** Where the main thread stands matters only while it restarts coverage. */
  predicate Settled(main: Main) {
    !main.Halted? && !main.Ingesting? && !main.Restarting? && !main.Draining? && !main.Claiming?
  }

  lemma SettledMoves(main: Main, next: Main, child: Option<Option<Id>>, after: Option<Id>, claimed: bool, ids: seq<Id>)
    requires MainSide(main, child, after, claimed, ids) && Settled(main) && Settled(next)
    ensures MainSide(next, child, after, claimed, ids)
  {
  }

  lemma PollResultKeeps(s: Sys, base: Id, g0: nat, result: WaiterLink)
    requires Inv(s, base, g0)
    ensures Inv(DoPollResult(s, result), base, g0)
  {
    hide Inv, AckSide, Agreement, ClaimSide, LogSide, DeliverySide, HoldSide, LinkSide;
    if s.main.Head? && s.served.Some? {
      var (next, acks, applied) := Pipe.ApplyVisible(s.pipe, s.tally.store, result);
      var t := DoPollResult(s, result);
      Parts(s, base, g0);
      OwnLedger(s.pipe, s.frames, s.arm.generation);
      ApplyEffect(s.pipe, s.tally.store, result);
      hide Pipe.ApplyVisible, LedgerKeeps, LedgerOf, Ack.NoteReturn, MainSide;
      assert t == s.(pipe := next, tally := s.tally.(store := acks), main := t.main, completed := t.completed);
      assert t.tally == WithStore(s.tally, acks);
      assert Settled(s.main) && Settled(t.main);
      var id := if acks != s.tally.store then result.signalId else "";
      assert acks != s.tally.store ==>
          acks == Ack.NoteReturn(s.tally.store, id).0 && t.completed == s.completed + {id};
      assert s.completed <= t.completed;
      hide *;
      DeliveryKept(s.pipe, next, s.frames, s.arm.generation);
      SettledMoves(s.main, t.main, s.child, s.after, s.pipe.claim.Some?, Ids(s.log));
      if acks != s.tally.store {
        ReturnedStore(s, base, g0, id);
        SideOf(s, base, g0, acks, t.completed);
      } else {
        MoreCompleted(acks, s.lossy, s.completed, t.completed);
      }
      Whole(t, base, g0);
    }
  }

  lemma OwnLedger(pipe: Pipe.Value, frames: seq<Frame>, m: nat)
    requires DeliverySide(pipe, frames, m)
    ensures LedgerOf(pipe.claim, pipe.ledger) && (pipe.claim.None? ==> pipe == Pipe.EMPTY_PIPE)
  {
  }

  lemma MoreCompleted(store: Ack.Store, lossy: set<Id>, completed: set<Id>, more: set<Id>)
    requires HoldSide(store, lossy, completed) && completed <= more
    ensures HoldSide(store, lossy, more)
  {
  }

  lemma SideOf(s: Sys, base: Id, g0: nat, acks: Ack.Store, completed: set<Id>)
    requires StoreSide(s, base, g0, acks, completed)
    ensures var tally := WithStore(s.tally, acks);
            && tally.store == acks && AckSide(tally, s.arm, g0)
            && Agreement(s.arm.generation, tally, PendingRearms(s.channel, s.accept), s.pipe.claim.Some?, g0)
            && ClaimSide(s.pipe.claim, s.arm, acks)
            && LogSide(Ids(s.log), base, s.after, s.arm.generation, g0, tally, s.pipe.claim)
            && HoldSide(acks, s.lossy, completed)
            && LinkSide(s.table, s.accept, acks.arm)
  {
    hide AckSide, Agreement, ClaimSide, LogSide, HoldSide, LinkSide;
  }

  lemma AdoptKeeps(s: Sys, base: Id, g0: nat, now: Time, timeoutFailed: bool)
    requires Inv(s, base, g0)
    ensures Inv(DoAdopt(s, now, timeoutFailed), base, g0)
  {
    hide Inv, AckSide, Agreement, ClaimSide, LogSide, DeliverySide, HoldSide, LinkSide;
    if s.main.Adopting? {
      var t := DoAdopt(s, now, timeoutFailed);
      var lost := s.served.Some? && s.served.value.session.Some?;
      var session := if lost then s.served.value.session.value else Admit.LinkSession("", "", 0);
      LinkMoves(s, t, base, g0, now, lost, session);
    }
  }

  /** A step of the main thread that only marks an attempt lost and drops a link. */
  lemma LinkMoves(s: Sys, t: Sys, base: Id, g0: nat, now: Time, lost: bool, session: Admit.LinkSession)
    requires Inv(s, base, g0) && Settled(s.main) && Settled(t.main)
    requires t == s.(pipe := t.pipe, table := t.table, served := t.served, main := t.main)
    requires t.pipe == (if lost then Pipe.MarkLost(s.pipe, now) else s.pipe)
    requires t.table == s.table || t.table == Admit.DropSession(s.table, session)
    ensures Inv(t, base, g0)
  {
    hide *;
    Parts(s, base, g0);
    MarkLostKeeps(s.pipe, now, s.frames, s.arm.generation);
    DropKeepsLinks(s.table, s.accept, s.tally.store.arm, session);
    SettledMoves(s.main, t.main, s.child, s.after, s.pipe.claim.Some?, Ids(s.log));
    Whole(t, base, g0);
  }

  lemma DropKeepsLinks(table: Admit.Table, accept: Accept, arm: Option<KnownArm>, session: Admit.LinkSession)
    requires LinkSide(table, accept, arm)
    ensures LinkSide(Admit.DropSession(table, session), accept, arm)
    ensures LinkSide(table.(current := None), accept, arm)
  {
    var l := AdmitRuns.Loop(table, Inflight(accept));
    hide AdmitRuns.Good;
    AdmitRuns.StepKeepsGood(l, AdmitRuns.Drop(session), arm.value.coverageUntil);
    AdmitRuns.StepKeepsGood(l, AdmitRuns.DropAny, arm.value.coverageUntil);
  }

  lemma RevokeKeeps(s: Sys, base: Id, g0: nat, now: Time)
    requires Inv(s, base, g0)
    ensures Inv(DoRevoke(s, now), base, g0)
  {
    hide Inv, AckSide, Agreement, ClaimSide, LogSide, DeliverySide, HoldSide, LinkSide;
    if s.main.Revoking? {
      var t := DoRevoke(s, now);
      var some := s.served.Some? && s.served.value.session.Some?;
      var session := if some then s.served.value.session.value else Admit.LinkSession("", "", 0);
      LinkMoves(s, t, base, g0, now, s.main.lost, session);
    }
  }

  lemma HaltKeeps(s: Sys, base: Id, g0: nat, exit: int)
    requires Inv(s, base, g0)
    ensures Inv(HaltWith(s, exit), base, g0)
  {
    hide Inv, AckSide, Agreement, ClaimSide, LogSide, DeliverySide, HoldSide, LinkSide;
    var t := HaltWith(s, exit);
    Parts(s, base, g0);
    assert t == s.(child := None, table := s.table.(current := None), main := Halted(exit));
    assert MainSide(t.main, t.child, t.after, t.pipe.claim.Some?, Ids(t.log));
    hide *;
    DropKeepsLinks(s.table, s.accept, s.tally.store.arm, Admit.LinkSession("", "", 0));
    Whole(t, base, g0);
  }

  lemma RevokeOldKeeps(s: Sys, base: Id, g0: nat)
    requires Inv(s, base, g0)
    ensures Inv(DoRevokeOld(s), base, g0)
  {
    hide Inv, AckSide, Agreement, ClaimSide, LogSide, DeliverySide, HoldSide, LinkSide;
    if s.main.Restarting? {
      var some := s.served.Some? && s.served.value.session.Some?;
      var session := if some then s.served.value.session.value else Admit.LinkSession("", "", 0);
      var t := DoRevokeOld(s);
      Parts(s, base, g0);
      var u := if t.served != s.served then Admit.DropSession(s.table, session) else s.table;
      assert t == s.(served := t.served, table := t.table, main := Draining);
      assert t.table == u || t.table == u.(current := None);
      assert MainSide(t.main, t.child, t.after, t.pipe.claim.Some?, Ids(t.log));
      hide *;
      DropKeepsLinks(s.table, s.accept, s.tally.store.arm, session);
      DropKeepsLinks(u, s.accept, s.tally.store.arm, session);
      Whole(t, base, g0);
    }
  }

  /** A step of the main thread that only moves it between lock regions. */
  lemma MainMoves(s: Sys, t: Sys, base: Id, g0: nat)
    requires Inv(s, base, g0) && Settled(s.main) && Settled(t.main) && t == s.(main := t.main)
    ensures Inv(t, base, g0)
  {
    LinkMoves(s, t, base, g0, 0, false, Admit.LinkSession("", "", 0));
  }

  lemma ChildExitKeeps(s: Sys, base: Id, g0: nat, code: int)
    requires Inv(s, base, g0)
    ensures Inv(DoChildExit(s, code), base, g0)
  {
    hide Inv, AckSide, Agreement, ClaimSide, LogSide, DeliverySide, HoldSide, LinkSide;
    if s.main.Head? && s.child.Some? {
      var t := DoChildExit(s, code);
      Parts(s, base, g0);
      assert t == s.(child := None, main := t.main);
      assert MainSide(t.main, t.child, t.after, t.pipe.claim.Some?, Ids(t.log));
      hide *;
      Whole(t, base, g0);
    }
  }
}
