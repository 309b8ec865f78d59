/** The claim and delivery pipe as the daemon holds it, updated in place. */
module DaemonPipes {
  import opened Prelude
  import opened Messages
  import opened WaitOn
  import opened Pipe
  import AckStores
  import Admit
  import Codec
  import LinkTables
  import Deliver
  import DeliveryLedgers

  class DaemonPipe {
    var ledger: DeliveryLedgers.DeliveryLedger
    var claim: Option<SignalClaim>
    var attempted: bool

    function State(): Pipe.Value
      reads this, ledger
    {
      Pipe.Value(ledger.State(), claim, attempted)
    }

    constructor ()
      ensures State() == EMPTY_PIPE && fresh(ledger)
    {
      ledger := new DeliveryLedgers.DeliveryLedger();
      claim := None;
      attempted := false;
    }

    /** A new ledger, no claim. */
    method Reset()
      modifies this
      ensures State() == EMPTY_PIPE && fresh(ledger)
    {
      ledger := new DeliveryLedgers.DeliveryLedger();
      claim := None;
      attempted := false;
    }

    /** The claim for `events`: a new one, or the live one when it is the same batch. */
    method ClaimOrReuse(arm: KnownArm, events: seq<ProviderEvent>, mint: Id) returns (r: Option<SignalClaim>)
      modifies this
      ensures ledger == old(ledger) && attempted == old(attempted)
      ensures (claim, r) == Pipe.ClaimOrReuse(old(claim), arm, events, mint)
    {
      if claim.Some? {
        if claim.value.armId == arm.armId && claim.value.generation == arm.generation && claim.value.events == events {
          return claim;
        }
        return None;
      }
      claim := Some(SignalClaim(arm.armId, arm.generation, mint, Refs(events), events));
      return claim;
    }

    /** One delivery attempt over `link`; `sent` is the frame that was written. */
    method DeliverClaimed(live: SignalClaim, link: Option<Admit.AdmittedLink>, acks: AckStores.AckStore, now: Time,
                          io: Option<Io>, coverage: Coverage, mint: Id)
      returns (outcome: IngestOutcome, sent: Option<WaiterLink>)
      modifies this, ledger, acks
      ensures ledger == old(ledger)
      ensures Delivered(State(), acks.State(), outcome, sent)
           == Pipe.DeliverClaimed(live, link, old(State()), old(acks.State()), now, io, coverage, mint)
    {
      if link.None? {
        return IngestOutcome(coverage, Some(live), None, false, None, false), None;
      }
      var made;
      if Deliver.ShouldRedeliver(ledger.State()) {
        made := ledger.Redeliver(link.value, now);
      } else {
        made := ledger.Prepare(link.value, live.signalId, live.events, now, mint);
      }
      if made.Err? {
        return Snapshot(State(), coverage, true), None;
      }
      var message := made.value;
      var deliveryId := Some(message.deliveryId);
      if io.None? {
        attempted := false;
        return IngestOutcome(coverage, Some(live), deliveryId, false, None, true), None;
      }
      if attempted && ledger.pending.Some? && ledger.pending.value.attempt.Awaiting? {
        return IngestOutcome(coverage, Some(live), deliveryId, true, None, true), None;
      }
      if !io.value.sendOk || !Codec.Fits(message) {
        attempted := false;
        return IngestOutcome(coverage, Some(live), deliveryId, false, None, true), None;
      }
      outcome := AfterSend(live, acks, message, io.value.result, coverage);
      return outcome, Some(message);
    }

    /** After a frame was written: admit it for acknowledgement, then take a result. */
    method AfterSend(live: SignalClaim, acks: AckStores.AckStore, message: WaiterLink, result: Option<WaiterLink>,
                     coverage: Coverage)
      returns (outcome: IngestOutcome)
      requires message.DeliverEvents?
      modifies this, ledger, acks
      ensures ledger == old(ledger)
      ensures Delivered(State(), acks.State(), outcome, Some(message))
           == Pipe.AfterSend(live, old(State()), old(acks.State()), message, result, coverage, true)
    {
      var noted := acks.NoteDelivered(live.signalId, Refs(message.events), live.eventRefs);
      if noted.Err? {
        return Snapshot(State(), Halt(2), true);
      }
      attempted := true;
      var resultOutcome := None;
      if result.Some? {
        var recorded := ledger.RecordResult(result.value);
        if recorded.Ok? && result.value.DeliveryResult? {
          ReleaseHold(acks, result.value);
          resultOutcome := Some(result.value.outcome);
          if result.value.outcome == LinkLost {
            attempted := false;
          }
        }
      }
      return IngestOutcome(coverage, if claim.Some? then claim else Some(live), Some(message.deliveryId),
                           attempted || resultOutcome.Some?, resultOutcome, true);
    }

    /** A completed return lifts the visibility hold of its signal. */
    method ReleaseHold(acks: AckStores.AckStore, result: WaiterLink)
      modifies acks
      ensures acks.State() == Pipe.ReleaseHold(old(acks.State()), result)
    {
      if result.DeliveryResult? && result.outcome == ReturnCompleted {
        var _ := acks.NoteReturn(result.signalId);
      }
    }

    /** Drain after a match, claim the page once, and deliver it if a waiter is attached. */
    method IngestMatch(after: Option<Id>, wait: WaitResult, drain: Result<seq<DrainedEvent>, DrainError>, arm: KnownArm,
                       link: Option<Admit.AdmittedLink>, now: Time, acks: AckStores.AckStore, io: Option<Io>,
                       mintSignal: Id, mintDelivery: Id)
      returns (outcome: IngestOutcome, sent: Option<WaiterLink>)
      modifies this, ledger, acks
      ensures ledger == old(ledger)
      ensures Delivered(State(), acks.State(), outcome, sent)
           == Pipe.IngestMatch(after, wait, drain, arm, link, now, old(State()), old(acks.State()), io,
                               mintSignal, mintDelivery)
    {
      hide Pipe.DeliverClaimed;
      var currentAfter := if after.Some? then after.value else "";
      if wait != Matched {
        return Snapshot(State(), DaemonCoverage(wait, currentAfter), link.Some?), None;
      }
      var drained := AttachDrain(HINTED, after, drain);
      if drained.drainError.Some? {
        return Snapshot(State(), Halt(2), link.Some?), None;
      }
      if drained.newest.None? {
        return Snapshot(State(), Halt(2), link.Some?), None;
      }
      if !AllDisplayable(drained.drained) {
        return Snapshot(State(), Halt(2), link.Some?), None;
      }
      var events := ProviderEvents(drained.drained, now);
      var isNew := claim.None?;
      var live := ClaimOrReuse(arm, events, mintSignal);
      if live.None? {
        return Snapshot(State(), Pause, link.Some?), None;
      }
      if isNew {
        var claimed := acks.NoteClaimed(live.value.signalId);
        if claimed.Err? {
          return Snapshot(State(), Halt(2), link.Some?), None;
        }
        if HasLoss(drained.drained) {
          var held := acks.RequireReturn(live.value.signalId);
          if held.Err? {
            return Snapshot(State(), Halt(2), link.Some?), None;
          }
        }
      }
      outcome, sent := DeliverClaimed(live.value, link, acks, now, io, Pause, mintDelivery);
    }

    /** Record a waiter's result; an uncorrelated one counts as a loss. */
    method ApplyResult(result: WaiterLink) returns (applied: ResultApply)
      modifies this, ledger
      ensures ledger == old(ledger) && (State(), applied) == Pipe.ApplyResult(old(State()), result)
    {
      var recorded := ledger.RecordResult(result);
      if recorded.Ok? {
        if result.outcome == LinkLost {
          attempted := false;
          return RevokeLost;
        }
        return RevokeTerminal;
      }
      attempted := false;
      return RevokeLost;
    }

    method ApplyVisible(acks: AckStores.AckStore, result: WaiterLink) returns (applied: ResultApply)
      modifies this, ledger, acks
      ensures ledger == old(ledger)
      ensures (State(), acks.State(), applied) == Pipe.ApplyVisible(old(State()), old(acks.State()), result)
    {
      applied := ApplyResult(result);
      if applied == RevokeTerminal {
        ReleaseHold(acks, result);
      }
    }

    /** Mark the current attempt lost without consuming the batch, then drop `session`. */
    method OnTransportLoss(table: LinkTables.LinkTable, session: Option<Admit.LinkSession>, now: Time)
      modifies this, ledger, table
      ensures ledger == old(ledger) && State() == MarkLost(old(State()), now)
      ensures table.State() == if session.Some? then Admit.DropSession(old(table.State()), session.value)
                               else old(table.State())
    {
      if attempted && ledger.pending.Some? {
        var pending := ledger.pending.value;
        if pending.attempt.Awaiting? && pending.message.DeliverEvents? {
          var _ := ledger.RecordResult(DeliveryResult(pending.message.deliveryId, pending.message.linkId,
                                                      pending.message.signalId, LinkLost, Some(now)));
        }
      }
      attempted := false;
      if session.Some? {
        table.DropSession(session.value);
      }
    }

    /** Try to deliver the live claim; true when the writer failed and must be revoked. */
    method FlushAttached(link: Option<Admit.AdmittedLink>, acks: AckStores.AckStore, now: Time, io: Io, mint: Id)
      returns (revoke: bool, sent: Option<WaiterLink>)
      modifies this, ledger, acks
      ensures ledger == old(ledger)
      ensures (State(), acks.State(), revoke, sent) == Flush(link, old(State()), old(acks.State()), now, io, mint)
    {
      hide Pipe.DeliverClaimed;
      if ledger.pending.Some? && ledger.pending.value.attempt.Terminal? {
        return false, None;
      }
      if claim.None? {
        return false, None;
      }
      if link.None? {
        return false, None;
      }
      if now >= link.value.leaseUntil {
        return true, None;
      }
      var outcome;
      outcome, sent := DeliverClaimed(claim.value, link, acks, now, Some(io), Pause, mint);
      return outcome.deliveryId.Some? && !outcome.attempted, sent;
    }
  }
}
