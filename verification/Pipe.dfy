/**
 The daemon's claim and delivery pipe: what one interval, one delivery attempt, one waiter
 result, one lost session and one accepted acknowledgement do to it.

 The stores are passed as values. `Io` is what the waiter's stream answers to one
 delivery: whether it takes the frame, and a result read at once, if any. A message whose
 payload is too large is refused before it reaches the stream.
 */
module Pipe {
  import opened Prelude
  import opened Messages
  import Ack
  import Admit
  import Codec
  import Deliver
  import opened WaitOn

  datatype SignalClaim = SignalClaim(
    armId: Id, generation: nat, signalId: Id, eventRefs: seq<Id>, events: seq<ProviderEvent>)

  datatype Coverage = Rearm(after: Id) | Pause | Halt(exit: int)

  datatype Value = Value(ledger: Deliver.Ledger, claim: Option<SignalClaim>, attempted: bool)

  datatype IngestOutcome = IngestOutcome(
    coverage: Coverage, claim: Option<SignalClaim>, deliveryId: Option<Id>, attempted: bool,
    resultOutcome: Option<Outcome>, waiterAttached: bool)

  datatype Io = Io(sendOk: bool, result: Option<WaiterLink>)

  /** A pipe and an ack store after an operation, its outcome, and the frame it wrote. */
  datatype Delivered = Delivered(pipe: Value, acks: Ack.Store, outcome: IngestOutcome, sent: Option<WaiterLink>)

  const EMPTY_PIPE := Value(None, None, false)

  function ProviderEvents(events: seq<DrainedEvent>, observed: Time): (mapped: seq<ProviderEvent>)
    ensures Refs(mapped) == Ids(events)
  {
    seq(|events|, i requires 0 <= i < |events| =>
      ProviderEvent("mattermost", events[i].id,
                    if events[i].username == "" then None else Some(events[i].username),
                    Some(observed), events[i].message))
  }

  /** `claim_or_reuse`; the result is None when a different batch is live. */
  function ClaimOrReuse(current: Option<SignalClaim>, arm: KnownArm, events: seq<ProviderEvent>, mint: Id)
    : (Option<SignalClaim>, Option<SignalClaim>)
  {
    match current
    case Some(existing) =>
      if existing.armId == arm.armId && existing.generation == arm.generation && existing.events == events
      then (current, Some(existing)) else (current, None)
    case None =>
      var claim := SignalClaim(arm.armId, arm.generation, mint, Refs(events), events);
      (Some(claim), Some(claim))
  }

  function PendingId(ledger: Deliver.Ledger): Option<Id> {
    if ledger.Some? then Some(ledger.value.deliveryId) else None
  }

  function Snapshot(pipe: Value, coverage: Coverage, waiterAttached: bool): IngestOutcome {
    IngestOutcome(coverage, pipe.claim, PendingId(pipe.ledger), pipe.attempted, None, waiterAttached)
  }

  function DaemonCoverage(wait: WaitResult, after: Id): Coverage {
    match wait
    case Timeout => Rearm(after)
    case Error => Halt(2)
    case Matched => Pause
  }

  /** `update_ack_visibility_after_result`. */
  function ReleaseHold(acks: Ack.Store, result: WaiterLink): Ack.Store {
    if result.DeliveryResult? && result.outcome == ReturnCompleted then Ack.NoteReturn(acks, result.signalId).0
    else acks
  }

  /** The message of this attempt: the pending batch again, or a new one. */
  function NextMessage(ledger: Deliver.Ledger, live: SignalClaim, link: Admit.AdmittedLink, now: Time, mint: Id)
    : (Deliver.Ledger, Result<WaiterLink, Deliver.DeliverError>)
  {
    if Deliver.ShouldRedeliver(ledger) then Deliver.Redeliver(ledger, link, now)
    else Deliver.Prepare(ledger, link, live.signalId, live.events, now, mint)
  }

  /** After a frame was written: admit the batch for acknowledgement, then read a result. */
  function AfterSend(live: SignalClaim, pipe: Value, acks: Ack.Store, message: WaiterLink,
                     result: Option<WaiterLink>, coverage: Coverage, attached: bool): Delivered
    requires message.DeliverEvents?
  {
    var (acks1, noted) := Ack.NoteDelivered(acks, live.signalId, Refs(message.events), live.eventRefs);
    if noted.Err? then Delivered(pipe, acks1, Snapshot(pipe, Halt(2), attached), Some(message))
    else
      var pipe1 := pipe.(attempted := true);
      var recorded := if result.Some? then Deliver.RecordResult(pipe1.ledger, result.value)
                      else (pipe1.ledger, Err(Deliver.NothingPending));
      if result.None? || recorded.1.Err? || !result.value.DeliveryResult? then
        var pipe2 := pipe1.(ledger := recorded.0);
        Delivered(pipe2, acks1,
                  IngestOutcome(coverage, if pipe2.claim.Some? then pipe2.claim else Some(live),
                                Some(message.deliveryId), pipe2.attempted, None, attached),
                  Some(message))
      else
        var outcome := result.value.outcome;
        var pipe2 := pipe1.(ledger := recorded.0, attempted := outcome != LinkLost);
        Delivered(pipe2, ReleaseHold(acks1, result.value),
                  IngestOutcome(coverage, if pipe2.claim.Some? then pipe2.claim else Some(live),
                                Some(message.deliveryId), true, Some(outcome), attached),
                  Some(message))
  }

  /** `deliver_claimed`. */
  function DeliverClaimed(live: SignalClaim, link: Option<Admit.AdmittedLink>, pipe: Value, acks: Ack.Store,
                          now: Time, io: Option<Io>, coverage: Coverage, mint: Id): Delivered
  {
    if link.None? then
      Delivered(pipe, acks, IngestOutcome(coverage, Some(live), None, false, None, false), None)
    else
      var (ledger, made) := NextMessage(pipe.ledger, live, link.value, now, mint);
      var pipe1 := pipe.(ledger := ledger);
      if made.Err? then Delivered(pipe1, acks, Snapshot(pipe1, coverage, true), None)
      else
        var message := made.value;
        assert message.DeliverEvents?;
        var unsent := IngestOutcome(coverage, Some(live), Some(message.deliveryId), false, None, true);
        if io.None? then Delivered(pipe1.(attempted := false), acks, unsent, None)
        else if pipe1.attempted && ledger.Some? && ledger.value.attempt.Awaiting? then
          Delivered(pipe1, acks, unsent.(attempted := true), None)
        else if !io.value.sendOk || !Codec.Fits(message) then Delivered(pipe1.(attempted := false), acks, unsent, None)
        else AfterSend(live, pipe1, acks, message, io.value.result, coverage, true)
  }

  /** The hint outcome `ingest_match` hands to the drain. */
  const HINTED := WaitOutcome(Completed, Matched, Some(0), 0, [], None, None)

  /** Register a new claim with the ack store, holding it for a visible receipt if the
      page lost content locally. */
  function Register(acks: Ack.Store, signalId: Id, lossy: bool): (Ack.Store, bool) {
    var (acks1, claimed) := Ack.NoteClaimed(acks, signalId);
    if claimed.Err? then (acks1, false)
    else if !lossy then (acks1, true)
    else
      var (acks2, held) := Ack.RequireReturn(acks1, signalId);
      (acks2, held.Ok?)
  }

  predicate HasLoss(events: seq<DrainedEvent>) {
    exists i :: 0 <= i < |events| && events[i].localLoss.Some?
  }

  predicate AllDisplayable(events: seq<DrainedEvent>) {
    forall i :: 0 <= i < |events| ==> IsDisplayableEvent(events[i])
  }

  /** `ingest_match`. */
  function IngestMatch(after: Option<Id>, wait: WaitResult, drain: Result<seq<DrainedEvent>, DrainError>,
                       arm: KnownArm, link: Option<Admit.AdmittedLink>, now: Time, pipe: Value, acks: Ack.Store,
                       io: Option<Io>, mintSignal: Id, mintDelivery: Id): Delivered
  {
    var attached := link.Some?;
    if wait != Matched then
      Delivered(pipe, acks, Snapshot(pipe, DaemonCoverage(wait, if after.Some? then after.value else ""), attached),
                None)
    else
      var drained := AttachDrain(HINTED, after, drain);
      if drained.drainError.Some? || drained.newest.None? || !AllDisplayable(drained.drained) then
        Delivered(pipe, acks, Snapshot(pipe, Halt(2), attached), None)
      else
        var events := ProviderEvents(drained.drained, now);
        var (claim, live) := ClaimOrReuse(pipe.claim, arm, events, mintSignal);
        var pipe1 := pipe.(claim := claim);
        if live.None? then Delivered(pipe1, acks, Snapshot(pipe1, Pause, attached), None)
        else
          var (acks1, registered) :=
            if pipe.claim.None? then Register(acks, live.value.signalId, HasLoss(drained.drained))
            else (acks, true);
          if !registered then Delivered(pipe1, acks1, Snapshot(pipe1, Halt(2), attached), None)
          else DeliverClaimed(live.value, link, pipe1, acks1, now, io, Pause, mintDelivery)
  }

  datatype ResultApply = Keep | RevokeLost | RevokeTerminal

  /** `apply_waiter_result`: an uncorrelated result is a loss. */
  function ApplyResult(pipe: Value, result: WaiterLink): (Value, ResultApply) {
    var (ledger, recorded) := Deliver.RecordResult(pipe.ledger, result);
    var pipe1 := pipe.(ledger := ledger);
    if recorded.Err? || !result.DeliveryResult? || result.outcome == LinkLost then
      (pipe1.(attempted := false), RevokeLost)
    else (pipe1, RevokeTerminal)
  }

  /** `apply_waiter_result_with_ack_visibility`. */
  function ApplyVisible(pipe: Value, acks: Ack.Store, result: WaiterLink): (Value, Ack.Store, ResultApply) {
    var (pipe1, applied) := ApplyResult(pipe, result);
    (pipe1, if applied == RevokeTerminal then ReleaseHold(acks, result) else acks, applied)
  }

  /** The pipe part of `on_transport_loss`. */
  function MarkLost(pipe: Value, now: Time): Value {
    var p := pipe.ledger;
    var ledger :=
      if pipe.attempted && p.Some? && p.value.attempt.Awaiting? && p.value.message.DeliverEvents? then
        Deliver.RecordResult(p, DeliveryResult(p.value.message.deliveryId, p.value.message.linkId,
                                               p.value.message.signalId, LinkLost, Some(now))).0
      else p;
    pipe.(ledger := ledger, attempted := false)
  }

  /** `take_coverage_rearm`: false when the rearm was already applied. */
  function TakeRearm(after: Option<Id>, arm: KnownArm, pipe: Value, rearm: Ack.AckRearm)
    : (Option<Id>, KnownArm, Value, bool)
  {
    if arm.generation == rearm.generation && after == Some(rearm.after) && pipe.claim.None? && pipe.ledger.None?
    then (after, arm, pipe, false)
    else (Some(rearm.after), arm.(generation := rearm.generation), EMPTY_PIPE, true)
  }

  /** `revoke_older_generation`. */
  function RevokeOlder(served: Option<Admit.Served>, table: Admit.Table, generation: nat)
    : (Option<Admit.Served>, Admit.Table)
  {
    var stale := served.Some? && served.value.session.Some? && served.value.session.value.generation < generation;
    var table1 := if stale then Admit.DropSession(table, served.value.session.value) else table;
    var table2 := if table1.current.Some? && table1.current.value.generation < generation
                  then table1.(current := None) else table1;
    (if stale then None else served, table2)
  }

  /** `retain_live_attach`: the incoming session is the live one and not already held. */
  predicate RetainLive(incoming: Admit.Served, table: Admit.Table, existing: Option<Admit.Served>) {
    && incoming.session.Some? && table.current.Some?
    && Admit.SessionOf(table.current.value) == incoming.session.value
    && !(existing.Some? && existing.value.session == Some(Admit.SessionOf(table.current.value)))
  }

  /** `flush_attached`: a delivery attempt on the live link, and whether to revoke it. */
  function Flush(link: Option<Admit.AdmittedLink>, pipe: Value, acks: Ack.Store, now: Time, io: Io, mint: Id)
    : (Value, Ack.Store, bool, Option<WaiterLink>)
  {
    if pipe.ledger.Some? && pipe.ledger.value.attempt.Terminal? then (pipe, acks, false, None)
    else if pipe.claim.None? || link.None? then (pipe, acks, false, None)
    else if now >= link.value.leaseUntil then (pipe, acks, true, None)
    else
      var d := DeliverClaimed(pipe.claim.value, link, pipe, acks, now, Some(io), Pause, mint);
      (d.pipe, d.acks, d.outcome.deliveryId.Some? && !d.outcome.attempted, d.sent)
  }
}
