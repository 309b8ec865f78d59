/**
 The delivery ledger: at most one pending `deliver_events` batch and the fate of its
 current attempt. `Ledger` is the value of a `DeliveryLedger`.
 */
module Deliver {
  import opened Prelude
  import opened Messages
  import opened Admit

  datatype DeliverError =
    | DeliveryPending | EmptyDelivery | InvalidMessage | NothingPending | AlreadyTerminal
    | AuthorityMismatch | ExpectedDeliver | ExpectedResult | DeliveryIdMismatch
    | LinkIdMismatch | SignalIdMismatch | LostAttempt | ConflictingOutcome

  datatype Attempt = Awaiting | Lost | Terminal(outcome: Outcome)

  datatype Pending = Pending(deliveryId: Id, linkId: Id, message: WaiterLink, attempt: Attempt)

  type Ledger = Option<Pending>

  predicate ShouldRedeliver(ledger: Ledger) {
    ledger.Some? && !ledger.value.attempt.Terminal?
  }

  function NewMessage(link: AdmittedLink, signalId: Id, events: seq<ProviderEvent>, now: Time, mint: Id): WaiterLink
    requires events != []
  {
    DeliverEvents(mint, link.linkId, link.armId, link.generation, signalId, link.route, events,
                  events[|events| - 1].eventRef, Some(now))
  }

  /** `prepare_delivery`; `mint` is the fresh delivery id. */
  function Prepare(ledger: Ledger, link: AdmittedLink, signalId: Id, events: seq<ProviderEvent>, now: Time, mint: Id)
    : (Ledger, Result<WaiterLink, DeliverError>)
  {
    if ShouldRedeliver(ledger) then (ledger, Err(DeliveryPending))
    else if events == [] then (ledger, Err(EmptyDelivery))
    else
      var message := NewMessage(link, signalId, events, now, mint);
      if !ValidLink(message) then (ledger, Err(InvalidMessage))
      else (Some(Pending(mint, link.linkId, message, Awaiting)), Ok(message))
  }

  /** `redeliver_pending`. The stored message is rewritten before it is validated. */
  function Redeliver(ledger: Ledger, link: AdmittedLink, now: Time)
    : (Ledger, Result<WaiterLink, DeliverError>)
  {
    if ledger.None? then (ledger, Err(NothingPending))
    else
      var p := ledger.value;
      if p.attempt.Terminal? then (ledger, Err(AlreadyTerminal))
      else if !p.message.DeliverEvents? then (ledger, Err(ExpectedDeliver))
      else if p.message.armId != link.armId || p.message.generation != link.generation
              || p.message.route != link.route then (ledger, Err(AuthorityMismatch))
      else
        var message := p.message.(linkId := link.linkId, attemptedAt := Some(now));
        if !ValidLink(message) then (Some(p.(message := message)), Err(InvalidMessage))
        else (Some(p.(message := message, linkId := link.linkId, attempt := Awaiting)), Ok(message))
  }

  /** `record_delivery_result`. */
  function RecordResult(ledger: Ledger, result: WaiterLink): (Ledger, Result<(), DeliverError>) {
    if !ValidLink(result) then (ledger, Err(InvalidMessage))
    else if !result.DeliveryResult? then (ledger, Err(ExpectedResult))
    else if ledger.None? then (ledger, Err(NothingPending))
    else
      var p := ledger.value;
      if !p.message.DeliverEvents? then (ledger, Err(ExpectedDeliver))
      else if p.deliveryId != result.deliveryId then (ledger, Err(DeliveryIdMismatch))
      else if p.linkId != result.linkId then (ledger, Err(LinkIdMismatch))
      else if p.message.signalId != result.signalId then (ledger, Err(SignalIdMismatch))
      else match p.attempt
        case Awaiting =>
          var attempt := if result.outcome == LinkLost then Lost else Terminal(result.outcome);
          (Some(p.(attempt := attempt)), Ok(()))
        case Lost =>
          (ledger, if result.outcome == LinkLost then Ok(()) else Err(LostAttempt))
        case Terminal(existing) =>
          (ledger, if existing == result.outcome then Ok(()) else Err(ConflictingOutcome))
  }

  /** Everything a redelivery must repeat. */
  predicate SamePayload(a: WaiterLink, b: WaiterLink) {
    && a.DeliverEvents? && b.DeliverEvents?
    && a.deliveryId == b.deliveryId && a.signalId == b.signalId && a.events == b.events
    && a.newest == b.newest && a.armId == b.armId && a.generation == b.generation && a.route == b.route
  }

  ghost predicate GoodLedger(ledger: Ledger) {
    ledger.Some? ==>
      && ledger.value.message.DeliverEvents?
      && ledger.value.message.deliveryId == ledger.value.deliveryId
  }
}

/** The ledger as the daemon holds it, updated in place. */
module DeliveryLedgers {
  import opened Prelude
  import opened Messages
  import opened Admit
  import opened Deliver

  class DeliveryLedger {
    var pending: Option<Pending>

    function State(): Ledger
      reads this
    {
      pending
    }

    constructor ()
      ensures State() == None
    {
      pending := None;
    }

    method Prepare(link: AdmittedLink, signalId: Id, events: seq<ProviderEvent>, now: Time, mint: Id)
      returns (r: Result<WaiterLink, DeliverError>)
      modifies this
      ensures (State(), r) == Deliver.Prepare(old(State()), link, signalId, events, now, mint)
    {
      if ShouldRedeliver(State()) {
        return Err(DeliveryPending);
      }
      if events == [] {
        return Err(EmptyDelivery);
      }
      var message := NewMessage(link, signalId, events, now, mint);
      if !ValidLink(message) {
        return Err(InvalidMessage);
      }
      pending := Some(Pending(mint, link.linkId, message, Awaiting));
      return Ok(message);
    }

    method Redeliver(link: AdmittedLink, now: Time) returns (r: Result<WaiterLink, DeliverError>)
      modifies this
      ensures (State(), r) == Deliver.Redeliver(old(State()), link, now)
    {
      if pending.None? {
        return Err(NothingPending);
      }
      if pending.value.attempt.Terminal? {
        return Err(AlreadyTerminal);
      }
      if !pending.value.message.DeliverEvents? {
        return Err(ExpectedDeliver);
      }
      var message := pending.value.message;
      if message.armId != link.armId || message.generation != link.generation || message.route != link.route {
        return Err(AuthorityMismatch);
      }
      message := message.(linkId := link.linkId, attemptedAt := Some(now));
      pending := Some(pending.value.(message := message));
      if !ValidLink(message) {
        return Err(InvalidMessage);
      }
      pending := Some(pending.value.(linkId := link.linkId, attempt := Awaiting));
      return Ok(message);
    }

    method RecordResult(result: WaiterLink) returns (r: Result<(), DeliverError>)
      modifies this
      ensures (State(), r) == Deliver.RecordResult(old(State()), result)
    {
      if !ValidLink(result) {
        return Err(InvalidMessage);
      }
      if !result.DeliveryResult? {
        return Err(ExpectedResult);
      }
      if pending.None? {
        return Err(NothingPending);
      }
      var p := pending.value;
      if !p.message.DeliverEvents? {
        return Err(ExpectedDeliver);
      }
      if p.deliveryId != result.deliveryId {
        return Err(DeliveryIdMismatch);
      }
      if p.linkId != result.linkId {
        return Err(LinkIdMismatch);
      }
      if p.message.signalId != result.signalId {
        return Err(SignalIdMismatch);
      }
      match p.attempt
      case Awaiting =>
        if result.outcome == LinkLost {
          pending := Some(p.(attempt := Lost));
        } else {
          pending := Some(p.(attempt := Terminal(result.outcome)));
        }
        return Ok(());
      case Lost =>
        if result.outcome == LinkLost {
          return Ok(());
        }
        return Err(LostAttempt);
      case Terminal(existing) =>
        if existing == result.outcome {
          return Ok(());
        }
        return Err(ConflictingOutcome);
    }
  }
}

/** What a ledger keeps over every run of preparations, redeliveries and results. */
module DeliverRuns {
  import opened Prelude
  import opened Messages
  import opened Admit
  import opened Deliver

  /** A ledger with every frame it produced and every terminal outcome it recorded. */
  datatype Log = Log(ledger: Ledger, frames: seq<WaiterLink>, outcomes: map<Id, Outcome>, minted: set<Id>)

  datatype Op =
    | DoPrepare(link: AdmittedLink, signalId: Id, events: seq<ProviderEvent>, now: Time, mint: Id)
    | DoRedeliver(link: AdmittedLink, now: Time)
    | DoRecord(result: WaiterLink)
    | DoReset

  function Emit(frames: seq<WaiterLink>, r: Result<WaiterLink, DeliverError>): seq<WaiterLink> {
    if r.Ok? then frames + [r.value] else frames
  }

  function Do(l: Log, op: Op): Log {
    match op
    case DoPrepare(link, signalId, events, now, mint) =>
      if mint in l.minted then l
      else
        var (ledger, r) := Deliver.Prepare(l.ledger, link, signalId, events, now, mint);
        Log(ledger, Emit(l.frames, r), l.outcomes, l.minted + {mint})
    case DoRedeliver(link, now) =>
      var (ledger, r) := Redeliver(l.ledger, link, now);
      l.(ledger := ledger, frames := Emit(l.frames, r))
    case DoRecord(result) =>
      var (ledger, r) := RecordResult(l.ledger, result);
      if ledger != l.ledger && ledger.Some? && ledger.value.attempt.Terminal? then
        l.(ledger := ledger, outcomes := l.outcomes[ledger.value.deliveryId := ledger.value.attempt.outcome])
      else l.(ledger := ledger)
    case DoReset => l.(ledger := None)
  }

  function Run(l: Log, ops: seq<Op>): Log
    decreases |ops|
  {
    if ops == [] then l else Do(Run(l, ops[..|ops| - 1]), ops[|ops| - 1])
  }

  const START := Log(None, [], map[], {})

  ghost predicate Stable(l: Log) {
    && GoodLedger(l.ledger)
    && (l.ledger.Some? ==> l.ledger.value.deliveryId in l.minted)
    && (forall i | 0 <= i < |l.frames| :: l.frames[i].DeliverEvents? && l.frames[i].deliveryId in l.minted)
    && (forall i, j | 0 <= i < |l.frames| && 0 <= j < |l.frames| ::
          l.frames[i].deliveryId == l.frames[j].deliveryId ==> SamePayload(l.frames[i], l.frames[j]))
    && (l.ledger.Some? ==>
          forall i | 0 <= i < |l.frames| :: l.frames[i].deliveryId == l.ledger.value.deliveryId ==>
            SamePayload(l.frames[i], l.ledger.value.message))
    && l.outcomes.Keys <= l.minted
    && (l.ledger.Some? ==>
          (l.ledger.value.deliveryId in l.outcomes <==> l.ledger.value.attempt.Terminal?)
          && (l.ledger.value.attempt.Terminal? ==>
                l.outcomes[l.ledger.value.deliveryId] == l.ledger.value.attempt.outcome))
  }

  /** A step records no second outcome and sends no frame of a finished delivery. */
  ghost predicate Respects(l: Log, m: Log) {
    && (forall id | id in l.outcomes :: id in m.outcomes && m.outcomes[id] == l.outcomes[id])
    && l.frames <= m.frames
    && (forall i | |l.frames| <= i < |m.frames| ::
          m.frames[i].DeliverEvents? && m.frames[i].deliveryId !in l.outcomes)
  }

  lemma PrepareKeepsStable(l: Log, op: Op)
    requires Stable(l) && op.DoPrepare?
    ensures Stable(Do(l, op)) && Respects(l, Do(l, op))
  {
    hide ValidLink;
  }

  lemma RedeliverKeepsStable(l: Log, op: Op)
    requires Stable(l) && op.DoRedeliver?
    ensures Stable(Do(l, op)) && Respects(l, Do(l, op))
  {
    hide ValidLink;
    var m := Do(l, op);
    if l.ledger.Some? && m.ledger.Some? && !l.ledger.value.attempt.Terminal? {
      assert SamePayload(l.ledger.value.message, m.ledger.value.message);
    }
  }

  lemma RecordKeepsStable(l: Log, op: Op)
    requires Stable(l) && op.DoRecord?
    ensures Stable(Do(l, op)) && Respects(l, Do(l, op))
  {
    hide ValidLink;
  }

  lemma StepKeepsStable(l: Log, op: Op)
    requires Stable(l)
    ensures Stable(Do(l, op)) && Respects(l, Do(l, op))
  {
    match op
    case DoPrepare(_, _, _, _, _) => PrepareKeepsStable(l, op);
    case DoRedeliver(_, _) => RedeliverKeepsStable(l, op);
    case DoRecord(_) => RecordKeepsStable(l, op);
    case DoReset =>
  }

  /** Main result: over every run all frames of one delivery id carry one payload, a
      delivery has at most one terminal outcome, and it is not sent again after it. */
  lemma {:induction false} DeliveriesAreStable(ops: seq<Op>)
    ensures Stable(Run(START, ops))
    decreases |ops|
  {
    if ops != [] {
      DeliveriesAreStable(ops[..|ops| - 1]);
      StepKeepsStable(Run(START, ops[..|ops| - 1]), ops[|ops| - 1]);
    }
  }

  lemma {:induction false} OutcomesAreFinal(l: Log, ops: seq<Op>)
    requires Stable(l)
    ensures Stable(Run(l, ops)) && Respects(l, Run(l, ops))
    decreases |ops|
  {
    if ops != [] {
      var mid := Run(l, ops[..|ops| - 1]);
      OutcomesAreFinal(l, ops[..|ops| - 1]);
      StepKeepsStable(mid, ops[|ops| - 1]);
    }
  }
}
