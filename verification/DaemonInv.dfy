/**
 The invariant of the two-thread daemon, in parts over the fields each part speaks of,
 and how the shared stores' operations affect it.
 */
module DaemonInv {
  import opened Prelude
  import opened Messages
  import opened WaitOn
  import opened Daemon
  import Ack
  import AckRuns
  import Admit
  import AdmitRuns
  import Pipe

  // ----- rearms between the threads -----

  function RearmsIn(channel: seq<Event>): seq<Ack.AckRearm> {
    if channel == [] then []
    else (if channel[0].CoverageRearm? then [channel[0].rearm] else []) + RearmsIn(channel[1..])
  }

  /** Rearms queued, and the one the accept thread still holds. */
  function PendingRearms(channel: seq<Event>, accept: Accept): seq<Ack.AckRearm> {
    RearmsIn(channel) + if accept.Sending? then RearmsIn([accept.event]) else []
  }

  lemma {:induction false} RearmsAppend(channel: seq<Event>, e: Event)
    ensures RearmsIn(channel + [e]) == RearmsIn(channel) + RearmsIn([e])
  {
    if channel == [] {
      assert channel + [e] == [e];
    } else {
      assert (channel + [e])[1..] == channel[1..] + [e];
      RearmsAppend(channel[1..], e);
    }
  }

  // ----- what the closed generations acknowledged -----

  /** The acknowledged prefixes of the announced signals, in generation order. */
  function Acked(store: Ack.Store, rearms: seq<Ack.AckRearm>): seq<Id>
    decreases |rearms|
  {
    if rearms == [] then []
    else
      var last := rearms[|rearms| - 1];
      Acked(store, rearms[..|rearms| - 1])
      + if last.signalId in store.signals then UpTo(store.signals[last.signalId].delivered, last.after) else []
  }

  ghost predicate AllAnnounced(store: Ack.Store, rearms: seq<Ack.AckRearm>, g0: nat) {
    forall i | 0 <= i < |rearms| :: AckRuns.Announces(store, rearms[i], g0 + i)
  }

  lemma {:induction false} AckedStays(s: Ack.Store, u: Ack.Store, rearms: seq<Ack.AckRearm>, g0: nat)
    requires AckRuns.Shape(s, g0) && AckRuns.Evolves(s, u) && AllAnnounced(s, rearms, g0)
    ensures Acked(u, rearms) == Acked(s, rearms)
    decreases |rearms|
  {
    if rearms != [] {
      var n := |rearms| - 1;
      var last := rearms[n];
      AckedStays(s, u, rearms[..n], g0);
      assert AckRuns.Announces(s, last, g0 + n);
      assert AckRuns.BatchEvolves(s.signals[last.signalId], u.signals[last.signalId]);
      assert AckRuns.FitsBatch(s, g0, s.signals[last.signalId]);
    }
  }

  // ----- the parts of the invariant -----

  ghost predicate AckSide(tally: AckRuns.Tally, arm: KnownArm, g0: nat) {
    && AckRuns.Tallied(tally, g0)
    && tally.store.arm == Some(arm.(generation := tally.store.arm.value.generation))
  }

  /** The store is ahead of the main thread by the rearms still pending, at most one. */
  ghost predicate Agreement(m: nat, tally: AckRuns.Tally, pending: seq<Ack.AckRearm>, claimed: bool, g0: nat) {
    && tally.store.arm.Some? && g0 <= m
    && m + |pending| == tally.store.arm.value.generation && |pending| <= 1
    && (pending != [] ==>
          claimed && tally.rearms != [] && pending[0] == tally.rearms[|tally.rearms| - 1])
  }

  ghost predicate NothingOpen(store: Ack.Store) {
    store.arm.Some? && forall id | id in store.signals ::
      store.signals[id].generation < store.arm.value.generation
  }

  /** The main thread's claim is the one signal of its generation. */
  ghost predicate ClaimSide(claim: Option<Pipe.SignalClaim>, arm: KnownArm, store: Ack.Store) {
    && store.arm.Some?
    && (claim.None? ==> arm.generation == store.arm.value.generation)
    && (claim.None? || arm.generation < store.arm.value.generation ==> NothingOpen(store))
    && (claim.Some? ==>
          var c := claim.value;
          && c.generation == arm.generation && c.armId == arm.armId
          && c.signalId in store.signals && store.signals[c.signalId].generation == arm.generation
          && c.events != [] && c.eventRefs == Refs(c.events)
          && store.signals[c.signalId].drain == store.signals[c.signalId].delivered
          && (store.signals[c.signalId].delivered == [] || store.signals[c.signalId].delivered == c.eventRefs))
  }

  ghost predicate Segment(ids: seq<Id>, at: nat, refs: seq<Id>) {
    at + |refs| <= |ids| && refs == ids[at..at + |refs|]
  }

  /** The cursor covers exactly what the applied generations acknowledged, and a claim is
      the part of the log right after it. */
  ghost predicate LogSide(ids: seq<Id>, base: Id, after: Option<Id>, m: nat, g0: nat, tally: AckRuns.Tally,
                          claim: Option<Pipe.SignalClaim>)
  {
    && Distinct(ids) && base !in ids
    && after.Some? && (after.value == base || after.value in ids)
    && g0 <= m && m - g0 <= |tally.rearms|
    && Acked(tally.store, tally.rearms[..m - g0]) == ids[..Covered(ids, after.value)]
    && (claim.Some? ==> Segment(ids, Covered(ids, after.value), claim.value.eventRefs))
  }

  /** Between operations exactly one holds: a child waits from the cursor, or a claim is live. */
  ghost predicate MainSide(main: Main, child: Option<Option<Id>>, after: Option<Id>, claimed: bool, ids: seq<Id>) {
    match main
    case Halted(_) => true
    case Ingesting(_, _) => child.None? && !claimed
    case Restarting(_) => child.None? && !claimed
    case Draining => child.None? && !claimed
    case Claiming(page) =>
      child.None? && !claimed && page != [] && after.Some? && Segment(ids, Covered(ids, after.value), Ids(page))
    case _ => if claimed then child.None? else child == Some(after)
  }

  ghost predicate SameDelivery(a: WaiterLink, b: WaiterLink) {
    && a.DeliverEvents? && b.DeliverEvents?
    && a.deliveryId == b.deliveryId && a.signalId == b.signalId && a.events == b.events
  }

  /** The pending batch is the claim's; every frame of this generation repeats it. */
  ghost predicate DeliverySide(pipe: Pipe.Value, frames: seq<Frame>, m: nat) {
    && (pipe.claim.None? ==> pipe == Pipe.EMPTY_PIPE)
    && (pipe.ledger.Some? ==>
          var p := pipe.ledger.value;
          && pipe.claim.Some? && p.message.DeliverEvents? && p.deliveryId == p.message.deliveryId
          && p.message.signalId == pipe.claim.value.signalId && p.message.events == pipe.claim.value.events)
    && (forall i | 0 <= i < |frames| ::
          && frames[i].generation <= m
          && (frames[i].generation == m ==>
                pipe.ledger.Some? && SameDelivery(frames[i].message, pipe.ledger.value.message)))
    && (forall i, j | 0 <= i < |frames| && 0 <= j < |frames| ::
          frames[i].generation == frames[j].generation ==> SameDelivery(frames[i].message, frames[j].message))
  }

  /** A page with measured loss is handled only after its receipt was confirmed. */
  ghost predicate HoldSide(store: Ack.Store, lossy: set<Id>, completed: set<Id>) {
    && (forall id | id in lossy :: id in store.signals)
    && (forall id | id in store.signals ::
          var b := store.signals[id];
          && (b.requireReturn <==> id in lossy)
          && (b.returnCompleted ==> id in completed)
          && (b.requireReturn && b.handled.Some? ==> b.returnCompleted))
  }

  function Inflight(accept: Accept): Option<Admit.Prepared> {
    if accept.Replying? then Some(accept.prepared) else None
  }

  /** No link is ahead of the store; the attach in hand is for the store's generation. */
  ghost predicate LinkSide(table: Admit.Table, accept: Accept, arm: Option<KnownArm>) {
    && arm.Some?
    && AdmitRuns.Good(AdmitRuns.Loop(table, Inflight(accept)), arm.value.coverageUntil)
    && (table.current.Some? ==> table.current.value.generation <= arm.value.generation)
    && (accept.Deciding? ==> accept.arms == [arm.value])
    && (accept.Replying? && accept.prepared.pending.CommitAccept? ==>
          accept.prepared.pending.link.generation == arm.value.generation)
  }

  ghost predicate Inv(s: Sys, base: Id, g0: nat) {
    && AckSide(s.tally, s.arm, g0)
    && Agreement(s.arm.generation, s.tally, PendingRearms(s.channel, s.accept), s.pipe.claim.Some?, g0)
    && ClaimSide(s.pipe.claim, s.arm, s.tally.store)
    && LogSide(Ids(s.log), base, s.after, s.arm.generation, g0, s.tally, s.pipe.claim)
    && MainSide(s.main, s.child, s.after, s.pipe.claim.Some?, Ids(s.log))
    && DeliverySide(s.pipe, s.frames, s.arm.generation)
    && HoldSide(s.tally.store, s.lossy, s.completed)
    && LinkSide(s.table, s.accept, s.tally.store.arm)
  }

  /** The invariant taken apart, and put together. */
  lemma Parts(s: Sys, base: Id, g0: nat)
    requires Inv(s, base, g0)
    ensures AckSide(s.tally, s.arm, g0) && s.tally.store.arm.Some?
    ensures Agreement(s.arm.generation, s.tally, PendingRearms(s.channel, s.accept), s.pipe.claim.Some?, g0)
    ensures ClaimSide(s.pipe.claim, s.arm, s.tally.store)
    ensures LogSide(Ids(s.log), base, s.after, s.arm.generation, g0, s.tally, s.pipe.claim) && s.after.Some?
    ensures MainSide(s.main, s.child, s.after, s.pipe.claim.Some?, Ids(s.log))
    ensures DeliverySide(s.pipe, s.frames, s.arm.generation)
    ensures HoldSide(s.tally.store, s.lossy, s.completed)
    ensures LinkSide(s.table, s.accept, s.tally.store.arm)
  {
    hide Covered, ClaimSide, DeliverySide, HoldSide, MainSide, LinkSide, Acked, RearmsIn, AckRuns.Tallied;
  }

  lemma Whole(s: Sys, base: Id, g0: nat)
    requires AckSide(s.tally, s.arm, g0)
    requires Agreement(s.arm.generation, s.tally, PendingRearms(s.channel, s.accept), s.pipe.claim.Some?, g0)
    requires ClaimSide(s.pipe.claim, s.arm, s.tally.store)
    requires LogSide(Ids(s.log), base, s.after, s.arm.generation, g0, s.tally, s.pipe.claim)
    requires MainSide(s.main, s.child, s.after, s.pipe.claim.Some?, Ids(s.log))
    requires DeliverySide(s.pipe, s.frames, s.arm.generation)
    requires HoldSide(s.tally.store, s.lossy, s.completed)
    requires LinkSide(s.table, s.accept, s.tally.store.arm)
    ensures Inv(s, base, g0)
  {
    hide AckSide, Agreement, ClaimSide, LogSide, MainSide, DeliverySide, HoldSide, LinkSide;
  }

  // ----- what the ack store's operations do to single batches -----

  /** Same signals, arm and history; only `id` may differ. */
  ghost predicate OnlyAt(s: Ack.Store, t: Ack.Store, id: Id) {
    && t.arm == s.arm && t.history == s.history && t.signals.Keys == s.signals.Keys
    && forall o | o in s.signals && o != id :: t.signals[o] == s.signals[o]
  }

  lemma DeliverEffect(s: Ack.Store, g0: nat, id: Id, refs: seq<Id>)
    requires AckRuns.Shape(s, g0) && id in s.signals
    ensures var t := Ack.NoteDelivered(s, id, refs, refs).0;
            && OnlyAt(s, t, id)
            && (t.signals[id] != s.signals[id] ==>
                  && s.signals[id].delivered == [] && refs != []
                  && t.signals[id] == s.signals[id].(delivered := refs, drain := refs, afterBound := []))
  {
    assert refs[|refs|..] == [];
    if Ack.NoteDelivered(s, id, refs, refs).0 != s {
      assert AckRuns.FitsBatch(s, g0, s.signals[id]);
    }
    hide AckRuns.Shape, Ack.OtherOpen, Distinct;
  }

  lemma ReturnEffect(s: Ack.Store, id: Id)
    ensures var t := Ack.NoteReturn(s, id).0;
            && OnlyAt(s, t, id)
            && (id in s.signals && t.signals[id] != s.signals[id] ==>
                  s.signals[id].requireReturn && t.signals[id] == s.signals[id].(returnCompleted := true))
  {
  }

  /** A new claim in a store with nothing open is registered, held if it is lossy. */
  lemma RegisterEffect(s: Ack.Store, g0: nat, id: Id, lossy: bool)
    requires AckRuns.Shape(s, g0) && NothingOpen(s) && id !in s.signals
    ensures var b := Ack.FreshBatch(s.arm.value, [], []).(requireReturn := lossy);
            Pipe.Register(s, id, lossy) == (s.(signals := s.signals[id := b]), true)
  {
    var b := Ack.FreshBatch(s.arm.value, [], []);
    assert !Ack.OtherOpen(s, id);
    assert Ack.NoteClaimed(s, id).0 == s.(signals := s.signals[id := b]);
    assert s.signals[id := b][id := b.(requireReturn := true)] == s.signals[id := b.(requireReturn := true)];
  }

  /** Only cursors and closings changed, and no cursor of a held signal. */
  ghost predicate AckOnly(s: Ack.Store, t: Ack.Store) {
    && t.signals.Keys == s.signals.Keys
    && forall o | o in s.signals ::
         var b := s.signals[o];
         && t.signals[o] == b.(handled := t.signals[o].handled, closed := t.signals[o].closed)
         && (t.signals[o].handled != b.handled ==> !Ack.HeldForReturn(s, o))
  }

  lemma DecideEffect(s: Ack.Store, g0: nat, request: HandledCursor, now: Time)
    requires AckRuns.Shape(s, g0) && request.Request?
    ensures AckOnly(s, Ack.Decide(s, request, now).0)
  {
    if Ack.Refusal(s, request).None? {
      AckRuns.AcceptMovesForward(s, g0, request);
      hide AckRuns.Shape, Ack.Refusal;
    }
  }

  lemma SameSignals(s: Ack.Store, t: Ack.Store, u: Ack.Store)
    requires AckOnly(s, t)
    ensures u.signals == t.signals ==> AckOnly(s, u)
  {
  }

  lemma RecordEffect(s: Ack.Store, g0: nat, request: HandledCursor, now: Time)
    requires AckRuns.Shape(s, g0)
    ensures AckOnly(s, Ack.RecordHandled(s, request, now).0)
  {
    assert AckOnly(s, s);
    hide Ack.Decide, ValidHandled, AckRuns.Shape, AckOnly;
    if request.Request? {
      DecideEffect(s, g0, request, now);
      SameSignals(s, Ack.Decide(s, request, now).0, Ack.RecordHandled(s, request, now).0);
    }
  }

  lemma CloseEffect(s: Ack.Store, t: Ack.Store, reply: HandledCursor)
    requires AckOnly(s, t)
    ensures AckOnly(s, Ack.CloseAccepted(t, reply).0)
  {
  }

  /** An ack changes cursors and closings only, and no cursor of a held signal. */
  lemma HandleEffect(s: Ack.Store, g0: nat, request: HandledCursor, now: Time)
    requires AckRuns.Shape(s, g0)
    ensures AckOnly(s, Ack.ApplyHandled(s, request, now).0)
  {
    hide AckOnly, Ack.RecordHandled, AckRuns.Shape, Ack.CloseAccepted;
    var (t, recorded) := Ack.RecordHandled(s, request, now);
    RecordEffect(s, g0, request, now);
    if recorded.Ok? {
      CloseEffect(s, t, recorded.value);
    }
  }
}
