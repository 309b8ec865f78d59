/** The actions of the accept thread keep the invariant. */
module DaemonAccept {
  import opened Prelude
  import opened Messages
  import opened WaitOn
  import opened Daemon
  import opened DaemonInv
  import opened DaemonSteps
  import Ack
  import AckRuns
  import Admit
  import AdmitRuns
  import Pipe

  // ----- admission -----

  /** A step that only touches the link table and where the accept thread stands. */
  lemma AcceptMoves(s: Sys, t: Sys, base: Id, g0: nat)
    requires Inv(s, base, g0)
    requires t == s.(table := t.table, accept := t.accept)
    requires PendingRearms(t.channel, t.accept) == PendingRearms(s.channel, s.accept)
    requires LinkSide(t.table, t.accept, s.tally.store.arm)
    ensures Inv(t, base, g0)
  {
    hide *;
    Parts(s, base, g0);
    Whole(t, base, g0);
  }

  lemma AttachArrivesKeeps(s: Sys, base: Id, g0: nat, request: WaiterLink)
    requires Inv(s, base, g0)
    ensures Inv(DoAttachArrives(s, request), base, g0)
  {
    hide Inv, AckSide, Agreement, ClaimSide, LogSide, DeliverySide, HoldSide, MainSide, AdmitRuns.Good;
    Parts(s, base, g0);
    var t := DoAttachArrives(s, request);
    AcceptMoves(s, t, base, g0);
  }

  /** What is decided is for the arm the decision was made against. */
  lemma PrepareKeepsLinks(table: Admit.Table, accept: Accept, arm: Option<KnownArm>, now: Time, mint: Id)
    requires LinkSide(table, accept, arm) && accept.Deciding?
    ensures var (table', r) := Admit.Prepare(table, accept.request, now, accept.arms, mint);
            LinkSide(table', if r.Ok? then Replying(r.value) else Idle, arm)
  {
    var coverage := arm.value.coverageUntil;
    var l := AdmitRuns.Loop(table, None);
    var (table', r) := Admit.Prepare(table, accept.request, now, accept.arms, mint);
    var t := Admit.DropExpired(table, now);
    hide AdmitRuns.Good;
    AdmitRuns.StepKeepsGood(l, AdmitRuns.Begin(accept.request, now, accept.arms, mint), coverage);
    assert table' == t;
    if r.Ok? && r.value.pending.CommitAccept? {
      AdmitRuns.DecisionMeans(t, accept.request, now, accept.arms, mint, coverage);
    }
    hide Admit.Decide, AdmitRuns.GoodLink, AdmitRuns.GoodRecord;
  }

  lemma PrepareKeeps(s: Sys, base: Id, g0: nat, now: Time, mint: Id)
    requires Inv(s, base, g0)
    ensures Inv(DoPrepare(s, now, mint), base, g0)
  {
    hide Inv, AckSide, Agreement, ClaimSide, LogSide, DeliverySide, HoldSide, MainSide, LinkSide;
    if s.accept.Deciding? {
      Parts(s, base, g0);
      PrepareKeepsLinks(s.table, s.accept, s.tally.store.arm, now, mint);
      hide Admit.Prepare;
      AcceptMoves(s, DoPrepare(s, now, mint), base, g0);
    }
  }

  lemma CommitKeepsLinks(table: Admit.Table, accept: Accept, arm: Option<KnownArm>, writeOk: bool)
    requires LinkSide(table, accept, arm) && accept.Replying?
    ensures var (table', served) := Admit.CommitPrepared(table, accept.prepared, writeOk);
            LinkSide(table', if served.Some? then Sending(Attached(served.value)) else Idle, arm)
  {
    var l := AdmitRuns.Loop(table, Some(accept.prepared));
    hide AdmitRuns.Good;
    AdmitRuns.StepKeepsGood(l, AdmitRuns.Finish(writeOk), arm.value.coverageUntil);
  }

  lemma CommitKeeps(s: Sys, base: Id, g0: nat, writeOk: bool)
    requires Inv(s, base, g0)
    ensures Inv(DoCommit(s, writeOk), base, g0)
  {
    hide Inv, AckSide, Agreement, ClaimSide, LogSide, DeliverySide, HoldSide, MainSide, LinkSide;
    if s.accept.Replying? {
      Parts(s, base, g0);
      CommitKeepsLinks(s.table, s.accept, s.tally.store.arm, writeOk);
      hide Admit.CommitPrepared;
      var t := DoCommit(s, writeOk);
      assert t.accept.Sending? ==> RearmsIn([t.accept.event]) == [];
      AcceptMoves(s, t, base, g0);
    }
  }

  // ----- handing events on -----

  lemma SendKeeps(s: Sys, base: Id, g0: nat)
    requires Inv(s, base, g0)
    ensures Inv(DoSend(s), base, g0)
  {
    hide Inv, AckSide, Agreement, ClaimSide, LogSide, DeliverySide, HoldSide, MainSide;
    if s.accept.Sending? {
      var t := DoSend(s);
      Parts(s, base, g0);
      assert LinkSide(t.table, t.accept, s.tally.store.arm);
      assert t == s.(channel := s.channel + [s.accept.event], accept := Idle);
      RearmsAppend(s.channel, s.accept.event);
      assert PendingRearms(t.channel, t.accept) == PendingRearms(s.channel, s.accept);
      hide LinkSide, PendingRearms, RearmsIn;
      Whole(t, base, g0);
    }
  }

  // ----- acknowledgements -----

  /** An ack announces nothing, or closes the one open signal and announces that. */
  ghost predicate AckMoves(tally: AckRuns.Tally, u: AckRuns.Tally) {
    && tally.store.arm.Some? && u.store.arm.Some? && AckOnly(tally.store, u.store)
    && if u.rearms == tally.rearms then u.store.arm == tally.store.arm
       else
         && |u.rearms| == |tally.rearms| + 1 && u.rearms[..|tally.rearms|] == tally.rearms
         && u.store.arm.value.generation == tally.store.arm.value.generation + 1
         && u.rearms[|tally.rearms|].signalId in tally.store.signals
         && tally.store.signals[u.rearms[|tally.rearms|].signalId].generation == tally.store.arm.value.generation
  }

  lemma AckTally(tally: AckRuns.Tally, arm: KnownArm, g0: nat, request: HandledCursor, now: Time)
    requires AckSide(tally, arm, g0)
    ensures var u := AckRuns.Count(tally, AckRuns.Handle(request, now));
            AckSide(u, arm, g0) && AckRuns.Evolves(tally.store, u.store) && AckMoves(tally, u)
  {
    var op := AckRuns.Handle(request, now);
    var u := AckRuns.Count(tally, op);
    CountShape(tally, request, now);
    hide AckRuns.Count, AckOnly, AckRuns.Shape, Ack.ApplyHandled, AckRuns.Evolves, AckRuns.Tallied, AckMoves;
    TalliedShape(tally, g0);
    AckRuns.DaemonStep(tally, g0, op);
    HandleEffect(tally.store, g0, request, now);
    hide AllAnnounced;
    CountedMoves(tally, u, g0);
    SameSeat(tally, u, arm, g0);
  }

  lemma SameSeat(tally: AckRuns.Tally, u: AckRuns.Tally, arm: KnownArm, g0: nat)
    requires AckSide(tally, arm, g0) && AckRuns.Tallied(u, g0) && AckRuns.Evolves(tally.store, u.store)
    ensures AckSide(u, arm, g0)
  {
    hide AckRuns.Tallied;
    TalliedShape(tally, g0);
    TalliedShape(u, g0);
  }

  lemma CountedMoves(tally: AckRuns.Tally, u: AckRuns.Tally, g0: nat)
    requires AckRuns.Tallied(tally, g0) && AckRuns.Tallied(u, g0)
    requires AckRuns.Evolves(tally.store, u.store) && AckOnly(tally.store, u.store)
    requires |tally.rearms| <= |u.rearms| <= |tally.rearms| + 1 && u.rearms[..|tally.rearms|] == tally.rearms
    ensures AckMoves(tally, u)
  {
    hide AckRuns.Tallied, AckOnly, AckRuns.Shape;
    TalliedShape(tally, g0);
    TalliedShape(u, g0);
    if |u.rearms| > |tally.rearms| {
      var n := |tally.rearms|;
      assert AckRuns.Announces(u.store, u.rearms[n], g0 + n);
      SameGeneration(tally.store, u.store, u.rearms[n].signalId);
    } else {
      assert u.rearms[..|tally.rearms|] == u.rearms;
    }
  }

  lemma CountShape(tally: AckRuns.Tally, request: HandledCursor, now: Time)
    ensures var u := AckRuns.Count(tally, AckRuns.Handle(request, now));
            && u.store == Ack.ApplyHandled(tally.store, request, now).0
            && |tally.rearms| <= |u.rearms| <= |tally.rearms| + 1 && u.rearms[..|tally.rearms|] == tally.rearms
  {
    hide Ack.ApplyHandled;
  }

  lemma SameGeneration(s: Ack.Store, t: Ack.Store, id: Id)
    requires AckOnly(s, t) && id in t.signals
    ensures id in s.signals && t.signals[id].generation == s.signals[id].generation
  {
  }

  function Announced(tally: AckRuns.Tally, u: AckRuns.Tally): seq<Ack.AckRearm> {
    if |u.rearms| > |tally.rearms| then [u.rearms[|u.rearms| - 1]] else []
  }

  /** No claim, or one already acknowledged, leaves no signal an ack could close. */
  lemma AckClaim(claim: Option<Pipe.SignalClaim>, arm: KnownArm, tally: AckRuns.Tally, u: AckRuns.Tally,
                 pending: seq<Ack.AckRearm>, g0: nat)
    requires AckSide(tally, arm, g0) && AckMoves(tally, u) && ClaimSide(claim, arm, tally.store)
    requires Agreement(arm.generation, tally, pending, claim.Some?, g0)
    ensures ClaimSide(claim, arm, u.store)
    ensures Agreement(arm.generation, u, pending + Announced(tally, u), claim.Some?, g0)
  {
    hide AckRuns.AcceptedIds, AckRuns.AcceptedAreClosed, AckRuns.Announces, AckRuns.GoodEntry, AckRuns.GoodBatch;
    assert forall id | id in tally.store.signals :: AckRuns.FitsBatch(tally.store, g0, tally.store.signals[id]);
  }

  lemma AckHold(s: Ack.Store, t: Ack.Store, lossy: set<Id>, completed: set<Id>)
    requires HoldSide(s, lossy, completed) && AckOnly(s, t)
    ensures HoldSide(t, lossy, completed)
  {
  }

  lemma AckLinks(table: Admit.Table, accept: Accept, arm: Option<KnownArm>, next: Accept, next_arm: Option<KnownArm>)
    requires LinkSide(table, accept, arm) && accept.Idle? && (next.Idle? || next.Sending?)
    requires next_arm.Some? && next_arm.value == arm.value.(generation := next_arm.value.generation)
    requires arm.value.generation <= next_arm.value.generation
    ensures LinkSide(table, next, next_arm)
  {
    hide AdmitRuns.Good;
  }

  lemma AckKeeps(s: Sys, base: Id, g0: nat, request: HandledCursor, now: Time)
    requires Inv(s, base, g0)
    ensures Inv(DoAck(s, request, now), base, g0)
  {
    hide Inv;
    if s.accept.Idle? {
      var u := AckRuns.Count(s.tally, AckRuns.Handle(request, now));
      hide AckRuns.Count, RearmsIn;
      var t := DoAck(s, request, now);
      if t.accept.Sending? {
        RearmsOne(t.accept.event);
      }
      assert t == s.(tally := u, accept := t.accept);
      assert PendingRearms(t.channel, t.accept) == PendingRearms(s.channel, s.accept) + Announced(s.tally, u);
      assert t.accept.Idle? || t.accept.Sending?;
      hide *;
      Parts(s, base, g0);
      AckTally(s.tally, s.arm, g0, request, now);
      AckClaim(s.pipe.claim, s.arm, s.tally, u, PendingRearms(s.channel, s.accept), g0);
      AckSides(s, t, base, g0);
      Whole(t, base, g0);
    }
  }

  lemma RearmsOne(e: Event)
    ensures RearmsIn([e]) == if e.CoverageRearm? then [e.rearm] else []
  {
    assert [e][1..] == [];
  }

  lemma AckSides(s: Sys, t: Sys, base: Id, g0: nat)
    requires Inv(s, base, g0) && t == s.(tally := t.tally, accept := t.accept)
    requires s.accept.Idle? && (t.accept.Idle? || t.accept.Sending?)
    requires AckMoves(s.tally, t.tally) && AckRuns.Evolves(s.tally.store, t.tally.store)
    ensures LogSide(Ids(t.log), base, t.after, t.arm.generation, g0, t.tally, t.pipe.claim)
    ensures HoldSide(t.tally.store, t.lossy, t.completed)
    ensures LinkSide(t.table, t.accept, t.tally.store.arm)
  {
    hide Inv, LogSide, HoldSide, LinkSide, ClaimSide, AckOnly;
    Parts(s, base, g0);
    StoreKeepsLog(Ids(s.log), base, s.after, s.arm.generation, g0, s.tally, t.tally, s.pipe.claim);
    AckHold(s.tally.store, t.tally.store, s.lossy, s.completed);
    AckLinks(s.table, s.accept, s.tally.store.arm, t.accept, t.tally.store.arm);
  }
}
