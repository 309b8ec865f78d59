/** The actions that move provider coverage keep the invariant: a child that exited, a page
    ingested, an acknowledgement applied, and the provider's log growing. */
module DaemonCoverage {
  import opened Prelude
  import opened Messages
  import opened WaitOn
  import opened Daemon
  import opened DaemonInv
  import opened DaemonSteps
  import Ack
  import AckRuns
  import Admit
  import Pipe

  // ----- one ingest -----

  /** The claim an accepted page becomes. */
  function NewClaim(arm: KnownArm, id: Id, page: seq<DrainedEvent>, now: Time): Pipe.SignalClaim {
    var events := Pipe.ProviderEvents(page, now);
    Pipe.SignalClaim(arm.armId, arm.generation, id, Refs(events), events)
  }

  /** A page becomes a claim exactly when its interval matched, the drain answered, and it
      is neither empty nor refused at the gate. */
  predicate Claims(wait: WaitResult, answer: Result<seq<DrainedEvent>, DrainError>) {
    wait == Matched && answer.Ok? && answer.value != [] && Pipe.AllDisplayable(answer.value)
  }

  /** What an ingest does on a pipe with no claim, given a fresh signal id. */
  lemma IngestEffect(after: Option<Id>, wait: WaitResult, answer: Result<seq<DrainedEvent>, DrainError>, arm: KnownArm,
                     link: Option<Admit.AdmittedLink>, now: Time, acks: Ack.Store, g0: nat, id: Id, mint: Id)
    requires AckRuns.Shape(acks, g0) && NothingOpen(acks) && id !in acks.signals && after.Some?
    ensures var d := Pipe.IngestMatch(after, wait, answer, arm, link, now, Pipe.EMPTY_PIPE, acks, None, id, mint);
            if Claims(wait, answer) then
              && d.outcome.coverage == Pipe.Pause && !d.pipe.attempted
              && d.acks == Pipe.Register(acks, id, Pipe.HasLoss(answer.value)).0
              && d.pipe.claim == Some(NewClaim(arm, id, answer.value, now))
              && LedgerOf(d.pipe.claim, d.pipe.ledger)
              && (d.pipe.ledger.Some? ==> ValidLink(d.pipe.ledger.value.message))
            else
              && d.pipe == Pipe.EMPTY_PIPE && d.acks == acks
              && d.outcome.coverage == (if wait == Timeout then Pipe.Rearm(after.value) else Pipe.Halt(2))
  {
    if Claims(wait, answer) {
      RegisterEffect(acks, g0, id, Pipe.HasLoss(answer.value));
      var live := NewClaim(arm, id, answer.value, now);
      hide AckRuns.Shape, Pipe.Register, Pipe.HasLoss, Pipe.AllDisplayable, NothingOpen, ValidLink;
      if link.Some? {
        NextMessageMeans(None, live, link.value, now, mint);
      }
      hide Pipe.NextMessage;
    }
  }

  lemma RegisterKeepsTally(tally: AckRuns.Tally, arm: KnownArm, g0: nat, id: Id, lossy: bool)
    requires AckSide(tally, arm, g0) && tally.store.arm.Some? && NothingOpen(tally.store) && id !in tally.store.signals
    ensures var u := Pipe.Register(tally.store, id, lossy).0;
            && AckSide(WithStore(tally, u), arm, g0) && AckRuns.Evolves(tally.store, u)
            && u == tally.store.(signals := tally.store.signals[
                      id := Ack.FreshBatch(tally.store.arm.value, [], []).(requireReturn := lossy)])
  {
    var s := tally.store;
    var u := Pipe.Register(s, id, lossy).0;
    hide AckRuns.Tallied, AckRuns.Shape;
    TalliedShape(tally, g0);
    RegisterEffect(s, g0, id, lossy);
    RegisterEffect(s, g0, id, false);
    var v := AckRuns.Do(s, AckRuns.Claim(id));
    assert u == if lossy then AckRuns.Do(v, AckRuns.Require(id)) else v;
    assert WithStore(tally, u) == if lossy then WithStore(WithStore(tally, v), u) else WithStore(tally, v);
    hide Pipe.Register, AckRuns.Do, AckRuns.Evolves, AckRuns.BatchEvolves, AckSide;
    NoteKeepsAckSide(tally, arm, g0, AckRuns.Claim(id));
    if lossy {
      NoteKeepsAckSide(WithStore(tally, v), arm, g0, AckRuns.Require(id));
    }
    AckRuns.OthersEvolve(s, u, id, g0);
  }

  lemma NewSignalSides(claim: Pipe.SignalClaim, arm: KnownArm, store: Ack.Store, id: Id, lossy: bool,
                       marked: set<Id>, completed: set<Id>)
    requires store.arm.Some? && store.arm.value == arm && id !in store.signals
    requires HoldSide(store, marked, completed)
    requires claim.armId == arm.armId && claim.generation == arm.generation && claim.signalId == id
    requires claim.events != [] && claim.eventRefs == Refs(claim.events)
    ensures var u := store.(signals := store.signals[id := Ack.FreshBatch(arm, [], []).(requireReturn := lossy)]);
            && ClaimSide(Some(claim), arm, u)
            && HoldSide(u, if lossy then marked + {id} else marked, completed)
  {
  }

  lemma FirstBatch(pipe: Pipe.Value, next: Pipe.Value, frames: seq<Frame>, m: nat)
    requires DeliverySide(pipe, frames, m) && pipe.claim.None?
    requires next.claim.Some? && LedgerOf(next.claim, next.ledger)
    ensures DeliverySide(next, frames, m)
  {
  }

  lemma SameArm(s: Sys, base: Id, g0: nat)
    requires Inv(s, base, g0) && s.pipe.claim.None?
    ensures s.tally.store.arm == Some(s.arm) && NothingOpen(s.tally.store) && PendingRearms(s.channel, s.accept) == []
    ensures s.pipe == Pipe.EMPTY_PIPE && s.after.Some?
    ensures AckRuns.Shape(s.tally.store, g0)
  {
    hide Acked, Covered, AckRuns.Shape, AckRuns.Announces;
  }

  /** A non-empty page right after the cursor becomes the live claim. */
  lemma ClaimKeeps(s: Sys, t: Sys, base: Id, g0: nat, page: seq<DrainedEvent>, id: Id, now: Time)
    requires Inv(s, base, g0) && s.pipe.claim.None? && s.child.None? && id !in s.tally.store.signals
    requires page != [] && s.after.Some? && Segment(Ids(s.log), Covered(Ids(s.log), s.after.value), Ids(page))
    requires t == s.(pipe := t.pipe, tally := t.tally, lossy := t.lossy, main := t.main) && Settled(t.main)
    requires t.pipe.claim == Some(NewClaim(s.arm, id, page, now)) && LedgerOf(t.pipe.claim, t.pipe.ledger)
    requires t.tally == WithStore(s.tally, Pipe.Register(s.tally.store, id, Pipe.HasLoss(page)).0)
    requires t.lossy == if Pipe.HasLoss(page) then s.lossy + {id} else s.lossy
    ensures Inv(t, base, g0)
  {
    var claim := NewClaim(s.arm, id, page, now);
    var lossy := Pipe.HasLoss(page);
    hide Inv, AckSide, Agreement, ClaimSide, LogSide, DeliverySide, HoldSide, LinkSide;
    assert claim.eventRefs == Ids(page) && claim.events != [];
    assert forall main, after, ids :: Settled(main) ==> MainSide(main, None, after, true, ids);
    hide NewClaim, Pipe.HasLoss, Pipe.Register, LedgerOf, Settled, MainSide, Segment;
    SameArm(s, base, g0);
    Parts(s, base, g0);
    hide NothingOpen, AckRuns.Shape;
    RegisterKeepsTally(s.tally, s.arm, g0, id, lossy);
    NewSignalSides(claim, s.arm, s.tally.store, id, lossy, s.lossy, s.completed);
    FirstBatch(s.pipe, t.pipe, s.frames, s.arm.generation);
    ClaimedLog(s, base, g0, t.tally, claim);
    Whole(t, base, g0);
  }

  lemma ClaimedLog(s: Sys, base: Id, g0: nat, tally: AckRuns.Tally, claim: Pipe.SignalClaim)
    requires Inv(s, base, g0) && s.pipe.claim.None? && s.after.Some?
    requires tally.rearms == s.tally.rearms && AckRuns.Evolves(s.tally.store, tally.store)
    requires tally.store.arm == s.tally.store.arm
    requires Segment(Ids(s.log), Covered(Ids(s.log), s.after.value), claim.eventRefs)
    ensures LogSide(Ids(s.log), base, s.after, s.arm.generation, g0, tally, Some(claim))
    ensures Agreement(s.arm.generation, tally, PendingRearms(s.channel, s.accept), true, g0)
  {
    hide AckRuns.Evolves, AckRuns.Tallied;
    StoreKeepsLog(Ids(s.log), base, s.after, s.arm.generation, g0, s.tally, tally, s.pipe.claim);
  }

  // ----- the actions -----

  /** A drain answers with the part of the log right after the cursor. */
  lemma AnswerIsSegment(log: seq<DrainedEvent>, after: Option<Id>, drain: Drain)
    requires after.Some? && Answer(log, after, drain).Ok?
    ensures Segment(Ids(log), Covered(Ids(log), after.value), Ids(Answer(log, after, drain).value))
  {
    var k := Covered(Ids(log), after.value);
    var page := Answer(log, after, drain).value;
    forall i | 0 <= i < |page| ensures Ids(page)[i] == Ids(log)[k..k + |page|][i] {
    }
  }

  /** Ingesting with no claim: the page becomes the claim, or nothing changes. */
  lemma IngestedKeeps(s: Sys, base: Id, g0: nat, wait: WaitResult, answer: Result<seq<DrainedEvent>, DrainError>,
                      link: Option<Admit.AdmittedLink>, now: Time, id: Id, mint: Id, next: Main)
    requires Inv(s, base, g0) && s.pipe.claim.None? && s.child.None? && id !in s.tally.store.signals
    requires Settled(next)
    requires s.after.Some?
    requires answer.Ok? ==> Segment(Ids(s.log), Covered(Ids(s.log), s.after.value), Ids(answer.value))
    ensures var (t, coverage) := Ingested(s, wait, answer, link, now, id, mint);
            if Claims(wait, answer) then coverage == Pipe.Pause && Inv(t.(main := next), base, g0)
            else t == s && coverage == (if wait == Timeout then Pipe.Rearm(s.after.value) else Pipe.Halt(2))
  {
    hide Inv, Segment, NothingOpen, AckRuns.Shape, Pipe.HasLoss, Settled, Covered;
    SameArm(s, base, g0);
    IngestEffect(s.after, wait, answer, s.arm, link, now, s.tally.store, g0, id, mint);
    hide Pipe.IngestMatch, LedgerOf, NewClaim;
    var t := Ingested(s, wait, answer, link, now, id, mint).0;
    if Claims(wait, answer) {
      ClaimKeeps(s, t.(main := next), base, g0, answer.value, id, now);
    } else {
      assert t == s;
    }
  }

  lemma IngestKeeps(s: Sys, base: Id, g0: nat, now: Time, drain: Drain, id: Id, mint: Id, spawnOk: bool)
    requires Inv(s, base, g0)
    ensures Inv(DoIngest(s, now, drain, id, mint, spawnOk), base, g0)
  {
    hide Inv, AckSide, Agreement, ClaimSide, LogSide, DeliverySide, HoldSide, LinkSide, Segment;
    Parts(s, base, g0);
    if s.main.Ingesting? && id !in s.tally.store.signals {
      var answer := Answer(s.log, s.after, drain);
      var wait := FromCode(s.main.code);
      if answer.Ok? {
        AnswerIsSegment(s.log, s.after, drain);
      }
      hide Answer;
      IngestedKeeps(s, base, g0, wait, answer, s.main.link, now, id, mint, Flushing);
      hide Ingested;
      if !Claims(wait, answer) {
        HaltKeeps(s, base, g0, 2);
        if wait == Timeout {
          var t := s.(child := Some(s.after), main := Head);
          assert MainSide(t.main, t.child, t.after, false, Ids(s.log));
          assert s.(after := s.after) == s;
          hide Claims, MainSide;
          Whole(t, base, g0);
        }
      }
    }
  }

  lemma DrainKeeps(s: Sys, base: Id, g0: nat, killOk: bool, drain: Drain, spawnOk: bool)
    requires Inv(s, base, g0)
    ensures Inv(DoDrain(s, killOk, drain, spawnOk), base, g0)
  {
    hide Inv, AckSide, Agreement, ClaimSide, LogSide, DeliverySide, HoldSide, LinkSide, Segment;
    Parts(s, base, g0);
    if s.main.Draining? {
      HaltKeeps(s, base, g0, 2);
      var answer := Answer(s.log, s.after, drain);
      if answer.Ok? {
        AnswerIsSegment(s.log, s.after, drain);
      }
      hide Answer;
      var t := DoDrain(s, killOk, drain, spawnOk);
      if killOk && answer.Ok? && (answer.value != [] || spawnOk) {
        assert t == s.(child := t.child, main := t.main);
        assert MainSide(t.main, t.child, t.after, false, Ids(s.log));
        hide MainSide;
        Whole(t, base, g0);
      }
    }
  }

  lemma ClaimSuffixKeeps(s: Sys, base: Id, g0: nat, now: Time, id: Id)
    requires Inv(s, base, g0)
    ensures Inv(DoClaim(s, now, id), base, g0)
  {
    hide Inv, AckSide, Agreement, ClaimSide, LogSide, DeliverySide, HoldSide, LinkSide, Segment;
    Parts(s, base, g0);
    if s.main.Claiming? && id !in s.tally.store.signals {
      IngestedKeeps(s, base, g0, Matched, Ok(s.main.page), None, now, id, "", Head);
      hide Ingested;
      HaltKeeps(s, base, g0, 2);
    }
  }

  // ----- an acknowledgement reaches the main thread -----

  lemma UpToSegment(ids: seq<Id>, at: nat, refs: seq<Id>, cursor: Id)
    requires Distinct(ids) && Segment(ids, at, refs) && cursor in refs
    ensures cursor in ids
    ensures at <= Covered(ids, cursor) && UpTo(refs, cursor) == ids[at..Covered(ids, cursor)]
  {
    var p := Position(refs, cursor).value;
    assert ids[at + p] == refs[p] == cursor;
    CoveredAt(ids, at + p);
  }

  /** The one rearm on its way announces the last generation closed, the claim's own. */
  lemma PendingIsOwn(tally: AckRuns.Tally, arm: KnownArm, claim: Option<Pipe.SignalClaim>, r: Ack.AckRearm, g0: nat)
    requires AckSide(tally, arm, g0) && ClaimSide(claim, arm, tally.store)
    requires Agreement(arm.generation, tally, [r], claim.Some?, g0)
    ensures claim.Some? && r.generation == arm.generation + 1 == tally.store.arm.value.generation
    ensures arm.generation - g0 < |tally.rearms| && tally.rearms[arm.generation - g0] == r
    ensures r.signalId in tally.store.signals && r.signalId == claim.value.signalId
    ensures tally.store.signals[r.signalId].delivered == claim.value.eventRefs
    ensures r.after in claim.value.eventRefs && NothingOpen(tally.store)
  {
    hide AckRuns.AcceptedIds, AckRuns.AcceptedAreClosed;
    var store := tally.store;
    TalliedShape(tally, g0);
    hide AckRuns.Tallied;
    assert AckRuns.Announces(store, r, arm.generation);
    assert AckRuns.FitsBatch(store, g0, store.signals[r.signalId]);
  }

  /** The pending rearm closed the main thread's own claim, at a cursor of its page. */
  lemma PendingClosesClaim(s: Sys, base: Id, g0: nat)
    requires Inv(s, base, g0) && PendingRearms(s.channel, s.accept) != []
    ensures s.pipe.claim.Some? && s.tally.store.arm.Some? && g0 <= s.arm.generation
    ensures var r := PendingRearms(s.channel, s.accept)[0];
            var store := s.tally.store;
            && PendingRearms(s.channel, s.accept) == [r]
            && s.arm.generation + 1 == store.arm.value.generation == r.generation
            && s.arm.generation - g0 < |s.tally.rearms| && s.tally.rearms[s.arm.generation - g0] == r
            && r.signalId in store.signals && store.signals[r.signalId].delivered == s.pipe.claim.value.eventRefs
            && r.after in s.pipe.claim.value.eventRefs && r.signalId == s.pipe.claim.value.signalId
            && NothingOpen(store)
  {
    hide Inv, AckSide, Agreement, ClaimSide, LogSide, DeliverySide, HoldSide, LinkSide, MainSide, PendingRearms,
         NothingOpen;
    Parts(s, base, g0);
    OnePending(s.arm.generation, s.tally, PendingRearms(s.channel, s.accept), s.pipe.claim.Some?, g0);
    PendingIsOwn(s.tally, s.arm, s.pipe.claim, PendingRearms(s.channel, s.accept)[0], g0);
  }

  lemma OnePending(m: nat, tally: AckRuns.Tally, pending: seq<Ack.AckRearm>, claimed: bool, g0: nat)
    requires Agreement(m, tally, pending, claimed, g0) && pending != []
    ensures pending == [pending[0]] && g0 <= m && tally.store.arm.Some?
  {
  }

  lemma AckedOneMore(store: Ack.Store, rearms: seq<Ack.AckRearm>, k: nat)
    requires k < |rearms| && rearms[k].signalId in store.signals
    ensures Acked(store, rearms[..k + 1])
         == Acked(store, rearms[..k]) + UpTo(store.signals[rearms[k].signalId].delivered, rearms[k].after)
  {
    assert rearms[..k + 1][..k] == rearms[..k];
    hide UpTo;
  }

  /** The cursor moves to the acknowledged event, over exactly the acknowledged prefix. */
  lemma LogAdvances(ids: seq<Id>, base: Id, after: Option<Id>, m: nat, g0: nat, tally: AckRuns.Tally,
                    claim: Pipe.SignalClaim, r: Ack.AckRearm)
    requires LogSide(ids, base, after, m, g0, tally, Some(claim))
    requires m - g0 < |tally.rearms| && tally.rearms[m - g0] == r
    requires r.signalId in tally.store.signals && tally.store.signals[r.signalId].delivered == claim.eventRefs
    requires r.after in claim.eventRefs
    ensures LogSide(ids, base, Some(r.after), m + 1, g0, tally, Pipe.EMPTY_PIPE.claim)
  {
    hide Acked, UpTo, Covered, Segment, Distinct;
    AckedOneMore(tally.store, tally.rearms, m - g0);
    UpToSegment(ids, Covered(ids, after.value), claim.eventRefs, r.after);
    assert ids[..Covered(ids, r.after)]
        == ids[..Covered(ids, after.value)] + ids[Covered(ids, after.value)..Covered(ids, r.after)];
    assert m + 1 - g0 == m - g0 + 1;
  }

  lemma NextGeneration(pipe: Pipe.Value, frames: seq<Frame>, m: nat)
    requires DeliverySide(pipe, frames, m)
    ensures DeliverySide(Pipe.EMPTY_PIPE, frames, m + 1)
  {
  }

  /** A rearm is never taken for one already applied while a claim is live. */
  lemma RecvRearm(s: Sys)
    requires s.main.Head? && s.channel != [] && s.channel[0].CoverageRearm? && s.pipe.claim.Some?
    ensures var r := s.channel[0].rearm;
            && DoRecv(s) == s.(channel := s.channel[1..], after := Some(r.after),
                               arm := s.arm.(generation := r.generation), pipe := Pipe.EMPTY_PIPE,
                               main := Restarting(r.generation))
  {
  }

  lemma RecvRearmKeeps(s: Sys, base: Id, g0: nat)
    requires Inv(s, base, g0) && s.main.Head? && s.channel != [] && s.channel[0].CoverageRearm?
    ensures Inv(DoRecv(s), base, g0)
  {
    hide *;
    HeadPending(s);
    PendingClosesClaim(s, base, g0);
    RecvRearm(s);
    Rearmed(s, DoRecv(s), base, g0, s.channel[0].rearm);
  }

  lemma Rearmed(s: Sys, t: Sys, base: Id, g0: nat, r: Ack.AckRearm)
    requires Inv(s, base, g0) && s.main.Head? && PendingRearms(s.channel, s.accept) == [r]
    requires PendingRearms(t.channel, s.accept) == []
    requires t == s.(channel := t.channel, after := Some(r.after), arm := s.arm.(generation := r.generation),
                     pipe := Pipe.EMPTY_PIPE, main := Restarting(r.generation))
    ensures Inv(t, base, g0)
  {
    hide *;
    assert [r][0] == r;
    PendingClosesClaim(s, base, g0);
    Parts(s, base, g0);
    RearmedSides(s.tally, s.arm, g0, s.pipe.claim, PendingRearms(t.channel, s.accept));
    LogAdvances(Ids(s.log), base, s.after, s.arm.generation, g0, s.tally, s.pipe.claim.value, r);
    NextGeneration(s.pipe, s.frames, s.arm.generation);
    RestartingAlone(s.main, s.child, s.after, t.after, r.generation, Ids(s.log));
    Whole(t, base, g0);
  }

  lemma HeadPending(s: Sys)
    requires s.channel != [] && s.channel[0].CoverageRearm?
    ensures PendingRearms(s.channel, s.accept) == [s.channel[0].rearm] + PendingRearms(s.channel[1..], s.accept)
  {
  }

  lemma RestartingAlone(main: Main, child: Option<Option<Id>>, after: Option<Id>, next: Option<Id>, g: nat,
                        ids: seq<Id>)
    requires main.Head? && MainSide(main, child, after, true, ids)
    ensures MainSide(Restarting(g), child, next, Pipe.EMPTY_PIPE.claim.Some?, ids)
  {
  }

  lemma RearmedSides(tally: AckRuns.Tally, arm: KnownArm, g0: nat, claim: Option<Pipe.SignalClaim>,
                     pending: seq<Ack.AckRearm>)
    requires AckSide(tally, arm, g0) && ClaimSide(claim, arm, tally.store) && NothingOpen(tally.store)
    requires tally.store.arm.Some? && g0 <= arm.generation && pending == []
    requires tally.store.arm.value.generation == arm.generation + 1
    ensures AckSide(tally, arm.(generation := arm.generation + 1), g0)
    ensures ClaimSide(Pipe.EMPTY_PIPE.claim, arm.(generation := arm.generation + 1), tally.store)
    ensures Agreement(arm.generation + 1, tally, pending, Pipe.EMPTY_PIPE.claim.Some?, g0)
  {
    hide AckRuns.Tallied;
  }

  lemma RecvKeeps(s: Sys, base: Id, g0: nat)
    requires Inv(s, base, g0)
    ensures Inv(DoRecv(s), base, g0)
  {
    hide Inv, AckSide, Agreement, ClaimSide, DeliverySide, HoldSide, LinkSide, LogSide;
    if s.main.Head? && s.channel != [] {
      if s.channel[0].CoverageRearm? {
        RecvRearmKeeps(s, base, g0);
      } else {
        Parts(s, base, g0);
        var t := DoRecv(s);
        assert t == s.(channel := s.channel[1..], main := t.main);
        assert PendingRearms(t.channel, t.accept) == PendingRearms(s.channel, s.accept);
        assert Settled(s.main) && Settled(t.main);
        hide PendingRearms, DoRecv, Settled;
        SettledMoves(s.main, t.main, s.child, s.after, s.pipe.claim.Some?, Ids(s.log));
        Whole(t, base, g0);
      }
    }
  }

  // ----- the log grows -----

  lemma LogGrows(ids: seq<Id>, id: Id, base: Id, after: Option<Id>, m: nat, g0: nat, tally: AckRuns.Tally,
                 claim: Option<Pipe.SignalClaim>)
    requires LogSide(ids, base, after, m, g0, tally, claim) && id !in ids && id != base
    ensures LogSide(ids + [id], base, after, m, g0, tally, claim)
    ensures after.Some? && Covered(ids + [id], after.value) == Covered(ids, after.value)
  {
    hide Acked;
    var more := ids + [id];
    assert Distinct(more);
    if after.value in ids {
      var p := Position(ids, after.value).value;
      assert more[p] == after.value;
      CoveredAt(more, p);
    }
    assert more[..Covered(ids, after.value)] == ids[..Covered(ids, after.value)];
    hide Covered, Distinct;
    if claim.Some? {
      SegmentGrows(ids, id, Covered(ids, after.value), claim.value.eventRefs);
    }
  }

  lemma SegmentGrows(ids: seq<Id>, id: Id, at: nat, refs: seq<Id>)
    requires Segment(ids, at, refs)
    ensures Segment(ids + [id], at, refs)
  {
    assert (ids + [id])[at..at + |refs|] == ids[at..at + |refs|];
  }

  lemma AppendKeeps(s: Sys, base: Id, g0: nat, event: DrainedEvent)
    requires Inv(s, base, g0)
    ensures Inv(DoAppend(s, event, base), base, g0)
  {
    hide Inv, AckSide, Agreement, ClaimSide, DeliverySide, HoldSide, LinkSide, LogSide, Covered, Segment;
    var t := DoAppend(s, event, base);
    if t != s {
      Parts(s, base, g0);
      var ids := Ids(s.log);
      assert Ids(t.log) == ids + [event.id];
      assert t == s.(log := t.log);
      hide DoAppend;
      LogGrows(ids, event.id, base, s.after, s.arm.generation, g0, s.tally, s.pipe.claim);
      if s.main.Claiming? {
        SegmentGrows(ids, event.id, Covered(ids, s.after.value), Ids(s.main.page));
      }
      assert MainSide(t.main, t.child, t.after, t.pipe.claim.Some?, Ids(t.log));
      hide MainSide;
      Whole(t, base, g0);
    }
  }
}
