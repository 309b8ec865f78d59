/** What one iteration of the main loop does with each thing the outside brings to it. */
module MainLoopLaws {
  import opened Prelude
  import opened Messages
  import opened WaitOn
  import opened Daemon
  import opened DaemonInv
  import opened DaemonSteps
  import opened DaemonCoverage
  import opened DaemonDelivery
  import opened MainLoops
  import Ack
  import AckRuns
  import Admit
  import Codec
  import Deliver
  import Pipe

  /** The served waiter's session, if it still is the live link's and the lease lasts. */
  predicate Alive(s: Sys, turn: Turn) {
    && s.served.Some?
    && (s.served.value.session.Some? ==>
          && s.table.current.Some? && Admit.SessionOf(s.table.current.value) == s.served.value.session.value
          && !turn.setupFailed && turn.now < s.table.current.value.leaseUntil)
  }

  /** The table without the served session. */
  function Released(s: Sys): Admit.Table {
    if s.served.Some? && s.served.value.session.Some? && s.table.current.Some?
       && Admit.SessionOf(s.table.current.value) == s.served.value.session.value
    then s.table.(current := None) else s.table
  }

  /** The line is the outcome of what is pending. */
  predicate IsOutcome(s: Sys, result: WaiterLink) {
    && Correlated(s.pipe, result) && result.outcome != LinkLost
    && s.pipe.ledger.value.attempt in {Deliver.Awaiting, Deliver.Terminal(result.outcome)}
  }

  /** The pending delivery after a line that is not its outcome. */
  function AfterOther(s: Sys, result: WaiterLink): Deliver.Ledger {
    if Correlated(s.pipe, result) && result.outcome == LinkLost && s.pipe.ledger.value.attempt.Awaiting?
    then Some(s.pipe.ledger.value.(attempt := Deliver.Lost)) else s.pipe.ledger
  }

  /** The state after the outcome was recorded and the waiter let go. */
  function AfterOutcome(s: Sys, result: WaiterLink): Sys
    requires IsOutcome(s, result)
  {
    var returned := result.outcome == ReturnCompleted;
    s.(pipe := s.pipe.(ledger := Some(s.pipe.ledger.value.(attempt := Deliver.Terminal(result.outcome)))),
       tally := if returned then WithStore(s.tally, Ack.NoteReturn(s.tally.store, result.signalId).0) else s.tally,
       completed := if returned then s.completed + {result.signalId} else s.completed,
       table := Released(s), served := None)
  }

  lemma LinePolled(s: Sys, turn: Turn)
    requires s.main.Head? && Alive(s, turn) && turn.read.Line?
    ensures Polled(s, turn) == if IsOutcome(s, turn.read.result) then AfterOutcome(s, turn.read.result)
                               else s.(pipe := Pipe.Value(AfterOther(s, turn.read.result), s.pipe.claim, false),
                                       table := Released(s), served := None)
  {
    var r := turn.read.result;
    ResultIsExact(s.pipe, s.tally.store, r);
    OutcomeIsResult(s, r);
    hide Pipe.ApplyVisible, Ack.NoteReturn, Correlated, Deliver.RecordResult;
    assert WithStore(s.tally, s.tally.store) == s.tally;
    var t := DoPollResult(s, r);
    if !IsOutcome(s, r) {
      assert Pipe.MarkLost(t.pipe, turn.now) == t.pipe;
    }
  }

  lemma OutcomeIsResult(s: Sys, r: WaiterLink)
    ensures IsOutcome(s, r) ==> r.DeliveryResult?
  {
  }

  /** Main result: a served waiter is polled once an iteration. One that is gone, or whose
      session or lease is over, loses its attempt and is let go; a quiet one stays; a line
      that is the outcome is recorded, lifting the hold if it is a completed return, and any
      other line is a loss. Nothing else of the daemon changes. */
  lemma PollIsExact(s: Sys, turn: Turn)
    requires s.main.Head?
    ensures var t := Polled(s, turn);
            if s.served.None? || (Alive(s, turn) && turn.read.Quiet?) then t == s
            else if !Alive(s, turn) || turn.read.Broken? then
              t == s.(pipe := Pipe.MarkLost(s.pipe, turn.now), table := Released(s), served := None)
            else if IsOutcome(s, turn.read.result) then t == AfterOutcome(s, turn.read.result)
            else t == s.(pipe := Pipe.Value(AfterOther(s, turn.read.result), s.pipe.claim, false),
                         table := Released(s), served := None)
  {
    hide Pipe.ApplyVisible, Pipe.MarkLost, IsOutcome, AfterOutcome, AfterOther;
    if Alive(s, turn) && turn.read.Line? {
      LinePolled(s, turn);
    }
  }

  // ----- an attach handed on -----

  /** The session handed on is the live link's and not already served. */
  predicate Adopts(s: Sys, next: Admit.Served) {
    && next.session.Some? && s.table.current.Some? && Admit.SessionOf(s.table.current.value) == next.session.value
    && !(s.served.Some? && s.served.value.session == next.session)
  }

  /** The pipe when the new waiter is adopted: an attempt out to another one is lost. */
  function Taken(s: Sys, now: Time): Pipe.Value {
    if s.served.Some? && s.served.value.session.Some? then Pipe.MarkLost(s.pipe, now) else s.pipe
  }

  /** Main result: a waiter handed on is served exactly when its link still is the live one
      and is not served already; its lease over, it is let go; else the pending delivery is
      attempted over its link at once, and it is let go again if that fails. */
  lemma AttachIsHandled(s: Sys, turn: Turn, next: Admit.Served)
    requires s.main.Head? && s.channel != [] && s.channel[0] == Attached(next) && turn.received == Got(Attached(next))
    ensures var t := Handled(s, turn);
            var u := s.(channel := s.channel[1..]);
            if !Adopts(s, next) then t == u
            else
              var link := s.table.current.value;
              var over := s.table.(current := None);
              if turn.setupFailed || turn.now >= link.leaseUntil then
                t == u.(pipe := Pipe.MarkLost(Taken(s, turn.now), turn.now), table := over, served := None)
              else
                var (pipe, acks, revoke, sent) :=
                  Pipe.Flush(Some(link), Taken(s, turn.now), s.tally.store, turn.now,
                             Pipe.Io(turn.adoptSendOk, None), turn.adoptMint);
                var v := u.(tally := WithStore(s.tally, acks),
                            frames := if sent.Some? && s.pipe.claim.Some?
                                      then s.frames + [Frame(s.pipe.claim.value.generation, sent.value)] else s.frames);
                t == if revoke then v.(pipe := Pipe.MarkLost(pipe, turn.now), table := over, served := None)
                     else v.(pipe := pipe, served := Some(next))
  {
    if Adopts(s, next) {
      AdoptSteps(s, turn, next);
      FlushSteps(DoAdopt(DoRecv(s), turn.now, false), turn);
    }
    hide Pipe.Flush, Pipe.MarkLost, Flushed, DoAdopt;
  }

  lemma AdoptSteps(s: Sys, turn: Turn, next: Admit.Served)
    requires s.main.Head? && s.channel != [] && s.channel[0] == Attached(next) && Adopts(s, next)
    ensures var u := s.(channel := s.channel[1..]);
            && DoRecv(s) == u.(main := Adopting(next))
            && DoAdopt(DoRecv(s), turn.now, false)
               == u.(pipe := Taken(s, turn.now), served := Some(next), main := Flushing)
            && DoRevoke(DoAdopt(DoRecv(s), turn.now, true), turn.now)
               == u.(pipe := Pipe.MarkLost(Taken(s, turn.now), turn.now), table := s.table.(current := None),
                     served := None)
  {
    hide Pipe.MarkLost;
  }

  lemma FlushSteps(s: Sys, turn: Turn)
    requires s.main.Flushing? && s.served.Some? && s.table.current.Some? && s.served.value.session.Some?
    requires Admit.SessionOf(s.table.current.value) == s.served.value.session.value
    ensures var (pipe, acks, revoke, sent) :=
              Pipe.Flush(s.table.current, s.pipe, s.tally.store, turn.now, Pipe.Io(turn.adoptSendOk, None),
                         turn.adoptMint);
            var v := s.(tally := WithStore(s.tally, acks), main := Head,
                        frames := if sent.Some? && s.pipe.claim.Some?
                                  then s.frames + [Frame(s.pipe.claim.value.generation, sent.value)] else s.frames);
            Flushed(s, turn.now, turn.adoptSendOk, turn.adoptMint)
            == if revoke then v.(pipe := Pipe.MarkLost(pipe, turn.now), table := s.table.(current := None),
                                 served := None)
               else v.(pipe := pipe)
  {
    hide Pipe.Flush, Pipe.MarkLost;
  }

  // ----- the child, and coverage after an acknowledgement -----

  /** Main result: an interval that timed out is waited again from the same cursor; one that
      matched leaves the drained page as the claim; anything else halts the daemon. */
  lemma ChildIsPolled(s: Sys, base: Id, g0: nat, turn: Turn)
    requires Inv(s, base, g0) && s.main.Head? && s.child.Some? && turn.exit.Exited?
    requires turn.mintSignal !in s.tally.store.signals
    ensures var t := ChildPolled(s, turn);
            var answer := Answer(s.log, s.after, turn.drain);
            if turn.exit.code == 1 && turn.spawnOk then t == s.(child := Some(s.after))
            else if Claims(FromCode(turn.exit.code), answer) then
              && t.pipe.claim == Some(NewClaim(s.arm, turn.mintSignal, answer.value, turn.now))
              && t.child.None? && t.main.Head? && t.after == s.after && t.arm == s.arm
            else t.main == Halted(2) && t.child.None? && t.table.current.None? && t.pipe == s.pipe
  {
    hide Inv, NothingOpen, AckRuns.Shape, Pipe.HasLoss, NewClaim, Claims, Answer, ValidLink, Pipe.IngestMatch, LedgerOf,
         Pipe.Register, Flushed;
    ChildAlone(s, base, g0);
    SameArm(s, base, g0);
    var u := DoChildExit(s, turn.exit.code);
    var answer := Answer(s.log, s.after, turn.drain);
    IngestEffect(s.after, FromCode(turn.exit.code), answer, s.arm, s.table.current, turn.now, s.tally.store, g0,
                 turn.mintSignal, turn.mintDelivery);
    MatchedOnly(turn.exit.code, answer);
    var v := DoIngest(u, turn.now, turn.drain, turn.mintSignal, turn.mintDelivery, turn.spawnOk);
    if v.main.Flushing? {
      FlushedKeeps(v, turn);
    }
  }

  lemma MatchedOnly(code: int, answer: Result<seq<DrainedEvent>, DrainError>)
    ensures Claims(FromCode(code), answer) ==> code == 0
    ensures FromCode(code) == WaitResult.Timeout <==> code == 1
  {
  }

  lemma ChildAlone(s: Sys, base: Id, g0: nat)
    requires Inv(s, base, g0) && s.main.Head? && s.child.Some?
    ensures s.pipe.claim.None? && s.after.Some?
  {
    hide AckSide, Agreement, ClaimSide, LogSide, DeliverySide, HoldSide, LinkSide, Covered;
    Parts(s, base, g0);
  }

  lemma FlushKeepsClaim(link: Option<Admit.AdmittedLink>, pipe: Pipe.Value, acks: Ack.Store, now: Time, sendOk: bool,
                        mint: Id)
    ensures Pipe.Flush(link, pipe, acks, now, Pipe.Io(sendOk, None), mint).0.claim == pipe.claim
  {
    hide Pipe.NextMessage, Ack.NoteDelivered, Codec.Fits;
  }

  lemma FlushedKeeps(s: Sys, turn: Turn)
    requires s.main.Flushing?
    ensures var t := Flushed(s, turn.now, turn.sendOk, turn.mint);
            t.pipe.claim == s.pipe.claim && t.main.Head? && t.child == s.child && t.after == s.after && t.arm == s.arm
  {
    hide Pipe.Flush, Deliver.RecordResult, Admit.DropSession;
    FlushKeepsClaim(s.table.current, s.pipe, s.tally.store, turn.now, turn.sendOk, turn.mint);
  }

  /** The state in which coverage is drained again: the acknowledgement applied, links and
      waiters of older generations let go. */
  function Resumed(s: Sys, rearm: Ack.AckRearm): Sys {
    var (served, table) := Pipe.RevokeOlder(s.served, s.table, rearm.generation);
    s.(channel := if s.channel == [] then [] else s.channel[1..], after := Some(rearm.after),
       arm := s.arm.(generation := rearm.generation), pipe := Pipe.EMPTY_PIPE, served := served, table := table,
       main := Draining)
  }

  lemma RestartSteps(s: Sys, base: Id, g0: nat, rearm: Ack.AckRearm)
    requires Inv(s, base, g0) && s.main.Head? && s.channel != [] && s.channel[0] == CoverageRearm(rearm)
    ensures DoRevokeOld(DoRecv(s)) == Resumed(s, rearm)
    ensures Inv(Resumed(s, rearm), base, g0)
  {
    HeadPending(s);
    PendingClosesClaim(s, base, g0);
    RecvKeeps(s, base, g0);
    RevokeOldKeeps(DoRecv(s), base, g0);
    hide Inv, PendingRearms, Pipe.RevokeOlder;
  }

  /** Main result: an acknowledgement moves coverage to its cursor. What came after it is
      drained: a page is claimed, nothing left is waited for from the cursor, and a failed
      drain halts the daemon. */
  lemma RearmIsHandled(s: Sys, base: Id, g0: nat, turn: Turn, rearm: Ack.AckRearm)
    requires Inv(s, base, g0) && s.main.Head? && s.channel != [] && s.channel[0] == CoverageRearm(rearm)
    requires turn.received == Got(CoverageRearm(rearm)) && turn.mintClaim !in s.tally.store.signals
    ensures var t := Handled(s, turn);
            var u := Resumed(s, rearm);
            var answer := Answer(s.log, Some(rearm.after), turn.restartDrain);
            if turn.killOk && answer == Ok([]) && turn.restartSpawnOk then
              t == u.(child := Some(Some(rearm.after)), main := Head)
            else if turn.killOk && Claims(Matched, answer) then
              && t.pipe.claim == Some(NewClaim(u.arm, turn.mintClaim, answer.value, turn.now))
              && t.child.None? && t.main.Head? && t.after == u.after && t.arm == u.arm && t.served == u.served
            else t.main == Halted(2) && t.child.None? && t.pipe == Pipe.EMPTY_PIPE && t.after == u.after
  {
    RestartSteps(s, base, g0, rearm);
    DrainSteps(Resumed(s, rearm), base, g0, turn);
    assert Resumed(s, rearm).tally == s.tally && Resumed(s, rearm).log == s.log;
    hide Inv, DoRecv, DoRevokeOld, DoDrain, DoClaim, Answer, Claims, NewClaim, Pipe.RevokeOlder;
  }

  lemma DrainSteps(s: Sys, base: Id, g0: nat, turn: Turn)
    requires Inv(s, base, g0) && s.main.Draining? && turn.mintClaim !in s.tally.store.signals
    ensures var t := DoClaim(DoDrain(s, turn.killOk, turn.restartDrain, turn.restartSpawnOk), turn.now, turn.mintClaim);
            var answer := Answer(s.log, s.after, turn.restartDrain);
            if turn.killOk && answer == Ok([]) && turn.restartSpawnOk then t == s.(child := Some(s.after), main := Head)
            else if turn.killOk && Claims(Matched, answer) then
              && t.pipe.claim == Some(NewClaim(s.arm, turn.mintClaim, answer.value, turn.now))
              && t.child.None? && t.main.Head? && t.after == s.after && t.arm == s.arm && t.served == s.served
            else t.main == Halted(2) && t.child.None? && t.pipe == s.pipe && t.after == s.after
  {
    hide Inv, NothingOpen, AckRuns.Shape, Pipe.HasLoss, NewClaim, Answer, ValidLink, Pipe.AllDisplayable,
         Pipe.IngestMatch, LedgerOf, Pipe.Register;
    DrainingAlone(s, base, g0);
    SameArm(s, base, g0);
    var answer := Answer(s.log, s.after, turn.restartDrain);
    IngestEffect(s.after, Matched, answer, s.arm, None, turn.now, s.tally.store, g0, turn.mintClaim, "");
  }

  lemma DrainingAlone(s: Sys, base: Id, g0: nat)
    requires Inv(s, base, g0) && s.main.Draining?
    ensures s.pipe.claim.None? && s.after.Some? && s.child.None?
  {
    hide AckSide, Agreement, ClaimSide, LogSide, DeliverySide, HoldSide, LinkSide, Covered;
    Parts(s, base, g0);
  }

  // ----- when the loop stops -----

  /** Ingesting an answer halts, if it does, with code 2. */
  lemma IngestStops(s: Sys, wait: WaitResult, answer: Result<seq<DrainedEvent>, DrainError>,
                    link: Option<Admit.AdmittedLink>, now: Time, mintSignal: Id, mintDelivery: Id)
    ensures var coverage := Ingested(s, wait, answer, link, now, mintSignal, mintDelivery).1;
            coverage.Halt? ==> coverage == Pipe.Halt(2)
  {
    hide Pipe.NextMessage, Pipe.Register, Pipe.ClaimOrReuse, Pipe.AllDisplayable, AttachDrain;
  }

  lemma DrainStops(s: Sys, turn: Turn)
    ensures var t := DoDrain(s, turn.killOk, turn.restartDrain, turn.restartSpawnOk);
            !s.main.Halted? && t.main.Halted? ==> t.main == Halted(2)
  {
    hide Answer;
  }

  lemma RestartedStops(s: Sys, turn: Turn)
    requires s.main.Head?
    ensures Restarted(s, turn).main.Halted? ==> Restarted(s, turn).main == Halted(2)
  {
    DrainStops(DoRevokeOld(DoRecv(s)), turn);
    var u := DoDrain(DoRevokeOld(DoRecv(s)), turn.killOk, turn.restartDrain, turn.restartSpawnOk);
    if u.main.Claiming? {
      IngestStops(u, Matched, Ok(u.main.page), None, turn.now, turn.mintClaim, "");
    }
    assert !DoRecv(s).main.Halted? by { hide Pipe.TakeRearm, Pipe.RetainLive; }
    hide Ingested, DoRecv, DoDrain;
  }

  lemma AdoptedRuns(s: Sys, turn: Turn)
    requires s.main.Head?
    ensures !Adopted(s, turn).main.Halted?
  {
    hide Pipe.Flush, Pipe.MarkLost, Admit.DropSession, Pipe.TakeRearm, Pipe.RetainLive, TimeoutFails;
  }

  lemma HandledStops(s: Sys, turn: Turn)
    requires s.main.Head?
    ensures Handled(s, turn).main.Halted? ==> Handled(s, turn).main == Halted(2)
    ensures turn.received.Timeout? ==> Handled(s, turn) == s
    ensures turn.received.Disconnected? ==> Handled(s, turn) == HaltWith(s, 2)
  {
    RestartedStops(s, turn);
    AdoptedRuns(s, turn);
    hide Restarted, Adopted;
  }

  lemma ChildStops(s: Sys, turn: Turn)
    requires s.main.Head?
    ensures ChildPolled(s, turn).main.Halted? ==> ChildPolled(s, turn).main == Halted(2)
  {
    if s.child.Some? && turn.exit.Exited? {
      var u := DoChildExit(s, turn.exit.code);
      IngestStops(u, FromCode(turn.exit.code), Answer(s.log, s.after, turn.drain), s.table.current, turn.now,
                  turn.mintSignal, turn.mintDelivery);
      var v := DoIngest(u, turn.now, turn.drain, turn.mintSignal, turn.mintDelivery, turn.spawnOk);
      hide Ingested, Answer, Flushed;
      assert v.main.Halted? ==> v.main == Halted(2);
      if v.main.Flushing? { FlushedKeeps(v, turn); }
    }
  }

  /** Main result: the loop ends with code 1 exactly when coverage is over, before anything
      else is looked at, and with code 2 whenever the accept thread is gone; it then has no
      child and no link, and what was claimed and acknowledged is as it was. */
  lemma LoopStops(s: Sys, turn: Turn)
    requires s.main.Head?
    requires turn.mintClaim !in s.tally.store.signals
    requires turn.received.Got? ==> s.channel != [] && s.channel[0] == turn.received.event
    ensures var t := Iterated(s, turn);
            && (t.main == Halted(1) <==> turn.now >= s.arm.coverageUntil)
            && (turn.received.Disconnected? && turn.now < s.arm.coverageUntil ==> t.main == Halted(2))
            && (turn.received.Disconnected? || turn.now >= s.arm.coverageUntil ==>
                  t == s.(main := t.main, child := None, table := s.table.(current := None)))
            && (turn.received.Timeout? && turn.now < s.arm.coverageUntil ==> t == ChildPolled(Polled(s, turn), turn))
  {
    hide Handled, Polled, ChildPolled;
    HandledStops(s, turn);
    HandledSettles(s, turn);
    if !Handled(s, turn).main.Halted? {
      PolledSettles(Handled(s, turn), turn);
      ChildStops(Polled(Handled(s, turn), turn), turn);
    }
  }
}
