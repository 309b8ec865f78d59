/**
 The main thread of the daemon, updating its own fields and the shared stores in place.

 `Matches(s)` says that the objects hold the state `s` of module Daemon. Every method is
 given such a state, and hands back the state that the actions it performs lead to: the
 code between two receives is a sequence of those actions. What the accept thread does in
 between is left to module Daemon, where the actions of both threads interleave.
 */
module MainLoops {
  import opened Prelude
  import opened Messages
  import opened WaitOn
  import opened Daemon
  import Ack
  import AckStores
  import Admit
  import LinkTables
  import DaemonInv
  import DaemonPipes
  import DaemonTheorems
  import Pipe

  /** What a read of the waiter's stream gives. */
  datatype Read = Line(result: WaiterLink) | Quiet | Broken

  datatype Followup = Unchanged | Paused | Waiting

  /** The actions of one main-thread method lead from `s` to `t`. */
  ghost predicate Leads(s: Sys, t: Sys, base: Id) {
    exists actions :: t == Run(s, base, actions)
  }

  lemma LeadsSelf(s: Sys, base: Id)
    ensures Leads(s, s, base)
  {
    assert s == Run(s, base, []);
  }

  lemma LeadsOne(s: Sys, base: Id, a: Action)
    ensures Leads(s, Do(s, base, a), base)
  {
    hide Do;
    assert [a][..0] == [] && Run(s, base, []) == s;
    assert Do(s, base, a) == Run(s, base, [a]);
  }

  lemma {:induction false} RunAppend(s: Sys, base: Id, first: seq<Action>, second: seq<Action>)
    ensures Run(s, base, first + second) == Run(Run(s, base, first), base, second)
    decreases |second|
  {
    hide Do;
    if second == [] {
      assert first + second == first;
    } else {
      var n := |second| - 1;
      RunAppend(s, base, first, second[..n]);
      assert (first + second)[..|first + second| - 1] == first + second[..n];
    }
  }

  lemma LeadsOn(s: Sys, t: Sys, base: Id, a: Action)
    requires Leads(s, t, base)
    ensures Leads(s, Do(t, base, a), base)
  {
    hide Do;
    var first :| t == Run(s, base, first);
    LeadsOne(t, base, a);
    var second :| Do(t, base, a) == Run(t, base, second);
    RunAppend(s, base, first, second);
  }

  datatype Received = Timeout | Got(event: Event) | Disconnected

  datatype Exit = Running | Exited(code: int) | Unknown

  /** What the outside gives one iteration of the main loop: the clock, the message, what
      reads and writes on the waiter's stream do, the child's status, the provider's
      answers, and fresh ids. */
  datatype Turn = Turn(
    now: Time, received: Received,
    setupFailed: bool, adoptSendOk: bool, adoptMint: Id,
    killOk: bool, restartDrain: Drain, restartSpawnOk: bool, mintClaim: Id,
    read: Read,
    exit: Exit, drain: Drain, spawnOk: bool, mintSignal: Id, mintDelivery: Id, sendOk: bool, mint: Id)

  function Flushed(s: Sys, now: Time, sendOk: bool, mint: Id): Sys {
    DoRevoke(DoFlush(DoReadLink(s), now, sendOk, mint), now)
  }

  predicate TimeoutFails(table: Admit.Table, setupFailed: bool, now: Time) {
    table.current.Some? && (setupFailed || now >= table.current.value.leaseUntil)
  }

  /** `adopt_attached`, as actions. */
  function Adopted(s: Sys, turn: Turn): Sys {
    var u := DoRecv(s);
    if !u.main.Adopting? then u
    else
      var v := DoAdopt(u, turn.now, false);
      if TimeoutFails(v.table, turn.setupFailed, turn.now) then DoRevoke(DoAdopt(u, turn.now, true), turn.now)
      else Flushed(v, turn.now, turn.adoptSendOk, turn.adoptMint)
  }

  /** `restart_after_ack`, as actions. */
  function Restarted(s: Sys, turn: Turn): Sys {
    DoClaim(DoDrain(DoRevokeOld(DoRecv(s)), turn.killOk, turn.restartDrain, turn.restartSpawnOk),
            turn.now, turn.mintClaim)
  }

  /** `poll_result`, as actions. */
  function Polled(s: Sys, turn: Turn): Sys {
    if s.served.None? then s
    else
      var session := s.served.value.session;
      var live := session.Some? && s.table.current.Some? && Admit.SessionOf(s.table.current.value) == session.value;
      if (session.Some? && (!live || TimeoutFails(s.table, turn.setupFailed, turn.now))) || turn.read.Broken? then
        DoRevoke(s.(main := Revoking(true)), turn.now)
      else if turn.read.Quiet? then s
      else DoRevoke(DoPollResult(s, turn.read.result), turn.now)
  }

  /** `poll_chanvoy`, as actions. */
  function ChildPolled(s: Sys, turn: Turn): Sys {
    if turn.exit.Running? || s.child.None? then s
    else if turn.exit.Unknown? then HaltWith(s, 2)
    else
      var u := DoIngest(DoChildExit(s, turn.exit.code), turn.now, turn.drain, turn.mintSignal, turn.mintDelivery,
                        turn.spawnOk);
      if u.main.Flushing? then Flushed(u, turn.now, turn.sendOk, turn.mint) else u
  }

  /** The message of an iteration, handled. */
  function Handled(s: Sys, turn: Turn): Sys {
    match turn.received
    case Timeout => s
    case Disconnected => HaltWith(s, 2)
    case Got(Attached(_)) => Adopted(s, turn)
    case Got(CoverageRearm(_)) => Restarted(s, turn)
  }

  /** One iteration of `run_daemon_wait`, as actions. */
  function Iterated(s: Sys, turn: Turn): Sys {
    if turn.now >= s.arm.coverageUntil then HaltWith(s, 1)
    else
      var u := Handled(s, turn);
      if u.main.Halted? then u else ChildPolled(Polled(u, turn), turn)
  }

  /** The ids minted for new signals are not in use when they are. */
  predicate FreshIds(s: Sys, turn: Turn) {
    && turn.mintClaim !in s.tally.store.signals
    && turn.mintSignal !in Polled(Handled(s, turn), turn).tally.store.signals
  }

  lemma FlushedLog(s: Sys, now: Time, sendOk: bool, mint: Id)
    ensures Flushed(s, now, sendOk, mint).log == s.log
  {
    hide Pipe.Flush, Pipe.MarkLost, Admit.DropSession;
  }

  lemma AdoptedLog(s: Sys, turn: Turn)
    ensures Adopted(s, turn).log == s.log
  {
    var u := DoRecv(s);
    assert u.log == s.log;
    var v := DoAdopt(u, turn.now, false);
    assert v.log == u.log;
    hide DoRecv, DoAdopt, Flushed, TimeoutFails, Admit.DropSession, Pipe.MarkLost;
    FlushedLog(v, turn.now, turn.adoptSendOk, turn.adoptMint);
    var w := DoAdopt(u, turn.now, true);
    assert w.log == u.log by { AdoptLog(u, turn.now); }
  }

  lemma AdoptLog(s: Sys, now: Time)
    ensures DoAdopt(s, now, true).log == s.log
  {
  }

  lemma RestartedLog(s: Sys, turn: Turn)
    ensures Restarted(s, turn).log == s.log
  {
    hide Pipe.TakeRearm, Pipe.RetainLive, Pipe.RevokeOlder, Pipe.IngestMatch, Answer;
  }

  /** Only the provider writes its log. */
  lemma SameLog(s: Sys, turn: Turn)
    ensures Handled(s, turn).log == s.log && Polled(Handled(s, turn), turn).log == s.log
  {
    hide Adopted, Restarted;
    AdoptedLog(s, turn);
    RestartedLog(s, turn);
    assert Handled(s, turn).log == s.log;
    hide Handled, Pipe.MarkLost, Admit.DropSession, Pipe.ApplyVisible, TimeoutFails;
  }

  // ----- every iteration is a run of actions -----

  lemma FlushedLeads(s: Sys, t: Sys, base: Id, now: Time, sendOk: bool, mint: Id)
    requires Leads(s, t, base)
    ensures Leads(s, Flushed(t, now, sendOk, mint), base)
  {
    hide Leads, Run, DoFlush, DoRevoke, DoReadLink;
    LeadsOn(s, t, base, ReadLink);
    LeadsOn(s, DoReadLink(t), base, FlushNow(now, sendOk, mint));
    LeadsOn(s, DoFlush(DoReadLink(t), now, sendOk, mint), base, Revoke(now));
  }

  lemma AdoptedLeads(s: Sys, base: Id, turn: Turn)
    ensures Leads(s, Adopted(s, turn), base)
  {
    hide Leads, Run, DoRevoke, DoRecv, DoAdopt, Flushed;
    LeadsSelf(s, base);
    LeadsOn(s, s, base, Recv);
    var u := DoRecv(s);
    LeadsOn(s, u, base, Adopt(turn.now, true));
    LeadsOn(s, DoAdopt(u, turn.now, true), base, Revoke(turn.now));
    LeadsOn(s, u, base, Adopt(turn.now, false));
    FlushedLeads(s, DoAdopt(u, turn.now, false), base, turn.now, turn.adoptSendOk, turn.adoptMint);
  }

  lemma RestartedLeads(s: Sys, base: Id, turn: Turn)
    ensures Leads(s, Restarted(s, turn), base)
  {
    hide Leads, Run, DoRecv, DoRevokeOld, DoDrain, DoClaim, DoAppend, DoAdopt, DoReadLink, DoFlush, DoRevoke,
         DoPollResult, DoChildExit, DoIngest, DoAttachArrives, DoPrepare, DoCommit, DoAck, DoSend, HaltWith;
    LeadsSelf(s, base);
    LeadsOn(s, s, base, Recv);
    LeadsOn(s, DoRecv(s), base, RevokeOld);
    var u := DoRevokeOld(DoRecv(s));
    LeadsOn(s, u, base, DrainAfterAck(turn.killOk, turn.restartDrain, turn.restartSpawnOk));
    var v := DoDrain(u, turn.killOk, turn.restartDrain, turn.restartSpawnOk);
    LeadsOn(s, v, base, ClaimSuffix(turn.now, turn.mintClaim));
  }

  lemma HandledLeads(s: Sys, base: Id, turn: Turn)
    requires s.main.Head?
    ensures Leads(s, Handled(s, turn), base)
  {
    hide Leads, Run, HaltWith, Adopted, Restarted;
    match turn.received
    case Timeout => LeadsSelf(s, base);
    case Disconnected => LeadsOne(s, base, Action.Stop(2));
    case Got(Attached(_)) => AdoptedLeads(s, base, turn);
    case Got(CoverageRearm(_)) => RestartedLeads(s, base, turn);
  }

  lemma PolledLeads(s: Sys, t: Sys, base: Id, turn: Turn)
    requires t.main.Head? && Leads(s, t, base)
    ensures Leads(s, Polled(t, turn), base)
  {
    hide Leads, Run, DoRevoke, DoPollResult, TimeoutFails;
    LeadsOn(s, t, base, PollLost);
    LeadsOn(s, Do(t, base, PollLost), base, Revoke(turn.now));
    if turn.read.Line? {
      LeadsOn(s, t, base, PollResult(turn.read.result));
      LeadsOn(s, DoPollResult(t, turn.read.result), base, Revoke(turn.now));
    }
  }

  lemma ChildPolledLeads(s: Sys, t: Sys, base: Id, turn: Turn)
    requires t.main.Head? && Leads(s, t, base)
    ensures Leads(s, ChildPolled(t, turn), base)
  {
    hide Leads, Run, DoChildExit, DoIngest, HaltWith, Flushed, DoAppend, DoAdopt, DoReadLink, DoFlush, DoRevoke,
         DoPollResult, DoRecv, DoRevokeOld, DoDrain, DoClaim, DoAttachArrives, DoPrepare, DoCommit, DoAck, DoSend;
    LeadsOn(s, t, base, Action.Stop(2));
    if turn.exit.Exited? {
      LeadsOn(s, t, base, ChildExit(turn.exit.code));
      var u := DoChildExit(t, turn.exit.code);
      LeadsOn(s, u, base, Ingest(turn.now, turn.drain, turn.mintSignal, turn.mintDelivery, turn.spawnOk));
      var v := DoIngest(u, turn.now, turn.drain, turn.mintSignal, turn.mintDelivery, turn.spawnOk);
      FlushedLeads(s, v, base, turn.now, turn.sendOk, turn.mint);
    }
  }

  /** Main result: what one iteration of the loop does is a run of the actions module
      Daemon interleaves, so it keeps everything proved of those runs. */
  lemma IterationIsRun(s: Sys, base: Id, g0: nat, turn: Turn)
    requires s.main.Head? && DaemonInv.Inv(s, base, g0)
    requires turn.received.Got? ==> s.channel != [] && s.channel[0] == turn.received.event
    requires FreshIds(s, turn)
    ensures Leads(s, Iterated(s, turn), base)
    ensures DaemonInv.Inv(Iterated(s, turn), base, g0)
  {
    hide Leads, Handled, Polled, ChildPolled, HaltWith, DaemonInv.Inv, Do;
    assert Do(s, base, Action.Stop(1)) == HaltWith(s, 1) by { HaltIsStop(s, base); }
    LeadsOne(s, base, Action.Stop(1));
    HandledLeads(s, base, turn);
    HandledSettles(s, turn);
    var u := Handled(s, turn);
    if !u.main.Halted? {
      PolledSettles(u, turn);
      PolledLeads(s, u, base, turn);
      ChildPolledLeads(s, Polled(u, turn), base, turn);
    }
    LeadsKeeps(s, Iterated(s, turn), base, g0);
  }

  /** Between iterations the main thread is back where it receives, or has halted. */
  lemma HandledSettles(s: Sys, turn: Turn)
    requires s.main.Head? && turn.mintClaim !in s.tally.store.signals
    requires turn.received.Got? ==> s.channel != [] && s.channel[0] == turn.received.event
    ensures Handled(s, turn).main.Head? || Handled(s, turn).main.Halted?
  {
    hide Pipe.Flush, Pipe.MarkLost, Admit.DropSession, Pipe.IngestMatch, Pipe.RevokeOlder, Answer, Pipe.TakeRearm,
         Pipe.RetainLive, TimeoutFails;
  }

  lemma PolledSettles(s: Sys, turn: Turn)
    requires s.main.Head?
    ensures Polled(s, turn).main.Head?
  {
    hide Pipe.MarkLost, Admit.DropSession, Pipe.ApplyVisible, TimeoutFails;
  }

  lemma HaltIsStop(s: Sys, base: Id)
    requires s.main.Head?
    ensures Do(s, base, Action.Stop(1)) == HaltWith(s, 1)
  {
  }

  lemma LeadsKeeps(s: Sys, t: Sys, base: Id, g0: nat)
    requires Leads(s, t, base) && DaemonInv.Inv(s, base, g0)
    ensures DaemonInv.Inv(t, base, g0)
  {
    hide DaemonInv.Inv, Do;
    var actions :| t == Run(s, base, actions);
    DaemonTheorems.RunKeepsInv(s, base, g0, actions);
  }

  class MainLoop {
    var child: Option<Option<Id>>
    var after: Option<Id>
    var arm: KnownArm
    var served: Option<Admit.Served>
    const pipe: DaemonPipes.DaemonPipe
    const table: LinkTables.LinkTable
    const acks: AckStores.AckStore

    ghost predicate Matches(s: Sys)
      reads this, pipe, pipe.ledger, table, acks
    {
      && child == s.child && after == s.after && arm == s.arm && served == s.served
      && pipe.State() == s.pipe && table.State() == s.table && acks.State() == s.tally.store
    }

    /** As `Matches(t)` for a halted `t`, but for the child and the link still to be dropped. */
    ghost predicate Stopping(t: Sys)
      reads this, pipe, pipe.ledger, table, acks
    {
      && t.main.Halted? && t.child.None? && after == t.after && arm == t.arm && served == t.served
      && pipe.State() == t.pipe && table.State().(current := None) == t.table && acks.State() == t.tally.store
    }

    /** The daemon's start: coverage from `base`, nothing claimed, nobody served. */
    constructor (base: Id, known: KnownArm)
      ensures Matches(Init(base, known)) && fresh(pipe) && fresh(pipe.ledger) && fresh(table) && fresh(acks)
    {
      child := Some(Some(base));
      after := Some(base);
      arm := known;
      served := None;
      pipe := new DaemonPipes.DaemonPipe();
      table := new LinkTables.LinkTable();
      acks := new AckStores.AckStore(known);
    }

    /** `revoke_exact`. */
    method RevokeExact(now: Time, lost: bool, ghost s: Sys) returns (ghost t: Sys)
      requires Matches(s) && s.main == Revoking(lost)
      modifies this`served, pipe, pipe.ledger, table
      ensures pipe.ledger == old(pipe.ledger)
      ensures t == DoRevoke(s, now) && Matches(t)
    {
      hide Pipe.MarkLost, Admit.DropSession;
      var session := if served.Some? then served.value.session else None;
      if lost {
        pipe.OnTransportLoss(table, session, now);
      } else if session.Some? {
        table.DropSession(session.value);
      }
      served := None;
      t := DoRevoke(s, now);
    }

    /** `halt`, seen from this thread: no child and no link is left. */
    method Halt(exit: int, ghost s: Sys)
      requires Stopping(HaltWith(s, exit))
      modifies this`child, table
      ensures Matches(HaltWith(s, exit))
    {
      child := None;
      table.DropCurrent();
    }

    /** `flush_current`, and the revocation its callers make of a failed writer. */
    method FlushCurrent(now: Time, sendOk: bool, mint: Id, ghost s: Sys) returns (ghost t: Sys)
      requires Matches(s) && s.main.Flushing?
      modifies this`served, pipe, pipe.ledger, table, acks
      ensures pipe.ledger == old(pipe.ledger)
      ensures t == Flushed(s, now, sendOk, mint) && t.main.Head? && Matches(t)
    {
      hide Pipe.Flush, Pipe.MarkLost, Admit.DropSession;
      var link := table.current;
      ghost var u := DoFlush(DoReadLink(s), now, sendOk, mint);
      var revoke := false;
      if served.Some? {
        var sent;
        revoke, sent := pipe.FlushAttached(link, acks, now, Pipe.Io(sendOk, None), mint);
      }
      assert Matches(u) && u.main == if revoke then Revoking(true) else Head;
      if revoke {
        t := RevokeExact(now, true, u);
      } else {
        t := u;
      }
    }

    method AdoptAttached(next: Admit.Served, turn: Turn, ghost s: Sys) returns (ghost t: Sys)
      requires Matches(s) && s.main.Head? && s.channel != [] && s.channel[0] == Attached(next)
      modifies this`served, pipe, pipe.ledger, table, acks
      ensures pipe.ledger == old(pipe.ledger)
      ensures t == Adopted(s, turn) && t.main.Head? && Matches(t)
    {
      hide Pipe.Flush, Pipe.MarkLost, Admit.DropSession, Flushed;
      ghost var u := DoRecv(s);
      if !Pipe.RetainLive(next, table.State(), served) {
        return u;
      }
      if served.Some? && served.value.session.Some? {
        pipe.OnTransportLoss(table, served.value.session, turn.now);
      }
      served := Some(next);
      if TimeoutFails(table.State(), turn.setupFailed, turn.now) {
        t := RevokeExact(turn.now, true, DoAdopt(u, turn.now, true));
      } else {
        t := FlushCurrent(turn.now, turn.adoptSendOk, turn.adoptMint, DoAdopt(u, turn.now, false));
      }
    }

    /** `poll_result`: the lease first, then one read. */
    method PollResult(turn: Turn, ghost s: Sys) returns (ghost t: Sys)
      requires Matches(s) && s.main.Head?
      modifies this`served, pipe, pipe.ledger, table, acks
      ensures pipe.ledger == old(pipe.ledger)
      ensures t == Polled(s, turn) && t.main.Head? && Matches(t)
    {
      hide Pipe.MarkLost, Admit.DropSession, Pipe.ApplyVisible;
      if served.None? {
        return s;
      }
      var session := served.value.session;
      ghost var lost := s.(main := Revoking(true));
      if session.Some? {
        var live := table.current.Some? && Admit.SessionOf(table.current.value) == session.value;
        if !live || TimeoutFails(table.State(), turn.setupFailed, turn.now) {
          t := RevokeExact(turn.now, true, lost);
          return;
        }
      }
      match turn.read
      case Quiet =>
        return s;
      case Broken =>
        t := RevokeExact(turn.now, true, lost);
      case Line(result) =>
        ghost var u := DoPollResult(s, result);
        var applied := pipe.ApplyVisible(acks, result);
        if applied == Pipe.Keep {
          return u;
        }
        t := RevokeExact(turn.now, applied == Pipe.RevokeLost, u);
    }

    /** `revoke_older_generation`. */
    method RevokeOlder(generation: nat)
      modifies this`served, table
      ensures (served, table.State()) == Pipe.RevokeOlder(old(served), old(table.State()), generation)
    {
      if served.Some? && served.value.session.Some? && served.value.session.value.generation < generation {
        var session := served.value.session.value;
        served := None;
        table.DropSession(session);
      }
      if table.current.Some? && table.current.value.generation < generation {
        table.DropCurrent();
      }
    }

    /** `take_coverage_rearm`: false when the rearm was already applied. */
    method TakeCoverageRearm(rearm: Ack.AckRearm) returns (taken: bool)
      modifies this`after, this`arm, pipe
      ensures (after, arm, pipe.State(), taken) == Pipe.TakeRearm(old(after), old(arm), old(pipe.State()), rearm)
      ensures pipe.ledger == old(pipe.ledger) || fresh(pipe.ledger)
    {
      if arm.generation == rearm.generation && after == Some(rearm.after) && pipe.claim.None?
         && pipe.ledger.pending.None? {
        return false;
      }
      arm := arm.(generation := rearm.generation);
      after := Some(rearm.after);
      pipe.Reset();
      return true;
    }

    /** `restart_after_ack`: drain before any successor is spawned. */
    method RestartAfterAck(rearm: Ack.AckRearm, log: seq<DrainedEvent>, turn: Turn, ghost s: Sys)
      returns (r: Result<Followup, int>, ghost t: Sys)
      requires Matches(s) && s.main.Head? && s.channel != [] && s.channel[0] == CoverageRearm(rearm) && log == s.log
      requires turn.mintClaim !in acks.signals
      modifies this, pipe, pipe.ledger, table, acks
      ensures pipe.ledger == old(pipe.ledger) || fresh(pipe.ledger)
      ensures t == Restarted(s, turn)
      ensures if r.Ok? then t.main.Head? && Matches(t) else t.main == Halted(r.error) && Stopping(t)
    {
      hide Pipe.IngestMatch, Pipe.RevokeOlder, Answer;
      t := Restarted(s, turn);
      ghost var s1 := DoRecv(s);
      var taken := TakeCoverageRearm(rearm);
      if !taken {
        return Ok(Unchanged), s1;
      }
      RevokeOlder(rearm.generation);
      ghost var s2 := DoRevokeOld(s1);
      assert Matches(s2) && s2.main.Draining?;
      if !turn.killOk {
        return Err(2), t;
      }
      child := None;
      var answer := Answer(log, after, turn.restartDrain);
      if answer.Err? {
        return Err(2), t;
      }
      if answer.value == [] {
        if !turn.restartSpawnOk {
          return Err(2), t;
        }
        child := Some(after);
        return Ok(Waiting), t;
      }
      ghost var s3 := DoDrain(s2, true, turn.restartDrain, turn.restartSpawnOk);
      assert Matches(s3) && s3.main == Claiming(answer.value);
      var outcome, sent :=
        pipe.IngestMatch(after, Matched, answer, arm, None, turn.now, acks, None, turn.mintClaim, "");
      match outcome.coverage
      case Halt(exit) => return Err(exit), t;
      case _ => return Ok(Paused), t;
    }

    /** `poll_chanvoy`: an exited child is ingested; a new claim is flushed at once. */
    method PollChanvoy(log: seq<DrainedEvent>, turn: Turn, ghost s: Sys) returns (exit: Option<int>, ghost t: Sys)
      requires Matches(s) && s.main.Head? && log == s.log && turn.mintSignal !in acks.signals
      modifies this, pipe, pipe.ledger, table, acks
      ensures pipe.ledger == old(pipe.ledger)
      ensures t == ChildPolled(s, turn)
      ensures if exit.None? then t.main.Head? && Matches(t) else t.main == Halted(exit.value) && Stopping(t)
    {
      hide Pipe.IngestMatch, Answer, Flushed;
      if child.None? || turn.exit.Running? {
        return None, s;
      }
      if turn.exit.Unknown? {
        return Some(2), HaltWith(s, 2);
      }
      child := None;
      ghost var s1 := DoChildExit(s, turn.exit.code);
      var answer := Answer(log, after, turn.drain);
      var outcome, sent := pipe.IngestMatch(after, FromCode(turn.exit.code), answer, arm, table.current, turn.now, acks,
                                            None, turn.mintSignal, turn.mintDelivery);
      ghost var s2 := DoIngest(s1, turn.now, turn.drain, turn.mintSignal, turn.mintDelivery, turn.spawnOk);
      match outcome.coverage
      case Rearm(next) =>
        after := Some(next);
        if !turn.spawnOk {
          return Some(2), s2;
        }
        child := Some(after);
        return None, s2;
      case Pause =>
        t := FlushCurrent(turn.now, turn.sendOk, turn.mint, s2);
        return None, t;
      case Halt(code) =>
        return Some(code), s2;
    }

    /** One iteration of `run_daemon_wait`; the exit code when it was the last. */
    method Iterate(log: seq<DrainedEvent>, turn: Turn, ghost s: Sys) returns (exit: Option<int>, ghost t: Sys)
      requires Matches(s) && s.main.Head? && log == s.log
      requires turn.received.Got? ==> s.channel != [] && s.channel[0] == turn.received.event
      requires FreshIds(s, turn)
      modifies this, pipe, pipe.ledger, table, acks
      ensures pipe.ledger == old(pipe.ledger) || fresh(pipe.ledger)
      ensures t == Iterated(s, turn) && Matches(t)
      ensures if exit.None? then t.main.Head? else t.main == Halted(exit.value)
    {
      SameLog(s, turn);
      hide Adopted, Restarted, Polled, ChildPolled;
      if turn.now >= arm.coverageUntil {
        Halt(1, s);
        return Some(1), HaltWith(s, 1);
      }
      t := s;
      match turn.received {
        case Timeout =>
        case Disconnected =>
          Halt(2, s);
          return Some(2), HaltWith(s, 2);
        case Got(Attached(next)) =>
          t := AdoptAttached(next, turn, s);
        case Got(CoverageRearm(rearm)) =>
          var r;
          r, t := RestartAfterAck(rearm, log, turn, s);
          if r.Err? {
            child := None;
            table.DropCurrent();
            return Some(r.error), t;
          }
      }
      t := PollResult(turn, t);
      exit, t := PollChanvoy(log, turn, t);
      if exit.Some? {
        child := None;
        table.DropCurrent();
      }
    }
  }
}
