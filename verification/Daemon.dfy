/**
 The daemon's two threads over the provider log, the ack store, the link table and the
 channel between them.

 The main thread owns the provider child, the drain cursor, its copy of the arm, the
 pipe and the waiter it serves; the accept thread admits waiters and records
 acknowledgements. One action is one lock region or one local effect; `main` and `accept`
 say where each thread stands between its lock regions. Everything the threads do not
 decide (what the provider answers, what a peer sends, whether a write succeeds, the
 clock, fresh ids) is a parameter of the action.
 */
module Daemon {
  import opened Prelude
  import opened Messages
  import opened WaitOn
  import Ack
  import AckRuns
  import Admit
  import Pipe

  datatype Event = Attached(served: Admit.Served) | CoverageRearm(rearm: Ack.AckRearm)

  datatype Main =
    | Head
    | Adopting(next: Admit.Served)
    | Flushing
    | FlushWith(link: Option<Admit.AdmittedLink>)
    | Revoking(lost: bool)
    | Ingesting(code: int, link: Option<Admit.AdmittedLink>)
    | Restarting(generation: nat)
    | Draining
    | Claiming(page: seq<DrainedEvent>)
    | Halted(exit: int)

  datatype Accept =
    | Idle
    | Deciding(request: WaiterLink, arms: seq<KnownArm>)
    | Replying(prepared: Admit.Prepared)
    | Sending(event: Event)

  /** A frame written to a waiter while the claim of `generation` was live. */
  datatype Frame = Frame(generation: nat, message: WaiterLink)

  /**
   `child` is the cursor the running provider child waits from, if one runs. The last
   three fields and the counters of `tally` only remember: the signals whose page lost
   content locally, those whose visible receipt was confirmed, and the frames written.
   */
  datatype Sys = Sys(
    log: seq<DrainedEvent>, child: Option<Option<Id>>, after: Option<Id>, arm: KnownArm,
    pipe: Pipe.Value, served: Option<Admit.Served>, tally: AckRuns.Tally, table: Admit.Table,
    channel: seq<Event>, main: Main, accept: Accept,
    lossy: set<Id>, completed: set<Id>, frames: seq<Frame>)

  /** A drain either returns the next `count` events after the cursor or fails. */
  datatype Drain = Page(count: nat) | Refused(error: DrainError)

  datatype Action =
    | Append(event: DrainedEvent)
    | Recv
    | Adopt(now: Time, timeoutFailed: bool)
    | ReadLink
    | FlushNow(now: Time, sendOk: bool, mint: Id)
    | Revoke(now: Time)
    | PollLost
    | PollResult(result: WaiterLink)
    | ChildExit(code: int)
    | Ingest(now: Time, drain: Drain, mintSignal: Id, mintDelivery: Id, spawnOk: bool)
    | RevokeOld
    | DrainAfterAck(killOk: bool, drain: Drain, spawnOk: bool)
    | ClaimSuffix(now: Time, mintSignal: Id)
    | Stop(exit: int)
    | AttachArrives(request: WaiterLink)
    | PrepareAttach(now: Time, mint: Id)
    | CommitAttach(writeOk: bool)
    | AckArrives(ack: HandledCursor, now: Time)
    | Send

  function Init(base: Id, arm: KnownArm): Sys {
    Sys([], Some(Some(base)), Some(base), arm, Pipe.EMPTY_PIPE, None,
        AckRuns.Tally(Ack.WithArm(arm), [], 0), Admit.EMPTY_TABLE, [], Head, Idle, {}, {}, [])
  }

  /** The provider's answer: a leading part of the events after the cursor. */
  function Answer(log: seq<DrainedEvent>, after: Option<Id>, drain: Drain): Result<seq<DrainedEvent>, DrainError> {
    match drain
    case Refused(error) => Err(error)
    case Page(count) =>
      var rest := log[Covered(Ids(log), if after.Some? then after.value else "")..];
      Ok(rest[..if count <= |rest| then count else |rest|])
  }

  function WithStore(tally: AckRuns.Tally, store: Ack.Store): AckRuns.Tally {
    tally.(store := store)
  }

  /** `halt`: stop the child and drop the live link. */
  function HaltWith(s: Sys, exit: int): Sys {
    s.(child := None, table := s.table.(current := None), main := Halted(exit))
  }

  function DoAppend(s: Sys, event: DrainedEvent, base: Id): Sys {
    if event.id in Ids(s.log) || event.id == base then s else s.(log := s.log + [event])
  }

  /** Take the next message: adopt a still live attach, or apply an accepted ack. */
  function DoRecv(s: Sys): Sys {
    if !s.main.Head? || s.channel == [] then s
    else
      match s.channel[0]
      case Attached(next) =>
        s.(channel := s.channel[1..],
           main := if Pipe.RetainLive(next, s.table, s.served) then Adopting(next) else Head)
      case CoverageRearm(rearm) =>
        var (after, arm, pipe, taken) := Pipe.TakeRearm(s.after, s.arm, s.pipe, rearm);
        s.(channel := s.channel[1..], after := after, arm := arm, pipe := pipe,
           main := if taken then Restarting(rearm.generation) else Head)
  }

  function DoAdopt(s: Sys, now: Time, timeoutFailed: bool): Sys {
    if !s.main.Adopting? then s
    else
      var lost := s.served.Some? && s.served.value.session.Some?;
      s.(pipe := if lost then Pipe.MarkLost(s.pipe, now) else s.pipe,
         table := if lost then Admit.DropSession(s.table, s.served.value.session.value) else s.table,
         served := Some(s.main.next),
         main := if timeoutFailed then Revoking(true) else Flushing)
  }

  function DoReadLink(s: Sys): Sys {
    if !s.main.Flushing? then s else s.(main := FlushWith(s.table.current))
  }

  function DoFlush(s: Sys, now: Time, sendOk: bool, mint: Id): Sys {
    if !s.main.FlushWith? then s
    else if s.served.None? then s.(main := Head)
    else
      var (pipe, acks, revoke, sent) :=
        Pipe.Flush(s.main.link, s.pipe, s.tally.store, now, Pipe.Io(sendOk, None), mint);
      s.(pipe := pipe, tally := WithStore(s.tally, acks), main := if revoke then Revoking(true) else Head,
         frames := if sent.Some? && s.pipe.claim.Some?
                   then s.frames + [Frame(s.pipe.claim.value.generation, sent.value)] else s.frames)
  }

  /** `revoke_exact`. */
  function DoRevoke(s: Sys, now: Time): Sys {
    if !s.main.Revoking? then s
    else
      var session := if s.served.Some? then s.served.value.session else None;
      s.(pipe := if s.main.lost then Pipe.MarkLost(s.pipe, now) else s.pipe,
         table := if session.Some? then Admit.DropSession(s.table, session.value) else s.table,
         served := None, main := Head)
  }

  function DoPollResult(s: Sys, result: WaiterLink): Sys {
    if !s.main.Head? || s.served.None? then s
    else
      var (pipe, acks, applied) := Pipe.ApplyVisible(s.pipe, s.tally.store, result);
      s.(pipe := pipe, tally := WithStore(s.tally, acks),
         completed := if applied == Pipe.RevokeTerminal && result.DeliveryResult? && result.outcome == ReturnCompleted
                      then s.completed + {result.signalId} else s.completed,
         main := match applied
                 case Keep => Head
                 case RevokeLost => Revoking(true)
                 case RevokeTerminal => Revoking(false))
  }

  function DoChildExit(s: Sys, code: int): Sys {
    if !s.main.Head? || s.child.None? then s
    else s.(child := None, main := Ingesting(code, s.table.current))
  }

  /** What an ingest leaves: its claim, the store, and whether the page lost content. */
  function Ingested(s: Sys, wait: WaitResult, answer: Result<seq<DrainedEvent>, DrainError>,
                    link: Option<Admit.AdmittedLink>, now: Time, mintSignal: Id, mintDelivery: Id): (Sys, Pipe.Coverage)
  {
    var d := Pipe.IngestMatch(s.after, wait, answer, s.arm, link, now, s.pipe, s.tally.store, None,
                              mintSignal, mintDelivery);
    var lost := s.pipe.claim.None? && d.pipe.claim.Some? && answer.Ok? && Pipe.HasLoss(answer.value);
    (s.(pipe := d.pipe, tally := WithStore(s.tally, d.acks),
        lossy := if lost then s.lossy + {mintSignal} else s.lossy),
     d.outcome.coverage)
  }

  /** `poll_chanvoy` after the child exited. */
  function DoIngest(s: Sys, now: Time, drain: Drain, mintSignal: Id, mintDelivery: Id, spawnOk: bool): Sys {
    if !s.main.Ingesting? || mintSignal in s.tally.store.signals then s
    else
      var answer := Answer(s.log, s.after, drain);
      var (t, coverage) := Ingested(s, FromCode(s.main.code), answer, s.main.link, now, mintSignal, mintDelivery);
      match coverage
      case Rearm(after) =>
        if spawnOk then t.(after := Some(after), child := Some(Some(after)), main := Head)
        else HaltWith(t.(after := Some(after)), 2)
      case Pause => t.(main := Flushing)
      case Halt(exit) => HaltWith(t, exit)
  }

  function DoRevokeOld(s: Sys): Sys {
    if !s.main.Restarting? then s
    else
      var (served, table) := Pipe.RevokeOlder(s.served, s.table, s.main.generation);
      s.(served := served, table := table, main := Draining)
  }

  /** `restart_after_ack` from the reap on: drain first, spawn only on empty history. */
  function DoDrain(s: Sys, killOk: bool, drain: Drain, spawnOk: bool): Sys {
    if !s.main.Draining? then s
    else if !killOk then HaltWith(s, 2)
    else
      match Answer(s.log, s.after, drain)
      case Err(_) => HaltWith(s, 2)
      case Ok(page) =>
        if page != [] then s.(child := None, main := Claiming(page))
        else if spawnOk then s.(child := Some(s.after), main := Head)
        else HaltWith(s, 2)
  }

  function DoClaim(s: Sys, now: Time, mintSignal: Id): Sys {
    if !s.main.Claiming? || mintSignal in s.tally.store.signals then s
    else
      var (t, coverage) := Ingested(s, Matched, Ok(s.main.page), None, now, mintSignal, "");
      match coverage
      case Halt(exit) => HaltWith(t, exit)
      case _ => t.(main := Head)
  }

  function DoAttachArrives(s: Sys, request: WaiterLink): Sys {
    if !s.accept.Idle? then s
    else
      var arm := s.tally.store.arm;
      s.(accept := Deciding(request, if arm.Some? then [arm.value] else []))
  }

  function DoPrepare(s: Sys, now: Time, mint: Id): Sys {
    if !s.accept.Deciding? then s
    else
      var (table, r) := Admit.Prepare(s.table, s.accept.request, now, s.accept.arms, mint);
      s.(table := table, accept := if r.Ok? then Replying(r.value) else Idle)
  }

  function DoCommit(s: Sys, writeOk: bool): Sys {
    if !s.accept.Replying? then s
    else
      var (table, served) := Admit.CommitPrepared(s.table, s.accept.prepared, writeOk);
      s.(table := table, accept := if served.Some? then Sending(Attached(served.value)) else Idle)
  }

  /** Record an ack; a rearm is handed on only after the reply was attempted. */
  function DoAck(s: Sys, request: HandledCursor, now: Time): Sys {
    if !s.accept.Idle? then s
    else
      var tally := AckRuns.Count(s.tally, AckRuns.Handle(request, now));
      s.(tally := tally,
         accept := if |tally.rearms| > |s.tally.rearms| then Sending(CoverageRearm(tally.rearms[|tally.rearms| - 1]))
                   else Idle)
  }

  function DoSend(s: Sys): Sys {
    if !s.accept.Sending? then s else s.(channel := s.channel + [s.accept.event], accept := Idle)
  }

  function Do(s: Sys, base: Id, a: Action): Sys {
    match a
    case Append(event) => DoAppend(s, event, base)
    case Recv => DoRecv(s)
    case Adopt(now, timeoutFailed) => DoAdopt(s, now, timeoutFailed)
    case ReadLink => DoReadLink(s)
    case FlushNow(now, sendOk, mint) => DoFlush(s, now, sendOk, mint)
    case Revoke(now) => DoRevoke(s, now)
    case PollLost => if s.main.Head? && s.served.Some? then s.(main := Revoking(true)) else s
    case PollResult(result) => DoPollResult(s, result)
    case ChildExit(code) => DoChildExit(s, code)
    case Ingest(now, drain, mintSignal, mintDelivery, spawnOk) =>
      DoIngest(s, now, drain, mintSignal, mintDelivery, spawnOk)
    case RevokeOld => DoRevokeOld(s)
    case DrainAfterAck(killOk, drain, spawnOk) => DoDrain(s, killOk, drain, spawnOk)
    case ClaimSuffix(now, mintSignal) => DoClaim(s, now, mintSignal)
    case Stop(exit) => if s.main.Head? then HaltWith(s, exit) else s
    case AttachArrives(request) => DoAttachArrives(s, request)
    case PrepareAttach(now, mint) => DoPrepare(s, now, mint)
    case CommitAttach(writeOk) => DoCommit(s, writeOk)
    case AckArrives(ack, now) => DoAck(s, ack, now)
    case Send => DoSend(s)
  }

  function Run(s: Sys, base: Id, actions: seq<Action>): Sys
    decreases |actions|
  {
    if actions == [] then s else Do(Run(s, base, actions[..|actions| - 1]), base, actions[|actions| - 1])
  }
}
