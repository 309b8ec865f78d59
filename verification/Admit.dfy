/**
 Admission of one return link per arm and generation: `Table` is the value of a
 `LinkTable`. An attach is decided first and committed only after its reply was written,
 so a decision can be in flight while other threads drop links.
 */
module Admit {
  import opened Prelude
  import opened Messages

  /** Ten minutes, in nanoseconds. */
  const LEASE: Time := 600_000_000_000

  datatype AttachError = Invalid | ExpectedAttach | RequestIdConflict | HistoryFull

  datatype AdmittedLink = AdmittedLink(
    requestId: Id, linkId: Id, armId: Id, generation: nat, waiterId: Id, leaseUntil: Time,
    route: string, request: WaiterLink, lastAccepted: WaiterLink)

  datatype LinkSession = LinkSession(linkId: Id, armId: Id, generation: nat)

  datatype Record = Record(request: WaiterLink, reply: WaiterLink)

  datatype Table = Table(current: Option<AdmittedLink>, history: map<Id, Record>)

  datatype Decision =
    | Accept(link: AdmittedLink, reply: WaiterLink)
    | Replay(reply: WaiterLink, session: Option<LinkSession>)
    | Reject(request: WaiterLink, reply: WaiterLink)

  datatype PendingCommit =
    | CommitAccept(link: AdmittedLink)
    | CommitReject(request: WaiterLink, reply: WaiterLink)
    | CommitNothing

  datatype Prepared = Prepared(
    reply: WaiterLink, session: Option<LinkSession>, leaseUntil: Option<Time>,
    pending: PendingCommit, decisionNow: Time)

  datatype Served = Served(reply: WaiterLink, session: Option<LinkSession>)

  const EMPTY_TABLE := Table(None, map[])

  function SessionOf(link: AdmittedLink): LinkSession {
    LinkSession(link.linkId, link.armId, link.generation)
  }

  function DropSession(t: Table, session: LinkSession): Table {
    if t.current.Some? && SessionOf(t.current.value) == session then t.(current := None) else t
  }

  function DropExpired(t: Table, now: Time): Table {
    if t.current.Some? && now >= t.current.value.leaseUntil then t.(current := None) else t
  }

  function FindArm(arms: seq<KnownArm>, armId: Id): (found: Option<KnownArm>)
    ensures found.Some? ==> found.value in arms && found.value.armId == armId
    ensures found.None? <==> forall i :: 0 <= i < |arms| ==> arms[i].armId != armId
  {
    if arms == [] then None
    else if arms[0].armId == armId then Some(arms[0])
    else FindArm(arms[1..], armId)
  }

  function Min(a: Time, b: Time): Time {
    if a <= b then a else b
  }

  function Refuse(request: WaiterLink, code: AttachCode, now: Time): Result<Decision, AttachError>
    requires request.AttachWaiter?
  {
    var reply := AttachRejected(request.requestId, code, Some(now));
    if ValidLink(reply) then Ok(Reject(request, reply)) else Err(Invalid)
  }

  /** `decide_attach`; `mint` is the fresh link id. */
  function Decide(t: Table, request: WaiterLink, now: Time, arms: seq<KnownArm>, mint: Id)
    : Result<Decision, AttachError>
  {
    if !ValidLink(request) then Err(Invalid)
    else if !request.AttachWaiter? then Err(ExpectedAttach)
    else if request.requestId in t.history then
      var record := t.history[request.requestId];
      if record.request != request then Err(RequestIdConflict)
      else
        var live := t.current.Some? && t.current.value.requestId == request.requestId
                    && now < t.current.value.leaseUntil;
        Ok(Replay(record.reply, if live then Some(SessionOf(t.current.value)) else None))
    else if |t.history| >= HISTORY_CAP then Err(HistoryFull)
    else match FindArm(arms, request.armId)
      case None => Refuse(request, ArmUnknown, now)
      case Some(arm) =>
        if arm.generation != request.generation then Refuse(request, GenerationStale, now)
        else if arm.seatId != request.seatId || arm.route != request.route then
          Refuse(request, RouteMismatch, now)
        else if now >= arm.coverageUntil then Refuse(request, CoverageEnded, now)
        else if t.current.Some? then Refuse(request, AlreadyAttached, now)
        else
          var leaseUntil := Min(now + LEASE, arm.coverageUntil);
          var reply := AttachAccepted(request.requestId, mint, request.armId, request.generation,
                                      request.route, Some(now), Some(leaseUntil));
          if !ValidLink(reply) then Err(Invalid)
          else
            Ok(Accept(AdmittedLink(request.requestId, mint, request.armId, request.generation,
                                   request.waiterId, leaseUntil, request.route, request, reply),
                      reply))
  }

  function CommitAttach(t: Table, link: AdmittedLink): Table {
    Table(Some(link), t.history[link.requestId := Record(link.request, link.lastAccepted)])
  }

  function CommitRejected(t: Table, request: WaiterLink, reply: WaiterLink): Table {
    if request.AttachWaiter? then t.(history := t.history[request.requestId := Record(request, reply)])
    else t
  }

  /** `prepare_attach`: may drop an expired link, decides, commits nothing. */
  function Prepare(t: Table, request: WaiterLink, now: Time, arms: seq<KnownArm>, mint: Id)
    : (Table, Result<Prepared, AttachError>)
  {
    var t' := DropExpired(t, now);
    match Decide(t', request, now, arms, mint)
    case Err(e) => (t', Err(e))
    case Ok(Accept(link, reply)) =>
      (t', Ok(Prepared(reply, Some(SessionOf(link)), Some(link.leaseUntil), CommitAccept(link), now)))
    case Ok(Replay(reply, session)) =>
      var leaseUntil := if t'.current.Some? then Some(t'.current.value.leaseUntil) else None;
      (t', Ok(Prepared(reply, session, leaseUntil, CommitNothing, now)))
    case Ok(Reject(request, reply)) =>
      (t', Ok(Prepared(reply, None, None, CommitReject(request, reply), now)))
  }

  /** `commit_prepared_attach`; `writeOk` says whether the reply was written. */
  function CommitPrepared(t: Table, prepared: Prepared, writeOk: bool): (Table, Option<Served>) {
    if !writeOk then (t, None)
    else
      match prepared.pending
      case CommitAccept(link) =>
        if t.current.Some? && t.current.value.generation > link.generation then (t, None)
        else (CommitAttach(t, link), Some(Served(prepared.reply, prepared.session)))
      case CommitReject(request, reply) =>
        (CommitRejected(t, request, reply), Some(Served(prepared.reply, prepared.session)))
      case CommitNothing => (t, Some(Served(prepared.reply, prepared.session)))
  }

  /** `admit_attach`: decide and commit without a reply in between. */
  function AdmitAttach(t: Table, request: WaiterLink, now: Time, arms: seq<KnownArm>, mint: Id)
    : (Table, Result<WaiterLink, AttachError>)
  {
    var t' := DropExpired(t, now);
    match Decide(t', request, now, arms, mint)
    case Err(e) => (t', Err(e))
    case Ok(Accept(link, reply)) => (CommitAttach(t', link), Ok(reply))
    case Ok(Replay(reply, _)) => (t', Ok(reply))
    case Ok(Reject(request, reply)) => (CommitRejected(t', request, reply), Ok(reply))
  }
}

/** The admission table as the daemon holds it, updated in place. */
module LinkTables {
  import opened Prelude
  import opened Messages
  import opened Admit

  class LinkTable {
    var current: Option<AdmittedLink>
    var history: map<Id, Record>

    function State(): Table
      reads this
    {
      Table(current, history)
    }

    constructor ()
      ensures State() == EMPTY_TABLE
    {
      current := None;
      history := map[];
    }

    method DropCurrent()
      modifies this
      ensures State() == old(State()).(current := None)
    {
      current := None;
    }

    method DropSession(session: LinkSession)
      modifies this
      ensures State() == Admit.DropSession(old(State()), session)
    {
      if current.Some? && current.value.linkId == session.linkId
         && current.value.armId == session.armId && current.value.generation == session.generation {
        current := None;
      }
    }

    method DropExpired(now: Time)
      modifies this
      ensures State() == Admit.DropExpired(old(State()), now)
    {
      if current.Some? && now >= current.value.leaseUntil {
        current := None;
      }
    }

    method CommitAttach(link: AdmittedLink)
      modifies this
      ensures State() == Admit.CommitAttach(old(State()), link)
    {
      history := history[link.requestId := Record(link.request, link.lastAccepted)];
      current := Some(link);
    }

    method CommitRejected(request: WaiterLink, reply: WaiterLink)
      modifies this
      ensures State() == Admit.CommitRejected(old(State()), request, reply)
    {
      if request.AttachWaiter? {
        history := history[request.requestId := Record(request, reply)];
      }
    }

    method Prepare(request: WaiterLink, now: Time, arms: seq<KnownArm>, mint: Id)
      returns (r: Result<Prepared, AttachError>)
      modifies this
      ensures (State(), r) == Admit.Prepare(old(State()), request, now, arms, mint)
    {
      DropExpired(now);
      match Decide(State(), request, now, arms, mint)
      case Err(e) => return Err(e);
      case Ok(Accept(link, reply)) =>
        return Ok(Prepared(reply, Some(SessionOf(link)), Some(link.leaseUntil), CommitAccept(link), now));
      case Ok(Replay(reply, session)) =>
        var leaseUntil := if current.Some? then Some(current.value.leaseUntil) else None;
        return Ok(Prepared(reply, session, leaseUntil, CommitNothing, now));
      case Ok(Reject(refused, reply)) =>
        return Ok(Prepared(reply, None, None, CommitReject(refused, reply), now));
    }

    method CommitPrepared(prepared: Prepared, writeOk: bool) returns (r: Option<Served>)
      modifies this
      ensures (State(), r) == Admit.CommitPrepared(old(State()), prepared, writeOk)
    {
      if !writeOk {
        return None;
      }
      match prepared.pending
      case CommitAccept(link) =>
        if current.Some? && current.value.generation > link.generation {
          return None;
        }
        CommitAttach(link);
        return Some(Served(prepared.reply, prepared.session));
      case CommitReject(request, reply) =>
        CommitRejected(request, reply);
        return Some(Served(prepared.reply, prepared.session));
      case CommitNothing =>
        return Some(Served(prepared.reply, prepared.session));
    }

    method AdmitAttach(request: WaiterLink, now: Time, arms: seq<KnownArm>, mint: Id)
      returns (r: Result<WaiterLink, AttachError>)
      modifies this
      ensures (State(), r) == Admit.AdmitAttach(old(State()), request, now, arms, mint)
    {
      DropExpired(now);
      match Decide(State(), request, now, arms, mint)
      case Err(e) => return Err(e);
      case Ok(Accept(link, reply)) =>
        CommitAttach(link);
        return Ok(reply);
      case Ok(Replay(reply, _)) => return Ok(reply);
      case Ok(Reject(refused, reply)) =>
        CommitRejected(refused, reply);
        return Ok(reply);
    }
  }
}
