/**
 One accept loop over a link table, with other threads dropping links at any moment.

 The loop serves one connection at a time: it prepares an attach, writes the reply, and
 commits. `Loop` holds the table and the attach in flight, if any.
 */
module AdmitRuns {
  import opened Prelude
  import opened Messages
  import opened Admit

  datatype Loop = Loop(table: Table, inflight: Option<Prepared>)

  datatype Op =
    | Begin(request: WaiterLink, now: Time, arms: seq<KnownArm>, mint: Id)
    | Finish(writeOk: bool)
    | Drop(session: LinkSession)
    | Expire(now: Time)
    | DropAny

  function Do(l: Loop, op: Op): Loop {
    match op
    case Begin(request, now, arms, mint) =>
      if l.inflight.Some? then l
      else
        var (t, r) := Prepare(l.table, request, now, arms, mint);
        Loop(t, if r.Ok? then Some(r.value) else None)
    case Finish(writeOk) =>
      if l.inflight.None? then l
      else Loop(CommitPrepared(l.table, l.inflight.value, writeOk).0, None)
    case Drop(session) => l.(table := DropSession(l.table, session))
    case Expire(now) => l.(table := DropExpired(l.table, now))
    case DropAny => l.(table := l.table.(current := None))
  }

  function Run(l: Loop, ops: seq<Op>): Loop
    decreases |ops|
  {
    if ops == [] then l else Do(Run(l, ops[..|ops| - 1]), ops[|ops| - 1])
  }

  const START := Loop(EMPTY_TABLE, None)

  /** The lease ends after admission, within ten minutes, and by the end of coverage. */
  ghost predicate BoundedLease(link: AdmittedLink, coverage: Time) {
    && link.lastAccepted.AttachAccepted?
    && link.lastAccepted.leaseUntil == Some(link.leaseUntil)
    && link.lastAccepted.acceptedAt.Some?
    && link.lastAccepted.acceptedAt.value < link.leaseUntil
    && link.leaseUntil <= link.lastAccepted.acceptedAt.value + LEASE
    && link.leaseUntil <= coverage
  }

  /** A link grants what its request asked for, under the id its reply names. */
  ghost predicate GoodLink(link: AdmittedLink, coverage: Time) {
    && BoundedLease(link, coverage)
    && link.request.AttachWaiter? && ValidLink(link.request)
    && link.request.requestId == link.requestId == link.lastAccepted.requestId
    && link.linkId == link.lastAccepted.linkId
    && link.request.armId == link.armId == link.lastAccepted.armId
    && link.request.generation == link.generation == link.lastAccepted.generation
    && link.request.route == link.route == link.lastAccepted.route
  }

  ghost predicate GoodRecord(rid: Id, record: Record) {
    && record.request.AttachWaiter? && record.request.requestId == rid
    && (record.reply.AttachAccepted? || record.reply.AttachRejected?)
    && record.reply.requestId == rid
  }

  ghost predicate GoodInflight(t: Table, p: Prepared, coverage: Time) {
    match p.pending
    case CommitAccept(link) =>
      && t.current.None? && link.requestId !in t.history && |t.history| < HISTORY_CAP
      && GoodLink(link, coverage)
      && p.reply == link.lastAccepted && p.session == Some(SessionOf(link))
    case CommitReject(request, reply) =>
      && request.AttachWaiter? && request.requestId !in t.history && |t.history| < HISTORY_CAP
      && GoodRecord(request.requestId, Record(request, reply))
      && p.reply == reply && p.session.None?
    case CommitNothing => true
  }

  ghost predicate Good(l: Loop, coverage: Time) {
    && |l.table.history| <= HISTORY_CAP
    && (forall rid | rid in l.table.history :: GoodRecord(rid, l.table.history[rid]))
    && (l.table.current.Some? ==>
          var link := l.table.current.value;
          && GoodLink(link, coverage)
          && link.requestId in l.table.history
          && l.table.history[link.requestId] == Record(link.request, link.lastAccepted))
    && (l.inflight.Some? ==> GoodInflight(l.table, l.inflight.value, coverage))
  }

  /** Every arm an attach is decided against stops being covered by `coverage`. */
  ghost predicate Covered(op: Op, coverage: Time) {
    op.Begin? ==> forall i :: 0 <= i < |op.arms| ==> op.arms[i].coverageUntil <= coverage
  }

  /** What `decide_attach` promises about each decision. */
  lemma DecisionMeans(t: Table, request: WaiterLink, now: Time, arms: seq<KnownArm>, mint: Id, coverage: Time)
    requires forall i :: 0 <= i < |arms| ==> arms[i].coverageUntil <= coverage
    requires Decide(t, request, now, arms, mint).Ok?
    ensures request.AttachWaiter? && ValidLink(request)
    ensures match Decide(t, request, now, arms, mint).value
            case Accept(link, reply) =>
              && t.current.None? && request.requestId !in t.history && |t.history| < HISTORY_CAP
              && GoodLink(link, coverage) && link.request == request && link.lastAccepted == reply
              && link.linkId == mint && link.lastAccepted.acceptedAt == Some(now)
              && exists i :: 0 <= i < |arms| && arms[i].armId == link.armId
                             && arms[i].generation == link.generation && arms[i].route == link.route
            case Reject(refused, reply) =>
              && refused == request && request.requestId !in t.history && |t.history| < HISTORY_CAP
              && GoodRecord(request.requestId, Record(refused, reply)) && reply.AttachRejected?
            case Replay(reply, session) =>
              && request.requestId in t.history && t.history[request.requestId] == Record(request, reply)
              && (session.Some? <==> t.current.Some? && t.current.value.requestId == request.requestId
                                     && now < t.current.value.leaseUntil)
              && (session.Some? ==> session.value == SessionOf(t.current.value))
  {
    if request.requestId !in t.history {
      var found := FindArm(arms, request.armId);
      if found.Some? {
        assert found.value in arms;
      }
    }
  }

  lemma BeginKeepsGood(l: Loop, request: WaiterLink, now: Time, arms: seq<KnownArm>, mint: Id, coverage: Time)
    requires Good(l, coverage)
    requires forall i :: 0 <= i < |arms| ==> arms[i].coverageUntil <= coverage
    ensures Good(Do(l, Begin(request, now, arms, mint)), coverage)
  {
    var t := DropExpired(l.table, now);
    var decision := Decide(t, request, now, arms, mint);
    if l.inflight.None? && decision.Ok? {
      DecisionMeans(t, request, now, arms, mint, coverage);
      hide Decide, ValidLink;
    }
  }

  lemma AddRecord(t: Table, rid: Id, record: Record)
    requires rid !in t.history && |t.history| < HISTORY_CAP && GoodRecord(rid, record)
    requires forall k | k in t.history :: GoodRecord(k, t.history[k])
    ensures var h := t.history[rid := record];
            |h| <= HISTORY_CAP && forall k | k in h :: GoodRecord(k, h[k])
  {
    var h := t.history[rid := record];
    assert h.Keys == t.history.Keys + {rid};
    assert |h| == |h.Keys| && |t.history| == |t.history.Keys|;
  }

  lemma FinishKeepsGood(l: Loop, writeOk: bool, coverage: Time)
    requires Good(l, coverage)
    ensures Good(Do(l, Finish(writeOk)), coverage)
  {
    if l.inflight.Some? && writeOk {
      match l.inflight.value.pending
      case CommitAccept(link) =>
        AddRecord(l.table, link.requestId, Record(link.request, link.lastAccepted));
        hide ValidLink, BoundedLease, GoodRecord;
      case CommitReject(request, reply) =>
        AddRecord(l.table, request.requestId, Record(request, reply));
        hide ValidLink, BoundedLease, GoodRecord;
        assert Do(l, Finish(true)).inflight.None?;
      case CommitNothing =>
    }
  }

  lemma StepKeepsGood(l: Loop, op: Op, coverage: Time)
    requires Good(l, coverage) && Covered(op, coverage)
    ensures Good(Do(l, op), coverage)
  {
    match op
    case Begin(request, now, arms, mint) => BeginKeepsGood(l, request, now, arms, mint, coverage);
    case Finish(writeOk) => FinishKeepsGood(l, writeOk, coverage);
    case _ =>
  }

  /** A committed outcome is never changed or forgotten. */
  ghost predicate Remembers(t: Table, u: Table) {
    forall rid | rid in t.history :: rid in u.history && u.history[rid] == t.history[rid]
  }

  lemma StepRemembers(l: Loop, op: Op, coverage: Time)
    requires Good(l, coverage) && Covered(op, coverage)
    ensures Remembers(l.table, Do(l, op).table)
  {
    hide ValidLink, Decide;
  }

  /** Main result: admission over every run, from an empty table. */
  lemma {:induction false} AdmissionRuns(ops: seq<Op>, coverage: Time)
    requires forall i | 0 <= i < |ops| :: Covered(ops[i], coverage)
    ensures Good(Run(START, ops), coverage)
    decreases |ops|
  {
    if ops != [] {
      AdmissionRuns(ops[..|ops| - 1], coverage);
      StepKeepsGood(Run(START, ops[..|ops| - 1]), ops[|ops| - 1], coverage);
    }
  }

  /** Main result: a committed reply for a request id never changes. */
  lemma {:induction false} RepliesNeverChange(l: Loop, ops: seq<Op>, coverage: Time)
    requires Good(l, coverage)
    requires forall i | 0 <= i < |ops| :: Covered(ops[i], coverage)
    ensures Good(Run(l, ops), coverage) && Remembers(l.table, Run(l, ops).table)
    decreases |ops|
  {
    if ops != [] {
      var mid := Run(l, ops[..|ops| - 1]);
      RepliesNeverChange(l, ops[..|ops| - 1], coverage);
      StepKeepsGood(mid, ops[|ops| - 1], coverage);
      StepRemembers(mid, ops[|ops| - 1], coverage);
    }
  }

  /** Main result: whatever was dropped while the reply was written, a commit that makes a
      link live displaces none; and a live link is replaced only after it was dropped. */
  lemma CommitDisplacesNothing(ops: seq<Op>, op: Op, coverage: Time)
    requires forall i | 0 <= i < |ops| :: Covered(ops[i], coverage)
    requires Covered(op, coverage)
    ensures var l := Run(START, ops);
            var next := Do(l, op).table.current;
            && (l.table.current.Some? ==> next == l.table.current || next.None?)
            && (next.Some? && next != l.table.current ==>
                  && l.table.current.None? && op == Finish(true)
                  && l.inflight.Some? && l.inflight.value.pending == CommitAccept(next.value))
  {
    AdmissionRuns(ops, coverage);
    hide Run;
    CurrentChanges(Run(START, ops), op, coverage);
  }

  lemma CurrentChanges(l: Loop, op: Op, coverage: Time)
    requires Good(l, coverage)
    ensures var next := Do(l, op).table.current;
            && (l.table.current.Some? ==> next == l.table.current || next.None?)
            && (next.Some? && next != l.table.current ==>
                  && l.table.current.None? && op == Finish(true)
                  && l.inflight.Some? && l.inflight.value.pending == CommitAccept(next.value))
  {
    hide ValidLink, Decide, GoodLink, GoodRecord;
  }

  /** Main result: a replayed attach yields a session only for the link that is still live
      and unexpired, and always yields one then. */
  lemma ReplaySessionIsLive(l: Loop, request: WaiterLink, now: Time, arms: seq<KnownArm>, mint: Id, coverage: Time)
    requires Good(l, coverage) && l.inflight.None?
    requires forall i :: 0 <= i < |arms| ==> arms[i].coverageUntil <= coverage
    requires ValidLink(request) && request.AttachWaiter? && request.requestId in l.table.history
    requires l.table.history[request.requestId].request == request
    ensures var next := Do(l, Begin(request, now, arms, mint));
            && next.inflight.Some? && next.inflight.value.pending == CommitNothing
            && next.inflight.value.reply == l.table.history[request.requestId].reply
            && (next.inflight.value.session.Some? <==>
                  l.table.current.Some? && l.table.current.value.requestId == request.requestId
                  && now < l.table.current.value.leaseUntil)
            && (next.inflight.value.session.Some? ==>
                  next.table.current == l.table.current
                  && next.inflight.value.session.value == SessionOf(l.table.current.value))
            && Do(next, Finish(true)).table == next.table
  {
  }

  /** Admitting at once is preparing and committing with a written reply in between. */
  lemma AdmitIsPrepareThenCommit(t: Table, request: WaiterLink, now: Time, arms: seq<KnownArm>, mint: Id)
    ensures var (prepared, p) := Prepare(t, request, now, arms, mint);
            AdmitAttach(t, request, now, arms, mint)
            == if p.Err? then (prepared, Err(p.error))
               else (CommitPrepared(prepared, p.value, true).0, Ok(p.value.reply))
  {
    var t' := DropExpired(t, now);
    if Decide(t', request, now, arms, mint).Ok? && Decide(t', request, now, arms, mint).value.Accept? {
      assert t'.current.None?;
    }
    hide ValidLink;
  }
}
