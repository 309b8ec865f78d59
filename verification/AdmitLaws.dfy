/** Exactly when a waiter is admitted, and what each refusal of an attach says. */
module AdmitLaws {
  import opened Prelude
  import opened Messages
  import opened Admit

  /** The arm the request is for, when it is among the known ones. */
  ghost predicate Finds(arms: seq<KnownArm>, armId: Id, arm: KnownArm) {
    exists i :: && 0 <= i < |arms| && arms[i] == arm && arm.armId == armId
                && forall j :: 0 <= j < i ==> arms[j].armId != armId
  }

  lemma FindsLater(arms: seq<KnownArm>, armId: Id, arm: KnownArm)
    requires arms != [] && arms[0].armId != armId
    ensures Finds(arms, armId, arm) <==> Finds(arms[1..], armId, arm)
  {
    var rest := arms[1..];
    assert forall j :: 0 < j < |arms| ==> arms[j] == rest[j - 1];
    if i :| && 0 <= i < |rest| && rest[i] == arm && arm.armId == armId
            && forall j :: 0 <= j < i ==> rest[j].armId != armId {
      assert arms[i + 1] == arm;
    }
    if i :| && 0 <= i < |arms| && arms[i] == arm && arm.armId == armId
            && forall j :: 0 <= j < i ==> arms[j].armId != armId {
      assert rest[i - 1] == arm;
      assert forall j :: 0 <= j < i - 1 ==> rest[j] == arms[j + 1];
    }
  }

  lemma FindsHere(arms: seq<KnownArm>, armId: Id, arm: KnownArm)
    requires arms != [] && arms[0].armId == armId
    ensures Finds(arms, armId, arm) <==> arm == arms[0]
  {
  }

  lemma {:induction false} FindIsFirst(arms: seq<KnownArm>, armId: Id, arm: KnownArm)
    ensures FindArm(arms, armId) == Some(arm) <==> Finds(arms, armId, arm)
  {
    if arms == [] {
      assert !Finds(arms, armId, arm);
    } else {
      hide Finds;
      if arms[0].armId == armId {
        FindsHere(arms, armId, arm);
      } else {
        FindsLater(arms, armId, arm);
        FindIsFirst(arms[1..], armId, arm);
      }
    }
  }

  predicate Matches(arm: KnownArm, request: WaiterLink)
    requires request.AttachWaiter?
  {
    arm.generation == request.generation && arm.seatId == request.seatId && arm.route == request.route
  }

  /** Nothing stands in the way of a link. */
  ghost predicate MayAttach(t: Table, request: WaiterLink, now: Time, arm: KnownArm)
    requires request.AttachWaiter?
  {
    Matches(arm, request) && now < arm.coverageUntil && t.current.None?
  }

  /** The fact a refusal code states. */
  ghost predicate Explains(t: Table, request: WaiterLink, now: Time, arms: seq<KnownArm>, code: AttachCode)
    requires request.AttachWaiter?
  {
    if code == ArmUnknown then forall i :: 0 <= i < |arms| ==> arms[i].armId != request.armId
    else
      exists arm ::
        && Finds(arms, request.armId, arm)
        && match code
           case GenerationStale => arm.generation != request.generation
           case RouteMismatch =>
             arm.generation == request.generation && (arm.seatId != request.seatId || arm.route != request.route)
           case CoverageEnded => Matches(arm, request) && now >= arm.coverageUntil
           case _ => Matches(arm, request) && now < arm.coverageUntil && t.current.Some?
  }

  /** The link a granted request gets: its own coordinates, a lease of ten minutes or to the
      end of coverage, and a reply that says so. */
  ghost predicate Grants(request: WaiterLink, now: Time, arm: KnownArm, mint: Id, link: AdmittedLink, reply: WaiterLink)
    requires request.AttachWaiter?
  {
    && link.leaseUntil == (if now + LEASE <= arm.coverageUntil then now + LEASE else arm.coverageUntil)
    && reply == AttachAccepted(request.requestId, mint, request.armId, request.generation, request.route, Some(now),
                               Some(link.leaseUntil))
    && link.requestId == request.requestId && link.linkId == mint && link.armId == request.armId
    && link.generation == request.generation && link.waiterId == request.waiterId && link.route == request.route
    && link.request == request && link.lastAccepted == reply
  }

  /** Main result: a new valid request is granted exactly when its arm is known and of the
      request's generation, seat and route, coverage lasts, and no link is live; otherwise
      the refusal carries the one code that explains it. */
  lemma AttachIsExact(t: Table, request: WaiterLink, now: Time, arms: seq<KnownArm>, mint: Id)
    requires ValidLink(request) && request.AttachWaiter? && IsUlid(mint)
    requires request.requestId !in t.history && |t.history| < HISTORY_CAP
    ensures var r := Decide(t, request, now, arms, mint);
            && r.Ok?
            && (r.value.Accept? <==>
                  exists arm :: Finds(arms, request.armId, arm) && MayAttach(t, request, now, arm))
            && (r.value.Accept? ==>
                  exists arm :: Finds(arms, request.armId, arm)
                                && Grants(request, now, arm, mint, r.value.link, r.value.reply))
            && (forall code ::
                  r.value == Reject(request, AttachRejected(request.requestId, code, Some(now)))
                  <==> Explains(t, request, now, arms, code))
  {
    var found := FindArm(arms, request.armId);
    forall arm ensures Finds(arms, request.armId, arm) <==> found == Some(arm) {
      FindIsFirst(arms, request.armId, arm);
    }
    assert IsUlid(request.requestId) && IsUlid(request.armId) && request.generation >= 1;
    assert IsAttachedRoute(request.route);
    hide IsUlid, IsSeat, IsAttachedRoute, Finds, FindArm;
  }

  /** When nothing is decided: a malformed message, another family member, a request id used
      for something else, a full history. */
  lemma NoDecision(t: Table, request: WaiterLink, now: Time, arms: seq<KnownArm>, mint: Id)
    requires IsUlid(mint)
    ensures var r := Decide(t, request, now, arms, mint);
            && (r == Err(Invalid) <==> !ValidLink(request))
            && (r == Err(ExpectedAttach) <==> ValidLink(request) && !request.AttachWaiter?)
            && (r == Err(RequestIdConflict) <==>
                  && ValidLink(request) && request.AttachWaiter? && request.requestId in t.history
                  && t.history[request.requestId].request != request)
            && (r == Err(HistoryFull) <==>
                  && ValidLink(request) && request.AttachWaiter? && request.requestId !in t.history
                  && |t.history| >= HISTORY_CAP)
            && (r.Err? ==> r.error in {Invalid, ExpectedAttach, RequestIdConflict, HistoryFull})
  {
    if ValidLink(request) && request.AttachWaiter? {
      assert IsUlid(request.requestId) && IsUlid(request.armId) && request.generation >= 1;
      assert IsAttachedRoute(request.route);
    }
    hide IsUlid, IsSeat, IsAttachedRoute, IsEvent, Distinct;
  }

  /** A granted link is live, and its reply recorded, once that reply was written and if no
      link of a later generation came first; an unwritten reply leaves no trace. */
  lemma GrantGoesLive(t: Table, prepared: Prepared, link: AdmittedLink)
    requires prepared.pending == CommitAccept(link)
    ensures CommitPrepared(t, prepared, false) == (t, None)
    ensures var (u, served) := CommitPrepared(t, prepared, true);
            if t.current.None? || t.current.value.generation <= link.generation then
              && u.current == Some(link) && served == Some(Served(prepared.reply, prepared.session))
              && u.history == t.history[link.requestId := Record(link.request, link.lastAccepted)]
            else u == t && served.None?
  {
  }

  /** A link stands in the way only while its lease lasts: deciding first drops one whose lease
      is over, and no other. */
  lemma OverIsNoLink(t: Table, request: WaiterLink, now: Time, arms: seq<KnownArm>, mint: Id)
    requires ValidLink(request) && request.AttachWaiter? && IsUlid(mint)
    requires request.requestId !in t.history && |t.history| < HISTORY_CAP
    ensures var (u, r) := Prepare(t, request, now, arms, mint);
            && u.history == t.history
            && u.current == (if t.current.Some? && now < t.current.value.leaseUntil then t.current else None)
            && r.Ok?
            && (r.value.pending.CommitAccept? <==>
                  && u.current.None?
                  && exists arm :: Finds(arms, request.armId, arm) && Matches(arm, request) && now < arm.coverageUntil)
  {
    var (u, r) := Prepare(t, request, now, arms, mint);
    AttachIsExact(u, request, now, arms, mint);
    hide Decide, Finds, Explains, Matches;
  }

  lemma AnswerIsRecorded(t: Table, request: WaiterLink, now: Time, arms: seq<KnownArm>, mint: Id)
    requires Prepare(t, request, now, arms, mint).1.Ok?
    ensures var (t1, r) := Prepare(t, request, now, arms, mint);
            var (u, served) := CommitPrepared(t1, r.value, true);
            && served == Some(Served(r.value.reply, r.value.session))
            && ValidLink(request) && request.AttachWaiter? && request.requestId in u.history
            && u.history[request.requestId] == Record(request, r.value.reply)
  {
    hide ValidLink, FindArm;
  }

  /** Main result: a written answer stands. Asked again at any time, with any arms known, the
      same request is answered with it, and is served exactly while the link it got is the
      live one and its lease lasts. */
  lemma SameAnswerAgain(t: Table, request: WaiterLink, now: Time, arms: seq<KnownArm>, mint: Id, later: Time,
                        arms2: seq<KnownArm>, mint2: Id)
    requires Prepare(t, request, now, arms, mint).1.Ok?
    ensures var (t1, r) := Prepare(t, request, now, arms, mint);
            var (u, served) := CommitPrepared(t1, r.value, true);
            var again := Decide(u, request, later, arms2, mint2);
            && served == Some(Served(r.value.reply, r.value.session))
            && again.Ok? && again.value.Replay? && again.value.reply == r.value.reply
            && again.value.session == if u.current.Some? && u.current.value.requestId == request.requestId
                                         && later < u.current.value.leaseUntil
                                      then Some(SessionOf(u.current.value)) else None
  {
    AnswerIsRecorded(t, request, now, arms, mint);
    hide ValidLink, FindArm, Prepare, CommitPrepared;
  }
}
