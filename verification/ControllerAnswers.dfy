/** Exactly when a lane is granted, a turn reserved, and a write's outcome known, in terms of
    what was read. */
module ControllerAnswers {
  import opened Prelude
  import Sanitize
  import opened Transport
  import opened TransportProofs
  import opened TransportRuns
  import opened TransportReplies
  import opened Controllers
  import opened ControllerProofs
  import opened ControllerTurn

  // ----- what a thread report says -----

  predicate IsIdentified(id: Option<string>) {
    id.Some? && id.value != "" && Sanitize.Bytes(id.value) <= MAX_NATIVE_REF
  }

  /** An identified turn that completed, was interrupted, or failed. */
  predicate IsOver(turn: TurnJson) {
    IsIdentified(turn.id) && turn.status in {Some("completed"), Some("interrupted"), Some("failed")}
  }

  predicate Names(body: ResultJson, thread: string) {
    body.threadState.Some? && body.threadState.value.id == thread && IsIdentified(Some(thread))
  }

  predicate HasKind(thread: ThreadJson, kind: string) {
    thread.status.Some? && thread.status.value.kind == kind
  }

  predicate AllOver(turns: seq<TurnJson>) {
    forall i :: 0 <= i < |turns| ==> IsOver(turns[i])
  }

  /** `turn` is in progress, and every other turn is over. */
  ghost predicate OnlyInProgress(turns: seq<TurnJson>, turn: string) {
    exists k: nat :: && k < |turns| && turns[k] == TurnJson(Some(turn), Some("inProgress"))
                     && IsIdentified(Some(turn))
                     && forall i :: 0 <= i < |turns| && i != k ==> IsOver(turns[i])
  }

  predicate OnlyWaits(flags: seq<string>) {
    forall i :: 0 <= i < |flags| ==> flags[i] in {"waitingOnApproval", "waitingOnUserInput"}
  }

  /** The thread, of status "idle", with few turns, all of them over. */
  predicate SaysIdle(body: ResultJson, thread: string) {
    && Names(body, thread)
    && var t := body.threadState.value;
       HasKind(t, "idle") && t.turns.Some? && |t.turns.value| <= MAX_QUEUE && AllOver(t.turns.value)
  }

  /** The thread, of status "active" and waiting for nothing but approval or input, with few
      turns, all over but `turn`, which is in progress. */
  ghost predicate SaysActive(body: ResultJson, thread: string, turn: string) {
    && Names(body, thread)
    && var t := body.threadState.value;
       && HasKind(t, "active") && t.status.value.activeFlags.Some? && OnlyWaits(t.status.value.activeFlags.value)
       && t.turns.Some? && |t.turns.value| <= MAX_QUEUE && OnlyInProgress(t.turns.value, turn)
  }

  lemma OverMeans(turns: seq<TurnJson>)
    ensures AllOver(turns) <==> AllDone(turns)
  {
    assert forall t: TurnJson :: HasRef(t) && IsDone(t.status) <==> IsOver(t);
  }

  lemma ActiveMeans(turns: seq<TurnJson>, turn: string)
    ensures ActiveAmong(turns, None) == Some(turn) <==> OnlyInProgress(turns, turn)
  {
    ActiveIsUnique(turns);
    assert forall t: TurnJson :: HasRef(t) && IsDone(t.status) <==> IsOver(t);
    if OnlyInProgress(turns, turn) {
      var k: nat :| && k < |turns| && turns[k] == TurnJson(Some(turn), Some("inProgress"))
                    && IsIdentified(Some(turn)) && forall i :: 0 <= i < |turns| && i != k ==> IsOver(turns[i]);
      assert HasRef(turns[k]);
      assert OnlyActive(turns, k);
    }
    if ActiveAmong(turns, None) == Some(turn) {
      var k: nat :| OnlyActive(turns, k);
      assert HasRef(turns[k]) && turns[k] == TurnJson(Some(turn), Some("inProgress"));
    }
  }

  lemma ThreadMeans(thread: ThreadJson, flags: seq<string>, turn: string)
    ensures IdleThread(thread) == Idle <==>
              thread.turns.Some? && |thread.turns.value| <= MAX_QUEUE && AllOver(thread.turns.value)
    ensures IdleThread(thread) in {Idle, Unproven}
    ensures ActiveThread(thread, flags) == Some(turn) <==>
              && OnlyWaits(flags) && thread.turns.Some? && |thread.turns.value| <= MAX_QUEUE
              && OnlyInProgress(thread.turns.value, turn)
  {
    IdleMeans(thread);
    if thread.turns.Some? {
      OverMeans(thread.turns.value);
      ActiveMeans(thread.turns.value, turn);
    }
    hide HasRef, IsDone, IsOver, ActiveAmong, AllOver, OnlyInProgress;
  }

  /** Main result: a report is read as idle, or as active in one turn, exactly when it says so. */
  lemma StateMeans(body: ResultJson, thread: string, turn: string)
    ensures ParseThreadState(body, thread).Ok? <==> Names(body, thread)
    ensures ParseThreadState(body, thread) == Ok(Idle) <==> SaysIdle(body, thread)
    ensures ParseThreadState(body, thread) == Ok(ActiveTurn(turn)) <==> SaysActive(body, thread, turn)
  {
    hide IdleThread, ActiveThread, AllOver, OnlyInProgress, OnlyWaits;
    if body.threadState.Some? {
      var t := body.threadState.value;
      var flags := if t.status.Some? then t.status.value.activeFlags else None;
      ThreadMeans(t, if flags.Some? then flags.value else [], turn);
    }
  }

  // ----- asking for the thread -----

  predicate IsResponse(read: Read, id: nat) {
    read.Line? && read.content.Ok? && read.content.value.Response? && read.content.value.id == id
  }

  lemma ReportMeans(body: ResultJson, p: Pending)
    requires p.kind == ThreadRead && p.thread.Some?
    ensures match ParseResponse(body, p)
            case Ok(received) =>
              received.ThreadReported? && ParseThreadState(body, p.thread.value) == Ok(received.state)
            case Err(_) => ParseThreadState(body, p.thread.value).Err?
  {
    hide ParseThreadState;
  }

  lemma AwaitIsExact(w: World, t: State, epoch: nat, p: Pending, state: ThreadState)
    requires Ready(w, t) && t.pending == [p] && p.kind == ThreadRead && p.thread.Some?
    ensures var (u, e, r) := AwaitThread(w, t, epoch);
            && e == epoch && t.pos < u.pos
            && (r == Ok(state) <==>
                  && u.pending == [] && IsResponse(w.peer(u.pos - 1), p.id)
                  && ParseThreadState(w.peer(u.pos - 1).content.value.body, p.thread.value) == Ok(state))
  {
    hide ReadLoop, Sane, ParseResponse, ParseThreadState;
    LoopSettles(w, t, p);
    var u := ReadLoop(w, t).0;
    if IsResponse(w.peer(u.pos - 1), p.id) {
      ReportMeans(w.peer(u.pos - 1).content.value.body, p);
    }
  }

  /** The thread is asked for and reported exactly when, the transport having read on and
      nothing being pending any more, the last line is a response to that request. */
  lemma AskIsExact(w: World, t: State, epoch: nat, thread: Option<string>, live: bool, state: ThreadState)
    requires Ready(w, t)
    ensures var (u, e, r) := AskThread(w, t, epoch, thread, live);
            && e == epoch && t.pos <= u.pos
            && (r == Ok(state) <==>
                  && thread.Some? && live && t.pos < u.pos && u.pending == []
                  && IsResponse(w.peer(u.pos - 1), t.nextId)
                  && ParseThreadState(w.peer(u.pos - 1).content.value.body, thread.value) == Ok(state))
  {
    if thread.Some? && live {
      SendRequestBudget(w, t, ThreadRead, thread.value, thread);
      RequestIsExact(w, t, ThreadRead, thread.value, thread);
      var (u, sent) := SendRequest(w, t, ThreadRead, thread.value, thread);
      hide SendRequest, AwaitThread, ParseThreadState, Sane, Writes, IsResponse;
      if sent.Ok? {
        AwaitIsExact(w, u, epoch, Pending(t.nextId, ThreadRead, thread), state);
      }
    }
  }

  // ----- no data -----

  /** The next read fails at its deadline, or is a request of the server whose refusal runs
      into the write deadline before a byte is taken. */
  predicate NoData(w: World, t: State) {
    && t.notes == []
    && (|| (w.peer(t.pos).Failed? && w.peer(t.pos).error == Deadline)
        || (Rejects(w, t)
            && var encoded := w.encode(Refusal(w.peer(t.pos).content.value.requestId));
               && encoded.Fits?
               && WriteAll(encoded.bytes, w.pipe(|t.wire|), false).1 == Err(WriteFailure(Deadline, ProvenNotWritten))))
  }

  lemma NoDataIsExact(w: World, t: State)
    requires Ready(w, t) && t.pending == [] && !t.ambiguous
    ensures Receive(w, t).1 == Err(Deadline) <==> NoData(w, t)
  {
    var read := w.peer(t.pos);
    assert read.Line? && read.content.Err? ==> read.content.error in {Malformed, Bounds};
    if Rejects(w, t) {
      var encoded := w.encode(Refusal(read.content.value.requestId));
      if encoded.Fits? {
        ReceiptIsSound(encoded.bytes, w.pipe(|t.wire|), false);
      }
    }
    hide WriteAll, ParseResponse, Sane;
  }

  /** A drain keeps the epoch and ends well exactly when there is no data. */
  lemma QuietIsExact(w: World, t: State, epoch: nat)
    requires Sane(w) && Bounded(t, epoch) && t.pending == [] && !t.ambiguous
    ensures Drain(w, t, epoch).2.Ok? && Drain(w, t, epoch).1 == epoch <==> NoData(w, t)
  {
    NoDataIsExact(w, t);
    hide Receive, Sane, NoData;
    ReceiveBounded(w, t, epoch);
    ReceiveBudget(w, t);
    var (u, r) := Receive(w, t);
    if r.Ok? {
      DrainStep(w, t, epoch);
      DrainBounded(w, u, epoch + 1);
      hide Drain;
    }
  }

  // ----- the probe -----

  /** Everything a probe needs before the answer `body` decides: it may ask, its first drain
      ends well, the last line read is the response to its request, settling it, and there
      is no data after it. */
  ghost predicate Probed(w: World, c: Value, bound: bool, thread: Option<string>, live: bool, body: ResultJson)
    requires Ready(w, c.t)
  {
    var t := AfterAnswer(w, c, thread, live);
    var t1 := Drain(w, c.t, c.epoch).0;
    && bound && c.laneProbe.None? && thread.Some? && live
    && Drain(w, c.t, c.epoch).2.Ok?
    && t1.pos < t.pos && t.pending == [] && Answers(w.peer(t.pos - 1), t1.nextId, body)
    && NoData(w, t)
  }

  /** The probe's result, by what its request was answered with and what came after. */
  lemma ProbeStages(w: World, c: Value, bound: bool, probeId: Id, thread: Option<string>, live: bool,
                    state: ThreadState)
    requires Sane(w) && Bounded(c.t, c.epoch) && GoodState(c.t) && bound && c.laneProbe.None?
    requires Drain(w, c.t, c.epoch).2.Ok?
    ensures var t := AfterAnswer(w, c, thread, live);
            var t1 := Drain(w, c.t, c.epoch).0;
            var (d, r) := ProbeIdle(w, c, bound, probeId, thread, live);
            var answered := thread.Some? && live && t1.pos < t.pos && t.pending == []
                            && IsResponse(w.peer(t.pos - 1), t1.nextId)
                            && ParseThreadState(w.peer(t.pos - 1).content.value.body, thread.value) == Ok(state);
            && (answered && NoData(w, t) ==>
                  match state
                  case Idle => r == Granted(Lane(probeId, d.epoch)) && d.laneProbe == Some(probeId)
                  case ActiveTurn(turn) => r == Active(d.epoch, turn) && d.laneProbe.None?
                  case Unproven => r == NotIdle)
            && (r.Granted? && state == Idle ==> answered && NoData(w, t))
            && (r.Active? && state == ActiveTurn(r.turn) ==> answered && NoData(w, t))
  {
    DrainBudget(w, c.t, c.epoch);
    var (t1, e1, drained) := Drain(w, c.t, c.epoch);
    AskBudget(w, t1, e1, thread, live);
    var (t2, e2, asked) := AskThread(w, t1, e1, thread, live);
    hide Drain, AskThread, Sane, GoodState, ParseThreadState, IsResponse, NoData, ProbeIdle;
    DrainBounded(w, c.t, c.epoch);
    DrainGood(w, c.t, c.epoch);
    AskBounded(w, t1, e1, thread, live);
    AskIsExact(w, t1, e1, thread, live, state);
    ProbeUnfolds(w, c, bound, probeId, thread, live);
    if asked.Ok? {
      AskIdle(w, t1, e1, thread, live);
      QuietIsExact(w, t2, e2);
    }
  }

  /** What a probe that could ask makes of the answer and of the drain after it. */
  lemma ProbeUnfolds(w: World, c: Value, bound: bool, probeId: Id, thread: Option<string>, live: bool)
    requires Ready(w, c.t) && bound && c.laneProbe.None? && Drain(w, c.t, c.epoch).2.Ok?
    ensures var (t1, e1, _) := Drain(w, c.t, c.epoch);
            && Ready(w, t1)
            && var (t2, e2, asked) := AskThread(w, t1, e1, thread, live);
               && Ready(w, t2) && AfterAnswer(w, c, thread, live) == t2
               && var (d, r) := ProbeIdle(w, c, bound, probeId, thread, live);
                  if asked.Ok? && Drain(w, t2, e2).1 == e2 && Drain(w, t2, e2).2.Ok? then
                    && d.epoch == e2
                    && d.laneProbe == (if asked.value == Idle then Some(probeId) else None)
                    && r == match asked.value
                            case Idle => Granted(Lane(probeId, e2))
                            case ActiveTurn(turn) => Active(e2, turn)
                            case Unproven => NotIdle
                  else r.NotIdle? || r.EpochInvalidated?
  {
    hide Drain, AskThread, Sane;
    DrainBudget(w, c.t, c.epoch);
    var (t1, e1, _) := Drain(w, c.t, c.epoch);
    AskBudget(w, t1, e1, thread, live);
  }

  /** Main result: a lane is granted exactly when a probe that could ask was answered with an
      idle thread and nothing came after; an active turn is reported exactly when the answer
      names it as the only one in progress. */
  lemma ProbeIsExact(w: World, c: Value, bound: bool, probeId: Id, thread: Option<string>, live: bool, turn: string)
    requires Sane(w) && Bounded(c.t, c.epoch) && GoodState(c.t)
    ensures var (d, r) := ProbeIdle(w, c, bound, probeId, thread, live);
            && (r.Granted? <==>
                  exists body :: Probed(w, c, bound, thread, live, body) && SaysIdle(body, thread.value))
            && (r == Active(d.epoch, turn) <==>
                  exists body :: Probed(w, c, bound, thread, live, body) && SaysActive(body, thread.value, turn))
            && (r.Granted? ==> r.lane == Lane(probeId, d.epoch) && d.laneProbe == Some(probeId))
  {
    hide ProbeIdle, AfterAnswer, Drain, Sane, GoodState, ParseThreadState, NoData, SaysIdle, SaysActive;
    if bound && c.laneProbe.None? && Drain(w, c.t, c.epoch).2.Ok? {
      ProbeStages(w, c, bound, probeId, thread, live, Idle);
      ProbeStages(w, c, bound, probeId, thread, live, ActiveTurn(turn));
      var t := AfterAnswer(w, c, thread, live);
      var t1 := Drain(w, c.t, c.epoch).0;
      if thread.Some? && live && t1.pos < t.pos && IsResponse(w.peer(t.pos - 1), t1.nextId) {
        var body := w.peer(t.pos - 1).content.value.body;
        StateMeans(body, thread.value, turn);
        assert Answers(w.peer(t.pos - 1), t1.nextId, body);
      }
    } else {
      NotProbed(w, c, bound, probeId, thread, live);
    }
  }

  lemma NotProbed(w: World, c: Value, bound: bool, probeId: Id, thread: Option<string>, live: bool)
    requires Ready(w, c.t) && !(bound && c.laneProbe.None? && Drain(w, c.t, c.epoch).2.Ok?)
    ensures !ProbeIdle(w, c, bound, probeId, thread, live).1.Granted?
    ensures !ProbeIdle(w, c, bound, probeId, thread, live).1.Active?
  {
    hide Drain, AskThread, Sane;
  }

  // ----- reserving and performing a turn -----

  /** Main result: a turn is reserved exactly when the command is for the lane held, at this
      epoch, on a live thread, the transport is free, the frame fits, there is no data, and
      the command's binding and lease still hold. */
  lemma ReserveIsExact(w: World, c: Value, lane: Lane, command: Command, thread: Option<string>, live: bool,
                       bound: bool, leased: bool)
    requires Sane(w) && Bounded(c.t, c.epoch) && command.epoch <= c.epoch
    ensures Reserve(w, c, lane, command, thread, live, bound, leased).1.Ok? <==>
              && c.laneProbe == Some(command.probeId) && lane == Lane(command.probeId, command.epoch)
              && command.epoch == c.epoch && thread.Some? && live && bound && leased
              && IsFree(c.t) && w.encode(Turn(c.t.nextId, thread.value, command.input)).Fits?
              && NoData(w, c.t)
  {
    if thread.Some? {
      PreparedIsExact(w, c.t, thread.value, command.input);
      var (t, prepared) := PrepareTurn(w, c.t, thread.value, command.input);
      hide PrepareTurn, Drain, Sane;
      if prepared.Ok? {
        SameData(w, c.t, t);
        hide NoData;
        DrainBounded(w, t, c.epoch);
        QuietIsExact(w, t, c.epoch);
      }
    }
  }

  /** Main result: a turn that is not reserved is refused as misbound exactly when it is not
      for the lane held or its binding no longer holds after a quiet drain; as overtaken
      exactly when the drain ended well at another epoch, which it then names. Otherwise it
      is not accepted. Whatever was prepared is wiped, and the lane is given up. */
  lemma RefusalIsExact(w: World, c: Value, lane: Lane, command: Command, thread: Option<string>, live: bool,
                       bound: bool, leased: bool)
    requires Ready(w, c.t) && Reserve(w, c, lane, command, thread, live, bound, leased).1.Err?
    ensures var (d, r) := Reserve(w, c, lane, command, thread, live, bound, leased);
            var held := c.laneProbe == Some(command.probeId) && lane == Lane(command.probeId, command.epoch);
            var fits := thread.Some? && live && IsFree(c.t)
                        && w.encode(Turn(c.t.nextId, thread.value, command.input)).Fits?;
            && d.laneProbe.None?
            && (held && fits ==>
                  var prepared := PrepareTurn(w, c.t, thread.value, command.input).0;
                  Ready(w, prepared)
                  && var (_, epoch, drained) := Drain(w, prepared, c.epoch);
                     && d.t.frame == [] && d.epoch == epoch
                     && r.error == if drained.Err? then Decided(ProvenNotAccepted)
                                   else if epoch != command.epoch then
                                     Decided(IdleEpochInvalidated(command.epoch, epoch))
                                   else if !bound then BindingRejected else Decided(ProvenNotAccepted))
            && (!held ==> r.error == BindingRejected) && (held && !fits ==> r.error == Decided(ProvenNotAccepted))
  {
    if thread.Some? {
      PreparedIsExact(w, c.t, thread.value, command.input);
    }
    hide PrepareTurn, Drain, Sane;
  }

  lemma SameData(w: World, t: State, u: State)
    requires u == t.(frame := u.frame, nextId := u.nextId)
    ensures NoData(w, u) <==> NoData(w, t)
  {
  }

  /** Main result: a dispatched turn counts as not accepted exactly when its frame was refused
      before a byte, or an error for it was read; as accepted exactly when it was written
      and the last line reports a turn under its id that the seal opens; else as unknown,
      which is noted. */
  lemma PerformIsExact(w: World, c: Value, id: nat, command: Command, seal: string -> Option<Id>)
    requires Sane(w) && c.t.stdout <= MAX_STDOUT && c.t.pending == []
    ensures var (d, disposition) := Perform(w, c, id, command, seal);
            var (accepted, written) := WriteAll(c.t.frame, w.pipe(|c.t.wire|), false);
            && (written.Ok? ==> c.t.pos < d.t.pos)
            && (disposition == ProvenNotAccepted <==>
                  || (written.Err? && accepted == 0 && c.t.frame != [])
                  || (written.Ok? && d.t.pending == [] && Denies(w.peer(d.t.pos - 1), id)))
            && (forall turnRef :: disposition == Accepted(turnRef) <==>
                  && written.Ok? && d.t.pending == [] && IsResponse(w.peer(d.t.pos - 1), id)
                  && seal(TurnOf(w.peer(d.t.pos - 1).content.value.body)) == Some(turnRef))
            && !disposition.IdleEpochInvalidated?
            && (disposition.Unknown? ==> d.reconciling == Some(command.correlation)) && d.laneProbe.None?
  {
    ReceiptIsSound(c.t.frame, w.pipe(|c.t.wire|), false);
    DispatchSends(w, c.t, id);
    var (t, sent) := Dispatch(w, c.t, id);
    hide WriteAll, Sane, Receive, Dispatch, Denies, IsResponse, TurnOf;
    if sent.Ok? {
      TurnIsExact(w, t, Pending(id, TurnStart, None));
    }
  }

  lemma DispatchSends(w: World, s: State, id: nat)
    requires s.pending == []
    ensures var (t, sent) := Dispatch(w, s, id);
            && sent == WriteAll(s.frame, w.pipe(|s.wire|), false).1
            && t.pos == s.pos && t.stdout == s.stdout
            && (sent.Ok? ==> t.pending == [Pending(id, TurnStart, None)])
  {
    hide WriteAll;
  }

  function TurnOf(body: ResultJson): string {
    if body.turnRef.Some? then body.turnRef.value else ""
  }

  /** With a turn pending, what a receive says of it. */
  lemma TurnIsExact(w: World, t: State, p: Pending)
    requires Ready(w, t) && t.pending == [p] && p.kind == TurnStart
    ensures var (u, r) := Receive(w, t);
            && t.pos < u.pos
            && (r == Err(Native) <==> u.pending == [] && Denies(w.peer(u.pos - 1), p.id))
            && (r.Ok? && r.value.TurnStarted? <==> u.pending == [] && IsResponse(w.peer(u.pos - 1), p.id))
            && (r.Ok? && r.value.TurnStarted? ==> r.value.turn == TurnOf(w.peer(u.pos - 1).content.value.body))
  {
    hide ReadLoop, Sane;
    LoopSettles(w, t, p);
  }

  /** Reconciling reads once: it finds the turn accepted exactly when a turn was pending and
      the last line reports it, and not accepted exactly when that line is an error for
      whatever request was pending. */
  lemma ReconcileIsExact(w: World, c: Value, correlation: Id, seal: string -> Option<Id>)
    requires Sane(w) && GoodState(c.t) && (c.reconciling.None? || c.reconciling.value == correlation)
    ensures var (d, r) := Reconcile(w, c, true, correlation, seal);
            && r.Ok?
            && (r.value == ProvenNotAccepted <==>
                  c.t.pending != [] && d.t.pending == [] && Denied(w, d.t, c.t.pending[0].id))
            && (forall turnRef :: r.value == Accepted(turnRef) <==>
                  && c.t.pending != [] && d.t.pending == [] && c.t.pending[0].kind == TurnStart
                  && Responded(w, d.t, c.t.pending[0].id)
                  && seal(TurnOf(w.peer(d.t.pos - 1).content.value.body)) == Some(turnRef))
            && d == c.(t := d.t)
  {
    hide ReadLoop, Sane, GoodState, ParseResponse;
    if c.t.pending != [] {
      OnePendingAtMost(c.t);
      var p := c.t.pending[0];
      LoopSettles(w, c.t, p);
      var u := ReadLoop(w, c.t).0;
      if IsResponse(w.peer(u.pos - 1), p.id) {
        KindOfReply(w.peer(u.pos - 1).content.value.body, p);
      }
    } else {
      NothingToSettle(w, c.t);
    }
  }

  predicate Denied(w: World, t: State, id: nat) {
    t.pos > 0 && Denies(w.peer(t.pos - 1), id)
  }

  predicate Responded(w: World, t: State, id: nat) {
    t.pos > 0 && IsResponse(w.peer(t.pos - 1), id)
  }

  lemma OnePendingAtMost(t: State)
    requires GoodState(t) && t.pending != []
    ensures t.pending == [t.pending[0]] && t.stdout <= MAX_STDOUT
  {
  }

  lemma KindOfReply(body: ResultJson, p: Pending)
    ensures var r := ParseResponse(body, p);
            r.Ok? ==> && (r.value.TurnStarted? <==> p.kind == TurnStart)
                      && (r.value.TurnStarted? ==> r.value.turn == TurnOf(body))
  {
    hide ParseThreadState;
  }

  lemma NothingToSettle(w: World, t: State)
    requires Sane(w) && GoodState(t) && t.pending == []
    ensures var (u, r) := Receive(w, t);
            r != Err(Native) && !(r.Ok? && r.value.TurnStarted?)
  {
    hide Sane, GoodState;
    if t.notes == [] {
      ReadNothing(w, t);
    }
    hide ReadLoop, ReadOne;
  }

  lemma ReadNothing(w: World, t: State)
    requires Sane(w) && GoodState(t) && t.pending == []
    ensures ReadLoop(w, t).1 != Err(Native)
    ensures !(ReadLoop(w, t).1.Ok? && ReadLoop(w, t).1.value.TurnStarted?)
  {
    ReadOneBudget(w, t);
    var read := w.peer(t.pos);
    assert read.Line? && read.content.Err? ==> read.content.error in {Malformed, Bounds};
    assert read.Failed? ==> read.error in {Closed, Malformed, Bounds, Deadline};
    if read.Line? && read.content.Ok? && read.content.value.ServerRequest? {
      NotesFail(w, t.(pos := t.pos + 1, stdout := t.stdout + read.length), Refusal(read.content.value.requestId));
    }
    hide Send, ParseResponse, GoodState, Sane;
  }
}
