/**
 What a granted lane still says when its turn is dispatched.

 The epoch stands for "nothing was read": a lane is refused when it moved. But a poll moves
 it only for a notification, and a reconciliation never does.
 */
module ControllerLane {
  import opened Prelude
  import opened Transport
  import opened TransportProofs
  import opened TransportRuns
  import opened Controllers
  import opened ControllerProofs

  // ----- what was read -----

  /** Whole lines only, or also what a failed read took of a line. */
  datatype Measure = WholeLines | AnyOutput

  predicate Takes(read: Read, measure: Measure) {
    read.Line? || (measure.AnyOutput? && read.taken > 0)
  }

  /** None of the reads from `at` to `end` took anything. */
  ghost predicate Untouched(w: World, at: nat, end: nat, measure: Measure) {
    forall i: nat | at <= i < end :: !Takes(w.peer(i), measure)
  }

  // ----- one receive -----

  /** The next receive reads, and its first read takes something. */
  predicate Reads(w: World, t: State, measure: Measure) {
    (t.pending != [] || t.notes == []) && Takes(w.peer(t.pos), measure)
  }

  /** The next receive hands on a notification, queued or just read within the limit. */
  predicate Announces(w: World, t: State) {
    && t.pending == []
    && (|| t.notes != []
        || (IsNote(w.peer(t.pos)) && t.initialized && t.stdout + w.peer(t.pos).length <= MAX_STDOUT))
  }

  /** Only a notification that came with nothing pending is handed on as one. */
  lemma HandleSees(w: World, t: State, inbound: Inbound)
    ensures var r := HandleInbound(w, t, inbound).1;
            r.Ok? && r.value.Some? && r.value.value.Notified? <==> inbound.Note? && t.initialized && t.pending == []
  {
    hide Send, ParseResponse;
    if inbound.Response? && t.pending != [] {
      NeverNotified(inbound.body, t.pending[0]);
    }
  }

  lemma ReadOneSees(w: World, t: State)
    requires Sane(w) && t.stdout <= MAX_STDOUT && (t.pending == [] ==> t.notes == [])
    ensures var (u, r) := ReadOne(w, t);
            && (r.Ok? ==> w.peer(t.pos).Line?)
            && (r.Ok? && r.value.Some? && r.value.value.Notified? <==> Announces(w, t))
  {
    hide HandleInbound;
    var read := w.peer(t.pos);
    if read.Line? && read.content.Ok? && t.stdout + read.length <= MAX_STDOUT {
      HandleSees(w, t.(pos := t.pos + 1, stdout := t.stdout + read.length), read.content.value);
    }
  }

  lemma NeverNotified(body: ResultJson, pending: Pending)
    ensures ParseResponse(body, pending).Ok? ==> !ParseResponse(body, pending).value.Notified?
  {
    hide ParseThreadState, NativeRef;
  }

  lemma {:induction false} LoopSees(w: World, t: State, measure: Measure)
    requires Sane(w) && t.stdout <= MAX_STDOUT && (t.pending == [] ==> t.notes == [])
    ensures var (u, r) := ReadLoop(w, t);
            && t.pos < u.pos && (Untouched(w, t.pos, u.pos, measure) <==> !Takes(w.peer(t.pos), measure))
            && (r.Ok? && r.value.Notified? <==> Announces(w, t))
    decreases MAX_STDOUT - t.stdout
  {
    hide ReadOne, Sane, IsNote;
    ReadOneBudget(w, t);
    ReadOneSees(w, t);
    var (u, r) := ReadOne(w, t);
    if r == Ok(None) {
      LoopSees(w, u, measure);
    }
  }

  lemma ReceiveSees(w: World, t: State, measure: Measure)
    requires Ready(w, t)
    ensures var (u, r) := Receive(w, t);
            && t.pos <= u.pos && (Untouched(w, t.pos, u.pos, measure) <==> !Reads(w, t, measure))
            && (r.Ok? && r.value.Notified? <==> Announces(w, t))
  {
    hide ReadLoop, Sane, IsNote;
    if t.pending != [] || t.notes == [] {
      LoopSees(w, t, measure);
    }
  }

  // ----- polls and reconciliations -----

  /** What may come between a probe and the write of its lane. */
  predicate Watches(op: ControllerProofs.Op) {
    op.Observation? || op.Reconciliation?
  }

  /** The operation gets as far as receiving. */
  predicate Receives(c: Value, op: ControllerProofs.Op)
    requires Watches(op)
  {
    match op
    case Observation(bound, turnRef, thread, turn) =>
      && bound && !c.lostReported && turnRef.Some? && thread.Some? && turn.Some?
      && !(c.startedTurn == turnRef && c.pendingTerminal.Some?)
    case Reconciliation(bound, correlation) => bound && (c.reconciling.None? || c.reconciling.value == correlation)
  }

  /** The operation takes output and leaves the epoch alone: a poll when what it reads is not
      handed on as a notification, a reconciliation whatever it is. */
  predicate Unseen(w: World, c: Value, op: ControllerProofs.Op, measure: Measure) {
    && Watches(op) && Receives(c, op) && Reads(w, c.t, measure)
    && (op.Observation? ==> !Announces(w, c.t))
  }

  lemma PollLoopSees(w: World, c: Value, turnRef: Id, thread: string, turn: string, measure: Measure)
    requires Sane(w) && Bounded(c.t, c.epoch)
    ensures var d := PollLoop(w, c, turnRef, thread, turn).0;
            && c.t.pos <= d.t.pos
            && (d.epoch > c.epoch <==> Announces(w, c.t))
            && (d.epoch == c.epoch ==> (Untouched(w, c.t.pos, d.t.pos, measure) <==> !Reads(w, c.t, measure)))
  {
    hide Receive, Sane, Announces, Reads, Untouched;
    ReceiveBudget(w, c.t);
    ReceiveBounded(w, c.t, c.epoch);
    ReceiveSees(w, c.t, measure);
    var (t, r) := Receive(w, c.t);
    if r.Ok? && r.value.Notified? {
      var (d, observed) := Observe(c.(t := t, epoch := Bump(c.epoch)), r.value.notification, turnRef, thread, turn);
      if observed.None? {
        PollBounded(w, d, turnRef, thread, turn);
        PollAdvances(w, d, turnRef, thread, turn);
      }
    }
  }

  lemma {:induction false} PollAdvances(w: World, c: Value, turnRef: Id, thread: string, turn: string)
    requires Ready(w, c.t)
    ensures c.t.pos <= PollLoop(w, c, turnRef, thread, turn).0.t.pos
    decreases Budget(c.t)
  {
    hide Receive, Sane, Announces, Reads, Untouched;
    ReceiveBudget(w, c.t);
    ReceiveSees(w, c.t, WholeLines);
    var (t, r) := Receive(w, c.t);
    if r.Ok? && r.value.Notified? {
      var (d, observed) := Observe(c.(t := t, epoch := Bump(c.epoch)), r.value.notification, turnRef, thread, turn);
      if observed.None? {
        PollAdvances(w, d, turnRef, thread, turn);
      }
    }
  }

  /** Main result: a poll or a reconciliation moves the epoch exactly when it is a poll that
      hands on a notification. It takes output without moving it exactly when its first read
      takes some, and it is a reconciliation or that read is handed on as no notification;
      a notification over the output limit is not. */
  lemma ReadsUnseen(w: World, c: Value, op: ControllerProofs.Op, seal: string -> Option<Id>, measure: Measure)
    requires Sane(w) && Bounded(c.t, c.epoch) && Watches(op)
    ensures var d := Act(w, c, op, seal);
            && c.t.pos <= d.t.pos && c.epoch <= d.epoch
            && (d.epoch > c.epoch <==> op.Observation? && Receives(c, op) && Announces(w, c.t))
            && (d.epoch == c.epoch && !Untouched(w, c.t.pos, d.t.pos, measure) <==> Unseen(w, c, op, measure))
  {
    hide PollLoop, Receive, Sane, Announces, Reads;
    match op
    case Observation(_, turnRef, thread, turn) =>
      if turnRef.Some? && thread.Some? && turn.Some? {
        PollBounded(w, c, turnRef.value, thread.value, turn.value);
        PollLoopSees(w, c, turnRef.value, thread.value, turn.value, measure);
      }
    case Reconciliation(_, _) => ReceiveSees(w, c.t, measure);
  }

  /** Some of the operations took output unseen. */
  ghost predicate SomeUnseen(w: World, c: Value, ops: seq<ControllerProofs.Op>, seal: string -> Option<Id>,
                             measure: Measure)
  {
    exists i :: 0 <= i < |ops| && Unseen(w, ActAll(w, c, ops[..i], seal), ops[i], measure)
  }

  lemma OneMoreUnseen(w: World, c: Value, ops: seq<ControllerProofs.Op>, op: ControllerProofs.Op,
                      seal: string -> Option<Id>, measure: Measure)
    ensures SomeUnseen(w, c, ops + [op], seal, measure) <==>
              SomeUnseen(w, c, ops, seal, measure) || Unseen(w, ActAll(w, c, ops, seal), op, measure)
  {
    hide Unseen, ActAll;
    var longer := ops + [op];
    assert longer[..|ops|] == ops && longer[|ops|] == op;
    assert forall i | 0 <= i < |ops| :: longer[..i] == ops[..i] && longer[i] == ops[i];
  }

  lemma UntouchedSplits(w: World, at: nat, mid: nat, end: nat, measure: Measure)
    requires at <= mid <= end
    ensures Untouched(w, at, end, measure) <==> Untouched(w, at, mid, measure) && Untouched(w, mid, end, measure)
  {
  }

  /** If the epoch stays, output was taken exactly when some was taken unseen. */
  lemma {:induction false} QuietWatch(w: World, c: Value, ops: seq<ControllerProofs.Op>, seal: string -> Option<Id>,
                                      measure: Measure)
    requires Sane(w) && Bounded(c.t, c.epoch) && forall op | op in ops :: Watches(op)
    ensures var d := ActAll(w, c, ops, seal);
            && c.epoch <= d.epoch && Bounded(d.t, d.epoch) && c.t.pos <= d.t.pos
            && (d.epoch == c.epoch ==>
                  (Untouched(w, c.t.pos, d.t.pos, measure) <==> !SomeUnseen(w, c, ops, seal, measure)))
    decreases |ops|
  {
    hide Act, Sane, Unseen, Announces, Receives;
    if ops != [] {
      hide SomeUnseen, Untouched;
      var n := |ops| - 1;
      var mid := ActAll(w, c, ops[..n], seal);
      assert ops == ops[..n] + [ops[n]];
      QuietWatch(w, c, ops[..n], seal, measure);
      ActBounded(w, mid, ops[n], seal);
      ReadsUnseen(w, mid, ops[n], seal, measure);
      OneMoreUnseen(w, c, ops[..n], ops[n], seal, measure);
      UntouchedSplits(w, c.t.pos, mid.t.pos, ActAll(w, c, ops, seal).t.pos, measure);
    }
  }

  // ----- from the probe to the dispatch -----

  lemma LaneMatches(w: World, c: Value, lane: Lane, command: Command, thread: Option<string>, live: bool,
                    bound: bool, leased: bool)
    requires Ready(w, c.t) && Reserve(w, c, lane, command, thread, live, bound, leased).1.Ok?
    ensures lane.epoch == command.epoch && lane.probeId == command.probeId && c.laneProbe == Some(lane.probeId)
    ensures Reserve(w, c, lane, command, thread, live, bound, leased).0.epoch == command.epoch
  {
    hide Drain, PrepareTurn;
  }

  /** The read that ends a drain with "no data" took something: a request of the server, or
      part of a line cut off by the deadline. */
  predicate Meets(w: World, t: State, measure: Measure) {
    Rejects(w, t) || (measure.AnyOutput? && w.peer(t.pos).Failed? && w.peer(t.pos).taken > 0)
  }

  /** Main result: for a probe, any polls and reconciliations after it, and the write of its
      lane. At dispatch nothing is pending or ambiguous; the buffer holds the frame prepared
      for its id exactly when the drain of the write met no request of the server; and
      nothing was taken since the idle answer that granted the lane exactly when neither
      drain ended by taking something and nothing between them was taken unseen. This holds
      of whole lines and of all output alike. */
  lemma LaneIsIdleAtDispatch(w: World, c: Value, probeBound: bool, probeId: Id, probed: Option<string>, probeLive: bool,
                             watch: seq<ControllerProofs.Op>, command: Command, thread: Option<string>, live: bool,
                             bound: bool, leased: bool, seal: string -> Option<Id>, measure: Measure)
    requires Sane(w) && Bounded(c.t, c.epoch) && GoodState(c.t) && forall op | op in watch :: Watches(op)
    requires ProbeIdle(w, c, probeBound, probeId, probed, probeLive).1.Granted?
    requires var (d, r) := ProbeIdle(w, c, probeBound, probeId, probed, probeLive);
             var m := ActAll(w, d, watch, seal);
             Ready(w, m.t) && Reserve(w, m, r.lane, command, thread, live, bound, leased).1.Ok?
    ensures var t := AfterAnswer(w, c, probed, probeLive);
            var (d, r) := ProbeIdle(w, c, probeBound, probeId, probed, probeLive);
            var m := ActAll(w, d, watch, seal);
            var (e, reserved) := Reserve(w, m, r.lane, command, thread, live, bound, leased);
            && thread.Some? && w.encode(Turn(reserved.value, thread.value, command.input)).Fits?
            && e.t.pending == [] && !e.t.ambiguous && t.pos < e.t.pos
            && (e.t.frame == w.encode(Turn(reserved.value, thread.value, command.input)).bytes <==> !Rejects(w, m.t))
            && (Untouched(w, t.pos, e.t.pos, measure) <==>
                  !Meets(w, t, measure) && !SomeUnseen(w, d, watch, seal, measure) && !Meets(w, m.t, measure))
  {
    hide ProbeIdle, AfterAnswer, Sane, GoodState, Rejects, SomeUnseen, ActAll, Drain;
    GrantMeans(w, c, probeBound, probeId, probed, probeLive);
    var t := AfterAnswer(w, c, probed, probeLive);
    var (d, r) := ProbeIdle(w, c, probeBound, probeId, probed, probeLive);
    var m := ActAll(w, d, watch, seal);
    QuietWatch(w, d, watch, seal, measure);
    LaneMatches(w, m, r.lane, command, thread, live, bound, leased);
    ReserveBounded(w, m, r.lane, command, thread, live, bound, leased);
    FrameAtDispatch(w, m, r.lane, command, thread, live, bound, leased);
    var e := Reserve(w, m, r.lane, command, thread, live, bound, leased).0;
    hide Reserve;
    EndOfDrain(w, t, measure);
    EndOfDrain(w, m.t, measure);
    hide Untouched, Meets;
    UntouchedSplits(w, t.pos, d.t.pos, e.t.pos, measure);
    UntouchedSplits(w, d.t.pos, m.t.pos, e.t.pos, measure);
  }

  lemma EndOfDrain(w: World, t: State, measure: Measure)
    requires w.peer(t.pos).Line? <==> Rejects(w, t)
    ensures Untouched(w, t.pos, t.pos + 1, measure) <==> !Meets(w, t, measure)
  {
    hide Rejects;
    assert Untouched(w, t.pos, t.pos + 1, measure) <==> !Takes(w.peer(t.pos), measure);
  }

  // ----- a line nobody saw -----

  /** The output limit is used up; a turn starts, then there is no data. */
  const FULL_WORLD := World(
    i => if i == 0 then Line(10, Ok(Note(TurnBegan("th", "tu")))) else Read.Failed(Deadline, 0),
    _ => [],
    _ => Fits([10]))

  const FULL_CONTROLLER := Fresh(NEW.(initialized := true, stdout := MAX_STDOUT)).(laneProbe := Some("p"))

  const FULL_POLL := ControllerProofs.Observation(true, Some("r"), Some("th"), Some("tu"))

  /** A poll, or a reconciliation, takes the start of a turn over the output limit, and the
      lane granted before it is still written, its frame intact. */
  lemma StartIsUnseen(op: ControllerProofs.Op, seal: string -> Option<Id>)
    requires op in {FULL_POLL, ControllerProofs.Reconciliation(true, "c")}
    ensures var c := FULL_CONTROLLER;
            && Ready(FULL_WORLD, c.t)
            && var d := Act(FULL_WORLD, c, op, seal);
               && d.t == c.t.(pos := 1) && d.epoch == c.epoch && d.laneProbe == c.laneProbe
               && Unseen(FULL_WORLD, c, op, WholeLines)
               && var (e, reserved) := Reserve(FULL_WORLD, d, Lane("p", 0), Command("p", 0, "go", "c"), Some("th"),
                                               true, true, true);
                  reserved == Ok(2) && e.t.frame == [10] && e.t.pos == 2
  {
    var w := FULL_WORLD;
    var t := FULL_CONTROLLER.t;
    assert Sane(w);
    assert ReadOne(w, t) == (t.(pos := 1), Err(Bounds));
    var u := t.(frame := [10], nextId := 3, pos := 1);
    assert PrepareTurn(w, t.(pos := 1), "th", "go") == (u, Ok(2));
    assert ReadOne(w, u) == (u.(pos := 2), Err(Deadline));
    assert Drain(w, u, 0) == (u.(pos := 2), 0, Ok(()));
  }
}
