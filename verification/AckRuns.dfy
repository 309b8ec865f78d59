/**
 What an ack store keeps over every sequence of operations, starting at `WithArm`.

 Two kinds of runs are considered: arbitrary ones, in which `record_handled` and
 `rearm_from_handled` may also be called on their own, and the daemon's, in which every
 acknowledgement goes through `apply_handled_request`.
 */
module AckRuns {
  import opened Prelude
  import opened Messages
  import opened Ack

  datatype Op =
    | Claim(id: Id)
    | Deliver(id: Id, delivered: seq<Id>, drain: seq<Id>)
    | Require(id: Id)
    | Return(id: Id)
    | Record(request: HandledCursor, now: Time)
    | Rearm(id: Id)
    | Handle(request: HandledCursor, now: Time)

  function Do(s: Store, op: Op): Store {
    match op
    case Claim(id) => NoteClaimed(s, id).0
    case Deliver(id, delivered, drain) => NoteDelivered(s, id, delivered, drain).0
    case Require(id) => RequireReturn(s, id).0
    case Return(id) => NoteReturn(s, id).0
    case Record(request, now) => RecordHandled(s, request, now).0
    case Rearm(id) => RearmFromHandled(s, id).0
    case Handle(request, now) => ApplyHandled(s, request, now).0
  }

  function Run(s: Store, ops: seq<Op>): Store
    decreases |ops|
  {
    if ops == [] then s else Do(Run(s, ops[..|ops| - 1]), ops[|ops| - 1])
  }

  // ----- the shape of a store -----

  ghost predicate GoodBatch(b: Batch) {
    && Distinct(b.drain)
    && Distinct(b.delivered)
    && b.delivered <= b.drain
    && b.afterBound == b.drain[|b.delivered|..]
    && (b.handled.Some? ==> b.handled.value in b.delivered)
    && (b.closed ==> b.handled.Some?)
  }

  /** `cursor` lies in the delivered prefix of `b`, at or before what `b` has handled. */
  ghost predicate Handled(b: Batch, cursor: Id) {
    && b.handled.Some? && cursor in b.delivered && b.handled.value in b.delivered
    && Position(b.delivered, cursor).value <= Position(b.delivered, b.handled.value).value
  }

  /** A recorded outcome belongs to its request and, if accepted, to a handled cursor. */
  ghost predicate GoodEntry(s: Store, rid: Id, e: Entry) {
    && e.request.Request? && e.request.requestId == rid
    && (e.reply.Accepted? ==>
          && e.reply.requestId == rid
          && e.reply.signalId == e.request.signalId && e.reply.cursor == e.request.cursor
          && e.reply.signalId in s.signals
          && e.reply.generation == s.signals[e.reply.signalId].generation
          && Handled(s.signals[e.reply.signalId], e.reply.cursor))
  }

  ghost predicate HasGeneration(s: Store, g: nat) {
    exists id | id in s.signals :: s.signals[id].generation == g
  }

  /** A batch is closed exactly when its generation is below the arm's. */
  ghost predicate FitsBatch(s: Store, g0: nat, b: Batch)
    requires s.arm.Some?
  {
    && GoodBatch(b)
    && b.armId == s.arm.value.armId
    && g0 <= b.generation <= s.arm.value.generation
    && (b.closed <==> b.generation < s.arm.value.generation)
  }

  ghost predicate Shape(s: Store, g0: nat) {
    && s.arm.Some? && g0 <= s.arm.value.generation
    && |s.history| <= HISTORY_CAP
    && (forall id | id in s.signals ::
          FitsBatch(s, g0, s.signals[id]))
    && (forall i, j | i in s.signals && j in s.signals ::
          s.signals[i].generation == s.signals[j].generation ==> i == j)
    && (forall g | g0 <= g < s.arm.value.generation :: HasGeneration(s, g))
    && (forall rid | rid in s.history :: GoodEntry(s, rid, s.history[rid]))
  }

  /** Nothing handled in `b` is lost in `c`. */
  ghost predicate KeepsHandled(b: Batch, c: Batch) {
    forall cursor | Handled(b, cursor) :: Handled(c, cursor)
  }

  /** Writing one batch keeps the shape when it is the only batch of its generation. */
  lemma PutKeepsShape(s: Store, g0: nat, id: Id, b: Batch)
    requires Shape(s, g0) && FitsBatch(s, g0, b)
    requires id in s.signals ==> s.signals[id].generation == b.generation && KeepsHandled(s.signals[id], b)
    requires id !in s.signals ==> forall o | o in s.signals :: s.signals[o].generation != b.generation
    ensures Shape(s.(signals := s.signals[id := b]), g0)
  {
    var t := s.(signals := s.signals[id := b]);
    forall g | HasGeneration(s, g) ensures HasGeneration(t, g) {
      var o :| o in s.signals && s.signals[o].generation == g;
      assert o in t.signals && t.signals[o].generation == g;
    }
    forall rid | rid in t.history ensures GoodEntry(t, rid, t.history[rid]) {
      PutKeepsEntry(s, t, id, rid);
    }
  }

  lemma PutKeepsEntry(s: Store, t: Store, id: Id, rid: Id)
    requires rid in s.history && GoodEntry(s, rid, s.history[rid])
    requires id in t.signals && t == s.(signals := s.signals[id := t.signals[id]])
    requires id in s.signals ==>
               s.signals[id].generation == t.signals[id].generation && KeepsHandled(s.signals[id], t.signals[id])
    ensures GoodEntry(t, rid, s.history[rid])
  {
  }

  lemma FreshIsAlone(s: Store, g0: nat, id: Id)
    requires Shape(s, g0) && !OtherOpen(s, id) && id !in s.signals
    ensures forall o | o in s.signals :: s.signals[o].generation != s.arm.value.generation
  {
    assert forall o | o in s.signals && s.signals[o].generation == s.arm.value.generation :: IsOpen(s, o);
  }

  lemma ClaimKeepsShape(s: Store, g0: nat, id: Id)
    requires Shape(s, g0)
    ensures Shape(NoteClaimed(s, id).0, g0)
  {
    if !OtherOpen(s, id) && id !in s.signals {
      FreshIsAlone(s, g0, id);
      PutKeepsShape(s, g0, id, FreshBatch(s.arm.value, [], []));
    }
  }

  lemma DeliverKeepsShape(s: Store, g0: nat, id: Id, delivered: seq<Id>, drain: seq<Id>)
    requires Shape(s, g0)
    ensures Shape(NoteDelivered(s, id, delivered, drain).0, g0)
  {
    if NoteDelivered(s, id, delivered, drain).0 != s {
      if id in s.signals {
        var b := s.signals[id].(delivered := delivered, drain := drain, afterBound := drain[|delivered|..]);
        PutKeepsShape(s, g0, id, b);
      } else {
        FreshIsAlone(s, g0, id);
        PutKeepsShape(s, g0, id, FreshBatch(s.arm.value, delivered, drain));
      }
    }
  }

  lemma ReturnKeepsShape(s: Store, g0: nat, id: Id)
    requires Shape(s, g0)
    ensures Shape(RequireReturn(s, id).0, g0)
    ensures Shape(NoteReturn(s, id).0, g0)
  {
    if id in s.signals {
      PutKeepsShape(s, g0, id, s.signals[id].(requireReturn := true));
      PutKeepsShape(s, g0, id, s.signals[id].(returnCompleted := true));
    }
  }

  /** What an accepted request means: a delivered, not earlier cursor of the open signal. */
  lemma AcceptMovesForward(s: Store, g0: nat, request: HandledCursor)
    requires Shape(s, g0) && request.Request? && Refusal(s, request).None?
    ensures IsOpen(s, request.signalId)
    ensures var b := s.signals[request.signalId];
            var c := b.(handled := Some(request.cursor));
            && request.generation == b.generation == s.arm.value.generation
            && request.armId == s.arm.value.armId && request.seatId == s.arm.value.seatId
            && Handled(c, request.cursor) && KeepsHandled(b, c)
            && !HeldForReturn(s, request.signalId)
  {
    var b := s.signals[request.signalId];
    var c := b.(handled := Some(request.cursor));
    assert GoodBatch(b);
    assert Position(b.delivered, request.cursor).Some?;
    forall cursor | Handled(b, cursor) ensures Handled(c, cursor) {
    }
  }

  lemma DecideKeepsShape(s: Store, g0: nat, request: HandledCursor, now: Time)
    requires Shape(s, g0) && request.Request?
    ensures var (t, reply) := Decide(s, request, now);
            Shape(t, g0) && t.arm == s.arm && t.history == s.history
            && GoodEntry(t, request.requestId, Entry(request, reply))
  {
    if Refusal(s, request).None? {
      AcceptMovesForward(s, g0, request);
      var c := s.signals[request.signalId].(handled := Some(request.cursor));
      assert GoodBatch(c) by { assert Position(c.delivered, request.cursor).Some?; }
      PutKeepsShape(s, g0, request.signalId, c);
    }
  }

  lemma RecordKeepsShape(s: Store, g0: nat, request: HandledCursor, now: Time)
    requires Shape(s, g0)
    ensures Shape(RecordHandled(s, request, now).0, g0)
    ensures RecordHandled(s, request, now).0.arm == s.arm
  {
    var (t, r) := RecordHandled(s, request, now);
    if t != s {
      var (d, reply) := Decide(s, request, now);
      DecideKeepsShape(s, g0, request, now);
      AddEntryKeepsShape(d, g0, request.requestId, Entry(request, reply));
    }
  }

  lemma AddEntryKeepsShape(s: Store, g0: nat, rid: Id, e: Entry)
    requires Shape(s, g0) && GoodEntry(s, rid, e)
    requires rid !in s.history && |s.history| < HISTORY_CAP
    ensures Shape(s.(history := s.history[rid := e]), g0)
  {
    var t := s.(history := s.history[rid := e]);
    assert t.history.Keys == s.history.Keys + {rid};
    forall g | HasGeneration(s, g) ensures HasGeneration(t, g) {
      var o :| o in s.signals && s.signals[o].generation == g;
    }
    forall k | k in t.history ensures GoodEntry(t, k, t.history[k]) {
      assert k != rid ==> GoodEntry(s, k, s.history[k]);
    }
  }

  lemma RearmKeepsShape(s: Store, g0: nat, id: Id)
    requires Shape(s, g0)
    ensures Shape(RearmFromHandled(s, id).0, g0)
  {
    var (t, r) := RearmFromHandled(s, id);
    if r.Ok? {
      forall g | g0 <= g < t.arm.value.generation ensures HasGeneration(t, g) {
        var o: Id;
        if g == s.arm.value.generation {
          o := id;
        } else {
          assert HasGeneration(s, g);
          o :| o in s.signals && s.signals[o].generation == g;
        }
        assert o in t.signals && t.signals[o].generation == g;
      }
      forall rid | rid in t.history ensures GoodEntry(t, rid, t.history[rid]) {
        assert GoodEntry(s, rid, s.history[rid]);
      }
    }
  }

  lemma CloseKeepsShape(s: Store, g0: nat, reply: HandledCursor)
    requires Shape(s, g0)
    ensures Shape(CloseAccepted(s, reply).0, g0)
  {
    if reply.Accepted? {
      RearmKeepsShape(s, g0, reply.signalId);
    }
  }

  lemma HandleKeepsShape(s: Store, g0: nat, request: HandledCursor, now: Time)
    requires Shape(s, g0)
    ensures Shape(ApplyHandled(s, request, now).0, g0)
  {
    var (t, recorded) := RecordHandled(s, request, now);
    assert Shape(t, g0) by { RecordKeepsShape(s, g0, request, now); }
    if recorded.Ok? {
      CloseKeepsShape(t, g0, recorded.value);
    }
  }

  lemma StepKeepsShape(s: Store, g0: nat, op: Op)
    requires Shape(s, g0)
    ensures Shape(Do(s, op), g0)
  {
    match op
    case Claim(id) => ClaimKeepsShape(s, g0, id);
    case Deliver(id, delivered, drain) => DeliverKeepsShape(s, g0, id, delivered, drain);
    case Require(id) => ReturnKeepsShape(s, g0, id);
    case Return(id) => ReturnKeepsShape(s, g0, id);
    case Record(request, now) => RecordKeepsShape(s, g0, request, now);
    case Rearm(id) => RearmKeepsShape(s, g0, id);
    case Handle(request, now) => HandleKeepsShape(s, g0, request, now);
  }

  /** Main result: every run keeps the shape. */
  lemma {:induction false} ShapeOfRuns(arm: KnownArm, ops: seq<Op>)
    ensures Shape(Run(WithArm(arm), ops), arm.generation)
    decreases |ops|
  {
    if ops != [] {
      ShapeOfRuns(arm, ops[..|ops| - 1]);
      StepKeepsShape(Run(WithArm(arm), ops[..|ops| - 1]), arm.generation, ops[|ops| - 1]);
    }
  }

  // ----- counting signals -----

  ghost predicate Hits(m: map<Id, nat>, g: nat) {
    exists i | i in m :: m[i] == g
  }

  /** A one-to-one map onto the naturals of an interval has as many keys as the interval. */
  lemma {:induction false} CountInterval(m: map<Id, nat>, lo: nat, hi: nat)
    requires lo <= hi
    requires forall i, j | i in m && j in m :: m[i] == m[j] ==> i == j
    requires forall i | i in m :: lo <= m[i] < hi
    requires forall g | lo <= g < hi :: Hits(m, g)
    ensures |m| == hi - lo
    decreases hi - lo
  {
    if lo == hi {
      assert m == map[];
    } else {
      assert Hits(m, hi - 1);
      var i :| i in m && m[i] == hi - 1;
      var rest := m - {i};
      forall g | lo <= g < hi - 1 ensures Hits(rest, g) {
        assert Hits(m, g);
        var k :| k in m && m[k] == g;
        assert k in rest;
      }
      CountInterval(rest, lo, hi - 1);
      assert m.Keys == rest.Keys + {i};
      assert |m| == |m.Keys| && |rest| == |rest.Keys|;
    }
  }

  ghost predicate AnyOpen(s: Store) {
    exists id | id in s.signals :: IsOpen(s, id)
  }

  /** One signal for every closed generation, and one more while a signal is open. */
  lemma SignalCount(s: Store, g0: nat)
    requires Shape(s, g0)
    ensures |s.signals| == s.arm.value.generation - g0 + if AnyOpen(s) then 1 else 0
  {
    var m: map<Id, nat> := map id | id in s.signals :: s.signals[id].generation;
    var hi := s.arm.value.generation + if AnyOpen(s) then 1 else 0;
    if AnyOpen(s) {
      var open :| open in s.signals && IsOpen(s, open);
      assert HasGeneration(s, s.arm.value.generation);
    } else {
      forall id | id in s.signals ensures s.signals[id].generation < s.arm.value.generation {
        assert !IsOpen(s, id);
      }
    }
    forall g | g0 <= g < hi ensures Hits(m, g) {
      assert HasGeneration(s, g);
      var i :| i in s.signals && s.signals[i].generation == g;
      assert i in m && m[i] == g;
    }
    CountInterval(m, g0, hi);
    assert m.Keys == s.signals.Keys;
    assert |m| == |m.Keys| && |s.signals| == |s.signals.Keys|;
  }

  // ----- what no operation can undo -----

  ghost predicate BatchEvolves(b: Batch, c: Batch) {
    && c.generation == b.generation && c.armId == b.armId
    && (b.delivered != [] ==> c.delivered == b.delivered && c.drain == b.drain && c.afterBound == b.afterBound)
    && (b.requireReturn ==> c.requireReturn) && (b.returnCompleted ==> c.returnCompleted)
    && (b.handled.Some? ==> c.handled.Some? && Handled(c, b.handled.value))
    && (b.closed ==> c.closed && c.handled == b.handled && c.requireReturn == b.requireReturn)
  }

  ghost predicate Evolves(s: Store, t: Store) {
    && s.arm.Some? && t.arm.Some?
    && t.arm.value == s.arm.value.(generation := t.arm.value.generation)
    && s.arm.value.generation <= t.arm.value.generation
    && s.signals.Keys <= t.signals.Keys
    && (forall id | id in s.signals :: BatchEvolves(s.signals[id], t.signals[id]))
    && s.history.Keys <= t.history.Keys
    && (forall rid | rid in s.history :: t.history[rid] == s.history[rid])
  }

  lemma EvolvesTransitive(s: Store, t: Store, u: Store, g0: nat)
    requires Shape(s, g0) && Shape(t, g0) && Shape(u, g0)
    requires Evolves(s, t) && Evolves(t, u)
    ensures Evolves(s, u)
  {
    forall id | id in s.signals ensures BatchEvolves(s.signals[id], u.signals[id]) {
      assert BatchEvolves(s.signals[id], t.signals[id]) && BatchEvolves(t.signals[id], u.signals[id]);
    }
  }

  lemma RecordEvolves(s: Store, g0: nat, request: HandledCursor, now: Time)
    requires Shape(s, g0)
    ensures Evolves(s, RecordHandled(s, request, now).0)
  {
    var t := RecordHandled(s, request, now).0;
    if t != s && Refusal(s, request).None? {
      AcceptMovesForward(s, g0, request);
      var b := s.signals[request.signalId];
      assert GoodBatch(b);
      assert b.handled.Some? ==> Handled(b, b.handled.value);
      assert BatchEvolves(b, t.signals[request.signalId]);
      OthersEvolve(s, t, request.signalId, g0);
    } else {
      OthersEvolve(s, t, "", g0);
    }
  }

  /** A store that changed at most the batch of `id` evolves if that batch does. */
  lemma OthersEvolve(s: Store, t: Store, id: Id, g0: nat)
    requires Shape(s, g0)
    requires t.arm.Some? && t.arm.value == s.arm.value.(generation := t.arm.value.generation)
    requires s.arm.value.generation <= t.arm.value.generation
    requires s.signals.Keys <= t.signals.Keys
    requires forall o | o in s.signals && o != id :: t.signals[o] == s.signals[o]
    requires id in s.signals ==> BatchEvolves(s.signals[id], t.signals[id]) || t.signals[id] == s.signals[id]
    requires s.history.Keys <= t.history.Keys
    requires forall rid | rid in s.history :: t.history[rid] == s.history[rid]
    ensures Evolves(s, t)
  {
    forall o | o in s.signals ensures BatchEvolves(s.signals[o], t.signals[o]) {
      assert GoodBatch(s.signals[o]);
    }
  }

  lemma NoteEvolves(s: Store, g0: nat, op: Op)
    requires Shape(s, g0) && (op.Claim? || op.Deliver? || op.Require? || op.Return?)
    ensures Evolves(s, Do(s, op))
  {
    if op.id in s.signals {
      assert GoodBatch(s.signals[op.id]);
      NoteEvolvesBatch(s, op);
    }
    NoteTouchesOne(s, op);
    hide Do, Shape, BatchEvolves, Evolves;
    ArmPresent(s, g0);
    OthersEvolve(s, Do(s, op), op.id, g0);
  }

  /** A note writes at most the batch it names. */
  lemma NoteTouchesOne(s: Store, op: Op)
    requires op.Claim? || op.Deliver? || op.Require? || op.Return?
    ensures var t := Do(s, op);
            && t.arm == s.arm && t.history == s.history && s.signals.Keys <= t.signals.Keys
            && forall o | o in s.signals && o != op.id :: t.signals[o] == s.signals[o]
  {
    hide PrefixError, OtherOpen;
  }

  lemma NoteEvolvesBatch(s: Store, op: Op)
    requires op.Claim? || op.Deliver? || op.Require? || op.Return?
    requires op.id in s.signals && GoodBatch(s.signals[op.id])
    ensures BatchEvolves(s.signals[op.id], Do(s, op).signals[op.id])
  {
    var b := s.signals[op.id];
    assert b.handled.Some? ==> Handled(b, b.handled.value);
  }

  lemma CloseEvolves(s: Store, t: Store, g0: nat, reply: HandledCursor)
    requires Shape(s, g0) && Shape(t, g0) && Evolves(s, t)
    ensures Evolves(s, CloseAccepted(t, reply).0)
  {
    if reply.Accepted? {
      RearmKeepsShape(t, g0, reply.signalId);
      RearmEvolves(t, g0, reply.signalId);
      EvolvesTransitive(s, t, RearmFromHandled(t, reply.signalId).0, g0);
    }
  }

  lemma HandleEvolves(s: Store, g0: nat, request: HandledCursor, now: Time)
    requires Shape(s, g0)
    ensures Evolves(s, ApplyHandled(s, request, now).0)
  {
    var (t, recorded) := RecordHandled(s, request, now);
    assert Shape(t, g0) by { RecordKeepsShape(s, g0, request, now); }
    assert Evolves(s, t) by { RecordEvolves(s, g0, request, now); }
    if recorded.Ok? {
      CloseEvolves(s, t, g0, recorded.value);
    }
  }

  lemma StepEvolves(s: Store, g0: nat, op: Op)
    requires Shape(s, g0)
    ensures Evolves(s, Do(s, op))
  {
    match op
    case Record(request, now) => RecordEvolves(s, g0, request, now);
    case Rearm(id) => RearmEvolves(s, g0, id);
    case Handle(request, now) => HandleEvolves(s, g0, request, now);
    case _ => NoteEvolves(s, g0, op);
  }

  lemma ClosingEvolves(b: Batch)
    requires GoodBatch(b) && b.handled.Some? && !b.closed
    ensures BatchEvolves(b, b.(closed := true))
  {
  }

  lemma RearmEvolves(s: Store, g0: nat, id: Id)
    requires Shape(s, g0)
    ensures Evolves(s, RearmFromHandled(s, id).0)
  {
    assert s.arm.Some?;
    if id in s.signals && s.signals[id].handled.Some? && !s.signals[id].closed {
      assert GoodBatch(s.signals[id]);
      ClosingEvolves(s.signals[id]);
    }
    hide Shape, BatchEvolves, Evolves;
    OthersEvolve(s, RearmFromHandled(s, id).0, id, g0);
  }

  /** Main result: along every run delivered prefixes, closed cursors and recorded
      outcomes are immutable, and the handled cursor never moves back. */
  lemma {:induction false} RunEvolves(s: Store, g0: nat, ops: seq<Op>)
    requires Shape(s, g0)
    ensures Shape(Run(s, ops), g0) && Evolves(s, Run(s, ops))
    decreases |ops|
  {
    if ops == [] {
      EvolvesSelf(s, g0);
    } else {
      var mid := Run(s, ops[..|ops| - 1]);
      RunEvolves(s, g0, ops[..|ops| - 1]);
      StepKeepsShape(mid, g0, ops[|ops| - 1]);
      StepEvolves(mid, g0, ops[|ops| - 1]);
      EvolvesTransitive(s, mid, Run(s, ops), g0);
    }
  }

  // ----- exactly one rearm per accepted acknowledgement -----

  /** A store with the rearms handed out so far and the refusals for a spent generation counter. */
  datatype Tally = Tally(store: Store, rearms: seq<AckRearm>, overflows: nat)

  /** The daemon records and closes only through `apply_handled_request`. */
  predicate IsDaemonOp(op: Op) {
    !op.Record? && !op.Rearm?
  }

  function Count(t: Tally, op: Op): Tally {
    if !op.Handle? then t.(store := Do(t.store, op))
    else
      var (s, r) := ApplyHandled(t.store, op.request, op.now);
      if r.Ok? then
        Tally(s, if r.value.rearm.Some? then t.rearms + [r.value.rearm.value] else t.rearms, t.overflows)
      else if r.error == GenerationOverflow && op.request.requestId !in t.store.history then
        Tally(s, t.rearms, t.overflows + 1)
      else t.(store := s)
  }

  function CountRun(t: Tally, ops: seq<Op>): Tally
    decreases |ops|
  {
    if ops == [] then t else Count(CountRun(t, ops[..|ops| - 1]), ops[|ops| - 1])
  }

  ghost function AcceptedIds(s: Store): set<Id> {
    set rid | rid in s.history && s.history[rid].reply.Accepted?
  }

  /** `r` announced the closing of generation `g`, naming the cursor it closed at. */
  ghost predicate Announces(s: Store, r: AckRearm, g: nat) {
    && r.generation == g + 1
    && r.signalId in s.signals
    && s.signals[r.signalId].generation == g && s.signals[r.signalId].closed
    && s.signals[r.signalId].handled == Some(r.after)
  }

  /** An accepted request still names an open signal only when the counter is spent. */
  ghost predicate AcceptedAreClosed(s: Store)
    requires s.arm.Some?
  {
    forall rid | rid in s.history && s.history[rid].reply.Accepted? ::
      IsOpen(s, s.history[rid].reply.signalId) ==> s.arm.value.generation == MAX_U64
  }

  ghost predicate Tallied(t: Tally, g0: nat) {
    && Shape(t.store, g0)
    && t.store.arm.value.generation <= MAX_U64
    && |t.rearms| == t.store.arm.value.generation - g0
    && (forall i | 0 <= i < |t.rearms| :: Announces(t.store, t.rearms[i], g0 + i))
    && |AcceptedIds(t.store)| == |t.rearms| + t.overflows
    && (t.overflows > 0 ==> t.store.arm.value.generation == MAX_U64)
    && AcceptedAreClosed(t.store)
  }

  lemma CloseOutcome(s: Store, g0: nat, reply: HandledCursor)
    requires Shape(s, g0) && reply.Accepted? && reply.signalId in s.signals
    requires Handled(s.signals[reply.signalId], reply.cursor)
    requires s.arm.value.generation <= MAX_U64
    ensures var (t, r) := CloseAccepted(s, reply);
            if !IsOpen(s, reply.signalId) then t == s && r == Ok(HandledServe(reply, None))
            else if s.arm.value.generation == MAX_U64 then t == s && r == Err(GenerationOverflow)
            else
              && r == Ok(HandledServe(reply, Some(AckRearm(reply.cursor, s.arm.value.generation + 1, reply.signalId))))
              && t.arm.Some? && t.arm.value.generation == s.arm.value.generation + 1
              && t.history == s.history && t.signals.Keys == s.signals.Keys
              && t.signals[reply.signalId] == s.signals[reply.signalId].(closed := true)
  {
    assert FitsBatch(s, g0, s.signals[reply.signalId]);
  }

  /** Exact replay of a recorded request: the recorded reply and no rearm, unless the
      counter is spent and the signal could not be closed. */
  lemma ReplayIsInert(t: Tally, g0: nat, request: HandledCursor, now: Time)
    requires Tallied(t, g0)
    requires ValidHandled(request) && request.Request? && request.requestId in t.store.history
    requires t.store.history[request.requestId].request == request
    ensures var reply := t.store.history[request.requestId].reply;
            ApplyHandled(t.store, request, now) ==
            (t.store, if reply.Accepted? && IsOpen(t.store, reply.signalId) then Err(GenerationOverflow)
                      else Ok(HandledServe(reply, None)))
    ensures Count(t, Handle(request, now)) == t
  {
    var reply := t.store.history[request.requestId].reply;
    assert GoodEntry(t.store, request.requestId, t.store.history[request.requestId]);
    if reply.Accepted? {
      CloseOutcome(t.store, g0, reply);
    }
  }

  /** An announcement stays true: what it names is closed. */
  lemma AnnouncesStay(s: Store, u: Store, g0: nat, rearms: seq<AckRearm>)
    requires Evolves(s, u)
    requires forall i | 0 <= i < |rearms| :: Announces(s, rearms[i], g0 + i)
    ensures forall i | 0 <= i < |rearms| :: Announces(u, rearms[i], g0 + i)
  {
    forall i | 0 <= i < |rearms| ensures Announces(u, rearms[i], g0 + i) {
      assert Announces(s, rearms[i], g0 + i);
      assert BatchEvolves(s.signals[rearms[i].signalId], u.signals[rearms[i].signalId]);
    }
  }

  /** Within one generation a known signal is not reopened. */
  lemma OpenWasOpen(s: Store, u: Store, id: Id)
    requires Evolves(s, u) && u.arm == s.arm && id in s.signals && IsOpen(u, id)
    ensures IsOpen(s, id)
  {
    assert BatchEvolves(s.signals[id], u.signals[id]);
  }

  lemma NoteKeepsTally(t: Tally, g0: nat, op: Op)
    requires Tallied(t, g0) && (op.Claim? || op.Deliver? || op.Require? || op.Return?)
    ensures Tallied(Count(t, op), g0)
  {
    var u := Do(t.store, op);
    NoteKeepsRecord(t.store, op);
    assert Tallied(t, g0) && Shape(t.store, g0);
    assert Count(t, op) == t.(store := u);
    hide *;
    StepKeepsShape(t.store, g0, op);
    NoteEvolves(t.store, g0, op);
    NoteTallied(t, u, g0);
  }

  lemma NoteKeepsRecord(s: Store, op: Op)
    requires op.Claim? || op.Deliver? || op.Require? || op.Return?
    ensures Do(s, op).history == s.history && Do(s, op).arm == s.arm
  {
  }

  lemma NoteTallied(t: Tally, u: Store, g0: nat)
    requires Tallied(t, g0) && Shape(u, g0) && Evolves(t.store, u)
    requires u.history == t.store.history && u.arm == t.store.arm
    ensures Tallied(t.(store := u), g0)
  {
    AnnouncesStay(t.store, u, g0, t.rearms);
    assert AcceptedIds(u) == AcceptedIds(t.store);
    forall rid | rid in u.history && u.history[rid].reply.Accepted? && IsOpen(u, u.history[rid].reply.signalId)
      ensures u.arm.value.generation == MAX_U64
    {
      assert GoodEntry(t.store, rid, t.store.history[rid]);
      OpenWasOpen(t.store, u, u.history[rid].reply.signalId);
    }
  }

  /** A newly recorded request, before its signal is closed. */
  lemma RecordTally(t: Tally, g0: nat, request: HandledCursor, now: Time)
    requires Tallied(t, g0)
    requires ValidHandled(request) && request.Request? && request.requestId !in t.store.history
    requires |t.store.history| < HISTORY_CAP
    ensures var (u, r) := RecordHandled(t.store, request, now);
            && r.Ok? && Recorded(t, g0, u, request, r.value)
  {
    var (u, r) := RecordHandled(t.store, request, now);
    hide RecordHandled, Shape, Evolves;
    RecordedReply(t.store, g0, request, now);
    RecordKeepsShape(t.store, g0, request, now);
    RecordEvolves(t.store, g0, request, now);
    AcceptedCount(t.store, u, request, r.value);
  }

  lemma AcceptedCount(s: Store, u: Store, request: HandledCursor, reply: HandledCursor)
    requires request.Request? && request.requestId !in s.history
    requires u.history == s.history[request.requestId := Entry(request, reply)]
    ensures |AcceptedIds(u)| == |AcceptedIds(s)| + (if reply.Accepted? then 1 else 0)
  {
    assert AcceptedIds(u) == AcceptedIds(s) + (if reply.Accepted? then {request.requestId} else {});
  }

  lemma RecordedReply(s: Store, g0: nat, request: HandledCursor, now: Time)
    requires Shape(s, g0)
    requires ValidHandled(request) && request.Request? && request.requestId !in s.history
    requires |s.history| < HISTORY_CAP
    ensures var (u, r) := RecordHandled(s, request, now);
            && r.Ok? && u.arm == s.arm
            && u.history == s.history[request.requestId := Entry(request, r.value)]
            && (r.value.Accepted? ==>
                  && r.value.signalId == request.signalId && r.value.cursor == request.cursor
                  && IsOpen(u, request.signalId)
                  && u.signals[request.signalId].handled == Some(request.cursor))
  {
    if Refusal(s, request).None? {
      AcceptMovesForward(s, g0, request);
    }
  }

  ghost predicate Recorded(t: Tally, g0: nat, u: Store, request: HandledCursor, reply: HandledCursor)
    requires t.store.arm.Some? && request.Request?
  {
    && Shape(u, g0) && Evolves(t.store, u) && u.arm == t.store.arm
    && u.history == t.store.history[request.requestId := Entry(request, reply)]
    && |AcceptedIds(u)| == |AcceptedIds(t.store)| + (if reply.Accepted? then 1 else 0)
    && (reply.Accepted? ==>
          && reply.signalId == request.signalId && reply.cursor == request.cursor
          && IsOpen(u, reply.signalId)
          && u.signals[reply.signalId].handled == Some(reply.cursor))
  }

  lemma HandleKeepsTally(t: Tally, g0: nat, request: HandledCursor, now: Time)
    requires Tallied(t, g0)
    ensures Tallied(Count(t, Handle(request, now)), g0)
  {
    if ValidHandled(request) && request.Request? {
      if request.requestId in t.store.history {
        if t.store.history[request.requestId].request == request {
          ReplayIsInert(t, g0, request, now);
        }
      } else if |t.store.history| < HISTORY_CAP {
        var (u, r) := RecordHandled(t.store, request, now);
        assert Count(t, Handle(request, now)) == Closed(t, u, r.value);
        hide *;
        RecordTally(t, g0, request, now);
        CloseKeepsTally(t, g0, u, request, r.value);
      }
    }
  }

  /** The tally after the signal of a newly recorded request was closed, or not. */
  function Closed(t: Tally, u: Store, reply: HandledCursor): Tally {
    var (v, r) := CloseAccepted(u, reply);
    match r
    case Ok(serve) =>
      Tally(v, if serve.rearm.Some? then t.rearms + [serve.rearm.value] else t.rearms, t.overflows)
    case Err(e) => Tally(v, t.rearms, if e == GenerationOverflow then t.overflows + 1 else t.overflows)
  }

  lemma CloseKeepsTally(t: Tally, g0: nat, u: Store, request: HandledCursor, reply: HandledCursor)
    requires Tallied(t, g0) && request.Request? && Recorded(t, g0, u, request, reply)
    ensures Tallied(Closed(t, u, reply), g0)
  {
    var (v, r) := CloseAccepted(u, reply);
    if reply.Accepted? {
      assert GoodEntry(u, request.requestId, u.history[request.requestId]);
      CloseOutcome(u, g0, reply);
      if r.Ok? {
        RearmTallied(t, g0, u, request, reply);
      } else {
        AnnouncesStay(t.store, u, g0, t.rearms);
      }
    } else {
      AnnouncesStay(t.store, u, g0, t.rearms);
      forall rid | rid in u.history && u.history[rid].reply.Accepted? && IsOpen(u, u.history[rid].reply.signalId)
        ensures u.arm.value.generation == MAX_U64
      {
        assert GoodEntry(t.store, rid, t.store.history[rid]);
        OpenWasOpen(t.store, u, u.history[rid].reply.signalId);
      }
    }
  }

  lemma RearmTallied(t: Tally, g0: nat, u: Store, request: HandledCursor, reply: HandledCursor)
    requires Tallied(t, g0) && request.Request? && Recorded(t, g0, u, request, reply) && reply.Accepted?
    requires u.arm.value.generation < MAX_U64 && reply.signalId in u.signals
    requires Handled(u.signals[reply.signalId], reply.cursor)
    ensures Tallied(Closed(t, u, reply), g0)
  {
    var v := CloseAccepted(u, reply).0;
    var last := AckRearm(reply.cursor, u.arm.value.generation + 1, reply.signalId);
    hide CloseAccepted, Evolves, Shape, AcceptedIds;
    CloseOutcome(u, g0, reply);
    CloseKeepsShape(u, g0, reply);
    CloseEvolves(t.store, u, g0, reply);
    EvolvesSelf(u, g0);
    CloseEvolves(u, u, g0, reply);
    AnnouncesStay(t.store, v, g0, t.rearms);
    AcceptedAllClosed(u, v, g0, reply.signalId);
    SameAccepted(u, v);
    OneMoreRearm(t, g0, v, last);
    assert Closed(t, u, reply) == Tally(v, t.rearms + [last], t.overflows);
  }

  lemma OneMoreRearm(t: Tally, g0: nat, v: Store, last: AckRearm)
    requires Tallied(t, g0) && Shape(v, g0)
    requires v.arm.value.generation == t.store.arm.value.generation + 1 <= MAX_U64
    requires forall i | 0 <= i < |t.rearms| :: Announces(v, t.rearms[i], g0 + i)
    requires Announces(v, last, t.store.arm.value.generation)
    requires |AcceptedIds(v)| == |AcceptedIds(t.store)| + 1
    requires forall rid | rid in v.history && v.history[rid].reply.Accepted? ::
               !IsOpen(v, v.history[rid].reply.signalId)
    ensures Tallied(Tally(v, t.rearms + [last], t.overflows), g0)
  {
    hide Shape, Announces, AcceptedIds, IsOpen;
    ArmPresent(t.store, g0);
    ArmPresent(v, g0);
  }

  lemma ArmPresent(s: Store, g0: nat)
    requires Shape(s, g0)
    ensures s.arm.Some? && g0 <= s.arm.value.generation
  {
  }

  lemma EvolvesSelf(s: Store, g0: nat)
    requires Shape(s, g0)
    ensures Evolves(s, s)
  {
  }

  lemma SameAccepted(u: Store, v: Store)
    requires v.history == u.history
    ensures AcceptedIds(v) == AcceptedIds(u)
  {
  }

  /** Closing the only open signal leaves every accepted entry on a closed one. */
  lemma AcceptedAllClosed(u: Store, v: Store, g0: nat, id: Id)
    requires Shape(u, g0) && Shape(v, g0) && v.history == u.history && v.signals.Keys == u.signals.Keys
    requires v.arm.value.generation == u.arm.value.generation + 1
    requires Evolves(u, v)
    ensures forall rid | rid in v.history && v.history[rid].reply.Accepted? ::
              !IsOpen(v, v.history[rid].reply.signalId)
  {
    forall rid | rid in v.history && v.history[rid].reply.Accepted?
      ensures !IsOpen(v, v.history[rid].reply.signalId)
    {
      var o := v.history[rid].reply.signalId;
      assert GoodEntry(u, rid, u.history[rid]);
      assert FitsBatch(u, g0, u.signals[o]);
      assert BatchEvolves(u.signals[o], v.signals[o]);
    }
  }

  lemma DaemonStep(t: Tally, g0: nat, op: Op)
    requires Tallied(t, g0) && IsDaemonOp(op)
    ensures Tallied(Count(t, op), g0) && Evolves(t.store, Count(t, op).store)
  {
    assert Tallied(Count(t, op), g0) by {
      if op.Handle? {
        HandleKeepsTally(t, g0, op.request, op.now);
      } else {
        NoteKeepsTally(t, g0, op);
      }
    }
    assert Evolves(t.store, Do(t.store, op)) by { StepEvolves(t.store, g0, op); }
  }

  /** Main result: over every daemon run the rearms number the closed generations, carry
      consecutive generations and name the cursors closed at; every accepted request is
      one rearm or one refusal for a spent counter. */
  lemma {:induction false} RearmsExactlyOnce(arm: KnownArm, ops: seq<Op>)
    requires arm.generation <= MAX_U64
    requires forall i | 0 <= i < |ops| :: IsDaemonOp(ops[i])
    ensures Tallied(CountRun(Tally(WithArm(arm), [], 0), ops), arm.generation)
    decreases |ops|
  {
    if ops == [] {
      assert AcceptedIds(WithArm(arm)) == {};
    } else {
      var t := CountRun(Tally(WithArm(arm), [], 0), ops[..|ops| - 1]);
      var op := ops[|ops| - 1];
      RearmsExactlyOnce(arm, ops[..|ops| - 1]);
      DaemonStep(t, arm.generation, op);
    }
  }

  /** Main result: a recorded request keeps its outcome for the rest of the run. */
  lemma {:induction false} ReplayForever(t: Tally, g0: nat, ops: seq<Op>, request: HandledCursor, now: Time)
    requires Tallied(t, g0)
    requires forall i | 0 <= i < |ops| :: IsDaemonOp(ops[i])
    requires ValidHandled(request) && request.Request? && request.requestId in t.store.history
    requires t.store.history[request.requestId].request == request
    ensures var u := CountRun(t, ops);
            var reply := t.store.history[request.requestId].reply;
            && Tallied(u, g0) && Count(u, Handle(request, now)) == u
            && (ApplyHandled(u.store, request, now).1 == Ok(HandledServe(reply, None))
                <==> !(reply.Accepted? && IsOpen(u.store, reply.signalId)))
            && (reply.Accepted? && IsOpen(u.store, reply.signalId) ==> u.store.arm.value.generation == MAX_U64)
    decreases |ops|
  {
    RunKeepsEntry(t, g0, ops, request.requestId);
    ReplayIsInert(CountRun(t, ops), g0, request, now);
  }

  lemma {:induction false} RunKeepsEntry(t: Tally, g0: nat, ops: seq<Op>, rid: Id)
    requires Tallied(t, g0) && rid in t.store.history
    requires forall i | 0 <= i < |ops| :: IsDaemonOp(ops[i])
    ensures var u := CountRun(t, ops);
            Tallied(u, g0) && rid in u.store.history && u.store.history[rid] == t.store.history[rid]
    decreases |ops|
  {
    if ops != [] {
      var mid := CountRun(t, ops[..|ops| - 1]);
      var op := ops[|ops| - 1];
      RunKeepsEntry(t, g0, ops[..|ops| - 1], rid);
      DaemonStep(mid, g0, op);
    }
  }

  // ----- when recording and closing are called apart -----

  /** A rearm names the cursor its signal closed at exactly when the request was new, or
      was recorded earlier and is still the signal's handled cursor. */
  lemma RearmNamesClosedCursor(s: Store, g0: nat, request: HandledCursor, now: Time)
    requires Shape(s, g0)
    requires var r := ApplyHandled(s, request, now).1; r.Ok? && r.value.rearm.Some?
    ensures request.Request?
    ensures var (t, r) := ApplyHandled(s, request, now);
            var rearm := r.value.rearm.value;
            && rearm.signalId in t.signals && t.signals[rearm.signalId].closed
            && (t.signals[rearm.signalId].handled == Some(rearm.after)
                <==> (request.requestId in s.history ==>
                        rearm.signalId in s.signals && s.signals[rearm.signalId].handled == Some(request.cursor)))
  {
    if request.Request? && request.requestId in s.history {
      assert GoodEntry(s, request.requestId, s.history[request.requestId]);
    }
  }

  function Ulid(c: char): Id {
    seq(26, _ => c)
  }

  const SAMPLE_ARM := KnownArm(Ulid('A'), 1, "seat", "return_foreground", 0)

  function SampleRequest(id: char, cursor: Id): HandledCursor {
    Request(Ulid(id), Ulid('A'), 1, "seat", Ulid('S'), cursor, Some(0))
  }

  /** Two events delivered, then each acknowledged by a bare `record_handled`. */
  const BARE_RUN: seq<Op> := [
    Deliver(Ulid('S'), ["a", "b"], ["a", "b"]),
    Record(SampleRequest('1', "a"), 0),
    Record(SampleRequest('2', "b"), 0)]

  /** The open signal of that run, by what was handled in it. */
  function SampleBatch(handled: Option<Id>): Batch {
    FreshBatch(SAMPLE_ARM, ["a", "b"], ["a", "b"]).(handled := handled)
  }

  lemma SampleDelivered()
    ensures Do(WithArm(SAMPLE_ARM), BARE_RUN[0])
         == WithArm(SAMPLE_ARM).(signals := map[Ulid('S') := SampleBatch(None)])
  {
  }

  lemma SampleRecorded(s: Store, id: char, cursor: Id, handled: Option<Id>)
    requires s.arm == Some(SAMPLE_ARM) && s.signals == map[Ulid('S') := SampleBatch(handled)]
    requires Ulid(id) !in s.history && |s.history| < HISTORY_CAP && ValidHandled(SampleRequest(id, cursor))
    requires (handled.None? && cursor == "a") || (handled == Some("a") && cursor == "b")
    ensures var t := Do(s, Record(SampleRequest(id, cursor), 0));
            && t.arm == s.arm && t.signals == map[Ulid('S') := SampleBatch(Some(cursor))]
            && t.history.Keys == s.history.Keys + {Ulid(id)} && |t.history| == |s.history| + 1
            && (forall rid | rid in s.history :: t.history[rid] == s.history[rid])
            && t.history[Ulid(id)].request == SampleRequest(id, cursor) && t.history[Ulid(id)].reply.Accepted?
  {
    var refs := ["a", "b"];
    assert refs[0] != refs[1];
    PositionInDistinct(refs, 0);
    PositionInDistinct(refs, 1);
    hide ValidHandled;
    assert Refusal(s, SampleRequest(id, cursor)).None?;
    hide Refusal;
  }

  lemma SampleValid()
    ensures ValidHandled(SampleRequest('1', "a")) && ValidHandled(SampleRequest('2', "b"))
    ensures Ulid('1') != Ulid('2')
  {
    assert Ulid('1')[0] != Ulid('2')[0];
  }

  lemma RunOfThree(s: Store, ops: seq<Op>)
    requires |ops| == 3
    ensures Run(s, ops) == Do(Do(Do(s, ops[0]), ops[1]), ops[2])
  {
    hide Do;
    assert ops[..1][..0] == ops[..0] && ops[..2][..1] == ops[..1] && ops[..3] == ops;
    assert Run(s, ops[..1]) == Do(Run(s, ops[..0]), ops[0]);
    assert Run(s, ops[..2]) == Do(Run(s, ops[..1]), ops[1]);
  }

  lemma BareRunStores()
    ensures var s := Run(WithArm(SAMPLE_ARM), BARE_RUN);
            && Shape(s, 1) && IsOpen(s, Ulid('S'))
            && s.signals[Ulid('S')].handled == Some("b")
            && Ulid('1') in s.history && s.history[Ulid('1')].request == SampleRequest('1', "a")
            && s.history[Ulid('1')].reply.Accepted?
            && s.arm.value.generation == 1
  {
    hide Do, Run, Shape, ValidHandled, Ulid;
    var s0 := WithArm(SAMPLE_ARM);
    SampleValid();
    SampleDelivered();
    var s1 := Do(s0, BARE_RUN[0]);
    SampleRecorded(s1, '1', "a", None);
    SampleRecorded(Do(s1, BARE_RUN[1]), '2', "b", Some("a"));
    RunOfThree(s0, BARE_RUN);
    ShapeOfRuns(SAMPLE_ARM, BARE_RUN);
  }

  /** After that run, replaying the first request through `apply_handled_request` closes
      the signal at "b" but announces "a". */
  lemma BareRecordMisnamesRearm()
    ensures var s := Run(WithArm(SAMPLE_ARM), BARE_RUN);
            var (t, r) := ApplyHandled(s, SampleRequest('1', "a"), 0);
            && r.Ok? && r.value.rearm == Some(AckRearm("a", 2, Ulid('S')))
            && Ulid('S') in t.signals && t.signals[Ulid('S')].closed
            && t.signals[Ulid('S')].handled == Some("b")
  {
    BareRunStores();
    hide Run, Shape;
    assert ValidHandled(SampleRequest('1', "a"));
    var s := Run(WithArm(SAMPLE_ARM), BARE_RUN);
    EntryIsGood(s, 1, Ulid('1'));
  }

  lemma EntryIsGood(s: Store, g0: nat, rid: Id)
    requires Shape(s, g0) && rid in s.history
    ensures GoodEntry(s, rid, s.history[rid])
  {
  }
}
