/** The controller follows the session rule: its operations keep one request in flight. */
module ControllerFlight {
  import opened Prelude
  import opened Transport
  import opened TransportRuns
  import opened Controllers
  import opened ControllerProofs
  import opened ControllerTurn

  /** What receiving keeps: a good state, an empty flight, and a latch with nothing pending. */
  ghost predicate Rides(t: State, u: State) {
    && GoodState(u) && u.nextId == t.nextId
    && (t.pending == [] ==> u.pending == [])
    && (t.pending == [] && t.ambiguous ==> u.ambiguous && u.wire == t.wire)
    && (forall id: nat :: Framed(u.wire, id) ==> Framed(t.wire, id))
  }

  lemma ReceiveRides(w: World, t: State)
    requires Sane(w) && GoodState(t)
    ensures Rides(t, Receive(w, t).0)
  {
    hide Receive, Framed, GoodWire;
    ReceiveObeys(w, t);
  }

  lemma RidesOn(t: State, u: State, v: State)
    requires Rides(t, u) && Rides(u, v)
    ensures Rides(t, v)
  {
    hide GoodState, Framed;
  }

  lemma {:induction false} DrainRides(w: World, t: State, epoch: nat)
    requires Sane(w) && GoodState(t)
    ensures Rides(t, Drain(w, t, epoch).0)
    decreases Budget(t)
  {
    hide Receive, Sane, GoodWire, Framed;
    ReceiveRides(w, t);
    ReceiveBudget(w, t);
    var (u, r) := Receive(w, t);
    if r.Ok? {
      DrainRides(w, u, Bump(epoch));
      RidesOn(t, u, Drain(w, u, Bump(epoch)).0);
    }
  }

  lemma {:induction false} AwaitRides(w: World, t: State, epoch: nat)
    requires Sane(w) && GoodState(t)
    ensures Rides(t, AwaitThread(w, t, epoch).0)
    decreases Budget(t)
  {
    hide Receive, Sane, GoodWire, Framed;
    ReceiveRides(w, t);
    ReceiveBudget(w, t);
    var (u, r) := Receive(w, t);
    if r.Ok? {
      AwaitRides(w, u, Bump(epoch));
      RidesOn(t, u, AwaitThread(w, u, Bump(epoch)).0);
    }
  }

  lemma {:induction false} PollRides(w: World, c: Value, turnRef: Id, thread: string, turn: string)
    requires Sane(w) && GoodState(c.t)
    ensures Rides(c.t, PollLoop(w, c, turnRef, thread, turn).0.t)
    decreases Budget(c.t)
  {
    hide Receive, Sane, GoodWire, Framed;
    ReceiveRides(w, c.t);
    ReceiveBudget(w, c.t);
    var (t, r) := Receive(w, c.t);
    if r.Ok? && r.value.Notified? {
      var (d, observed) := Observe(c.(t := t, epoch := Bump(c.epoch)), r.value.notification, turnRef, thread, turn);
      if observed.None? {
        PollRides(w, d, turnRef, thread, turn);
        RidesOn(c.t, t, PollLoop(w, d, turnRef, thread, turn).0.t);
      }
    }
  }

  /** A good state, and a latch with nothing pending stays and writes nothing. */
  ghost predicate Keeps(t: State, u: State) {
    && GoodState(u)
    && (t.pending == [] && t.ambiguous ==> u.pending == [] && u.ambiguous && u.wire == t.wire)
  }

  lemma KeepsOn(t: State, u: State, v: State)
    requires Keeps(t, u) && Keeps(u, v)
    ensures Keeps(t, v)
  {
    hide GoodState;
  }

  lemma AskThreadKeeps(w: World, t: State, epoch: nat, thread: Option<string>, live: bool)
    requires Sane(w) && GoodState(t)
    ensures Keeps(t, AskThread(w, t, epoch, thread, live).0)
  {
    if thread.Some? && live {
      var u := SendRequest(w, t, ThreadRead, thread.value, thread).0;
      SendRequestBudget(w, t, ThreadRead, thread.value, thread);
      AskKeeps(w, t, ThreadRead, thread.value, thread);
      hide SendRequest, AwaitThread, Sane, GoodWire, Framed;
      AwaitRides(w, u, epoch);
    }
  }

  /** A probe leaves the transport as it was, or as one of its three stages left it. */
  lemma ProbeStages(w: World, c: Value, bound: bool, probeId: Id, thread: Option<string>, live: bool)
    requires Ready(w, c.t)
    ensures var (t1, e1, _) := Drain(w, c.t, c.epoch);
            && Ready(w, t1)
            && var (t2, e2, _) := AskThread(w, t1, e1, thread, live);
               && Ready(w, t2)
               && ProbeIdle(w, c, bound, probeId, thread, live).0.t in {c.t, t1, t2, Drain(w, t2, e2).0}
  {
    hide Drain, AskThread, Sane;
    DrainBudget(w, c.t, c.epoch);
    var (t1, e1, _) := Drain(w, c.t, c.epoch);
    AskBudget(w, t1, e1, thread, live);
  }

  lemma ProbeKeeps(w: World, c: Value, bound: bool, probeId: Id, thread: Option<string>, live: bool)
    requires Sane(w) && GoodState(c.t)
    ensures Keeps(c.t, ProbeIdle(w, c, bound, probeId, thread, live).0.t)
  {
    hide ProbeIdle, Drain, AskThread, Sane, GoodWire, Framed;
    ProbeStages(w, c, bound, probeId, thread, live);
    DrainRides(w, c.t, c.epoch);
    var (t1, e1, _) := Drain(w, c.t, c.epoch);
    AskThreadKeeps(w, t1, e1, thread, live);
    var (t2, e2, _) := AskThread(w, t1, e1, thread, live);
    KeepsOn(c.t, t1, t2);
    DrainRides(w, t2, e2);
    KeepsOn(c.t, t2, Drain(w, t2, e2).0);
  }

  /** A reservation leaves a frame nobody wrote under an id nobody used, and nothing pending. */
  lemma ReserveKeeps(w: World, c: Value, lane: Lane, command: Command, thread: Option<string>, live: bool,
                     bound: bool, leased: bool)
    requires Sane(w) && GoodState(c.t)
    ensures var (d, reserved) := Reserve(w, c, lane, command, thread, live, bound, leased);
            && Keeps(c.t, d.t)
            && (reserved.Ok? ==>
                  2 <= reserved.value < d.t.nextId && !Framed(d.t.wire, reserved.value) && d.t.pending == []
                  && !(c.t.pending == [] && c.t.ambiguous))
  {
    hide PrepareTurn, Drain, Framed, GoodWire, Sane;
    if thread.Some? {
      var t1 := PrepareTurn(w, c.t, thread.value, command.input).0;
      PrepareGood(w, c.t, thread.value, command.input);
      DrainRides(w, t1, c.epoch);
    }
  }

  lemma PerformKeeps(w: World, c: Value, id: nat, command: Command, seal: string -> Option<Id>)
    requires Sane(w) && GoodState(c.t) && c.t.pending == [] && 2 <= id < c.t.nextId && !Framed(c.t.wire, id)
    ensures GoodState(Perform(w, c, id, command, seal).0.t)
  {
    DispatchGood(w, c.t, id);
    hide Dispatch, Receive, Framed, Sane, GoodWire;
    ReceiveRides(w, Dispatch(w, c.t, id).0);
  }

  lemma ActKeeps(w: World, c: Value, op: ControllerProofs.Op, seal: string -> Option<Id>)
    requires Sane(w) && GoodState(c.t)
    ensures Keeps(c.t, Act(w, c, op, seal).t)
  {
    hide Receive, Sane, ProbeIdle, Reserve, Perform, PollLoop, Framed, GoodWire;
    match op
    case Probe(bound, probeId, thread, live) => ProbeKeeps(w, c, bound, probeId, thread, live);
    case Write(lane, command, thread, live, bound, leased) =>
      ReserveKeeps(w, c, lane, command, thread, live, bound, leased);
      var (d, reserved) := Reserve(w, c, lane, command, thread, live, bound, leased);
      if reserved.Ok? { PerformKeeps(w, d, reserved.value, command, seal); }
    case Observation(bound, turnRef, thread, turn) =>
      if turnRef.Some? && thread.Some? && turn.Some? {
        PollRides(w, c, turnRef.value, thread.value, turn.value);
      }
    case Reconciliation(_, _) => ReceiveRides(w, c.t);
  }

  /** Main result: over every run of a controller at most one request is pending, its id was
      handed out before, no request id is ever framed twice, and the bytes taken are always
      a prefix of the frame. */
  lemma {:induction false} ControllerSingleFlight(w: World, c: Value, ops: seq<ControllerProofs.Op>,
                                                  seal: string -> Option<Id>)
    requires Sane(w) && GoodState(c.t)
    ensures Keeps(c.t, ActAll(w, c, ops, seal).t)
    decreases |ops|
  {
    hide Act, Sane, GoodState;
    if ops != [] {
      var mid := ActAll(w, c, ops[..|ops| - 1], seal);
      ControllerSingleFlight(w, c, ops[..|ops| - 1], seal);
      ActKeeps(w, mid, ops[|ops| - 1], seal);
      KeepsOn(c.t, mid.t, ActAll(w, c, ops, seal).t);
    }
  }

  // ----- the latch -----

  /** A reply to what `t` has pending was among the reads before `pos`. */
  ghost predicate Replied(w: World, t: State, pos: nat) {
    t.pending != [] && exists k :: t.pos <= k < pos && IsReplyTo(w.peer(k), t.pending[0].id)
  }

  /** A latch stays with its request until that was replied to. */
  ghost predicate Holds(w: World, t: State, u: State) {
    && t.pos <= u.pos
    && (t.ambiguous ==> (u.ambiguous && u.pending == t.pending) || Replied(w, t, u.pos))
  }

  lemma ReceiveHolds(w: World, t: State)
    requires Sane(w) && GoodState(t)
    ensures Holds(w, t, Receive(w, t).0) && GoodState(Receive(w, t).0)
  {
    hide Receive, Framed, GoodWire, IsReplyTo;
    ReceiveObeys(w, t);
  }

  lemma HoldsOn(w: World, t: State, u: State, v: State)
    requires Holds(w, t, u) && Holds(w, u, v)
    ensures Holds(w, t, v)
  {
    hide IsReplyTo;
  }

  lemma {:induction false} DrainHolds(w: World, t: State, epoch: nat)
    requires Sane(w) && GoodState(t)
    ensures Holds(w, t, Drain(w, t, epoch).0)
    decreases Budget(t)
  {
    hide Receive, Sane, GoodWire, Holds;
    ReceiveHolds(w, t);
    ReceiveBudget(w, t);
    var (u, r) := Receive(w, t);
    if r.Ok? {
      DrainHolds(w, u, Bump(epoch));
      HoldsOn(w, t, u, Drain(w, u, Bump(epoch)).0);
    }
  }

  lemma {:induction false} AwaitHolds(w: World, t: State, epoch: nat)
    requires Sane(w) && GoodState(t)
    ensures Holds(w, t, AwaitThread(w, t, epoch).0)
    decreases Budget(t)
  {
    hide Receive, Sane, GoodWire, Holds;
    ReceiveHolds(w, t);
    ReceiveBudget(w, t);
    var (u, r) := Receive(w, t);
    if r.Ok? {
      AwaitHolds(w, u, Bump(epoch));
      HoldsOn(w, t, u, AwaitThread(w, u, Bump(epoch)).0);
    }
  }

  lemma {:induction false} PollHolds(w: World, c: Value, turnRef: Id, thread: string, turn: string)
    requires Sane(w) && GoodState(c.t)
    ensures Holds(w, c.t, PollLoop(w, c, turnRef, thread, turn).0.t)
    decreases Budget(c.t)
  {
    hide Receive, Sane, GoodWire, Holds;
    ReceiveHolds(w, c.t);
    ReceiveBudget(w, c.t);
    var (t, r) := Receive(w, c.t);
    if r.Ok? && r.value.Notified? {
      var (d, observed) := Observe(c.(t := t, epoch := Bump(c.epoch)), r.value.notification, turnRef, thread, turn);
      if observed.None? {
        PollHolds(w, d, turnRef, thread, turn);
        HoldsOn(w, c.t, t, PollLoop(w, d, turnRef, thread, turn).0.t);
      }
    }
  }

  lemma AskThreadHolds(w: World, t: State, epoch: nat, thread: Option<string>, live: bool)
    requires Sane(w) && GoodState(t)
    ensures Holds(w, t, AskThread(w, t, epoch, thread, live).0)
  {
    if thread.Some? && live {
      var u := SendRequest(w, t, ThreadRead, thread.value, thread).0;
      SendRequestBudget(w, t, ThreadRead, thread.value, thread);
      AskKeeps(w, t, ThreadRead, thread.value, thread);
      hide SendRequest, AwaitThread, Sane, GoodState;
      AwaitHolds(w, u, epoch);
    }
  }

  lemma ProbeHolds(w: World, c: Value, bound: bool, probeId: Id, thread: Option<string>, live: bool)
    requires Sane(w) && GoodState(c.t)
    ensures Holds(w, c.t, ProbeIdle(w, c, bound, probeId, thread, live).0.t)
  {
    assert Holds(w, c.t, c.t);
    hide ProbeIdle, Drain, AskThread, Sane, GoodWire, Holds;
    ProbeStages(w, c, bound, probeId, thread, live);
    DrainGood(w, c.t, c.epoch);
    DrainHolds(w, c.t, c.epoch);
    var (t1, e1, _) := Drain(w, c.t, c.epoch);
    AskThreadKeeps(w, t1, e1, thread, live);
    AskThreadHolds(w, t1, e1, thread, live);
    var (t2, e2, _) := AskThread(w, t1, e1, thread, live);
    HoldsOn(w, c.t, t1, t2);
    DrainHolds(w, t2, e2);
    HoldsOn(w, c.t, t2, Drain(w, t2, e2).0);
  }

  /** A latched transport refuses the turn before anything is prepared. */
  lemma WriteHolds(w: World, c: Value, op: ControllerProofs.Op, seal: string -> Option<Id>)
    requires Sane(w) && GoodState(c.t) && op.Write?
    ensures Holds(w, c.t, Act(w, c, op, seal).t)
  {
    hide Sane, Drain, Perform;
    var lane, command, thread, live, bound, leased := op.lane, op.command, op.thread, op.live, op.bound, op.leased;
    ReserveBudget(w, c, lane, command, thread, live, bound, leased);
    var (d, reserved) := Reserve(w, c, lane, command, thread, live, bound, leased);
    if c.t.ambiguous {
      assert reserved.Err? && d.t == c.t;
    } else {
      ReservePos(w, c, lane, command, thread, live, bound, leased);
      hide Reserve;
      if reserved.Ok? {
        PerformPos(w, d, reserved.value, command, seal);
      }
    }
  }

  lemma ReservePos(w: World, c: Value, lane: Lane, command: Command, thread: Option<string>, live: bool,
                   bound: bool, leased: bool)
    requires Sane(w) && GoodState(c.t)
    ensures c.t.pos <= Reserve(w, c, lane, command, thread, live, bound, leased).0.t.pos
  {
    if thread.Some? {
      var t1 := PrepareTurn(w, c.t, thread.value, command.input).0;
      PrepareGood(w, c.t, thread.value, command.input);
      hide PrepareTurn, Drain, GoodState, Sane;
      DrainHolds(w, t1, c.epoch);
    }
  }

  lemma PerformPos(w: World, c: Value, id: nat, command: Command, seal: string -> Option<Id>)
    requires Ready(w, c.t)
    ensures c.t.pos <= Perform(w, c, id, command, seal).0.t.pos
  {
    var t := Dispatch(w, c.t, id).0;
    assert t.pos == c.t.pos && t.stdout == c.t.stdout;
    hide Dispatch, ReadLoop, Sane;
    if !(t.pending == [] && t.notes != []) {
      ReadLoopBudget(w, t);
    }
  }

  lemma ActHolds(w: World, c: Value, op: ControllerProofs.Op, seal: string -> Option<Id>)
    requires Sane(w) && GoodState(c.t)
    ensures Holds(w, c.t, Act(w, c, op, seal).t)
  {
    hide Receive, Sane, ProbeIdle, WriteTurn, PollLoop, GoodWire, IsReplyTo;
    match op
    case Probe(bound, probeId, thread, live) => ProbeHolds(w, c, bound, probeId, thread, live);
    case Write(_, _, _, _, _, _) => WriteHolds(w, c, op, seal);
    case Observation(bound, turnRef, thread, turn) =>
      if turnRef.Some? && thread.Some? && turn.Some? {
        PollHolds(w, c, turnRef.value, thread.value, turn.value);
      }
    case Reconciliation(_, _) => ReceiveHolds(w, c.t);
  }

  /** Main result: over every run of a controller the latch is cleared only after a reply to
      the request it was set for was read. */
  lemma {:induction false} LatchHolds(w: World, c: Value, ops: seq<ControllerProofs.Op>, seal: string -> Option<Id>)
    requires Sane(w) && GoodState(c.t)
    ensures Holds(w, c.t, ActAll(w, c, ops, seal).t)
    decreases |ops|
  {
    if ops != [] {
      hide Act, Sane, GoodState, Holds, Keeps;
      var mid := ActAll(w, c, ops[..|ops| - 1], seal);
      LatchHolds(w, c, ops[..|ops| - 1], seal);
      ControllerSingleFlight(w, c, ops[..|ops| - 1], seal);
      KeepsGood(c.t, mid.t);
      ActHolds(w, mid, ops[|ops| - 1], seal);
      HoldsOn(w, c.t, mid.t, ActAll(w, c, ops, seal).t);
    }
  }

  lemma KeepsGood(t: State, u: State)
    requires Keeps(t, u)
    ensures GoodState(u)
  {
  }

  /** The controller never dispatches over a latch, although the transport would. */
  lemma DispatchIsUnlatched(w: World, c: Value, lane: Lane, command: Command, thread: Option<string>, live: bool,
                            bound: bool, leased: bool)
    requires Sane(w) && GoodState(c.t)
    requires Reserve(w, c, lane, command, thread, live, bound, leased).1.Ok?
    ensures var d := Reserve(w, c, lane, command, thread, live, bound, leased).0;
            !d.t.ambiguous && d.t.pending == []
  {
    var t1 := PrepareTurn(w, c.t, thread.value, command.input).0;
    PrepareGood(w, c.t, thread.value, command.input);
    hide PrepareTurn, Drain, Sane, GoodState;
    DrainUnlatched(w, t1, c.epoch);
  }

  lemma {:induction false} DrainUnlatched(w: World, t: State, epoch: nat)
    requires Sane(w) && GoodState(t) && t.pending == [] && !t.ambiguous && Drain(w, t, epoch).2.Ok?
    ensures !Drain(w, t, epoch).0.ambiguous && Drain(w, t, epoch).0.pending == []
    decreases Budget(t)
  {
    hide Receive, Sane, GoodWire, Rejects;
    ReceiveObeys(w, t);
    ReceiveBudget(w, t);
    RejectionWipesFrame(w, t);
    var (u, r) := Receive(w, t);
    if r.Ok? {
      ReceiveUnlatched(w, t);
      DrainUnlatched(w, u, Bump(epoch));
    } else {
      NoDataMeans(w, t);
    }
  }

  lemma ReceiveUnlatched(w: World, t: State)
    requires Ready(w, t) && t.pending == [] && !t.ambiguous && Receive(w, t).1.Ok?
    ensures !Receive(w, t).0.ambiguous
  {
    hide Sane, WriteAll, ParseResponse;
    if t.notes == [] {
      ReadOneBudget(w, t);
    }
  }
}
