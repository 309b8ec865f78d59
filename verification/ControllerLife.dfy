/** The exact lifecycle of one observed turn, whatever else the process reports. */
module ControllerLife {
  import opened Prelude
  import opened Transport
  import opened Controllers
  import opened ControllerProofs

  /** The turn under observation: its private reference and its native coordinates. */
  datatype Target = Target(turnRef: Id, thread: string, turn: string)

  predicate IsEnd(n: Notification, o: Target) {
    n.TurnEnded? && n.thread == o.thread && n.turn == o.turn
  }

  predicate IsStart(n: Notification, o: Target) {
    n == TurnBegan(o.thread, o.turn)
  }

  /** The start of the turn was seen. */
  ghost predicate Began(seen: seq<Notification>, o: Target) {
    exists i :: 0 <= i < |seen| && IsStart(seen[i], o)
  }

  /** A completion of the turn was seen after a start of it. */
  ghost predicate EndsAfterStart(seen: seq<Notification>, o: Target) {
    exists i, j :: 0 <= i < j < |seen| && IsStart(seen[i], o) && IsEnd(seen[j], o)
  }

  /** The outcome of the first completion of the turn among what was seen. */
  function FirstEnd(seen: seq<Notification>, o: Target): Option<TerminalClass>
    decreases |seen|
  {
    if seen == [] then None
    else
      var before := FirstEnd(seen[..|seen| - 1], o);
      var last := seen[|seen| - 1];
      if before.Some? then before else if IsEnd(last, o) then Some(last.outcome) else None
  }

  /** The start and end facts among those reported. */
  function Milestones(facts: seq<Fact>): seq<Fact>
    decreases |facts|
  {
    if facts == [] then []
    else
      var last := facts[|facts| - 1];
      Milestones(facts[..|facts| - 1]) + if last.Started? || last.Terminated? then [last] else []
  }

  function Reported(facts: seq<Fact>, fact: Option<Fact>): seq<Fact> {
    if fact.Some? then facts + [fact.value] else facts
  }

  lemma MilestonesAdd(facts: seq<Fact>, fact: Option<Fact>)
    ensures Milestones(Reported(facts, fact))
         == Milestones(facts)
            + if fact.Some? && (fact.value.Started? || fact.value.Terminated?) then [fact.value] else []
  {
    if fact.Some? {
      assert (facts + [fact.value])[..|facts|] == facts;
    }
  }

  lemma FirstEndAdd(seen: seq<Notification>, n: Notification, o: Target)
    ensures FirstEnd(seen + [n], o)
         == if FirstEnd(seen, o).Some? then FirstEnd(seen, o) else if IsEnd(n, o) then Some(n.outcome) else None
    ensures Began(seen + [n], o) <==> Began(seen, o) || IsStart(n, o)
    ensures EndsAfterStart(seen + [n], o) <==> EndsAfterStart(seen, o) || (Began(seen, o) && IsEnd(n, o))
  {
    var more := seen + [n];
    assert more[..|seen|] == seen && more[|seen|] == n;
    if Began(seen, o) {
      var i :| 0 <= i < |seen| && IsStart(seen[i], o);
      assert IsStart(more[i], o);
    }
    if EndsAfterStart(seen, o) {
      var i, j :| 0 <= i < j < |seen| && IsStart(seen[i], o) && IsEnd(seen[j], o);
      assert IsStart(more[i], o) && IsEnd(more[j], o);
    }
  }

  /** What a controller remembers of the turn agrees with what it reported and saw. */
  ghost predicate Life(c: Value, facts: seq<Fact>, seen: seq<Notification>, o: Target) {
    var first := FirstEnd(seen, o);
    && (c.startedTurn.None? || c.startedTurn == Some(o.turnRef))
    && (c.startedTurn.Some? <==> Began(seen, o))
    && (EndsAfterStart(seen, o) ==> c.terminal)
    && if c.terminal then
         && c.startedTurn.Some? && first.Some? && c.pendingTerminal.None?
         && Milestones(facts) == [Started(o.turnRef), Terminated(o.turnRef, first.value)]
       else
         && c.pendingTerminal == (if first.Some? then Some((o.turnRef, first.value)) else None)
         && Milestones(facts) == if c.startedTurn.Some? then [Started(o.turnRef)] else []
  }

  lemma ObserveLife(c: Value, facts: seq<Fact>, seen: seq<Notification>, n: Notification, o: Target)
    requires Life(c, facts, seen, o) && (c.startedTurn.Some? ==> c.pendingTerminal.None?)
    ensures var (d, observed) := Observe(c, n, o.turnRef, o.thread, o.turn);
            && Life(d, Reported(facts, if observed.Some? then observed.value else None), seen + [n], o)
            && (observed.None? ==> d.startedTurn == c.startedTurn && (d.startedTurn.Some? ==> d.pendingTerminal.None?))
            && (d.terminal <==> c.terminal || EndsAfterStart(seen + [n], o))
  {
    var (d, observed) := Observe(c, n, o.turnRef, o.thread, o.turn);
    hide Milestones, FirstEnd, Reported, Began, EndsAfterStart;
    FirstEndAdd(seen, n, o);
    if observed.None? {
      NothingReported(facts);
    } else {
      MilestonesAdd(facts, observed.value);
      if n.TurnEnded? {
        assert IsEnd(n, o);
      }
    }
  }

  lemma StopLife(c: Value, facts: seq<Fact>, seen: seq<Notification>, r: Result<Received, Error>, o: Target)
    requires Life(c, facts, seen, o)
    ensures Life(PollStops(c, r).0, Reported(facts, PollStops(c, r).1), seen, o)
    ensures PollStops(c, r).0.terminal == c.terminal
  {
    MilestonesAdd(facts, PollStops(c, r).1);
    hide Milestones, FirstEnd, Reported, Began, EndsAfterStart;
  }

  /** The notifications one poll takes. */
  ghost function Consumed(w: World, c: Value, o: Target): seq<Notification>
    requires Ready(w, c.t)
    decreases Budget(c.t)
  {
    ReceiveBudget(w, c.t);
    var (t, r) := Receive(w, c.t);
    if !(r.Ok? && r.value.Notified?) then []
    else
      var (d, observed) := Observe(c.(t := t, epoch := Bump(c.epoch)), r.value.notification,
                                   o.turnRef, o.thread, o.turn);
      assert d.t == t;
      [r.value.notification] + if observed.Some? then [] else Consumed(w, d, o)
  }

  lemma {:induction false} PollLoopLife(w: World, c: Value, facts: seq<Fact>, seen: seq<Notification>, o: Target)
    requires Ready(w, c.t) && Life(c, facts, seen, o) && (c.startedTurn.Some? ==> c.pendingTerminal.None?)
    ensures var (d, fact) := PollLoop(w, c, o.turnRef, o.thread, o.turn);
            && Life(d, Reported(facts, fact), seen + Consumed(w, c, o), o)
            && (d.terminal <==> c.terminal || EndsAfterStart(seen + Consumed(w, c, o), o))
    decreases Budget(c.t)
  {
    hide Receive, Sane, Life, Reported, EndsAfterStart;
    ReceiveBudget(w, c.t);
    var (t, r) := Receive(w, c.t);
    if !(r.Ok? && r.value.Notified?) {
      SameLife(c, c.(t := t), facts, seen, o);
      StopLife(c.(t := t), facts, seen, r, o);
      EndIsTerminal(c, facts, seen, o);
      assert seen + [] == seen;
    } else {
      var n := r.value.notification;
      var b := c.(t := t, epoch := Bump(c.epoch));
      SameLife(c, b, facts, seen, o);
      ObserveLife(b, facts, seen, n, o);
      var (d, observed) := Observe(b, n, o.turnRef, o.thread, o.turn);
      if observed.None? {
        NothingReported(facts);
        PollLoopLife(w, d, facts, seen + [n], o);
        assert seen + ([n] + Consumed(w, d, o)) == seen + [n] + Consumed(w, d, o);
      } else {
        assert [n] + [] == [n];
      }
    }
  }

  lemma NothingReported(facts: seq<Fact>)
    ensures Reported(facts, None) == facts
  {
  }

  lemma EndIsTerminal(c: Value, facts: seq<Fact>, seen: seq<Notification>, o: Target)
    requires Life(c, facts, seen, o)
    ensures EndsAfterStart(seen, o) ==> c.terminal
  {
  }

  /** Only these three fields speak of the turn. */
  lemma SameLife(c: Value, d: Value, facts: seq<Fact>, seen: seq<Notification>, o: Target)
    requires Life(c, facts, seen, o)
    requires d.startedTurn == c.startedTurn && d.pendingTerminal == c.pendingTerminal && d.terminal == c.terminal
    ensures Life(d, facts, seen, o)
  {
    hide Milestones, FirstEnd, Began, EndsAfterStart;
  }

  // ----- runs -----

  /** A poll for the turn, whose references open or not, or any other operation. */
  datatype Move = Look(bound: bool, opens: bool) | Other(op: Op)

  datatype Watched = Watched(c: Value, facts: seq<Fact>, seen: seq<Notification>)

  ghost function Looked(w: World, h: Watched, o: Target, bound: bool, opens: bool): Watched
    requires Ready(w, h.c.t)
  {
    var (d, fact) := Poll(w, h.c, bound, Some(o.turnRef), if opens then Some(o.thread) else None,
                          if opens then Some(o.turn) else None);
    var loops := bound && !h.c.lostReported && opens
                 && !(h.c.startedTurn == Some(o.turnRef) && h.c.pendingTerminal.Some?);
    Watched(d, Reported(h.facts, fact), if loops then h.seen + Consumed(w, h.c, o) else h.seen)
  }

  ghost function Step(w: World, h: Watched, o: Target, m: Move, seal: string -> Option<Id>): Watched {
    match m
    case Look(bound, opens) => if Ready(w, h.c.t) then Looked(w, h, o, bound, opens) else h
    case Other(op) => if op.Observation? then h else h.(c := Act(w, h.c, op, seal))
  }

  ghost function Steps(w: World, h: Watched, o: Target, moves: seq<Move>, seal: string -> Option<Id>): Watched
    decreases |moves|
  {
    if moves == [] then h else Step(w, Steps(w, h, o, moves[..|moves| - 1], seal), o, moves[|moves| - 1], seal)
  }

  /** A completion that came before its start is reported once the start was. */
  lemma PendingLife(c: Value, facts: seq<Fact>, seen: seq<Notification>, o: Target)
    requires Life(c, facts, seen, o) && c.startedTurn == Some(o.turnRef) && c.pendingTerminal.Some?
    ensures c.pendingTerminal.value.0 == o.turnRef
    ensures Life(c.(pendingTerminal := None, terminal := true),
                 Reported(facts, Some(Terminated(o.turnRef, c.pendingTerminal.value.1))), seen, o)
  {
    hide Milestones, FirstEnd, Reported, Began, EndsAfterStart;
    MilestonesAdd(facts, Some(Terminated(o.turnRef, c.pendingTerminal.value.1)));
  }

  lemma DegradedLife(c: Value, facts: seq<Fact>, seen: seq<Notification>, o: Target)
    requires Life(c, facts, seen, o)
    ensures Life(DegradedOnce(c).0, Reported(facts, DegradedOnce(c).1), seen, o)
    ensures DegradedOnce(c).0.terminal == c.terminal
  {
    hide Milestones, FirstEnd, Reported, Began, EndsAfterStart;
    MilestonesAdd(facts, DegradedOnce(c).1);
  }

  lemma OwnStart(c: Value, facts: seq<Fact>, seen: seq<Notification>, o: Target)
    requires Life(c, facts, seen, o)
    ensures c.startedTurn.None? || c.startedTurn == Some(o.turnRef)
    ensures c.startedTurn.Some? <==> Began(seen, o)
  {
  }

  /** A bound poll, on a controller not reported lost, after a start and a completion. */
  ghost predicate Collects(w: World, h: Watched, o: Target, m: Move) {
    && m.Look? && m.bound && Ready(w, h.c.t) && !h.c.lostReported
    && Began(h.seen, o) && FirstEnd(h.seen, o).Some?
  }

  ghost predicate Collected(w: World, h: Watched, o: Target, moves: seq<Move>, seal: string -> Option<Id>) {
    exists k :: 0 <= k < |moves| && Collects(w, Steps(w, h, o, moves[..k], seal), o, moves[k])
  }

  lemma CollectsOneMore(w: World, h: Watched, o: Target, moves: seq<Move>, m: Move, seal: string -> Option<Id>)
    ensures Collected(w, h, o, moves + [m], seal) <==>
              Collected(w, h, o, moves, seal) || Collects(w, Steps(w, h, o, moves, seal), o, m)
  {
    hide Collects, Steps;
    var longer := moves + [m];
    assert longer[..|moves|] == moves && longer[|moves|] == m;
    assert forall k | 0 <= k < |moves| :: longer[..k] == moves[..k] && longer[k] == moves[k];
  }

  /** A start and a completion that are not pending any more have been reported. */
  lemma NotPending(c: Value, facts: seq<Fact>, seen: seq<Notification>, o: Target)
    requires Life(c, facts, seen, o) && c.pendingTerminal.None?
    ensures FirstEnd(seen, o).Some? ==> c.terminal
  {
    hide Milestones, FirstEnd, Began, EndsAfterStart;
  }

  lemma OwnPending(c: Value, facts: seq<Fact>, seen: seq<Notification>, o: Target)
    requires Life(c, facts, seen, o) && c.startedTurn.Some? && c.pendingTerminal.Some?
    ensures Began(seen, o) && FirstEnd(seen, o).Some?
  {
    hide Milestones, FirstEnd, Began, EndsAfterStart;
  }

  lemma LookLife(w: World, h: Watched, o: Target, bound: bool, opens: bool)
    requires Ready(w, h.c.t) && Life(h.c, h.facts, h.seen, o)
    ensures var g := Looked(w, h, o, bound, opens);
            && Life(g.c, g.facts, g.seen, o) && h.seen <= g.seen
            && (g.c.terminal <==>
                  h.c.terminal || EndsAfterStart(g.seen, o) || Collects(w, h, o, Look(bound, opens)))
  {
    hide PollLoop, Consumed, Sane, Life, DegradedOnce, Reported, Began, EndsAfterStart, FirstEnd;
    NothingReported(h.facts);
    OwnStart(h.c, h.facts, h.seen, o);
    EndIsTerminal(h.c, h.facts, h.seen, o);
    if h.c.pendingTerminal.None? {
      NotPending(h.c, h.facts, h.seen, o);
    } else if h.c.startedTurn.Some? {
      OwnPending(h.c, h.facts, h.seen, o);
    }
    if bound && !h.c.lostReported {
      if h.c.startedTurn == Some(o.turnRef) && h.c.pendingTerminal.Some? {
        PendingLife(h.c, h.facts, h.seen, o);
      } else if !opens {
        DegradedLife(h.c, h.facts, h.seen, o);
      } else {
        PollLoopLife(w, h.c, h.facts, h.seen, o);
      }
    }
  }

  ghost predicate SameTurn(c: Value, d: Value) {
    d.startedTurn == c.startedTurn && d.pendingTerminal == c.pendingTerminal && d.terminal == c.terminal
  }

  lemma ReserveKeepsTurn(w: World, c: Value, lane: Lane, command: Command, thread: Option<string>, live: bool,
                         bound: bool, leased: bool)
    requires Ready(w, c.t)
    ensures SameTurn(c, Reserve(w, c, lane, command, thread, live, bound, leased).0)
  {
    hide Drain, Sane, PrepareTurn;
  }

  lemma PerformKeepsTurn(w: World, c: Value, id: nat, command: Command, seal: string -> Option<Id>)
    requires Ready(w, c.t)
    ensures SameTurn(c, Perform(w, c, id, command, seal).0)
  {
    hide Receive, Sane, Dispatch;
  }

  lemma OtherKeepsTurn(w: World, c: Value, op: Op, seal: string -> Option<Id>)
    requires !op.Observation?
    ensures SameTurn(c, Act(w, c, op, seal))
  {
    hide Drain, AskThread, Receive, Sane, Reserve, Perform;
    if op.Write? && Ready(w, c.t) {
      ReserveKeepsTurn(w, c, op.lane, op.command, op.thread, op.live, op.bound, op.leased);
      ReserveBudget(w, c, op.lane, op.command, op.thread, op.live, op.bound, op.leased);
      var (d, reserved) := Reserve(w, c, op.lane, op.command, op.thread, op.live, op.bound, op.leased);
      if reserved.Ok? {
        PerformKeepsTurn(w, d, reserved.value, op.command, seal);
      }
    }
  }

  lemma {:induction false} LifeOfRuns(w: World, h: Watched, o: Target, moves: seq<Move>, seal: string -> Option<Id>)
    requires Life(h.c, h.facts, h.seen, o)
    ensures var g := Steps(w, h, o, moves, seal);
            && Life(g.c, g.facts, g.seen, o)
            && (g.c.terminal <==> h.c.terminal || EndsAfterStart(g.seen, o) || Collected(w, h, o, moves, seal))
    decreases |moves|
  {
    hide Life, Looked, Act, Sane, EndsAfterStart, Collected;
    if moves == [] {
      EndIsTerminal(h.c, h.facts, h.seen, o);
      assert !Collected(w, h, o, [], seal) by { NothingCollected(w, h, o, seal); }
    } else {
      var n := |moves| - 1;
      LifeOfRuns(w, h, o, moves[..n], seal);
      var mid := Steps(w, h, o, moves[..n], seal);
      assert moves == moves[..n] + [moves[n]];
      CollectsOneMore(w, h, o, moves[..n], moves[n], seal);
      EndIsTerminal(mid.c, mid.facts, mid.seen, o);
      match moves[n]
      case Look(bound, opens) =>
        if Ready(w, mid.c.t) {
          LookLife(w, mid, o, bound, opens);
          if EndsAfterStart(mid.seen, o) { EndsStay(mid.seen, Looked(w, mid, o, bound, opens).seen, o); }
        }
      case Other(op) =>
        if !op.Observation? {
          OtherKeepsTurn(w, mid.c, op, seal);
          SameLife(mid.c, Act(w, mid.c, op, seal), mid.facts, mid.seen, o);
        }
    }
  }

  lemma EndsStay(seen: seq<Notification>, more: seq<Notification>, o: Target)
    requires seen <= more && EndsAfterStart(seen, o)
    ensures EndsAfterStart(more, o)
  {
    var i, j :| 0 <= i < j < |seen| && IsStart(seen[i], o) && IsEnd(seen[j], o);
    assert IsStart(more[i], o) && IsEnd(more[j], o);
  }

  lemma NothingCollected(w: World, h: Watched, o: Target, seal: string -> Option<Id>)
    ensures !Collected(w, h, o, [], seal)
  {
  }

  /** Main result: on a fresh controller, for any arrival order, duplication and interleaving
      with other turns and other operations, the start and end facts reported for one turn
      are a prefix of start, end. The start is reported exactly when one was seen. The end
      is reported, as the first completion seen, exactly when the start was and either a
      completion was seen after it, or one before it and a bound poll followed on a
      controller not reported lost. */
  lemma ExactLifecycle(w: World, t: State, o: Target, moves: seq<Move>, seal: string -> Option<Id>)
    ensures var h := Watched(Fresh(t), [], []);
            var g := Steps(w, h, o, moves, seal);
            var m := Milestones(g.facts);
            var first := FirstEnd(g.seen, o);
            && (|| m == [] || m == [Started(o.turnRef)]
                || (first.Some? && m == [Started(o.turnRef), Terminated(o.turnRef, first.value)]))
            && (Started(o.turnRef) in m <==> Began(g.seen, o))
            && (first.Some? && Terminated(o.turnRef, first.value) in m <==>
                  EndsAfterStart(g.seen, o) || Collected(w, h, o, moves, seal))
  {
    hide Steps, Collected, EndsAfterStart, Began;
    var h := Watched(Fresh(t), [], []);
    assert Life(h.c, h.facts, h.seen, o) by { FreshLife(t, o); }
    LifeOfRuns(w, h, o, moves, seal);
  }

  lemma FreshLife(t: State, o: Target)
    ensures Life(Fresh(t), [], [], o)
  {
  }

  // ----- what ends a poll -----

  /** Until a degradation was reported, a poll that reports nothing went on until there was
      no data. */
  lemma {:induction false} SilentPoll(w: World, c: Value, turnRef: Id, thread: string, turn: string)
    requires Ready(w, c.t) && PollLoop(w, c, turnRef, thread, turn).1.None?
    ensures var d := PollLoop(w, c, turnRef, thread, turn).0;
            d.degradedReported || exists t :: Ready(w, t) && Receive(w, t) == (d.t, Err(Deadline))
    decreases Budget(c.t)
  {
    hide Receive, Sane;
    ReceiveBudget(w, c.t);
    var (t, r) := Receive(w, c.t);
    if r.Ok? && r.value.Notified? {
      var (d, observed) := Observe(c.(t := t, epoch := Bump(c.epoch)), r.value.notification, turnRef, thread, turn);
      if observed.None? {
        SilentPoll(w, d, turnRef, thread, turn);
      }
    }
  }

  // ----- the other facts -----

  /** Notifications of other turns, and those without one, are passed over. */
  lemma OthersArePassedOver(c: Value, n: Notification, o: Target)
    requires n.Signal? || n.thread != o.thread || n.turn != o.turn
    ensures Observe(c, n, o.turnRef, o.thread, o.turn) == (c, None)
  {
  }

  /** An end that cannot be read is reported as such each time; a second end before the start
      is reported once, as degradation. */
  lemma UnclearEnds(c: Value, n: Notification, o: Target)
    requires !n.Signal? && n.thread == o.thread && n.turn == o.turn
    ensures n.TurnUnclear? ==>
              Observe(c, n, o.turnRef, o.thread, o.turn) == (c, Some(Some(DegradedObservation)))
    ensures n.TurnEnded? && !c.terminal && c.startedTurn != Some(o.turnRef) && c.pendingTerminal.Some? ==>
              Observe(c, n, o.turnRef, o.thread, o.turn)
              == (c.(degradedReported := true),
                  Some(if c.degradedReported then None else Some(DegradedObservation)))
  {
  }

  /** What a receive that is no notification makes a poll report: a lost controller once,
      nothing for "no data", and otherwise one degradation in all, which is "unknown" for
      errors that say nothing of the observation itself. */
  lemma StopsAreExact(c: Value, r: Result<Received, Error>)
    ensures var (d, fact) := PollStops(c, r);
            var lost := r.Err? && r.error in {Closed, Ambiguous} && !c.lostReported;
            var degrades := r.Ok? || r.error in {Malformed, Bounds, Degraded, Correlation};
            && (fact == Some(ControllerLost) <==> lost)
            && (fact == Some(DegradedObservation) <==> degrades && !c.degradedReported)
            && (fact == Some(UnknownObservation) <==>
                  !lost && !degrades && r.error != Deadline && !c.degradedReported)
            && (d.lostReported <==> c.lostReported || lost)
            && (d.degradedReported <==> c.degradedReported || (!lost && r != Err(Deadline)))
            && d == c.(lostReported := d.lostReported, degradedReported := d.degradedReported)
  {
  }

  /** A poll that is not bound, or comes after the loss was reported, does nothing; a turn
      that cannot be opened is a degradation. */
  lemma PollGuards(w: World, c: Value, bound: bool, turnRef: Option<Id>, thread: Option<string>, turn: Option<string>)
    requires Ready(w, c.t)
    ensures !bound || c.lostReported || turnRef.None? ==> Poll(w, c, bound, turnRef, thread, turn) == (c, None)
    ensures bound && !c.lostReported && turnRef.Some? && (c.startedTurn != turnRef || c.pendingTerminal.None?)
            && (thread.None? || turn.None?) ==>
              Poll(w, c, bound, turnRef, thread, turn)
              == (c.(degradedReported := true), if c.degradedReported then None else Some(DegradedObservation))
  {
    hide PollLoop;
  }
}
