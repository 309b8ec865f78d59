/** The receipts of one managed doorbell attempt: an append-only log that keeps a partial
    order of phases. */
module Attempts {
  import opened Prelude

  datatype Phase =
    | Observed | Drained | DurableClaimed | DispatchPrepared | NativeAccepted | ExactTurnStarted
    | ClaimedBatchRetrieved | HandledAcknowledged | HandledCursorRecorded | ExactTerminalObserved
    | SeatActed | CoverageRearmed

  datatype Source = ControlPlane | Provider | Controller | ClaimedBatchHelper | Seat

  datatype Receipt = Receipt(sequence: nat, phase: Phase, source: Source)

  datatype AttemptError =
    | ZeroSequence
    | UnsupportedEvidence(source: Source, phase: Phase)
    | UnexpectedSequence(expected: nat, actual: nat)
    | DuplicatePhase(phase: Phase)
    | MissingPrerequisite(phase: Phase, prerequisite: Phase)

  function Prerequisites(phase: Phase): seq<Phase> {
    match phase
    case Observed => []
    case Drained => [Observed]
    case DurableClaimed => [Drained]
    case DispatchPrepared => [DurableClaimed]
    case NativeAccepted => [DispatchPrepared]
    case ExactTurnStarted => [NativeAccepted]
    case ClaimedBatchRetrieved => [ExactTurnStarted]
    case ExactTerminalObserved => [ExactTurnStarted]
    case HandledAcknowledged => [ClaimedBatchRetrieved]
    case HandledCursorRecorded => [HandledAcknowledged]
    case SeatActed => [HandledCursorRecorded]
    case CoverageRearmed => [HandledCursorRecorded, ExactTerminalObserved]
  }

  predicate Supports(source: Source, phase: Phase) {
    match source
    case ControlPlane =>
      phase in {Observed, Drained, DurableClaimed, DispatchPrepared, HandledCursorRecorded, CoverageRearmed}
    case Provider => phase in {Observed, Drained}
    case Controller => phase in {NativeAccepted, ExactTurnStarted, ExactTerminalObserved}
    case ClaimedBatchHelper => phase in {ClaimedBatchRetrieved, HandledAcknowledged}
    case Seat => phase == SeatActed
  }

  /** `try_new`. */
  function TryNew(sequence: nat, phase: Phase, source: Source): Result<Receipt, AttemptError> {
    if sequence == 0 then Err(ZeroSequence)
    else if !Supports(source, phase) then Err(UnsupportedEvidence(source, phase))
    else Ok(Receipt(sequence, phase, source))
  }

  function Phases(trace: seq<Receipt>): (phases: seq<Phase>)
    ensures |phases| == |trace|
    ensures forall i :: 0 <= i < |phases| ==> phases[i] == trace[i].phase
  {
    seq(|trace|, i requires 0 <= i < |trace| => trace[i].phase)
  }

  function FirstMissing(needed: seq<Phase>, present: seq<Phase>): (missing: Option<Phase>)
    ensures missing.None? <==> forall p | p in needed :: p in present
  {
    if needed == [] then None
    else if needed[0] !in present then Some(needed[0])
    else FirstMissing(needed[1..], present)
  }

  /** `append`. */
  function Append(trace: seq<Receipt>, r: Receipt): Result<seq<Receipt>, AttemptError> {
    var expected := if |trace| >= MAX_U64 then MAX_U64 else |trace| + 1;
    var missing := FirstMissing(Prerequisites(r.phase), Phases(trace));
    if r.sequence != expected then Err(UnexpectedSequence(expected, r.sequence))
    else if r.phase in Phases(trace) then Err(DuplicatePhase(r.phase))
    else if missing.Some? then Err(MissingPrerequisite(r.phase, missing.value))
    else Ok(trace + [r])
  }

  /** `observe`: the source of the receipt for `phase`, if any. */
  function Observe(trace: seq<Receipt>, phase: Phase): Option<Source> {
    match Position(Phases(trace), phase)
    case Some(k) => Some(trace[k].source)
    case None => None
  }

  /** Appending the claims one by one to an empty trace, all accepted. */
  function Build(claims: seq<(nat, Phase, Source)>): Option<seq<Receipt>>
    decreases |claims|
  {
    if claims == [] then Some([])
    else
      var (sequence, phase, source) := claims[|claims| - 1];
      match Build(claims[..|claims| - 1])
      case None => None
      case Some(trace) =>
        var made := TryNew(sequence, phase, source);
        if made.Err? then None
        else
          var grown := Append(trace, made.value);
          if grown.Ok? then Some(grown.value) else None
  }

  // ----- what a trace is -----

  ghost predicate Before(phases: seq<Phase>, p: Phase, k: nat) {
    exists j :: 0 <= j < k && j < |phases| && phases[j] == p
  }

  /** Claims numbered from one, each by a source that can see its phase, no phase twice, and
      every phase after all it depends on: a linear extension of the partial order. */
  ghost predicate Linear(claims: seq<(nat, Phase, Source)>) {
    var phases := ClaimPhases(claims);
    && (forall k | 0 <= k < |claims| :: claims[k].0 == k + 1 && Supports(claims[k].2, claims[k].1))
    && Distinct(phases)
    && (forall k: nat, p | k < |phases| && p in Prerequisites(phases[k]) :: Before(phases, p, k))
  }

  function ClaimPhases(claims: seq<(nat, Phase, Source)>): (phases: seq<Phase>)
    ensures |phases| == |claims|
    ensures forall i :: 0 <= i < |phases| ==> phases[i] == claims[i].1
  {
    seq(|claims|, i requires 0 <= i < |claims| => claims[i].1)
  }

  /** `c` may come next after `claims`. */
  ghost predicate MayFollow(claims: seq<(nat, Phase, Source)>, c: (nat, Phase, Source)) {
    && c.0 == |claims| + 1 && Supports(c.2, c.1) && c.1 !in ClaimPhases(claims)
    && forall p | p in Prerequisites(c.1) :: p in ClaimPhases(claims)
  }

  lemma BeforeSame(phases: seq<Phase>, more: seq<Phase>, p: Phase, k: nat)
    requires k <= |phases| <= |more| && more[..|phases|] == phases
    ensures Before(phases, p, k) <==> Before(more, p, k)
  {
    if Before(phases, p, k) {
      var j :| 0 <= j < k && j < |phases| && phases[j] == p;
      assert more[j] == p;
    }
    if Before(more, p, k) {
      var j :| 0 <= j < k && j < |more| && more[j] == p;
      assert phases[j] == p;
    }
  }

  lemma BeforeAll(phases: seq<Phase>, p: Phase)
    ensures Before(phases, p, |phases|) <==> p in phases
  {
  }

  /** One more claim keeps a linear extension exactly when it may follow. */
  lemma LinearGrows(claims: seq<(nat, Phase, Source)>, c: (nat, Phase, Source))
    ensures Linear(claims + [c]) ==> Linear(claims) && MayFollow(claims, c)
    ensures Linear(claims) && MayFollow(claims, c) ==> Linear(claims + [c])
  {
    var longer := claims + [c];
    var phases := ClaimPhases(claims);
    var more := ClaimPhases(longer);
    var n := |claims|;
    assert more == phases + [c.1];
    forall k: nat, p | k <= n ensures Before(phases, p, k) <==> Before(more, p, k) {
      BeforeSame(phases, more, p, k);
    }
    forall p ensures Before(phases, p, n) <==> p in phases {
      BeforeAll(phases, p);
    }
    assert forall k | 0 <= k < n :: longer[k] == claims[k] && more[k] == phases[k];
    assert longer[n] == c && more[n] == c.1;
    hide Prerequisites, Supports, Before;
    if Linear(claims) && MayFollow(claims, c) {
      assert Distinct(more);
    }
  }

  /** Main result: the claims an attempt accepts in full are exactly the linear extensions of
      the doorbell order; the trace then holds them unchanged. */
  lemma {:induction false} TracesAreLinear(claims: seq<(nat, Phase, Source)>)
    requires |claims| < MAX_U64
    ensures Build(claims).Some? <==> Linear(claims)
    ensures Build(claims).Some? ==>
              var trace := Build(claims).value;
              && |trace| == |claims|
              && forall k | 0 <= k < |trace| :: trace[k] == Receipt(claims[k].0, claims[k].1, claims[k].2)
    decreases |claims|
  {
    if claims != [] {
      var n := |claims| - 1;
      var front := claims[..n];
      TracesAreLinear(front);
      assert claims == front + [claims[n]];
      LinearGrows(front, claims[n]);
      if Build(front).Some? {
        assert Phases(Build(front).value) == ClaimPhases(front);
      }
      hide Linear, Prerequisites, Supports;
    }
  }

  /** A height that every dependency lowers. */
  function Height(phase: Phase): nat {
    match phase
    case Observed => 0
    case Drained => 1
    case DurableClaimed => 2
    case DispatchPrepared => 3
    case NativeAccepted => 4
    case ExactTurnStarted => 5
    case ClaimedBatchRetrieved => 6
    case ExactTerminalObserved => 6
    case HandledAcknowledged => 7
    case HandledCursorRecorded => 8
    case SeatActed => 9
    case CoverageRearmed => 9
  }

  lemma PrerequisitesAreLower(phase: Phase, p: Phase)
    requires p in Prerequisites(phase)
    ensures Height(p) < Height(phase)
  {
  }

  /** Everything a phase depends on, directly or not. */
  ghost predicate DependsOn(phase: Phase, earlier: Phase)
    decreases Height(phase)
  {
    exists p | p in Prerequisites(phase) && Height(p) < Height(phase) :: p == earlier || DependsOn(p, earlier)
  }

  /** Main result: in an accepted trace every phase comes after everything it depends on,
      through any number of steps. */
  lemma {:induction false} TracesAreCausal(claims: seq<(nat, Phase, Source)>, k: nat, earlier: Phase)
    requires Linear(claims) && k < |claims| && DependsOn(claims[k].1, earlier)
    ensures Before(ClaimPhases(claims), earlier, k)
    decreases Height(claims[k].1)
  {
    var phases := ClaimPhases(claims);
    var p :| p in Prerequisites(phases[k]) && Height(p) < Height(phases[k]) && (p == earlier || DependsOn(p, earlier));
    assert Before(phases, p, k);
    var j :| 0 <= j < k && j < |phases| && phases[j] == p;
    if p != earlier {
      TracesAreCausal(claims, j, earlier);
    }
  }

  // ----- one receipt -----

  /** Main result: a receipt is appended exactly when it has the next number, its phase is new,
      and all its phase needs is there. Else the error is the first of these that fails, and
      for a missing phase names the first one needed that is not there. */
  lemma AppendIsExact(trace: seq<Receipt>, r: Receipt)
    requires |trace| < MAX_U64
    ensures var grown := Append(trace, r);
            var phases := Phases(trace);
            var needed := Prerequisites(r.phase);
            && (grown.Ok? <==>
                  && r.sequence == |trace| + 1 && r.phase !in phases
                  && forall i :: 0 <= i < |needed| ==> needed[i] in phases)
            && (grown.Ok? ==> grown.value == trace + [r])
            && (grown == Err(UnexpectedSequence(|trace| + 1, r.sequence)) <==> r.sequence != |trace| + 1)
            && (grown == Err(DuplicatePhase(r.phase)) <==> r.sequence == |trace| + 1 && r.phase in phases)
            && (forall p :: grown == Err(MissingPrerequisite(r.phase, p)) <==>
                  && r.sequence == |trace| + 1 && r.phase !in phases
                  && exists i :: && 0 <= i < |needed| && needed[i] == p && p !in phases
                                 && forall j :: 0 <= j < i ==> needed[j] in phases)
  {
    var needed := Prerequisites(r.phase);
    hide Prerequisites;
    forall p
      ensures FirstMissing(needed, Phases(trace)) == Some(p) <==>
                exists i :: && 0 <= i < |needed| && needed[i] == p && p !in Phases(trace)
                            && forall j :: 0 <= j < i ==> needed[j] in Phases(trace)
    {
      FirstMissingIsFirst(needed, Phases(trace), p);
    }
  }

  lemma {:induction false} FirstMissingIsFirst(needed: seq<Phase>, present: seq<Phase>, p: Phase)
    ensures FirstMissing(needed, present) == Some(p) <==>
              exists i :: && 0 <= i < |needed| && needed[i] == p && p !in present
                          && forall j :: 0 <= j < i ==> needed[j] in present
  {
    if needed != [] && needed[0] in present {
      var rest := needed[1..];
      FirstMissingIsFirst(rest, present, p);
      if i :| && 0 <= i < |rest| && rest[i] == p && p !in present && forall j :: 0 <= j < i ==> rest[j] in present {
        assert needed[i + 1] == p;
        assert forall j :: 0 < j < i + 1 ==> needed[j] == rest[j - 1];
      }
      if i :| && 0 <= i < |needed| && needed[i] == p && p !in present
              && forall j :: 0 <= j < i ==> needed[j] in present {
        assert rest[i - 1] == p;
        assert forall j :: 0 <= j < i - 1 ==> rest[j] == needed[j + 1];
      }
    }
  }

  /** A phase is observed exactly when some receipt is for it, from the source of the first. */
  lemma ObserveIsExact(trace: seq<Receipt>, phase: Phase, source: Source)
    ensures Observe(trace, phase) == Some(source) <==>
              exists k :: && 0 <= k < |trace| && trace[k].phase == phase && trace[k].source == source
                          && forall j :: 0 <= j < k ==> trace[j].phase != phase
  {
    var phases := Phases(trace);
    if Observe(trace, phase).Some? {
      var k := Position(phases, phase).value;
      assert forall j :: 0 <= j < k ==> phases[..k][j] == trace[j].phase;
    }
    if k :| && 0 <= k < |trace| && trace[k].phase == phase && trace[k].source == source
            && forall j :: 0 <= j < k ==> trace[j].phase != phase {
      assert phases[k] == phase;
      var q := Position(phases, phase).value;
      assert q == k;
    }
  }

  // ----- the order and its witnesses, phase by phase -----

  /** The phases every doorbell passes one after the other. */
  const CHAIN: seq<Phase> := [
    Observed, Drained, DurableClaimed, DispatchPrepared, NativeAccepted, ExactTurnStarted,
    ClaimedBatchRetrieved, HandledAcknowledged, HandledCursorRecorded]

  /** Where a phase stands on the chain, or past its end. */
  function Place(phase: Phase): (place: nat)
    ensures place < |CHAIN| ==> CHAIN[place] == phase
    ensures place >= |CHAIN| ==> phase !in CHAIN
  {
    match phase
    case Observed => 0
    case Drained => 1
    case DurableClaimed => 2
    case DispatchPrepared => 3
    case NativeAccepted => 4
    case ExactTurnStarted => 5
    case ClaimedBatchRetrieved => 6
    case HandledAcknowledged => 7
    case HandledCursorRecorded => 8
    case _ => 9
  }

  /** The chain in its order; the turn's end after its start; the seat's action and the rearm
      after the whole chain, the rearm also after the turn's end. */
  predicate Precedes(earlier: Phase, phase: Phase) {
    match phase
    case ExactTerminalObserved => Place(earlier) <= Place(ExactTurnStarted)
    case SeatActed => Place(earlier) < |CHAIN|
    case CoverageRearmed => Place(earlier) < |CHAIN| || earlier == ExactTerminalObserved
    case _ => Place(earlier) < Place(phase)
  }

  lemma PrecedesOneNeeded(phase: Phase, earlier: Phase)
    requires |Prerequisites(phase)| <= 1
    ensures Precedes(earlier, phase) <==>
              && Prerequisites(phase) != []
              && (Prerequisites(phase)[0] == earlier || Precedes(earlier, Prerequisites(phase)[0]))
  {
    if Prerequisites(phase) != [] {
      var p := Prerequisites(phase)[0];
      assert Place(p) < |CHAIN|;
      assert Precedes(earlier, p) <==> Place(earlier) < Place(p);
      assert p == earlier <==> Place(earlier) == Place(p);
    }
  }

  lemma PrecedesRearm(earlier: Phase)
    ensures Precedes(earlier, CoverageRearmed) <==>
              || earlier == HandledCursorRecorded || Precedes(earlier, HandledCursorRecorded)
              || earlier == ExactTerminalObserved || Precedes(earlier, ExactTerminalObserved)
  {
  }

  /** One step: a phase is preceded by what it needs, and by what precedes that. */
  lemma PrecedesByStep(phase: Phase, earlier: Phase)
    ensures Precedes(earlier, phase) <==>
              exists i :: && 0 <= i < |Prerequisites(phase)|
                          && var p := Prerequisites(phase)[i]; p == earlier || Precedes(earlier, p)
  {
    hide Precedes, Place;
    if phase == CoverageRearmed {
      PrecedesRearm(earlier);
      assert Prerequisites(phase)[0] == HandledCursorRecorded && Prerequisites(phase)[1] == ExactTerminalObserved;
    } else {
      PrecedesOneNeeded(phase, earlier);
    }
  }

  lemma NeededSome(phase: Phase, earlier: Phase) returns (p: Phase)
    requires DependsOn(phase, earlier)
    ensures p in Prerequisites(phase) && (p == earlier || DependsOn(p, earlier))
  {
    hide Prerequisites, Height;
    p :| p in Prerequisites(phase) && Height(p) < Height(phase) && (p == earlier || DependsOn(p, earlier));
  }

  lemma DependsByStep(phase: Phase, earlier: Phase)
    ensures DependsOn(phase, earlier) <==>
              exists i :: && 0 <= i < |Prerequisites(phase)|
                          && var p := Prerequisites(phase)[i]; p == earlier || DependsOn(p, earlier)
  {
    hide Prerequisites, Height, DependsOn;
    if DependsOn(phase, earlier) {
      var p := NeededSome(phase, earlier);
      var i :| 0 <= i < |Prerequisites(phase)| && Prerequisites(phase)[i] == p;
    }
    if i :| 0 <= i < |Prerequisites(phase)|
            && (Prerequisites(phase)[i] == earlier || DependsOn(Prerequisites(phase)[i], earlier))
    {
      Needs(phase, Prerequisites(phase)[i], earlier);
    }
  }

  /** Main result: a phase depends on exactly the phases that precede it. */
  lemma {:induction false} OrderMeans(phase: Phase, earlier: Phase)
    ensures DependsOn(phase, earlier) <==> Precedes(earlier, phase)
    decreases Height(phase)
  {
    DependsByStep(phase, earlier);
    PrecedesByStep(phase, earlier);
    forall i | 0 <= i < |Prerequisites(phase)|
      ensures DependsOn(Prerequisites(phase)[i], earlier) <==> Precedes(earlier, Prerequisites(phase)[i])
    {
      PrerequisitesAreLower(phase, Prerequisites(phase)[i]);
      OrderMeans(Prerequisites(phase)[i], earlier);
    }
    hide Height, Prerequisites, DependsOn, Precedes;
  }

  /** Who can witness a phase: its own actor alone, and the provider the first two as well. */
  function Witnesses(phase: Phase): set<Source> {
    match phase
    case Observed => {ControlPlane, Provider}
    case Drained => {ControlPlane, Provider}
    case DurableClaimed => {ControlPlane}
    case DispatchPrepared => {ControlPlane}
    case NativeAccepted => {Controller}
    case ExactTurnStarted => {Controller}
    case ExactTerminalObserved => {Controller}
    case ClaimedBatchRetrieved => {ClaimedBatchHelper}
    case HandledAcknowledged => {ClaimedBatchHelper}
    case HandledCursorRecorded => {ControlPlane}
    case SeatActed => {Seat}
    case CoverageRearmed => {ControlPlane}
  }

  lemma WitnessesMean(source: Source, phase: Phase, sequence: nat)
    ensures TryNew(sequence, phase, source).Ok? <==> sequence > 0 && source in Witnesses(phase)
    ensures sequence > 0 && source !in Witnesses(phase) ==>
              TryNew(sequence, phase, source) == Err(UnsupportedEvidence(source, phase))
  {
  }

  /** Coverage is rearmed only after the batch was handled and its exact turn had ended; the
      seat's own action is not needed for it. */
  lemma RearmNeeds()
    ensures DependsOn(CoverageRearmed, ExactTerminalObserved) && DependsOn(CoverageRearmed, HandledCursorRecorded)
    ensures DependsOn(CoverageRearmed, HandledAcknowledged) && DependsOn(CoverageRearmed, ClaimedBatchRetrieved)
    ensures DependsOn(CoverageRearmed, ExactTurnStarted)
    ensures !DependsOn(CoverageRearmed, SeatActed) && !DependsOn(SeatActed, ExactTerminalObserved)
  {
    hide DependsOn;
    var direct := Prerequisites(CoverageRearmed);
    assert direct[0] == HandledCursorRecorded && direct[1] == ExactTerminalObserved;
    Needs(CoverageRearmed, ExactTerminalObserved, ExactTerminalObserved);
    Needs(CoverageRearmed, HandledCursorRecorded, HandledCursorRecorded);
    Needs(HandledCursorRecorded, HandledAcknowledged, HandledAcknowledged);
    Needs(HandledAcknowledged, ClaimedBatchRetrieved, ClaimedBatchRetrieved);
    Needs(ClaimedBatchRetrieved, ExactTurnStarted, ExactTurnStarted);
    Needs(CoverageRearmed, HandledCursorRecorded, HandledAcknowledged);
    Needs(HandledCursorRecorded, HandledAcknowledged, ClaimedBatchRetrieved);
    Needs(CoverageRearmed, HandledCursorRecorded, ClaimedBatchRetrieved);
    Needs(HandledAcknowledged, ClaimedBatchRetrieved, ExactTurnStarted);
    Needs(HandledCursorRecorded, HandledAcknowledged, ExactTurnStarted);
    Needs(CoverageRearmed, HandledCursorRecorded, ExactTurnStarted);
    OnlyLower(CoverageRearmed, SeatActed);
    NotTerminal(SeatActed);
  }

  lemma Needs(phase: Phase, p: Phase, earlier: Phase)
    requires p in Prerequisites(phase) && (p == earlier || DependsOn(p, earlier))
    ensures DependsOn(phase, earlier)
  {
    PrerequisitesAreLower(phase, p);
  }

  lemma {:induction false} OnlyLower(phase: Phase, earlier: Phase)
    ensures DependsOn(phase, earlier) ==> Height(earlier) < Height(phase)
    decreases Height(phase)
  {
    forall p | p in Prerequisites(phase) ensures DependsOn(p, earlier) ==> Height(earlier) < Height(p) {
      PrerequisitesAreLower(phase, p);
      OnlyLower(p, earlier);
    }
  }

  lemma {:induction false} NotTerminal(phase: Phase)
    requires phase != CoverageRearmed
    ensures !DependsOn(phase, ExactTerminalObserved)
    decreases Height(phase)
  {
    forall p | p in Prerequisites(phase) ensures p != ExactTerminalObserved && !DependsOn(p, ExactTerminalObserved) {
      PrerequisitesAreLower(phase, p);
      NotTerminal(p);
    }
  }
}

/** The trace as its owner holds it, appended to in place. */
module AttemptTraces {
  import opened Prelude
  import opened Attempts

  class DoorbellAttemptTrace {
    var receipts: seq<Receipt>

    constructor ()
      ensures receipts == []
    {
      receipts := [];
    }

    method Contains(phase: Phase) returns (found: bool)
      ensures found == (phase in Phases(receipts))
    {
      for i := 0 to |receipts|
        invariant phase !in Phases(receipts)[..i]
      {
        if receipts[i].phase == phase {
          assert Phases(receipts)[i] == phase;
          return true;
        }
      }
      return false;
    }

    /** Appends the receipt, or leaves the trace as it is and says why. */
    method Append(r: Receipt) returns (result: Result<(), AttemptError>)
      modifies this
      ensures match Attempts.Append(old(receipts), r)
              case Ok(trace) => result == Ok(()) && receipts == trace
              case Err(e) => result == Err(e) && receipts == old(receipts)
    {
      var expected := if |receipts| >= MAX_U64 then MAX_U64 else |receipts| + 1;
      if r.sequence != expected {
        return Err(UnexpectedSequence(expected, r.sequence));
      }
      var duplicate := Contains(r.phase);
      if duplicate {
        return Err(DuplicatePhase(r.phase));
      }
      var needed := Prerequisites(r.phase);
      for i := 0 to |needed|
        invariant receipts == old(receipts)
        invariant FirstMissing(needed, Phases(receipts)) == FirstMissing(needed[i..], Phases(receipts))
      {
        assert needed[i..][1..] == needed[i + 1..] && needed[i..][0] == needed[i];
        var present := Contains(needed[i]);
        if !present {
          return Err(MissingPrerequisite(r.phase, needed[i]));
        }
      }
      receipts := receipts + [r];
      return Ok(());
    }

    method Observe(phase: Phase) returns (source: Option<Source>)
      ensures source == Attempts.Observe(receipts, phase)
    {
      for i := 0 to |receipts|
        invariant phase !in Phases(receipts)[..i]
      {
        if receipts[i].phase == phase {
          var phases := Phases(receipts);
          assert phases[i] == phase;
          var p := Position(phases, phase).value;
          assert p == i;
          return Some(receipts[i].source);
        }
      }
      assert Phases(receipts)[..|receipts|] == Phases(receipts);
      return None;
    }
  }
}
