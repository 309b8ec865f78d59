/**
 The provider wait and its drain: which pages are accepted, and where coverage resumes.

 The provider's JSON is taken as already decoded: a message is its three optional
 string fields, and None stands for text that is not a message list.
 */
module WaitOn {
  import opened Prelude
  import opened Sanitize

  datatype WaitResult = Matched | Timeout | Error

  datatype WaiterState = NotStarted | Completed

  datatype DrainError =
    | MissingBaseline | NonZeroExit | Malformed | Empty | DuplicateId | Io
    | AdvisoryCannotFit(eventRef: Id, controlsRemoved: nat, scalarsClipped: nat)

  datatype DrainedEvent = DrainedEvent(
    id: Id, username: string, message: string, localLoss: Option<LocalBodyLoss>)

  datatype RawMessage = RawMessage(id: Option<string>, username: Option<string>, message: Option<string>)

  datatype WaitOutcome = WaitOutcome(
    waiter: WaiterState, result: WaitResult, chanvoyExit: Option<int>, processExit: int,
    drained: seq<DrainedEvent>, newest: Option<Id>, drainError: Option<DrainError>)

  function FromCode(code: int): WaitResult {
    if code == 0 then Matched else if code == 1 then Timeout else Error
  }

  /** `prepare_body` under the product limits. */
  function PrepareBody(raw: string, segment: string -> seq<string>): Result<PreparedBody, BodyError> {
    Sanitize.Prepare(raw, segment(Clean(raw)), MAX_BODY, MAX_BODY_BYTES)
  }

  function OrElse(s: Option<string>, default: string): string {
    if s.Some? then s.value else default
  }

  /** One decoded message as an event, or why it is refused. */
  function ParseMessage(message: RawMessage, seen: set<Id>, segment: string -> seq<string>)
    : Result<DrainedEvent, DrainError>
  {
    if message.id.None? || !IsPasteSafe(message.id.value, MAX_ID) then Err(Malformed)
    else if message.id.value in seen then Err(DuplicateId)
    else
      var name := OrElse(message.username, "");
      var username := if IsPasteSafe(name, MAX_ID) then name else "unknown";
      match PrepareBody(OrElse(message.message, ""), segment)
      case Err(e) => Err(AdvisoryCannotFit(message.id.value, e.controlsRemoved, e.scalarsClipped))
      case Ok(body) => Ok(DrainedEvent(message.id.value, username, body.body, body.localLoss))
  }

  function Ids(events: seq<DrainedEvent>): (ids: seq<Id>)
    ensures |ids| == |events|
    ensures forall i :: 0 <= i < |ids| ==> ids[i] == events[i].id
  {
    seq(|events|, i requires 0 <= i < |events| => events[i].id)
  }

  /** The messages from `|events|` on, appended to the events already accepted. */
  function ParseRest(messages: seq<RawMessage>, events: seq<DrainedEvent>, segment: string -> seq<string>)
    : Result<seq<DrainedEvent>, DrainError>
    decreases |messages| - |events|
  {
    if |events| >= |messages| then Ok(events)
    else
      match ParseMessage(messages[|events|], (set id | id in Ids(events)), segment)
      case Err(e) => Err(e)
      case Ok(event) => ParseRest(messages, events + [event], segment)
  }

  function Parse(page: Option<seq<RawMessage>>, segment: string -> seq<string>)
    : Result<seq<DrainedEvent>, DrainError>
  {
    if page.None? then Err(Malformed)
    else if page.value == [] then Err(Empty)
    else ParseRest(page.value, [], segment)
  }

  ghost predicate IsSegmenter(segment: string -> seq<string>) {
    forall text :: IsSegmentation(segment(text), text)
  }

  /** `parse_drained_events`: one loop over the messages and a set of ids seen. */
  method ParseDrainedEvents(page: Option<seq<RawMessage>>, segment: string -> seq<string>)
    returns (r: Result<seq<DrainedEvent>, DrainError>)
    requires IsSegmenter(segment)
    ensures r == Parse(page, segment)
  {
    hide Sanitize.Prepare, Clean;
    if page.None? {
      return Err(Malformed);
    }
    if page.value == [] {
      return Err(Empty);
    }
    var messages := page.value;
    var events: seq<DrainedEvent> := [];
    var seen: set<Id> := {};
    while |events| < |messages|
      invariant |events| <= |messages|
      invariant seen == set id | id in Ids(events)
      invariant ParseRest(messages, [], segment) == ParseRest(messages, events, segment)
    {
      var message := messages[|events|];
      if message.id.None? || !IsPasteSafe(message.id.value, MAX_ID) {
        return Err(Malformed);
      }
      var id := message.id.value;
      if id in seen {
        return Err(DuplicateId);
      }
      seen := seen + {id};
      var username := "unknown";
      if message.username.Some? && IsPasteSafe(message.username.value, MAX_ID) {
        username := message.username.value;
      }
      var raw := OrElse(message.message, "");
      var pieces := segment(Clean(raw));
      var prepared := PrepareBodyWithLimits(raw, pieces, MAX_BODY, MAX_BODY_BYTES);
      if prepared.Err? {
        return Err(AdvisoryCannotFit(id, prepared.error.controlsRemoved, prepared.error.scalarsClipped));
      }
      var event := DrainedEvent(id, username, prepared.value.body, prepared.value.localLoss);
      assert Ids(events + [event]) == Ids(events) + [id];
      events := events + [event];
    }
    return Ok(events);
  }

  predicate EndsWith(s: string, tail: string) {
    |tail| <= |s| && s[|s| - |tail|..] == tail
  }

  /** `drained_event_is_displayable`: the gate in front of a claim. */
  predicate IsDisplayableEvent(event: DrainedEvent) {
    && IsDisplayable(event.message)
    && (event.localLoss.Some? ==>
          && event.localLoss.value.displayedBytes == Bytes(event.message)
          && EndsWith(event.message, Advisory()))
  }

  /** `attach_drain`; `drain` is what the provider answers, if it is asked. */
  function AttachDrain(outcome: WaitOutcome, after: Option<Id>, drain: Result<seq<DrainedEvent>, DrainError>)
    : WaitOutcome
  {
    if outcome.result != Matched then outcome
    else if after.None? then outcome.(drainError := Some(MissingBaseline), processExit := 2)
    else
      match drain
      case Ok(events) =>
        outcome.(newest := if events == [] then None else Some(events[|events| - 1].id),
                 drained := events, drainError := None)
      case Err(e) =>
        outcome.(drained := [], newest := None, drainError := Some(e), processExit := 2)
  }

  datatype CoverageAdvance = Continue(after: Id) | Stop(exit: int)

  function Advance(outcome: WaitOutcome, currentAfter: Id): CoverageAdvance {
    match outcome.result
    case Matched => if outcome.newest.Some? then Continue(outcome.newest.value) else Stop(2)
    case Timeout => Continue(currentAfter)
    case Error => Stop(if outcome.processExit == 0 then 2 else outcome.processExit)
  }

  /** The cursor after the given intervals, or the exit code of the first that stops. */
  function Watch(after: Option<Id>, outcomes: seq<WaitOutcome>): Result<Option<Id>, int>
    decreases |outcomes|
  {
    if outcomes == [] then Ok(after)
    else
      match Advance(outcomes[0], OrElse(after, ""))
      case Continue(next) => Watch(Some(next), outcomes[1..])
      case Stop(exit) => Err(exit)
  }

  /** `run_watch_loop` over the outcomes of its successive intervals. */
  method RunWatchLoop(after: Option<Id>, outcomes: seq<WaitOutcome>) returns (r: Result<Option<Id>, int>)
    ensures r == Watch(after, outcomes)
  {
    var cursor := after;
    for i := 0 to |outcomes|
      invariant Watch(after, outcomes) == Watch(cursor, outcomes[i..])
    {
      var currentAfter := OrElse(cursor, "");
      match Advance(outcomes[i], currentAfter)
      case Continue(next) =>
        assert outcomes[i..][1..] == outcomes[i + 1..];
        cursor := Some(next);
      case Stop(exit) =>
        return Err(exit);
    }
    return Ok(cursor);
  }
}

/** Accepted pages always pass the claim gate, and following the newest event skips nothing. */
module WaitOnProofs {
  import opened Prelude
  import opened Sanitize
  import opened SanitizeProofs
  import opened WaitOn

  lemma UnknownIsPasteSafe()
    ensures IsPasteSafe("unknown", MAX_ID)
  {
    AsciiBytes("unknown");
  }

  /** A prepared body passes the claim gate, and shows loss exactly when it was transformed. */
  lemma BodyIsDisplayable(raw: string, segment: string -> seq<string>)
    requires IsSegmenter(segment) && PrepareBody(raw, segment).Ok?
    ensures var body := PrepareBody(raw, segment).value;
            && (forall id, name :: IsDisplayableEvent(DrainedEvent(id, name, body.body, body.localLoss)))
            && (body.localLoss.None? <==> !NeedsTransformation(raw, MAX_BODY, MAX_BODY_BYTES))
            && (body.localLoss.None? ==> body.body == raw)
  {
    var pieces := segment(Clean(raw));
    assert IsSegmentation(pieces, Clean(raw));
    hide Sanitize.Prepare, Clean, Advisory, Bytes, IsSegmenter;
    LongestPresentable(raw, pieces, MAX_BODY, MAX_BODY_BYTES);
    if PrepareBody(raw, segment).value.localLoss.Some? {
      LossyBodyIsSafe(raw, pieces, MAX_BODY, MAX_BODY_BYTES);
    }
  }

  /** The message as an event: its own id, its author if that can be shown, its body prepared. */
  ghost predicate Shows(message: RawMessage, event: DrainedEvent, segment: string -> seq<string>) {
    && message.id == Some(event.id)
    && event.username == (if message.username.Some? && IsPasteSafe(message.username.value, MAX_ID)
                          then message.username.value else "unknown")
    && PrepareBody(if message.message.Some? then message.message.value else "", segment)
       == Ok(PreparedBody(event.message, event.localLoss))
  }

  lemma MessageIsDisplayable(message: RawMessage, seen: set<Id>, segment: string -> seq<string>)
    requires IsSegmenter(segment)
    requires ParseMessage(message, seen, segment).Ok?
    ensures var event := ParseMessage(message, seen, segment).value;
            && IsDisplayableEvent(event) && event.id !in seen && message.id == Some(event.id)
            && IsPasteSafe(event.id, MAX_ID) && IsPasteSafe(event.username, MAX_ID)
            && Shows(message, event, segment)
  {
    UnknownIsPasteSafe();
    assert !IsPasteSafe("", MAX_ID);
    hide PrepareBody, IsSegmenter, IsPasteSafe, IsDisplayableEvent;
    BodyIsDisplayable(OrElse(message.message, ""), segment);
  }

  ghost predicate GoodPage(messages: seq<RawMessage>, events: seq<DrainedEvent>, segment: string -> seq<string>) {
    && |events| <= |messages|
    && (forall i | 0 <= i < |events| ::
          && IsDisplayableEvent(events[i]) && messages[i].id == Some(events[i].id)
          && IsPasteSafe(events[i].id, MAX_ID) && IsPasteSafe(events[i].username, MAX_ID)
          && Shows(messages[i], events[i], segment))
    && Distinct(Ids(events))
  }

  lemma {:induction false} ParseRestIsGood(messages: seq<RawMessage>, events: seq<DrainedEvent>,
                                           segment: string -> seq<string>)
    requires IsSegmenter(segment) && GoodPage(messages, events, segment)
    requires ParseRest(messages, events, segment).Ok?
    ensures var page := ParseRest(messages, events, segment).value;
            |page| == |messages| && GoodPage(messages, page, segment)
    decreases |messages| - |events|
  {
    hide ParseMessage, IsDisplayableEvent, IsSegmenter, IsPasteSafe, Shows;
    if |events| < |messages| {
      var seen := set id | id in Ids(events);
      var event := ParseMessage(messages[|events|], seen, segment).value;
      MessageIsDisplayable(messages[|events|], seen, segment);
      assert Ids(events + [event]) == Ids(events) + [event.id];
      ParseRestIsGood(messages, events + [event], segment);
    }
  }

  /** Main result: every accepted page shows the provider's messages, in its order, with
      distinct ids, and none of its events is refused at the claim gate. */
  lemma AcceptedPagesPassTheGate(page: Option<seq<RawMessage>>, segment: string -> seq<string>)
    requires IsSegmenter(segment)
    requires Parse(page, segment).Ok?
    ensures var events := Parse(page, segment).value;
            && page.Some? && |events| == |page.value| > 0
            && GoodPage(page.value, events, segment)
  {
    hide ParseMessage, IsDisplayableEvent, IsPasteSafe, Shows;
    ParseRestIsGood(page.value, [], segment);
  }

  // ----- which pages are refused, and why -----

  /** The message can be an event: its id can be shown, and its body prepared. */
  ghost predicate CanShow(message: RawMessage, segment: string -> seq<string>) {
    && message.id.Some? && IsPasteSafe(message.id.value, MAX_ID)
    && PrepareBody(if message.message.Some? then message.message.value else "", segment).Ok?
  }

  /** Message `k` repeats the id of an earlier one. */
  ghost predicate Repeats(messages: seq<RawMessage>, k: nat)
    requires k < |messages|
  {
    exists j :: 0 <= j < k && messages[j].id == messages[k].id
  }

  /** Why message `k` refuses the page. */
  ghost predicate Spoils(messages: seq<RawMessage>, k: nat, e: DrainError, segment: string -> seq<string>)
    requires k < |messages|
  {
    var m := messages[k];
    match e
    case Malformed => m.id.None? || !IsPasteSafe(m.id.value, MAX_ID)
    case DuplicateId => m.id.Some? && IsPasteSafe(m.id.value, MAX_ID) && Repeats(messages, k)
    case AdvisoryCannotFit(eventRef, controls, clipped) =>
      && m.id == Some(eventRef) && IsPasteSafe(eventRef, MAX_ID) && !Repeats(messages, k)
      && PrepareBody(if m.message.Some? then m.message.value else "", segment) == Err(BodyError(controls, clipped))
    case _ => false
  }

  lemma SeenMeans(messages: seq<RawMessage>, events: seq<DrainedEvent>, segment: string -> seq<string>)
    requires GoodPage(messages, events, segment) && |events| < |messages| && messages[|events|].id.Some?
    ensures messages[|events|].id.value in Ids(events) <==> Repeats(messages, |events|)
  {
    hide Shows, IsDisplayableEvent, IsPasteSafe;
    var k := |events|;
    if j :| 0 <= j < k && messages[j].id == messages[k].id {
      assert Ids(events)[j] == messages[k].id.value;
    }
    if messages[k].id.value in Ids(events) {
      var j :| 0 <= j < |Ids(events)| && Ids(events)[j] == messages[k].id.value;
      assert messages[j].id == messages[k].id;
    }
  }

  lemma {:induction false} ParseRestFails(messages: seq<RawMessage>, events: seq<DrainedEvent>,
                                          segment: string -> seq<string>) returns (k: nat)
    requires IsSegmenter(segment) && GoodPage(messages, events, segment)
    requires ParseRest(messages, events, segment).Err?
    ensures |events| <= k < |messages| && Spoils(messages, k, ParseRest(messages, events, segment).error, segment)
    ensures forall i: nat | |events| <= i < k :: CanShow(messages[i], segment) && !Repeats(messages, i)
    decreases |messages| - |events|
  {
    hide PrepareBody, IsDisplayableEvent, IsSegmenter, IsPasteSafe, Repeats, Shows;
    var n := |events|;
    var seen := set id | id in Ids(events);
    if messages[n].id.Some? {
      SeenMeans(messages, events, segment);
    }
    match ParseMessage(messages[n], seen, segment)
    case Err(e) => k := n;
    case Ok(event) =>
      MessageIsDisplayable(messages[n], seen, segment);
      assert Ids(events + [event]) == Ids(events) + [event.id];
      assert CanShow(messages[n], segment);
      hide ParseMessage, CanShow, Spoils;
      k := ParseRestFails(messages, events + [event], segment);
  }

  /** Main result: a list of messages is accepted exactly when it is not empty, all its
      messages can be events, and no id is repeated; otherwise the error is that of the
      first message that spoils it. */
  lemma PageIsExact(messages: seq<RawMessage>, segment: string -> seq<string>)
    requires IsSegmenter(segment) && messages != []
    ensures var r := Parse(Some(messages), segment);
            && (r.Ok? <==> forall i: nat | i < |messages| :: CanShow(messages[i], segment) && !Repeats(messages, i))
            && (r.Err? ==>
                  exists k: nat ::
                    && k < |messages| && Spoils(messages, k, r.error, segment)
                    && forall i: nat | i < k :: CanShow(messages[i], segment) && !Repeats(messages, i))
  {
    hide ParseMessage, PrepareBody, IsDisplayableEvent, IsPasteSafe;
    if Parse(Some(messages), segment).Err? {
      var k := ParseRestFails(messages, [], segment);
      SpoiledIsNotFine(messages, k, Parse(Some(messages), segment).error, segment);
    } else {
      AcceptedPagesPassTheGate(Some(messages), segment);
      var events := Parse(Some(messages), segment).value;
      forall i: nat | i < |messages| ensures CanShow(messages[i], segment) && !Repeats(messages, i) {
        assert Shows(messages[i], events[i], segment);
        assert forall j | 0 <= j < i :: Ids(events)[j] != Ids(events)[i];
      }
    }
  }

  lemma SpoiledIsNotFine(messages: seq<RawMessage>, k: nat, e: DrainError, segment: string -> seq<string>)
    requires k < |messages| && Spoils(messages, k, e, segment)
    ensures !(CanShow(messages[k], segment) && !Repeats(messages, k))
  {
    hide PrepareBody, IsPasteSafe, Repeats;
  }

  /** Main result: a page is never accepted empty. The drain the daemon uses therefore
      never reports "nothing after the cursor"; it reports an error. */
  lemma NoEmptyPage(page: Option<seq<RawMessage>>, segment: string -> seq<string>)
    requires IsSegmenter(segment)
    ensures Parse(page, segment) != Ok([])
    ensures page == Some([]) ==> Parse(page, segment) == Err(Empty)
  {
    if Parse(page, segment).Ok? {
      AcceptedPagesPassTheGate(page, segment);
    }
  }

  // ----- following the newest observed event -----

  /** The drained pages of a run, one after the other. */
  function Pages(outcomes: seq<WaitOutcome>): seq<Id> {
    if outcomes == [] then []
    else (if outcomes[0].result == Matched then Ids(outcomes[0].drained) else []) + Pages(outcomes[1..])
  }

  /** Each matched interval drained a non-empty part of `log` right after its cursor. */
  ghost predicate DrainsFrom(log: seq<Id>, at: nat, outcomes: seq<WaitOutcome>)
    decreases |outcomes|
  {
    if outcomes == [] || at > |log| then true
    else if outcomes[0].result != Matched then DrainsFrom(log, at, outcomes[1..])
    else
      var page := Ids(outcomes[0].drained);
      && page != [] && at + |page| <= |log| && page == log[at..at + |page|]
      && outcomes[0].newest == Some(page[|page| - 1])
      && DrainsFrom(log, at + |page|, outcomes[1..])
  }

  /** Main result: while the watch loop goes on, its pages in order are exactly the log
      between the first cursor and the last: no event is skipped and none repeated. */
  lemma {:induction false} WatchSkipsNothing(log: seq<Id>, base: Id, after: Id, outcomes: seq<WaitOutcome>)
    requires Distinct(log) && base !in log
    requires after == base || after in log
    requires DrainsFrom(log, Covered(log, after), outcomes)
    requires Watch(Some(after), outcomes).Ok?
    ensures var end := Watch(Some(after), outcomes).value;
            && end.Some? && (end.value == base || end.value in log)
            && Covered(log, after) <= Covered(log, end.value)
            && Pages(outcomes) == log[Covered(log, after)..Covered(log, end.value)]
    decreases |outcomes|
  {
    hide Position, Distinct;
    if outcomes != [] {
      var first := outcomes[0];
      if first.result == Matched {
        var at := Covered(log, after);
        var page := Ids(first.drained);
        var next := page[|page| - 1];
        assert next == log[at..at + |page|][|page| - 1] == log[at + |page| - 1];
        CoveredAt(log, at + |page| - 1);
        WatchSkipsNothing(log, base, next, outcomes[1..]);
        MatchedStep(log, after, next, outcomes);
      } else {
        WatchSkipsNothing(log, base, after, outcomes[1..]);
      }
    }
  }

  lemma MatchedStep(log: seq<Id>, after: Id, next: Id, outcomes: seq<WaitOutcome>)
    requires outcomes != [] && outcomes[0].result == Matched && outcomes[0].newest == Some(next)
    requires Watch(Some(after), outcomes).Ok? && Watch(Some(next), outcomes[1..]).Ok?
    requires Watch(Some(next), outcomes[1..]).value.Some?
    requires Covered(log, after) <= Covered(log, next)
               <= Covered(log, Watch(Some(next), outcomes[1..]).value.value)
    requires Ids(outcomes[0].drained) == log[Covered(log, after)..Covered(log, next)]
    requires Pages(outcomes[1..]) == log[Covered(log, next)..Covered(log, Watch(Some(next), outcomes[1..]).value.value)]
    ensures Watch(Some(after), outcomes) == Watch(Some(next), outcomes[1..])
    ensures Pages(outcomes) == log[Covered(log, after)..Covered(log, Watch(Some(next), outcomes[1..]).value.value)]
  {
    hide Covered;
    assert Watch(Some(after), outcomes) == Watch(Some(next), outcomes[1..]);
  }

  // ----- when the watch goes on, and when it stops -----

  /** What a drain adds to an interval: nothing unless it matched; then the page and its last
      event, or why there is none, with exit code 2. */
  lemma DrainIsAttached(outcome: WaitOutcome, after: Option<Id>, drain: Result<seq<DrainedEvent>, DrainError>)
    ensures var t := AttachDrain(outcome, after, drain);
            if outcome.result != Matched then t == outcome
            else
              && t == outcome.(drained := t.drained, newest := t.newest, drainError := t.drainError,
                               processExit := t.processExit)
              && (t.drainError == Some(MissingBaseline) <==> after.None? || drain == Err(MissingBaseline))
              && (t.drainError.None? <==> after.Some? && drain.Ok?)
              && (t.drainError.Some? ==> t.processExit == 2)
              && (t.drainError.None? ==>
                    && t.drained == drain.value && t.processExit == outcome.processExit
                    && (t.newest.None? <==> drain.value == [])
                    && forall e :: drain.value != [] && e == drain.value[|drain.value| - 1] ==> t.newest == Some(e.id))
  {
  }

  /** An interval lets the watch go on: it timed out, or it matched and saw something new. */
  predicate GoesOn(outcome: WaitOutcome) {
    outcome.result == Timeout || (outcome.result == Matched && outcome.newest.Some?)
  }

  /** Main result: the watch goes on through intervals that time out or see something new, and
      stops at the first other one, with 2 for a match that saw nothing, else with its own
      failing code, or 2 if it has none. */
  lemma {:induction false} WatchIsExact(after: Option<Id>, outcomes: seq<WaitOutcome>)
    ensures var r := Watch(after, outcomes);
            && (r.Ok? <==> forall i :: 0 <= i < |outcomes| ==> GoesOn(outcomes[i]))
            && (r.Err? ==>
                  exists k :: && 0 <= k < |outcomes| && !GoesOn(outcomes[k])
                              && (forall i :: 0 <= i < k ==> GoesOn(outcomes[i]))
                              && r.error == if outcomes[k].result == Matched || outcomes[k].processExit == 0 then 2
                                            else outcomes[k].processExit)
    decreases |outcomes|
  {
    if outcomes != [] {
      var rest := outcomes[1..];
      assert forall i :: 0 <= i < |rest| ==> rest[i] == outcomes[i + 1];
      match Advance(outcomes[0], OrElse(after, ""))
      case Continue(next) =>
        WatchIsExact(Some(next), rest);
        assert GoesOn(outcomes[0]);
        assert (forall i :: 0 <= i < |outcomes| ==> GoesOn(outcomes[i])) <==>
            (forall i :: 0 <= i < |rest| ==> GoesOn(rest[i])) by {
          assert forall i :: 1 <= i < |outcomes| ==> outcomes[i] == rest[i - 1];
        }
        if Watch(Some(next), rest).Err? {
          var k :| && 0 <= k < |rest| && !GoesOn(rest[k]) && (forall i :: 0 <= i < k ==> GoesOn(rest[i]))
                   && Watch(Some(next), rest).error
                      == if rest[k].result == Matched || rest[k].processExit == 0 then 2 else rest[k].processExit;
          assert outcomes[k + 1] == rest[k];
          assert forall i :: 1 <= i < k + 1 ==> outcomes[i] == rest[i - 1];
        }
      case Stop(exit) => assert !GoesOn(outcomes[0]);
    }
  }
}
