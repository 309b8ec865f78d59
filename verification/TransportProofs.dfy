/** What the transport guarantees against every process and every pipe. */
module TransportProofs {
  import opened Prelude
  import opened Transport

  // ----- one frame -----

  /** The receipt of a failed write tells exactly whether the pipe took any byte. */
  lemma {:induction false} ReceiptIsSound(frame: Bytes, events: seq<WriteEvent>, wrote: bool)
    ensures var (accepted, outcome) := WriteAll(frame, events, wrote);
            && accepted <= |frame|
            && (outcome.Ok? ==> accepted == |frame|)
            && (outcome.Err? ==>
                  outcome.error.receipt == if wrote || accepted > 0 || frame == [] then PossiblyWritten
                                           else ProvenNotWritten)
    decreases |events|
  {
    if frame == [] {
      FlushFails(events);
    } else if events != [] {
      match events[0]
      case Done(n) =>
        if n > 0 {
          var k := AtMost(n, |frame|);
          ReceiptIsSound(frame[k..], events[1..], true);
          assert WriteAll(frame, events, wrote).0 == k + WriteAll(frame[k..], events[1..], true).0;
        }
      case Blocked(expired) =>
        if !expired {
          ReceiptIsSound(frame, events[1..], wrote);
        }
      case Broken =>
    }
  }

  lemma {:induction false} FlushFails(events: seq<WriteEvent>)
    ensures Flush(events).Err? ==> Flush(events).error.receipt == PossiblyWritten
    decreases |events|
  {
    if events != [] && events[0].Blocked? {
      FlushFails(events[1..]);
    }
  }

  /** Every begun frame was taken up to a prefix, and its outcome says how far. */
  ghost predicate SoundAttempt(a: Attempt) {
    && a.accepted <= |a.frame|
    && (a.outcome.Ok? ==> a.accepted == |a.frame|)
    && (a.outcome.Err? ==>
          a.outcome.error.receipt == if a.accepted > 0 || a.frame == [] then PossiblyWritten else ProvenNotWritten)
  }

  // ----- notifications -----

  /** The notifications among the reads from `at` to `end`, in order. */
  function Arrived(w: World, at: nat, end: nat): seq<Notification>
    decreases end
  {
    if end <= at then []
    else
      Arrived(w, at, end - 1)
      + match w.peer(end - 1)
        case Line(_, Ok(Note(notification))) => [notification]
        case _ => []
  }

  predicate IsNote(read: Read) {
    read.Line? && read.content.Ok? && read.content.value.Note?
  }

  function Out(r: Result<Received, Error>): seq<Notification> {
    if r.Ok? && r.value.Notified? then [r.value.notification] else []
  }

  lemma {:induction false} ArrivedSplits(w: World, at: nat, mid: nat, end: nat)
    requires at <= mid <= end
    ensures Arrived(w, at, end) == Arrived(w, at, mid) + Arrived(w, mid, end)
    decreases end
  {
    if mid < end {
      ArrivedSplits(w, at, mid, end - 1);
    }
  }

  /** The reads a call answered to, but for a notification it refused. */
  function Answered(w: World, t: State, r: Result<Received, Error>): nat
    requires t.pos > 0
  {
    if r.Err? && IsNote(w.peer(t.pos - 1)) then t.pos - 1 else t.pos
  }

  /** Why the last line was refused: the queue is full, or the line exceeds the output limit. */
  predicate Overflows(w: World, t: State, e: Error)
    requires t.pos > 0
  {
    || (e == Degraded && |t.notes| == MAX_QUEUE)
    || (e == Bounds && w.peer(t.pos - 1).Line? && t.stdout + w.peer(t.pos - 1).length > MAX_STDOUT)
  }

  /** One read hands on, queues, or refuses a notification. */
  lemma ReadOneNotes(w: World, s: State)
    requires s.initialized
    ensures var (t, r) := ReadOne(w, s);
            var arrived := if IsNote(w.peer(s.pos)) then [w.peer(s.pos).content.value.notification] else [];
            && t.pos == s.pos + 1 && t.initialized
            && match r
               case Ok(None) => t.notes == s.notes + arrived
               case Ok(Some(received)) => Out(Ok(received)) == arrived && t.notes == s.notes
                                          && (arrived != [] ==> s.pending == [])
               case Err(e) => t.notes == s.notes
                              && (arrived != [] ==> Overflows(w, t, e))
  {
    var read := w.peer(s.pos);
    if read.Line? && read.content.Ok? {
      var s2 := s.(pos := s.pos + 1, stdout := s.stdout + read.length);
      match read.content.value
      case Response(_, _) => SendKeepsRest(w, s2.(ambiguous := false), InitializedNote, None);
      case ServerRequest(requestId) => SendKeepsRest(w, s2, Refusal(requestId), None);
      case _ =>
    }
    hide Send, ParseResponse;
  }

  lemma {:induction false} ReadLoopNotes(w: World, s: State)
    requires Sane(w) && s.stdout <= MAX_STDOUT && s.initialized && (s.pending == [] ==> s.notes == [])
    ensures var (t, r) := ReadLoop(w, s);
            && s.pos < t.pos && t.initialized
            && Out(r) + t.notes == s.notes + Arrived(w, s.pos, Answered(w, t, r))
            && (Answered(w, t, r) < t.pos ==> Overflows(w, t, r.error))
            && (Out(r) != [] ==> s.pending == [])
    decreases MAX_STDOUT - s.stdout
  {
    hide ReadOne, Sane, IsNote;
    ReadOneBudget(w, s);
    ReadOneNotes(w, s);
    var (t, r) := ReadOne(w, s);
    ArrivedOne(w, s.pos);
    if r == Ok(None) {
      ReadLoopNotes(w, t);
      var (u, q) := ReadLoop(w, t);
      ArrivedSplits(w, s.pos, t.pos, Answered(w, u, q));
    }
  }

  lemma ArrivedOne(w: World, at: nat)
    ensures Arrived(w, at, at + 1)
         == if IsNote(w.peer(at)) then [w.peer(at).content.value.notification] else []
    ensures Arrived(w, at, at) == []
  {
  }

  /** Main result: a call to receive hands on notifications in arrival order. What it
      returned, then what is queued, is what was queued, then what arrived; only a
      notification answered with `Degraded` on a full queue, or that exceeded the output
      budget, is missing. */
  lemma ReceiveIsFifo(w: World, s: State)
    requires Sane(w) && s.stdout <= MAX_STDOUT && s.initialized
    ensures var (t, r) := Receive(w, s);
            && s.pos <= t.pos && t.initialized
            && (if t.pos == s.pos then Out(r) + t.notes == s.notes
                else
                  && Out(r) + t.notes == s.notes + Arrived(w, s.pos, Answered(w, t, r))
                  && (Answered(w, t, r) < t.pos ==> Overflows(w, t, r.error)))
  {
    hide ReadLoop, Sane;
    if !(s.pending == [] && s.notes != []) {
      ReadLoopNotes(w, s);
    }
  }

  // ----- which thread is idle, which turn is active -----

  /** Every turn is identified, and every one but `k` is over. */
  ghost predicate OnlyActive(turns: seq<TurnJson>, k: nat) {
    && k < |turns| && turns[k].status == Some("inProgress")
    && forall i | 0 <= i < |turns| :: HasRef(turns[i]) && (i != k ==> IsDone(turns[i].status))
  }

  ghost predicate AllDone(turns: seq<TurnJson>) {
    forall i | 0 <= i < |turns| :: HasRef(turns[i]) && IsDone(turns[i].status)
  }

  lemma {:induction false} RestDone(turns: seq<TurnJson>, found: string)
    ensures ActiveAmong(turns, Some(found)) == if AllDone(turns) then Some(found) else None
    decreases |turns|
  {
    hide HasRef, IsDone;
    if turns != [] {
      RestDone(turns[1..], found);
      assert AllDone(turns) <==> HasRef(turns[0]) && IsDone(turns[0].status) && AllDone(turns[1..]) by {
        assert forall i | 1 <= i < |turns| :: turns[i] == turns[1..][i - 1];
      }
    }
  }

  /** Main result: a thread counts as having an active turn exactly when one identified turn
      is in progress and every other is identified and over. */
  lemma {:induction false} ActiveIsUnique(turns: seq<TurnJson>)
    ensures ActiveAmong(turns, None).Some? <==> exists k: nat :: OnlyActive(turns, k)
    ensures forall k: nat | OnlyActive(turns, k) :: ActiveAmong(turns, None) == turns[k].id
    decreases |turns|
  {
    if turns != [] {
      var rest := turns[1..];
      assert forall i | 0 <= i < |rest| :: rest[i] == turns[i + 1];
      ActiveIsUnique(rest);
      if HasRef(turns[0]) && turns[0].status == Some("inProgress") {
        RestDone(rest, turns[0].id.value);
        assert OnlyActive(turns, 0) <==> AllDone(rest);
      }
      forall k: nat | OnlyActive(turns, k) && k > 0 ensures OnlyActive(rest, k - 1) {
        assert turns[k] == rest[k - 1];
      }
      forall k: nat | OnlyActive(rest, k) && HasRef(turns[0]) && IsDone(turns[0].status)
        ensures OnlyActive(turns, k + 1)
      {
      }
    }
  }

  /** A thread counts as idle exactly when its turns are listed, few enough, identified and
      all over; it then has no active turn. */
  lemma IdleMeans(thread: ThreadJson)
    ensures IdleThread(thread) == Idle <==>
              thread.turns.Some? && |thread.turns.value| <= MAX_QUEUE && AllDone(thread.turns.value)
    ensures IdleThread(thread) == Idle ==> ActiveThread(thread, []).None?
  {
    if thread.turns.Some? {
      ActiveIsUnique(thread.turns.value);
    }
    hide HasRef;
  }
}
