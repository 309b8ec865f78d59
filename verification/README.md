# Gearwit: a verified model of coverage, delivery and the controller lane

This project models four connected parts of Gearwit and proves what they promise for every
input, every peer and every interleaving.

**The daemon** (`crates/gearwit-cli/src/daemon.rs` over the stores of `crates/gearwit-host`).
A main thread keeps a provider child waiting, claims drained pages, delivers them to an
attached waiter and resumes after each acknowledgement; an accept thread admits waiters and
records acknowledgements. `Ack`, `Admit`, `Deliver` and `Pipe` say what each operation does to
a value of its store; `AckStores`, `LinkTables`, `DeliveryLedgers`, `DaemonPipes`, `MainLoops`
and `AcceptLoops` perform the operations in place and are proved to do exactly that. `Daemon`
interleaves both threads, one lock region or local effect a step; `DaemonInv` states the
invariant, `DaemonSteps`, `DaemonCoverage` and `DaemonAccept` prove each step keeps it, and
`DaemonTheorems`, `DaemonLaws`, `DaemonLinks`, `DaemonDrain`, `DaemonDelivery` and `DaemonProgress`
say what follows; `AckLaws`, `AdmitLaws` and `MainLoopLaws` say exactly when each store and each
stage of an iteration does what. `Codec` says how large a `deliver_events` payload is.

**The transport and the controller lane** (`crates/gearwit-host/src/codex_transport.rs`). The
process is an endless stream of whole-line reads; the pipe answers each frame with a script of
partial writes, stalls and errors. `Transport` and `Controllers` are the values,
`TransportStates` and `CodexControllers` the objects with the loops, and `TransportProofs`,
`TransportRuns`, `TransportReplies`, `ControllerProofs`, `ControllerTurn`, `ControllerAnswers`,
`ControllerFlight`, `ControllerLane` and `ControllerLife` the results.

**Body preparation and the drain** (`sanitize.rs`, `wait_on.rs`): `Sanitize`,
`FenceProofs`, `SanitizeProofs`, `WaitOn`, `WaitOnProofs`. The segmentation into graphemes (UAX #29, section 3)
is a parameter of which only this is used: its pieces are non-empty and join to the text.

**The doorbell receipt order** (`crates/gearwit-domain/src/attempt.rs`): `Attempts`,
`AttemptTraces`.

Where the code does not do what its parts promise together, the model keeps the code and says
exactly when:

- A server request read by a controller's drain, whose refusal runs into the write deadline
  before any byte is taken, is reported by `send` as a deadline, which the drain takes for "no
  data". The refusal has wiped the shared frame buffer, so an empty frame is dispatched and the
  turn may even be reported accepted (`ControllerProofs.FrameAtDispatch`,
  `ControllerTurn.AcceptedWithoutBytes`).
- `dispatch_prepared_turn` sets the latch by its own outcome without looking at it: a turn
  prepared before the latch was set clears it when its write succeeds, without any reply. The
  exact cases are `TransportRuns.LatchClears` and `TransportRuns.LatchIsAbsorbing`, an input is
  `TransportRuns.LatchOverwritten`. The controller never dispatches so
  (`ControllerFlight.DispatchIsUnlatched`, `ControllerFlight.LatchHolds`).
- A poll moves the epoch only for a notification within the output limit and a reconciliation
  never, so either can take a line after the probe without invalidating the lane
  (`ControllerLane.ReadsUnseen`, `ControllerLane.StartIsUnseen`). So can a drain whose deadline
  cuts a line: what it took is lost and the drain reports "no data". The exact condition is
  `ControllerLane.LaneIsIdleAtDispatch`.
- A page of more than 64 events, with a space in an id or user name, or whose payload exceeds
  256 KiB passes the drain and the claim gate but no `deliver_events` frame can carry it; coverage
  then stays paused until it ends (`DaemonDrain.SendablePages`,
  `DaemonDrain.UnsendableClaimIsForever`).
- The drain the daemon uses turns an empty answer into an error, so an acknowledgement of the
  newest event halts the daemon instead of resuming the wait (`DaemonDrain.EmptyHistoryHalts`).
- Outside the daemon, mixing bare `record_handled` calls with `apply_handled_request` can make a
  rearm name a cursor before the one its signal closed at (`AckRuns.RearmNamesClosedCursor`,
  `AckRuns.BareRecordMisnamesRearm`).
- The reserve kept for the notice skips a rendering that would exactly fill a budget
  (`SanitizeProofs.ReserveSkips`).

Assumptions, each a `requires` or a parameter: the provider's log is append-only with distinct
ids and a drain answers with a leading part of the events after its cursor; minted ids are fresh;
the clock is a parameter of every step; lines and frames are not empty. Payloads are compact JSON
(section 7 of RFC 8259 for strings); timestamps are RFC 3339 in UTC with the shortest fraction of
a second.

## Model

| member | source | states |
|---|---|---|
| DaemonTheorems.NoGapNoRepeat | crates/gearwit-cli/src/daemon.rs:811-846 | In every state any interleaving reaches, the acknowledged prefixes of the closed generations, in order, are exactly the provider log up to the last acknowledged cursor; a live claim not yet acknowledged is the log segment right after it |
| DaemonTheorems.GenerationAgreement | crates/gearwit-cli/src/daemon.rs:1021-1084 | The ack store is ahead of the main loop by exactly the rearms on their way, which are at most one, none without a claim, and for the claim's own signal; no link is ahead of the store |
| DaemonTheorems.RearmKeepsNewLinks | crates/gearwit-cli/src/daemon.rs:721-742 | A rearm drops the live link, and stops serving a waiter, exactly when it is of an older generation |
| DaemonTheorems.CoverageExclusive | crates/gearwit-cli/src/daemon.rs:1170-1216 | Between operations until a halt exactly one holds: a provider child waits from the cursor, or a claim is live |
| DaemonTheorems.StepKeepsInv | crates/gearwit-cli/src/daemon.rs:1142-1217 | Every action of either thread keeps the invariant that spans both threads and all three stores |
| DaemonTheorems.RunKeepsInv | crates/gearwit-cli/src/daemon.rs:1170-1216 | The invariant holds after any interleaving of actions |
| DaemonTheorems.InitInv | crates/gearwit-cli/src/daemon.rs:1142-1168 | The daemon starts in it |
| DaemonTheorems.AckedLog | crates/gearwit-cli/src/daemon.rs:700-719 | Where acknowledgements, applied or on their way, leave the cursor in the log |
| DaemonLaws.StepObeys | crates/gearwit-cli/src/daemon.rs:1142-1217 | No step replaces a live claim except by applying the acknowledgement that closed its signal, changes the pending delivery's id or recorded outcome within a generation, or writes more than one frame, and that only of the unfinished claim |
| DaemonLaws.StableDelivery | crates/gearwit-host/src/deliver.rs:69-149 | All frames written in one generation carry one delivery id, signal and event list, whatever links they went to |
| DaemonLaws.FinishedIsFinal | crates/gearwit-host/src/deliver.rs:177-235 | After any losses, late or forged results and successor links, a delivery with an outcome keeps it and is never written again |
| DaemonLaws.VisibleBeforeAck | crates/gearwit-host/src/ack.rs:176-209 | A page that lost content locally is handled only after a receipt for it was confirmed |
| DaemonLaws.OnlyReceiptsComplete | crates/gearwit-cli/src/daemon.rs:443-476 | A receipt is confirmed only by a completed return naming the pending delivery, its current link and the live signal, and is then recorded |
| DaemonLaws.NewClaimIsMarked | crates/gearwit-cli/src/daemon.rs:387-421 | A new claim is the drained page, whole and in order, and is held for a receipt exactly when the page lost content |
| DaemonLaws.FlushLaw | crates/gearwit-cli/src/daemon.rs:915-949 | A flush obeys the law of one step |
| DaemonLaws.PollLaw | crates/gearwit-cli/src/daemon.rs:969-1019 | A waiter result obeys the law of one step |
| DaemonLaws.RecvLaw | crates/gearwit-cli/src/daemon.rs:700-719 | An applied rearm ends the claim it closed and starts the next generation empty |
| DaemonDelivery.SentIsDelivered | crates/gearwit-cli/src/daemon.rs:573-606 | In every reachable state the live claim's batch counts as delivered, whole and to its last event, exactly when a frame of its generation was written |
| DaemonDelivery.StepKeepsNoted | crates/gearwit-cli/src/daemon.rs:1142-1217 | Every action of either thread keeps it so |
| DaemonDelivery.NothingIsAttempted | crates/gearwit-cli/src/daemon.rs:915-936 | With nothing claimed, no link or an outcome recorded a flush does nothing; over an expired link it only asks for the revocation |
| DaemonDelivery.PendingIsExact | crates/gearwit-cli/src/daemon.rs:497-606 | A pending delivery is written over a live link exactly when no attempt is out, the waiter takes the frame and the payload fits; it then awaits that link's result |
| DaemonDelivery.LostIsWrittenAgain | crates/gearwit-cli/src/daemon.rs:228-260 | An attempt that is out is not written again; once its session is lost, the same batch under the same delivery id goes to the successor link |
| DaemonDelivery.ResultIsExact | crates/gearwit-cli/src/daemon.rs:207-226 | A waiter result is the outcome exactly when it names the pending delivery, link and signal, is no loss, and comes first or repeats it; a completed return then lifts the hold; anything else is a loss |
| DaemonDelivery.AfterSendIsExact | crates/gearwit-cli/src/daemon.rs:573-606 | After a written and noted frame: a correlated result read at once is recorded, a loss frees the attempt, a completed return lifts the hold; a batch that cannot be noted halts coverage |
| DaemonDelivery.ReuseIsExact | crates/gearwit-cli/src/daemon.rs:128-153 | A live claim is kept: the same batch for the same arm is met again, any other is refused |
| DaemonProgress.PageIsHandled | crates/gearwit-cli/src/daemon.rs:1170-1216 | From any reachable state in which the daemon waits with a page that can be delivered, fitting requests of a waiter and then of the seat lead to the page written once, acknowledged to its last event and passed |
| DaemonProgress.Grants | crates/gearwit-host/src/admit.rs:144-234 | The waiter of that exchange is admitted |
| DaemonProgress.AckRearms | crates/gearwit-host/src/ack.rs:324-351 | An acceptable acknowledgement closes its signal and announces the next generation at its cursor |
| DaemonDrain.GateAgrees | crates/gearwit-cli/src/daemon.rs:370-380 | Every page the drain accepts becomes a claim: the gate never refuses one of its events |
| DaemonDrain.GateIsExact | crates/gearwit-cli/src/daemon.rs:361-391 | A page becomes a claim exactly when its interval matched, the drain answered with some event, and every body is within bounds, free of controls but tab and line feed, and owns up to its loss; the claim carries it event by event |
| DaemonDrain.EmptyHistoryHalts | crates/gearwit-cli/src/daemon.rs:822-826 | With the drain the daemon uses, no events after an acknowledgement halts it; the empty-history branch is never taken |
| Codec.SendableMeans | crates/gearwit-protocol/src/codec.rs:65-76 | Events can be sent over links of a route and generation exactly when some valid message of them fits the payload limit |
| Codec.PayloadOfValid | crates/gearwit-protocol/src/codec.rs:65-76 | The JSON of a valid message is as long as its events, route and generation make it, plus the fraction of its attempt time |
| Codec.FullBodiesDoNotFit | crates/gearwit-protocol/src/codec.rs:9-9 | Events whose escaped bodies alone fill the limit can never be sent |
| DaemonDrain.SendablePages | crates/gearwit-protocol/src/messages.rs:262-289 | Of the accepted pages, those a waiter can be sent are exactly the ones of at most 64 events, without a space in an id or user name, whose payload fits 256 KiB |
| DaemonDrain.FullPageIsTooLarge | crates/gearwit-protocol/src/codec.rs:65-76 | Sixty-four plain events of full length pass the gate and the event rules, and fit no frame |
| DaemonDrain.FirstFlush | crates/gearwit-cli/src/daemon.rs:497-606 | The first delivery over a live link is written exactly when the claim's events are valid the payload of just this attempt fits, and the waiter takes it: then it awaits its result, the link stays and the batch counts as delivered; an invalid batch leaves no trace, one not written stays pending and the link is revoked |
| DaemonDrain.SendableIsSent | crates/gearwit-cli/src/daemon.rs:497-606 | Sendable events are written by the first attempt that falls on a whole second |
| DaemonDrain.UnsendablePageSticks | crates/gearwit-cli/src/daemon.rs:337-422 | Claiming an accepted page, after a wait or after an acknowledgement, leaves a claim that can never be delivered exactly when the page is not sendable |
| DaemonDrain.UnsendableClaimIsForever | crates/gearwit-cli/src/daemon.rs:497-531 | From then on, invalid or pending and too large, nothing the waiters, the provider or the clock do moves the claim, the cursor, the rearms, or writes a frame |
| DaemonLinks.LinksStayCurrent | crates/gearwit-cli/src/daemon.rs:721-742 | In every reachable state each link the main thread holds or could read is of the arm's route and of its own or the store's generation, except between applying a rearm and revoking |
| DaemonLinks.StepKeepsCurrent | crates/gearwit-cli/src/daemon.rs:1142-1217 | Every action of either thread keeps it so |
| DaemonCoverage.IngestEffect | crates/gearwit-cli/src/daemon.rs:337-422 | An ingest with no live claim claims the page exactly when the wait matched, the drain answered, the page is not empty and passes the gate; else nothing changes and the outcome says rearm or halt |
| DaemonCoverage.RecvRearmKeeps | crates/gearwit-cli/src/daemon.rs:700-719 | Applying a rearm moves the cursor over exactly the acknowledged prefix of the main thread's own claim |
| DaemonCoverage.PendingClosesClaim | crates/gearwit-cli/src/daemon.rs:1170-1201 | The rearm on its way closed the main thread's own claim at a cursor of its page |
| DaemonCoverage.IngestKeeps | crates/gearwit-cli/src/daemon.rs:1267-1295 | A polled child exit keeps the invariant |
| DaemonCoverage.DrainKeeps | crates/gearwit-cli/src/daemon.rs:817-826 | Reap, drain, and spawn on empty history keep the invariant |
| DaemonCoverage.ClaimSuffixKeeps | crates/gearwit-cli/src/daemon.rs:827-845 | Claiming the suffix after an acknowledgement keeps the invariant |
| DaemonCoverage.AnswerIsSegment | crates/gearwit-cli/src/wait_on.rs:552-582 | A drain answers with the part of the log right after the cursor |
| DaemonCoverage.AppendKeeps | crates/gearwit-cli/src/wait_on.rs:562-582 | The log growing while a page is in hand keeps the invariant |
| DaemonAccept.AckTally | crates/gearwit-host/src/ack.rs:324-351 | An ack announces nothing, or closes the one open signal and announces that one next generation |
| DaemonAccept.AckKeeps | crates/gearwit-cli/src/daemon.rs:1066-1080 | Recording an ack on the accept thread keeps the invariant, rearm still unsent |
| DaemonAccept.PrepareKeepsLinks | crates/gearwit-cli/src/daemon.rs:1045-1053 | An attach is decided for the store's current generation |
| DaemonAccept.CommitKeepsLinks | crates/gearwit-cli/src/daemon.rs:1054-1065 | Committing it puts no link ahead of the store |
| DaemonSteps.FlushEffect | crates/gearwit-cli/src/daemon.rs:497-606 | One delivery attempt keeps what is pending, writes at most that, and notes the claim's events as delivered exactly when it wrote them |
| DaemonSteps.ApplyEffect | crates/gearwit-cli/src/daemon.rs:207-226 | A waiter result is recorded only when delivery, link and signal all match; else it is a loss |
| DaemonSteps.PollResultKeeps | crates/gearwit-cli/src/daemon.rs:969-1019 | Applying a waiter result keeps the invariant |
| DaemonSteps.FlushKeeps | crates/gearwit-cli/src/daemon.rs:915-949 | Flushing keeps the invariant |
| DaemonPipes.DaemonPipe.constructor | crates/gearwit-cli/src/daemon.rs:294-303 | An empty pipe |
| DaemonPipes.DaemonPipe.ClaimOrReuse | crates/gearwit-cli/src/daemon.rs:128-153 | In place: a new claim, the same batch again, or a refusal |
| DaemonPipes.DaemonPipe.IngestMatch | crates/gearwit-cli/src/daemon.rs:337-422 | In place: drain, gate, claim once, register, deliver |
| DaemonPipes.DaemonPipe.DeliverClaimed | crates/gearwit-cli/src/daemon.rs:497-606 | In place: one delivery attempt with its outcome and the frame written |
| DaemonPipes.DaemonPipe.AfterSend | crates/gearwit-cli/src/daemon.rs:573-606 | In place: what follows a written frame |
| DaemonPipes.DaemonPipe.ReleaseHold | crates/gearwit-cli/src/daemon.rs:443-464 | In place: a completed return lifts its signal's hold |
| DaemonPipes.DaemonPipe.ApplyResult | crates/gearwit-cli/src/daemon.rs:207-226 | In place: record a result or count it as loss |
| DaemonPipes.DaemonPipe.ApplyVisible | crates/gearwit-cli/src/daemon.rs:466-476 | In place: the same, lifting the visibility hold |
| DaemonPipes.DaemonPipe.OnTransportLoss | crates/gearwit-cli/src/daemon.rs:228-260 | In place: mark the attempt lost, keep the batch, drop the session |
| DaemonPipes.DaemonPipe.FlushAttached | crates/gearwit-cli/src/daemon.rs:915-949 | In place: flush, and whether to revoke |
| DaemonPipes.DaemonPipe.Reset | crates/gearwit-cli/src/daemon.rs:715-717 | In place: claim, ledger and attempt cleared |
| MainLoops.MainLoop.constructor | crates/gearwit-cli/src/daemon.rs:1142-1168 | The loop's state at start |
| MainLoops.MainLoop.Iterate | crates/gearwit-cli/src/daemon.rs:1170-1216 | One iteration of the loop leaves the objects as the stated run of actions does |
| MainLoops.MainLoop.RestartAfterAck | crates/gearwit-cli/src/daemon.rs:811-846 | In place: receive, revoke older, drain, then claim or spawn |
| MainLoops.MainLoop.TakeCoverageRearm | crates/gearwit-cli/src/daemon.rs:700-719 | In place: cursor, generation and pipe move together, or not at all |
| MainLoops.MainLoop.RevokeOlder | crates/gearwit-cli/src/daemon.rs:721-742 | In place: older waiter and older link dropped |
| MainLoops.MainLoop.PollResult | crates/gearwit-cli/src/daemon.rs:969-1019 | In place: lease first, then one read |
| MainLoops.MainLoop.AdoptAttached | crates/gearwit-cli/src/daemon.rs:1229-1265 | In place: keep only the live session, lose the old one, flush |
| MainLoops.MainLoop.PollChanvoy | crates/gearwit-cli/src/daemon.rs:1267-1295 | In place: ingest an exited child; rearm, pause and flush, or halt |
| MainLoops.MainLoop.FlushCurrent | crates/gearwit-cli/src/daemon.rs:1307-1319 | In place: flush over the current link, revoke on a failed write |
| MainLoops.MainLoop.RevokeExact | crates/gearwit-cli/src/daemon.rs:951-967 | In place: drop exactly the served session |
| MainLoops.MainLoop.Halt | crates/gearwit-cli/src/daemon.rs:848-875 | In place: no child and no link is left |
| MainLoops.IterationIsRun | crates/gearwit-cli/src/daemon.rs:1170-1216 | An iteration is a run of the interleaved actions, so it keeps the invariant |
| MainLoopLaws.LoopStops | crates/gearwit-cli/src/daemon.rs:1170-1216 | The loop ends with code 1 exactly when coverage is over and with code 2 when the accept thread is gone, with no child, no link and everything else as it was |
| MainLoopLaws.PollIsExact | crates/gearwit-cli/src/daemon.rs:969-1019 | What an iteration does with the served waiter: gone or expired, its attempt is lost; quiet, it stays; the outcome of the pending delivery is recorded and any other line is a loss, and either way the waiter is let go |
| MainLoopLaws.AttachIsHandled | crates/gearwit-cli/src/daemon.rs:1229-1265 | A waiter handed on is served exactly when its link is the live one and not served already; expired, it is let go; else the pending delivery is attempted over its link at once |
| MainLoopLaws.ChildIsPolled | crates/gearwit-cli/src/daemon.rs:1267-1295 | A timed-out interval is waited again from the cursor, a matched one leaves its page as the claim, anything else halts |
| MainLoopLaws.RearmIsHandled | crates/gearwit-cli/src/daemon.rs:811-846 | An acknowledgement moves coverage to its cursor; what came after is claimed, nothing left is waited for, a failed drain halts |
| AcceptLoops.AcceptLoop.ServeWaiter | crates/gearwit-cli/src/daemon.rs:1045-1065 | In place: decide, reply, commit, and the event to hand on |
| AcceptLoops.AcceptLoop.ServeHandled | crates/gearwit-cli/src/daemon.rs:1066-1080 | In place: record an ack, and the rearm to hand on |
| AckRuns.ShapeOfRuns | crates/gearwit-host/src/ack.rs:57-165 | Over every run: a batch is closed exactly when its generation is below the arm's, one batch a generation, each accepted cursor in its signal's delivered prefix at or before what is handled |
| AckRuns.SignalCount | crates/gearwit-host/src/ack.rs:57-165 | There are as many signals as closed generations, and one more while one is open |
| AckRuns.RunEvolves | crates/gearwit-host/src/ack.rs:375-456 | Along every run delivered prefixes, closed cursors and recorded outcomes are immutable and handled never moves back |
| AckRuns.RearmsExactlyOnce | crates/gearwit-host/src/ack.rs:324-351 | Through `apply_handled_request`, rearms are as many as closed generations, consecutive, and name the cursors closed at; each accepted request is one rearm or one refusal for a spent counter |
| AckRuns.ReplayForever | crates/gearwit-host/src/ack.rs:231-260 | A recorded request replays to the same reply and no rearm for the rest of any run, exactly unless its signal is still open, which needs a spent counter |
| AckRuns.ReplayIsInert | crates/gearwit-host/src/ack.rs:324-351 | An exact replay changes nothing |
| AckRuns.RearmNamesClosedCursor | crates/gearwit-host/src/ack.rs:324-351 | A rearm names the cursor its signal closed at exactly when the request was new or still is the handled one |
| AckRuns.BareRecordMisnamesRearm | crates/gearwit-host/src/ack.rs:231-260 | Mixing in bare `record_handled` calls, a rearm can name an earlier cursor than its signal closed at: a concrete run |
| AckLaws.AnswerIsExact | crates/gearwit-host/src/ack.rs:375-456 | A new valid request is accepted exactly when it is for this arm, seat and generation, its signal is open, delivered and not held without a receipt, and its cursor is delivered and not before what is handled; otherwise the reply is the one code that explains it |
| AckLaws.RefusalIsExact | crates/gearwit-host/src/ack.rs:375-456 | Each refusal code states exactly one fact of the request and the store |
| AckLaws.NoDecision | crates/gearwit-host/src/ack.rs:231-260 | When a request is refused without a decision, by error |
| AckLaws.DeliveryIsNoted | crates/gearwit-host/src/ack.rs:57-119 | A delivery is noted exactly when its refs are a leading part of a duplicate-free drain, nothing else is open, and its signal is new or open and not noted otherwise |
| AckLaws.ClaimIsNoted | crates/gearwit-host/src/ack.rs:127-165 | A claim is noted exactly when nothing else is open and its signal is new, or open and undelivered |
| AckLaws.HoldIsPlaced | crates/gearwit-host/src/ack.rs:176-189 | A hold is placed exactly on a signal with nothing handled |
| AckLaws.ReturnEndsHold | crates/gearwit-host/src/ack.rs:197-209 | A confirmed receipt ends the hold of exactly its own signal, once that was delivered |
| AckRuns.AcceptMovesForward | crates/gearwit-host/src/ack.rs:375-456 | An accepted request keeps everything handled before it handled |
| AckRuns.CloseOutcome | crates/gearwit-host/src/ack.rs:267-293 | Closing succeeds exactly for the open signal with an unspent counter |
| AckRuns.DeliverKeepsShape | crates/gearwit-host/src/ack.rs:57-119 | Noting a delivery keeps the shape |
| AckRuns.ClaimKeepsShape | crates/gearwit-host/src/ack.rs:127-165 | Noting a claim keeps the shape |
| AckRuns.RearmKeepsShape | crates/gearwit-host/src/ack.rs:267-293 | Closing keeps the shape |
| AckRuns.RecordKeepsShape | crates/gearwit-host/src/ack.rs:231-260 | Recording keeps the shape |
| AckStores.ValidateLeadingPrefix | crates/gearwit-host/src/ack.rs:353-373 | The two loops find the first duplicate in the drain, then in the delivery, then a mismatch |
| AckStores.AckStore.constructor | crates/gearwit-host/src/ack.rs:40-46 | An empty store for one arm |
| AckStores.AckStore.NoteDelivered | crates/gearwit-host/src/ack.rs:57-119 | In place: the delivered prefix of a signal becomes known once |
| AckStores.AckStore.NoteClaimed | crates/gearwit-host/src/ack.rs:127-165 | In place: an open signal for a claim |
| AckStores.AckStore.RequireReturn | crates/gearwit-host/src/ack.rs:176-189 | In place: hold a signal for its receipt |
| AckStores.AckStore.NoteReturn | crates/gearwit-host/src/ack.rs:197-209 | In place: the receipt arrived |
| AckStores.AckStore.Decide | crates/gearwit-host/src/ack.rs:375-456 | In place: accept and move handled, or refuse |
| AckStores.AckStore.RecordHandled | crates/gearwit-host/src/ack.rs:231-260 | In place: decide once a request id, replay after |
| AckStores.AckStore.RearmFromHandled | crates/gearwit-host/src/ack.rs:267-293 | In place: close the signal and advance the generation |
| AckStores.AckStore.ApplyHandled | crates/gearwit-host/src/ack.rs:324-351 | In place: record, then close |
| AdmitRuns.AdmissionRuns | crates/gearwit-host/src/link.rs:253-357 | Over every run with concurrent drops: history within its cap, one reply an id, every live or prepared link grants its request with a lease within ten minutes and coverage |
| AdmitRuns.RepliesNeverChange | crates/gearwit-host/src/admit.rs:125-142 | A committed reply for a request id never changes |
| AdmitRuns.CommitDisplacesNothing | crates/gearwit-host/src/link.rs:320-357 | A commit makes a link live only where none was, and only the one prepared |
| AdmitRuns.ReplaySessionIsLive | crates/gearwit-host/src/admit.rs:144-182 | A replay yields a session exactly for the link still live and unexpired |
| AdmitRuns.DecisionMeans | crates/gearwit-host/src/admit.rs:144-234 | What each decision promises about table, request and reply |
| AdmitLaws.AttachIsExact | crates/gearwit-host/src/admit.rs:144-234 | A new valid attach is granted exactly when its arm is known and of its generation, seat and route, coverage lasts, and no link is live, with a lease of ten minutes or to the end of coverage; otherwise it carries the one code that explains the refusal |
| AdmitLaws.NoDecision | crates/gearwit-host/src/admit.rs:144-182 | When an attach is refused without a decision, by error |
| AdmitLaws.OverIsNoLink | crates/gearwit-host/src/link.rs:253-300 | Deciding first drops a link whose lease is over and no other; a new valid attach is then accepted exactly when its arm is known and matches, coverage lasts, and no link is left |
| AdmitLaws.SameAnswerAgain | crates/gearwit-host/src/link.rs:320-357 | A written answer stands: the same request asked again, at any time, is answered with it, and served exactly while its link is live and its lease lasts |
| AdmitLaws.GrantGoesLive | crates/gearwit-host/src/link.rs:320-357 | A granted link is live and recorded once its reply was written, if no later generation came first; an unwritten reply leaves no trace |
| AdmitRuns.AdmitIsPrepareThenCommit | crates/gearwit-host/src/admit.rs:248-266 | Admitting at once equals preparing and committing |
| LinkTables.LinkTable.constructor | crates/gearwit-host/src/admit.rs:69-73 | An empty table |
| LinkTables.LinkTable.DropCurrent | crates/gearwit-host/src/admit.rs:83-85 | In place: no link |
| LinkTables.LinkTable.DropSession | crates/gearwit-host/src/admit.rs:89-97 | In place: drops the live link only if it is this session |
| LinkTables.LinkTable.DropExpired | crates/gearwit-host/src/admit.rs:100-108 | In place: drops an expired link |
| LinkTables.LinkTable.CommitAttach | crates/gearwit-host/src/admit.rs:125-134 | In place: link live and reply recorded |
| LinkTables.LinkTable.CommitRejected | crates/gearwit-host/src/admit.rs:136-142 | In place: refusal recorded |
| LinkTables.LinkTable.Prepare | crates/gearwit-host/src/link.rs:253-300 | In place: decide and commit nothing |
| LinkTables.LinkTable.CommitPrepared | crates/gearwit-host/src/link.rs:320-357 | In place: commit after a written reply |
| LinkTables.LinkTable.AdmitAttach | crates/gearwit-host/src/admit.rs:248-266 | In place: decide and commit |
| DeliverRuns.DeliveriesAreStable | crates/gearwit-host/src/deliver.rs:69-149 | Over every run all frames of one delivery id carry one payload |
| DeliverRuns.OutcomesAreFinal | crates/gearwit-host/src/deliver.rs:177-235 | A recorded outcome is never changed and its delivery never written again |
| DeliveryLedgers.DeliveryLedger.Prepare | crates/gearwit-host/src/deliver.rs:69-107 | In place: a new batch, if none is pending |
| DeliveryLedgers.DeliveryLedger.Redeliver | crates/gearwit-host/src/deliver.rs:118-149 | In place: the pending batch for another link of the same authority |
| DeliveryLedgers.DeliveryLedger.RecordResult | crates/gearwit-host/src/deliver.rs:177-235 | In place: one outcome for the matching attempt |
| SanitizeProofs.LongestPresentable | crates/gearwit-cli/src/sanitize.rs:89-168 | The result is the text itself when nothing needs changing, else the rendering of the longest visible grapheme prefix that fits with its reserve; it fails exactly when there is none |
| SanitizeProofs.LossyBodyIsSafe | crates/gearwit-cli/src/sanitize.rs:89-168 | With loss: both budgets hold, no disallowed control, no code fence left open, the advisory at the end, and removed plus clipped plus retained scalars are the input's |
| SanitizeProofs.RenderClosesFence | crates/gearwit-cli/src/sanitize.rs:182-203 | The lines of any rendering, read one after the other, leave no code fence open |
| FenceProofs.StepMoves | crates/gearwit-cli/src/sanitize.rs:182-223 | With nothing open a line opens exactly the fence it has the form of; an open fence ends exactly at a line of its closing form; every other line leaves it |
| FenceProofs.UnclosedIsLeftOpen | crates/gearwit-cli/src/sanitize.rs:182-203 | The recogniser finds exactly the fence the lines leave open |
| FenceProofs.LinesMeans | crates/gearwit-cli/src/sanitize.rs:184-184 | The lines hold no line feed and joined by line feeds are the text |
| SanitizeProofs.RenderIsClean | crates/gearwit-cli/src/sanitize.rs:137-149 | A rendering extends its prefix, keeps it clean and ends with the advisory |
| SanitizeProofs.PreparingAgainIsIdentity | crates/gearwit-cli/src/sanitize.rs:76-78 | Preparing a prepared body changes nothing and measures no loss |
| SanitizeProofs.ReserveSkips | crates/gearwit-cli/src/sanitize.rs:113-125 | The reserve skips a rendering that would fit exactly when it fills a budget to the brim after a finished line |
| Sanitize.PrepareBodyWithLimits | crates/gearwit-cli/src/sanitize.rs:89-168 | The three loops compute the stated result |
| Sanitize.StripControls | crates/gearwit-cli/src/sanitize.rs:94-102 | The first loop removes and counts disallowed controls |
| Sanitize.RetainGraphemes | crates/gearwit-cli/src/sanitize.rs:113-129 | The second loop keeps graphemes while the reserve holds |
| Sanitize.AppendAdvisory | crates/gearwit-cli/src/sanitize.rs:137-149 | Closing the fence and appending the notice on one buffer |
| Sanitize.FindUnclosedFence | crates/gearwit-cli/src/sanitize.rs:182-203 | The scanning loop finds the fence left open |
| WaitOn.ParseDrainedEvents | crates/gearwit-cli/src/wait_on.rs:502-549 | The loop over messages with its set of ids computes the stated page or error |
| WaitOn.RunWatchLoop | crates/gearwit-cli/src/wait_on.rs:729-740 | The loop follows the newest event or stops with the stated code |
| WaitOnProofs.AcceptedPagesPassTheGate | crates/gearwit-cli/src/wait_on.rs:502-549 | An accepted page shows the provider's messages, in order: own id, author or "unknown", prepared body; ids are distinct and paste-safe, and every event passes the claim gate |
| WaitOnProofs.PageIsExact | crates/gearwit-cli/src/wait_on.rs:502-549 | A list of messages is accepted exactly when it is not empty, all can be events and no id repeats; otherwise the error is that of the first message that spoils it |
| WaitOnProofs.NoEmptyPage | crates/gearwit-cli/src/wait_on.rs:511-513 | A page is never accepted empty |
| WaitOnProofs.BodyIsDisplayable | crates/gearwit-cli/src/daemon.rs:435-441 | A prepared body always passes the claim gate, and shows loss exactly when it was changed |
| WaitOnProofs.WatchSkipsNothing | crates/gearwit-cli/src/wait_on.rs:706-740 | While the watch loop goes on its pages are exactly the log between its cursors |
| WaitOnProofs.DrainIsAttached | crates/gearwit-cli/src/wait_on.rs:586-613 | A drain adds to a matched interval its page and last event, or why there is none; to any other interval nothing |
| WaitOnProofs.WatchIsExact | crates/gearwit-cli/src/wait_on.rs:706-740 | The watch goes on through intervals that time out or see something new and stops at the first other one, with the stated code |
| Transport.ReceiveBudget | crates/gearwit-host/src/codex_transport.rs:617-668 | Against any process every successful receive uses up the budget of unread output plus queue, so loops over receives end |
| Transport.ReadOneBudget | crates/gearwit-host/src/codex_transport.rs:629-668 | A read line uses output budget; reading on happens only while a request is pending |
| Transport.HandleShape | crates/gearwit-host/src/codex_transport.rs:670-737 | What handling a line never touches |
| TransportProofs.ReceiptIsSound | crates/gearwit-host/src/codex_transport.rs:816-884 | Bytes taken are a prefix of the frame, and a failed write's receipt says exactly whether any was taken |
| TransportProofs.ReceiveIsFifo | crates/gearwit-host/src/codex_transport.rs:617-668 | One receive hands on notifications in arrival order, losing only one answered with `Degraded` on a full queue or over the output limit |
| TransportProofs.ActiveIsUnique | crates/gearwit-host/src/codex_transport.rs:1097-1122 | A thread has an active turn exactly when one identified turn is in progress and all others are identified and over |
| TransportProofs.IdleMeans | crates/gearwit-host/src/codex_transport.rs:1079-1095 | A thread is idle exactly when its turns are listed, few enough, identified and over |
| TransportRuns.SingleFlight | crates/gearwit-host/src/codex_transport.rs:511-607 | Over every session, with permits used whenever they are out, at most one request is pending, no id is framed twice, and a permit is backed by exactly its frame while no request of the server was answered since |
| TransportRuns.LatchClears | crates/gearwit-host/src/codex_transport.rs:549-709 | A step clears the latch exactly when it is a receive whose last read settles the pending request, or a permit used although latched whose write succeeds |
| TransportRuns.LatchOverwritten | crates/gearwit-host/src/codex_transport.rs:549-577 | A concrete session in which a dispatch clears the latch of a refusal that may have been written, and no reply was ever read |
| TransportRuns.LatchedPermitIsStale | crates/gearwit-host/src/codex_transport.rs:549-577 | A permit used while latched is one whose frame a refusal has replaced |
| TransportRuns.LatchIsAbsorbing | crates/gearwit-host/src/codex_transport.rs:739-758 | Latched with nothing pending, nothing is written ever again exactly unless a permit already out is used |
| TransportRuns.NotificationsAreFifo | crates/gearwit-host/src/codex_transport.rs:710-721 | Over any session notifications handed on, then queued, are those that arrived, in order, but for the ones answered with `Degraded` on a full queue or `Bounds` over the output limit; the queue stays within 64 |
| TransportRuns.ReceiveObeys | crates/gearwit-host/src/codex_transport.rs:617-737 | What a receive may change, with the reply that allows it as its last read |
| TransportRuns.RejectionWipesFrame | crates/gearwit-host/src/codex_transport.rs:723-735 | With nothing pending a receive keeps a prepared frame exactly unless it answers a request of the server, and then the frame is gone |
| TransportRuns.StaleDispatchSendsNothing | crates/gearwit-host/src/codex_transport.rs:549-577 | Dispatching after that writes an empty frame and counts the turn as sent |
| TransportRuns.CommitKeeps | crates/gearwit-host/src/codex_transport.rs:549-577 | Any permit used writes the buffer under its id and keeps the session rules; while it is intact the buffer is exactly the frame prepared for it |
| TransportRuns.AskKeeps | crates/gearwit-host/src/codex_transport.rs:579-607 | A request keeps the session rules |
| TransportReplies.WriteIsExact | crates/gearwit-host/src/codex_transport.rs:816-884 | A frame is written exactly when the pipe, only waiting in between, takes as many bytes as it has and then completes the flush |
| TransportReplies.LoopSettles | crates/gearwit-host/src/codex_transport.rs:617-709 | With a request pending, a receive succeeds exactly when its last line is a response to it of the shape it expects, says "native" exactly when that line is an error for it, and only then the request is gone |
| TransportReplies.RequestIsExact | crates/gearwit-host/src/codex_transport.rs:579-607 | A request goes out exactly on a free transport, for a kind it makes, when its frame fits and is written; it is then the one pending |
| TransportReplies.PreparedIsExact | crates/gearwit-host/src/codex_transport.rs:511-542 | A turn is prepared exactly on a free transport when its frame fits; one too long spends its id and leaves an empty buffer |
| TransportReplies.DispatchIsExact | crates/gearwit-host/src/codex_transport.rs:549-577 | A prepared turn is dispatched exactly when the buffer is written |
| TransportReplies.HandshakeCompletes | crates/gearwit-host/src/codex_transport.rs:676-699 | The handshake completes when its response was read and its note written |
| TransportReplies.HandshakeIsExact | crates/gearwit-host/src/codex_transport.rs:411-432 | The handshake goes out exactly on a new, unlatched transport, when its frame fits and is written |
| TransportReplies.ReadOneLatches | crates/gearwit-host/src/codex_transport.rs:629-737 | One read latches a transport exactly when, with a request pending, it fails or brings a line that leaves the request in doubt, or when what it is answered with may have been written in part |
| TransportReplies.SendLatches | crates/gearwit-host/src/codex_transport.rs:739-758 | A message sent latches the transport exactly when it may have been written in part |
| TransportStates.WriteAllUntil | crates/gearwit-host/src/codex_transport.rs:816-884 | The two loops compute the stated bytes and outcome |
| TransportStates.FindActive | crates/gearwit-host/src/codex_transport.rs:1097-1122 | The loop finds the one turn in progress |
| TransportStates.TransportState.constructor | crates/gearwit-host/src/codex_transport.rs:398-409 | A new transport |
| TransportStates.TransportState.OfferFrame | crates/gearwit-host/src/codex_transport.rs:760-773 | In place: offer the buffer and wipe it |
| TransportStates.TransportState.Send | crates/gearwit-host/src/codex_transport.rs:739-758 | In place: send unless latched; latch on a possible write |
| TransportStates.TransportState.Handshake | crates/gearwit-host/src/codex_transport.rs:411-432 | In place: the one initialize request |
| TransportStates.TransportState.SendRequest | crates/gearwit-host/src/codex_transport.rs:579-607 | In place: one request in flight |
| TransportStates.TransportState.PrepareTurn | crates/gearwit-host/src/codex_transport.rs:511-542 | In place: a frame in the buffer and its id |
| TransportStates.TransportState.Discard | crates/gearwit-host/src/codex_transport.rs:544-546 | In place: the buffer wiped |
| TransportStates.TransportState.Dispatch | crates/gearwit-host/src/codex_transport.rs:549-577 | In place: the buffer written, its request pending unless surely not written |
| TransportStates.TransportState.HandleResponse | crates/gearwit-host/src/codex_transport.rs:676-699 | In place: a response |
| TransportStates.TransportState.Handle | crates/gearwit-host/src/codex_transport.rs:670-737 | In place: any inbound line |
| TransportStates.TransportState.ReadOne | crates/gearwit-host/src/codex_transport.rs:629-662 | In place: one read and what it leads to |
| TransportStates.TransportState.NextUntil | crates/gearwit-host/src/codex_transport.rs:617-668 | In place: the receive loop |
| ControllerProofs.EpochIsBounded | crates/gearwit-host/src/codex_transport.rs:2078-2092 | In every state a controller reaches, epoch plus queue is at most the output read, which is at most its limit, so the increment never saturates |
| ControllerProofs.ActBounded | crates/gearwit-host/src/codex_transport.rs:2078-2092 | Every operation keeps the bound and never lowers the epoch |
| ControllerProofs.FrameAtDispatch | crates/gearwit-host/src/codex_transport.rs:2357-2427 | At dispatch the buffer holds the frame prepared for the id, and no whole line was read since, exactly when the read ending the drain brought no request of the server; in that case it is empty |
| ControllerProofs.NoDataMeans | crates/gearwit-host/src/codex_transport.rs:2082-2092 | "No data" is a read that failed so, or a server request whose refusal hit the write deadline |
| ControllerProofs.GrantMeans | crates/gearwit-host/src/codex_transport.rs:2257-2355 | A granted lane carries the current epoch and no whole line was read after the answer, but for that one case |
| ControllerAnswers.ProbeIsExact | crates/gearwit-host/src/codex_transport.rs:2257-2355 | A lane is granted exactly when a probe that could ask was answered with the thread, idle, its few turns all over, and there was no data after; an active turn is reported exactly when the answer names it as the only one in progress |
| ControllerAnswers.StateMeans | crates/gearwit-host/src/codex_transport.rs:1023-1122 | A thread report is read as idle, or as active in one turn, exactly when it says so |
| ControllerAnswers.AskIsExact | crates/gearwit-host/src/codex_transport.rs:2277-2301 | The thread counts as reported exactly when the last line is a response to this request |
| ControllerAnswers.NoDataIsExact | crates/gearwit-host/src/codex_transport.rs:2082-2092 | A receive finds no data exactly when its read fails at the deadline or its refusal of a server request runs into the write deadline unwritten |
| ControllerAnswers.ReserveIsExact | crates/gearwit-host/src/codex_transport.rs:2357-2426 | A turn is reserved exactly when the command is for the lane held, at this epoch, on a live thread, the transport is free, the frame fits, there is no data, and binding and lease hold |
| ControllerAnswers.RefusalIsExact | crates/gearwit-host/src/codex_transport.rs:2357-2426 | With which answer a turn is refused: misbound, overtaken by another epoch, or not accepted; the frame is wiped and the lane given up |
| ControllerLane.LaneIsIdleAtDispatch | crates/gearwit-host/src/codex_transport.rs:2257-2427 | For a probe, any polls and reconciliations, and the write: the frame is intact exactly when the write's drain met no request of the server, and nothing was taken from the process since the idle answer exactly when neither drain ended by taking something and nothing between them was taken unseen; of whole lines, over the output limit or not, and of all output |
| ControllerLane.ReadsUnseen | crates/gearwit-host/src/codex_transport.rs:2138-2199 | A poll moves the epoch exactly when it hands on a notification, a reconciliation never; output is taken without moving it exactly when the first read takes some and is handed on as no notification, or belongs to a reconciliation |
| ControllerLane.QuietWatch | crates/gearwit-host/src/codex_transport.rs:2138-2199 | Over any sequence of polls and reconciliations that leaves the epoch alone, a line (or any output) was taken exactly when one of them took it unseen |
| ControllerLane.StartIsUnseen | crates/gearwit-host/src/codex_transport.rs:629-644 | A concrete process whose turn/started line, over the output limit, is taken by a poll or a reconciliation, after which the lane is still reserved with its frame intact |
| ControllerTurn.WriteIsSound | crates/gearwit-host/src/codex_transport.rs:2357-2452 | For every pipe and process: not accepted means no byte taken or a native error for the id; accepted means the whole buffer taken, flushed and answered under the id; refused means nothing framed |
| ControllerTurn.DispositionIsSound | crates/gearwit-host/src/codex_transport.rs:2427-2451 | The same for the dispatch and its answer |
| ControllerAnswers.PerformIsExact | crates/gearwit-host/src/codex_transport.rs:2427-2451 | A dispatched turn counts as not accepted exactly when its frame was refused before a byte or an error for it was read, as accepted exactly when written and reported under its id, else as unknown, which is noted |
| ControllerAnswers.ReconcileIsExact | crates/gearwit-host/src/codex_transport.rs:2466-2502 | Reconciling finds the turn accepted exactly when a turn was pending and the last line reports it, not accepted exactly when that line is an error for the pending request |
| ControllerTurn.AcceptedWithoutBytes | crates/gearwit-host/src/codex_transport.rs:2082-2092 | A concrete process and pipe for which a turn is reported accepted though no byte of it was offered |
| ControllerTurn.LoopReply | crates/gearwit-host/src/codex_transport.rs:617-709 | A native error or started turn is always the reply to the pending turn |
| ControllerFlight.ControllerSingleFlight | crates/gearwit-host/src/codex_transport.rs:2257-2502 | Over every run of a controller one request in flight, no id framed twice, and an absorbing latch |
| ControllerFlight.ActKeeps | crates/gearwit-host/src/codex_transport.rs:2257-2502 | Every operation follows the session rule |
| ControllerFlight.LatchHolds | crates/gearwit-host/src/codex_transport.rs:670-709 | Over every run of a controller the latch is cleared only after a reply to the request it was set for was read |
| ControllerFlight.DispatchIsUnlatched | crates/gearwit-host/src/codex_transport.rs:2357-2427 | A turn is never dispatched while latched, whatever the drain read |
| ControllerLife.ExactLifecycle | crates/gearwit-host/src/codex_transport.rs:2111-2200 | For any arrival order, duplication and interleaving, the start and end facts of one turn are a prefix of start, end; the start is reported exactly when one was seen, the end, with the first completion's outcome, exactly when a completion was seen after the start, or before it and a bound poll followed on a controller not reported lost |
| ControllerLife.SilentPoll | crates/gearwit-host/src/codex_transport.rs:2141-2199 | Until a degradation was reported, a poll that reports nothing went on until there was no data |
| ControllerLife.StopsAreExact | crates/gearwit-host/src/codex_transport.rs:2142-2154 | What a receive that is no notification makes a poll report: a lost controller once, nothing for no data, else one degradation in all |
| ControllerLife.UnclearEnds | crates/gearwit-host/src/codex_transport.rs:2166-2198 | An end that cannot be read is reported as such; a second end before the start is one degradation |
| ControllerLife.OthersArePassedOver | crates/gearwit-host/src/codex_transport.rs:2156-2198 | Notifications of other turns report nothing and change nothing |
| ControllerLife.PollGuards | crates/gearwit-host/src/codex_transport.rs:2454-2464 | An unbound poll, or one after the loss was reported, does nothing; a turn that cannot be opened is a degradation |
| ControllerLife.ObserveLife | crates/gearwit-host/src/codex_transport.rs:2156-2198 | One notification keeps what is remembered in step with what was reported and seen |
| CodexControllers.CodexController.constructor | crates/gearwit-host/src/codex_transport.rs:1985-2011 | A fresh lane |
| CodexControllers.CodexController.BumpEpoch | crates/gearwit-host/src/codex_transport.rs:2078-2080 | In place: the saturating increment |
| CodexControllers.CodexController.DrainBeforeMutation | crates/gearwit-host/src/codex_transport.rs:2082-2092 | In place: the drain loop |
| CodexControllers.CodexController.AskThread | crates/gearwit-host/src/codex_transport.rs:2277-2301 | In place: ask and receive until reported |
| CodexControllers.CodexController.ProbeIdle | crates/gearwit-host/src/codex_transport.rs:2257-2355 | In place: drain, ask, drain, compare epochs |
| CodexControllers.CodexController.Reserve | crates/gearwit-host/src/codex_transport.rs:2357-2426 | In place: everything before the dispatch |
| CodexControllers.CodexController.Perform | crates/gearwit-host/src/codex_transport.rs:2427-2451 | In place: dispatch and take the answer |
| CodexControllers.CodexController.WriteReservedTurn | crates/gearwit-host/src/codex_transport.rs:2357-2452 | In place: reserve, dispatch, answer |
| CodexControllers.CodexController.DegradedOnce | crates/gearwit-host/src/codex_transport.rs:2202-2209 | In place: report degradation once |
| CodexControllers.CodexController.PollLoop | crates/gearwit-host/src/codex_transport.rs:2141-2199 | In place: the observation loop |
| CodexControllers.CodexController.Stops | crates/gearwit-host/src/codex_transport.rs:2142-2154 | In place: what ends a poll |
| CodexControllers.CodexController.Poll | crates/gearwit-host/src/codex_transport.rs:2454-2464 | In place: one poll |
| CodexControllers.CodexController.Reconcile | crates/gearwit-host/src/codex_transport.rs:2466-2502 | In place: one receive, mapped |
| Attempts.TracesAreLinear | crates/gearwit-domain/src/attempt.rs:241-266 | The claims an attempt accepts in full are exactly the linear extensions of the doorbell order by supported sources, and the trace holds them unchanged |
| Attempts.TracesAreCausal | crates/gearwit-domain/src/attempt.rs:61-74 | In an accepted trace every phase comes after everything it depends on, through any number of steps |
| Attempts.RearmNeeds | crates/gearwit-domain/src/attempt.rs:61-74 | A rearm needs the handled batch and the exact end of its turn, not the seat's action; the seat's action does not need the end |
| Attempts.OrderMeans | crates/gearwit-domain/src/attempt.rs:61-74 | A phase depends on exactly the phases before it on the one chain, with the turn's end after its start, and action and rearm after the chain |
| Attempts.WitnessesMean | crates/gearwit-domain/src/attempt.rs:111-139 | Which sources can witness a phase |
| Attempts.LinearGrows | crates/gearwit-domain/src/attempt.rs:241-266 | One more claim is accepted exactly when it may follow |
| Attempts.AppendIsExact | crates/gearwit-domain/src/attempt.rs:241-266 | A receipt is appended exactly when it has the next number, its phase is new and all it needs is there; else the error is the first of these that fails |
| Attempts.ObserveIsExact | crates/gearwit-domain/src/attempt.rs:272-281 | A phase is observed exactly when a receipt is for it, from the source of the first |
| AttemptTraces.DoorbellAttemptTrace.Append | crates/gearwit-domain/src/attempt.rs:241-266 | In place: appended, or unchanged with the first reason why not |
| AttemptTraces.DoorbellAttemptTrace.Contains | crates/gearwit-domain/src/attempt.rs:295-297 | The scan finds the phase exactly when it is there |
| AttemptTraces.DoorbellAttemptTrace.Observe | crates/gearwit-domain/src/attempt.rs:272-281 | The scan gives the source of the phase's receipt |

## Left out

- Sockets, threads and mutexes: replaced by step parameters (what is read, whether a write succeeds). Of the frame codec only the size limit on `deliver_events` is modelled; the length prefix, decoding and the sizes of other messages are not.
- Processes, process groups, version preflight, stderr draining, file identity and cleanup: a child is present or not; whether it lives is a parameter.
- JSON: messages arrive decoded; a timestamp is the instant it parses to, or nothing; schema ids are left out.
- Persistence, sealing and opening of native references, bindings and leases of commands: opaque results passed in; authority.rs, coordinator.rs, controller.rs, persist.rs and conformance.rs are not part of this model.
- Quarantined creation and resumption of a controller (`create_owned`, `resume_owned`, `receive_late`): results of one receive each, over the same transport.
- Wall-clock deadlines and `read_line_until` byte by byte: a read is a whole line, or a failure with how much of a line it took, which is lost; that the rest of such a line comes next is not modelled.
- The active-thread proof hash: represented by the active turn it is computed from.
- MainLoops.MainLoop.Iterate: the object executes one iteration without the accept thread in between; interleavings inside an iteration are covered by module `Daemon`.
- Joining the accept thread on a halt: after a halt the accept thread of the model may still commit an attach, where the code joins it first; the model allows more.
- Which open signal conflicts: the code looks for any other open signal; over runs there is at most one, so the choice is not modelled.
- A lease that expires between a poll and a flush of the same iteration: a step may revoke the link at any time, but bytes reaching the wrong stream are not modelled.
- interrupt.rs, who.rs, check.rs, child.rs, attach.rs, ack_handled.rs, the rendering of receipts and the TypeScript console: field checks, argument parsing and display.
