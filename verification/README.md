# A verified model of the weagent/1 Gateway

The repository connects a user's clients to Agents running on the user's own machines. A
Gateway keeps durable tables in a database and talks to each Node over one WebSocket; a Node
keeps a journal of commands and a spool of events in a state file. Both sides can crash at any
moment and connections come and go, so what the system guarantees only exists in the
composition of both sides. This project models that composition in Dafny and proves what holds
in every reachable state.

## The parts

* **Commands** (`Commands`, `ProtocolWorld`, `ProtocolSafety`, `ProtocolTheorems`). One Gateway
  and one Node as a step system: operation and outbox rows, the bounded send queue and the
  frame its writer holds, the bytes on the wire, the Node's journal in memory and on disk, and
  crashes of either side between any two durable writes. Admission, dispatch, the writer,
  acknowledgements, expiry, restart, revocation, reconnection, journal queries and the Node's
  handler are separate steps. `ProtocolEffects` states what each step leaves in the operations
  table, `ProtocolRuns` that commands and queries get through. `GatewayOperations` and
  `FakeNode` hold the same handlers as classes that update their tables in place.
* **Source events** (`IngestWorld`, `IngestSafety`, `IngestEffects`, `GatewayIngest`). Numbered events from the
  Node's spool into the Gateway's sessions, with deduplicating receipts that may be deleted,
  acknowledgements, pruning, crashes and repetitions.
* **One session's rows** (`SessionTables`, `SessionMirror`, `SessionSafety`, `SessionTheorems`,
  `SessionEffects`, `SessionCommands`, `StaleRequests`, `StuckQueue`, `GatewaySession`). Session, turns, operations, queue items and
  interaction requests under every transaction that changes them. A transaction yields new rows
  or rolls back.
* **Payload clearing** (`PayloadGc`, `PayloadNotice`). The daily clearing of command payloads
  as a refinement, and exactly when it is none.
* **Runs that show what can happen** (`SessionWitnesses`). From a newly created session, step by
  step, into the situations named below.
* **Protocol and session together** (`Coupling`). Both speak of one table of operations.
* **History** (`History`, `HistoryTheorems`, `Timeline`, `Paging`, `Feed`, `HistoryFeed`, `Transcript`).
  The event log, the timeline projected from it, checkpoints, the page readers, the live push
  of a client connection, and transcripts.
* **Readiness** (`Readiness`). The directory a Node reports in parts, and the fence that keeps
  a connection from counting as ready before its sessions were heard of.
* **Lineage** (`Lineage`). Sessions that continue other sessions, and deleting a whole tree.
* **Smaller cores** (`RateLimit`, `StrictJson`, `Questions`, `Subscriptions`).

Tables are maps; a transaction and a handler under the server mutex are atomic; the writer pops
a frame outside the mutex and writes it in a later step. A crash of the Gateway drops its
connections and queues; a crash of the Node keeps its last save. A save either succeeds or the
process stops. Digests are injective and fresh ids are new. What a caller or the outside world
decides (clocks, whether a frame fits or is sent, the verdict of a handler modelled elsewhere)
is a parameter of the step.

## What the proofs found

* **Clearing payloads is a refinement only for honest enqueue receipts.** A confirmed enqueue
  whose receipt names an item already listed for another operation is stored without a row of
  its own. Its payload is cleared after a day, and a later report of its real item is refused,
  although it was accepted before. `PayloadNotice.NoticedExactly` gives the exact condition, for
  every session that satisfies the invariant: some continuation is accepted differently once a
  payload is cleared if and only if its operation is a confirmed enqueue without a row, in a
  session that is neither purged nor stuck. Whether the queue has room makes no difference: the
  proof builds the continuation also for a full queue, where the report that starts the next
  turn consumes the head first. `PayloadGc.SparingRefines` proves that whatever else is cleared,
  and whenever, exactly the same transactions go through, and `PayloadGc.ClearingRefines` that
  honest receipts suffice. `PayloadGc.ConfirmEnqueues` says exactly which receipts leave such an
  orphan, and `SessionWitnesses.DishonestReceipt` gives a run from a new session.
* **A request of an earlier turn can block a later snapshot.** A snapshot that ends a turn
  withdraws every request stored as pending, and fails if one belongs to another turn
  (`StaleRequests.RefusedExactly`). Two transactions leave such a request behind, and no other
  (`StaleRequests.StaleStep`): an answer rejected after the next turn has started returns its
  request to pending, if it has not expired; and the next turn starts over a request that is
  still stored as pending. The end of a turn withdraws only live requests, so one that expired
  before the sweep came by stays pending in its row, and so does one returned to pending between
  the turns. `SessionWitnesses.ReturnedBlocks` and `SessionWitnesses.ExpiredBlocks` are runs from
  a new session by either way, and `StaleRequests.NeverRefused` proves that without the two no
  snapshot is ever refused for a request's sake.
* **A failed enqueue can leave a stuck item.** If an item was reported before its command was
  rejected, no later report can list it and none may omit it (`PayloadGc.StuckRefuses`), for good
  (`StuckQueue.StuckForGood`). `StuckQueue.StuckStep` proves that the failure of an open enqueue
  with an unconsumed item is exactly what causes it: a report over a rejected operation's item is
  refused, so it never does. `SessionWitnesses.StuckReached` is a run from a new session. With a
  Node that lists only items of enqueues it has executed this cannot happen
  (`Coupling.TogetherRuns`), because an executed operation is never reported as failed.
* **An item's creation time is not compared.** The reconciled queue equals the reported one in
  ids, operations, texts and marks (`SessionMirror.MirrorReports`); the stored creation time of
  an item stays what it was first.

The session's transactions settle open operations only. That the protocol never asks for
anything else, although `finishOp` checks no state, is a theorem about both together: every
protocol step changes the state of at most one operation, and only of an open one
(`Coupling.OneMove`); the session transaction that shares the step finds its guard met, up to the
row updates of a confirmation, which roll both back (`Coupling.MoveMatched`); so every run of
both is a run of the protocol and a run of the session's transactions (`Coupling.TogetherRuns`).

## Model

| member | source | states |
|---|---|---|
| Commands.RunReceiptMatches | internal/fakenode/node.go:516-579 | whatever the Node agrees to run, the receipt it prepares passes every comparison the Gateway makes, and nothing runs late, on a replaced connection or against another turn |
| Commands.MatchesExactly | internal/gateway/node.go:606-647 | kind by kind, the one receipt the Gateway takes; only the item of an enqueue is free |
| Commands.RunsExactly | internal/fakenode/node.go:516-579 | exactly which commands the Node runs, with which receipt and which session afterwards |
| Commands.CreateRuns | internal/fakenode/node.go:533-540 | a create runs exactly once for a session, at the Node's own project and Agent, and starts the command's turn |
| Commands.SendRuns | internal/fakenode/node.go:553-561 | a message starts the next turn exactly when the current one is completed, cancelled or failed |
| Commands.QueueRuns | internal/fakenode/node.go:541-552 | an enqueue runs exactly during a turn with room, and appends exactly its item |
| Commands.CancelRuns | internal/fakenode/node.go:562-567 | exactly which cancels run, and that the open request is dropped |
| Commands.RespondRuns | internal/fakenode/node.go:568-577 | an answer runs exactly for the open request before it expires |
| Commands.NoSecondTurn | internal/fakenode/node.go:541-561 | no command replaces a turn that is under way |
| ProtocolEffects.ReceiveLeaves | internal/gateway/node.go:546-720 | what every report leaves of its row in any reachable state: confirmed with the receipt, failed unsent, in doubt, delivered, or settled as before; every other row is untouched |
| ProtocolEffects.DispatchLeaves | internal/gateway/commands.go:373-380 | the stored intent, or the operation failed unsent |
| ProtocolEffects.EnqueueLeaves | internal/gateway/commands.go:381-384 | the frame at the end of the queue of the connection it was admitted for, or the operation failed and the connection given up |
| ProtocolEffects.WriteLeaves | internal/gateway/realtime.go:82-117 | the frame on the wire, except a late command, which fails, and frames of a replaced connection |
| ProtocolEffects.ExpireLeaves | internal/gateway/maintenance.go:107-134 | failed if never written, otherwise in doubt and asked for |
| ProtocolRuns.CommandConfirms | internal/gateway/commands.go:194-385 | a command acceptable to its Node can be run on a quiet connection from admission to receipt: executed once, confirmed with the expected receipt |
| ProtocolRuns.CommandFails | internal/fakenode/node.go:490-497 | any other command ends failed there, and is not executed |
| ProtocolRuns.DoubtResolved | internal/gateway/realtime.go:193-228 | one reconnection settles any open operation as the Node's journal has it |
| ProtocolSafety.StepKeeps | internal/gateway/realtime.go:82-117 | every step of Gateway, Node and network keeps the whole protocol invariant |
| ProtocolSafety.RunKeeps | internal/gateway/realtime.go:193-228 | so does every run, with crashes, reconnections and expiries anywhere |
| ProtocolTheorems.SettledStep | internal/gateway/store.go:130-141 | confirmed and failed rows change in no step although the update has no state guard |
| ProtocolTheorems.SettledRun | internal/gateway/node.go:560-566 | confirmed and failed are absorbing over every run |
| ProtocolTheorems.AtMostOneCall | internal/fakenode/node.go:498-594 | an operation id causes at most one native call in any reachable state |
| ProtocolTheorems.FailedNeverRuns | internal/gateway/commands.go:386-396 | an operation reported failed has not run and never will, in any continuation |
| ProtocolTheorems.ConfirmedRanOnce | internal/gateway/node.go:606-720 | an operation reported confirmed ran exactly once, and its stored receipt matches its command for good |
| ProtocolTheorems.CallsMatchJournal | internal/fakenode/node.go:581-585 | the call counter equals the number of journal entries that were executed, in memory and on disk |
| ProtocolTheorems.NoConflict | internal/gateway/node.go:570-588 | an honest durable Node never drives the Gateway into the conflict of a delivered operation reported as not seen, nor into any other refusal |
| ProtocolTheorems.OneOpenControl | internal/gateway/commands.go:197-208 | at most one unresolved create, send, cancel, respond or native operation per session |
| GatewayOperations.Operations.Admit | internal/gateway/commands.go:194-276 | an operation is admitted exactly if its Node is connected and no unresolved control of its session is in the way, with a pending outbox row |
| GatewayOperations.Operations.Dispatch | internal/gateway/commands.go:373-385 | the intent is stored before the frame is queued, the operation fails exactly if the frame certainly was not, and a connection that does not take it is stopped |
| GatewayOperations.Operations.FinishOp | internal/gateway/store.go:130-141 | the row's new state and result, nothing else, and one change recorded |
| GatewayOperations.Operations.FailUnsent | internal/gateway/commands.go:386-396 | the row ends failed and not sent |
| GatewayOperations.Operations.Acknowledge | internal/gateway/node.go:546-720 | branch by branch, the row, the outcome and the recorded change that each report leaves, as the protocol steps have them |
| GatewayOperations.Operations.RecoverOperations | internal/gateway/maintenance.go:9-34 | restart visits every unsettled row once: unwritten ones fail, the rest are in doubt, settled ones stay |
| GatewayOperations.Operations.ExpireOperations | internal/gateway/maintenance.go:107-134 | the due rows, by deadline and at most 100, and no others are settled that way, and exactly those possibly written are queried, in order |
| GatewayOperations.Operations.InvalidateNodeOperations | internal/gateway/maintenance.go:35-53 | revocation fails what was never written and leaves the outbox of the rest alone |
| GatewayOperations.RecoveryInAnyOrder | internal/gateway/maintenance.go:9-34 | the recovery steps of the protocol, in any order, end with the rows the loop computes |
| FakeNode.Node.Load | internal/fakenode/node.go:158-190 | reloading marks exactly the interrupted calls unknown and saves |
| FakeNode.Node.Receipt | internal/fakenode/node.go:476-489 | what is reported for each journal state, executing being reported as unknown |
| FakeNode.ReportExactly | internal/fakenode/node.go:476-489 | each journal state has its report, and a call begun without an outcome is unknown |
| FakeNode.Node.Reject | internal/fakenode/node.go:490-497 | the rejection is on disk and then reported |
| FakeNode.Node.Query | internal/fakenode/node.go:405-419 | a journal query answers from the journal or says not seen |
| FakeNode.Node.Command | internal/fakenode/node.go:498-594 | a known operation only repeats its receipt; a new one runs exactly if it is acceptable, once, leaving the described session, journal entry and frames, and is rejected otherwise; every reported state is on disk |
| FakeNode.HandlerRefuses | internal/fakenode/node.go:490-497 | the protocol steps of a refused command, uninterrupted, leave what the handler leaves |
| FakeNode.HandlerRuns | internal/fakenode/node.go:581-597 | the same for a command that runs: one call, confirmed journal, two acknowledgements |
| FakeNode.Spool.Emit | internal/fakenode/node.go:453-463 | the next number of the session, appended and on disk |
| FakeNode.Spool.Acknowledged | internal/fakenode/node.go:420-432 | exactly the acknowledged events of that session leave the spool |
| GatewayIngest.Inbox.Source | internal/gateway/node.go:139-235 | deduplication, the sequence check, the purged session and the refusal, with the new tables |
| IngestEffects.SourceExactly | internal/gateway/node.go:139-235 | exactly which events are taken in, acknowledged again, in conflict or refused, and everything that is written |
| IngestEffects.PruneExactly | internal/fakenode/node.go:420-432 | exactly the acknowledged events leave the spool, the others keep their order |
| IngestEffects.CatchesUp | internal/fakenode/node.go:377-391 | from any reachable state a reconnection can bring every session up to date, provided the sessions of the spooled events exist unpurged |
| IngestSafety.StepKeeps | internal/gateway/node.go:139-235 | every step of spool, wire and ingestion keeps the invariant |
| IngestSafety.RunKeeps | internal/fakenode/node.go:382-391 | so does every run |
| IngestSafety.PruneCovers | internal/fakenode/node.go:420-432 | pruning after an acknowledgement keeps everything not yet applied |
| IngestSafety.ExactlyOnceInOrder | internal/gateway/node.go:159-231 | the events applied to a session are a prefix of those its Node emitted, each once, under growing anchors, also after old receipts are deleted |
| IngestSafety.NothingLost | internal/fakenode/node.go:453-463 | every emitted, unapplied event is still in the spool, in memory and on disk |
| IngestSafety.AcksBounded | internal/gateway/node.go:215-232 | no acknowledgement under way ever exceeds what was applied |
| IngestSafety.NoGap | internal/gateway/node.go:183-185 | without a refusal on the connection the Gateway never meets a gap or a reused id |
| IngestSafety.QuietMeansComplete | internal/fakenode/node.go:377-391 | when such a connection is silent everything emitted has been applied |
| SessionMirror.MirrorExact | internal/gateway/node.go:372-425 | reconciliation accepts exactly the lists that extend the stored unconsumed queue by new items of admitted commands, and which rows result |
| SessionMirror.MirrorReports | internal/gateway/node.go:409-424 | afterwards the active queue is the reported list and the previous one is its prefix |
| SessionSafety.StepTurns | internal/gateway/node.go:258-333 | every transaction keeps session state and turn states in agreement |
| SessionSafety.StepDrawn | internal/gateway/commands.go:210-225 | every turn belongs to the one command it was reserved by |
| SessionSafety.StepQueue | internal/gateway/node.go:282-295 | the queue stays consumed rows first, one row per item and operation, at most 20 active |
| SessionSafety.StepRequests | internal/gateway/commands.go:277-293 | requests and their decision operations stay coupled |
| SessionSafety.StepPurged | internal/gateway/maintenance.go:170-192 | a tombstone keeps its cursor and has nothing left to act on it |
| SessionSafety.StepKeeps | internal/gateway/node.go:258-369 | every transaction keeps the whole session invariant |
| SessionSafety.ConsumesHead | internal/gateway/node.go:282-295 | a turn started from the queue consumes exactly the head, any other turn nothing |
| SessionTheorems.ActiveTurn | internal/gateway/commands.go:11-13 | a turn is active exactly if it is the current one of an active session |
| SessionTheorems.OutcomeStep | internal/gateway/node.go:296-333 | a finished turn stays finished; only an authorised resume changes its outcome, to completed |
| SessionTheorems.FinishedForGood | internal/gateway/node.go:236-257 | over every run no finished turn becomes active again |
| SessionTheorems.StartStep | internal/gateway/node.go:268-295 | a turn starts once, by a running snapshot naming the admitted command that reserved it |
| SessionTheorems.DrawnForGood | internal/gateway/commands.go:213-225 | a turn id is never drawn again and a started turn never disappears |
| SessionTheorems.UpdateConsumes | internal/gateway/node.go:278-295 | what a snapshot does to the queue, and that a queued turn follows a completed turn and a confirmed enqueue |
| SessionTheorems.QueueStep | internal/gateway/node.go:372-425 | every transaction only appends to the queue, and exactly a queued turn's start consumes a row, the head |
| SessionTheorems.QueueRun | internal/gateway/node.go:372-425 | until a purge the queue is a FIFO log over every run |
| SessionTheorems.DecidedBy | internal/gateway/commands.go:277-293 | deciding means exactly one open answer, resolved exactly one confirmed one, otherwise no decision |
| SessionTheorems.WinnerStep | internal/gateway/node.go:678-695 | no transaction lets a second answer to a request be confirmed |
| SessionTheorems.WinnerRun | internal/gateway/commands.go:426-450 | over every run no request has two winning decisions, even after its row is deleted |
| SessionTheorems.Tombstone | internal/gateway/maintenance.go:170-192 | once purged, no handler ever appends again |
| SessionEffects.SnapshotExactly | internal/gateway/node.go:236-425 | for every session and snapshot, exactly when it is accepted: reported state or start of a turn, capabilities, queue, requests |
| SessionEffects.SnapshotWrites | internal/gateway/node.go:296-364 | everything an accepted snapshot writes: turn, outcome, capabilities, queue, withdrawn requests, number of events |
| SessionEffects.CurrentSnapshot | internal/gateway/node.go:236-257 | exactly which states the current turn may report, and the outcome it is left with |
| SessionCommands.CancelConfirmed | internal/gateway/node.go:696-710 | a confirmed cancel of the running turn makes session and turn cancelling, any other changes nothing more |
| SessionCommands.AnswerConfirmed | internal/gateway/node.go:678-695 | a confirmed answer resolves its request, with one event |
| SessionCommands.EnqueueConfirmed | internal/gateway/node.go:649-677 | exactly which enqueue receipts go through, and that a new item joins the end of the queue |
| SessionCommands.OtherConfirmed | internal/gateway/node.go:711-718 | any other confirmation changes the operation only |
| SessionCommands.FailWrites | internal/gateway/commands.go:397-453 | what each rejection gives back: a failed first turn, the answered request pending or expired, or nothing |
| SessionCommands.StartAdmitted | internal/gateway/commands.go:148-162 | a message, compaction or review is admitted exactly when the turn is over and no control is undecided |
| SessionCommands.QueueAdmitted | internal/gateway/commands.go:148-156 | an enqueue is admitted exactly during a turn with room |
| SessionCommands.CancelAdmitted | internal/gateway/commands.go:163-170 | a cancel is admitted exactly for a turn under way |
| SessionCommands.AnswerAdmitted | internal/gateway/commands.go:171-193 | an answer is admitted exactly for a pending, unexpired request of the current turn, and takes it over |
| SessionCommands.NativeAdmitted | internal/gateway/commands.go:130-147 | when a resume and the other native controls are admitted |
| SessionCommands.PurgeWrites | internal/gateway/maintenance.go:170-192 | which sessions are purged or deleted, and everything that goes |
| SessionCommands.ClearWrites | internal/gateway/maintenance.go:212 | exactly which payloads the daily clearing takes |
| StaleRequests.StaleStep | internal/gateway/commands.go:426-450 | exactly which transactions first leave a pending request of another turn: an answer rejected in a later turn before the request expires, and the start of a turn over rows still pending |
| StaleRequests.NeverRefused | internal/gateway/node.go:258-369 | over every run without those two transactions every snapshot in order goes through |
| SessionWitnesses.ReturnedBlocks | internal/gateway/commands.go:426-450 | a run from a new session in which a rejected answer leads to the refusal of every snapshot that ends the next turn |
| SessionWitnesses.ExpiredBlocks | internal/gateway/node.go:503-527 | the same with a request that had expired but was still stored as pending when its turn ended |
| GatewaySession.Store.QueueMirror | internal/gateway/node.go:372-425 | the loop with its seen set and order check computes the reconciliation |
| GatewaySession.Store.WithdrawAll | internal/gateway/node.go:353-364 | all pending requests are withdrawn or the transaction fails |
| GatewaySession.Store.MayStart | internal/gateway/node.go:268-295 | whichever row the reservation query yields, the verdict on a new turn is the same |
| GatewaySession.Store.SessionUpdate | internal/gateway/node.go:258-369 | the snapshot handler keeps the invariant and leaves exactly the specified rows, or none changed |
| GatewaySession.Store.RequestCreate | internal/gateway/node.go:458-502 | creation or repetition of a request, or refusal without a change |
| GatewaySession.Store.RequestCancel | internal/gateway/node.go:503-527 | withdrawing one request; a decision in flight is left alone |
| GatewaySession.Store.Admit | internal/gateway/commands.go:32-303 | a command for the session is admitted exactly if its gates hold, reserving its turn and taking over the request it answers |
| GatewaySession.Store.Confirm | internal/gateway/node.go:648-720 | the queue, request or turn updates of a confirmation, or nothing at all |
| GatewaySession.Store.Reject | internal/gateway/commands.go:397-453 | what a rejection gives back: a failed first turn, or the request to be answered again |
| PayloadGc.SameMirror | internal/gateway/maintenance.go:212 | reconciliation gives the same result with and without the payloads clearing may remove |
| PayloadGc.ClearableIsUseless | internal/gateway/maintenance.go:212 | every payload the clearing removes, except that of a live orphan, is one no later transaction reads |
| PayloadGc.StepInStep | internal/gateway/node.go:272-277 | the machine with clearing accepts and does what the machine without it does, for every transaction |
| PayloadGc.SparingRefines | internal/gateway/maintenance.go:212 | over every run that clears no live orphan's payload exactly the same transactions are accepted and the tables differ only in useless payloads |
| PayloadGc.ConfirmEnqueues | internal/gateway/node.go:649-677 | a confirmed enqueue has its row unless its receipt names an item listed for another operation |
| PayloadGc.ClearingRefines | internal/gateway/maintenance.go:212 | over every run with honest receipts clearing is such a refinement |
| PayloadNotice.NoticedExactly | internal/gateway/maintenance.go:212 | no continuation is accepted differently once a payload is cleared, if and only if it is not a live orphan's: with further clearing on both sides, and against the machine that never clears |
| SessionWitnesses.DishonestReceipt | internal/gateway/node.go:659-676 | a run from a new session that is accepted differently with and without clearing |
| PayloadGc.StuckRefuses | internal/gateway/node.go:388-413 | a stuck item makes every report of the queue fail |
| StuckQueue.StuckStep | internal/gateway/commands.go:386-396 | exactly the failure of an open enqueue with an unconsumed item makes a queue stuck |
| StuckQueue.StuckForGood | internal/gateway/node.go:388-413 | from then on no report is accepted after any run |
| SessionWitnesses.StuckReached | internal/gateway/node.go:388-413 | a run from a new session that ends with a stuck queue |
| Coupling.OneMove | internal/gateway/store.go:130-141 | every step of the protocol changes the state of at most one operation, out of an open state, and confirms only by an acknowledgement whose row updates succeed |
| Coupling.MoveMatched | internal/gateway/node.go:648-720 | the session transaction that shares such a step finds its guard met, or is a confirmation whose row updates fail; afterwards both have the same operations |
| Coupling.TogetherRuns | internal/gateway/node.go:546-720 | every run of both is a run of each with agreeing operations, and with honest lists no queue ever gets stuck |
| History.Truncate | internal/gateway/history.go:241-247 | a prefix of the text within the limit, flagged exactly if something was cut |
| HistoryTheorems.RunOk | internal/gateway/history.go:219-240 | in every reachable state the log holds exactly earliest to last, and the timeline is the fold of the log |
| HistoryTheorems.MessageShows | internal/gateway/history.go:248-275 | a message item shows its last completed text, or else the first 48000 characters of all its deltas, truncated exactly if there are more |
| HistoryTheorems.LateDelta | internal/gateway/history.go:259-261 | a delta after completion changes nothing |
| HistoryTheorems.ProjectedBody | internal/gateway/history.go:248-317 | an event changes the body of its own item only |
| Timeline.ItemShows | internal/gateway/history.go:248-317 | the row of every item after every log, read off the events that touch it: body, first and last sequence |
| Timeline.LastUpsertShows | internal/gateway/history.go:267-315 | an item shows its last upsert or request until it is touched again |
| Timeline.AppendExactly | internal/gateway/history.go:219-240 | exactly which events are refused, and what an accepted one stores |
| Timeline.CheckpointExactly | internal/gateway/history.go:132-163 | exactly when a checkpoint is taken, and that it holds the whole timeline |
| HistoryTheorems.FirstAppearance | internal/gateway/history.go:155 | the timeline lists every touched item once, in order of first appearance |
| HistoryTheorems.CheckpointReplays | internal/gateway/history.go:132-163 | a checkpoint plus the later events gives the current timeline |
| Paging.ReadEvents | internal/gateway/history.go:55-80 | the page is the longest stretch within limit and size, a refusal exactly if a hole comes first |
| Paging.PageUnique | internal/gateway/history.go:55-80 | that description determines the page |
| Paging.ReadChanges | internal/gateway/history.go:115-131 | all selected changes, or a refusal exactly if one is missing |
| Paging.CheckpointItems | internal/gateway/history.go:194-217 | the items of a page, where the next one starts, and whether there is one |
| Paging.DensePage | internal/gateway/history.go:10-80 | on a log without holes a page never fails and is not empty while there is more |
| Paging.PagesAddUp | internal/gateway/history.go:10-80 | pages with any limits and sizes, from a growing log, add up to the whole stretch, once and in order, in finitely many requests |
| Paging.ItemsArePage | internal/gateway/history.go:164-217 | checkpoint pages add up the same way and announce a next page exactly while there is one |
| Feed.Peer.Enqueue | internal/gateway/realtime.go:50-81 | a frame enters the queue exactly if it fits the byte and slot limits, else the connection ends |
| Feed.Peer.WriteOne | internal/gateway/realtime.go:82-92 | frames leave in the order they entered |
| Feed.Peer.Watch | internal/gateway/realtime.go:312-355 | all sessions are watched from their high-water marks, or none |
| Feed.Peer.PumpSession | internal/gateway/realtime.go:389-411 | the next stretch of the log is sent and the position moved by as much, or the watch ends |
| Feed.Peer.Pump | internal/gateway/realtime.go:359-413 | after every pump each watched session was sent exactly its log since the watch began |
| Feed.Peer.Serve | internal/gateway/realtime.go:359-413 | over any number of pumps, writes and growth of the logs every session still watched was sent exactly its log since the watch began, and a watch ends only when its next event is no longer stored |
| Feed.Peer.CatchUpThenLive | internal/gateway/realtime.go:312-411 | the pages fetched up to where the watch began, followed by what the pump has pushed since, are all events after the cursor, no gap, no repeat |
| HistoryFeed.LogsGrow | internal/gateway/history.go:219-240 | the log the readers see is the session's own: dense, and only growing until a purge |
| Transcript.ExportHistory | internal/gateway/history_actions.go:177-210 | the longest prefix of messages within the limits, marked truncated exactly if something is missing |
| Transcript.RoundTrip | internal/gateway/history_actions.go:113-166 | importing a portable transcript through log and projection and exporting it gives it back, not truncated |
| Transcript.FixedPoint | internal/gateway/history_actions.go:177-210 | a second round trip changes nothing, whatever was exported first |
| Readiness.Record | internal/gateway/node.go:57-117 | a complete directory is stored exactly if its ids are distinct, its own and no capability revision goes back or is reused; then of the Node's entries only reported ones are usable and other Nodes' are untouched |
| Readiness.NotBackExactly | internal/gateway/node.go:86-91 | the revision grows, or the set is the same |
| Readiness.NeverBackOn | internal/gateway/node.go:86-95 | over successive directories a capability revision never goes back and one revision means one set of capabilities |
| Readiness.Peer.Inventory | internal/gateway/node.go:35-124 | parts of one directory add up, another id starts over, and only a complete one changes the tables of projects and Agents, both or neither |
| Readiness.Peer.Snapshot | internal/gateway/node.go:230-233 | an acknowledged snapshot, also a repeated one, releases exactly its session |
| Readiness.Peer.ReleaseUnstarted | internal/gateway/node.go:531-544 | of the fenced sessions only one that never started is released without a snapshot |
| Lineage.OneLevel | internal/gateway/commands.go:251-262 | a session has one place in the tree below another |
| Lineage.Descendants | internal/gateway/history_actions.go:58-67 | the search ends and finds exactly the sessions below the root, generation by generation |
| Lineage.Library.Create | internal/gateway/commands.go:73-98 | creation under an existing, unpurged parent keeps the forest |
| Lineage.Library.Retire | internal/gateway/maintenance.go:193-211 | only purged leaves without open operations, ended before the limit, are removed, so no parent dangles |
| Lineage.Library.DeleteHistory | internal/gateway/history_actions.go:58-112 | the whole tree is purged or nothing, and only for the root's current revision and if every member is closed with no open operation and there are at most 100 |
| Lineage.DeletedWhole | internal/gateway/history_actions.go:85-112 | afterwards no session of the tree keeps content, and deleting again changes nothing |
| RateLimit.Limiter.Allow | internal/gateway/server.go:309-328 | the handler with its eviction loop computes the specified table and verdict |
| RateLimit.TableBounded | internal/gateway/server.go:315-324 | the table never exceeds 10000 keys |
| RateLimit.WithinMinute | internal/gateway/server.go:309-328 | within its minute a key is allowed exactly until its limit is used up |
| RateLimit.NewMinute | internal/gateway/server.go:309-328 | a new or expired key begins a minute and is allowed, unless the table is full of live ones |
| RateLimit.AtMost | internal/gateway/server.go:309-328 | in any interval of W one key is allowed at most its limit times (W in whole minutes, plus two) |
| StrictJson.Decoder.ReadValue | internal/protocol/protocol.go:85-133 | the recursive reader consumes exactly one value of the stream or fails |
| StrictJson.DecodeTokens | internal/protocol/protocol.go:73-84 | one value and nothing after it |
| StrictJson.DecodesPrinted | internal/protocol/protocol.go:73-133 | reading inverts printing for exactly the documents within the depth limit and without repeated names |
| StrictJson.DecodesExactly | internal/protocol/protocol.go:73-133 | a stream is accepted if and only if it is one such document |
| Questions.ValidateQuestions | internal/gateway/node.go:426-457 | accepts exactly the well-posed requests |
| Questions.ValidateDecision | internal/gateway/commands.go:305-372 | accepts exactly the decisions that answer question by question and nothing else |
| Questions.Answerable | internal/gateway/node.go:426-457 | every request within the schema's bounds that is well posed has an accepted decision |
| Questions.RepeatedId | internal/gateway/node.go:427-445 | without the check for repeated ids some requests would have none |
| Subscriptions.Service.RecordConsent | internal/gateway/subscriptions.go:105-162 | all choices of a consent or none |
| Subscriptions.Service.Queue | internal/gateway/subscriptions.go:191-237 | one credit for each row of each template of the kind |
| Subscriptions.Service.Deliver | internal/gateway/subscriptions.go:309-379 | the row is reserved before the call and settled after it, code 43101 clears the credits, and a final update that fails leaves the row as being sent |
| Subscriptions.ConsentWrites | internal/gateway/subscriptions.go:105-162 | the consent every choice leaves: one more credit up to 100, or none |
| Subscriptions.ConsentOutbox | internal/gateway/subscriptions.go:105-162 | exactly the waiting rows of declined templates fail |
| Subscriptions.QueueWrites | internal/gateway/subscriptions.go:191-237 | exactly the due templates get one pending row for one credit |
| Subscriptions.Conserved | internal/gateway/subscriptions.go:105-162 | over every run credits plus rows never exceed accepted consents, credits stay within 100, and no row is posted twice |
| Subscriptions.NeverBack | internal/gateway/subscriptions.go:289-308 | a row being sent is never pending again and a settled row never changes |

## Left out

- HTTP routing, sockets, TLS, authentication, logging and configuration: plumbing around the modelled handlers.
- SQL text, indexes and isolation levels: a transaction is one atomic update of maps.
- JSON Schema validation: its bounds appear as preconditions or as the verdict parameter of a step.
- Hashes, signatures, encryption and random ids: injective digests and fresh ids.
- Heartbeats and deadlines of connections: whether a Node counts as online is a parameter of each protocol step, so those theorems hold whatever it is.
- Several Nodes, users or Gateways at once: their rows are disjoint and one lease admits one Gateway.
- What the Fake Node's turns say and when they ask questions: its sessions enter the command steps as a parameter.
- The change stream of the live push: its reader is `Paging.ReadChanges`, its loop is the simpler sibling of the one for events.
- Deleting old outbox rows of subscriptions together with notifications: it can only lower the number of rows.
- Idempotency keys: a repeated request is answered from the stored operation and changes no table.
- Resource lists, cursor signing, workspace views, pairing, shares and profiles: mostly single guarded updates.
- Deletion of settled operation rows after the metadata retention: an id admitted again once its row is gone is not covered.
- A dial that the Gateway accepts late, after a newer one: a connection step always gives the Node the newest epoch.
- GatewaySession.Store.RequestCreate: does not include the check of the questions, which is `Questions.ValidateQuestions`, nor the capability flag of the request's kind.
- GatewaySession.Store.Admit: does not include the capability flag and revision of the session, the checks of a decision, which are `Questions.ValidateDecision`, nor the revision of the request.
- GatewayOperations.Operations.Admit: takes a registered connection for an online and ready Node, and leaves the gates of each kind to `GatewaySession.Store.Admit`.
- GatewayOperations.Operations.FailUnsent: does not include the session's own rows, which are `GatewaySession.Store.Reject`; `Coupling.MoveMatched` joins the two.
- GatewayOperations.Operations.Acknowledge: takes the success of the row updates as a parameter, which `Coupling.Possible` ties to `GatewaySession.Store.Confirm`, and leaves releasing the fence to `Readiness.Peer.ReleaseUnstarted`.
- FakeNode.Node.Load: does not include the sessions, and the spool is reloaded in `IngestWorld`.
- FakeNode.Node.Command: does not include the events a finished command emits; those go through `FakeNode.Spool.Emit`.
- GatewayIngest.Inbox.Source: takes the verdict of the event's own handler and the number of events it appends as parameters.
- SessionMirror.MirrorExact: does not include an item id that belongs to another session's row, which the handler refuses.
- Feed.Peer.Enqueue: does not include the schema check of an outgoing frame; one that fails it ends the connection as an oversized one does.
- Feed.Peer.Watch: does not include the change cursor, the ownership of the sessions, nor the ready frame.
- Feed.Peer.PumpSession: does not include the ownership of the session, whose loss ends the connection.
- Feed.Peer.Pump: does not include the change stream.
- Lineage.Library.Create: does not include the project and Agent comparisons of the parent, which only refuse more.
- Subscriptions.Service.Deliver: takes whether the query finds the row (access, history, token) as a parameter, and the row it finds as given.
