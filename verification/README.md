# OrbitRelay kernel: a verified model

OrbitRelay is an event-sourced collaboration kernel: clients send actions over a WebSocket,
a runtime turns them into events under a per-aggregate lease, a store keeps the events, a bus
fans them out, and connections carry acknowledgements, query responses and event streams back.
This project models the parts of it whose correctness spans several functions or tasks, and
proves what they promise for every input, every history and every interleaving.

| File | What it models |
|---|---|
| `Prelude.dfy`, `ProtocolEvents.dfy` | optional values, results, `u64` arithmetic, identifiers; the protocol event and its Canvas payloads |
| `StrokeProjection.dfy` | the Stroke event side: the projector and the language of legal histories |
| `StrokeCommands.dfy` | the Stroke command side: what the command service emits, repeats or refuses |
| `StrokeRuntime.dfy` | `Runtime::execute`, alone (a class) and by any number of concurrent callers (a step machine) |
| `EventTokens.dfy`, `EventStore.dfy` | cursor and checkpoint tokens; the append-only store and paged replay |
| `EventBus.dfy`, `EventBusRuns.dfy` | bounded per-subscriber queues with lag accounting; the whole bus with filters and concurrent publishers |
| `PageTree.dfy` | the PDF page-tree walk, sections 7.7.3 and 7.7.3.4 of ISO 32000-1 |
| `AssetRead.dfy` | ranged asset reads and `read_asset_fully` |
| `Writer.dfy`, `Connection.dfy` | the writer task; the connection lifecycle object |
| `Coordinator.dfy` | one WebSocket connection: coordinator, action worker, query worker, pumps, writer queue, as one step machine |
| `CoordinatorAnswers.dfy` | what that machine says to what: every queued command, every message taken or refused, and the source of every identity, version and job |
| `ConnectionLifecycle.dfy`, `SubscriptionOrder.dfy`, `ActionReplies.dfy`, `QueryConservation.dfy` | what every run of that machine keeps |
| `FramesWritten.dfy` | the writer composed with that machine: what is kept on the wire |

Three proof shapes recur. *Reference definitions*: `IsStory` describes legal Stroke histories
without the projector, `IsPageTree` page trees without the walk, `Matching` a replay without
pages, `SerialLog` a serial execution without interleaving; the main lemmas tie the code to
them in both directions. *Step machines*: atomic steps of several tasks with an `Enabled` and a
`Next`; a run is any sequence of enabled steps, and environment answers (dispatch outcome, port
answers, cancellation, source errors) are part of the step. *Abstract steps*: each claim about
the coordinator first shows that every step is one of a few changes (`LifecycleStep`, `SubStep`,
`ActionStep`, `QueryStep`) and then that those changes keep the invariant.

Conventions. `usize` is 64 bits wide, as on the targets the code is built for. Coordinates are
reals. The state reader is the fold of the persisted log for one session, canvas and Stroke
(crates/orbitrelay-canvas-runtime/src/state.rs:9-13), and leases of equal scope exclude each
other (crates/orbitrelay-runtime/src/coordination.rs:60-63); both are those ports' documented
contracts. A dispatch may fail with or without having persisted.

Two promises do not hold of the code as stated. Each has a concrete run and the exact
condition under which the code does keep it:

- *Everything received before the first lag report is gap-free.* A publisher's failed send and
  its lag increment are two operations (crates/orbitrelay-sync/src/memory.rs:97-107). A
  `next_event` call between them can pass over the gap unreported (`UncountedDropHidesGap`).
  The promise holds whenever no call starts in a state whose only drops are uncounted
  (`GapFreeUntilReport`), and from every state where one does it can be broken
  (`UnseenDropCanHideGap`). Publishers that send and count as one step always meet the
  condition (`AtomicOffersAreSeen`).
- *Two consecutive completed `next_event` calls never both report lag.* A call dropped while
  it waits has already cleared the flag (crates/orbitrelay-sync/src/memory.rs:195), so the
  completed calls around it can both report (`AbandonedCallAllowsTwoReports`). After a report,
  the next call reports again exactly when something was missed and a call was abandoned in
  between (`ReportsAgainExactlyAfterAbandonedCall`); calls that are not abandoned never report
  twice in a row (`NoTwoReportsInARow`).

Check everything with `dafny verify dfyconfig.toml`.

## Model

| member | source | states |
|---|---|---|
| `ProtocolEvents.TypeNamesTellKindsApart` | crates/orbitrelay-canvas/src/event.rs:11-19 | each Canvas event kind has its own stable type name |
| `StrokeProjection.Apply` | crates/orbitrelay-canvas/src/projection.rs:122-238 | a projection the projector returns is never empty of chunks, so the `expect` in `last_chunk_index` cannot fail |
| `StrokeProjection.ApplyTerminal` | crates/orbitrelay-canvas/src/projection.rs:293-314 | the same for completion and cancellation |
| `StrokeProjection.Replay` | crates/orbitrelay-canvas/src/projection.rs:154-238 | a replayed history yields a projection exactly when it is not empty, and one that still has chunks |
| `StrokeProjection.StoryReplays` | crates/orbitrelay-canvas/src/projection.rs:158-314 | a Began, appends 1..k, and an ending of one aggregate replay without error to the projection the story tells: chunk i at position i, identity, creator, style and time from Began, lifecycle from the ending |
| `StrokeProjection.ReplayedIsStory` | crates/orbitrelay-canvas/src/projection.rs:158-314 | every history that replays without error is such a story |
| `StrokeProjection.ReplayAcceptsExactlyStories` | crates/orbitrelay-canvas/src/projection.rs:158-314 | the projector accepts a history if and only if it is empty or a story, and the story fixes the projection |
| `StrokeProjection.RefusedFirst` | crates/orbitrelay-canvas/src/projection.rs:158-250 | why an event cannot start a history, event kind by event kind |
| `StrokeProjection.RefusedForItsReason` | crates/orbitrelay-canvas/src/projection.rs:158-314 | after any story an event is accepted exactly when it continues it, and otherwise refused with the first reason that applies, naming expected and actual |
| `StrokeProjection.PrefixReplays` | crates/orbitrelay-canvas/src/projection.rs:158-238 | every prefix of an accepted history is accepted |
| `StrokeProjection.AcceptedEventExtends` | crates/orbitrelay-canvas/src/projection.rs:158-314 | one more accepted event freezes identity, style and earlier chunks and moves the lifecycle only as allowed |
| `StrokeProjection.AcceptedHistoryExtends` | crates/orbitrelay-canvas/src/projection.rs:158-314 | the same over any number of further events; a closed Stroke never gains a chunk |
| `StrokeProjection.LifecyclePathIsAllowed` | crates/orbitrelay-canvas/src/lifecycle.rs:25-32 | every step along an accepted history stands still or is a transition `can_transition_to` allows |
| `StrokeProjection.TransitionsAreTaken` | crates/orbitrelay-canvas/src/lifecycle.rs:25-32 | the allowed transitions are exactly those some accepted event takes |
| `StrokeProjection.ReachesIsClosure` | crates/orbitrelay-canvas/src/lifecycle.rs:25-32 | the reachability used for whole histories is exactly the closure of `can_transition_to` |
| `StrokeCommands.AgreesOnProjection` | crates/orbitrelay-canvas-runtime/src/service.rs:35-224 | against one projection of its aggregate, a checked command emits its draft exactly when the projector would accept that event |
| `StrokeCommands.EmitsExactlyWhatProjects` | crates/orbitrelay-canvas-runtime/src/service.rs:35-224 | the same after every legal history, including the empty one |
| `StrokeCommands.PointsCheckedExactly` | crates/orbitrelay-canvas/src/geometry.rs:102-110 | the point check passes exactly when every point lies in the closed canvas rectangle, and otherwise names the coordinate of the first that does not |
| `StrokeCommands.EmitsOnlyAfterChecks` | crates/orbitrelay-canvas-runtime/src/service.rs:226-342 | whatever the ports answer, an emitted draft passed the catalog, layer, bounds and payload checks |
| `StrokeCommands.EmittedPointsInCanvas` | crates/orbitrelay-canvas-runtime/src/service.rs:319-327 | every x of an emitted `begin` or `append` is between 0 and the width and every y between 0 and the height; an emitted `begin` names a known layer |
| `StrokeCommands.EmittedDraftApplies` | crates/orbitrelay-canvas-runtime/src/service.rs:35-224 | whatever the ports answer, an emitted draft is the command's own and extends the history to a legal one |
| `StrokeCommands.AppendNeverFindsCorruption` | crates/orbitrelay-canvas-runtime/src/service.rs:90-111 | on every legal history the corrupted-chunk and index-overflow branches of `append` are unreachable |
| `StrokeCommands.DraftIsOwnEvent` | crates/orbitrelay-canvas-runtime/src/service.rs:363-377 | each command drafts the event of its own kind with its own payload, canvas and Stroke |
| `StrokeCommands.CanvasComesFirst` | crates/orbitrelay-canvas-runtime/src/service.rs:226-247 | a failed catalog, an unknown canvas and a canvas of another session each stop every command with their own error |
| `StrokeCommands.UnusableState` | crates/orbitrelay-canvas-runtime/src/service.rs:249-317 | an unreadable or corrupted state, or a projection of another aggregate, is reported as such, naming what was asked for and found |
| `StrokeCommands.MisnumberedChunkIsCorruption` | crates/orbitrelay-canvas-runtime/src/service.rs:90-98 | a loaded projection without the chunk an `append` repeats, or with another number on it, is reported corrupted |
| `StrokeCommands.AnswerWithoutHistory` | crates/orbitrelay-canvas-runtime/src/service.rs:35-71 | a `begin` of a new Stroke in a known layer within bounds is emitted; every other command finds no Stroke |
| `StrokeCommands.AnswerToBegin` | crates/orbitrelay-canvas-runtime/src/service.rs:47-62 | after any history, `begin` answers nothing if it is that history's own Began by the same actor and is refused otherwise |
| `StrokeCommands.AnswerToAppend` | crates/orbitrelay-canvas-runtime/src/service.rs:73-129 | after any history of k appends: repeat, conflict, gap, too late, out of bounds, or emitted, each under exactly its condition |
| `StrokeCommands.AnswerToEnding` | crates/orbitrelay-canvas-runtime/src/service.rs:131-197 | the same for `end` and `cancel`: wrong state, wrong final index, emitted on an open Stroke, nothing on one they closed |
| `StrokeCommands.AnswerToRemove` | crates/orbitrelay-canvas-runtime/src/service.rs:199-224 | the same for `remove`: emitted once, on a completed Stroke only |
| `StrokeCommands.RetryEmitsNothing` | crates/orbitrelay-canvas-runtime/src/service.rs:47-217 | a command whose event is anywhere in the history emits nothing when resubmitted; only a `begin` by another actor is refused instead |
| `StrokeCommands.NothingEmittedOnlyOnRetry` | crates/orbitrelay-canvas-runtime/src/service.rs:47-217 | a valid command emits nothing only if the history already holds an event of the same kind with an equal payload |
| `StrokeRuntime.RestrictKeepsExactly` | crates/orbitrelay-canvas-runtime/src/state.rs:9-22 | the state reader folds every event of the asked session, canvas and Stroke, once each, in log order, and nothing else |
| `StrokeRuntime.ReaderTellsStory` | crates/orbitrelay-canvas-runtime/src/state.rs:9-22 | on a legal log it answers nothing for an unknown aggregate and otherwise the projection its events tell |
| `StrokeRuntime.ReaderNamesCorruption` | crates/orbitrelay-canvas-runtime/src/state.rs:9-22 | on any log, events that form no story are reported as corrupted, with the projector's reason for the first it refuses |
| `StrokeRuntime.EffectKeepsLegal` | crates/orbitrelay-runtime/src/runtime.rs:56-119 | one execution alone keeps every aggregate's history legal |
| `StrokeRuntime.EffectReadsOneStroke` | crates/orbitrelay-canvas-runtime/src/handlers.rs:47-65 | a handler's answer depends only on events of the Stroke its lease covers |
| `StrokeRuntime.HandledEventIsOwn` | crates/orbitrelay-runtime/src/runtime.rs:84-107 | a handled action yields nothing or one event: its own draft, session, actor and action id, with the event id and time drawn for it |
| `StrokeRuntime.Runtime.Execute` | crates/orbitrelay-runtime/src/runtime.rs:32-120 | which of the failures occurs, in order: no handler, invalid, unauthorized, no coordinator, refused lease, handler, pipeline (a rejected scope never does); returned events carry the action's own ids and the drawn stamp; every path gives the lease back; the log grows only by a persisting dispatch and stays legal |
| `StrokeRuntime.AloneIsExecute` | crates/orbitrelay-runtime/src/runtime.rs:32-120 | the interleaving machine's steps, taken alone, come to the outcome, log and leases of `execute` |
| `StrokeRuntime.SerialLogLatePersist` | crates/orbitrelay-runtime/src/runtime.rs:56-119 | a dispatch that persists after leases on other Strokes were granted still lands at the end of its own Stroke's serial history |
| `StrokeRuntime.OnlyHolderWrites` | crates/orbitrelay-runtime/src/runtime.rs:73-119 | only a persisting dispatch by a Stroke's lease holder changes what that Stroke shows |
| `StrokeRuntime.StepKeepsInv` | crates/orbitrelay-runtime/src/runtime.rs:56-119 | every step keeps legality, lease exclusion, lease order, the validity of handled answers and agreement with the serial log |
| `StrokeRuntime.HistoriesStayLegal` | crates/orbitrelay-runtime/src/runtime.rs:56-119 | in every interleaving, with dispatches failing with or without having persisted, each aggregate's persisted events are a history the projector accepts |
| `StrokeRuntime.EquivalentToLeaseOrder` | crates/orbitrelay-runtime/src/runtime.rs:56-119 | in every interleaving each aggregate's log equals the one left by running lease holders one at a time in lease order |
| `StrokeRuntime.NoEventPersistedTwice` | crates/orbitrelay-runtime/src/runtime.rs:56-119 | in every interleaving, however often a command is submitted, no aggregate persists two events of the same kind and payload |
| `StrokeRuntime.EveryEventHasItsExecution` | crates/orbitrelay-runtime/src/runtime.rs:92-115 | in every interleaving each persisted Canvas event is the draft of an execution that persisted, with its session, actor, action id, event id and time |
| `StrokeRuntime.EventIdsDiffer` | crates/orbitrelay-runtime/src/runtime.rs:92-107 | if the executions of a run drew different event ids, no two of its Canvas events share one |
| `StrokeRuntime.OutcomesTellTheTruth` | crates/orbitrelay-runtime/src/runtime.rs:32-120 | in every interleaving a successful outcome's events are in the log, and a failure before dispatch persisted nothing |
| `StrokeRuntime.OneHolderPerStroke` | crates/orbitrelay-runtime/src/runtime.rs:56-119 | two executions between acquiring and dropping the lease of one Stroke are the same execution |
| `EventTokens.EncodeMemoryToken` | crates/orbitrelay-storage/src/record.rs:161-169 | filling the byte array in place gives version, kind, store and big-endian position |
| `EventTokens.EncodeStorageToken` | crates/orbitrelay-storage/src/record.rs:187-200 | the same with the continuation epoch |
| `EventTokens.MemoryTokenDecodesExactly` | crates/orbitrelay-storage/src/record.rs:161-185 | decoding answers a position if and only if the token is that position's own, for every `u64` |
| `EventTokens.StorageTokenDecodesExactly` | crates/orbitrelay-storage/src/record.rs:187-219 | the same for storage tokens |
| `EventTokens.FirstByteWeighsMost` | crates/orbitrelay-storage/src/record.rs:167-184 | positions are in network byte order |
| `EventTokens.MemoryTokenLayout` | crates/orbitrelay-storage/src/record.rs:151-169 | 26 bytes: version 1, kind 1 or 2, store, position |
| `EventTokens.StorageTokenLayout` | crates/orbitrelay-storage/src/record.rs:187-200 | 42 bytes: version 1, kind 1 or 2, store, epoch, position |
| `EventTokens.DecodedFitsU64` | crates/orbitrelay-storage/src/record.rs:171-219 | whatever decodes is a `u64` |
| `EventTokens.ForeignTokensDecodeToNothing` | crates/orbitrelay-storage/src/record.rs:151-219 | a token decodes under exactly its own kind, store, epoch and layout |
| `EventStore.MemoryEventStore.constructor` | crates/orbitrelay-storage/src/memory.rs:22-43 | a new store is empty and its index agrees with the log |
| `EventStore.MemoryEventStore.Get` | crates/orbitrelay-storage/src/memory.rs:93-99 | the index lookup equals a linear scan of the log |
| `EventStore.MemoryEventStore.Append` | crates/orbitrelay-storage/src/memory.rs:68-91 | a new id adds one record with the next cursor; an identical repeat answers the original; a conflict changes nothing; stored records never change |
| `EventStore.MemoryEventStore.PushKeepsIndex` | crates/orbitrelay-storage/src/memory.rs:83-91 | the push keeps ids unique, cursors in step with positions and the index in step with the log |
| `EventStore.MemoryEventStore.ScanMatches` | crates/orbitrelay-storage/src/memory.rs:118-128 | one pass over the log that stops one match past the limit finds exactly the first `limit + 1` records of the filtered window |
| `EventStore.MemoryEventStore.QueryPage` | crates/orbitrelay-storage/src/memory.rs:101-137 | the scanning method, with its early exits, refines the filter-the-window query the replay lemmas are about; every returned event has the asked session, actor, type and time |
| `EventStore.PageMeetsFilters` | crates/orbitrelay-storage/src/query.rs:194-211 | every event of a page has the asked session and actor, a listed type unless none is listed, and a time from the start to before the end |
| `EventStore.PageMissesNothing` | crates/orbitrelay-storage/src/memory.rs:118-134 | every record after the cursor that meets those conditions is on the page, up to its next cursor if it has one, else up to the bound |
| `EventStore.MalformedExactly` | crates/orbitrelay-storage/src/query.rs:146-172 | a query is malformed exactly by a limit outside 1..1000, a blank type, or times out of order |
| `EventStore.AnsweredExactly` | crates/orbitrelay-storage/src/record.rs:57-144 | a well-formed query is answered exactly when cursor and checkpoint are the store's own, in range and in order; else the one at fault is named |
| `EventStore.MemoryEventStore.CaptureCheckpoint` | crates/orbitrelay-storage/src/memory.rs:60-66 | the token freezes exactly the records appended so far |
| `EventStore.PageSeesRest` | crates/orbitrelay-storage/src/memory.rs:101-137 | a page is the first matches after the cursor and has a next cursor exactly when more remain |
| `EventStore.CheckpointedReplay` | crates/orbitrelay-storage/src/memory.rs:60-137 | with any limits in range and any appends between pages, replay never errors, always holds a prefix of the frozen prefix's matches, is done exactly when it holds all of them, and needs at most one page per match |
| `EventStore.UnboundedReplay` | crates/orbitrelay-storage/src/memory.rs:101-137 | without a checkpoint it ends with every match of the log as the last page saw it |
| `EventBus.EveryPublishAccounted` | crates/orbitrelay-sync/src/memory.rs:87-197 | in every run, matching publishes = received + queued + reported + lag + uncounted drops; received then queued is a subsequence in send order; the queue stays within capacity |
| `EventBus.CallsTellEverything` | crates/orbitrelay-sync/src/memory.rs:177-197 | in every run the calls returned exactly the events received, in order, and their reported misses add up |
| `EventBus.DropsOnlyWhenFull` | crates/orbitrelay-sync/src/memory.rs:97-107 | an event is dropped exactly when the queue is full, and counting adds one up to the largest `u64` |
| `EventBus.GapFreeUntilReport` | crates/orbitrelay-sync/src/memory.rs:97-107 | before the first lag report, what was received is a gap-free prefix of the publishes if every call sees the drops |
| `EventBus.AtomicOffersAreSeen` | crates/orbitrelay-sync/src/memory.rs:97-107 | every call does when a failed send and its count are one step |
| `EventBus.UnseenDropCanHideGap` | crates/orbitrelay-sync/src/memory.rs:97-107 | from every reachable state in which a call would not see the drops, a continuation delivers past a gap unreported |
| `EventBus.UncountedDropHidesGap` | crates/orbitrelay-sync/src/memory.rs:97-107 | a concrete run in which a gap goes unreported |
| `EventBus.NoTwoReportsInARow` | crates/orbitrelay-sync/src/memory.rs:184-196 | in every run, two calls in a row never both report lag |
| `EventBus.ConsecutiveReportsNeedAbandonedCall` | crates/orbitrelay-sync/src/memory.rs:184-196 | two completed calls both report lag only with an abandoned call between them |
| `EventBus.ReportsAgainExactlyAfterAbandonedCall` | crates/orbitrelay-sync/src/memory.rs:184-196 | after a report, the next call reports again if and only if there is lag and a call was abandoned since |
| `EventBus.AbandonedCallAllowsTwoReports` | crates/orbitrelay-sync/src/memory.rs:184-196 | a concrete run in which it does |
| `EventBus.MemoryEventBus.Subscribe` | crates/orbitrelay-sync/src/memory.rs:121-145 | a valid filter gets a fresh open channel; an invalid one changes nothing |
| `EventBus.MemoryEventBus.VisitOne` | crates/orbitrelay-sync/src/memory.rs:92-109 | a failed send followed by its count offers the event once; a closed channel is noted; a filter that does not match is skipped |
| `EventBus.MemoryEventBus.Publish` | crates/orbitrelay-sync/src/memory.rs:87-119 | exactly the registered open subscriptions whose session, actor and types admit the event are offered it, once; closed matching ones leave the registry, nobody else notices, and every channel stays accounted for |
| `EventBus.MemoryEventBus.NextEvent` | crates/orbitrelay-sync/src/memory.rs:177-197 | a closed subscription refuses; pending lag is reported once and reset; else the oldest queued event is returned, or the call waits; all channels stay accounted for |
| `EventBus.MemoryEventBus.Close` | crates/orbitrelay-sync/src/memory.rs:199-207 | the channel refuses further sends and leaves the registry |
| `EventBusRuns.EveryChannelIsARun` | crates/orbitrelay-sync/src/memory.rs:87-207 | with any number of concurrent publishers and consumers, each channel is always in a state of the single-subscription machine, so the results above hold of it |
| `EventBusRuns.BusConserves` | crates/orbitrelay-sync/src/memory.rs:87-207 | in every interleaving, for each open subscription: the matching publishes begun since it subscribed that have visited it are what its queue was offered, each once, in the order they reached it; and they number received + queued + reported + lag + drops still to be counted |
| `EventBusRuns.RemovedAreNotVisited` | crates/orbitrelay-sync/src/memory.rs:41-43 | a subscription that detached or was removed as closed is visited by no publish begun later |
| `PageTree.PageTreeWalker.Visit` | crates/orbitrelay-pdf/src/parser.rs:100-166 | the in-place visit computes the walk; a successful visit restores `active`, whose check never decides anything beyond `seen` |
| `PageTree.PageTreeWalker.VisitBody` | crates/orbitrelay-pdf/src/parser.rs:115-166 | the same for the part between entering and leaving a node |
| `PageTree.FittingTreeIsWalked` | crates/orbitrelay-pdf/src/parser.rs:100-189 | a tree that fits the limits is collected: leaves in pre-order, attributes in force along each path |
| `PageTree.WalkedTreeFits` | crates/orbitrelay-pdf/src/parser.rs:100-166 | whatever the walk collects is a tree that fits |
| `PageTree.InForceBelow` | crates/orbitrelay-pdf/src/parser.rs:185-189 | `inherit` on the way down is nearest-self-or-ancestor lookup |
| `PageTree.CollectPages` | crates/orbitrelay-pdf/src/parser.rs:70-97 | the method computes the collection the main lemma is about |
| `PageTree.CollectsExactlyPageTrees` | crates/orbitrelay-pdf/src/parser.rs:70-189 | on every reference graph: success if and only if it unfolds to a well-typed tree with distinct ids, depth at most 256 and at most `max_pages` leaves; the result is its leaves in pre-order with nearest attributes, and is never empty |
| `PageTree.PagesKeyByKey` | crates/orbitrelay-pdf/src/parser.rs:168-189 | page i's media box, crop box and rotation are each the dereferenced value of that key at the nearest self-or-ancestor of leaf i defining it, else absent |
| `PageTree.NearestIsLast` | crates/orbitrelay-pdf/src/parser.rs:185-189 | the nearest definition of a key is that key's own entry in the last node of the path that has one |
| `PageTree.TooManyPagesIsTheReason` | crates/orbitrelay-pdf/src/parser.rs:129-138 | a page tree with more leaves than `max_pages` is refused for exactly that, naming the limit |
| `AssetRead.NewRange` | crates/orbitrelay-asset-runtime/src/range.rs:16-26 | a range exists exactly when non-empty and its end fits |
| `AssetRead.NewChunk` | crates/orbitrelay-asset-runtime/src/reader.rs:33-71 | a chunk exists exactly when it lies inside the total and is empty only at the end |
| `AssetRead.MemoryAssetStore.InsertVerified` | crates/orbitrelay-asset-runtime/src/memory.rs:43-84 | success exactly when length and hash match and no other content has the id; nothing stored is ever replaced |
| `AssetRead.ReadAssetFully` | crates/orbitrelay-asset-runtime/src/read_all.rs:15-88 | for any reader: at most one read per 64 KiB block; success means every block was answered and lies in its place at the declared length; failure names the last read as unanswered; the arithmetic faults are unreachable |
| `AssetRead.StoreAnswers` | crates/orbitrelay-asset-runtime/src/memory.rs:104-153 | the memory store answers every block with that block's bytes |
| `AssetRead.StoreAnswersEveryRange` | crates/orbitrelay-asset-runtime/src/memory.rs:104-153 | any range is answered with the bytes from its offset to its end or the asset's, nothing at the very end, and an error beyond it |
| `AssetRead.BlocksDetermine` | crates/orbitrelay-asset-runtime/src/read_all.rs:45-87 | byte strings that agree on every block are equal |
| `AssetRead.ReadStoredAsset` | crates/orbitrelay-asset-runtime/src/read_all.rs:15-88 | against the memory store the result is exactly the inserted bytes, or not found, or too large |
| `Writer.WriterLoop` | crates/orbitrelay-transport/src/websocket/writer.rs:49-154 | frames are the queued commands in order, none skipped, each text, ping and pong with its own content, nothing after the Close frame (section 5.5.1 of RFC 6455), under any cancellation, failure or timeout; a failure is reported as the one that happened; undisturbed, everything up to the close is written and the sink closes |
| `Connection.OnlyForward` | crates/orbitrelay-transport/src/connection.rs:146-157 | a connection moves one stage on, or into Closing from any earlier stage, and never back |
| `Connection.ShutdownAlwaysCloses` | crates/orbitrelay-transport/src/websocket/coordinator.rs:497-504 | shutdown reaches Closed from every state and keeps the bound identity |
| `Connection.TransportConnection.constructor` | crates/orbitrelay-transport/src/connection.rs:183-191 | a new connection negotiates and has no identity |
| `Connection.TransportConnection.Transition` | crates/orbitrelay-transport/src/connection.rs:146-169 | exactly the allowed transitions happen; a refused one changes nothing |
| `Connection.TransportConnection.Bind` | crates/orbitrelay-transport/src/connection.rs:222-231 | an identity is bound only while authenticating |
| `Connection.TransportConnection.BecomeReady` | crates/orbitrelay-transport/src/connection.rs:234-240 | Ready needs a bound identity |
| `Connection.TransportConnection.ShutDown` | crates/orbitrelay-transport/src/websocket/coordinator.rs:497-504 | the in-place sequence ends Closed |
| `FramesWritten.QueueOnlyGrows` | crates/orbitrelay-transport/src/websocket/coordinator.rs:849-857 | in every run, whatever is queued stays queued in its place, and each step queues at most one command behind it |
| `ConnectionLifecycle.EveryStepIsLifecycleStep` | crates/orbitrelay-transport/src/websocket/coordinator.rs:219-527 | every step leaves connection and version alone or negotiates, authenticates or shuts down |
| `ConnectionLifecycle.LifecycleAlwaysHolds` | crates/orbitrelay-transport/src/websocket/coordinator.rs:550-606 | in every state of every run: a version is negotiated exactly when Negotiating was left, an identity is bound exactly when Ready, shutdown ends Closed, HelloAccepted is queued at most once |
| `ConnectionLifecycle.ActorNeverChanges` | crates/orbitrelay-transport/src/websocket/coordinator.rs:577-606 | once bound, the actor is the same for the rest of the run |
| `CoordinatorAnswers.EveryStepSaysItsPart` | crates/orbitrelay-transport/src/websocket/coordinator.rs:204-496 | in every run each step queues exactly the command it has to say, with the ids, nonce, payload, events or response of what it answers, when the writer can take it, and nothing else |
| `CoordinatorAnswers.MessagesTakenExactly` | crates/orbitrelay-transport/src/websocket/coordinator.rs:534-832 | in every run a message is taken exactly when state, identity, capacity and ports allow it, changes only its own subscription, and is otherwise answered with an error; only a Hello without a common version ends the connection |
| `CoordinatorAnswers.ActorIsTheResolvedOne` | crates/orbitrelay-transport/src/websocket/coordinator.rs:581-606 | the bound actor is the one the resolver returned for an Authenticate received while authenticating |
| `CoordinatorAnswers.VersionIsTheChosenOne` | crates/orbitrelay-transport/src/websocket/coordinator.rs:550-580 | the negotiated version is the one chosen for a Hello received while negotiating |
| `CoordinatorAnswers.HelloNamesTheVersion` | crates/orbitrelay-transport/src/websocket/coordinator.rs:571-578 | every HelloAccepted on the queue names the negotiated version |
| `CoordinatorAnswers.ActionsComeFromMessages` | crates/orbitrelay-transport/src/websocket/coordinator.rs:620-638 | the admitted actions are the jobs of action messages in arrival order |
| `CoordinatorAnswers.QueriesComeFromMessages` | crates/orbitrelay-transport/src/websocket/coordinator.rs:639-726 | the admitted queries carry the request id and type of query messages in arrival order, and the actor bound when each arrived |
| `CoordinatorAnswers.InputMovesOn` | crates/orbitrelay-transport/src/websocket/coordinator.rs:205-325 | which input and timers keep the loop going and which leave it, with a last error due exactly when the client was not told |
| `CoordinatorAnswers.ControlMovesOn` | crates/orbitrelay-transport/src/websocket/coordinator.rs:476-527 | how errors, joined pumps and each stage of the shutdown lead on, to a closed connection with its workers stopped |
| `CoordinatorAnswers.ReportLeavesDuly` | crates/orbitrelay-transport/src/websocket/coordinator.rs:326-442 | a report that ends the loop leaves a last error to tell unless the client knows already |
| `CoordinatorAnswers.ReportFollowed` | crates/orbitrelay-transport/src/websocket/coordinator.rs:326-442 | reports are taken oldest first; a finished or failed source's pump is told to stop and waited for; which reports end the loop |
| `CoordinatorAnswers.PumpReportsWhatHappened` | crates/orbitrelay-transport/src/websocket/event_pump.rs:27-92 | a pump reports its source's end, failure or a full writer as what it was, for its own subscription |
| `CoordinatorAnswers.TasksMoveOn` | crates/orbitrelay-transport/src/websocket/writer.rs:24-47 | a failing writer reports, then cancels everyone, then goes; a stopped worker stays stopped; the writer takes one command at a time |
| `CoordinatorAnswers.TasksReportTheirPart` | crates/orbitrelay-transport/src/websocket/action_worker.rs:37-54 | a worker, writer or reader reports exactly its own outcome, behind the reports already waiting |
| `SubscriptionOrder.StepIsSubStep` | crates/orbitrelay-transport/src/websocket/event_pump.rs:27-92 | for one subscription every step of every task does nothing, opens it, pulls an event, moves its pump or closes it |
| `SubscriptionOrder.SubKept` | crates/orbitrelay-transport/src/websocket/coordinator.rs:386-420 | each of these keeps the subscription's messages in step with its pump |
| `SubscriptionOrder.SubscriptionsStayInOrder` | crates/orbitrelay-transport/src/websocket/coordinator.rs:727-830 | in every run, per subscription: Accepted, then a gap-free prefix of its source's events, then at most one Closed and nothing after it, also when Unsubscribe races source completion |
| `ActionReplies.StepIsActionStep` | crates/orbitrelay-transport/src/websocket/action_worker.rs:22-56 | every step admits one action, starts one, completes one, answers one, or touches none |
| `ActionReplies.ActionsAnsweredInOrder` | crates/orbitrelay-transport/src/websocket/coordinator.rs:334-370 | in every run, acknowledgements and execution errors are a prefix of the admitted actions in arrival order, each with its own ids and outcome; actions run in order, once, one at a time, for the bound actor |
| `ActionReplies.AdmittedOnlyWhenReady` | crates/orbitrelay-transport/src/websocket/coordinator.rs:620-638 | an action is admitted only on a Ready connection and for its bound actor |
| `QueryConservation.StepIsQueryStep` | crates/orbitrelay-transport/src/websocket/query_worker.rs:28-62 | every step admits, starts, joins, drops, reports or answers queries, or touches none |
| `QueryConservation.QueriesAreConserved` | crates/orbitrelay-transport/src/websocket/query_worker.rs:28-62 | in every run, admitted = waiting + in flight + completed pending + answered + lost, each query in one place; in flight stays within `max_in_flight`; a finished connection has none waiting or in flight |
| `QueryConservation.LostExactlyWhenGivenUp` | crates/orbitrelay-transport/src/websocket/query_worker.rs:31-46 | in every state of every run a query is lost if and only if an earlier step gave that very query up: its task failed, the worker stopped while it waited or ran, or its reply could not be sent; the last never while the coordinator loops |
| `QueryConservation.QueryRepliesAreCorrelated` | crates/orbitrelay-transport/src/websocket/coordinator.rs:859-898 | in every run each query gets at most one reply: its own response or, when that is too large, the correlated error; with an id-preserving executor it carries the query's id and type; every query reply fits the message limit |
| `FramesWritten.FramesAreQueued` | crates/orbitrelay-transport/src/websocket/writer.rs:49-154 | the frames written are those of a prefix of the coordinator's queue, then at most the close sent when every sender is gone; nothing queued behind a Close is written |
| `FramesWritten.SubscriptionsWrittenInOrder` | crates/orbitrelay-transport/src/websocket/writer.rs:49-103 | on the wire each subscription is Accepted, a gap-free prefix of its source, at most one Closed and nothing after it |
| `FramesWritten.RepliesWrittenInOrder` | crates/orbitrelay-transport/src/websocket/writer.rs:49-103 | on the wire actions are answered in arrival order, each with its own ids and outcome |
| `FramesWritten.WriteQueue` | crates/orbitrelay-transport/src/websocket/writer.rs:24-154 | the writer loop run on what a connection queued produces frames with both orders, under any cancellation, failure or timeout |

## Left out

- Coordinator, workers and pumps as classes updated in place: they are steps on one state value, because the claims are about interleavings of several tasks; aliasing of channel handles is not captured.
- Liveness and deadlock-freedom of the coordinator: it waits for a pump that may itself wait for room in the coordinator's event channel; only safety over runs is claimed.
- Timers, heartbeats, write timeouts and socket I/O: steps the environment may take at any time.
- Encoding libraries (serde JSON, base64), SHA-256, UUID generation and PDF loading: a token is its decoded bytes or undecodable, the hash any function, identifiers opaque, a PDF a map from object ids to dictionaries.
- f64 points and styles: coordinates are reals, so NaN and the two zeros are not modelled.
- `PageTree.CollectsExactlyPageTrees`: does not say which of the two error kinds is reported of a graph that is malformed and too large; attribute values are opaque, so page geometry, rotation and title are not modelled.
- Attribute references in a PDF: resolved through one table, so chains of references are one lookup.
- The `/Encrypt` byte scanner (crates/orbitrelay-pdf/src/parser.rs:293-352): on `<<` it takes the second `<` as the start of a hex string, so finding every top-level name is not a property it has.
- `EventStore.MemoryEventStore.Append`: requires room for one more record, since a `Vec` holds at most 2^63-1.
- Blank event type names: recognised for the ASCII blanks only.
- `EventBus.EveryPublishAccounted`: the sum is stated up to 2^64-1 matching publishes, where the lag counter saturates.
- `EventBus.MemoryEventBus.Publish`: one call at a time; publishers that interleave, with a failed send and its count as two steps, are in `EventBusRuns`.
- `SubscriptionOrder.SubscriptionsStayInOrder`: event sources are taken to draw fresh ids; one may repeat a live subscription's id, which is refused, but not a finished one's.
- `StrokeRuntime.Runtime.Execute`: a dispatch that persists only part of several events does not arise, since a Stroke command emits at most one.
- A pipeline that persists after its dispatch call returned or was dropped: whether a dispatch persisted is settled before its lease is dropped.
- `Writer.WriterLoop`: a write cut short may or may not have reached the sink; partial frames are not modelled.
- `Connection.TransportConnection.constructor`: connection id and metadata are not modelled.
- Documents, compositions, read models, query DTOs, node and handler registries, error mapping, version policies, codec field checks: they would only add easy members.
- Authorizers, identity resolvers and catalogs: ports that may give any answer.
