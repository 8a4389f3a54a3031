# Verification of hocuspocu-rs

A Dafny model of the concurrent core of the hocuspocu-rs collaboration server, and proofs about it.
`dafny verify dfyconfig.toml` checks all of it.

## How it is modelled

Each concurrent part is modelled twice.

- A **transition system on values** (`...Model`): a `State`, the `Action`s, which of them are
  `Enabled`, and what each does (`Apply`). One action is one block of the program that runs under one
  lock, or one stretch without an await. Any number of tasks may be at any program point, and a run is
  any sequence of actions, so a lemma about `Exec(INIT, run)` speaks of every reachable state under
  every interleaving. Hooks, timers' delays, the network and library outcomes are parameters of the
  actions, hence arbitrary.
- A **class in the program's shape**: its fields are the program's fields, its methods the
  lock-guarded blocks, and every postcondition says `View() == Apply(old(View()), ...)`. Tasks,
  channels and histories that belong to the runtime are ghost or plain fields beside them.

What the steps do is stated a second time, without the functions that define them, in terms of what can
be observed before and after: triggers, entries, channels, frames and bytes (`...Outcomes`,
`DebouncerCalls`, `Fields`, and the `ensures` clauses of the methods where one is enough).

| part | transition system and theorems | class |
|---|---|---|
| debouncer | `DebouncerModel`, `DebouncerCalls`, `DebouncerTiming`, `DebouncerLimits` | `Debouncer` |
| update to store hooks | `StorePipelineModel`, `StoreOutcomes`, `StoreObligations`, `StoreHooks` | `StorePipeline` |
| sync protocol | `OpSets`, `SyncModel`, `SyncOutcomes`, `SyncCompletion`, `PeerSync` | `Document` |
| message queue of a connection | `ConnectionQueueModel`, `QueueOutcomes` | `Connection` |
| handshake of a socket | `HandshakeModel`, `HandshakeOutcomes` | `ClientConnection` |
| loading of documents | `CreateDocumentModel`, `CreateDocumentOutcomes`, `CreateDocumentScheduling`, `CreateDocumentOverwrites` | `Hocuspocus` |
| writer of a socket | `Writers` | `Writer`, `SocketSink` |
| bytes, frames, receiver | `Encoding`, `Fields`, `Utf8`, `Frames`, `MessageReceivers`, `ReceiverOutcomes`, `RoutingKeys` | `Decoder`, `Cursor`, `OutgoingMessage`, `MessageReceiver` |

Conventions of the models:

- Aborting a timer task, which happens under the `timers` lock, takes effect before the victim's next
  step. Timers are punctual: the clock does not pass a deadline that has not fired. Callers of
  `debounce`, `execute_now` and `create_document` are not cancelled half-way.
- The processing lock of a connection is fair, as tokio's mutex is. Channels keep their order.
- A yrs document is a set of operations (client, clock); what is integrated is the largest prefix per
  client; an update event holds at least what its transaction integrated and at most what is received.
  A client replica may lack predecessors only for operations that the server has received.
- Closing a connection and cleaning up after it is one step of the handshake model.
- A frame whose length field makes position plus length exceed 64 bits panics in the reader, in debug
  builds by the overflow check and in release builds by the slice; this is a third outcome beside
  value and error. A panic while a connection handles a frame unwinds its task: the processing lock is
  given back, nothing is popped, and the read loop that waits for it is dead. A slice is shorter than
  2^63 bytes.

## What the code does not promise

These are statements one might expect and that are false of the code; each has lemmas that say when
it holds and that it fails otherwise.

- Functions of one debounce id exclude each other in every run in which no finisher takes the lock of
  the id out of the map while another task has it (`DebouncerLimits.ExclusionUnlessLeftBehind`); after
  every such step two of them can run at the same time (`LeftBehindIsJoined`), and it does happen
  (`PerIdExclusionFails`).
- Each integrated update keeps its store obligation at every step, except at a debounce call of a
  second `Document` object of the same name that drops the timer which alone carried it
  (`StoreObligations.ObligedUnlessDisplaced`, `OtherInstanceDisplaces`).
- `create_document` can overwrite an entry. Under any interleaving that takes a task that inserts its
  lock although the name has an entry by now (`CreateDocumentOverwrites.NoLateInsertNoOverwrite`); the
  success of its load is then enough (`LateInsertOverwrites`, `EntryCanBeOverwritten`). If tasks give
  way only in hooks it cannot happen (`CreateDocumentScheduling.NeverOverwrites`). A caller that meets
  a slow load is answered with a failure (`CallIsAtomic`), although the comment in the code speaks of
  awaiting it.
- A frame on which handling panics leaves the queue of its connection non-empty. If its processor was
  the only one, nothing is ever processed again (`ConnectionQueueModel.WakeUnlessAbandoned`,
  `AbandonedForever`), and whoever relied on it in line can return early (`WaitersUnlessDeserted`,
  `DesertedCanMiss`); a drain that is cut short by it loses the rest of the queue
  (`HandshakeModel.HandshakeDelivers`). Otherwise nobody is abandoned or deserted (`HarmlessIsSteady`).
- `wait_for_pending_messages` can return before everything that had arrived is processed, exactly
  when nobody who will look at the queue has the lock or stands in line for it
  (`ConnectionQueueModel.WaitIsComplete`, `WaitCanMiss`, `PromptRequestsAreGood`).
- An error text of a hook that begins like an in-band tag is taken for that tag, exactly then
  (`MessageReceivers.DispatchIsFaithful`, `TaggedErrorIsMisread`). An update refused in this way is
  dropped while the connection stays open, so that client and document differ at rest exactly if the
  document lacks what was refused (`SyncModel.QuietUpToLosses`, `TaggedRefusalDiverges`).
- A malformed Auth frame uses up the only attempt of its routing key
  (`HandshakeModel.MalformedAuthIsFinal`).
- A tenth varint byte loses all but its lowest bit instead of being refused
  (`Encoding.ReadMeansSpells`: the value is taken modulo 2^64).

## Model

| member | source | states |
|---|---|---|
| DebouncerModel.StepPreservesInv | hocuspocu-rs/src/util/debounce.rs:29-137 | every step keeps the invariant: the timers map names only sleeping timers of its ids but not all of them, each call is carried by at most one task, and each call is started, carried or succeeded |
| DebouncerModel.InvAlways | hocuspocu-rs/src/util/debounce.rs:29-137 | the invariant holds after every run |
| DebouncerModel.NoWorkLost | hocuspocu-rs/src/util/debounce.rs:34-137 | for every call of debounce on an id, some function of that call or a later one on the id has started since, or a live task carries it and has yet to start it |
| DebouncerModel.StartedAtMostOnce | hocuspocu-rs/src/util/debounce.rs:41-43 | no call's function starts twice, and none is started by a task that was aborted, across all races |
| DebouncerCalls.CallOutcome | hocuspocu-rs/src/util/debounce.rs:34-97 | a call is triggered at once, by a run that does not sleep, exactly if its delay is zero or the chain of its timer has lasted max; otherwise nothing is triggered and a timer due after its delay takes over the chain; the old timer's task is aborted and no other task or entry changes |
| DebouncerCalls.ExecuteNowOutcome | hocuspocu-rs/src/util/debounce.rs:123-137 | with a timer listed, exactly one trigger is added, of its call and now, its task is aborted, the call goes to a run that does not sleep, and no other task or entry changes; without one nothing changes |
| DebouncerCalls.ExecuteNowIsPrompt | hocuspocu-rs/src/hocuspocus.rs:91-100 | after every run: each call that the listed timer covers is served by a trigger no later than the execute_now, and in every continuation that function has started or its run is still on the way, never aborted |
| DebouncerCalls.ImmediateCallIsFinal | hocuspocu-rs/src/direct_connection.rs:80-82 | in every run a call with delay zero, or with an exhausted chain, is triggered at the time it is made, and no later call ever takes it back |
| DebouncerCalls.WakingOutcome | hocuspocu-rs/src/util/debounce.rs:64-70 | a timer that wakes triggers its own call, once and now, and takes the entry of its id, whoever put it there |
| DebouncerCalls.DetachingOutcome | hocuspocu-rs/src/util/debounce.rs:110-113 | a run removes the entry of its id, triggers nothing, and leaves the task of that entry asleep |
| DebouncerCalls.OrderOfSteps | hocuspocu-rs/src/util/debounce.rs:66-121 | the order of the steps of a task, when each is possible, and what each does to locks and starts |
| DebouncerTiming.AllOnTimeAlways | hocuspocu-rs/src/util/debounce.rs:36-57 | with debounce at most d and max at most m, every call made at t is at all times covered by a trigger, past or armed, no later than t + m + d, also when entries are detached |
| DebouncerTiming.DeadlineBound | hocuspocu-rs/src/util/debounce.rs:36-113 | once t + m + d has passed, a function of that call or a later one on its id was triggered within that time |
| DebouncerTiming.BurstStateAlways | hocuspocu-rs/src/util/debounce.rs:34-97 | throughout a burst on a fresh id there is exactly one sleeping timer, the last call's, or it has fired once, whatever other ids do |
| DebouncerTiming.BurstCoalesces | hocuspocu-rs/tests/basic_test.rs:372-399 | a burst of any length with gaps below debounce and span below max triggers exactly one function, the last call's, debounce after that call, and nothing before |
| DebouncerLimits.LocksAlways | hocuspocu-rs/src/util/debounce.rs:72-86 | in every run a lock is held by one task and belongs to one id |
| DebouncerLimits.ListedUnlessLeftBehind | hocuspocu-rs/src/util/debounce.rs:80-86 | a step keeps all tasks of an id under the lock that the map lists if and only if it is not a finisher that forgets the lock while another task has it |
| DebouncerLimits.ListedExcludes | hocuspocu-rs/src/util/debounce.rs:80-81 | while they are, at most one function of the id runs |
| DebouncerLimits.ExclusionUnlessLeftBehind | hocuspocu-rs/src/util/debounce.rs:80-120 | functions of one id exclude each other in every run in which no finisher leaves another task behind |
| DebouncerLimits.StrayIsJoined | hocuspocu-rs/src/util/debounce.rs:99-121 | from every state in which a task has a lock that is not listed, some continuation runs two functions of the id at the same time |
| DebouncerLimits.LeftBehindIsJoined | hocuspocu-rs/src/util/debounce.rs:83-86 | so after every step that leaves a task behind, in every run, exclusion can be broken |
| DebouncerLimits.PerIdExclusionFails | hocuspocu-rs/src/util/debounce.rs:72-86 | for every id there is a run in which two functions of the id run at the same time |
| DebouncerObject.Debouncer.LogCall | hocuspocu-rs/src/util/debounce.rs:34-43 | the chain start is inherited from the timer that is dropped and aborted |
| DebouncerObject.Debouncer.Debounce | hocuspocu-rs/src/util/debounce.rs:34-97 | the block under the timers lock: runs at once for a zero delay or an exhausted chain, otherwise replaces the timer |
| DebouncerObject.Debouncer.ExecuteNow | hocuspocu-rs/src/util/debounce.rs:123-137 | takes the entry if there is one, aborts its task and hands its function to a run, with one trigger now; otherwise does nothing |
| DebouncerObject.Debouncer.Wake | hocuspocu-rs/src/util/debounce.rs:64-70 | a timer that wakes removes the entry of its id, whoever put it there |
| DebouncerObject.Debouncer.LookUpLock | hocuspocu-rs/src/util/debounce.rs:100-106 | gets or inserts the execution lock of the id |
| DebouncerObject.Debouncer.AcquireLock | hocuspocu-rs/src/util/debounce.rs:108 | is granted that lock once it is free |
| DebouncerObject.Debouncer.DetachTimer | hocuspocu-rs/src/util/debounce.rs:110-113 | a run drops the entry without aborting its task |
| DebouncerObject.Debouncer.StartFunction | hocuspocu-rs/src/util/debounce.rs:115 | the function starts once, by the task that carries its call |
| DebouncerObject.Debouncer.FunctionReturned | hocuspocu-rs/src/util/debounce.rs:115 | the function may take any time before it returns |
| DebouncerObject.Debouncer.ForgetLock | hocuspocu-rs/src/util/debounce.rs:117-120 | removes the lock from the map even if others wait for it |
| DebouncerObject.Debouncer.ReleaseLock | hocuspocu-rs/src/util/debounce.rs:108-121 | releases it and ends the task |
| DebouncerObject.Debouncer.IsDebounced | hocuspocu-rs/src/util/debounce.rs:139-142 | exactly whether the map has an entry |
| DebouncerObject.Debouncer.IsCurrentlyExecuting | hocuspocu-rs/src/util/debounce.rs:144-147 | exactly whether the map has a lock |
| StorePipelineModel.StepPreservesInv | hocuspocu-rs/src/hocuspocus.rs:161-206 | every step keeps: each update has an observer or a later debounce call for its document, and each started function has begun a store or waits for the save mutex |
| StorePipelineModel.InvAlways | hocuspocu-rs/src/hocuspocus.rs:161-206 | the invariant holds after every run |
| StoreObligations.ObligedUnlessDisplaced | hocuspocu-rs/src/hocuspocus.rs:487-551 | towards every integrated update, a step keeps the obligation (a store of its document began after it, or a live observer, timer, run or hook task will begin one) if and only if it is not a call of another object of the name that drops the timer which alone carries it |
| StoreObligations.NoWriteUncovered | hocuspocu-rs/src/hocuspocus.rs:369-388 | the obligation towards an update holds in every run in which no call displaces it |
| StoreObligations.SoleInstanceIsUndisplaced | hocuspocu-rs/src/hocuspocus.rs:493-507 | no call does while one object at a time answers to the name |
| StoreObligations.AtRestEverythingStored | hocuspocu-rs/src/hocuspocus.rs:487-551 | once no task is left, every update that was not displaced has been followed by a store attempt |
| StoreObligations.OtherInstanceDisplaces | hocuspocu-rs/src/hocuspocus.rs:493-507 | for every name there is a run and a call of a second object of the name that leaves an update with no store and nothing that will make one |
| StoreObligations.SameIdSameName | hocuspocu-rs/src/hocuspocus.rs:493 | debounce ids of different document names differ |
| StoreOutcomes.ObserverCalls | hocuspocu-rs/src/hocuspocus.rs:161-206 | the observer of an update makes one call, for the document of that update and with its delays: triggered at once or armed with a timer due after the delay; no hook in progress notices |
| StoreOutcomes.StoreNowIsTriggered | hocuspocu-rs/src/hocuspocus.rs:493-507 | an immediate store is triggered at the time it is asked for, by a run for its own document |
| StoreOutcomes.FlushTriggers | hocuspocu-rs/src/hocuspocus.rs:91-100 | execute_now for a name triggers the call of its timer now, made for a document of that very name; without a timer nothing changes |
| StoreOutcomes.StartedWaits | hocuspocu-rs/src/hocuspocus.rs:510-512 | a function that is started waits for the save mutex of its document |
| StoreOutcomes.StoreBegins | hocuspocu-rs/src/hocuspocus.rs:510-514 | a store begins exactly when the save mutex of its document is free, takes it, and is for the document of its call with all updates up to now |
| StoreOutcomes.FailedStoreEnds | hocuspocu-rs/src/hocuspocus.rs:518-536 | after a failed store no after-store hook can begin, and the mutex is given back |
| StoreOutcomes.StoreEnds | hocuspocu-rs/src/hocuspocus.rs:514-536 | a store that succeeds is followed by its after-store hook, and only then the mutex is given back |
| StoreOutcomes.DoneReturns | hocuspocu-rs/src/hocuspocus.rs:536-551 | a function whose hooks are over returns to the debouncer and holds nothing |
| StoreHooks.TracesAlways | hocuspocu-rs/src/hocuspocus.rs:510-536 | in every run the save mutex is held by exactly the function between its store hook and its end, and the trace of each document is open only as far as the holder has come |
| StoreHooks.ScannedIsBlocks | hocuspocu-rs/src/hocuspocus.rs:514-536 | a trace accepted by the scanner is a sequence of whole blocks and the beginning of one |
| StoreHooks.HooksNeverOverlap | hocuspocu-rs/src/hocuspocus.rs:506-546 | for any number of concurrent executions, the hooks of one document are whole blocks "store, then its own after-store if it succeeded", followed by the open part of the mutex holder's block |
| StorePipelineObject.StorePipeline.OnUpdate | hocuspocu-rs/src/hocuspocus.rs:369-388 | each update spawns one observer task |
| StorePipelineObject.StorePipeline.HandleDocumentUpdate | hocuspocu-rs/src/hocuspocus.rs:161-206 | the observer makes one debounce call for its document and ends |
| StorePipelineObject.StorePipeline.StoreDocumentHooks | hocuspocu-rs/src/hocuspocus.rs:487-551 | an immediate call debounces with delay zero under the id of the name |
| StorePipelineObject.StorePipeline.EnterStoreHook | hocuspocu-rs/src/hocuspocus.rs:512-514 | the store hook begins once the save mutex of its own document is free, and takes it |
| StorePipelineObject.StorePipeline.LeaveStoreHook | hocuspocu-rs/src/hocuspocus.rs:514-535 | success leads to the after-store hook, failure past it |
| StorePipelineObject.StorePipeline.EnterAfterStoreHook | hocuspocu-rs/src/hocuspocus.rs:515-517 | the after-store hook runs under the same guard |
| StorePipelineObject.StorePipeline.LeaveAfterStoreHook | hocuspocu-rs/src/hocuspocus.rs:515-517 | its outcome is ignored |
| StorePipelineObject.StorePipeline.DropGuard | hocuspocu-rs/src/hocuspocus.rs:511-536 | the guard is dropped at the end of the block or on an early return |
| OpSets.VectorSummarises | hocuspocu-rs/src/document.rs:362-365 | the state vector says exactly which operations are integrated |
| OpSets.DiffCatchesUp | hocuspocu-rs/src/message_receiver.rs:168-174 | merging a diff against one's own vector integrates all that the other side has integrated |
| OpSets.UnionOfIntegrated | hocuspocu-rs/src/document.rs:367-375 | the union of two documents without pending operations has none |
| SyncModel.StepPreservesInv | hocuspocu-rs/src/message_receiver.rs:160-266 | every step, refusals by hooks and library included, keeps for each connection: no gap on the way to the client, no debt on the way back but what was refused, and no question that got lost unheard |
| SyncModel.InvAlways | hocuspocu-rs/src/message_receiver.rs:167-266 | the invariant holds after every run, for any number of connections and any order of broadcasts |
| SyncModel.SyncHasNoGap | hocuspocu-rs/src/client_connection.rs:369-377 | once the SyncStep1 of a registered, open connection has been answered, every operation integrated in the document is at the client, in its channel, in an unsent SyncStep2 or in a pending broadcast |
| SyncModel.QuietUpToLosses | hocuspocu-rs/src/message_receiver.rs:160-164 | at rest a client whose question was heard has integrated all of the document, and one that may write exactly the document if and only if the document holds what was refused while the connection stayed open |
| SyncModel.UntaggedLosesNothing | hocuspocu-rs/src/connection.rs:412-451 | without refusals that look like a tag, nothing is refused on a connection that stays open |
| SyncModel.QuietMeansConverged | hocuspocu-rs/src/document.rs:377-398 | so without such refusals, at rest a client that asked has integrated all of the document, and a client that may write exactly the document |
| SyncModel.QuietClientsAgree | hocuspocu-rs/src/document.rs:377-398 | at rest any two such clients have integrated the same operations |
| SyncModel.TaggedRefusalDiverges | hocuspocu-rs/src/connection.rs:415-425 | from any state at rest, an edit refused with a text like a stateless message leads to rest on an open connection with the document lacking the edit |
| SyncModel.ReadOnlyChangesNothing | hocuspocu-rs/src/message_receiver.rs:210-255 | a message of a read-only client changes neither the document nor the broadcasts |
| SyncModel.OnlyWritersContribute | hocuspocu-rs/src/message_receiver.rs:210-266 | in every run the document holds nothing beyond what was loaded, edited directly, or sent by a connection that may write, and never less than what was loaded |
| SyncModel.OnlyReadersNoChange | hocuspocu-rs/src/message_receiver.rs:210-255 | a document with read-only connections and no direct edits stays as loaded |
| SyncOutcomes.ClientAsks | hocuspocu-rs/src/message_receiver.rs:167-169 | the SyncStep1 of a client counts exactly what the client has integrated |
| SyncOutcomes.AnswerIsNews | hocuspocu-rs/src/message_receiver.rs:168-174 | the answer to a SyncStep1 holds all that is integrated beyond the vector asked with, and nothing below it |
| SyncOutcomes.AnswerIsSent | hocuspocu-rs/src/message_receiver.rs:176-188 | and that very answer goes to the asking connection if it is open, and to no other |
| SyncOutcomes.ServerVectorIsExact | hocuspocu-rs/src/message_receiver.rs:188-189 | the vector that the server takes counts an operation if and only if it is integrated in the document |
| SyncOutcomes.ServerAsks | hocuspocu-rs/src/message_receiver.rs:190-204 | and goes out, asking back, to the same connection only |
| SyncOutcomes.QuestionsAlwaysExact | hocuspocu-rs/src/message_receiver.rs:188-189 | in every run, each vector of the server that is about to be sent or on its way counts exactly what was integrated at some moment of the run |
| SyncOutcomes.ReplyIsNews | hocuspocu-rs/src/message_receiver.rs:188-204 | so in every run a client's reply holds nothing that the document had integrated when it asked, and all that the client has integrated besides |
| SyncOutcomes.NobodyIsAskedUnasked | hocuspocu-rs/src/message_receiver.rs:188-207 | in every run the server asks only connections whose SyncStep1 asked for it |
| SyncOutcomes.UpdateIsMerged | hocuspocu-rs/src/document.rs:367-375 | an update of a writing client is held from then on, and exactly if it integrates anything one broadcast of what was integrated is pending |
| SyncOutcomes.DirectEditIsMerged | hocuspocu-rs/src/document.rs:367-375 | and so is an edit on the server |
| SyncOutcomes.RefusalChangesNothing | hocuspocu-rs/src/message_receiver.rs:160-164 | a refused message leaves the document and all other connections as they are; its connection stays open exactly if the text begins like a stateless message, or like a token that is then accepted |
| SyncOutcomes.BroadcastReachesAll | hocuspocu-rs/src/document.rs:377-398 | a broadcast adds one update to the channel of each open, registered connection, the sender included, and touches nobody else |
| SyncCompletion.SyncCompletes | hocuspocu-rs/src/message_receiver.rs:166-266 | whenever no broadcast is pending, a new client with any replica can be synced: a run without edits and refusals brings it to rest, where both agree |
| Documents.Document.AddConnection | hocuspocu-rs/src/document.rs:157-176 | registers the entry that broadcasts and answers are sent to |
| Documents.Document.SendToConnection | hocuspocu-rs/src/document.rs:420-425 | sends if and only if the connection is registered |
| Documents.Document.ApplyUpdate | hocuspocu-rs/src/document.rs:367-375 | merges by union, and spawns one broadcast of what was integrated exactly if anything was |
| Documents.Document.HandleUpdate | hocuspocu-rs/src/document.rs:377-398 | a loop over the entries in any order sends the update to every registered connection once and to no other |
| Documents.Document.EncodeStateVector | hocuspocu-rs/src/document.rs:362-365 | an operation is below the vector if and only if it is integrated |
| Documents.Document.EncodeStateAsUpdate | hocuspocu-rs/src/message_receiver.rs:171-174 | the diff holds what is integrated beyond the vector and nothing else that is not held, and whoever had that vector and merges it has integrated all that the document had |
| Documents.Document.ReadSyncMessage | hocuspocu-rs/src/message_receiver.rs:166-266 | the branch on SyncStep1, SyncStep2 and Update, with the read-only exit, for a message that is not refused |
| Documents.Document.RefuseMessage | hocuspocu-rs/src/message_receiver.rs:160-164 | a refused message changes nothing but its connection, which is closed unless the text is taken for something else |
| Documents.Document.SendAnswer | hocuspocu-rs/src/message_receiver.rs:176-186 | the SyncStep2 goes to the asking connection |
| Documents.Document.EncodeOwnVector | hocuspocu-rs/src/message_receiver.rs:188-189 | the own vector is taken after the answer was sent, not with the diff, and counts an operation if and only if it is integrated |
| Documents.Document.SendOwnVector | hocuspocu-rs/src/message_receiver.rs:190-204 | the server's question, itself asking back, goes to the same connection |
| PeerSync.DeliveryLosesWeight | hocuspocu-rs/src/message_receiver.rs:56-69 | every delivery between two replying peers lowers a measure on the messages in flight |
| PeerSync.ExchangeEnds | hocuspocu-rs/src/message_receiver.rs:188-207 | one opening SyncStep1 leads to at most four deliveries in any order |
| PeerSync.ExchangeGoesOn | hocuspocu-rs/src/message_receiver.rs:167-207 | any message in flight can be delivered, so a run that cannot go on has nothing in flight |
| PeerSync.ExchangeConverges | hocuspocu-rs/src/message_receiver.rs:167-207 | when nothing is in flight any more each side holds all that either had integrated and nothing neither had; without pending operations both equal the join, with nothing pending |
| PeerSync.NothingIsRepeated | hocuspocu-rs/src/message_receiver.rs:171-207 | in every run of the exchange, no answer carries an operation that its receiver had integrated before |
| PeerSync.ReplyIsExact | hocuspocu-rs/src/message_receiver.rs:176-206 | the SyncReply of a peer, sent behind its answer, counts exactly what it has integrated |
| ConnectionQueueModel.StepPreservesInv | hocuspocu-rs/src/connection.rs:318-463 | every step, panics included, keeps order, exclusion and the line for the lock, and only harmful frames panic |
| ConnectionQueueModel.ExactlyOnceInOrder | hocuspocu-rs/src/connection.rs:330-459 | what was popped followed by what is queued is what arrived; each popped frame was handled to its end once, as its content allows - none whose handling panics - and popped precisely then |
| ConnectionQueueModel.AtMostOneInProgress | hocuspocu-rs/src/connection.rs:331-340 | at most one frame of a connection is being handled |
| ConnectionQueueModel.WakeUnlessAbandoned | hocuspocu-rs/src/connection.rs:318-459 | a step leaves a non-empty queue with a processor if and only if it is not the panic of the only one |
| ConnectionQueueModel.NoLostWakeup | hocuspocu-rs/src/connection.rs:318-331 | so in every run without such a panic a non-empty queue has a processor that holds the lock, waits for it, or is about to ask |
| ConnectionQueueModel.AbandonedForever | hocuspocu-rs/src/connection.rs:318-328 | after such a panic the queue stays non-empty and nothing more is processed, whatever happens |
| ConnectionQueueModel.HarmlessIsSteady | hocuspocu-rs/src/connection.rs:381-410 | if no frame that has arrived panics when handled, there is no such panic |
| ConnectionQueueModel.WaitersUnlessDeserted | hocuspocu-rs/src/connection.rs:330-463 | a step keeps the promise to those in line if and only if it is not the panic of a processor on which one of them relies |
| ConnectionQueueModel.WaitIsComplete | hocuspocu-rs/src/connection.rs:461-463 | in every run without such a panic, a wait that began in good hands returns only after everything that had arrived was processed |
| ConnectionQueueModel.DesertedCanMiss | hocuspocu-rs/src/connection.rs:461-463 | after such a panic a wait can return with an earlier frame unprocessed |
| ConnectionQueueModel.PromptRequestsAreGood | hocuspocu-rs/src/connection.rs:318-331 | with push and request as one step every wait begins in good hands, unless the queue was abandoned by a panic |
| ConnectionQueueModel.WaitCanMiss | hocuspocu-rs/src/connection.rs:461-463 | conversely, from every state not in good hands a wait can return with an earlier frame unprocessed |
| QueueOutcomes.WaitServesAll | hocuspocu-rs/src/connection.rs:461-463 | a wait that begins while the lock is held, or about to be held, by a processor does not end before every frame that had arrived by then is processed, in every continuation in which no processor panics while someone in line relies on it |
| QueueOutcomes.TurnPopsFront | hocuspocu-rs/src/connection.rs:333-457 | a turn of the loop handles the front frame and pops that very frame |
| QueueOutcomes.LoopDrains | hocuspocu-rs/src/connection.rs:332-459 | a processor that has the lock can go on until the queue is empty, handling every frame, and gives the lock back |
| Connections.Connection.HandleMessage | hocuspocu-rs/src/connection.rs:318-328 | pushes, and makes the caller a processor exactly if the queue was empty |
| Connections.Connection.ProcessMessages | hocuspocu-rs/src/connection.rs:330-331 | a processor joins the line for the lock |
| Connections.Connection.Front | hocuspocu-rs/src/connection.rs:333-340 | peeks at the front without popping, or ends the loop |
| Connections.Connection.HandleFront | hocuspocu-rs/src/connection.rs:342-458 | the four outcomes of a turn, each of which pops, and the panic, which does not; a refusal of the hook closes the connection; a handled frame does if its meaning is a close request, a token that is refused, or an error whose text does not begin like a stateless message or an accepted token; otherwise it stays as it was |
| Connections.Connection.Receive | hocuspocu-rs/src/connection.rs:381-452 | the receiver handles the frame, and the connection is closed or not as its result says, unless it panics |
| Connections.RefusalCloses | hocuspocu-rs/src/connection.rs:412-451 | an error closes the connection if and only if the sync model says that the refusal does: unless the text begins like a stateless message, or like a token that is then accepted |
| Connections.ActionCloses | hocuspocu-rs/src/connection.rs:412-451 | which meanings of a frame close the connection, by way of the error texts |
| Connections.Connection.Unwind | hocuspocu-rs/src/connection.rs:331 | a panic drops the guard of the lock and ends the task, and touches nothing else |
| Connections.Connection.WaitForPendingMessages | hocuspocu-rs/src/connection.rs:461-463 | a waiter joins the same line |
| Connections.Connection.LockGranted | hocuspocu-rs/src/connection.rs:331 | the lock goes to the first in line |
| HandshakeModel.StepPreservesKey | hocuspocu-rs/src/client_connection.rs:115-318 | every frame and every cleanup keeps, for every key, the relation between its four entries and the frames it was sent |
| HandshakeModel.InvAlways | hocuspocu-rs/src/client_connection.rs:115-318 | that relation holds after every sequence of events |
| HandshakeModel.HandshakeDelivers | hocuspocu-rs/src/client_connection.rs:560-568 | the connection of a key, none of whose frames was diverted to a sessionless sibling, is given exactly the key's frames since its last reset, in order, without the accepted Auth frame (and without earlier frames whose type cannot be read); only behind a queued frame that made it panic, and the read loop with it, the rest of the queue is lost |
| HandshakeModel.NotDivertedAlone | hocuspocu-rs/src/client_connection.rs:138-145 | a sessionless key is never diverted, nor is any key while there is no connection under the bare name |
| HandshakeModel.NameCheckPasses | hocuspocu-rs/src/connection.rs:352-362 | the connection's check of the document name discards no frame that the handshake routed to it |
| HandshakeModel.ConnectedOnlyByConsent | hocuspocu-rs/src/client_connection.rs:249-317 | a key becomes connected only by its own first Auth frame, with onConnect, onAuthenticate and the document each accepting, on an open socket |
| HandshakeModel.DeniedStartsOver | hocuspocu-rs/src/client_connection.rs:584-597 | the Auth frame connects its key if and only if it is well formed, onConnect, onAuthenticate and the document accept and the socket is open; a key denied by any of the three is absent from all four maps and no other key is touched |
| HandshakeModel.MalformedAuthIsFinal | hocuspocu-rs/src/client_connection.rs:211-224 | after a malformed Auth frame no sequence of events ever connects the key |
| HandshakeOutcomes.UnreadableFrame | hocuspocu-rs/src/client_connection.rs:121-130 | a frame whose address cannot be read changes nothing, except that a panic ends the read loop, after which nothing is read |
| HandshakeOutcomes.FrameIsDelivered | hocuspocu-rs/src/client_connection.rs:138-145 | a frame goes to the connection of its key, or else of its document, and changes no other; the read loop outlives it exactly if the hook refuses the frame or the connection can handle it |
| HandshakeOutcomes.FrameWaits | hocuspocu-rs/src/client_connection.rs:148-209 | any other frame but the Auth frame waits at the end of its key's queue if its type can be read, and is dropped otherwise |
| HandshakeOutcomes.MalformedIsUsedUp | hocuspocu-rs/src/client_connection.rs:211-224 | a malformed Auth frame is used up, connects nobody and is not queued; one that panics ends the read loop as well |
| HandshakeOutcomes.AcceptedKeyConnects | hocuspocu-rs/src/client_connection.rs:544-568 | an accepted key is connected to its own document; its connection gets the queued frames in order, up to and with the first that it panics over, and the read loop goes on exactly if there is none |
| HandshakeOutcomes.ClosingSocketForgetsAll | hocuspocu-rs/src/client_connection.rs:550-555 | if the socket turns out to be closing, that key and all connected keys are forgotten, and the others are not touched |
| HandshakeOutcomes.CleanupForgets | hocuspocu-rs/src/client_connection.rs:432-448 | the cleanup of a closed connection forgets its key and only that |
| HandshakeOutcomes.TokenIsEnough | hocuspocu-rs/src/client_connection.rs:217-230 | an Auth frame with any sub-type and a token of UTF-8 is acted on whatever follows, a malformed version included, unless that is a field whose end does not fit in 64 bits |
| HandshakeOutcomes.TokenIsNeeded | hocuspocu-rs/src/client_connection.rs:217-224 | one whose sub-type or token is cut off anywhere, or whose token is no UTF-8, is malformed |
| ClientConnections.ClientConnection.HandleMessage | hocuspocu-rs/src/client_connection.rs:115-174 | one frame acts as one step of the handshake model, for every frame and every behaviour of hooks and socket |
| ClientConnections.ClientConnection.HandleQueueingMessage | hocuspocu-rs/src/client_connection.rs:176-318 | queues, or takes the first Auth frame through both hooks |
| ClientConnections.ClientConnection.ReadAuth | hocuspocu-rs/src/client_connection.rs:217-230 | sub-type and token must be readable, a malformed provider version is tolerated |
| ClientConnections.ClientConnection.SetupNewConnection | hocuspocu-rs/src/client_connection.rs:320-582 | a document that fails to load resets the key, a closing socket resets all, otherwise the queue is drained into the connection |
| ClientConnections.ClientConnection.Drain | hocuspocu-rs/src/client_connection.rs:560-568 | the queue is taken out and handed over in order |
| ClientConnections.ClientConnection.HandOver | hocuspocu-rs/src/client_connection.rs:566-568 | the loop hands over every frame, up to the first over which the connection panics; then the read loop is dead and the rest lost |
| ClientConnections.ClientConnection.GiveTo | hocuspocu-rs/src/client_connection.rs:138-145 | a frame for a connection is handled before the read loop goes on, and a panic over it ends the loop |
| ClientConnections.ClientConnection.CleanupDocumentState | hocuspocu-rs/src/client_connection.rs:584-597 | forgets the key |
| ClientConnections.ClientConnection.CleanUp | hocuspocu-rs/src/client_connection.rs:432-448 | forgets the closed keys in all four maps |
| RoutingKeys.DocumentName | hocuspocu-rs-common/src/routing_key.rs:7-12 | the part before the first separator |
| RoutingKeys.NameOfName | hocuspocu-rs/src/client_connection.rs:132-136 | the name of a document addresses that document |
| RoutingKeys.RoutingKeyRoundTrip | hocuspocu-rs-common/src/routing_key.rs:3-12 | a key is taken apart into what it was made of exactly if the name holds no separator |
| CreateDocumentModel.StepPreservesInv | hocuspocu-rs/src/hocuspocus.rs:216-305 | every step under any interleaving keeps: a loader owns the entry of its name, and answers match names |
| CreateDocumentModel.AtMostOneLoad | hocuspocu-rs/src/hocuspocus.rs:247-304 | a name is being loaded by at most one task at any time, and the loading map holds exactly the names being loaded |
| CreateDocumentModel.AnswersMatch | hocuspocu-rs/src/hocuspocus.rs:220-305 | whoever is answered with a document gets one loaded for the name asked for |
| CreateDocumentOutcomes.LooksAnswer | hocuspocu-rs/src/hocuspocus.rs:216-263 | under any interleaving each of the three looks into the documents answers with the entry if there is one; only a blank name is refused before, and only the last look fails without an entry |
| CreateDocumentOutcomes.LocksAnswer | hocuspocu-rs/src/hocuspocus.rs:234-258 | the lock of another's load answers if it has an answer, success or failure; otherwise the caller looks again |
| CreateDocumentOutcomes.LoadsAreFound | hocuspocu-rs/src/hocuspocus.rs:228-266 | a load is found by its name, and who finds none at the insertion becomes the loader with a lock of his own |
| CreateDocumentOutcomes.LoaderGoesOn | hocuspocu-rs/src/hocuspocus.rs:268-304 | the lock is answered before the document becomes the entry, a failure publishes nothing, and the name is freed last |
| CreateDocumentOutcomes.UnloadForgets | hocuspocu-rs/src/hocuspocus.rs:617-620 | after an unload the name has no entry, and no task, load or answer is touched |
| CreateDocumentOutcomes.LoaderGetsItsAnswer | hocuspocu-rs/src/hocuspocus.rs:278-304 | whatever happens in between, a loader still carries the answer of its own load, or has been told it |
| CreateDocumentOutcomes.AnswerIsFinal | hocuspocu-rs/src/hocuspocus.rs:280-298 | in every run a lock that has an answer keeps it, so all who wait for one load are told the same |
| CreateDocumentScheduling.CoarseAlways | hocuspocu-rs/src/hocuspocus.rs:220-305 | if tasks give way only inside the load, every run keeps: a load in progress means no entry, and no lock has an answer while its loader sleeps |
| CreateDocumentScheduling.NeverOverwrites | hocuspocu-rs/src/hocuspocus.rs:284-287 | then no entry is ever overwritten, and only an unload takes one away |
| CreateDocumentScheduling.OneDocumentBetweenUnloads | hocuspocu-rs/src/hocuspocus.rs:220-305 | and all callers answered with a document between two unloads of a name get the identical document, the entry |
| CreateDocumentScheduling.CallIsAtomic | hocuspocu-rs/src/hocuspocus.rs:216-266 | a call is answered at once with the entry, or with a failure if another caller is loading, or else starts the load |
| CreateDocumentScheduling.LoadIsAtomic | hocuspocu-rs/src/hocuspocus.rs:278-305 | the end of a load answers the lock, publishes the document if there is one and frees the name |
| CreateDocumentOverwrites.FreshUnlessLateInsert | hocuspocu-rs/src/hocuspocus.rs:247-266 | under any interleaving, a step leaves nobody about to replace the entry of a name if and only if it does not insert a lock for a name that has an entry |
| CreateDocumentOverwrites.NoLateInsertNoOverwrite | hocuspocu-rs/src/hocuspocus.rs:284-287 | so no entry is overwritten in any run without such a late insert |
| CreateDocumentOverwrites.LateInsertOverwrites | hocuspocu-rs/src/hocuspocus.rs:265-287 | after every late insert, steps of the inserting task alone overwrite the entry by another document |
| CreateDocumentOverwrites.EntryCanBeOverwritten | hocuspocu-rs/src/hocuspocus.rs:220-266 | for every name there is a run in which two callers get different documents without an unload |
| HocuspocusObject.Hocuspocus.IsBlank | hocuspocu-rs/src/hocuspocus.rs:216-218 | a name is refused exactly if it is all white space |
| HocuspocusObject.Hocuspocus.CheckDocuments | hocuspocu-rs/src/hocuspocus.rs:216-226 | the first look into the documents |
| HocuspocusObject.Hocuspocus.FindLoad | hocuspocu-rs/src/hocuspocus.rs:228-232 | the lock of a load in progress, if there is one |
| HocuspocusObject.Hocuspocus.ReadLock | hocuspocu-rs/src/hocuspocus.rs:234-239 | the answer in the lock, if there is one |
| HocuspocusObject.Hocuspocus.CheckDocumentsAgain | hocuspocu-rs/src/hocuspocus.rs:240-245 | the second look into the documents |
| HocuspocusObject.Hocuspocus.InsertLock | hocuspocu-rs/src/hocuspocus.rs:247-266 | inserts a lock only if the name has none |
| HocuspocusObject.Hocuspocus.CheckDocumentsLast | hocuspocu-rs/src/hocuspocus.rs:259-263 | the last look, then a failure |
| HocuspocusObject.Hocuspocus.LoadDocument | hocuspocu-rs/src/hocuspocus.rs:268-276 | the hooks decide whether a new document results |
| HocuspocusObject.Hocuspocus.SetAnswer | hocuspocu-rs/src/hocuspocus.rs:280-298 | the lock gets the answer |
| HocuspocusObject.Hocuspocus.InsertDocument | hocuspocu-rs/src/hocuspocus.rs:284-287 | the document becomes the entry |
| HocuspocusObject.Hocuspocus.RemoveLoad | hocuspocu-rs/src/hocuspocus.rs:288-303 | the name is no longer being loaded, and the caller gets the answer |
| HocuspocusObject.Hocuspocus.RemoveDocument | hocuspocu-rs/src/hocuspocus.rs:617-620 | unloading removes whatever entry the name has |
| Writers.FramesAreSends | hocuspocu-rs/src/server.rs:194-216 | the frames of a one-at-a-time writer are the sends in order up to the first close or the first feed that fails; it ends in an error exactly if frames are missing, and otherwise with the code and reason of that close, or drained |
| Writers.Writer.Run | hocuspocu-rs/src/server.rs:190-225 | for every way commands can arrive the batching writer feeds the frames of the one-at-a-time writer (a prefix if a flush fails) and ends as it does; it waits only with nothing queued and nothing unflushed, flushes only before it waits, closes or ends, closes only behind a flush, and writes nothing after the close frame |
| Writers.QueuedGrows | hocuspocu-rs/src/server.rs:311-340 | what one more call adds to the channel |
| Writers.DroppingIsInvisible | hocuspocu-rs/src/server.rs:311-315 | that the sink drops sends after a close changes neither the frames nor the end |
| Writers.SocketSink.Send | hocuspocu-rs/src/server.rs:311-322 | a send to a closing socket succeeds and is dropped, one to a dead writer fails, any other is queued |
| Writers.SocketSink.Close | hocuspocu-rs/src/server.rs:324-340 | the close is queued behind what was sent before, and later sends are dropped |
| Encoding.WriteVarUint | hocuspocu-rs/src/encoding.rs:3-15 | the loop appends the encoding of the value |
| Encoding.WriteVarBytes | hocuspocu-rs/src/encoding.rs:17-26 | length, then the bytes |
| Encoding.ReadMeansSpells | hocuspocu-rs/src/encoding.rs:54-79 | the reader returns v and stops at next if and only if the 1 to 10 bytes up to next are one whole integer whose value modulo 2^64 is v |
| Encoding.ReaderStopsWithinTen | hocuspocu-rs/src/encoding.rs:57-76 | it fails exactly on ten continuation bytes or on data that ends before, and never looks past ten bytes |
| Encoding.EncodedLength | hocuspocu-rs/src/encoding.rs:3-15 | one byte for each seven significant bits, and at least one |
| Encoding.U64TakesAtMostTen | hocuspocu-rs/src/encoding.rs:3-15 | a 64-bit value takes at most ten bytes |
| Encoding.UintRoundTrip | hocuspocu-rs/src/encoding.rs:3-79 | every 64-bit value is read back to the byte, whatever precedes and follows |
| Encoding.ReencodingIsNoLonger | hocuspocu-rs/src/encoding.rs:54-79 | whatever the reader accepts re-encodes to no more bytes than it read |
| Encoding.BytesRoundTrip | hocuspocu-rs/src/encoding.rs:23-107 | every byte field is read back, whatever precedes and follows |
| Encoding.StringRoundTrip | hocuspocu-rs/src/encoding.rs:17-94 | and every text field that is UTF-8 |
| Fields.ReaderFailsOnNothing | hocuspocu-rs/src/encoding.rs:54-79 | the reader of integers fails, stopping at next, if and only if no integer is spelled up to there |
| Fields.FieldIsSpelled | hocuspocu-rs/src/encoding.rs:96-107 | a field is read if and only if its length is spelled and its end fits in 64 bits and into the data, with those very bytes |
| Fields.PanicIsOverflow | hocuspocu-rs/src/encoding.rs:81-107 | reading it panics if and only if the spelled length takes its end beyond 64 bits |
| Fields.ErrorIsTruncation | hocuspocu-rs/src/encoding.rs:81-107 | it is an error, with the position behind the length, if and only if no length is spelled or the spelled one goes beyond the data |
| Fields.TextIsUtf8Field | hocuspocu-rs/src/encoding.rs:81-94 | a text is read if and only if a field is and it is UTF-8; a field that is not is an error behind its length |
| Fields.TruncatedField | hocuspocu-rs/src/encoding.rs:81-107 | a field that is cut off anywhere is an error and not a panic |
| Utf8.ValidMeansText | hocuspocu-rs/src/encoding.rs:87-93 | the UTF-8 check accepts bytes if and only if they encode a sequence of Unicode scalar values, and then only one |
| Decoders.Decoder.ReadVarUint | hocuspocu-rs/src/encoding.rs:54-79 | the loop computes the integer the bytes mean, and advances by exactly its bytes |
| Decoders.Decoder.ReadVarBytes | hocuspocu-rs/src/encoding.rs:96-107 | value, error or panic as specified, and the position after each |
| Decoders.Decoder.ReadVarString | hocuspocu-rs/src/encoding.rs:81-94 | as for bytes, and the error of text that is not UTF-8 leaves the position behind the length |
| Decoders.Decoder.PeekVarBytes | hocuspocu-rs/src/encoding.rs:109-114 | the same outcome without moving, also after an error |
| Decoders.Cursor.ReadVarUint | hocuspocu-rs-common/src/auth.rs:62-79 | the second implementation agrees with the first on value and failure for all inputs |
| Decoders.Cursor.ReadVarString | hocuspocu-rs-common/src/auth.rs:81-91 | and so for text |
| Frames.WireFormat | hocuspocu-rs/src/types.rs:10-22 | the bytes of each body: message types 0 to 8, sync types 0 to 2, authentication sub-types 0 to 2, the flag, then the field |
| Frames.FrameRoundTrip | hocuspocu-rs/src/outgoing_message.rs:12-121 | parsing what the builders wrote returns address, kind and payload and consumes every byte, with anything before and behind it |
| Frames.FramesAreUnambiguous | hocuspocu-rs/src/outgoing_message.rs:12-121 | frames are self-delimiting: equal bytes with any trailing bytes mean equal frames and equal rests |
| OutgoingMessages.OutgoingMessage.constructor | hocuspocu-rs/src/outgoing_message.rs:12-20 | begins with the address |
| OutgoingMessages.OutgoingMessage.CreateSyncMessage | hocuspocu-rs/src/outgoing_message.rs:22-26 | the type of a sync message |
| OutgoingMessages.OutgoingMessage.CreateSyncReplyMessage | hocuspocu-rs/src/outgoing_message.rs:28-32 | the type of a sync reply |
| OutgoingMessages.OutgoingMessage.CreateAwarenessUpdateMessage | hocuspocu-rs/src/outgoing_message.rs:34-40 | the body of an awareness update |
| OutgoingMessages.OutgoingMessage.WriteQueryAwareness | hocuspocu-rs/src/outgoing_message.rs:42-47 | the body of an awareness query |
| OutgoingMessages.OutgoingMessage.WriteTokenSyncRequest | hocuspocu-rs/src/outgoing_message.rs:49-55 | the body of a token request |
| OutgoingMessages.OutgoingMessage.WriteAuthenticated | hocuspocu-rs/src/outgoing_message.rs:57-64 | the body that grants a scope |
| OutgoingMessages.OutgoingMessage.WritePermissionDenied | hocuspocu-rs/src/outgoing_message.rs:66-72 | the body that denies it |
| OutgoingMessages.OutgoingMessage.WriteFirstSyncStepFor | hocuspocu-rs/src/outgoing_message.rs:74-79 | SyncStep1 behind a sync type makes a whole body |
| OutgoingMessages.OutgoingMessage.WriteSyncStep2 | hocuspocu-rs/src/outgoing_message.rs:81-86 | and so does SyncStep2 |
| OutgoingMessages.OutgoingMessage.WriteUpdate | hocuspocu-rs/src/outgoing_message.rs:88-93 | and so does an update |
| OutgoingMessages.OutgoingMessage.WriteStateless | hocuspocu-rs/src/outgoing_message.rs:95-100 | the body of a stateless message |
| OutgoingMessages.OutgoingMessage.WriteBroadcastStateless | hocuspocu-rs/src/outgoing_message.rs:102-107 | the body of a stateless broadcast |
| OutgoingMessages.OutgoingMessage.WriteSyncStatus | hocuspocu-rs/src/outgoing_message.rs:109-114 | the body of an acknowledgement |
| OutgoingMessages.OutgoingMessage.WriteCloseMessage | hocuspocu-rs/src/outgoing_message.rs:116-121 | the body of a close message |
| MessageReceivers.DispatchIsFaithful | hocuspocu-rs/src/connection.rs:412-451 | handing an action over as an error text and taking the prefix off again returns the action, for any payload, if and only if a genuine error text is no tag |
| MessageReceivers.TaggedErrorIsMisread | hocuspocu-rs/src/message_receiver.rs:160-164 | a hook that refuses with such a text makes the connection run the stateless callback instead of closing |
| MessageReceivers.PanicsIsUpToTheFrame | hocuspocu-rs/src/message_receiver.rs:50-132 | whether handling a frame on a client's connection panics is up to the frame alone: it has a field whose length does not fit where one is read |
| MessageReceivers.OwnErrorsAreUntagged | hocuspocu-rs/src/message_receiver.rs:100-106 | no error text of the receiver or the decoder is a tag, those about UTF-8 included, whatever number or detail they hold |
| MessageReceivers.BuiltFrameMeans | hocuspocu-rs/src/message_receiver.rs:50-132 | a frame that the builders wrote makes the receiver do what its body says with its exact fields |
| MessageReceivers.BuiltFrameIsDispatched | hocuspocu-rs/src/connection.rs:381-451 | and the connection in the end does that, if and only if no error text on the way is a tag |
| MessageReceivers.MessageReceiver.Apply | hocuspocu-rs/src/message_receiver.rs:29-132 | for every frame, well formed or not, the receiver returns the in-band form of the frame's meaning |
| MessageReceivers.MessageReceiver.ReadSyncMessage | hocuspocu-rs/src/message_receiver.rs:134-278 | the same for the sync branch, with the peek of the hook, the read-only exit and the unknown type |
| ReceiverOutcomes.TokenIsSynced | hocuspocu-rs/src/message_receiver.rs:107-112 | the frame of a token, for any UTF-8 key and token, anything behind it and any behaviour of hooks and library, comes to the token callback with that token, also by way of the error text |
| ReceiverOutcomes.OtherAuthIsIgnored | hocuspocu-rs/src/message_receiver.rs:113-116 | any other authentication message is ignored |
| ReceiverOutcomes.UnknownTypeIsIgnored | hocuspocu-rs/src/message_receiver.rs:118-123 | a message of any type above 7 is ignored |
| ReceiverOutcomes.UnknownSyncTypeCloses | hocuspocu-rs/src/message_receiver.rs:268-274 | a sync message of an unknown type is refused by the hook before sync if that refuses, and otherwise closes the connection with an error that names the type |
| ReceiverOutcomes.CutOffCloses | hocuspocu-rs/src/message_receiver.rs:71-112 | a field that is cut off anywhere closes the connection with the decoder's text, unless the frame is refused before it is read |
| ReceiverOutcomes.NoTextCloses | hocuspocu-rs/src/message_receiver.rs:96-112 | and so does a text that is no UTF-8 |
| ReceiverOutcomes.HeadlessCloses | hocuspocu-rs/src/message_receiver.rs:50-53 | and so does a frame that ends within its address, before its type or before its sub-type, or whose address is no UTF-8 |
| ReceiverOutcomes.OversizedPanics | hocuspocu-rs/src/message_receiver.rs:160-168 | a field whose end does not fit in 64 bits is a panic wherever the receiver reads one, before the hook is asked |
| ReceiverOutcomes.DecimalIsTheNumber | hocuspocu-rs/src/message_receiver.rs:269-272 | the number in the error text is the decimal numeral of the type |

## Left out

- The inside of yrs: deletions, the format of updates and vectors, awareness clocks and the awareness of closed clients.
- Documents.Document.EncodeStateAsUpdate: whether a diff also carries received operations that are not integrated is left open in the protocol model; the method picks the smallest diff.
- Documents.Document.ReadSyncMessage: acknowledgements (sync status) carry no operations and are not sent in the model; for a read-only SyncStep2 nothing is said about the flag. Refused messages are `RefuseMessage`.
- HandshakeModel.HandshakeDelivers: for a key of which frames were diverted to a sessionless sibling connection since its last reset nothing is stated, since those frames go to that connection.
- When two `Document` objects of one name exist: the unload checks do not see observer tasks that have not called `debounce` yet, so they can; the store model lets them come and go at will.
- Connections.Connection.HandleFront: what an applied frame does to the document is stated in `SyncModel` and `Documents`, not in the queue model.
- Hooks are arbitrary outcomes; their tables, payloads, contexts and the order of extensions are not modelled.
- Unloading: its checks, its hooks and when it happens; only the removal by name is a step. `flush_pending_stores` and the close hook are arbitrary `execute_now` calls.
- The reply frames and close events of the handshake, the awareness that is sent first, and the connected hook.
- The race between the state check and the push inside two concurrent sends and closes of one socket sink.
- Several connections of a document are entries of one map; closing does not remove the entry in the sync model but makes its channel drop what is sent.
- Cancelled callers: a caller of `create_document` that is dropped in mid-load would leave its entry in the loading map.
- Panics other than the reader's: those of hooks and of the libraries.
- TCP, TLS and WebSocket framing, signals, configuration, statistics, direct connections and the `TryFrom` tables of message types.
