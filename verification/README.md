# A2A server: engine, store and protobuf conversion

A Dafny model of the core of an Agent2Agent (A2A) server written in Rust, with
proofs of what it is for. `dafny verify dfyconfig.toml` checks everything.

Three parts are modelled.

**The engine's event pipeline** (`src/server/engine.rs`, `executor.rs`,
`types/events.rs`, `types/task.rs`). A turn's background pump takes an executor
event, draws a number from one counter shared by all tasks, appends the event to a
per-task log bounded at 256, rewrites the task's record, and only then puts it on the
turn's broadcast bus; subscribers attach to the bus, then snapshot the log, then drop
from the bus what the snapshot covered. It is modelled twice:

* `Engine.dfy`, `Executor.dfy`, `Streams.dfy`, `Artifacts.dfy`: the operations as
  classes and methods that change the engine's maps, the store, the sink and the bus
  in place, proved against specification functions in `Turns.dfy` and `Events.dfy`.
  `Turns.dfy` then proves what those functions promise over whole serial runs.
* `Pipeline.dfy`: a step machine. Every task is a lane with at most one writer at a
  time and any number of subscribers, SendMessage callers and SendStreamingMessage
  callers; every atomic step of every participant, on every task, interleaves freely.
  `Run(moves)` is the state after any list of steps; a step that cannot happen changes
  nothing. `PipelineInvariant`, `Subscribers`, `Losses`, `Waiters`, `TaskObjects` (what
  task objects in streams reflect, and their numbers), `Attachments` (what a subscriber
  found running), `Streamers` and `Reachable` prove one invariant of every reachable
  state. What follows is stated in `Delivery` (what one subscriber gets), `Reconnecting`
  (what a client gets that comes back), `PipelineTheorems` (logs, answers, terminal
  states), `PipelineRecord` (what the record is made of) and `Progress` (that nobody gets
  stuck). `SerialRuns` ties the two models together: every turn and every cancel of the
  sequential engine is a run of the machine. `Counterexamples` has traces for what fails
  without the hypotheses.

**ListTasks and the store** (`src/server/store.rs`, `list_tasks`). `Store.dfy` is the
store as a class, with its push configurations refining a plain map; `Ordering.dfy` its
sort order; `Listing.dfy` the authorization-filtering pager over the store's pager;
`TaskPaging.dfy` and `Paging.dfy` what a client that follows the tokens gets.

**Protobuf conversion** (`src/grpc_convert.rs`). `Protobuf.dfy` has the wire messages,
`JsonValues.dfy`, `Convert.dfy`, `AgentCards.dfy` and `WireRequests.dfy` both
directions and the explicit normal forms.

## Hypotheses of the pipeline theorems

* *Serial task*: turns and cancels of one task do not overlap, up to and including the
  cleanup of the registries. In the machine this is the guard of `StartTurn` and
  `StartCancel`. `Streams.OutOfOrderLogRepeats`, `Counterexamples.PumpOverwritesCanceled`
  and `Counterexamples.CleanupDropsNewerBus` show what breaks without it. Different
  tasks interleave freely.
* *No loss*: a receiver that falls more than 256 items behind skips ahead. The machine
  records when one first skips an event its replay did not cover (`gap`), and
  `Counterexamples.LagSkips` is such a loss. `Delivery.LossCondition` proves this exact:
  the promise is broken as soon as the stream then delivers something, or ends.
* *Clean resumption*: a fresh subscription; or one whose log snapshot found something past
  the client's id; or one whose id had been drawn when it attached, with no event numbered
  up to it in flight then (`Delivery.ResumesCleanly`). `Delivery.ExactlyOnceCondition`
  proves this exact. It holds for no id, for the id of any event already sent, and for
  that of a task announced on a bus (`Delivery.ExactlyOnceFromKnownId`,
  `Delivery.CaughtUpFromKnownId`).

Theorems that need neither of the last two do not assume them.

## Where the code and its comments differ

* `src/server/engine.rs:701-704` says that attaching before the log snapshot "can never
  leave a gap, regardless of how the two race", so that each event is given once. Within
  one stream nothing ever repeats (`Delivery.NeverTwice`), and from the number of
  something sent on a bus - an event, or the task announced there - nothing is lost or
  repeated, whether one looks at one stream or at two put together
  (`Reconnecting.Reconnection`). Two kinds of id behave differently:
  * Replay may hand out an event that is logged and not yet sent. A client that resumes
    with its id before it is sent gets it again (`Counterexamples.UnsettledIdIsRedelivered`;
    exactly when: `Delivery.ExactlyOnceCondition`).
  * The task object that leads a fresh subscription, or closes an idle one, takes a number
    too, and REST sends that number as an SSE id and resumes from it
    (`src/server/rest.rs:275-276`, `:384`). A client that resumes from it is not given what
    was numbered before, and may not know all of that. An event can be numbered before the
    task object and logged after it (`Counterexamples.LeadIdSkipsPending`); or it can be
    logged after the task was read, so that only the replay has it, and the client drops
    before the replay reaches it (`Counterexamples.LeadIdSkipsLogged`). Whether this can
    happen is settled when the task object gets its number: if the client knows every
    event numbered by then, it may resume from it at any time
    (`Reconnecting.TaskIdIsSafe`); `Reconnecting.TaskIdCondition` is the exact condition.
* `src/server/engine.rs:659-667` has a subscriber attach to the running turn and catch up.
  Logs outlive turns, so a subscription to a second turn is first replayed the
  INPUT_REQUIRED that closed the first one, and ends there, with nothing of the turn it
  attached to (`Counterexamples.StaleInputRequiredEndsStream`; exactly when:
  `Delivery.StaleClosingEndsStream`).
* `src/server/engine.rs:617-620` says that after a final-for-blocking status the pump
  will not write to the store again. That holds for terminal statuses and, until the
  next turn starts, for INPUT_REQUIRED (`PipelineTheorems.BlockingAnswer`); after
  AUTH_REQUIRED the pump goes on, and the answer can carry a later status
  (`Counterexamples.AuthRequiredAnswerIsLater`). It is always a record the task had, no
  older than the waking event (`PipelineTheorems.StatusAnswer`;
  `PipelineTheorems.StatusAnswerExact` says when it is that event's own).
* Inside one cancel a terminal status is not the end: an override may report Working
  after Completed, and the record follows (`Counterexamples.TerminalSurvivesEvent`). The
  cancel still ends terminal (`Turns.CancelLandsTerminal`).
* Over gRPC a page size of 0 for push configurations is read as none given and answered
  with the default, where it is refused otherwise (`WireRequests.ConfigPageSizeOverGrpc`).

## Model

| member | source | states |
|---|---|---|
| Delivery.ExactlyOnce | src/server/engine.rs:681-749 | in every reachable state, what a stream attached to a bus, cleanly resumed and without loss, has delivered is a prefix of everything retained or logged later that is past the client's id, cut after the first closing event, in strictly increasing order; at stream end it is all of it |
| Delivery.ExactlyOnceFromKnownId | src/server/engine.rs:706-717 | the same for every stream that is fresh or names something sent before it attached, be it an event or a task announced on a bus |
| Delivery.ExactlyOnceCondition | src/server/engine.rs:701-717 | a stream that has delivered something gives each event past its id once, and none other, if and only if it is fresh, or its snapshot found something, or nothing numbered up to the id was in flight when it attached |
| Delivery.LossCondition | src/server/engine.rs:1421 | a cleanly resumed stream keeps its promise if and only if it has skipped no event its replay did not cover, or has neither delivered anything nor ended since it first did |
| Reconnecting.Reconnection | src/server/engine.rs:1268-1276 | a stream and one resumed from any item it delivered - an event, or the task announced on its bus - that had been sent by then, with at most 256 events logged since, are together one gap-free stretch of the history; unless that item closed the first, they are what one unbroken stream would have given |
| Reconnecting.TaskIdCondition | src/server/engine.rs:718-748 | a client that resumes from the number of a task object, leading or closing an idle stream, misses nothing if and only if it knew every event numbered before that object, or the resumed stream's snapshot was empty and nothing the client did not know had been sent when it attached |
| Reconnecting.TaskIdIsSafe | src/server/engine.rs:718-748 | if, when the task object got its number, no event had one that the client does not know, resuming from it misses nothing whenever that is done |
| Delivery.StaleClosingEndsStream | src/server/engine.rs:1402-1408 | a finished stream got nothing of the turn it attached to if and only if the log still held a closing event of an earlier turn past its id |
| Delivery.NeverTwice | src/server/engine.rs:1388-1426 | no attached stream ever repeats or reorders anything, whatever the id it resumed from and however far it lagged |
| Delivery.CaughtUp | src/server/engine.rs:701-726 | a cleanly resumed live reader that has read its whole bus owes nothing as soon as no event is between log and bus |
| Delivery.CaughtUpFromKnownId | src/server/engine.rs:706-726 | the same for every reader that is fresh or resumed from something sent before it attached |
| Delivery.LeadFirst | src/server/engine.rs:718-723 | a fresh subscription starts with a task object, a resumed one does not repeat it; the object is the record that the events folded when it was read had left, and not terminal |
| Delivery.IdleSubscription | src/server/engine.rs:727-748 | a subscription to an idle task is such a task object alone if fresh, else every retained event past its id, once and in order, and then such a task object; no turn begun before it attached ever logs anything further |
| Delivery.BusOrIdle | src/server/engine.rs:705-726 | in every reachable state a subscription has the bus of the last turn begun when it attached, or none, and then every turn begun by then had already sent all it ever logs |
| Delivery.AttachesToRunningTurn | src/server/engine.rs:705 | attaching, in every reachable state, gives the bus of the running turn exactly if one is running |
| Delivery.SentIdsAreSettled | src/server/engine.rs:1268-1276 | nothing pending can be numbered up to the number of an event already sent or a task already announced, so either is safe to resume from |
| PipelineTheorems.BoundedLog | src/server/engine.rs:1268-1276 | each log is the last 256 entries of all ever logged, increasing, below the counter; numbers of different tasks never meet; the log holds everything after an event exactly when at most 256 came since |
| PipelineTheorems.LayerOrder | src/server/engine.rs:485-507 | at every moment of a turn sent events are a prefix of folded ones, these of logged ones, with the log ahead of the bus by at most one; the record is the fold of its prefix, the bus the announced stream of its own |
| PipelineTheorems.FinishedTurns | src/server/engine.rs:510-560 | a finished turn sent everything it logged, stopped at its first closing event, and its successor started from exactly the record it left |
| PipelineTheorems.BlockingAnswer | src/server/engine.rs:604-622 | a SendMessage woken by a terminal status, or by INPUT_REQUIRED before another turn began, answers with the fold of its whole turn, in exactly the waking status, only its history cut to the length asked for |
| PipelineTheorems.StatusAnswer | src/server/engine.rs:572-577 | whatever status woke it, a SendMessage answers with a record the task really had, folded at least through the waking event |
| PipelineTheorems.StatusAnswerExact | src/server/engine.rs:616-622 | where no other turn began before the final read, that record is the waking event's own if and only if the events folded since carried no message, left the status as it was and changed no artifact |
| PipelineTheorems.OtherAnswers | src/server/engine.rs:607-649 | a bare-message answer is the message that was sent; one given at once goes only to a caller that does not block, and is the announced task, or after a lag one made of the item it read; a turn that ends without waking the caller is answered with the record it left, or refused exactly when there is none |
| PipelineTheorems.AnswersInTime | src/server/engine.rs:604-641 | no caller reads past an item that ends its wait; one that does not block and lost nothing is answered with the first item of its turn, the task as it stood before or the bare message |
| PipelineTheorems.StreamingCaller | src/server/engine.rs:1361-1377 | at every moment a SendStreamingMessage caller has been given items of its turn's stream in order and none twice; without lag they are a prefix of the stream, and once over the whole turn |
| PipelineTheorems.TerminalIsAbsorbing | src/server/engine.rs:503-511 | once a record is terminal with no cancel at work, no further interleaving of any steps on any tasks changes it |
| PipelineTheorems.FinishedCancel | src/server/engine.rs:904-942 | a cancel that is over has left the task terminal, under every interleaving |
| Progress.SubscribersGetThere | src/server/engine.rs:1388-1426 | from every reachable state a subscriber comes, by its own steps alone, to the end of its bus, and to the end of its stream if the bus is closed |
| Progress.RefusedExactly | src/server/engine.rs:688-699 | a subscription is refused exactly if there is no task or it is in one of the four terminal states |
| Progress.WaitersGetThere | src/server/engine.rs:604-649 | from every reachable state a caller of SendMessage comes to its answer by its own steps, unless it has read all of a bus that is still open |
| Progress.StreamersGetThere | src/server/engine.rs:1361-1377 | the same for a caller of SendStreamingMessage |
| Progress.WritersGetThere | src/server/engine.rs:477-561 | from every reachable state the turn or cancel at work can come to its end |
| Progress.EveryTaskCanEnd | src/server/engine.rs:844-943 | from every reachable state a task that exists can be brought to a terminal state |
| SerialRuns.TurnStarts | src/server/engine.rs:428-435 | starting a turn registers its empty bus, with the client on it from the start, to wait or to stream |
| SerialRuns.TurnsRun | src/server/engine.rs:457-561 | whatever an executor reports and however it ends, the machine can run the turn exactly as the sequential engine does: same events logged, same record, same stream |
| SerialRuns.CancelsRun | src/server/engine.rs:904-942 | the same for every cancel |
| PipelineRecord.RecordConservation | src/server/engine.rs:1278-1319 | at every moment the history is, turn by turn and cancel by cancel, the seed of each task-shaped turn and its status messages, as far as folded; nothing is lost, repeated or reordered |
| PipelineRecord.RecordArtifacts | src/server/engine.rs:1300-1316 | at every moment the stored artifacts are what the whole update sequence declares: distinct ids, one for exactly every id ever mentioned, never without parts |
| Reachable.AlwaysGood | src/server/engine.rs:457-561 | every interleaving of any steps on any tasks keeps the invariant of log, record, buses, numbers, subscribers, task objects and waiting and streaming callers |
| PipelineInvariant.StepKeepsLane | src/server/engine.rs:477-561 | every single step keeps a task's log, record and buses consistent |
| Subscribers.SubStepKeeps | src/server/engine.rs:688-748 | every step of a subscriber keeps what it has delivered a stretch of the task's history |
| Subscribers.SubKept | src/server/engine.rs:705-716 | no step of the pump, a cancel or another reader disturbs a subscription |
| Subscribers.SkippedIffCovered | src/server/engine.rs:1412-1414 | a live event is dropped exactly when the replay already covered it |
| Waiters.ClosingIsLast | src/server/engine.rs:503-507 | a closing status is the last item of its bus, the record is the fold of exactly what was sent, and nothing follows a terminal one |
| Counterexamples.UnsettledIdIsRedelivered | src/server/engine.rs:701-717 | a reachable state in which a client that resumes from an id it was given by replay is given the same event again |
| Counterexamples.LeadIdSkipsPending | src/server/engine.rs:718-723 | a reachable state in which a client that resumed from its leading task has read everything and was never given an event that is in the log and was sent |
| Counterexamples.LeadIdSkipsLogged | src/server/engine.rs:681-723 | the same for an event that was logged before the leading task got its number and after that task was read; the task object it resumed from still says Working |
| Counterexamples.StaleInputRequiredEndsStream | src/server/engine.rs:1402-1408 | a reachable state in which a fresh subscription to a running second turn has ended with the INPUT_REQUIRED of the first and nothing else |
| Counterexamples.AuthRequiredAnswerIsLater | src/server/engine.rs:616-622 | a reachable state in which a SendMessage woken by AUTH_REQUIRED is answered with a Completed task |
| Counterexamples.TerminalSurvivesEvent | src/server/engine.rs:1278-1299 | one more event keeps a terminal record terminal exactly if it is not a status update to a state that is not terminal |
| Counterexamples.PumpOverwritesCanceled | src/server/engine.rs:857-943 | a turn starts, a cancel answers with a terminal task, the turn's pump applies one more event: the stored record says Working |
| Counterexamples.CleanupDropsNewerBus | src/server/engine.rs:559-560 | two turns start on one task and the older one runs to its end: the newer one, which has sent nothing, is registered nowhere |
| Counterexamples.LagSkips | src/server/engine.rs:1421 | a reachable state in which a reader that fell 257 behind has delivered event 4 and not event 3, the first it owes |
| Streams.StreamThroughClose | src/server/engine.rs:1361-1377 | the live stream is every received event through the first closing one |
| Streams.ReplayThenLive | src/server/engine.rs:1388-1426 | the subscription stream is lead, replay and the live events the replay did not cover, through the first closing one |
| Streams.OutOfOrderLogRepeats | src/server/engine.rs:1268-1272 | numbers 5 and 6 logged as 6, 5 by two writers get event 6 delivered twice |
| Events.PushedTail | src/server/engine.rs:1272-1275 | pushing and popping keeps the log the last 256 of everything appended |
| Events.LogHoldsAllSince | src/server/engine.rs:1268-1276 | what the log holds past an id is everything after it exactly when at most 256 followed |
| ServerEngine.Engine.constructor | src/server/engine.rs:141-162 | an engine starts with empty registries and logs and a counter at 1 |
| ServerEngine.Engine.ApplyEvent | src/server/engine.rs:1256-1322 | draws one number, pushes onto the one log, and turns the one record into the specified one; everything else stays |
| ServerEngine.Engine.PumpEvent | src/server/engine.rs:485-504 | announces the task first if the event opens a task-shaped turn, and sends the event under the very number it was logged with |
| ServerEngine.Engine.PumpLoop | src/server/engine.rs:475-508 | the receive loop processes exactly the non-empty events through the first closing one, and knows whether one was an outcome |
| ServerEngine.Engine.Pump | src/server/engine.rs:457-561 | a whole turn: the bus carried the announced stream without gaps in numbers, the log grew by the applied events, the record is their fold, other tasks' logs are untouched, bus and token are gone |
| ServerEngine.Engine.CheckContentTypes | src/server/engine.rs:297-309 | finds the first part of a media type the agent did not declare, and none exactly if there is none or it declared no types at all |
| ServerEngine.Engine.StartExecution | src/server/engine.rs:344-435 | refuses or admits exactly as specified, files the push configuration that came with a new task, registers a fresh empty bus and token only when it admits, and changes nothing otherwise |
| ServerEngine.AdmissionMeaning | src/server/engine.rs:311-424 | a message without parts, or with a part of an undeclared type, is refused for that; a turn starts only on a visible, non-terminal task under its own ids, announcing that very task, or on a fresh one |
| ServerEngine.ContinuationMeaning | src/server/engine.rs:315-379 | a message to an existing task is refused for the first of: no such task, another context, not visible, terminal; otherwise its turn runs in the task's own context |
| ServerEngine.NewTaskMeaning | src/server/engine.rs:331-424 | any other message is refused for its push configuration, or starts a turn on a fresh Submitted task in the message's context, or a fresh one, with the message as its history |
| ServerEngine.InlineConfigMeaning | src/server/engine.rs:393-408 | a configuration that came with a new task is filed under that task in the sender's tenant; no record and no other task's configurations change |
| ServerEngine.Engine.RunCancel | src/server/engine.rs:877-942 | applies what the executor emitted, makes up a Canceled status if needed, returns the stored task, and leaves other tasks' logs alone |
| ServerEngine.Engine.CancelTask | src/server/engine.rs:844-943 | no task is TaskNotFound, a hidden one NotAuthorized, a terminal one TaskNotCancelable, a failing override ExecutorError, and each leaves store and logs alone; any other cancel leaves the task in the last status the override gave if that is terminal and else in a Canceled one, logged last, with the old history as a prefix; it fires exactly the task's own token, once the checks pass, and is one cancel of the serial runs |
| ServerEngine.StreamAfterTurnSnoc | src/server/engine.rs:485-507 | repeating the one-event effect gives the whole-turn effect on bus, counter and log |
| ServerEngine.ProcessedPrefix | src/server/engine.rs:477-508 | where the loop stops, it has looked at exactly the processed part of its input |
| Executor.EventSink.constructor | src/server/executor.rs:54-64 | a sink starts empty |
| Executor.EventSink.Reply | src/server/executor.rs:69-76 | a reply is given a context id, and no task id |
| Executor.EventSink.Status | src/server/executor.rs:79-81 | a bare status carries no message |
| Executor.EventSink.StatusWithMessage | src/server/executor.rs:85-101 | the status message is given both ids where it lacks them and keeps those it has |
| Executor.EventSink.PublishArtifact | src/server/executor.rs:124-126 | a complete artifact is one replacing, final chunk |
| Executor.EventSink.PublishChunk | src/server/executor.rs:131-141 | an artifact update carries the sink's ids and the given flags |
| Executor.EventSink.DefaultCancel | src/server/executor.rs:170-173 | reports Canceled and nothing else |
| Executor.SinkMessagesCarryIds | src/server/executor.rs:69-120 | if every operation's events came through a sink, every recorded message but the clients' own carries both ids |
| Executor.DefaultCancelSuffices | src/server/engine.rs:904-911 | with the default cancel nothing is made up and the history does not change |
| Turns.StreamShape | src/server/engine.rs:1222-1238 | a task-shaped stream is one task object and then the kept events in order, closed at most once and last; a turn opening with a bare message yields exactly that |
| Turns.OutcomeTotality | src/server/engine.rs:510-557 | a finished turn has a real outcome or its executor returned without one; Failed is made up exactly if the executor failed before any outcome, once and last, and tells the client the error, or the panic marked as one, under both ids |
| Turns.OutcomesAndClosings | src/types/events.rs:101-128 | an outcome is a bare message or a status in one of six states; it closes the stream unless it is AUTH_REQUIRED |
| Turns.ProcessedMeaning | src/server/engine.rs:477-508 | of what an executor reports exactly the events that are no artifact updates without parts are applied, in order, through the first that ends the turn |
| Turns.RecordMeaning | src/server/engine.rs:1278-1319 | the record in closed form: its own ids, or the turn's; the last status reported, Working before any; the turn's message and the statuses' messages after the old history; the artifact updates merged in |
| Turns.TerminalEndsTurn | src/server/engine.rs:503-507 | within a turn the record is terminal only after its last event |
| Turns.HistoryConservation | src/server/engine.rs:475-557 | over any serial run the history is the old one followed by each operation's contribution, in order |
| Turns.TerminalAbsorbs | src/server/engine.rs:371-379 | once terminal, no later turn or cancel changes the record |
| Turns.CancelLandsTerminal | src/server/engine.rs:878-942 | for every event list an override emits the record ends terminal with the old history as a prefix: in the last status reported if that is one of the four terminal ones, otherwise in a Canceled one with nothing else changed |
| Turns.ArtifactMeaning | src/server/engine.rs:1340-1355 | over a task's life its artifacts are what the update sequence declares: one per surviving version, in opening order, distinct, never empty |
| Turns.RecordedMessagesCarryIds | src/server/executor.rs:85-120 | every recorded message other than a client's own carries a context id and a task id |
| Artifacts.MergeArtifact | src/server/engine.rs:1340-1355 | appends to the first artifact of that id, or replaces all of them, or adds one; nothing else of the task changes |
| Artifacts.MergeAllIsDeclared | src/server/engine.rs:1340-1355 | folding updates one by one gives, per id, the parts of all updates since its last replacing one |
| Artifacts.MergeAllWellFormed | src/server/engine.rs:1165-1167 | ids stay distinct, every mentioned id is present, and no artifact is empty if no update was |
| Store.InMemoryTaskStore.constructor | src/server/store.rs:69-71 | a store starts empty |
| Store.InMemoryTaskStore.Get | src/server/store.rs:89-95 | returns the record under the tenant and id |
| Store.InMemoryTaskStore.Put | src/server/store.rs:97-102 | replaces exactly the record under the tenant, absent or empty being the same, and the task's own id |
| Store.InMemoryTaskStore.CollectMatching | src/server/store.rs:105-131 | finds each matching task exactly once, in whatever order the map yields |
| Store.InMemoryTaskStore.List | src/server/store.rs:104-164 | returns one page of the unique sorted listing, 50 tasks unless between 1 and 100 are asked for, its resume token and the constant total, artifacts cleared unless asked for |
| Store.InMemoryTaskStore.PutPushConfig | src/server/store.rs:166-180 | is a map update at the configuration's id, given a fresh one only if it has none; other tasks and tenants keep theirs |
| Store.InMemoryTaskStore.GetPushConfig | src/server/store.rs:182-195 | is a map lookup |
| Store.InMemoryTaskStore.ListPushConfigs | src/server/store.rs:197-208 | lists exactly the values of the map |
| Store.InMemoryTaskStore.DeletePushConfig | src/server/store.rs:210-218 | removes the key and reports whether it was there; other tasks and tenants keep theirs |
| Store.ListingMeaning | src/server/store.rs:106-141 | the listing holds exactly the tenant's tasks of the context and state asked for and not older than the time asked for, the most recently updated first, undated ones last, and at the same time by id |
| Store.ListingUnique | src/server/store.rs:136-141 | every sorted enumeration of the matching tasks is the same list |
| Store.StoreOpsValid | src/server/store.rs:166-218 | after any operations under any tenants configuration ids are set and pairwise distinct |
| Store.TenantIsolation | src/server/store.rs:83-218 | whatever mix of operations under any tenants is done, every lookup, listing and configuration list under one of them is as if only the operations under that very name had been done; those of others alone change nothing |
| Store.AbsentTenantIsEmptyTenant | src/server/store.rs:78-85 | no tenant and the empty tenant are one namespace |
| Ordering.BeforeTotal | src/server/store.rs:136-141 | the order decides between any two tasks with different ids |
| Ordering.BeforeMeaning | src/server/store.rs:136-141 | it is: the later timestamp first, in seconds and then nanoseconds, no timestamp last, and at the same time the id that is smaller in the first character they differ in |
| Ordering.SortDeterministic | src/server/store.rs:106-141 | two enumerations of the same tasks sort to the same list, whatever the hash map's order |
| Paging.ChunksPartition | src/server/store.rs:144-155 | following tokens through fixed-size pages partitions the list; every page but the last is full |
| Paging.PageStartMeaning | src/server/store.rs:144-149 | a page begins at the task its token names, and at the beginning without a token or with one that names nothing any more |
| ListOperations.TakeVisible | src/server/engine.rs:801-818 | one page is scanned up to the task that fills the caller's page, and the resume token names the next task |
| ListOperations.ScanPages | src/server/engine.rs:783-830 | the scan over at most twenty store pages finds and ends exactly where one plain scan of the whole list would |
| ListOperations.ListTasks | src/server/engine.rs:775-841 | refuses exactly bad page sizes and history lengths; otherwise returns that scan, trimmed, with the resume token and the total |
| ListOperations.AnswerMeaning | src/server/engine.rs:775-841 | a call is refused exactly for a page size outside 1 to 100 or a negative history length; otherwise every task in it is a stored task of the tenant that the filters admit and the caller may see, cut to the history asked for, without artifacts unless asked for, the most recently updated first |
| Turns.TrimmedHistory | src/server/engine.rs:1169-1181 | trimming keeps the most recent messages, as many as asked for or all, and touches nothing else |
| ListOperations.AnswersAreClientPages | src/server/engine.rs:832-840 | the page and token one call returns are the first of a client's pages and the way to the rest |
| ListOperations.StorePagesPartition | src/server/store.rs:144-157 | following the store's own tokens partitions the listing |
| ListOperations.ListPushNotificationConfigs | src/server/engine.rs:1005-1041 | refuses everything without push support, then hidden tasks, then bad page sizes, and otherwise returns one page of the sorted configurations |
| ListOperations.ConfigAnswerMeaning | src/server/engine.rs:1005-1041 | a call is refused for the first of: no push support, a hidden task, a bad page size; otherwise its configurations are the task's own, by id, as many as fit unless there are no more |
| ListOperations.ConfigAnswersAreChunks | src/server/engine.rs:1020-1040 | the page and token one call returns are the first of a client's pages and the way to the rest |
| ListOperations.ConfigPagesPartition | src/server/engine.rs:1014-1040 | following tokens through a task's configurations yields each exactly once |
| TaskPaging.CallBounds | src/server/engine.rs:788-830 | a page is no longer than asked for, short only at the end or after twenty store pages; a call looks at no more than these and moves on by at least a page |
| TaskPaging.PagesComplete | src/server/engine.rs:796-829 | from any token on, the pages put together are exactly the visible rest of the list |
| TaskPaging.ListTasksComplete | src/server/engine.rs:764-841 | following tokens from the start yields the whole authorized subsequence, nothing repeated or left out, however visible and hidden tasks alternate |
| TaskPaging.PagesBounded | src/server/engine.rs:29 | a client makes at most max(1, ceil(n / page size)) calls |
| JsonValues.IntegersThatTravel | src/grpc_convert.rs:110 | an integer survives exactly if its magnitude is a multiple of the unit in the last place of a double; 2^53 + 1 does not |
| JsonValues.IntegersArriveRounded | src/grpc_convert.rs:110 | every other integer arrives as the nearest double, halfway between two the even one |
| JsonValues.TreesThatTravel | src/grpc_convert.rs:91-118 | a JSON tree arrives as it was exactly if all its numbers are doubles; only null, no kind and numbers that are not finite arrive as null |
| JsonValues.JsonTrip | src/grpc_convert.rs:78-118 | any JSON tree comes back with every number a double and nothing else changed; a second trip is the identity |
| JsonValues.DecodedIsNormal | src/grpc_convert.rs:91-103 | whatever value comes off the wire, NaN and infinities included, decodes to a normal tree |
| Convert.CollectMeaning | src/grpc_convert.rs:221-225 | collecting results succeeds exactly if all do, element by element |
| Convert.StatesTravel | src/grpc_convert.rs:135-177 | each task state and each role travels under its own number of the specification, and a number that is none is read as unspecified |
| Convert.InstantsThatTravel | src/grpc_convert.rs:122-131 | an instant survives exactly if chrono can hold it; negative nanoseconds count as none |
| Convert.MessageTravels | src/grpc_convert.rs:215-243 | a message arrives in its normal form, and the normal form unchanged |
| Convert.TaskTravels | src/grpc_convert.rs:266-275 | decoding the encoding of any task succeeds with its normal form; normalizing is idempotent and a second trip the identity |
| Convert.TaskArrives | src/grpc_convert.rs:266-275 | every task arrives, and exactly as it was if and only if chrono can hold its timestamp, all its JSON numbers are doubles and no optional string in it is set but empty, at every depth |
| Convert.TaskWire | src/grpc_convert.rs:232-275 | the encoding of a task is exactly the wire task that has every field under its own name, with the state and role numbers of the specification, empty for absent, all parts, artifacts and messages in order |
| Convert.TaskDecodes | src/grpc_convert.rs:716-760 | a task decodes exactly if its status is there and every part at every depth has content, and then to something normal; else the argument is invalid |
| Convert.TaskMisses | src/grpc_convert.rs:716-760 | a task fails to decode exactly if its status is missing or the content of one of the parts in its status message, artifacts or history |
| Convert.StreamResponseTravels | src/grpc_convert.rs:277-310 | the same for every stream event |
| Convert.StreamResponseArrives | src/grpc_convert.rs:277-310 | every event arrives, and exactly as it was under the same condition |
| Convert.StreamResponseWire | src/grpc_convert.rs:277-310 | the same for every event |
| Convert.StreamResponseDecodes | src/grpc_convert.rs:762-809 | an event decodes exactly if complete; a missing payload is internal, anything else missing an invalid argument |
| Convert.TravelKeepsRole | src/types/events.rs:101-128 | travelling never changes whether an event closes a stream or is an outcome |
| AgentCards.CardTravels | src/grpc_convert.rs:672-705 | decoding inverts encoding of any agent card up to its normal form |
| AgentCards.CardArrives | src/grpc_convert.rs:672-705 | every card arrives, and exactly as it was if and only if no optional string of its interfaces and schemes is set but empty and the numbers in its extensions and signatures are doubles |
| AgentCards.CardDecodes | src/grpc_convert.rs:996-1089 | a card decodes exactly if capabilities, every scheme and every OAuth flow are present |
| AgentCards.CardMisses | src/grpc_convert.rs:996-1089 | a card fails to decode exactly if its capabilities, the kind of a scheme or the flow of an OAuth 2 scheme are missing |
| WireRequests.ResultTravels | src/grpc_convert.rs:312-319 | a SendMessage result arrives in its normal form |
| WireRequests.ResultArrives | src/grpc_convert.rs:312-319 | every result arrives, and exactly as it was if and only if its task or message does |
| WireRequests.TasksResponseTravels | src/grpc_convert.rs:826-837 | a ListTasks response arrives with every task normal and the same token and counts |
| WireRequests.TasksResponseArrives | src/grpc_convert.rs:826-837 | every listing arrives, and exactly as it was if and only if each of its tasks does |
| WireRequests.SendTravels | src/grpc_convert.rs:1093-1109 | a SendMessage request arrives in its normal form |
| WireRequests.SendArrives | src/grpc_convert.rs:1093-1109 | every send request arrives, and exactly as it was if and only if nothing in it is set but empty and its numbers are doubles |
| WireRequests.SendDecodes | src/grpc_convert.rs:388-400 | it decodes exactly if the message is there and all its parts have content |
| WireRequests.ListTravels | src/grpc_convert.rs:410-425 | a ListTasks request arrives in its normal form |
| WireRequests.ListArrives | src/grpc_convert.rs:410-425 | a listing request arrives exactly as it was if and only if tenant, context and token are not set but empty, the status not UNSPECIFIED and its instant one chrono can hold |
| WireRequests.ListingOverGrpc | src/grpc_convert.rs:1119-1133 | a listing request over gRPC matches the same tasks in the same order unless it asks for the empty context or UNSPECIFIED status, where it matches at least as much |
| WireRequests.ConfigsRequestTravels | src/grpc_convert.rs:462-471 | a configuration listing request arrives in its normal form |
| WireRequests.ConfigsRequestArrives | src/grpc_convert.rs:462-471 | a configuration listing request arrives exactly as it was if and only if tenant and token are not set but empty and the page size is not 0 |
| WireRequests.ConfigPageSizeOverGrpc | src/grpc_convert.rs:1170-1179 | the effective page size is the same over gRPC exactly if the client did not ask for 0 |

## Left out

- Transports (JSON-RPC, REST, SSE and gRPC framing), all clients, card signing, error texts and error-code tables.
- Push delivery: `notify_push_configs` has no effect on engine state here; whether a webhook address is acceptable is a parameter.
- Authentication and scoping are supplied by the application: `authorize_task` is a function of the task.
- The streaming capability check before streaming and subscribing.
- SendMessage's own reading of its options: `returnImmediately` and the refusal of a negative history length. A caller of the machine comes with the options read.
- GetTask, and creating, fetching and deleting push configurations through the engine: thin wrappers over what is modelled.
- UUIDs and clock readings are parameters. New ids are not assumed fresh unless a statement says so.
- The sequence counter is unbounded; the source's wraps at 2^64.
- Checking a task and registering its bus are one step of the machine, since turns of one task are serial; the sequential `StartExecution` keeps them apart.
- `since` ids that were never drawn: `Delivery.ExactlyOnceCondition` is about numbers the counter had given out.
- A JSON number that is not written as an integer is a real number and a finite wire double is a real number: negative zero and the rounding of decimal text are not modelled. Rounding of integers is.
- Timestamps are a pair of seconds and nanoseconds, wider than chrono's own type; where that matters a statement asks for an instant chrono can hold. Its limits are those of chrono 0.4, which is not part of this model.
- Hash-map iteration order is modelled as an arbitrary choice, and shown not to matter.
- ListOperations.ListTasks: assumes non-empty task ids, which a token must be; the store does not change between the calls of one client.
- ListOperations.ListTasks: `total_size` is cast to 32 bits in the source; no list here is that long.
