# Verified model of the Jyowo daemon

Jyowo's daemon drives agents from durable event streams. This project models the
parts of it whose correctness spans several threads, restarts or whole runs, and
proves what they promise:

- **Streams and store** (`TaskStream`, `StreamLaws`, `StoreLaws`): the event
  reducer, the optimistic transaction with its idempotency inbox, and the laws of
  every accepted stream.
- **Question broker** (`QuestionValidation`, `QuestionProtocol`,
  `QuestionAgreement`, `QuestionHazards`, `QuestionReuse`, `QuestionBroker`): engine calls, client
  answers, invalidations, steering commands and the clock as one step system;
  agreement over all runs; the imperative `ask` as a run of that system.
- **Permission broker** (`PermissionProtocol`, `PermissionInbox`,
  `PermissionFailClosed`, `PermissionContexts`, `PermissionGuarantees`,
  `PermissionHazards`, `PermissionBroker`): the same for permissions, where the law is fail-closed.
- **Startup recovery** (`ToolHistory`, `RecoveryBatch`, `Recovery`,
  `RecoveryService`): checkpoints against full replay, completeness, idempotence,
  crashes, and the paged scan.
- **The daemon's writes** (`DaemonRuns`, `DaemonStarts`, `DaemonHazards`, `LostRaces`):
  everything that changes the durable state as one step system from the empty
  store; what recovery and the brokers start from holds in every reachable state.
- **Background agents** (`BackgroundAgents`, `BackgroundLaws`, `BackgroundRuns`,
  `BackgroundManager`): the state machine as plans of single writes, with a crash
  possible between any two of them.
- **Queue** (`Queue`, `QueueHazards`): message life cycle, revisions and order over
  whole runs.
- **Text and bytes** (`PathScanner`, `Announcement`, `BlobRange`,
  `DeferredTools`, `ContextPatches`, `McpNames`, `Text`).

How the model relates to the code:

- Ids are numbers, ordered as the code orders their text. Time is an integer that never goes back, and a timer fires
  strictly after its deadline. Two command payloads have the same stored hash
  exactly if they are equal.
- Redaction is a parameter: the theorems hold for every redactor.
- Code that suspends (locks released, `await`) is cut into steps there. The
  methods of the broker classes take what other threads do before each of their
  steps as a parameter and are proved to be runs of the step system, so theorems
  about all runs apply to them. A guard that lives through an `if let` body makes
  removal and send one step (question completion, permission cancellation); in
  `complete_engine_waiter` they are two.
- Clients that answer, invalidate or steer are steps of the same system.
- A plan of the background manager is the list of its single writes; the class is
  proved to perform exactly that list, and a crash is a prefix of it.

Where the code does not do what is expected of it, the model follows the code,
shows a concrete run or input, and states exactly when the expectation is met:

- A steering command that was accepted before and is sent again cancels whatever
  question or permission is pending now, without invalidating it in the stream
  (`AgreementFailsUnderReplay`, `PermissionOrphaned`). The theorems on all runs
  exclude exactly this step (`NoCrossReplay`); the two
  `SteeringOrphansExactlyOnReplay` show that nothing else leaves an orphan.
- Question ids are not checked for reuse. A second question under an answered id can
  return the old answer (`OldAnswerReturned`), and one under an id that was only
  withdrawn can lose its answer (`WithdrawnIdLosesAnswer`), so agreement is stated
  for calls whose id was new (`Unique`). Fail-closed needs neither condition.
- The test at `crates/jyowo-harness-daemon/src/permission_broker.rs:1300` is named
  after a committed resolution winning over the timeout. That holds unless another
  thread has taken the waiter and not sent yet (`TimeoutReadsBack`,
  `GrantRecordedAndDenied`).
- An engine is spawned before its start is marked as delivered, and recovery skips
  undelivered starts. What it asked in between stays pending after the pass
  (`EarlyRequestSurvivesRecovery`); nothing else does (`RecoveryClearsExactly`).
- A message submitted to an idle task is consumed ahead of queued ones
  (`LaterMessageOvertakes`, `IdleSubmitOvertakesExactly`).
- Starting a background agent under a used id writes the journal before the insert
  fails (`UsedStartBreaksJournal`, `UsedStartLosesJournal`).
- A recovery attempt that lost a race blocks every later one for the same run
  (`LostRaceBlocksStartup`, `LostRaceIsPermanent`). What else makes a startup fail is
  stated exactly (`PassSucceedsExactly`).
- A first tool change that repeats a name keeps the repetition through merging
  (`RepeatSurvives`, `FoldRepeatsExactly`).
- Canonical MCP names collide when an underscore stands at the boundary
  (`PrintCollides`, `PrintCollidesExactly`).

## Model

| member | source | states |
|---|---|---|
| `StreamLaws.OneForegroundInteraction` | crates/jyowo-harness-journal/src/task_projection.rs:151-676 | every accepted stream replays to a projection with at most one pending interaction, whose run and task states say which one it is |
| `StreamLaws.QuestionEndsOnce` | crates/jyowo-harness-journal/src/task_projection.rs:151-676 | in every accepted stream a question asked once is resolved or invalidated at most once, never both, and not while it is pending |
| `StreamLaws.PermissionEndsOnce` | crates/jyowo-harness-journal/src/task_projection.rs:151-676 | the same law for permissions |
| `StoreLaws.TransactLogs` | crates/jyowo-harness-journal/src/task_store.rs:1424-1690 | streams change only when a fresh command is accepted, and then exactly its decided events are appended to exactly its stream; a valid store stays valid |
| `StoreLaws.TransactInbox` | crates/jyowo-harness-journal/src/task_store.rs:4749-4860 | a fresh command that is accepted or rejected leaves exactly its outcome under its idempotency key, an aborted one changes nothing; a repeated one changes nothing and is told the recorded outcome if it is the same command, a conflict otherwise |
| `StoreLaws.TransactOne` | crates/jyowo-harness-journal/src/task_store.rs:1424-1690 | a fresh command at the current version whose one-event decision the reducer accepts is accepted, and the view moves by exactly that event |
| `QuestionValidation.ValidateOptions` | crates/jyowo-harness-daemon/src/question_broker.rs:526-586 | accepts exactly the option lists whose texts are in bounds and whose ids are distinct |
| `QuestionValidation.ValidateRequest` | crates/jyowo-harness-daemon/src/question_broker.rs:526-586 | the loop over growing id sets accepts exactly the valid requests, whatever the order of the checks |
| `QuestionValidation.ValidateAnswer` | crates/jyowo-harness-daemon/src/question_broker.rs:588-641 | accepts exactly the answers whose selections are offered, distinct and few enough, with custom text only where allowed |
| `QuestionValidation.ValidateResponse` | crates/jyowo-harness-daemon/src/question_broker.rs:588-641 | accepts exactly the valid responses to the questions asked |
| `QuestionValidation.EveryQuestionAnsweredOnce` | crates/jyowo-harness-daemon/src/question_broker.rs:588-641 | equal counts and distinct ids force the answers of a valid response to cover every question exactly once |
| `QuestionAgreement.StepKeeps` | crates/jyowo-harness-daemon/src/question_broker.rs:91-505 | every step of every party (call, client, invalidation, steering, delivery, clock) keeps the agreement invariant, except a steering acceptance replayed onto another question |
| `QuestionAgreement.AskAgreesWithStream` | crates/jyowo-harness-daemon/src/question_broker.rs:91-139 | over every interleaving: when `ask` has returned, the stream holds a resolution of the request if and only if the call returned Answered or Declined; that reply is the durable copy or the submitted response it redacts, and the response was valid for the questions |
| `QuestionAgreement.NoLateAnswer` | crates/jyowo-harness-daemon/src/question_broker.rs:91-139 | if `ask` returned TimedOut, Cancelled or an error, no stream holds a resolution of its request, now or after any continuation of the run |
| `QuestionAgreement.OneRequestPerCall` | crates/jyowo-harness-daemon/src/question_broker.rs:167-219 | each call makes at most nine attempts and records its request exactly once if at all; the request ends at most once; every stream stays coherent |
| `QuestionHazards.LiveAnswerIsAccepted` | crates/jyowo-harness-daemon/src/question_broker.rs:247-311 | while its question is pending, a valid, unexpired answer at the current version is accepted and its redacted form is what the stream holds; the looked-up context never disagrees with the stream |
| `QuestionHazards.PendingIsLive` | crates/jyowo-harness-daemon/src/question_broker.rs:141-219 | a waiting call whose question is pending has its context and its waiter registered |
| `QuestionHazards.SteeringOrphansExactlyOnReplay` | crates/jyowo-harness-daemon/src/question_broker.rs:382-410 | an accepted steering command always cancels the waiting call, and leaves the question pending without a context if and only if the acceptance was replayed from a command that did not invalidate it |
| `QuestionHazards.ReplayedSteeringBreaksAgreement` | crates/jyowo-harness-daemon/src/question_broker.rs:382-410 | after any such replay a client that looked its context up in time still gets its answer recorded, although the call returned Cancelled |
| `QuestionHazards.AgreementFailsUnderReplay` | crates/jyowo-harness-daemon/src/question_broker.rs:382-410 | a concrete run from a fresh daemon in which this happens: two-directional agreement needs its guard |
| `QuestionReuse.ReusedIdReturnsOldAnswer` | crates/jyowo-harness-daemon/src/question_broker.rs:115-139 | question ids are not checked for reuse: whenever a question is withdrawn and its call times out before the notice, the call returns the latest answer recorded under the id, TimedOut without one, although its own question got no answer |
| `QuestionReuse.OldAnswerReturned` | crates/jyowo-harness-daemon/src/question_broker.rs:115-139 | a run from a fresh broker: question 5 is asked and declined, asked again and withdrawn, and the second call finishes with the answer to the first |
| `QuestionReuse.LeftoverNoticeLosesAnswer` | crates/jyowo-harness-daemon/src/question_broker.rs:313-347 | a notice still owed for an earlier question under the same id cancels the waiting call, while a client that looked its question up in time gets its answer recorded |
| `QuestionReuse.WithdrawnIdLosesAnswer` | crates/jyowo-harness-daemon/src/question_broker.rs:313-347 | a run from a fresh broker without steering, in which the id was only withdrawn before: the second call returns Cancelled and its answer is recorded |
| `QuestionHazards.AskWaits` | crates/jyowo-harness-daemon/src/question_broker.rs:91-114 | while its segment runs with nothing pending, a valid request under an unreserved id gets its call waiting, its context and waiter registered and its redacted question pending |
| `QuestionReuse.AnswerReaches` | crates/jyowo-harness-daemon/src/question_broker.rs:247-311 | a valid answer in time to the question a registered call waits on is recorded in redacted form, returned to the call unredacted, and leaves the segment running |
| `QuestionBrokers.QuestionBroker.ReserveRequest` | crates/jyowo-harness-daemon/src/question_broker.rs:141-165 | registers context and waiter together, or changes nothing, exactly as the protocol step does |
| `QuestionBrokers.QuestionBroker.CommitRequest` | crates/jyowo-harness-daemon/src/question_broker.rs:167-219 | the version read and the retry loop, with other threads moving before each step, are a run of protocol steps that ends waiting or releasing after at most nine attempts |
| `QuestionBrokers.QuestionBroker.InvalidateRuntimeRequest` | crates/jyowo-harness-daemon/src/question_broker.rs:352-380 | the version read and the withdrawal loop, with other threads moving before each step, are a run of protocol steps; it reports whether a withdrawal was accepted |
| `QuestionBrokers.QuestionBroker.NotifyWaiter` | crates/jyowo-harness-daemon/src/question_broker.rs:475-488 | removes the waiter and fills its channel in one critical section |
| `QuestionBrokers.QuestionBroker.FindResolution` | crates/jyowo-harness-daemon/src/question_broker.rs:115-139 | the backward search returns the latest recorded resolution of the request |
| `QuestionBrokers.QuestionBroker.ReleaseRequest` | crates/jyowo-harness-daemon/src/question_broker.rs:490-505 | gives back the context, then the waiter; other threads may move before each |
| `QuestionBrokers.QuestionBroker.Ask` | crates/jyowo-harness-daemon/src/question_broker.rs:91-139 | whatever the other threads do before each of its steps, the whole call is a run of the protocol that ends with the call done and its result returned, so the run theorems above are about this code |
| `PermissionInbox.TransactSound` | crates/jyowo-harness-journal/src/task_store.rs:4749-4860 | a transaction keeps every accepted inbox entry of the permission broker backed by the event its payload names |
| `PermissionFailClosed.DecideFailsClosed` | crates/jyowo-harness-daemon/src/permission_broker.rs:747-853 | over every interleaving, including the notification race, saved policies and reused ids: a decision other than DenyOnce is that of an option the engine offered without confirmation, it is no allow decision when a confirmation text is expected, and a recorded resolution of the request selected that option |
| `PermissionGuarantees.GrantIsInOwnStream` | crates/jyowo-harness-daemon/src/permission_broker.rs:747-853 | for a request id used by one call only, that resolution is in the call's own stream |
| `PermissionContexts.StepKeeps` | crates/jyowo-harness-daemon/src/permission_broker.rs:168-610 | every step of every party keeps the context invariant, except a steering acceptance replayed onto another permission |
| `PermissionGuarantees.PendingPermissionHasContext` | crates/jyowo-harness-daemon/src/permission_broker.rs:168-320 | in every reachable state a pending permission has a live validation context that agrees with the stored details field by field after redaction |
| `PermissionGuarantees.LookUpFindsContext` | crates/jyowo-harness-daemon/src/permission_broker.rs:389-495 | a client that looks the context of a pending permission up finds it |
| `PermissionGuarantees.DecisionRefusedOnlyForCause` | crates/jyowo-harness-daemon/src/permission_broker.rs:408-470 | while its permission is pending a decision is refused if and only if it is late or its option was not presented; never for a lost or changed context |
| `PermissionGuarantees.PromptDecisionIsRecorded` | crates/jyowo-harness-daemon/src/permission_broker.rs:389-495 | a prompt decision for a presented option at the current version is accepted, recorded, and ends the permission |
| `PermissionGuarantees.OnePermissionRequestPerCall` | crates/jyowo-harness-daemon/src/permission_broker.rs:223-300 | each call makes at most nine attempts and records its request at most once; it ends at most once, resolved or invalidated; every stream stays coherent |
| `PermissionGuarantees.SteeringOrphansExactlyOnReplay` | crates/jyowo-harness-daemon/src/permission_broker.rs:575-610 | an accepted steering command drops the context; the permission stays pending without one if and only if the acceptance was replayed from another command |
| `PermissionGuarantees.TimeoutReadsBack` | crates/jyowo-harness-daemon/src/permission_broker.rs:829-851 | a call whose withdrawal lost against a recorded resolution returns the selected decision exactly if its waiter is still registered, else what was sent to it, else DenyOnce |
| `PermissionGuarantees.RecordedGrantCanBeDenied` | crates/jyowo-harness-daemon/src/permission_broker.rs:695-706 | agreement is one-directional: from every state in which a prompt decision is about to be recorded, some interleaving records it and the call still returns DenyOnce |
| `PermissionHazards.GrantRecordedAndDenied` | crates/jyowo-harness-daemon/src/permission_broker.rs:695-706 | for every redactor, a run from a fresh broker in which an allow option is recorded and the call denies |
| `PermissionHazards.PermissionOrphaned` | crates/jyowo-harness-daemon/src/permission_broker.rs:575-610 | for every redactor, a run from a fresh broker that leaves a pending permission without its context |
| `PermissionBrokers.PermissionBroker.CommitRequest` | crates/jyowo-harness-daemon/src/permission_broker.rs:223-300 | the retry loop, with other threads moving and the workspace lease checked anew before each attempt, is a run of at most nine protocol steps of this call |
| `PermissionBrokers.PermissionBroker.InvalidateRuntimeRequest` | crates/jyowo-harness-daemon/src/permission_broker.rs:545-573 | the version read and the withdrawal loop, with other threads moving before each step, are a run of protocol steps |
| `PermissionBrokers.PermissionBroker.CancelWaiter` | crates/jyowo-harness-daemon/src/permission_broker.rs:708-717 | removes the waiter and denies in one critical section |
| `PermissionBrokers.PermissionBroker.RemoveWaiter` | crates/jyowo-harness-daemon/src/permission_broker.rs:695-706 | takes the waiter and the decision of the selected option out of the map without sending; the send is a later step |
| `PermissionBrokers.PermissionBroker.FindResolution` | crates/jyowo-harness-daemon/src/permission_broker.rs:829-851 | the backward search returns the option of the latest recorded resolution |
| `PermissionBrokers.PermissionBroker.DecideRequest` | crates/jyowo-harness-daemon/src/permission_broker.rs:747-853 | whatever the other threads do before each of its steps, the whole call is a run of the protocol that ends with its decision returned |
| `ToolHistory.OpenMeaning` | crates/jyowo-harness-daemon/src/recovery.rs:209-276 | the incremental set holds exactly the tools that were started and not completed, failed or denied afterwards |
| `ToolHistory.CanonicalIsOpen` | crates/jyowo-harness-journal/src/task_store.rs:5545-5633 | the store's own history of incomplete tools agrees with recovery's after every prefix, provided only open tools were marked indeterminate |
| `ToolHistory.ResumeEqualsReplay` | crates/jyowo-harness-daemon/src/recovery.rs:209-276 | continuing from any checkpoint that is correct at its offset reaches the same tools as a replay from the start of the run |
| `ToolHistory.SortTools` | crates/jyowo-harness-daemon/src/recovery.rs:209-276 | returns the ascending, duplicate-free list of a set |
| `ToolHistory.ReadPage` | crates/jyowo-harness-daemon/src/recovery.rs:235-270 | one page moves the cursor to its last event and the set by its tool events |
| `ToolHistory.IndeterminateTools` | crates/jyowo-harness-daemon/src/recovery.rs:209-276 | for every log and every page boundary: fails exactly when the run has no recorded start, and otherwise returns the ascending list of exactly the open tools |
| `RecoveryBatch.BatchReduces` | crates/jyowo-harness-daemon/src/recovery.rs:119-156 | the reducer accepts the recovery batch exactly if the run did not start in the future, and then the run is interrupted, nothing is pending and no message is promoting |
| `Recovery.PassIsComplete` | crates/jyowo-harness-daemon/src/recovery.rs:37-55 | if nothing stops the pass, it succeeds, and no task has an active run or anything pending afterwards, unless the start of its run is undelivered |
| `Recovery.SecondPassIsIdle` | crates/jyowo-harness-daemon/src/recovery.rs:37-55 | after a pass that nothing stops, a second one, at any later time, appends no event, writes no checkpoint and reports nothing |
| `Recovery.CrashThenRerun` | crates/jyowo-harness-daemon/src/recovery.rs:37-55 | a crash after any number of tasks none of which stops the pass, followed by a new pass, reaches the state of the uninterrupted pass, and the two reports put together are its report |
| `Recovery.LostCheckpointIsRewritten` | crates/jyowo-harness-daemon/src/recovery.rs:184-207 | if the checkpoint that a commit rolled forward were lost, the next recovery of the task writes the same tools at the same place and reports nothing |
| `Recovery.PassAfterLostCheckpoint` | crates/jyowo-harness-daemon/src/recovery.rs:92-113 | wherever a pass stops with the checkpoint of its last commit lost, a new pass reaches the state of the uninterrupted one |
| `Recovery.ReportIsExact` | crates/jyowo-harness-daemon/src/recovery.rs:69-182 | a reported task had an active run; the report names exactly its open tools in order, the stream grew by exactly the recovery batch, and the checkpoint holds those tools at its end |
| `Recovery.OneFrame` | crates/jyowo-harness-daemon/src/recovery.rs:69-182 | recovering a task leaves the stream, the checkpoint and the inbox entries of every other task alone |
| `Recovery.OneKeeps` | crates/jyowo-harness-daemon/src/recovery.rs:69-182 | recovering a task keeps the durable state valid: replayable streams, validated checkpoints, explained inbox entries |
| `Recovery.RecoverySettles` | crates/jyowo-harness-daemon/src/recovery.rs:69-182 | a successful recovery leaves nothing to do for its task |
| `Recovery.SettledIsFixed` | crates/jyowo-harness-daemon/src/recovery.rs:69-182 | a task with nothing left to do is a fixed point |
| `Recovery.RecoveryFailsExactly` | crates/jyowo-harness-daemon/src/recovery.rs:69-182 | recovery of a task fails if and only if its run is active and its start delivered, and an earlier attempt for it was recorded, the batch is too large, or the run starts after the current time; a failure writes nothing |
| `Recovery.PassSucceedsExactly` | crates/jyowo-harness-daemon/src/recovery.rs:37-55 | a pass succeeds if and only if, in the state before it, no task meets that condition |
| `Recovery.FailedPassKeepsProgress` | crates/jyowo-harness-daemon/src/recovery.rs:37-55 | a failed pass ends at the first such task in id order: the tasks before it stay recovered, the others are as they were |
| `Recovery.LostRaceIsSticky` | crates/jyowo-harness-daemon/src/recovery.rs:157-171 | once an attempt that read the run at an earlier version was rejected, every later attempt for the run fails, because the key names only task and segment |
| `RecoveryServices.RollForwardIsCanonical` | crates/jyowo-harness-journal/src/task_store.rs:5448-5503 | rolling a validated checkpoint forward gives what the history from the start of the run gives |
| `RecoveryServices.CommitIsWhole` | crates/jyowo-harness-journal/src/task_store.rs:1640-1690 | the commit with the checkpoint rolled forward inside it already leaves the state of the whole recovery of the task |
| `RecoveryServices.CrashAfterCommit` | crates/jyowo-harness-daemon/src/recovery.rs:169-182 | wherever a pass crashes right after a commit, a new pass reaches the state of the uninterrupted one |
| `RecoveryServices.RecoveryService.NonterminalAfter` | crates/jyowo-harness-journal/src/task_store.rs:3012-3045 | a page is a prefix of the ordered nonterminal tasks after the cursor with their projections, and shorter than the limit only at the end |
| `RecoveryServices.RecoveryService.Persist` | crates/jyowo-harness-daemon/src/recovery.rs:184-207 | saves the checkpoint if and only if it is of the current segment and its tools match the validated history |
| `RecoveryServices.RecoveryService.BuildEvents` | crates/jyowo-harness-daemon/src/recovery.rs:119-156 | the pushed list is the batch the reduction theorem is about |
| `RecoveryServices.RecoveryService.Commit` | crates/jyowo-harness-journal/src/task_store.rs:1424-1690 | one transaction together with the checkpoint it rolls forward, or neither |
| `RecoveryServices.RecoveryService.RecoverProjection` | crates/jyowo-harness-daemon/src/recovery.rs:69-182 | one task is recovered exactly as the simple description says |
| `RecoveryServices.RecoveryService.RecoverStartup` | crates/jyowo-harness-daemon/src/recovery.rs:37-55 | the paged scan over a changing set equals the simple pass that visits each initially nonterminal task once, in id order |
| `DaemonRuns.LandKeeps` | crates/jyowo-harness-journal/src/task_store.rs:5448-5503 | a commit together with its unique indexes, outbox and rolled-forward checkpoint keeps what recovery relies on, or is undone as a whole |
| `DaemonRuns.StepKeeps` | crates/jyowo-harness-journal/src/task_store.rs:1398-1706 | every durable write (commands of all components, engine and child-agent appends, deliveries, checkpoints, recovery and lost recovery attempts) keeps the durable invariant, given what each writer decides |
| `DaemonRuns.ReachableIsDurable` | crates/jyowo-harness-journal/src/task_store.rs:1398-1706 | from the empty store, every reachable state has replayable streams, permissions only on runs, no removed task with an active run, validated checkpoints, explained recovery entries, broker entries backed by their events, and no run, message or permission begun twice in a stream |
| `DaemonRuns.StartupRecovers` | crates/jyowo-harness-daemon/src/recovery.rs:37-55 | for every state the daemon can leave behind: startup succeeds if and only if nothing in that state stops it, and then it is complete, and repeating it does nothing |
| `DaemonRuns.RecoveryClearsExactly` | crates/jyowo-harness-daemon/src/recovery.rs:69-92 | after a pass that nothing stops, nothing is pending anywhere if and only if no run with an undelivered start had anything pending before |
| `DaemonStarts.ReachableIsQuiet` | crates/jyowo-harness-daemon/src/task_actor.rs:1570-1587 | if requests are recorded only after their start was marked as delivered, runs with undelivered starts have nothing pending |
| `DaemonStarts.BrokersStart` | crates/jyowo-harness-daemon/src/recovery.rs:37-55 | whatever was written before and whether or not the pass succeeded, both brokers start over accepted streams and a sound inbox |
| `DaemonStarts.RecoveryEstablishesInit` | crates/jyowo-harness-daemon/src/recovery.rs:37-55 | after a pass that nothing stops the permission broker starts with nothing pending, under the delivery condition above |
| `DaemonStarts.StreamsQueueOnce` | crates/jyowo-harness-journal/src/task_schema.rs:41-43 | every stream the daemon writes queues each message id once, so the message laws apply to it |
| `DaemonHazards.EarlyRequestSurvivesRecovery` | crates/jyowo-harness-daemon/src/task_actor.rs:1570-1587 | a run from the empty store in which the engine asks before its start is marked as delivered: the next pass succeeds and the permission stays pending |
| `DaemonHazards.LostRaceBlocksStartup` | crates/jyowo-harness-daemon/src/recovery.rs:157-171 | a run from the empty store: a recovery reads a delivered run, the task is renamed, the commit comes too late, and every startup pass fails |
| `LostRaces.LostRaceIsPermanent` | crates/jyowo-harness-daemon/src/recovery.rs:157-171 | in every run: once a recovery attempt was overtaken, whatever the daemon writes afterwards, every startup at any time fails while the run it was about is still active |
| `DaemonHazards.StartupReportsRun` | crates/jyowo-harness-daemon/src/recovery.rs:37-55 | a run from the empty store after which the pass succeeds and reports exactly the interrupted run |
| `BackgroundAgents.SetThenRead` | crates/jyowo-harness-agent-runtime/src/background.rs:928-983 | a set request marker is read back with its kind and id, and clearing removes exactly its own kind |
| `BackgroundRuns.AnswersAreBound` | crates/jyowo-harness-agent-runtime/src/background.rs:321-453 | in every run whose agents start with payloads that carry no request marker, crashes between any two writes included, a waiting or recoverable agent carries a matching kind and request, so an answer is accepted if and only if it names the marked request |
| `BackgroundRuns.AnswersOutstandingRequest` | crates/jyowo-harness-agent-runtime/src/background.rs:321-453 | without crashes an answer is accepted if and only if the agent waits for it and it answers the journal's outstanding request |
| `BackgroundRuns.JournalIsAhead` | crates/jyowo-harness-agent-runtime/src/background.rs:720-791 | wherever a run crashed, the stored state is one side of the last journaled change, if ids were unused when started |
| `BackgroundRuns.UsedStartLosesJournal` | crates/jyowo-harness-agent-runtime/src/background.rs:81-138 | starting a used id journals a start that never happens; the law above then survives if and only if the stored state was Queued or Running |
| `BackgroundRuns.UsedStartBreaksJournal` | crates/jyowo-harness-agent-runtime/src/background.rs:81-138 | a run from the empty disk in which a paused agent is started again under its id and the law above fails |
| `BackgroundRuns.JournalReplays` | crates/jyowo-harness-agent-runtime/src/background.rs:720-791 | without crashes the journaled changes chain end to end and replay to the stored state, and the run id is that of the last attempt |
| `BackgroundRuns.AttemptsAreChained` | crates/jyowo-harness-agent-runtime/src/background.rs:793-826 | in every run, crashes included, the attempts of each agent are numbered 1..n and linked to their predecessors |
| `BackgroundLaws.PrefixKeeps` | crates/jyowo-harness-agent-runtime/src/background.rs:720-791 | an operation whose writes are allowed one by one keeps the invariant wherever it is cut off |
| `BackgroundManagers.BackgroundAgentManager.TransitionFrom` | crates/jyowo-harness-agent-runtime/src/background.rs:720-791 | journals first, then inserts the attempt, then updates the row: exactly the planned writes in order |
| `BackgroundManagers.BackgroundAgentManager.Start` | crates/jyowo-harness-agent-runtime/src/background.rs:81-138 | performs the writes of its plan; on a used id it fails after the journal write |
| `BackgroundManagers.BackgroundAgentManager.Pause` | crates/jyowo-harness-agent-runtime/src/background.rs:162-180 | succeeds exactly when its plan does and performs exactly its writes |
| `BackgroundManagers.BackgroundAgentManager.Resume` | crates/jyowo-harness-agent-runtime/src/background.rs:182-246 | a new attempt for interrupted agents, two transitions for the others: exactly the planned writes |
| `BackgroundManagers.BackgroundAgentManager.WaitForPermission` | crates/jyowo-harness-agent-runtime/src/background.rs:248-286 | marks the request with the change of state, or changes nothing |
| `BackgroundManagers.BackgroundAgentManager.RequestInput` | crates/jyowo-harness-agent-runtime/src/background.rs:288-319 | marks the request with the change of state, or changes nothing |
| `BackgroundManagers.BackgroundAgentManager.SendInput` | crates/jyowo-harness-agent-runtime/src/background.rs:321-372 | answers, clears the marker and runs again, or changes nothing |
| `BackgroundManagers.BackgroundAgentManager.ResolvePermission` | crates/jyowo-harness-agent-runtime/src/background.rs:374-453 | approves or denies, clears the marker, or changes nothing |
| `BackgroundManagers.BackgroundAgentManager.Cancel` | crates/jyowo-harness-agent-runtime/src/background.rs:455-500 | passes through Cancelling to Cancelled, or changes nothing |
| `BackgroundManagers.BackgroundAgentManager.Complete` | crates/jyowo-harness-agent-runtime/src/background.rs:502-529 | succeeds exactly when its plan does and performs exactly its writes |
| `BackgroundManagers.BackgroundAgentManager.Fail` | crates/jyowo-harness-agent-runtime/src/background.rs:531-556 | succeeds exactly when its plan does and performs exactly its writes |
| `BackgroundManagers.BackgroundAgentManager.Archive` | crates/jyowo-harness-agent-runtime/src/background.rs:558-588 | succeeds exactly when its plan does and performs exactly its writes |
| `BackgroundManagers.BackgroundAgentManager.DeleteArchived` | crates/jyowo-harness-agent-runtime/src/background.rs:590-605 | deletes the attempts and the row of an archived agent, or changes nothing |
| `BackgroundManagers.BackgroundAgentManager.ListAttempts` | crates/jyowo-harness-agent-runtime/src/store.rs:518-576 | the attempts of one agent in the order of insertion, which is the order of their numbers wherever they are chained |
| `BackgroundManagers.BackgroundAgentManager.RecoverOnStartup` | crates/jyowo-harness-agent-runtime/src/background.rs:607-660 | performs the writes of the recovery plan row by row and returns exactly the agents it moved |
| `Queue.MessagesHaveOneState` | crates/jyowo-harness-journal/src/task_projection.rs:678-731 | in every accepted stream the active list and the durable table describe the same messages, each in exactly one state, from its submission on |
| `Queue.RetiredForGood` | crates/jyowo-harness-journal/src/task_projection.rs:678-731 | consumed and deleted messages are unchanged by everything recorded later, and no message changes its id or its place |
| `Queue.ConsumedOnce` | crates/jyowo-harness-daemon/src/task_actor.rs:1525-1560 | a message is consumed once if its row says so and never otherwise |
| `Queue.RunsQueueOnce` | crates/jyowo-harness-daemon/src/task_actor.rs:555-815 | every run of the daemon's queue actions yields an accepted stream in which each message id is queued once |
| `Queue.Oldest` | crates/jyowo-harness-daemon/src/queue.rs:235-265 | the queued item created first, ties going to the smaller id; none exactly when nothing is queued |
| `Queue.ConsumeNextIsFifo` | crates/jyowo-harness-daemon/src/queue.rs:235-265 | consuming the next message overtakes no message that was never promoted |
| `Queue.IdleSubmitOvertakesExactly` | crates/jyowo-harness-daemon/src/task_actor.rs:720-815 | a message submitted to an idle task is accepted, starts a run and is consumed at once, every other message staying as it is; it overtakes nobody if and only if every waiting message was promoted before |
| `Queue.NeverPromotedAreFifo` | crates/jyowo-harness-daemon/src/queue.rs:235-265 | over every run: when a message that was never promoted is consumed, every earlier such message is already consumed or deleted, if and only if it was not submitted to an idle task over one |
| `Queue.PromotingWasPromoted` | crates/jyowo-harness-daemon/src/queue.rs:196-208 | only messages that were promoted are promoting |
| `Queue.QueueDecisionIsExact` | crates/jyowo-harness-daemon/src/queue.rs:122-277 | every command on an existing message, consume and recover included, is accepted if and only if the message is in the required state and the command names its current revision; a stale one is told the current row |
| `Queue.AcceptedEventsAreCurrent` | crates/jyowo-harness-journal/src/task_projection.rs:678-731 | in every accepted stream each edit, delete, promotion, recovery and consumption named the revision its message had at that moment, and the message was neither consumed nor deleted |
| `Queue.RevisionCountsEdits` | crates/jyowo-harness-daemon/src/queue.rs:163-186 | in every accepted stream the revision of a message is one more than the number of its edits |
| `QueueHazards.LaterMessageOvertakes` | crates/jyowo-harness-daemon/src/task_actor.rs:720-815 | a run from the empty stream after which the third message is consumed while the second still waits |
| `Queue.CommandReduces` | crates/jyowo-harness-daemon/src/queue.rs:122-195 | whatever an accepted edit, delete or submission to a busy task decides, the reducer accepts |
| `Queue.PromotionReduces` | crates/jyowo-harness-daemon/src/task_actor.rs:555-690 | an accepted promotion (invalidations, promotion, yield request) reduces as one batch |
| `Queue.ConsumeNextReduces` | crates/jyowo-harness-daemon/src/queue.rs:235-265 | consuming the next message reduces whenever nothing is pending |
| `Queue.ConsumesExactly` | crates/jyowo-harness-daemon/src/task_actor.rs:1115-1155 | what an action consumes is what its events consume |
| `PathScanner.PathContinuesAfterWhitespace` | crates/jyowo-harness-contracts/src/conversation.rs:1167-1192 | the two loops decide whether the next token looks like part of a path |
| `PathScanner.PrivatePathEnd` | crates/jyowo-harness-contracts/src/conversation.rs:1141-1161 | the loop stops exactly at the end of the path |
| `PathScanner.PathIsNotEmpty` | crates/jyowo-harness-contracts/src/conversation.rs:1125-1161 | a path reaches past its first character, so the scan makes progress |
| `PathScanner.RedactPrivatePaths` | crates/jyowo-harness-contracts/src/conversation.rs:1107-1123 | the scanning loop computes the recursive description, for every string |
| `PathScanner.NoMarkerLeft` | crates/jyowo-harness-contracts/src/conversation.rs:1100-1123 | the output never contains a private-path marker, so the fallback after the scan is unreachable |
| `PathScanner.CleanIsKept` | crates/jyowo-harness-contracts/src/conversation.rs:29-39 | a string without a marker is unchanged |
| `PathScanner.ScanIsIdempotent` | crates/jyowo-harness-contracts/src/conversation.rs:29-39 | scanning twice equals scanning once |
| `PathScanner.OutputKeepsTheRest` | crates/jyowo-harness-contracts/src/conversation.rs:1107-1123 | the text splits into kept and hidden pieces; the output shows the kept ones in order, with one placeholder for each hidden one |
| `PathScanner.HiddenIsPath` | crates/jyowo-harness-contracts/src/conversation.rs:1125-1161 | every hidden piece begins with a whole marker |
| `Announcement.SequentialIsOnePass` | crates/jyowo-harness-contracts/src/announcement.rs:100-107 | the five replacements in a row equal one pass that maps each character |
| `Announcement.UnescapeInverts` | crates/jyowo-harness-contracts/src/announcement.rs:100-107 | unescaping the five predefined entities (section 4.6 of XML 1.0, Fifth Edition) inverts escaping, for every text |
| `Announcement.EscapedIsPlain` | crates/jyowo-harness-contracts/src/announcement.rs:100-107 | escaped text holds no markup character |
| `Announcement.RenderLabels` | crates/jyowo-harness-contracts/src/announcement.rs:65-97 | the loop writes one line per label, in order |
| `Announcement.RenderTail` | crates/jyowo-harness-contracts/src/announcement.rs:65-97 | summary and effective hint, pushed piece by piece |
| `Announcement.Render` | crates/jyowo-harness-contracts/src/announcement.rs:65-97 | the text built piece by piece is the one the parser theorem is about |
| `Announcement.ParseInvertsRender` | crates/jyowo-harness-contracts/src/announcement.rs:65-107 | for every input a parser recovers kind, optional status, every label, summary and the effective rewrite hint |
| `BlobRange.GetRange` | crates/jyowo-harness-contracts/src/blob.rs:89-122 | whatever the chunking, the page is exactly the slice from the offset to the saturated end, with every index in bounds |
| `BlobRange.PagesRebuild` | crates/jyowo-harness-contracts/src/blob.rs:89-122 | consecutive pages concatenate back to the blob |
| `DeferredTools.PendingDelta.Merge` | crates/jyowo-harness-contracts/src/deferred_tools.rs:65-91 | the update in place yields the merged delta |
| `DeferredTools.PendingDelta.RemoveAddedNames` | crates/jyowo-harness-contracts/src/deferred_tools.rs:57-63 | drops exactly the named additions and their reasons |
| `DeferredTools.MergeComposes` | crates/jyowo-harness-contracts/src/deferred_tools.rs:65-91 | a merged delta stays disjoint and acts on every tool set like the two deltas in a row |
| `DeferredTools.MergeKeepsNoRepeats` | crates/jyowo-harness-contracts/src/deferred_tools.rs:65-91 | merging never introduces a repeated name |
| `DeferredTools.FoldKeepsLatestReason` | crates/jyowo-harness-contracts/src/deferred_tools.rs:65-91 | every surviving addition carries the reason of the latest change that added it |
| `DeferredTools.FoldRepeatsExactly` | crates/jyowo-harness-contracts/src/deferred_tools.rs:65-91 | the folded lists are free of repeats if and only if every name the first change repeats is taken back by a later one |
| `DeferredTools.RepeatSurvives` | crates/jyowo-harness-contracts/src/deferred_tools.rs:23-50 | a first change that adds a name twice, and the merge that keeps both copies |
| `DeferredTools.MergingIsComposition` | crates/jyowo-harness-contracts/src/deferred_tools.rs:23-91 | for every sequence of pool changes with disjoint lists: folding with merge keeps the lists disjoint, acts like the changes in order, keeps the latest reasons, and repeats a name exactly as said above |
| `ContextPatches.SessionContext.PushPatch` | crates/jyowo-harness-context/src/engine.rs:385-403 | appends the patch to the session |
| `ContextPatches.SessionContext.PushDeferredToolsDelta` | crates/jyowo-harness-context/src/engine.rs:421-454 | replaces the waiting delta, unless the new one is empty |
| `ContextPatches.SessionContext.TakePending` | crates/jyowo-harness-context/src/engine.rs:339-354 | hands out all waiting patches and ages those that stay |
| `ContextPatches.DeliveredExactlyWhileAlive` | crates/jyowo-harness-context/src/engine.rs:1349-1364 | over every interleaving of pushes and assembles: a transient patch is delivered once, one with ttl t in exactly the next t + 1 assembles, one without ttl in all |
| `ContextPatches.DeliveriesAreOrdered` | crates/jyowo-harness-context/src/engine.rs:339-354 | every delivery is in push order and holds at most one delta |
| `ContextPatches.DeltaIsLatest` | crates/jyowo-harness-context/src/engine.rs:421-454 | a waiting delta is the latest one pushed, and waits until it is delivered or replaced |
| `McpNames.ParsePrinted` | crates/jyowo-harness-contracts/src/enums.rs:928-951 | what parsing a printed name returns, for all valid names: a trailing underscore of the server moves to the tool |
| `McpNames.ParseInvertsPrint` | crates/jyowo-harness-contracts/src/enums.rs:928-951 | parsing returns the pair that was printed if and only if the server does not end in an underscore |
| `McpNames.PrintCollidesExactly` | crates/jyowo-harness-contracts/src/enums.rs:942-951 | two pairs print alike if and only if they are equal or an underscore at the boundary changed sides |
| `McpNames.PrintIsInjective` | crates/jyowo-harness-contracts/src/enums.rs:942-951 | printing is injective on servers that do not end in an underscore |
| `McpNames.PrintCollides` | crates/jyowo-harness-contracts/src/enums.rs:942-951 | two different valid tools with one canonical name |
| `McpNames.EncodeDigest` | crates/jyowo-harness-contracts/src/enums.rs:719-727 | two lowercase hex digits per byte, the high half first |
| `McpNames.DecodeDigest` | crates/jyowo-harness-contracts/src/enums.rs:697-709 | succeeds exactly on 64 lowercase hex digits and returns their bytes |
| `McpNames.DigestRoundTrip` | crates/jyowo-harness-contracts/src/enums.rs:697-727 | decoding an encoded digest returns its bytes |

## Left out

- SQLite, serde, tokio and file internals: only their effect is modelled (atomic transactions, finite maps, one-shot channels).
- `resolve_with_command`, `invalidate` and `transact_invalidating_command` as class methods: they are steps on values, so aliasing of the shared maps during them is not captured beyond the order of the steps.
- The secret and pattern heuristics of redaction (`conversation.rs` from line 1201, `dangerous_patterns.rs`): text redaction is a parameter; the walk of `redact_value` over JSON is modelled.
- Confirmation dialogs, policy storage and sandbox details of a permission: what the saved policy selects and whether the workspace lease is held are inputs.
- Checkpoint fields other than segment, offset and tools; they are copied from the prior checkpoint.
- Child agents beyond their task streams: a parent's and a child's append are two steps, although the code commits them together; topology and leases are not modelled.
- The claim of a segment's execution after a restart, which later fails the run of an undelivered start.
- Recovery of a single task on demand: it calls the per-task recovery that is modelled.
- Overlapping calls of the background manager: its operations run one after the other, with crashes between writes.
- Titles, timestamps and free text of journal events, and 32-bit widths of attempt numbers.
- Timeline and entity projections of the reducer: they do not feed back into decisions.
- Rendering of the deferred-tools attachment and the choice of a default reason text.
- Context compaction, memory recall and model calls.
- Announcement.Parse: the number of labels it reads is bounded by the length of the text, which loses nothing, as `ParseInvertsRender` shows.
- Announcement.Render: labels are given in the order of the source's ordered map.
- BackgroundRuns.JournalIsAhead: stated for ids unused at their start, because the code journals before it checks; the other half is `UsedStartLosesJournal`.
- Configuration, profiles, teams, subagents, memory, browser and HTTP services, and the desktop application: easy checks or plumbing.
