/**
 The durable task stream: the events a task can record, the reducer that turns
 a stream into the task projection, and the store transaction that appends to it.

 Identifiers are numbers whose order stands for the order of their text form.
 Timestamps are integers. A reducer result of `None` is a projector error: the
 surrounding transaction is rolled back.
 */
module TaskStream {
  import opened Basics

  type TaskId = nat
  type RequestId = nat
  type SegmentId = nat
  type ToolId = nat
  type QueueItemId = nat
  type Time = int

  const MAX_ACTIVE_QUEUE_ITEMS := 64
  const MAX_EVENTS_PER_TRANSACTION := 256

  // ----- projection entities -----

  datatype TaskState =
    Idle | Running | WaitingPermission | WaitingInput | Yielding | Interrupted | Failed | Completed

  datatype RunState =
    Running | WaitingPermission | WaitingInput | Yielding | Interrupted | Failed | Completed

  datatype TerminalReason =
    Completed | Superseded | ForcedInterruption | InterruptedByRestart | Cancelled | Failed

  datatype PromotionMode = SafePoint | ForceStop

  datatype Run = Run(
    segment: SegmentId, state: RunState, promotion: Option<PromotionMode>,
    terminal: Option<TerminalReason>, startedAt: Time, endedAt: Option<Time>, incomplete: bool)
  {
    predicate Active() {
      state.Running? || state.WaitingPermission? || state.WaitingInput? || state.Yielding?
    }
  }

  datatype QueueItemState = Queued | Promoting | Consumed | Deleted

  datatype QueueItem = QueueItem(
    id: QueueItemId, state: QueueItemState, revision: nat, content: string,
    createdOffset: nat, consumedBy: Option<SegmentId>)

  datatype QuestionOption = QuestionOption(id: string, labelText: string, description: Option<string>)

  datatype QuestionItem = QuestionItem(
    id: string, header: Option<string>, text: string, options: seq<QuestionOption>,
    multiSelect: bool, allowCustom: bool)

  datatype PendingQuestion = PendingQuestion(
    requestId: RequestId, revision: nat, segment: SegmentId, tool: ToolId,
    questions: seq<QuestionItem>, expiresAt: Time)

  datatype Answer = Answer(questionId: string, selected: seq<string>, text: Option<string>)

  datatype QuestionOutcome = Answered(answers: seq<Answer>) | Declined | TimedOut | Cancelled

  datatype PermissionKind = Command | Filesystem | Network | Mcp | Automation

  datatype PermissionOption = PermissionOption(id: string, labelText: string)

  datatype Json =
    | JNull
    | JBool(b: bool)
    | JNumber(n: int)
    | JString(text: string)
    | JArray(items: seq<Json>)
    | JObject(fields: seq<JsonField>)

  datatype JsonField = JsonField(name: string, value: Json)

  datatype PermissionDetails = PermissionDetails(
    kind: PermissionKind, segment: SegmentId, actionPlanHash: string, sandboxPolicyHash: string,
    workspace: string, subject: Json, actorSource: Json, options: seq<PermissionOption>,
    preview: string, expiresAt: Time)

  datatype PermissionRoute = SavedPolicy | ForegroundTask

  datatype PendingPermission = PendingPermission(
    requestId: RequestId, revision: nat, route: PermissionRoute, details: Option<PermissionDetails>)

  datatype ToolEvent =
    | ToolUseStarted(tool: ToolId)
    | ToolUseCompleted(tool: ToolId)
    | ToolUseFailed(tool: ToolId)
    | ToolUseDenied(tool: ToolId)
    | ToolUseOther

  // ----- events -----

  datatype TaskEvent =
    | TaskCreated
    | TaskRemoved(removed: bool)
    | TaskActorFailed(failedSegment: Option<SegmentId>, failedAt: Time)
    | RunStarted(segment: SegmentId, startedAt: Time)
    | RunCompleted(segment: SegmentId, endedAt: Time, reason: TerminalReason, incomplete: bool)
    | RunYieldRequested(segment: SegmentId, force: bool)
    | RunSafePointReached(segment: SegmentId, force: bool)
    | RunForceStopTimedOut(segment: SegmentId)
    | ToolIndeterminate(segment: SegmentId, tool: ToolId)
    | MessageQueued(item: QueueItemId, content: string)
    | MessageEdited(item: QueueItemId, itemRevision: nat, content: string)
    | MessagePromoted(item: QueueItemId, itemRevision: nat)
    | MessageRecovered(item: QueueItemId, itemRevision: nat)
    | MessageDeleted(item: QueueItemId, itemRevision: nat)
    | MessageConsumed(item: QueueItemId, itemRevision: nat, segment: SegmentId)
    | PermissionRequested(permission: PendingPermission)
    | PermissionResolved(requestId: RequestId, revision: nat, option: string)
    | PermissionInvalidated(requestId: RequestId, revision: nat)
    | QuestionRequested(question: PendingQuestion)
    | QuestionResolved(requestId: RequestId, revision: nat, outcome: QuestionOutcome)
    | QuestionInvalidated(requestId: RequestId, revision: nat)
    | Engine(toolEvent: ToolEvent)
    | Other  // title, pin, archive, subagent and workspace events: no effect on the modelled fields

  datatype Source = User | Supervisor | EngineSource | Recovery | PermissionBroker | QuestionBroker | Subagent

  /** Which component may record which event. */
  predicate AllowedSource(source: Source, e: TaskEvent) {
    match e
    case TaskCreated | TaskRemoved(_) | MessageQueued(_, _) | MessageEdited(_, _, _) | MessagePromoted(_, _) | MessageDeleted(_, _) =>
      source in {User, Supervisor, Recovery}
    case MessageRecovered(_, _) => source == Recovery
    case MessageConsumed(_, _, _) => source in {Supervisor, Recovery}
    case RunStarted(_, _) | RunCompleted(_, _, _, _) | RunYieldRequested(_, _) | RunSafePointReached(_, _) =>
      source in {EngineSource, Supervisor, Recovery}
    case RunForceStopTimedOut(_) => source in {Supervisor, Recovery}
    case ToolIndeterminate(_, _) => source == Recovery
    case TaskActorFailed(_, _) => source == Supervisor
    case PermissionRequested(_) | PermissionResolved(_, _, _) => source == PermissionBroker
    case PermissionInvalidated(_, _) => source in {PermissionBroker, Supervisor, Recovery}
    case QuestionRequested(_) | QuestionResolved(_, _, _) => source == QuestionBroker
    case QuestionInvalidated(_, _) => source in {QuestionBroker, Supervisor, Recovery}
    case Engine(_) => source in {EngineSource, Subagent}
    case Other => true
  }

  datatype Envelope = Envelope(offset: nat, event: TaskEvent)

  // ----- projection -----

  /** The task row together with the task's rows of the durable queue table. */
  datatype Projection = Projection(
    version: nat, lastOffset: nat, state: TaskState, removed: bool, run: Option<Run>,
    queue: seq<QueueItem>, durable: map<QueueItemId, QueueItem>,
    permission: Option<PendingPermission>, question: Option<PendingQuestion>)
  {
    predicate HasActiveRun() { run.Some? && run.value.Active() }

    predicate RunningSegment(segment: SegmentId) {
      run.Some? && run.value.segment == segment && run.value.state == RunState.Running
    }
  }

  const EMPTY_PROJECTION := Projection(0, 0, TaskState.Idle, false, None, [], map[], None, None)

  function ItemIndex(queue: seq<QueueItem>, id: QueueItemId): (r: Option<nat>)
    ensures r.Some? ==> r.value < |queue| && queue[r.value].id == id
    ensures r.None? <==> forall i :: 0 <= i < |queue| ==> queue[i].id != id
  {
    if |queue| == 0 then None
    else if queue[0].id == id then Some(0)
    else match ItemIndex(queue[1..], id)
      case None => None
      case Some(i) => Some(i + 1)
  }

  function Without(queue: seq<QueueItem>, i: nat): seq<QueueItem>
    requires i < |queue|
  {
    queue[..i] + queue[i + 1..]
  }

  function TerminalRunState(reason: TerminalReason): RunState {
    match reason
    case Completed => RunState.Completed
    case Failed => RunState.Failed
    case Superseded | ForcedInterruption | InterruptedByRestart | Cancelled => RunState.Interrupted
  }

  function TerminalTaskState(reason: TerminalReason): TaskState {
    match reason
    case Completed => TaskState.Completed
    case Failed => TaskState.Failed
    case Superseded | ForcedInterruption | InterruptedByRestart | Cancelled => TaskState.Interrupted
  }

  function ModeOf(force: bool): PromotionMode {
    if force then ForceStop else SafePoint
  }

  /** Promoting items fall back to the queue when a yielding run fails. */
  function RecoverPromoting(queue: seq<QueueItem>): (r: seq<QueueItem>)
    ensures |r| == |queue|
    ensures forall i :: 0 <= i < |queue| ==>
      r[i] == if queue[i].state == Promoting then queue[i].(state := Queued) else queue[i]
  {
    seq(|queue|, i requires 0 <= i < |queue| =>
      if queue[i].state == Promoting then queue[i].(state := Queued) else queue[i])
  }

  function Upsert(durable: map<QueueItemId, QueueItem>, item: QueueItem): map<QueueItemId, QueueItem> {
    durable[item.id := item]
  }

  function UpsertPromoting(durable: map<QueueItemId, QueueItem>, queue: seq<QueueItem>): map<QueueItemId, QueueItem>
    decreases |queue|
  {
    if |queue| == 0 then durable
    else if queue[0].state == Promoting then UpsertPromoting(Upsert(durable, queue[0].(state := Queued)), queue[1..])
    else UpsertPromoting(durable, queue[1..])
  }

  function ReduceActorFailed(p: Projection, segment: Option<SegmentId>, failedAt: Time): Option<Projection> {
    var cleared := p.(permission := None, question := None, state := TaskState.Failed);
    match segment
    case None => if p.HasActiveRun() then None else Some(cleared)
    case Some(seg) =>
      if !p.HasActiveRun() || p.run.value.segment != seg || failedAt < p.run.value.startedAt then None
      else
        var run := p.run.value;
        var failed := run.(state := RunState.Failed, terminal := Some(TerminalReason.Failed),
                           endedAt := Some(failedAt), incomplete := true);
        if run.state == RunState.Yielding then
          Some(cleared.(run := Some(failed), queue := RecoverPromoting(p.queue),
                        durable := UpsertPromoting(p.durable, p.queue)))
        else
          Some(cleared.(run := Some(failed)))
  }

  function ReduceRun(p: Projection, e: TaskEvent): Option<Projection> {
    match e
    case RunStarted(segment, startedAt) =>
      if p.permission.Some? || p.question.Some? || p.HasActiveRun() then None
      else Some(p.(run := Some(Run(segment, RunState.Running, None, None, startedAt, None, false)),
                   state := TaskState.Running))
    case RunCompleted(segment, endedAt, reason, incomplete) =>
      if p.permission.Some? || p.question.Some? || p.run.None? then None
      else
        var run := p.run.value;
        if run.segment != segment || !(run.state.Running? || run.state.Yielding?) || endedAt < run.startedAt then None
        else Some(p.(run := Some(run.(state := TerminalRunState(reason), terminal := Some(reason),
                                      endedAt := Some(endedAt), incomplete := incomplete)),
                     state := TerminalTaskState(reason)))
    case RunYieldRequested(segment, force) =>
      if !p.RunningSegment(segment) then None
      else Some(p.(run := Some(p.run.value.(state := RunState.Yielding, promotion := Some(ModeOf(force)))),
                   state := TaskState.Running))
    case RunSafePointReached(segment, forced) =>
      if p.run.Some? && p.run.value.segment == segment && p.run.value.state == RunState.Yielding
         && p.run.value.promotion == Some(ModeOf(forced)) then Some(p) else None
    case RunForceStopTimedOut(segment) =>
      if p.run.Some? && p.run.value.segment == segment && p.run.value.state == RunState.Yielding
         && p.run.value.promotion == Some(ForceStop) then Some(p) else None
    case _ => Some(p)
  }

  /** An in-place change of one active item. */
  function ReduceItem(p: Projection, id: QueueItemId, required: QueueItemState, revision: nat,
                      next: QueueItem -> QueueItem): Option<Projection> {
    match ItemIndex(p.queue, id)
    case None => None
    case Some(i) =>
      var item := p.queue[i];
      if item.state != required || item.revision != revision then None
      else Some(p.(queue := p.queue[i := next(item)], durable := Upsert(p.durable, next(item))))
  }

  /** An item that leaves the active queue for good. */
  function RetireItem(p: Projection, i: nat, last: QueueItem): Projection
    requires i < |p.queue|
  {
    p.(queue := Without(p.queue, i), durable := Upsert(p.durable, last))
  }

  function ReduceMessage(p: Projection, offset: nat, e: TaskEvent): Option<Projection> {
    match e
    case MessageQueued(id, content) =>
      if |p.queue| >= MAX_ACTIVE_QUEUE_ITEMS || ItemIndex(p.queue, id).Some? then None
      else
        var item := QueueItem(id, Queued, 1, content, offset, None);
        Some(p.(queue := p.queue + [item], durable := Upsert(p.durable, item)))
    case MessageEdited(id, revision, content) =>
      if revision == 0 then None
      else ReduceItem(p, id, Queued, revision - 1, (item: QueueItem) => item.(revision := revision, content := content))
    case MessagePromoted(id, revision) =>
      ReduceItem(p, id, Queued, revision, (item: QueueItem) => item.(state := Promoting))
    case MessageRecovered(id, revision) =>
      ReduceItem(p, id, Promoting, revision, (item: QueueItem) => item.(state := Queued))
    case MessageDeleted(id, revision) =>
      (match ItemIndex(p.queue, id)
       case None => None
       case Some(i) =>
         var item := p.queue[i];
         if item.state != Queued || item.revision != revision then None
         else Some(RetireItem(p, i, item.(state := Deleted))))
    case MessageConsumed(id, revision, segment) =>
      if !p.RunningSegment(segment) then None
      else
        (match ItemIndex(p.queue, id)
         case None => None
         case Some(i) =>
           var item := p.queue[i];
           if !(item.state.Queued? || item.state.Promoting?) || item.revision != revision then None
           else Some(RetireItem(p, i, item.(state := Consumed, consumedBy := Some(segment)))))
    case _ => Some(p)
  }

  function ReducePermission(p: Projection, e: TaskEvent): Option<Projection> {
    match e
    case PermissionRequested(permission) =>
      if p.permission.Some? || (p.run.Some? && p.run.value.state != RunState.Running) then None
      else Some(p.(permission := Some(permission), state := TaskState.WaitingPermission,
                   run := if p.run.Some? then Some(p.run.value.(state := RunState.WaitingPermission)) else None))
    case PermissionResolved(_, _, _) | PermissionInvalidated(_, _) =>
      if p.permission.None? || p.permission.value.requestId != e.requestId || p.permission.value.revision != e.revision
         || (p.run.Some? && p.run.value.state != RunState.WaitingPermission) then None
      else Some(p.(permission := None,
                   state := if p.run.Some? then TaskState.Running else TaskState.Idle,
                   run := if p.run.Some? then Some(p.run.value.(state := RunState.Running)) else None))
    case _ => Some(p)
  }

  function ReduceQuestion(p: Projection, e: TaskEvent): Option<Projection> {
    match e
    case QuestionRequested(question) =>
      if p.question.Some? || p.permission.Some? || !p.RunningSegment(question.segment) then None
      else Some(p.(question := Some(question), state := TaskState.WaitingInput,
                   run := Some(p.run.value.(state := RunState.WaitingInput))))
    case QuestionResolved(_, _, _) | QuestionInvalidated(_, _) =>
      if p.question.None? || p.question.value.requestId != e.requestId || p.question.value.revision != e.revision
         || (p.run.Some? && p.run.value.state != RunState.WaitingInput) then None
      else Some(p.(question := None,
                   state := if p.run.Some? then TaskState.Running else TaskState.Idle,
                   run := if p.run.Some? then Some(p.run.value.(state := RunState.Running)) else None))
    case _ => Some(p)
  }

  function ReduceEvent(p: Projection, offset: nat, e: TaskEvent): Option<Projection> {
    match e
    case TaskCreated => if p.version != 0 then None else Some(p.(state := TaskState.Idle))
    case TaskRemoved(removed) => Some(p.(removed := removed))
    case TaskActorFailed(segment, failedAt) => ReduceActorFailed(p, segment, failedAt)
    case RunStarted(_, _) | RunCompleted(_, _, _, _) | RunYieldRequested(_, _) | RunSafePointReached(_, _) | RunForceStopTimedOut(_) =>
      ReduceRun(p, e)
    case MessageQueued(_, _) | MessageEdited(_, _, _) | MessagePromoted(_, _) | MessageRecovered(_,
        _) | MessageDeleted(_, _) | MessageConsumed(_, _, _) =>
      ReduceMessage(p, offset, e)
    case PermissionRequested(_) | PermissionResolved(_, _, _) | PermissionInvalidated(_, _) => ReducePermission(p, e)
    case QuestionRequested(_) | QuestionResolved(_, _, _) | QuestionInvalidated(_, _) => ReduceQuestion(p, e)
    case ToolIndeterminate(_, _) | Engine(_) | Other => Some(p)
  }

  function Reduce(p: Projection, e: Envelope): Option<Projection> {
    if e.offset <= p.lastOffset || (p.version == 0 && !e.event.TaskCreated?) then None
    else match ReduceEvent(p, e.offset, e.event)
      case None => None
      case Some(q) => Some(q.(version := p.version + 1, lastOffset := e.offset))
  }

  function ReduceAll(p: Projection, es: seq<Envelope>): Option<Projection> {
    if |es| == 0 then Some(p)
    else match ReduceAll(p, es[..|es| - 1])
      case None => None
      case Some(q) => Reduce(q, es[|es| - 1])
  }

  function Replay(log: seq<Envelope>): Option<Projection> { ReduceAll(EMPTY_PROJECTION, log) }

  lemma {:induction false} ReduceAllConcat(p: Projection, a: seq<Envelope>, b: seq<Envelope>)
    ensures ReduceAll(p, a + b) ==
            match ReduceAll(p, a) case None => None case Some(q) => ReduceAll(q, b)
  {
    if |b| == 0 {
      assert a + b == a;
    } else {
      assert (a + b)[..|a + b| - 1] == a + b[..|b| - 1];
      ReduceAllConcat(p, a, b[..|b| - 1]);
    }
  }

  lemma {:induction false} ReplayVersion(p: Projection, es: seq<Envelope>)
    ensures var r := ReduceAll(p, es);
            r.Some? ==>
              && r.value.version == p.version + |es|
              && p.lastOffset <= r.value.lastOffset
              && (|es| > 0 ==> r.value.lastOffset == es[|es| - 1].offset)
  {
    if |es| > 0 { ReplayVersion(p, es[..|es| - 1]); }
  }

  // ----- the store transaction -----

  datatype IdempotencyKey =
    | QuestionRequestKey(requestId: RequestId, version: nat)
    | QuestionInvalidateKey(requestId: RequestId, revision: nat, version: nat)
    | PermissionRequestKey(requestId: RequestId, version: nat)
    | PermissionResolveKey(requestId: RequestId, revision: nat, option: string)
    | PermissionInvalidateKey(requestId: RequestId, revision: nat, version: nat)
    | RecoveryKey(segment: SegmentId)
    | ClientKey(client: nat, text: string)

  /** The hashed part of a command; equal hashes are taken to mean equal payloads. */
  datatype Payload =
    | QuestionRequestPayload(question: PendingQuestion)
    | QuestionResolvePayload(requestId: RequestId, revision: nat, outcome: QuestionOutcome)
    | QuestionInvalidatePayload(requestId: RequestId, revision: nat, reason: string)
    | PermissionRequestPayload(permission: PendingPermission, saved: Option<string>)
    | PermissionResolvePayload(requestId: RequestId, revision: nat, option: string)
    | PermissionInvalidatePayload(requestId: RequestId, revision: nat, reason: string)
    | RecoveryPayload(segment: SegmentId)
    | SteeringPayload(text: string)

  /** Why a command is refused or fails. */
  datatype Reason =
    | CommandConflict | TaskIsRemoved | NothingEmitted | InvalidStoreInput | ProjectorFailed
    | RequestHasExpired | AlreadyPending | SegmentNotRunning | NoLiveContext | StaleRequest | NoLongerPending
    | ResponseContextChanged | RequestNotPending | AuthorityNotHeld | RequestIdUsed | DecisionRefused
    | RunStartMissing | CheckpointOfOtherSegment | CheckpointToolsDisagree | CheckpointRefused
    | OtherReason(code: nat)

  datatype Rejection = WrongExpectedVersion(actual: nat) | InvalidCommand(reason: Reason)

  datatype Outcome = Accepted | Rejected(rejection: Rejection) | Aborted(error: Reason)

  datatype InboxEntry = InboxEntry(payload: Payload, expected: nat, outcome: Outcome)

  predicate ReplaysWithin(log: seq<Envelope>, lastOffset: nat) {
    var r := Replay(log);
    r.Some? && r.value.lastOffset <= lastOffset
  }

  datatype Store = Store(
    logs: map<TaskId, seq<Envelope>>, lastOffset: nat, inbox: map<(TaskId, IdempotencyKey), InboxEntry>)
  {
    function Log(task: TaskId): seq<Envelope> { if task in logs then logs[task] else [] }

    function Version(task: TaskId): nat { |Log(task)| }

    function View(task: TaskId): Projection {
      match Replay(Log(task)) case Some(p) => p case None => EMPTY_PROJECTION
    }

    /** Every stream replays, and the last offset bounds them all. */
    ghost predicate Valid() {
      forall task :: task in logs ==> ReplaysWithin(logs[task], lastOffset)
    }
  }

  datatype StoreCommand = StoreCommand(task: TaskId, key: IdempotencyKey, payload: Payload, expected: nat, source: Source)

  type Decision = Result<seq<TaskEvent>, Reason>

  function Stamp(events: seq<TaskEvent>, offset: nat): (r: seq<Envelope>)
    ensures |r| == |events|
    ensures forall i :: 0 <= i < |events| ==> r[i] == Envelope(offset + 1 + i, events[i])
  {
    seq(|events|, i requires 0 <= i < |events| => Envelope(offset + 1 + i, events[i]))
  }

  /** Each consumed message must start its run in the same transaction. */
  predicate ConsumptionStartsRun(events: seq<TaskEvent>) {
    forall i :: 0 <= i < |events| && events[i].MessageConsumed? ==>
      exists j :: 0 <= j < |events| && events[j].RunStarted? && events[j].segment == events[i].segment
  }

  predicate AcceptableBatch(source: Source, events: seq<TaskEvent>) {
    && 0 < |events| <= MAX_EVENTS_PER_TRANSACTION
    && ConsumptionStartsRun(events)
    && forall i :: 0 <= i < |events| ==> AllowedSource(source, events[i])
  }

  /** Appends a batch to one stream; `None` when the projector refuses it. */
  function Append(st: Store, task: TaskId, events: seq<TaskEvent>): (r: Option<Store>)
    ensures r.Some? ==>
      && r.value.inbox == st.inbox
      && r.value.logs == st.logs[task := st.Log(task) + Stamp(events, st.lastOffset)]
      && Replay(r.value.logs[task]).Some?
  {
    var log := st.Log(task) + Stamp(events, st.lastOffset);
    if Replay(log).None? then None
    else Some(st.(logs := st.logs[task := log], lastOffset := st.lastOffset + |events|))
  }

  datatype Tx = Tx(store: Store, outcome: Outcome)

  /** A rejection is recorded under the command's key, so a replay sees it again. */
  function Reject(st: Store, c: StoreCommand, rejection: Rejection): Tx {
    Tx(st.(inbox := st.inbox[(c.task, c.key) := InboxEntry(c.payload, c.expected, Rejected(rejection))]),
       Rejected(rejection))
  }

  /**
   One atomic command transaction. `decision` is the caller's decision on the
   current projection; `refusal` is a refusal made before that decision
   (workspace authority, or a permission id already used in this stream).
   */
  function Transact(st: Store, c: StoreCommand, refusal: Option<Reason>, decision: Decision): (r: Tx)
  {
    if (c.task, c.key) in st.inbox then
      var entry := st.inbox[(c.task, c.key)];
      if entry.payload == c.payload && entry.expected == c.expected then Tx(st, entry.outcome)
      else Tx(st, Aborted(CommandConflict))
    else if st.Version(c.task) != c.expected then
      Reject(st, c, WrongExpectedVersion(st.Version(c.task)))
    else if st.View(c.task).removed then
      Reject(st, c, InvalidCommand(TaskIsRemoved))
    else if refusal.Some? then
      Reject(st, c, InvalidCommand(refusal.value))
    else if decision.Err? then
      Reject(st, c, InvalidCommand(decision.error))
    else if |decision.value| == 0 then
      Reject(st, c, InvalidCommand(NothingEmitted))
    else if !AcceptableBatch(c.source, decision.value) then
      Tx(st, Aborted(InvalidStoreInput))
    else match Append(st, c.task, decision.value)
      case None => Tx(st, Aborted(ProjectorFailed))
      case Some(next) =>
        Tx(next.(inbox := next.inbox[(c.task, c.key) := InboxEntry(c.payload, c.expected, Accepted)]), Accepted)
  }

  /** The transaction reached its commit: nothing was replayed from the inbox. */
  predicate Fresh(st: Store, c: StoreCommand) { (c.task, c.key) !in st.inbox }

  lemma AppendKeepsValid(st: Store, task: TaskId, events: seq<TaskEvent>)
    requires st.Valid()
    ensures var r := Append(st, task, events); r.Some? ==> r.value.Valid()
  {
    var r := Append(st, task, events);
    if r.Some? {
      var envelopes := Stamp(events, st.lastOffset);
      ReduceAllConcat(EMPTY_PROJECTION, st.Log(task), envelopes);
      assert task !in st.logs ==> Replay(st.Log(task)) == Some(EMPTY_PROJECTION);
      ReplayVersion(Replay(st.Log(task)).value, envelopes);
    }
  }

  lemma TransactKeepsValid(st: Store, c: StoreCommand, refusal: Option<Reason>, decision: Decision)
    requires st.Valid()
    ensures Transact(st, c, refusal, decision).store.Valid()
  {
    hide Append, AcceptableBatch, ReplaysWithin;
    if decision.Ok? { AppendKeepsValid(st, c.task, decision.value); }
  }
}
