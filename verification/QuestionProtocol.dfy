/**
 The question broker as a step system. One step is one critical section of the
 daemon: a store transaction, one locked access to the context or waiter map, a
 delivery, or a clock tick. Steps of any number of engine calls, clients,
 invalidations, steering commands and unrelated writers interleave freely.
 */
module QuestionProtocol {
  import opened Basics
  import opened TaskStream
  import opened StreamLaws
  import opened QuestionValidation

  const REQUEST_REVISION: nat := 1
  const VERSION_RETRIES: nat := 8

  type CallId = nat
  type ThreadId = nat
  type Redactor = string -> string

  datatype Context = Context(task: TaskId, segment: SegmentId, revision: nat, request: AskRequest)

  datatype DecisionInput = DecisionInput(
    task: TaskId, requestId: RequestId, revision: nat, response: Response, expected: nat)

  // ----- redaction -----

  function RedactOptional(red: Redactor, text: Option<string>): Option<string> {
    if text.Some? then Some(red(text.value)) else None
  }

  function RedactOption(red: Redactor, o: QuestionOption): QuestionOption {
    QuestionOption(o.id, red(o.labelText), RedactOptional(red, o.description))
  }

  function RedactOptions(red: Redactor, options: seq<QuestionOption>): seq<QuestionOption> {
    seq(|options|, i requires 0 <= i < |options| => RedactOption(red, options[i]))
  }

  function RedactQuestion(red: Redactor, q: QuestionItem): QuestionItem {
    QuestionItem(q.id, RedactOptional(red, q.header), red(q.text), RedactOptions(red, q.options), q.multiSelect, q.allowCustom)
  }

  function RedactQuestions(red: Redactor, questions: seq<QuestionItem>): seq<QuestionItem> {
    seq(|questions|, i requires 0 <= i < |questions| => RedactQuestion(red, questions[i]))
  }

  function RedactAnswers(red: Redactor, answers: seq<Answer>): seq<Answer> {
    seq(|answers|, i requires 0 <= i < |answers| =>
      Answer(answers[i].questionId, answers[i].selected, RedactOptional(red, answers[i].text)))
  }

  function RedactOutcome(red: Redactor, outcome: QuestionOutcome): QuestionOutcome {
    if outcome.Answered? then Answered(RedactAnswers(red, outcome.answers)) else outcome
  }

  function RedactedProjection(red: Redactor, context: Context): PendingQuestion {
    PendingQuestion(context.request.requestId, context.revision, context.segment, context.request.tool,
                    RedactQuestions(red, context.request.questions), context.request.expiresAt)
  }

  function ResponseOutcome(response: Response): QuestionOutcome {
    if response.ResponseAnswered? then Answered(response.answers) else Declined
  }

  predicate IsReply(outcome: QuestionOutcome) { outcome.Answered? || outcome.Declined? }

  // ----- decisions taken inside a store transaction -----

  function RequestDecision(red: Redactor, now: Time, task: Projection, context: Context): Decision {
    if context.request.expiresAt <= now then Err(RequestHasExpired)
    else if task.question.Some? || task.permission.Some? then Err(AlreadyPending)
    else if !task.RunningSegment(context.segment) then Err(SegmentNotRunning)
    else Ok([QuestionRequested(RedactedProjection(red, context))])
  }

  function ResolveDecision(red: Redactor, now: Time, task: Projection, context: Option<Context>, input: DecisionInput): Decision {
    if context.None? then Err(NoLiveContext)
    else if context.value.task != input.task || context.value.revision != input.revision then Err(StaleRequest)
    else if now > context.value.request.expiresAt then Err(RequestHasExpired)
    else if task.question.None? then Err(NoLongerPending)
    else if task.question.value.requestId != input.requestId
         || task.question.value.revision != input.revision
         || task.question.value.segment != context.value.segment
         || task.question.value.tool != context.value.request.tool
         || task.question.value.expiresAt != context.value.request.expiresAt
         || task.question.value.questions != RedactQuestions(red, context.value.request.questions)
    then Err(ResponseContextChanged)
    else Ok([QuestionResolved(input.requestId, input.revision, RedactOutcome(red, ResponseOutcome(input.response)))])
  }

  predicate PendingIs(task: Projection, r: RequestId, revision: nat) {
    task.question.Some? && task.question.value.requestId == r && task.question.value.revision == revision
  }

  /** `extra` holds the events of the steering command that invalidates the question. */
  function InvalidateDecision(task: Projection, r: RequestId, revision: nat, extra: Decision): Decision {
    if !PendingIs(task, r, revision) then Err(RequestNotPending)
    else if extra.Err? then extra
    else Ok([QuestionInvalidated(r, revision)] + extra.value)
  }

  /** The latest durable resolution of a request. */
  function Resolution(log: seq<Envelope>, r: RequestId, revision: nat): Option<QuestionOutcome> {
    if |log| == 0 then None
    else
      var e := log[|log| - 1].event;
      if e.QuestionResolved? && e.requestId == r && e.revision == revision then Some(e.outcome)
      else Resolution(log[..|log| - 1], r, revision)
  }

  // ----- state -----

  datatype AskResult = Returned(outcome: QuestionOutcome) | Errored

  /** Where an `ask` call stands. */
  datatype AskPc =
    | Reserved
    | Committing(expected: nat, retries: nat)
    | Waiting
    | Expired
    | Invalidating(expected: nat, retries: nat)
    | Withdrawing(contextDropped: bool)
    | ReadingStore
    | Releasing(contextDropped: bool, result: AskResult)
    | Done(result: AskResult)

  /**
   `cell` is the receiving end of the one-shot channel and `senderLost` says the
   sender was dropped unused. `newId` and `attempts` are history: no stream had
   asked this id when the call began, and the number of commits it has tried.
   */
  datatype Call = Call(
    task: TaskId, segment: SegmentId, request: AskRequest, pc: AskPc,
    cell: Option<QuestionOutcome>, senderLost: bool, newId: bool, attempts: nat)
  {
    function Ctx(): Context { Context(task, segment, REQUEST_REVISION, request) }
  }

  /** A client that has looked up the validation context and not yet committed. */
  datatype Resolver = Resolver(key: IdempotencyKey, input: DecisionInput, context: Option<Context>)

  /** A thread between its accepted commit and the delivery to the waiter. */
  datatype Completer = Completer(task: TaskId, requestId: RequestId, outcome: QuestionOutcome, contextDropped: bool)

  datatype State = State(
    clock: Time, store: Store,
    contexts: map<RequestId, Context>, waiters: map<RequestId, CallId>,
    calls: map<CallId, Call>, resolvers: map<ThreadId, Resolver>, completers: map<ThreadId, Completer>,
    submitted: set<(RequestId, QuestionOutcome)>)  // history: every outcome a client has submitted

  datatype Step =
    | Tick(to: Time)
    | OtherAppend(task: TaskId, source: Source, events: seq<TaskEvent>)
    | OtherCommand(task: TaskId, client: nat, key: string, text: string, expected: nat, source: Source, decision: Decision)
    | StartAsk(call: CallId, task: TaskId, segment: SegmentId, request: AskRequest)
    | ReadVersion(call: CallId)
    | TryCommit(call: CallId)
    | Receive(call: CallId)
    | Expire(call: CallId)
    | LoseSender(call: CallId)
    | TryInvalidate(call: CallId)
    | Withdraw(call: CallId)
    | ReadResolution(call: CallId)
    | Release(call: CallId)
    | StartResolve(thread: ThreadId, client: nat, key: string, commandTask: TaskId, commandVersion: nat, input: DecisionInput)
    | CommitResolve(thread: ThreadId)
    | Invalidate(thread: ThreadId, task: TaskId, r: RequestId, revision: nat, expected: nat, reason: string)
    | Steer(thread: ThreadId, task: TaskId, client: nat, key: string, text: string, r: RequestId, revision: nat,
        expected: nat, extra: Decision)
    | DropContext(thread: ThreadId)
    | Deliver(thread: ThreadId)

  const EXPIRED_REASON := "question request expired while waiting for user input"

  // ----- commands -----

  function RequestCommand(red: Redactor, c: Call, expected: nat): StoreCommand {
    var q := RedactedProjection(red, c.Ctx());
    StoreCommand(c.task, QuestionRequestKey(c.request.requestId, expected), QuestionRequestPayload(q), expected, QuestionBroker)
  }

  function InvalidateCommand(red: Redactor, task: TaskId, r: RequestId, revision: nat, expected: nat, reason: string): StoreCommand {
    StoreCommand(task, QuestionInvalidateKey(r, revision, expected),
        QuestionInvalidatePayload(r, revision, red(reason)), expected, QuestionBroker)
  }

  function ResolveCommand(red: Redactor, w: Resolver): StoreCommand {
    StoreCommand(w.input.task, w.key,
            QuestionResolvePayload(w.input.requestId, w.input.revision, RedactOutcome(red, ResponseOutcome(w.input.response))),
            w.input.expected, QuestionBroker)
  }

  function SteerCommand(task: TaskId, client: nat, key: string, text: string, expected: nat): StoreCommand {
    StoreCommand(task, ClientKey(client, key), SteeringPayload(text), expected, Supervisor)
  }

  function RequestTx(red: Redactor, s: State, c: Call, expected: nat): Tx {
    Transact(s.store, RequestCommand(red, c, expected), None, RequestDecision(red, s.clock, s.store.View(c.task), c.Ctx()))
  }

  function InvalidateTx(red: Redactor, s: State, task: TaskId, r: RequestId, revision: nat, expected: nat, reason: string): Tx {
    Transact(s.store, InvalidateCommand(red, task, r, revision, expected, reason), None,
             InvalidateDecision(s.store.View(task), r, revision, Ok([])))
  }

  function ResolveTx(red: Redactor, s: State, w: Resolver): Tx {
    Transact(s.store, ResolveCommand(red, w), None, ResolveDecision(red, s.clock, s.store.View(w.input.task), w.context, w.input))
  }

  function SteerTx(s: State, task: TaskId, client: nat, key: string, text: string, r: RequestId, revision: nat,
                   expected: nat, extra: Decision): Tx {
    Transact(s.store, SteerCommand(task, client, key, text, expected), None,
             InvalidateDecision(s.store.View(task), r, revision, extra))
  }

  // ----- transitions -----

  function SetPc(s: State, call: CallId, pc: AskPc): State
    requires call in s.calls
  {
    s.(calls := s.calls[call := s.calls[call].(pc := pc)])
  }

  /** Sends `outcome` on the waiter of `r`, if one is registered; the waiter is removed in the same critical section. */
  function Notify(s: State, r: RequestId, outcome: QuestionOutcome): State {
    if r !in s.waiters then s
    else
      var c := s.waiters[r];
      var s1 := s.(waiters := s.waiters - {r});
      if c in s.calls then s1.(calls := s.calls[c := s.calls[c].(cell := Some(outcome))]) else s1
  }

  /** Drops the waiter of `r` without sending. */
  function Discard(s: State, r: RequestId): State {
    if r !in s.waiters then s
    else
      var c := s.waiters[r];
      var s1 := s.(waiters := s.waiters - {r});
      if c in s.calls then s1.(calls := s.calls[c := s.calls[c].(senderLost := true)]) else s1
  }

  function ForgetContext(s: State, r: RequestId): State { s.(contexts := s.contexts - {r}) }

  predicate NeverAsked(store: Store, r: RequestId) {
    forall task :: task in store.logs ==> Count(QuestionAsked(r), store.logs[task]) == 0
  }

  function Begin(s: State, call: CallId, task: TaskId, segment: SegmentId, request: AskRequest): Option<State> {
    var r := request.requestId;
    if call in s.calls || !ValidRequest(s.clock, request) || r in s.contexts || r in s.waiters then None
    else
      var c := Call(task, segment, request, Reserved, None, false, NeverAsked(s.store, r), 0);
      Some(s.(calls := s.calls[call := c], contexts := s.contexts[r := c.Ctx()], waiters := s.waiters[r := call]))
  }

  /** After one attempt to commit the request: a version conflict is retried while retries remain. */
  function AfterCommit(retries: nat, outcome: Outcome): AskPc {
    match outcome
    case Accepted => Waiting
    case Rejected(WrongExpectedVersion(actual)) =>
      if retries > 0 then Committing(actual, retries - 1) else Releasing(false, Errored)
    case _ => Releasing(false, Errored)
  }

  function Commit(red: Redactor, s: State, call: CallId): Option<State>
    requires call in s.calls
  {
    var c := s.calls[call];
    if !c.pc.Committing? then None
    else
      var tx := RequestTx(red, s, c, c.pc.expected);
      Some(s.(store := tx.store,
              calls := s.calls[call := c.(pc := AfterCommit(c.pc.retries, tx.outcome), attempts := c.attempts + 1)]))
  }

  function AfterInvalidate(retries: nat, outcome: Outcome): AskPc {
    match outcome
    case Accepted => Withdrawing(false)
    case Rejected(WrongExpectedVersion(actual)) =>
      if retries > 0 then Invalidating(actual, retries - 1) else ReadingStore
    case _ => ReadingStore
  }

  function InvalidateOwn(red: Redactor, s: State, call: CallId): Option<State>
    requires call in s.calls
  {
    var c := s.calls[call];
    if !c.pc.Invalidating? then None
    else
      var tx := InvalidateTx(red, s, c.task, c.request.requestId, REQUEST_REVISION, c.pc.expected, EXPIRED_REASON);
      Some(s.(store := tx.store, calls := s.calls[call := c.(pc := AfterInvalidate(c.pc.retries, tx.outcome))]))
  }

  function CallStep(red: Redactor, s: State, step: Step, call: CallId): Option<State> {
    if call !in s.calls then None
    else
      var c := s.calls[call];
      var r := c.request.requestId;
      match step
      case ReadVersion(_) =>
        if c.pc.Reserved? then Some(SetPc(s, call, Committing(s.store.Version(c.task), VERSION_RETRIES)))
        else if c.pc.Expired? then Some(SetPc(s, call, Invalidating(s.store.Version(c.task), VERSION_RETRIES)))
        else None
      case TryCommit(_) => Commit(red, s, call)
      case Receive(_) =>
        if c.pc.Waiting? && c.cell.Some? then Some(SetPc(s, call, Done(Returned(c.cell.value)))) else None
      case Expire(_) =>
        if c.pc.Waiting? && s.clock > c.request.expiresAt then Some(SetPc(s, call, Expired)) else None
      case LoseSender(_) =>
        if c.pc.Waiting? && c.cell.None? && c.senderLost then Some(SetPc(s, call, Expired)) else None
      case TryInvalidate(_) => InvalidateOwn(red, s, call)
      case Withdraw(_) =>
        if c.pc == Withdrawing(false) then Some(SetPc(ForgetContext(s, r), call, Withdrawing(true)))
        else if c.pc == Withdrawing(true) then Some(SetPc(Notify(s, r, QuestionOutcome.Cancelled), call,
            Releasing(false, Returned(TimedOut))))
        else None
      case ReadResolution(_) =>
        if !c.pc.ReadingStore? then None
        else
          var found := Resolution(s.store.Log(c.task), r, REQUEST_REVISION);
          Some(SetPc(s, call, Releasing(false, Returned(if found.Some? then found.value else TimedOut))))
      case Release(_) =>
        if !c.pc.Releasing? then None
        else if !c.pc.contextDropped then Some(SetPc(ForgetContext(s, r), call, Releasing(true, c.pc.result)))
        else Some(SetPc(Discard(s, r), call, Done(c.pc.result)))
      case _ => None
  }

  function StartCompleter(s: State, thread: ThreadId, tx: Tx, task: TaskId, r: RequestId, outcome: QuestionOutcome): State {
    var s1 := s.(store := tx.store);
    if tx.outcome.Accepted? then s1.(completers := s.completers[thread := Completer(task, r, outcome, false)]) else s1
  }

  function ThreadStep(red: Redactor, s: State, step: Step): Option<State> {
    match step
    case StartResolve(thread, client, key, commandTask, commandVersion, input) =>
      if thread in s.resolvers || commandTask != input.task || commandVersion != input.expected then None
      else
        var context := if input.requestId in s.contexts then Some(s.contexts[input.requestId]) else None;
        if context.Some? && !ValidResponse(context.value.request.questions, input.response) then None
        else Some(s.(resolvers := s.resolvers[thread := Resolver(ClientKey(client, key), input, context)],
                     submitted := s.submitted + {(input.requestId, ResponseOutcome(input.response))}))
    case CommitResolve(thread) =>
      if thread !in s.resolvers || thread in s.completers then None
      else
        var w := s.resolvers[thread];
        Some(StartCompleter(s.(resolvers := s.resolvers - {thread}), thread, ResolveTx(red, s, w),
                            w.input.task, w.input.requestId, ResponseOutcome(w.input.response)))
    case Invalidate(thread, task, r, revision, expected, reason) =>
      if thread in s.completers then None
      else Some(StartCompleter(s, thread, InvalidateTx(red, s, task, r, revision, expected, reason), task, r, QuestionOutcome.Cancelled))
    case Steer(thread, task, client, key, text, r, revision, expected, extra) =>
      if thread in s.completers then None
      else Some(StartCompleter(s, thread, SteerTx(s, task, client, key, text, r, revision, expected, extra), task,
          r, QuestionOutcome.Cancelled))
    case DropContext(thread) =>
      if thread !in s.completers || s.completers[thread].contextDropped then None
      else
        var w := s.completers[thread];
        Some(ForgetContext(s, w.requestId).(completers := s.completers[thread := w.(contextDropped := true)]))
    case Deliver(thread) =>
      if thread !in s.completers || !s.completers[thread].contextDropped then None
      else
        var w := s.completers[thread];
        Some(Notify(s, w.requestId, w.outcome).(completers := s.completers - {thread}))
    case _ => None
  }

  /** Everything else that writes to task streams; it cannot act as the question broker. */
  function OtherStep(s: State, step: Step): Option<State> {
    match step
    case Tick(to) => if to < s.clock then None else Some(s.(clock := to))
    case OtherAppend(task, source, events) =>
      if source == QuestionBroker || !AcceptableBatch(source, events) then None
      else (match Append(s.store, task, events) case None => None case Some(store) => Some(s.(store := store)))
    case OtherCommand(task, client, key, text, expected, source, decision) =>
      if source == QuestionBroker then None
      else Some(s.(store := Transact(s.store,
          StoreCommand(task, ClientKey(client, key), SteeringPayload(text), expected, source), None, decision).store))
    case _ => None
  }

  function Apply(red: Redactor, s: State, step: Step): Option<State> {
    match step
    case Tick(_) | OtherAppend(_, _, _) | OtherCommand(_, _, _, _, _, _, _) => OtherStep(s, step)
    case StartAsk(call, task, segment, request) => Begin(s, call, task, segment, request)
    case ReadVersion(c) => CallStep(red, s, step, c)
    case TryCommit(c) => CallStep(red, s, step, c)
    case Receive(c) => CallStep(red, s, step, c)
    case Expire(c) => CallStep(red, s, step, c)
    case LoseSender(c) => CallStep(red, s, step, c)
    case TryInvalidate(c) => CallStep(red, s, step, c)
    case Withdraw(c) => CallStep(red, s, step, c)
    case ReadResolution(c) => CallStep(red, s, step, c)
    case Release(c) => CallStep(red, s, step, c)
    case _ => ThreadStep(red, s, step)
  }

  function RunSteps(red: Redactor, s: State, steps: seq<Step>): Option<State> {
    if |steps| == 0 then Some(s)
    else match RunSteps(red, s, steps[..|steps| - 1])
      case None => None
      case Some(t) => Apply(red, t, steps[|steps| - 1])
  }

  // ----- the inbox -----

  predicate Holds(log: seq<Envelope>, e: TaskEvent) {
    exists i :: 0 <= i < |log| && log[i].event == e
  }

  /** An accepted question command has left its event in the stream. */
  predicate EntrySound(log: seq<Envelope>, entry: InboxEntry) {
    entry.outcome.Accepted? ==>
      match entry.payload
      case QuestionRequestPayload(q) => Count(QuestionAsked(q.requestId), log) > 0
      case QuestionResolvePayload(r, revision, outcome) => Holds(log, QuestionResolved(r, revision, outcome))
      case QuestionInvalidatePayload(r, _, _) => Count(QuestionDropped(r), log) > 0
      case _ => true
  }

  ghost predicate InboxSound(store: Store) {
    forall k :: k in store.inbox ==> EntrySound(store.Log(k.0), store.inbox[k])
  }

  /** A freshly started broker over any accepted streams and any sound inbox. */
  ghost predicate Init(s: State) {
    && s.store.Valid() && InboxSound(s.store)
    && s.contexts == map[] && s.waiters == map[] && s.calls == map[] && s.resolvers == map[] && s.completers == map[]
    && s.submitted == {}
  }

  /**
   A steering command whose acceptance is replayed from the inbox although the
   question it is now paired with was never invalidated.
   */
  predicate CrossReplay(s: State, step: Step) {
    step.Steer?
    && (step.task, ClientKey(step.client, step.key)) in s.store.inbox
    && s.store.inbox[(step.task, ClientKey(step.client, step.key))] == InboxEntry(SteeringPayload(step.text), step.expected, Accepted)
    && Count(QuestionDropped(step.r), s.store.Log(step.task)) == 0
  }

  /** A run in which no step is such a replay. */
  ghost predicate NoCrossReplay(red: Redactor, s: State, steps: seq<Step>) {
    forall i :: 0 <= i < |steps| ==>
      var before := RunSteps(red, s, steps[..i]);
      before.Some? ==> !CrossReplay(before.value, steps[i])
  }
}
