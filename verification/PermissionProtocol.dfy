/**
 The permission broker and the engine's `decide` call as a step system, at the
 same grain as the question broker: one step is one critical section. Taking a
 waiter out of the map and sending on it are two steps when a decision is
 delivered, and one step when a waiter is cancelled.
 */
module PermissionProtocol {
  import opened Basics
  import opened TaskStream
  import opened StreamLaws

  const VERSION_RETRIES: nat := 8
  const REQUEST_REVISION: nat := 1

  type CallId = nat
  type ThreadId = nat
  type Redactor = string -> string

  datatype EngineDecision = AllowOnce | AllowSession | AllowPermanent | DenyOnce | DenyPermanent | Escalate

  predicate IsAllow(d: EngineDecision) { d.AllowOnce? || d.AllowSession? || d.AllowPermanent? }

  datatype EngineOption = EngineOption(id: string, decision: EngineDecision, requiresConfirmation: bool, labelText: string)

  datatype Authority = Authority(lease: nat, actor: nat, executionRoot: string, writable: bool, sandboxPolicyHash: string)

  /** What the engine asks; `kind` and `preview` are derived from the subject. */
  datatype EngineRequest = EngineRequest(
    requestId: RequestId, options: seq<EngineOption>, confirmationExpected: bool,
    kind: PermissionKind, actionPlanHash: string, subject: Json, actorSource: Json, preview: string)

  /** The validation context; a draft is a context with its request id and preview. */
  datatype Context = Context(
    task: TaskId, segment: SegmentId, revision: nat, kind: PermissionKind,
    actionPlanHash: string, sandboxPolicyHash: string, workspace: string,
    subject: Json, actorSource: Json, options: seq<PermissionOption>, expiresAt: Time, authority: Authority)

  datatype DecisionInput = DecisionInput(
    task: TaskId, requestId: RequestId, revision: nat, option: string, expected: nat)

  // ----- the options a request presents -----

  predicate Presentable(request: EngineRequest, o: EngineOption) {
    !o.requiresConfirmation && !(request.confirmationExpected && IsAllow(o.decision))
  }

  function Presented(request: EngineRequest, options: seq<EngineOption>): seq<EngineOption> {
    if |options| == 0 then []
    else (if Presentable(request, options[0]) then [options[0]] else []) + Presented(request, options[1..])
  }

  /** The decision behind each presented option id; a later duplicate wins. */
  function DecisionMap(options: seq<EngineOption>): map<string, EngineDecision> {
    if |options| == 0 then map[]
    else
      var last := options[|options| - 1];
      DecisionMap(options[..|options| - 1])[last.id := last.decision]
  }

  function OptionList(options: seq<EngineOption>): seq<PermissionOption> {
    seq(|options|, i requires 0 <= i < |options| => PermissionOption(options[i].id, options[i].labelText))
  }

  predicate HasOption(options: seq<PermissionOption>, id: string) {
    exists i :: 0 <= i < |options| && options[i].id == id
  }

  predicate ValidDraft(now: Time, context: Context) {
    && context.revision > 0
    && now < context.expiresAt
    && |context.options| > 0
    && (forall i :: 0 <= i < |context.options| ==> context.options[i].id != "")
    && (forall i, j :: 0 <= i < j < |context.options| ==> context.options[i].id != context.options[j].id)
  }

  // ----- redaction -----

  function InsertField(fields: seq<JsonField>, field: JsonField): seq<JsonField> {
    if |fields| == 0 then [field]
    else if fields[0].name == field.name then [field] + fields[1..]
    else [fields[0]] + InsertField(fields[1..], field)
  }

  /** Strings and object keys are redacted at every depth; a repeated key keeps the last value. */
  function RedactJson(red: Redactor, value: Json): Json
    decreases value
  {
    match value
    case JString(text) => JString(red(text))
    case JArray(items) => JArray(RedactItems(red, items))
    case JObject(fields) => JObject(RedactFields(red, fields))
    case _ => value
  }

  function RedactItems(red: Redactor, items: seq<Json>): seq<Json>
    decreases items
  {
    if |items| == 0 then [] else [RedactJson(red, items[0])] + RedactItems(red, items[1..])
  }

  function RedactField(red: Redactor, field: JsonField): JsonField
    decreases field
  {
    JsonField(red(field.name), RedactJson(red, field.value))
  }

  function RedactFields(red: Redactor, fields: seq<JsonField>): seq<JsonField>
    decreases fields
  {
    if |fields| == 0 then []
    else InsertField(RedactFields(red, fields[..|fields| - 1]), RedactField(red, fields[|fields| - 1]))
  }

  function RedactOptions(red: Redactor, options: seq<PermissionOption>): (r: seq<PermissionOption>)
    ensures |r| == |options|
    ensures forall i :: 0 <= i < |r| ==> r[i].id == options[i].id && r[i].labelText == red(options[i].labelText)
  {
    seq(|options|, i requires 0 <= i < |options| => PermissionOption(options[i].id, red(options[i].labelText)))
  }

  function RedactedDetails(red: Redactor, context: Context, preview: string): PermissionDetails {
    PermissionDetails(context.kind, context.segment, context.actionPlanHash, context.sandboxPolicyHash,
                      red(context.workspace), RedactJson(red, context.subject), RedactJson(red, context.actorSource),
                      RedactOptions(red, context.options), red(preview), context.expiresAt)
  }

  function RedactedProjection(red: Redactor, r: RequestId, context: Context, preview: string, saved: Option<string>): PendingPermission {
    PendingPermission(r, context.revision, if saved.Some? then SavedPolicy else ForegroundTask,
                      Some(RedactedDetails(red, context, preview)))
  }

  // ----- decisions taken inside a store transaction -----

  function RequestDecision(red: Redactor, now: Time, task: Projection, r: RequestId, context: Context,
                           preview: string, saved: Option<string>): Decision {
    if context.expiresAt <= now then Err(RequestHasExpired)
    else if task.permission.Some? || !task.RunningSegment(context.segment) then Err(SegmentNotRunning)
    else
      Ok([PermissionRequested(RedactedProjection(red, r, context, preview, saved))]
         + (if saved.Some? then [PermissionResolved(r, context.revision, saved.value)] else []))
  }

  datatype ResolveRefusal =
    | NoContext | StaleIdentity | RequestExpired | OptionNotPresented | NotPending | NoDetails | ContextChanged

  /** Why a resolution is refused, or `None` when it may be recorded. */
  function ResolveCheck(red: Redactor, now: Time, task: Projection, context: Option<Context>,
                        input: DecisionInput): Option<ResolveRefusal> {
    if context.None? then Some(NoContext)
    else
      var x := context.value;
      if x.task != input.task || x.revision != input.revision then Some(StaleIdentity)
      else if now > x.expiresAt then Some(RequestExpired)
      else if !HasOption(x.options, input.option) then Some(OptionNotPresented)
      else if task.permission.None? then Some(NotPending)
      else
        var pending := task.permission.value;
        if pending.requestId != input.requestId || pending.revision != input.revision then Some(StaleIdentity)
        else if pending.details.None? then Some(NoDetails)
        else
          var d := pending.details.value;
          if now > d.expiresAt || d.expiresAt != x.expiresAt then Some(RequestExpired)
          else if d.kind != x.kind || d.segment != x.segment || d.actionPlanHash != x.actionPlanHash
               || d.sandboxPolicyHash != x.sandboxPolicyHash || d.workspace != red(x.workspace)
               || d.subject != RedactJson(red, x.subject) || d.actorSource != RedactJson(red, x.actorSource)
               || d.options != RedactOptions(red, x.options)
          then Some(ContextChanged)
          else None
  }

  function ResolveDecision(red: Redactor, now: Time, task: Projection, context: Option<Context>, input: DecisionInput): Decision {
    if ResolveCheck(red, now, task, context, input).Some? then Err(DecisionRefused)
    else Ok([PermissionResolved(input.requestId, input.revision, input.option)])
  }

  predicate PendingIs(task: Projection, r: RequestId, revision: nat) {
    task.permission.Some? && task.permission.value.requestId == r && task.permission.value.revision == revision
  }

  function InvalidateDecision(task: Projection, r: RequestId, revision: nat, extra: Decision): Decision {
    if !PendingIs(task, r, revision) then Err(RequestNotPending)
    else if extra.Err? then extra
    else Ok([PermissionInvalidated(r, revision)] + extra.value)
  }

  /** The option of the latest durable resolution of a request. */
  function ResolutionOption(log: seq<Envelope>, r: RequestId, revision: nat): Option<string> {
    if |log| == 0 then None
    else
      var e := log[|log| - 1].event;
      if e.PermissionResolved? && e.requestId == r && e.revision == revision then Some(e.option)
      else ResolutionOption(log[..|log| - 1], r, revision)
  }

  // ----- state -----

  /** Where a `decide` call stands. */
  datatype Pc =
    | Registered                                             // the waiter is in the map
    | Prepared(context: Context, expected: nat)              // the draft is built
    | Judging(context: Context, expected: nat)               // the context is reserved, the saved policy is asked
    | Committing(context: Context, saved: Option<string>, expected: nat, retries: nat)
    | AutoResolved(context: Context, option: string)         // accepted together with its resolution
    | Taking(option: string, final: bool)                    // about to take its own waiter to deliver `option`
    | Sending(held: Option<(CallId, EngineDecision)>, final: bool)  // the waiter is out of the map
    | Waiting
    | Expired
    | Invalidating(expected: nat, retries: nat)
    | Withdrawing(contextDropped: bool)                      // its own invalidation was accepted
    | ReadingStore
    | Polling                                                // one last look at the channel
    | Releasing(context: Context)                            // giving back the reserved context
    | Cancelling                                             // cancels its own waiter, then denies
    | Done(decision: EngineDecision)

  datatype Call = Call(
    task: TaskId, segment: SegmentId, request: EngineRequest, authority: Authority, timeout: nat,
    options: map<string, EngineDecision>, pc: Pc, cell: Option<EngineDecision>, senderLost: bool,
    draft: Option<Context>,       // the context this call prepared
    committed: bool,              // history: its request was accepted
    newId: bool, attempts: nat)   // history: no stream had asked this id; commits tried

  datatype Waiter = Waiter(call: CallId, options: map<string, EngineDecision>)

  /** A client that passed the option check; `context` is set once it has looked one up. */
  datatype Resolver = Resolver(key: IdempotencyKey, input: DecisionInput, context: Option<Option<Context>>)

  /** A thread after its accepted commit; `notice` is the option to deliver, or `None` for a cancellation. */
  datatype Completer = Completer(
    task: TaskId, requestId: RequestId, notice: Option<string>, contextDropped: bool,
    held: Option<(CallId, EngineDecision)>, taken: bool)

  datatype State = State(
    clock: Time, store: Store,
    contexts: map<RequestId, Context>, waiters: map<RequestId, Waiter>,
    calls: map<CallId, Call>, resolvers: map<ThreadId, Resolver>, completers: map<ThreadId, Completer>)

  datatype Step =
    | Tick(to: Time)
    | OtherAppend(task: TaskId, source: Source, events: seq<TaskEvent>)
    | OtherCommand(task: TaskId, client: nat, key: string, text: string, expected: nat, source: Source, decision: Decision)
    | StartDecide(call: CallId, task: TaskId, segment: SegmentId, request: EngineRequest, authority: Authority, timeout: nat)
    | Prepare(call: CallId)
    | Reserve(call: CallId)
    | Judge(call: CallId, saved: Option<string>)
    | TryCommit(call: CallId, leaseHeld: bool)
    | DropOwnContext(call: CallId)
    | TakeOwn(call: CallId)
    | SendOwn(call: CallId)
    | Receive(call: CallId)
    | Expire(call: CallId)
    | LoseSender(call: CallId)
    | ReadVersion(call: CallId)
    | TryInvalidate(call: CallId)
    | Withdraw(call: CallId)
    | ReadResolution(call: CallId)
    | Poll(call: CallId)
    | ReleaseOwn(call: CallId)
    | CancelOwn(call: CallId)
    | StartResolve(thread: ThreadId, commandKey: IdempotencyKey, commandTask: TaskId, commandVersion: nat, input: DecisionInput)
    | LookUp(thread: ThreadId)
    | CommitResolve(thread: ThreadId, leaseHeld: bool)
    | Invalidate(thread: ThreadId, task: TaskId, r: RequestId, revision: nat, expected: nat, reason: string)
    | Steer(thread: ThreadId, task: TaskId, client: nat, key: string, text: string, r: RequestId, revision: nat,
        expected: nat, extra: Decision)
    | DropContext(thread: ThreadId)
    | Take(thread: ThreadId)
    | Send(thread: ThreadId)

  const EXPIRED_REASON := "permission request expired while waiting for a client decision"

  // ----- commands -----

  function RequestCommand(red: Redactor, c: Call, x: Context, saved: Option<string>, expected: nat): StoreCommand {
    var r := c.request.requestId;
    StoreCommand(c.task, PermissionRequestKey(r, expected),
                 PermissionRequestPayload(RedactedProjection(red, r, x, c.request.preview, saved), saved), expected, PermissionBroker)
  }

  /** Refusals the store makes before asking for the decision. */
  function RequestRefusal(log: seq<Envelope>, r: RequestId, leaseHeld: bool): Option<Reason> {
    if !leaseHeld then Some(AuthorityNotHeld)
    else if Count(PermissionAsked(r), log) > 0 then Some(RequestIdUsed)
    else None
  }

  function RequestTx(red: Redactor, s: State, c: Call, x: Context, saved: Option<string>, expected: nat, leaseHeld: bool): Tx {
    Transact(s.store, RequestCommand(red, c, x, saved, expected),
             RequestRefusal(s.store.Log(c.task), c.request.requestId, leaseHeld),
             RequestDecision(red, s.clock, s.store.View(c.task), c.request.requestId, x, c.request.preview, saved))
  }

  function ResolveTx(red: Redactor, s: State, w: Resolver, context: Option<Context>, leaseHeld: bool): Tx {
    Transact(s.store,
             StoreCommand(w.input.task, w.key,
                 PermissionResolvePayload(w.input.requestId, w.input.revision, w.input.option), w.input.expected, PermissionBroker),
             if context.Some? && !leaseHeld then Some(AuthorityNotHeld) else None,
             ResolveDecision(red, s.clock, s.store.View(w.input.task), context, w.input))
  }

  function InvalidateTx(red: Redactor, s: State, task: TaskId, r: RequestId, revision: nat, expected: nat, reason: string): Tx {
    Transact(s.store,
             StoreCommand(task, PermissionInvalidateKey(r, revision, expected),
                 PermissionInvalidatePayload(r, revision, red(reason)), expected, PermissionBroker),
             None, InvalidateDecision(s.store.View(task), r, revision, Ok([])))
  }

  function SteerTx(s: State, task: TaskId, client: nat, key: string, text: string, r: RequestId, revision: nat,
                   expected: nat, extra: Decision): Tx {
    Transact(s.store, StoreCommand(task, ClientKey(client, key), SteeringPayload(text), expected, Supervisor), None,
             InvalidateDecision(s.store.View(task), r, revision, extra))
  }

  // ----- transitions -----

  function SetPc(s: State, call: CallId, pc: Pc): State
    requires call in s.calls
  {
    s.(calls := s.calls[call := s.calls[call].(pc := pc)])
  }

  function SetCell(s: State, call: CallId, d: EngineDecision): State {
    if call in s.calls then s.(calls := s.calls[call := s.calls[call].(cell := Some(d))]) else s
  }

  function LoseCell(s: State, call: CallId): State {
    if call in s.calls then s.(calls := s.calls[call := s.calls[call].(senderLost := true)]) else s
  }

  function ForgetContext(s: State, r: RequestId): State { s.(contexts := s.contexts - {r}) }

  /** Removes the waiter of `r` and sends DenyOnce on it, in one critical section. */
  function Cancel(s: State, r: RequestId): State {
    if r !in s.waiters then s
    else SetCell(s.(waiters := s.waiters - {r}), s.waiters[r].call, DenyOnce)
  }

  /** Removes the waiter of `r`; without a decision for `option` its sender is dropped. */
  function TakeWaiter(s: State, r: RequestId, option: string): State {
    if r !in s.waiters then s
    else
      var s1 := s.(waiters := s.waiters - {r});
      if option in s.waiters[r].options then s1 else LoseCell(s1, s.waiters[r].call)
  }

  function TakenHold(s: State, r: RequestId, option: string): Option<(CallId, EngineDecision)> {
    if r in s.waiters && option in s.waiters[r].options then Some((s.waiters[r].call, s.waiters[r].options[option])) else None
  }

  predicate NeverAsked(store: Store, r: RequestId) {
    forall task :: task in store.logs ==> Count(PermissionAsked(r), store.logs[task]) == 0
  }

  function Begin(s: State, call: CallId, task: TaskId, segment: SegmentId, request: EngineRequest,
                 authority: Authority, timeout: nat): Option<State> {
    var options := DecisionMap(Presented(request, request.options));
    if call in s.calls then None
    else
      var c := Call(task, segment, request, authority, timeout, options, Done(DenyOnce), None, false, None, false,
          NeverAsked(s.store, request.requestId), 0);
      if |Presented(request, request.options)| == 0 || request.requestId in s.waiters then
        Some(s.(calls := s.calls[call := c]))
      else
        Some(s.(calls := s.calls[call := c.(pc := Registered)], waiters := s.waiters[request.requestId := Waiter(call, options)]))
  }

  /** The draft: its deadline is at least one tick ahead. */
  function DraftContext(c: Call, now: Time): Context {
    Context(c.task, c.segment, REQUEST_REVISION, c.request.kind, c.request.actionPlanHash, c.authority.sandboxPolicyHash,
            c.authority.executionRoot, c.request.subject, c.request.actorSource,
            OptionList(Presented(c.request, c.request.options)), now + 1 + c.timeout, c.authority)
  }

  function AfterCommit(x: Context, saved: Option<string>, retries: nat, outcome: Outcome): Pc {
    match outcome
    case Accepted => if saved.Some? then AutoResolved(x, saved.value) else Waiting
    case Rejected(WrongExpectedVersion(actual)) =>
      if retries > 0 then Committing(x, saved, actual, retries - 1) else Releasing(x)
    case _ => Releasing(x)
  }

  function Commit(red: Redactor, s: State, call: CallId, leaseHeld: bool): Option<State>
    requires call in s.calls
  {
    var c := s.calls[call];
    if !c.pc.Committing? then None
    else
      var tx := RequestTx(red, s, c, c.pc.context, c.pc.saved, c.pc.expected, leaseHeld);
      Some(s.(store := tx.store,
              calls := s.calls[call := c.(pc := AfterCommit(c.pc.context, c.pc.saved, c.pc.retries, tx.outcome),
                                          attempts := c.attempts + 1,
                                          committed := c.committed || tx.outcome.Accepted?)]))
  }

  function AfterInvalidate(retries: nat, outcome: Outcome): Pc {
    match outcome
    case Accepted => Withdrawing(false)
    case Rejected(WrongExpectedVersion(actual)) =>
      if retries > 0 then Invalidating(actual, retries - 1) else ReadingStore
    case _ => ReadingStore
  }

  function InvalidateOwn(red: Redactor, s: State, call: CallId): Option<State>
    requires call in s.calls
  {
    var c := s.calls[call];
    if !c.pc.Invalidating? then None
    else
      var tx := InvalidateTx(red, s, c.task, c.request.requestId, REQUEST_REVISION, c.pc.expected, EXPIRED_REASON);
      Some(s.(store := tx.store, calls := s.calls[call := c.(pc := AfterInvalidate(c.pc.retries, tx.outcome))]))
  }

  /** Reserving the context: refused when the draft is invalid or the id is already in flight. */
  function ReserveContext(s: State, call: CallId): Option<State>
    requires call in s.calls
  {
    var c := s.calls[call];
    var r := c.request.requestId;
    if !c.pc.Prepared? then None
    else if !ValidDraft(s.clock, c.pc.context) || r in s.contexts then Some(SetPc(s, call, Cancelling))
    else Some(SetPc(s, call, Judging(c.pc.context, c.pc.expected)).(contexts := s.contexts[r := c.pc.context]))
  }

  function CallStep(red: Redactor, s: State, step: Step, call: CallId): Option<State> {
    if call !in s.calls then None
    else
      var c := s.calls[call];
      var r := c.request.requestId;
      match step
      case Prepare(_) =>
        if c.pc.Registered? then
          var x := DraftContext(c, s.clock);
          Some(s.(calls := s.calls[call := c.(pc := Prepared(x, s.store.Version(c.task)), draft := Some(x))]))
        else None
      case Reserve(_) => ReserveContext(s, call)
      case Judge(_, saved) =>
        if !c.pc.Judging? then None
        else if saved.Some? && !HasOption(c.pc.context.options, saved.value) then Some(SetPc(s, call, Releasing(c.pc.context)))
        else Some(SetPc(s, call, Committing(c.pc.context, saved, c.pc.expected, VERSION_RETRIES)))
      case TryCommit(_, leaseHeld) => Commit(red, s, call, leaseHeld)
      case DropOwnContext(_) =>
        if c.pc.AutoResolved? then Some(SetPc(ForgetContext(s, r), call, Taking(c.pc.option, false))) else None
      case TakeOwn(_) =>
        if !c.pc.Taking? then None
        else
          Some(SetPc(TakeWaiter(s, r, c.pc.option), call, Sending(TakenHold(s, r, c.pc.option), c.pc.final)))
      case SendOwn(_) =>
        if !c.pc.Sending? then None
        else
          var next := if c.pc.final then Polling else Waiting;
          Some(SetPc(if c.pc.held.Some? then SetCell(s, c.pc.held.value.0, c.pc.held.value.1) else s, call, next))
      case Receive(_) =>
        if c.pc.Waiting? && c.cell.Some? then Some(SetPc(s, call, Done(c.cell.value))) else None
      case Expire(_) =>
        if c.pc.Waiting? && c.draft.Some? && s.clock > c.draft.value.expiresAt then Some(SetPc(s, call, Expired)) else None
      case LoseSender(_) =>
        if c.pc.Waiting? && c.cell.None? && c.senderLost then Some(SetPc(s, call, Expired)) else None
      case ReadVersion(_) =>
        if c.pc.Expired? then Some(SetPc(s, call, Invalidating(s.store.Version(c.task), VERSION_RETRIES))) else None
      case TryInvalidate(_) => InvalidateOwn(red, s, call)
      case Withdraw(_) =>
        if c.pc == Withdrawing(false) then Some(SetPc(ForgetContext(s, r), call, Withdrawing(true)))
        else if c.pc == Withdrawing(true) then Some(SetPc(Cancel(s, r), call, Cancelling))
        else None
      case ReadResolution(_) =>
        if !c.pc.ReadingStore? then None
        else
          var found := ResolutionOption(s.store.Log(c.task), r, REQUEST_REVISION);
          Some(SetPc(s, call, if found.Some? then Taking(found.value, true) else Cancelling))
      case Poll(_) =>
        if c.pc.Polling? then Some(SetPc(s, call, Done(if c.cell.Some? then c.cell.value else DenyOnce))) else None
      case ReleaseOwn(_) =>
        if !c.pc.Releasing? then None
        else if r in s.contexts && s.contexts[r] == c.pc.context then Some(SetPc(ForgetContext(s, r), call, Cancelling))
        else Some(SetPc(s, call, Cancelling))
      case CancelOwn(_) =>
        if c.pc.Cancelling? then Some(SetPc(Cancel(s, r), call, Done(DenyOnce))) else None
      case _ => None
  }

  function StartCompleter(s: State, thread: ThreadId, tx: Tx, task: TaskId, r: RequestId, notice: Option<string>): State {
    var s1 := s.(store := tx.store);
    if tx.outcome.Accepted? then s1.(completers := s.completers[thread := Completer(task, r, notice, false, None, false)]) else s1
  }

  /** The client's key, or the key the daemon derives from the decision itself. */
  predicate ResolveKeyOk(key: IdempotencyKey, input: DecisionInput) {
    key.ClientKey? || key == PermissionResolveKey(input.requestId, input.revision, input.option)
  }

  function ThreadStep(red: Redactor, s: State, step: Step): Option<State> {
    match step
    case StartResolve(thread, key, commandTask, commandVersion, input) =>
      if thread in s.resolvers || !ResolveKeyOk(key, input) || commandTask != input.task || commandVersion != input.expected then None
      else if input.requestId in s.waiters && input.option !in s.waiters[input.requestId].options then None
      else Some(s.(resolvers := s.resolvers[thread := Resolver(key, input, None)]))
    case LookUp(thread) =>
      if thread !in s.resolvers || s.resolvers[thread].context.Some? then None
      else
        var w := s.resolvers[thread];
        var x := if w.input.requestId in s.contexts then Some(s.contexts[w.input.requestId]) else None;
        Some(s.(resolvers := s.resolvers[thread := w.(context := Some(x))]))
    case CommitResolve(thread, leaseHeld) =>
      if thread !in s.resolvers || thread in s.completers || s.resolvers[thread].context.None? then None
      else
        var w := s.resolvers[thread];
        Some(StartCompleter(s.(resolvers := s.resolvers - {thread}), thread, ResolveTx(red, s, w, w.context.value, leaseHeld),
                            w.input.task, w.input.requestId, Some(w.input.option)))
    case Invalidate(thread, task, r, revision, expected, reason) =>
      if thread in s.completers then None
      else Some(StartCompleter(s, thread, InvalidateTx(red, s, task, r, revision, expected, reason), task, r, None))
    case Steer(thread, task, client, key, text, r, revision, expected, extra) =>
      if thread in s.completers then None
      else Some(StartCompleter(s, thread, SteerTx(s, task, client, key, text, r, revision, expected, extra), task, r, None))
    case DropContext(thread) =>
      if thread !in s.completers || s.completers[thread].contextDropped then None
      else
        var w := s.completers[thread];
        Some(ForgetContext(s, w.requestId).(completers := s.completers[thread := w.(contextDropped := true)]))
    case Take(thread) =>
      if thread !in s.completers || !s.completers[thread].contextDropped || s.completers[thread].taken then None
      else
        var w := s.completers[thread];
        if w.notice.None? then Some(Cancel(s, w.requestId).(completers := s.completers - {thread}))
        else
          Some(TakeWaiter(s, w.requestId, w.notice.value).(completers :=
                 s.completers[thread := w.(taken := true, held := TakenHold(s, w.requestId, w.notice.value))]))
    case Send(thread) =>
      if thread !in s.completers || !s.completers[thread].taken then None
      else
        var w := s.completers[thread];
        Some((if w.held.Some? then SetCell(s, w.held.value.0, w.held.value.1) else s).(completers := s.completers - {thread}))
    case _ => None
  }

  /** Everything else that writes to task streams; it cannot act as the permission broker. */
  function OtherStep(s: State, step: Step): Option<State> {
    match step
    case Tick(to) => if to < s.clock then None else Some(s.(clock := to))
    case OtherAppend(task, source, events) =>
      if source == PermissionBroker || !AcceptableBatch(source, events) then None
      else (match Append(s.store, task, events) case None => None case Some(store) => Some(s.(store := store)))
    case OtherCommand(task, client, key, text, expected, source, decision) =>
      if source == PermissionBroker then None
      else Some(s.(store := Transact(s.store,
          StoreCommand(task, ClientKey(client, key), SteeringPayload(text), expected, source), None, decision).store))
    case _ => None
  }

  function ActingCall(step: Step): Option<CallId> {
    match step
    case Prepare(c) => Some(c)
    case Reserve(c) => Some(c)
    case Judge(c, _) => Some(c)
    case TryCommit(c, _) => Some(c)
    case DropOwnContext(c) => Some(c)
    case TakeOwn(c) => Some(c)
    case SendOwn(c) => Some(c)
    case Receive(c) => Some(c)
    case Expire(c) => Some(c)
    case LoseSender(c) => Some(c)
    case ReadVersion(c) => Some(c)
    case TryInvalidate(c) => Some(c)
    case Withdraw(c) => Some(c)
    case ReadResolution(c) => Some(c)
    case Poll(c) => Some(c)
    case ReleaseOwn(c) => Some(c)
    case CancelOwn(c) => Some(c)
    case _ => None
  }

  function Apply(red: Redactor, s: State, step: Step): Option<State> {
    if step.Tick? || step.OtherAppend? || step.OtherCommand? then OtherStep(s, step)
    else if step.StartDecide? then Begin(s, step.call, step.task, step.segment, step.request, step.authority, step.timeout)
    else if ActingCall(step).Some? then CallStep(red, s, step, ActingCall(step).value)
    else ThreadStep(red, s, step)
  }

  function RunSteps(red: Redactor, s: State, steps: seq<Step>): Option<State> {
    if |steps| == 0 then Some(s)
    else match RunSteps(red, s, steps[..|steps| - 1])
      case None => None
      case Some(t) => Apply(red, t, steps[|steps| - 1])
  }

  // ----- the inbox -----

  predicate Holds(log: seq<Envelope>, e: TaskEvent) {
    exists i :: 0 <= i < |log| && log[i].event == e
  }

  /** An accepted permission command has left its events in the stream. */
  predicate EntrySound(log: seq<Envelope>, entry: InboxEntry) {
    entry.outcome.Accepted? ==>
      match entry.payload
      case PermissionRequestPayload(p, saved) =>
        Count(PermissionAsked(p.requestId), log) > 0
            && (saved.Some? ==> Holds(log, PermissionResolved(p.requestId, p.revision, saved.value)))
      case PermissionResolvePayload(r, revision, option) => Holds(log, PermissionResolved(r, revision, option))
      case PermissionInvalidatePayload(r, _, _) => Count(PermissionDropped(r), log) > 0
      case _ => true
  }

  ghost predicate InboxSound(store: Store) {
    forall k :: k in store.inbox ==> EntrySound(store.Log(k.0), store.inbox[k])
  }

  /** A freshly started broker over any accepted streams and any sound inbox. */
  ghost predicate Started(s: State) {
    && s.store.Valid() && InboxSound(s.store)
    && s.contexts == map[] && s.waiters == map[] && s.calls == map[] && s.resolvers == map[] && s.completers == map[]
  }

  /** A broker that starts with no permission pending, as startup recovery leaves the streams. */
  ghost predicate Init(s: State) {
    Started(s) && forall task :: s.store.View(task).permission.None?
  }

  /** A steering acceptance replayed from the inbox onto a permission it never invalidated. */
  predicate CrossReplay(s: State, step: Step) {
    step.Steer?
    && (step.task, ClientKey(step.client, step.key)) in s.store.inbox
    && s.store.inbox[(step.task, ClientKey(step.client, step.key))] == InboxEntry(SteeringPayload(step.text), step.expected, Accepted)
    && Count(PermissionDropped(step.r), s.store.Log(step.task)) == 0
  }

  ghost predicate NoCrossReplay(red: Redactor, s: State, steps: seq<Step>) {
    forall i :: 0 <= i < |steps| ==>
      var before := RunSteps(red, s, steps[..i]);
      before.Some? ==> !CrossReplay(before.value, steps[i])
  }
}
