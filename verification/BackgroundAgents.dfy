/**
 Background agents: the registry and attempt tables, the journal that is written
 before them, and each manager operation as the sequence of writes it performs.
 A crash leaves a prefix of those writes.
 */
module BackgroundAgents {
  import opened Basics

  type AgentId = nat
  type RunId = nat
  type RequestId = string

  datatype AgentState =
    | Queued | Running | WaitingForPermission | WaitingForInput | Paused | Recoverable
    | Cancelling | Cancelled | Succeeded | Failed | Interrupted | Archived

  // ----- the payload and its recovery marker -----

  datatype Value = VBool(b: bool) | VString(text: string) | VOther | VObject(fields: map<string, Value>)

  /** The stored payload text: unreadable, or a JSON value. */
  datatype Payload = Malformed | Parsed(value: Value)

  datatype Kind = Input | Permission

  const MARKER := "backgroundRecovery"
  const PENDING_INPUT := "pendingInputRequest"
  const PENDING_PERMISSION := "pendingPermissionDecision"
  const PENDING_PERMISSION_LEGACY := "pending_permission_decision"

  function KindName(kind: Kind): string { if kind.Input? then "input" else "permission" }

  function MarkerField(p: Payload, name: string): Option<string> {
    if p.Parsed? && p.value.VObject? && MARKER in p.value.fields && p.value.fields[MARKER].VObject?
       && name in p.value.fields[MARKER].fields && p.value.fields[MARKER].fields[name].VString?
    then Some(p.value.fields[MARKER].fields[name].text) else None
  }

  function RecoverableKind(p: Payload): Option<Kind> {
    match MarkerField(p, "kind")
    case None => None
    case Some(text) => if text == "input" then Some(Input) else if text == "permission" then Some(Permission) else None
  }

  function RecoverableRequest(p: Payload): Option<RequestId> { MarkerField(p, "requestId") }

  function Fields(p: Payload): map<string, Value> {
    if p.Parsed? && p.value.VObject? then p.value.fields else map[]
  }

  function SetRequest(p: Payload, kind: Kind, r: RequestId): Payload {
    var marker := VObject(map["kind" := VString(KindName(kind)), "requestId" := VString(r)]);
    var fields := Fields(p)[MARKER := marker];
    Parsed(VObject(fields[(if kind.Input? then PENDING_INPUT else PENDING_PERMISSION) := VBool(true)]))
  }

  function ClearRequest(p: Payload, kind: Kind): Payload {
    var fields := if RecoverableKind(p) == Some(kind) then Fields(p) - {MARKER} else Fields(p);
    Parsed(VObject(if kind.Input? then fields - {PENDING_INPUT} else fields - {PENDING_PERMISSION, PENDING_PERMISSION_LEGACY}))
  }

  /** Setting a request is read back, and clearing its kind leaves no marker of that kind. */
  lemma SetThenRead(p: Payload, kind: Kind, r: RequestId)
    ensures RecoverableKind(SetRequest(p, kind, r)) == Some(kind) && RecoverableRequest(SetRequest(p, kind, r)) == Some(r)
    ensures RecoverableKind(ClearRequest(p, kind)) == if RecoverableKind(p) == Some(kind) then None else RecoverableKind(p)
    ensures RecoverableKind(p) == Some(kind) ==> RecoverableRequest(ClearRequest(p, kind)).None?
    ensures RecoverableKind(p) != Some(kind) ==> RecoverableRequest(ClearRequest(p, kind)) == RecoverableRequest(p)
  {
    assert "kind" != "requestId" by { assert "kind"[0] != "requestId"[0]; }
    assert MARKER != PENDING_INPUT by { assert MARKER[0] != PENDING_INPUT[0]; }
    assert MARKER != PENDING_PERMISSION by { assert MARKER[0] != PENDING_PERMISSION[0]; }
    assert MARKER != PENDING_PERMISSION_LEGACY by { assert MARKER[0] != PENDING_PERMISSION_LEGACY[0]; }
    assert "input" != "permission" by { assert "input"[0] != "permission"[0]; }
  }

  // ----- tables, journal and writes -----

  datatype Agent = Agent(state: AgentState, payload: Payload, run: Option<RunId>)

  datatype Attempt = Attempt(id: RunId, agent: AgentId, prior: Option<RunId>, number: nat)

  datatype JournalEvent =
    | StartedEvent(agent: AgentId, attempt: RunId)
    | StateChanged(agent: AgentId, from: AgentState, to: AgentState)
    | InputRequested(agent: AgentId, request: RequestId)
    | InputSubmitted(agent: AgentId, request: RequestId)
    | PermissionRequested(agent: AgentId, request: RequestId)
    | PermissionResolved(agent: AgentId, request: RequestId, approved: bool)
    | DeletedEvent(agent: AgentId)
    | OtherEvent(agent: AgentId)  // completed, failed, cancelled, archived, interrupted

  /** `attempts` is in insertion order. */
  datatype Disk = Disk(journal: seq<JournalEvent>, agents: map<AgentId, Agent>, attempts: seq<Attempt>)

  datatype Write =
    | Journal(events: seq<JournalEvent>)
    | InsertAgent(agent: AgentId, record: Agent)
    | InsertAttempt(attempt: Attempt)
    | Update(agent: AgentId, state: AgentState, payload: Option<Payload>, run: Option<RunId>)
    | DeleteAttempts(agent: AgentId)
    | DeleteAgent(agent: AgentId)

  function Without(attempts: seq<Attempt>, agent: AgentId): seq<Attempt> {
    if |attempts| == 0 then []
    else
      var last := attempts[|attempts| - 1];
      Without(attempts[..|attempts| - 1], agent) + (if last.agent == agent then [] else [last])
  }

  function AttemptsOf(attempts: seq<Attempt>, agent: AgentId): seq<Attempt> {
    if |attempts| == 0 then []
    else
      var last := attempts[|attempts| - 1];
      AttemptsOf(attempts[..|attempts| - 1], agent) + (if last.agent == agent then [last] else [])
  }

  function Updated(a: Agent, state: AgentState, payload: Option<Payload>, run: Option<RunId>): Agent {
    Agent(state, if payload.Some? then payload.value else a.payload, if run.Some? then run else a.run)
  }

  /** One atomic write; `None` is a primary-key violation. Updating a missing row changes nothing. */
  function Apply(d: Disk, w: Write): Option<Disk> {
    match w
    case Journal(events) => Some(d.(journal := d.journal + events))
    case InsertAgent(agent, record) => if agent in d.agents then None else Some(d.(agents := d.agents[agent := record]))
    case InsertAttempt(attempt) =>
      if exists i :: 0 <= i < |d.attempts| && d.attempts[i].id == attempt.id then None else Some(d.(attempts := d.attempts + [attempt]))
    case Update(agent, state, payload, run) =>
      if agent !in d.agents then Some(d)
      else Some(d.(agents := d.agents[agent := Updated(d.agents[agent], state, payload, run)]))
    case DeleteAttempts(agent) => Some(d.(attempts := Without(d.attempts, agent)))
    case DeleteAgent(agent) => Some(d.(agents := d.agents - {agent}))
  }

  /** Performs the writes in order; a failing write ends the operation. */
  function Exec(d: Disk, ws: seq<Write>): Disk
    decreases ws
  {
    if |ws| == 0 then d
    else match Apply(d, ws[0])
      case None => d
      case Some(next) => Exec(next, ws[1..])
  }

  // ----- operations -----

  datatype Op =
    | Start(agent: AgentId, attempt: RunId, payload: Payload)
    | Pause(agent: AgentId)
    | Resume(agent: AgentId, attempt: RunId)
    | WaitForPermission(agent: AgentId, request: RequestId)
    | RequestInput(agent: AgentId, request: RequestId)
    | SendInput(agent: AgentId, request: RequestId)
    | ResolvePermission(agent: AgentId, request: RequestId, approved: bool)
    | Cancel(agent: AgentId)
    | Complete(agent: AgentId)
    | Fail(agent: AgentId)
    | Archive(agent: AgentId)
    | DeleteArchived(agent: AgentId)
    | RecoverOnStartup(order: seq<AgentId>)  // the rows in the order the registry lists them

  datatype Refusal = NotFound | InvalidTransition

  /** A change of state: journal first, then the attempt if there is one, then the row. */
  function Transition(agent: AgentId, from: AgentState, to: AgentState, payload: Option<Payload>, run: Option<RunId>,
                      attempt: Option<Attempt>, first: seq<JournalEvent>, after: seq<JournalEvent>): seq<Write>
  {
    [Journal(first + [StateChanged(agent, from, to)] + after)]
    + (if attempt.Some? then [InsertAttempt(attempt.value)] else [])
    + [Update(agent, to, payload, run)]
  }

  function Move(agent: AgentId, from: AgentState, to: AgentState, after: seq<JournalEvent>): seq<Write> {
    Transition(agent, from, to, None, None, None, [], after)
  }

  function NextAttempt(attempts: seq<Attempt>, agent: AgentId, id: RunId): Attempt {
    var mine := AttemptsOf(attempts, agent);
    Attempt(id, agent, if |mine| == 0 then None else Some(mine[|mine| - 1].id), |mine| + 1)
  }

  /** The check before an answer: a marker, or the recoverable state, makes kind and request binding. */
  predicate RequestMatches(a: Agent, kind: Kind, r: RequestId) {
    a.state.Recoverable? || RecoverableKind(a.payload).Some? ==>
      RecoverableKind(a.payload) == Some(kind) && RecoverableRequest(a.payload) == Some(r)
  }

  function RecoveryTarget(a: Agent): Option<AgentState> {
    match a.state
    case Running | Cancelling => Some(Interrupted)
    case WaitingForPermission =>
      Some(if RecoverableKind(a.payload) == Some(Permission) && RecoverableRequest(a.payload).Some? then Recoverable else Interrupted)
    case WaitingForInput =>
      Some(if RecoverableKind(a.payload) == Some(Input) && RecoverableRequest(a.payload).Some? then Recoverable else Interrupted)
    case _ => None
  }

  function RecoverAgent(d: Disk, agent: AgentId): seq<Write> {
    if agent !in d.agents || RecoveryTarget(d.agents[agent]).None? then []
    else
      var to := RecoveryTarget(d.agents[agent]).value;
      Move(agent, d.agents[agent].state, to, if to.Interrupted? then [OtherEvent(agent)] else [])
  }

  function RecoverPlan(d: Disk, order: seq<AgentId>): seq<Write> {
    if |order| == 0 then [] else RecoverPlan(d, order[..|order| - 1]) + RecoverAgent(d, order[|order| - 1])
  }

  function StartPlan(agent: AgentId, attempt: RunId, payload: Payload): seq<Write> {
    [Journal([StartedEvent(agent, attempt), StateChanged(agent, Queued, Running)]),
     InsertAgent(agent, Agent(Queued, payload, Some(attempt))),
     InsertAttempt(Attempt(attempt, agent, None, 1)),
     Update(agent, Running, None, None)]
  }

  /** States from which an operation is allowed. */
  predicate Allows(op: Op, state: AgentState) {
    match op
    case Pause(_) => state.Queued? || state.Running? || state.WaitingForInput?
    case Resume(_, _) => state.Paused? || state.Interrupted? || state.Recoverable?
    case WaitForPermission(_, _) | RequestInput(_, _) | Complete(_) | Fail(_) => state.Queued? || state.Running?
    case SendInput(_, _) => state.WaitingForInput? || state.Recoverable?
    case ResolvePermission(_, _, _) => state.WaitingForPermission? || state.Recoverable?
    case Cancel(_) =>
      state.Queued? || state.Running? || state.WaitingForPermission? || state.WaitingForInput? || state.Paused? || state.Recoverable?
    case Archive(_) => state.Cancelled? || state.Succeeded? || state.Failed? || state.Interrupted?
    case DeleteArchived(_) => state.Archived?
    case _ => true
  }

  predicate AnswerMatches(op: Op, a: Agent) {
    match op
    case SendInput(_, r) => RequestMatches(a, Input, r)
    case ResolvePermission(_, r, _) => RequestMatches(a, Permission, r)
    case _ => true
  }

  function ResumePlan(d: Disk, agent: AgentId, a: Agent, attempt: RunId): seq<Write> {
    if a.state.Interrupted? then
      Transition(agent, a.state, Running, None, Some(attempt), Some(NextAttempt(d.attempts, agent, attempt)),
          [StartedEvent(agent, attempt)], [])
    else
      Move(agent, a.state, Queued, [])
      + Move(agent, Queued, if RecoverableKind(a.payload) == Some(Input) then WaitingForInput else Running, [])
  }

  function AgentPlan(d: Disk, op: Op, agent: AgentId, a: Agent): seq<Write> {
    match op
    case Pause(_) => Move(agent, a.state, Paused, [])
    case Resume(_, attempt) => ResumePlan(d, agent, a, attempt)
    case WaitForPermission(_, r) =>
      Transition(agent, a.state, WaitingForPermission, Some(SetRequest(a.payload, Permission, r)), None, None, [],
          [PermissionRequested(agent, r)])
    case RequestInput(_, r) =>
      Transition(agent, a.state, WaitingForInput, Some(SetRequest(a.payload, Input, r)), None, None, [], [InputRequested(agent, r)])
    case SendInput(_, r) =>
      [Journal([InputSubmitted(agent, r)])]
      + Transition(agent, a.state, Queued, Some(ClearRequest(a.payload, Input)), None, None, [], [])
      + Move(agent, Queued, Running, [])
    case ResolvePermission(_, r, approved) =>
      var cleared := Some(ClearRequest(a.payload, Permission));
      if approved then
        Transition(agent, a.state, Queued, cleared, None, None, [], [PermissionResolved(agent, r, true)]) + Move(agent, Queued, Running, [])
      else Transition(agent, a.state, Failed, cleared, None, None, [], [PermissionResolved(agent, r, false), OtherEvent(agent)])
    case Cancel(_) => Move(agent, a.state, Cancelling, []) + Move(agent, Cancelling, Cancelled, [OtherEvent(agent)])
    case Complete(_) => Move(agent, a.state, Succeeded, [OtherEvent(agent)])
    case Fail(_) => Move(agent, a.state, Failed, [OtherEvent(agent)])
    case Archive(_) => Move(agent, a.state, Archived, [OtherEvent(agent)])
    case DeleteArchived(_) => [Journal([DeletedEvent(agent)]), DeleteAttempts(agent), DeleteAgent(agent)]
    case _ => []
  }

  /** The writes an operation performs, or why it is refused without any. */
  function Plan(d: Disk, op: Op): Result<seq<Write>, Refusal> {
    match op
    case Start(agent, attempt, payload) => Ok(StartPlan(agent, attempt, payload))
    case RecoverOnStartup(order) => Ok(RecoverPlan(d, order))
    case _ =>
      if op.agent !in d.agents then Err(NotFound)
      else if !Allows(op, d.agents[op.agent].state) || !AnswerMatches(op, d.agents[op.agent]) then Err(InvalidTransition)
      else Ok(AgentPlan(d, op, op.agent, d.agents[op.agent]))
  }

  // ----- runs -----

  /** An operation that crashed after `writes` of its writes; a larger number means it did not crash. */
  datatype Step = Step(op: Op, writes: nat)

  function StepWrites(d: Disk, step: Step): seq<Write> {
    match Plan(d, step.op)
    case Err(_) => []
    case Ok(ws) => if step.writes < |ws| then ws[..step.writes] else ws
  }

  function After(d: Disk, step: Step): Disk { Exec(d, StepWrites(d, step)) }

  function RunSteps(d: Disk, steps: seq<Step>): Disk {
    if |steps| == 0 then d else After(RunSteps(d, steps[..|steps| - 1]), steps[|steps| - 1])
  }

  const EMPTY_DISK := Disk([], map[], [])

  predicate FreshAttempt(d: Disk, id: RunId) {
    forall i :: 0 <= i < |d.attempts| ==> d.attempts[i].id != id
  }

  /**
   What the environment guarantees: new attempt ids, payloads that start without
   a recovery marker, and registry listings that name each row once.
   */
  ghost predicate Admissible(d: Disk, op: Op) {
    match op
    case Start(agent, attempt, payload) => FreshAttempt(d, attempt) && RecoverableKind(payload).None?
    case Resume(_, attempt) => FreshAttempt(d, attempt)
    case RecoverOnStartup(order) =>
      (forall i, j :: 0 <= i < j < |order| ==> order[i] != order[j]) && (forall agent :: agent in d.agents <==> agent in order)
    case _ => true
  }

  ghost predicate AdmissibleRun(d: Disk, steps: seq<Step>) {
    forall i :: 0 <= i < |steps| ==> Admissible(RunSteps(d, steps[..i]), steps[i].op)
  }

  /** Every started id was unused at that moment. */
  ghost predicate UnusedStarts(d: Disk, steps: seq<Step>) {
    forall i :: 0 <= i < |steps| && steps[i].op.Start? ==> steps[i].op.agent !in RunSteps(d, steps[..i]).agents
  }

  ghost predicate CrashFree(d: Disk, steps: seq<Step>) {
    forall i :: 0 <= i < |steps| ==>
      var plan := Plan(RunSteps(d, steps[..i]), steps[i].op);
      plan.Ok? ==> steps[i].writes >= |plan.value|
  }
}
