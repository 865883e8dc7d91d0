/** The laws of background agents over whole runs. */
module BackgroundRuns {
  import opened Basics
  import opened BackgroundAgents
  import opened BackgroundLaws

  // ----- startup recovery -----

  predicate Distinct(order: seq<AgentId>) {
    forall i, j :: 0 <= i < j < |order| ==> order[i] != order[j]
  }

  lemma RecoverAgentGood(wal: bool, d: Disk, agent: AgentId)
    requires CrashInv(wal, d)
    ensures Good(wal, d, RecoverAgent(d, agent))
    ensures Exec(d, RecoverAgent(d, agent)) ==
            if agent !in d.agents || RecoveryTarget(d.agents[agent]).None? then d
            else Moved(d, agent, d.agents[agent].state, RecoveryTarget(d.agents[agent]).value, None, None, None, [],
                       if RecoveryTarget(d.agents[agent]).value.Interrupted? then [OtherEvent(agent)] else [])
  {
    if agent in d.agents && RecoveryTarget(d.agents[agent]).Some? {
      assert MarkerOk(d.agents[agent]);
      var to := RecoveryTarget(d.agents[agent]).value;
      MoveGood(wal, d, agent, d.agents[agent].state, to, if to.Interrupted? then [OtherEvent(agent)] else []);
    }
  }

  /** Recovering some rows leaves the others, and all attempts, as they were. */
  ghost predicate OthersKept(d: Disk, e: Disk, order: seq<AgentId>) {
    && e.agents.Keys == d.agents.Keys && e.attempts == d.attempts
    && forall agent :: agent in d.agents && agent !in order ==> e.agents[agent] == d.agents[agent]
  }

  lemma {:induction false} RecoverGood(wal: bool, d: Disk, order: seq<AgentId>)
    requires CrashInv(wal, d) && Distinct(order)
    ensures Good(wal, d, RecoverPlan(d, order)) && OthersKept(d, Exec(d, RecoverPlan(d, order)), order)
  {
    hide CrashInv, Good, RecoverAgent;
    if |order| == 0 {
      EmptyGood(wal, d);
    } else {
      var init, agent := order[..|order| - 1], order[|order| - 1];
      RecoverGood(wal, d, init);
      var e := Exec(d, RecoverPlan(d, init));
      GoodKeeps(wal, d, RecoverPlan(d, init));
      RecoverAgentGood(wal, e, agent);
      SameRecovery(d, e, agent);
      Then(wal, d, RecoverPlan(d, init), RecoverAgent(d, agent));
      assert forall a :: a !in order ==> a !in init && a != agent;
    }
  }

  lemma EmptyGood(wal: bool, d: Disk)
    ensures Good(wal, d, []) && Exec(d, []) == d
  {
  }

  lemma SameRecovery(d: Disk, e: Disk, agent: AgentId)
    requires agent in d.agents <==> agent in e.agents
    requires agent in d.agents ==> d.agents[agent] == e.agents[agent]
    ensures RecoverAgent(d, agent) == RecoverAgent(e, agent)
  {
  }

  // ----- every run, with crashes -----

  lemma StepKeeps(wal: bool, d: Disk, step: Step)
    requires CrashInv(wal, d) && Admissible(d, step.op) && (wal && step.op.Start? ==> step.op.agent !in d.agents)
    ensures CrashInv(wal, After(d, step))
  {
    hide CrashInv, Exec, AllowedAll, Completes;
    var plan := Plan(d, step.op);
    if plan.Ok? {
      assert AllowedAll(wal, d, plan.value) by { PlanAllowed(wal, d, step.op); }
      if step.writes < |plan.value| {
        PrefixKeeps(wal, d, plan.value, step.writes);
      } else {
        PrefixKeeps(wal, d, plan.value, |plan.value|);
        assert plan.value[..|plan.value|] == plan.value;
      }
    } else {
      EmptyGood(wal, d);
    }
  }

  lemma PlanAllowed(wal: bool, d: Disk, op: Op)
    requires CrashInv(wal, d) && Admissible(d, op) && Plan(d, op).Ok? && (wal && op.Start? ==> op.agent !in d.agents)
    ensures AllowedAll(wal, d, Plan(d, op).value)
  {
    hide CrashInv, AllowedAll, Completes;
    if op.Start? {
      if op.agent !in d.agents { StartGood(wal, d, op.agent, op.attempt, op.payload); } else { StartUsed(d,
          op.agent, op.attempt, op.payload); }
    } else if op.RecoverOnStartup? {
      RecoverGood(wal, d, op.order);
    } else {
      AgentPlanGood(wal, d, op);
    }
  }

  lemma {:induction false} RunKeeps(wal: bool, steps: seq<Step>)
    requires AdmissibleRun(EMPTY_DISK, steps) && (wal ==> UnusedStarts(EMPTY_DISK, steps))
    ensures CrashInv(wal, RunSteps(EMPTY_DISK, steps))
  {
    if |steps| > 0 {
      var init := steps[..|steps| - 1];
      assert forall i :: 0 <= i < |init| ==> init[..i] == steps[..i];
      RunKeeps(wal, init);
      StepKeeps(wal, RunSteps(EMPTY_DISK, init), steps[|steps| - 1]);
    }
  }

  /**
   In every run, crashes included, a waiting or recoverable agent carries a
   matching kind and request, so the permissive branch of the check is never taken:
   an answer is accepted exactly for the marked request.
   */
  lemma AnswersAreBound(steps: seq<Step>, agent: AgentId, r: RequestId, approved: bool)
    requires AdmissibleRun(EMPTY_DISK, steps) && agent in RunSteps(EMPTY_DISK, steps).agents
    ensures var d := RunSteps(EMPTY_DISK, steps); var a := d.agents[agent];
            && MarkerOk(a)
            && (Plan(d, SendInput(agent, r)).Ok? <==>
                  (a.state.WaitingForInput? || a.state.Recoverable?)
                  && RecoverableKind(a.payload) == Some(Input) && RecoverableRequest(a.payload) == Some(r))
            && (Plan(d, ResolvePermission(agent, r, approved)).Ok? <==>
                  (a.state.WaitingForPermission? || a.state.Recoverable?)
                  && RecoverableKind(a.payload) == Some(Permission) && RecoverableRequest(a.payload) == Some(r))
  {
    hide RunSteps, AdmissibleRun;
    RunKeeps(false, steps);
  }

  /** Write-ahead: wherever a run crashed, the stored state is one side of the last journaled change. */
  lemma JournalIsAhead(steps: seq<Step>, agent: AgentId)
    requires AdmissibleRun(EMPTY_DISK, steps) && UnusedStarts(EMPTY_DISK, steps) && agent in RunSteps(EMPTY_DISK, steps).agents
    ensures var d := RunSteps(EMPTY_DISK, steps); Logged(TrailOf(d.journal, agent), d.agents[agent].state)
  {
    RunKeeps(true, steps);
  }

  /**
   Starting an id that is in use journals a start that never happens. The stored
   state stays one side of the last change exactly if it was Queued or Running.
   */
  lemma UsedStartLosesJournal(steps: seq<Step>, agent: AgentId, attempt: RunId, payload: Payload)
    requires AdmissibleRun(EMPTY_DISK, steps) && RecoverableKind(payload).None? && agent in RunSteps(EMPTY_DISK, steps).agents
    ensures var d := RunSteps(EMPTY_DISK, steps); var e := After(d, Step(Start(agent, attempt, payload), 4));
            && e.agents == d.agents && e.attempts == d.attempts
            && (Logged(TrailOf(e.journal, agent), e.agents[agent].state) <==> d.agents[agent].state.Queued? || d.agents[agent].state.Running?)
  {
    hide CrashInv;
    RunKeeps(false, steps);
    var d := RunSteps(EMPTY_DISK, steps);
    StartUsed(d, agent, attempt, payload);
    StartJournalAllowed(false, d, agent, attempt);
  }

  const STARTED_TWICE: seq<Step> := [Step(Start(0, 1, Malformed), 4)] + [Step(Pause(0), 4)] + [Step(Start(0, 2, Malformed), 4)]

  /** The first two steps: the agent is paused. */
  lemma PausedOnce() returns (d: Disk)
    ensures AdmissibleRun(EMPTY_DISK, STARTED_TWICE[..2]) && RunSteps(EMPTY_DISK, STARTED_TWICE[..2]) == d
    ensures 0 in d.agents && d.agents[0].state == Paused && FreshAttempt(d, 2)
  {
    var start, pause := STARTED_TWICE[0], STARTED_TWICE[1];
    assert STARTED_TWICE[..1] == [start] && STARTED_TWICE[..2] == [start, pause];
    assert [start][..0] == [] && [start, pause][..1] == [start] && [start, pause][..0] == [];
    assert CrashInv(false, EMPTY_DISK) by { RunKeeps(false, []); assert RunSteps(EMPTY_DISK, []) == EMPTY_DISK; }
    StartGood(false, EMPTY_DISK, 0, 1, Malformed);
    assert RunSteps(EMPTY_DISK, []) == EMPTY_DISK && StepWrites(EMPTY_DISK, start) == StartPlan(0, 1, Malformed);
    var b := RunSteps(EMPTY_DISK, [start]);
    assert b == Exec(EMPTY_DISK, StartPlan(0, 1, Malformed));
    assert b.agents == map[0 := Agent(Running, Malformed, Some(1))] && b.attempts == [Attempt(1, 0, None, 1)];
    RunKeeps(false, [start]);
    hide CrashInv, Good;
    MoveGood(false, b, 0, Running, Paused, []);
    assert StepWrites(b, pause) == Move(0, Running, Paused, []);
    d := RunSteps(EMPTY_DISK, [start, pause]);
  }

  /** A concrete run: a paused agent is started again under its own id; the journal's last change no longer touches Paused. */
  lemma UsedStartBreaksJournal()
    ensures AdmissibleRun(EMPTY_DISK, STARTED_TWICE)
    ensures var e := RunSteps(EMPTY_DISK, STARTED_TWICE);
            0 in e.agents && e.agents[0].state == Paused && !Logged(TrailOf(e.journal, 0), Paused)
  {
    var d := PausedOnce();
    var init := STARTED_TWICE[..2];
    UsedStartLosesJournal(init, 0, 2, Malformed);
    assert STARTED_TWICE[..|STARTED_TWICE| - 1] == init;
    forall i | 0 <= i < 3 ensures Admissible(RunSteps(EMPTY_DISK, STARTED_TWICE[..i]), STARTED_TWICE[i].op) {
      if i < 2 { assert init[..i] == STARTED_TWICE[..i] && init[i] == STARTED_TWICE[i]; }
    }
  }

  /** In every run, crashes included, the attempts of each agent are numbered 1..n and linked. */
  lemma AttemptsAreChained(steps: seq<Step>, agent: AgentId)
    requires AdmissibleRun(EMPTY_DISK, steps)
    ensures Chained(AttemptsOf(RunSteps(EMPTY_DISK, steps).attempts, agent))
    ensures agent !in RunSteps(EMPTY_DISK, steps).agents ==> AttemptsOf(RunSteps(EMPTY_DISK, steps).attempts, agent) == []
  {
    RunKeeps(false, steps);
  }

  // ----- crash-free runs -----

  /** The changes chain from Queued to the stored state, and the run id is the last attempt's. */
  predicate Linked(a: Agent, changes: seq<Change>, mine: seq<Attempt>) {
    && |changes| > 0 && Followed(changes) == Some(a.state)
    && |mine| > 0 && a.run == Some(mine[|mine| - 1].id)
  }

  /** The marker of an agent that can be answered is the journal's outstanding request. */
  predicate Tracked(a: Agent, outstanding: Option<(Kind, RequestId)>) {
    var kind := RecoverableKind(a.payload);
    var marked := kind.Some? && RecoverableRequest(a.payload).Some?
        && outstanding == Some((kind.value, RecoverableRequest(a.payload).value));
    match a.state
    case WaitingForInput | WaitingForPermission | Recoverable => marked
    case Paused => kind == Some(Input) ==> marked
    case Queued | Running | Interrupted => kind != Some(Input)
    case Cancelling => false
    case _ => true
  }

  ghost predicate Links(d: Disk) {
    && (forall agent :: agent in d.agents ==> Linked(d.agents[agent], TrailOf(d.journal, agent).changes, AttemptsOf(d.attempts, agent)))
    && (forall agent :: agent !in d.agents ==> TrailOf(d.journal, agent).changes == [])
  }

  ghost predicate Tracks(d: Disk) {
    forall agent :: agent in d.agents ==> Tracked(d.agents[agent], TrailOf(d.journal, agent).outstanding)
  }

  ghost predicate FreeInv(d: Disk) { CrashInv(true, d) && Links(d) && Tracks(d) }

  predicate AllOf(es: seq<JournalEvent>, agent: AgentId) { forall i :: 0 <= i < |es| ==> es[i].agent == agent }

  /** `e` extends the journal with events of one agent and changes at most that agent's rows. */
  ghost predicate Only(d: Disk, e: Disk, agent: AgentId, es: seq<JournalEvent>) {
    && AllOf(es, agent) && e.journal == d.journal + es
    && (forall a :: a != agent ==> (a in e.agents <==> a in d.agents) && (a in d.agents && a in e.agents ==> e.agents[a] == d.agents[a]))
    && (forall a :: a != agent ==> AttemptsOf(e.attempts, a) == AttemptsOf(d.attempts, a))
  }

  lemma OtherTrail(d: Disk, e: Disk, agent: AgentId, es: seq<JournalEvent>, a: AgentId)
    requires Only(d, e, agent, es) && a != agent
    ensures TrailOf(e.journal, a) == TrailOf(d.journal, a)
  {
    TrailConcat(NO_TRAIL, a, d.journal, es);
    TrailOfOthers(TrailOf(d.journal, a), a, es);
  }

  /** The laws of all agents follow from those of the one that moved. */
  lemma OnlyLinks(d: Disk, e: Disk, agent: AgentId, es: seq<JournalEvent>)
    requires Links(d) && Only(d, e, agent, es)
    requires if agent in e.agents then Linked(e.agents[agent], TrailOf(e.journal, agent).changes, AttemptsOf(e.attempts, agent))
             else TrailOf(e.journal, agent).changes == []
    ensures Links(e)
  {
    hide Linked;
    forall a | a != agent ensures TrailOf(e.journal, a) == TrailOf(d.journal, a) { OtherTrail(d, e, agent, es, a); }
  }

  lemma OnlyTracks(d: Disk, e: Disk, agent: AgentId, es: seq<JournalEvent>)
    requires (forall a :: a in d.agents && a != agent ==> Tracked(d.agents[a], TrailOf(d.journal, a).outstanding)) && Only(d, e, agent, es)
    requires agent in e.agents ==> Tracked(e.agents[agent], TrailOf(e.journal, agent).outstanding)
    ensures Tracks(e)
  {
    hide Tracked;
    forall a | a != agent ensures TrailOf(e.journal, a) == TrailOf(d.journal, a) { OtherTrail(d, e, agent, es, a); }
  }

  lemma MovedOnly(d: Disk, agent: AgentId, from: AgentState, to: AgentState, payload: Option<Payload>, run: Option<RunId>,
                  attempt: Option<Attempt>, first: seq<JournalEvent>, after: seq<JournalEvent>)
    requires agent in d.agents && AllOf(first, agent) && AllOf(after, agent) && (attempt.Some? ==> attempt.value.agent == agent)
    ensures Only(d, Moved(d, agent, from, to, payload, run, attempt, first, after), agent, first + [StateChanged(agent, from, to)] + after)
  {
    if attempt.Some? {
      forall a | a != agent ensures AttemptsOf(d.attempts + [attempt.value], a) == AttemptsOf(d.attempts, a) {
        AttemptsAppend(d.attempts, attempt.value, a);
      }
    }
  }

  /** A transition from the stored state keeps the chain; a new attempt comes with its run id. */
  lemma MovedLinks(d: Disk, agent: AgentId, from: AgentState, to: AgentState, payload: Option<Payload>, run: Option<RunId>,
                   attempt: Option<Attempt>, first: seq<JournalEvent>, after: seq<JournalEvent>)
    requires Links(d) && agent in d.agents && d.agents[agent].state == from && AllOf(first, agent) && AllOf(after,
        agent) && NoChanges(first) && NoChanges(after)
    requires if attempt.Some? then attempt.value.agent == agent && run == Some(attempt.value.id) else run.None?
    ensures Links(Moved(d, agent, from, to, payload, run, attempt, first, after))
  {
    var e := Moved(d, agent, from, to, payload, run, attempt, first, after);
    var es := first + [StateChanged(agent, from, to)] + after;
    MovedOnly(d, agent, from, to, payload, run, attempt, first, after);
    TrailConcat(NO_TRAIL, agent, d.journal, es);
    BatchTrail(TrailOf(d.journal, agent), agent, agent, from, to, first, after);
    FollowedAppend(TrailOf(d.journal, agent).changes, Change(from, to));
    if attempt.Some? { AttemptsAppend(d.attempts, attempt.value, agent); }
    OnlyLinks(d, e, agent, es);
  }

  // ----- the outstanding request -----

  lemma {:induction false} OutstandingOnly(t: Trail, t': Trail, agent: AgentId, es: seq<JournalEvent>)
    requires t.outstanding == t'.outstanding
    ensures TrailAfter(t, agent, es).outstanding == TrailAfter(t', agent, es).outstanding
  {
    if |es| > 0 { OutstandingOnly(t, t', agent, es[..|es| - 1]); }
  }

  predicate NoRequests(es: seq<JournalEvent>) {
    forall i :: 0 <= i < |es| ==> es[i].StartedEvent? || es[i].StateChanged? || es[i].OtherEvent?
  }

  lemma {:induction false} QuietOutstanding(t: Trail, agent: AgentId, es: seq<JournalEvent>)
    requires NoRequests(es)
    ensures TrailAfter(t, agent, es).outstanding == t.outstanding
  {
    if |es| > 0 { QuietOutstanding(t, agent, es[..|es| - 1]); }
  }

  lemma MovedOutstanding(d: Disk, agent: AgentId, from: AgentState, to: AgentState, payload: Option<Payload>, run: Option<RunId>,
                         attempt: Option<Attempt>, first: seq<JournalEvent>, after: seq<JournalEvent>)
    requires agent in d.agents && NoRequests(first)
    ensures TrailOf(Moved(d, agent, from, to, payload, run, attempt, first, after).journal, agent).outstanding
            == TrailAfter(TrailOf(d.journal, agent), agent, after).outstanding
  {
    var t := TrailOf(d.journal, agent);
    var head := first + [StateChanged(agent, from, to)];
    TrailConcat(NO_TRAIL, agent, d.journal, head + after);
    TrailConcat(t, agent, head, after);
    QuietOutstanding(t, agent, head);
    OutstandingOnly(TrailAfter(t, agent, head), t, agent, after);
  }

  lemma OneEvent(t: Trail, agent: AgentId, e: JournalEvent)
    ensures TrailAfter(t, agent, [e]) == TrailStep(t, agent, e)
  {
    assert [e][..0] == [];
  }

  // ----- operations without a crash -----

  /** One transition keeps all laws if its result is tracked. */
  lemma MovedFree(d: Disk, agent: AgentId, to: AgentState, payload: Option<Payload>, run: Option<RunId>,
                  attempt: Option<Attempt>, first: seq<JournalEvent>, after: seq<JournalEvent>)
    requires FreeInv(d) && agent in d.agents && AllOf(first, agent) && AllOf(after, agent) && NoChanges(first)
        && NoChanges(after) && NoRequests(first)
    requires if attempt.Some? then attempt.value.agent == agent && run == Some(attempt.value.id) else run.None?
    requires Tracked(Updated(d.agents[agent], to, payload, run), TrailAfter(TrailOf(d.journal, agent), agent, after).outstanding)
    ensures var e := Moved(d, agent, d.agents[agent].state, to, payload, run, attempt, first, after); Links(e) && Tracks(e)
  {
    hide CrashInv, Links, Tracked, Linked;
    var from := d.agents[agent].state;
    MovedLinks(d, agent, from, to, payload, run, attempt, first, after);
    MovedOutstanding(d, agent, from, to, payload, run, attempt, first, after);
    MovedOnly(d, agent, from, to, payload, run, attempt, first, after);
    OnlyTracks(d, Moved(d, agent, from, to, payload, run, attempt, first, after), agent, first + [StateChanged(agent, from, to)] + after);
  }

  /** The same for two transitions in a row; only the result has to be tracked. */
  lemma TwoMovesFree(d: Disk, agent: AgentId, via: AgentState, to: AgentState, payload: Option<Payload>,
                     after: seq<JournalEvent>, last: seq<JournalEvent>)
    requires Links(d) && agent in d.agents && AllOf(after, agent) && AllOf(last, agent) && NoChanges(after)
        && NoChanges(last) && NoRequests(last)
    requires forall a :: a in d.agents && a != agent ==> Tracked(d.agents[a], TrailOf(d.journal, a).outstanding)
    requires Tracked(Updated(d.agents[agent], to, payload, None), TrailAfter(TrailOf(d.journal, agent), agent, after).outstanding)
    ensures var d1 := Moved(d, agent, d.agents[agent].state, via, payload, None, None, [], after);
            var e := Moved(d1, agent, via, to, None, None, None, [], last);
            Links(e) && Tracks(e)
  {
    hide CrashInv, Links, Linked, Tracked;
    var from := d.agents[agent].state;
    var d1 := Moved(d, agent, from, via, payload, None, None, [], after);
    MovedLinks(d, agent, from, via, payload, None, None, [], after);
    MovedLinks(d1, agent, via, to, None, None, None, [], last);
    var e := Moved(d1, agent, via, to, None, None, None, [], last);
    MovedOutstanding(d, agent, from, via, payload, None, None, [], after);
    MovedOutstanding(d1, agent, via, to, None, None, None, [], last);
    QuietOutstanding(TrailOf(d1.journal, agent), agent, last);
    MovedOnly(d, agent, from, via, payload, None, None, [], after);
    MovedOnly(d1, agent, via, to, None, None, None, [], last);
    forall a | a in d1.agents && a != agent ensures Tracked(d1.agents[a], TrailOf(d1.journal, a).outstanding) {
      OtherTrail(d, d1, agent, [] + [StateChanged(agent, from, via)] + after, a);
    }
    OnlyTracks(d1, e, agent, [] + [StateChanged(agent, via, to)] + last);
  }

  ghost predicate Ready(d: Disk, op: Op) { FreeInv(d) && !op.Start? && !op.RecoverOnStartup? && Admissible(d, op) && Plan(d, op).Ok? }

  lemma EndFree(d: Disk, agent: AgentId, to: AgentState, after: seq<JournalEvent>)
    requires FreeInv(d) && agent in d.agents && AllOf(after, agent) && NoChanges(after) && NoRequests(after)
    requires to.Paused? || to.Succeeded? || to.Failed? || to.Archived?
    requires to.Paused? ==> var s := d.agents[agent].state; s.Queued? || s.Running? || s.WaitingForInput?
    ensures var e := Exec(d, Move(agent, d.agents[agent].state, to, after)); Links(e) && Tracks(e)
  {
    hide Links;
    assert MarkerOk(d.agents[agent]);
    assert Tracked(d.agents[agent], TrailOf(d.journal, agent).outstanding);
    MoveGood(true, d, agent, d.agents[agent].state, to, after);
    QuietOutstanding(TrailOf(d.journal, agent), agent, after);
    MovedFree(d, agent, to, None, None, None, [], after);
  }

  lemma ResumeFree(d: Disk, agent: AgentId, attempt: RunId)
    requires Ready(d, Resume(agent, attempt))
    ensures var e := Exec(d, ResumePlan(d, agent, d.agents[agent], attempt)); Links(e) && Tracks(e)
  {
    hide Links, Linked;
    var a := d.agents[agent];
    assert MarkerOk(a);
    assert Tracked(a, TrailOf(d.journal, agent).outstanding);
    if a.state.Interrupted? {
      var next := NextAttempt(d.attempts, agent, attempt);
      TransitionAllowed(true, d, agent, a.state, Running, None, Some(attempt), Some(next), [StartedEvent(agent, attempt)], []);
      MovedFree(d, agent, Running, None, Some(attempt), Some(next), [StartedEvent(agent, attempt)], []);
    } else {
      var to := if RecoverableKind(a.payload) == Some(Input) then WaitingForInput else Running;
      TwoMovesGood(true, d, agent, a.state, Queued, to, None, [], []);
      TwoMovesFree(d, agent, Queued, to, None, [], []);
    }
  }

  lemma RequestFree(d: Disk, agent: AgentId, kind: Kind, r: RequestId)
    requires FreeInv(d) && agent in d.agents
    ensures var op := if kind.Input? then RequestInput(agent, r) else WaitForPermission(agent, r);
            var e := Exec(d, AgentPlan(d, op, agent, d.agents[agent])); Links(e) && Tracks(e)
  {
    hide Links, Linked, SetRequest, RecoverableKind, RecoverableRequest;
    var a := d.agents[agent];
    SetThenRead(a.payload, kind, r);
    var to := if kind.Input? then WaitingForInput else WaitingForPermission;
    var asked := if kind.Input? then InputRequested(agent, r) else PermissionRequested(agent, r);
    TransitionAllowed(true, d, agent, a.state, to, Some(SetRequest(a.payload, kind, r)), None, None, [], [asked]);
    OneEvent(TrailOf(d.journal, agent), agent, asked);
    MovedFree(d, agent, to, Some(SetRequest(a.payload, kind, r)), None, None, [], [asked]);
  }

  lemma CancelPlan(d: Disk, agent: AgentId, a: Agent)
    ensures AgentPlan(d, Cancel(agent), agent, a) ==
            Transition(agent, a.state, Cancelling, None, None, None, [], []) + Move(agent, Cancelling, Cancelled, [OtherEvent(agent)])
  {
  }

  lemma SendPlan(d: Disk, agent: AgentId, a: Agent, r: RequestId)
    ensures AgentPlan(d, SendInput(agent, r), agent, a) ==
            [Journal([InputSubmitted(agent, r)])]
            + (Transition(agent, a.state, Queued, Some(ClearRequest(a.payload, Input)), None, None, [],
                []) + Move(agent, Queued, Running, []))
  {
  }

  lemma CancelFree(d: Disk, agent: AgentId)
    requires FreeInv(d) && agent in d.agents
    ensures var e := Exec(d, AgentPlan(d, Cancel(agent), agent, d.agents[agent])); Links(e) && Tracks(e)
  {
    assert MarkerOk(d.agents[agent].(state := Cancelling)) && MarkerOk(d.agents[agent].(state := Cancelled));
    assert Tracked(d.agents[agent].(state := Cancelled), TrailAfter(TrailOf(d.journal, agent), agent, []).outstanding);
    hide Links, Tracked, Good, Exec, CrashInv, MarkerOk, TrailAfter, Moved, AgentPlan, Transition, Move;
    CancelPlan(d, agent, d.agents[agent]);
    TwoMovesGood(true, d, agent, d.agents[agent].state, Cancelling, Cancelled, None, [], [OtherEvent(agent)]);
    TwoMovesFree(d, agent, Cancelling, Cancelled, None, [], [OtherEvent(agent)]);
  }

  lemma ClearedTracked(a: Agent, kind: Kind, to: AgentState, outstanding: Option<(Kind, RequestId)>)
    requires RecoverableKind(a.payload) == Some(kind) && (to.Running? || to.Failed?)
    ensures Tracked(Updated(a, to, Some(ClearRequest(a.payload, kind)), None), outstanding)
  {
    SetThenRead(a.payload, kind, "");
  }

  lemma ResolveFree(d: Disk, agent: AgentId, r: RequestId, approved: bool)
    requires Ready(d, ResolvePermission(agent, r, approved))
    ensures var e := Exec(d, AgentPlan(d, ResolvePermission(agent, r, approved), agent, d.agents[agent])); Links(e) && Tracks(e)
  {
    hide Links, Linked, Tracked;
    var a := d.agents[agent];
    assert MarkerOk(a);
    var cleared := Some(ClearRequest(a.payload, Permission));
    ClearedOk(a, Permission, Queued);
    ClearedOk(a, Permission, Running);
    ClearedOk(a, Permission, Failed);
    if approved {
      var after := [PermissionResolved(agent, r, true)];
      ClearedTracked(a, Permission, Running, TrailAfter(TrailOf(d.journal, agent), agent, after).outstanding);
      TwoMovesGood(true, d, agent, a.state, Queued, Running, cleared, after, []);
      TwoMovesFree(d, agent, Queued, Running, cleared, after, []);
    } else {
      var after := [PermissionResolved(agent, r, false), OtherEvent(agent)];
      ClearedTracked(a, Permission, Failed, TrailAfter(TrailOf(d.journal, agent), agent, after).outstanding);
      TransitionAllowed(true, d, agent, a.state, Failed, cleared, None, None, [], after);
      MovedFree(d, agent, Failed, cleared, None, None, [], after);
    }
  }

  /** Journaling the answer keeps the chain and everybody else's request. */
  lemma SubmittedFree(d: Disk, agent: AgentId, r: RequestId)
    requires FreeInv(d) && agent in d.agents
    ensures var d1 := d.(journal := d.journal + [InputSubmitted(agent, r)]);
            Links(d1) && forall b :: b in d1.agents && b != agent ==> Tracked(d1.agents[b], TrailOf(d1.journal, b).outstanding)
  {
    hide Linked, Tracked, CrashInv;
    var es := [InputSubmitted(agent, r)];
    var d1 := d.(journal := d.journal + es);
    TrailConcat(NO_TRAIL, agent, d.journal, es);
    OneEvent(TrailOf(d.journal, agent), agent, es[0]);
    OnlyLinks(d, d1, agent, es);
    forall b | b in d1.agents && b != agent ensures Tracked(d1.agents[b],
        TrailOf(d1.journal, b).outstanding) { OtherTrail(d, d1, agent, es, b); }
  }

  lemma SendFree(d: Disk, agent: AgentId, r: RequestId)
    requires Ready(d, SendInput(agent, r))
    ensures var e := Exec(d, AgentPlan(d, SendInput(agent, r), agent, d.agents[agent])); Links(e) && Tracks(e)
  {
    var a := d.agents[agent];
    assert MarkerOk(a) && RecoverableKind(a.payload) == Some(Input);
    hide Links, Tracks, Tracked, Exec, Good, CrashInv, MarkerOk, ClearRequest, TrailAfter, Moved, Admissible, AgentPlan, Transition, Move;
    SendPlan(d, agent, a, r);
    var es := [InputSubmitted(agent, r)];
    var cleared := Some(ClearRequest(a.payload, Input));
    ClearedOk(a, Input, Queued);
    ClearedOk(a, Input, Running);
    NoteGood(true, d, es);
    GoodKeeps(true, d, [Journal(es)]);
    var d1 := d.(journal := d.journal + es);
    SubmittedFree(d, agent, r);
    TwoMovesGood(true, d1, agent, a.state, Queued, Running, cleared, [], []);
    ClearedTracked(a, Input, Running, TrailAfter(TrailOf(d1.journal, agent), agent, []).outstanding);
    TwoMovesFree(d1, agent, Queued, Running, cleared, [], []);
    var rest := Transition(agent, a.state, Queued, cleared, None, None, [], []) + Move(agent, Queued, Running, []);
    Then(true, d, [Journal(es)], rest);
  }

  lemma DeleteFree(d: Disk, agent: AgentId)
    requires FreeInv(d) && agent in d.agents
    ensures var e := Exec(d, AgentPlan(d, DeleteArchived(agent), agent, d.agents[agent])); Links(e) && Tracks(e)
  {
    hide Linked, Tracked, Exec, Good;
    DeleteGood(true, d, agent);
    DeletedFree(d, agent);
  }

  lemma DeletedFree(d: Disk, agent: AgentId)
    requires FreeInv(d)
    ensures var e := Disk(d.journal + [DeletedEvent(agent)], d.agents - {agent}, Without(d.attempts, agent)); Links(e) && Tracks(e)
  {
    hide Linked, Tracked, CrashInv;
    var es := [DeletedEvent(agent)];
    var e := Disk(d.journal + es, d.agents - {agent}, Without(d.attempts, agent));
    forall a | a != agent ensures AttemptsOf(e.attempts, a) == AttemptsOf(d.attempts, a) { AttemptsWithout(d.attempts, agent, a); }
    TrailConcat(NO_TRAIL, agent, d.journal, es);
    OneEvent(TrailOf(d.journal, agent), agent, es[0]);
    OnlyLinks(d, e, agent, es);
    OnlyTracks(d, e, agent, es);
  }

  lemma StartTrail(t: Trail, agent: AgentId, attempt: RunId)
    requires t.changes == []
    ensures var t' := TrailAfter(t, agent, [StartedEvent(agent, attempt), StateChanged(agent, Queued, Running)]);
            |t'.changes| > 0 && Followed(t'.changes) == Some(Running)
  {
    var es := [StartedEvent(agent, attempt), StateChanged(agent, Queued, Running)];
    assert es == [StartedEvent(agent, attempt)] + [StateChanged(agent, Queued, Running)] + [];
    BatchTrail(t, agent, agent, Queued, Running, [StartedEvent(agent, attempt)], []);
    FollowedAppend([], Change(Queued, Running));
    assert [] + [Change(Queued, Running)] == [Change(Queued, Running)];
  }

  lemma StartedFree(d: Disk, e: Disk, agent: AgentId, attempt: RunId, payload: Payload)
    requires FreeInv(d) && agent !in d.agents && RecoverableKind(payload).None?
    requires e == Disk(d.journal + [StartedEvent(agent, attempt), StateChanged(agent, Queued, Running)],
                       d.agents[agent := Agent(Running, payload, Some(attempt))], d.attempts + [Attempt(attempt, agent, None, 1)])
    ensures Links(e) && Tracks(e)
  {
    hide CrashInv, TrailAfter, RecoverableKind, RecoverableRequest, Followed, AttemptsOf;
    var es := [StartedEvent(agent, attempt), StateChanged(agent, Queued, Running)];
    TrailConcat(NO_TRAIL, agent, d.journal, es);
    StartTrail(TrailOf(d.journal, agent), agent, attempt);
    StartTouchesOnly(d, e, agent, attempt, es);
    AttemptsAppend(d.attempts, Attempt(attempt, agent, None, 1), agent);
    OnlyLinks(d, e, agent, es);
    OnlyTracks(d, e, agent, es);
  }

  lemma StartTouchesOnly(d: Disk, e: Disk, agent: AgentId, attempt: RunId, es: seq<JournalEvent>)
    requires AllOf(es, agent) && e.journal == d.journal + es && agent in e.agents && e.agents == d.agents[agent := e.agents[agent]]
    requires e.attempts == d.attempts + [Attempt(attempt, agent, None, 1)]
    ensures Only(d, e, agent, es)
  {
    forall a | a != agent ensures AttemptsOf(e.attempts, a) == AttemptsOf(d.attempts, a) {
      AttemptsAppend(d.attempts, Attempt(attempt, agent, None, 1), a);
    }
  }

  lemma StartFree(d: Disk, agent: AgentId, attempt: RunId, payload: Payload)
    requires FreeInv(d) && agent !in d.agents && Admissible(d, Start(agent, attempt, payload))
    ensures var e := Exec(d, StartPlan(agent, attempt, payload)); Links(e) && Tracks(e)
  {
    hide Links, Tracks, Exec, Good;
    StartGood(true, d, agent, attempt, payload);
    StartedFree(d, Exec(d, StartPlan(agent, attempt, payload)), agent, attempt, payload);
  }

  lemma RecoverAgentFree(d: Disk, agent: AgentId)
    requires FreeInv(d)
    ensures FreeInv(Exec(d, RecoverAgent(d, agent)))
  {
    hide Links, Linked;
    RecoverAgentGood(true, d, agent);
    GoodKeeps(true, d, RecoverAgent(d, agent));
    if agent in d.agents && RecoveryTarget(d.agents[agent]).Some? {
      var a := d.agents[agent];
      var to := RecoveryTarget(a).value;
      var after := if to.Interrupted? then [OtherEvent(agent)] else [];
      assert MarkerOk(a) && Tracked(a, TrailOf(d.journal, agent).outstanding);
      QuietOutstanding(TrailOf(d.journal, agent), agent, after);
      MovedFree(d, agent, to, None, None, None, [], after);
    }
  }

  lemma {:induction false} RecoverFree(d: Disk, order: seq<AgentId>)
    requires FreeInv(d) && Distinct(order)
    ensures FreeInv(Exec(d, RecoverPlan(d, order)))
  {
    hide FreeInv, RecoverAgent;
    if |order| == 0 {
      EmptyGood(true, d);
    } else {
      var init, agent := order[..|order| - 1], order[|order| - 1];
      assert CrashInv(true, d) by { FreeIsCrash(d); }
      RecoverGood(true, d, init);
      RecoverFree(d, init);
      var e := Exec(d, RecoverPlan(d, init));
      SameRecovery(d, e, agent);
      RecoverAgentFree(e, agent);
      ExecConcat(d, RecoverPlan(d, init), RecoverAgent(d, agent));
    }
  }

  lemma FreeIsCrash(d: Disk)
    requires FreeInv(d)
    ensures CrashInv(true, d)
  {
  }

  lemma AgentOpFree(d: Disk, op: Op)
    requires Ready(d, op)
    ensures var e := Exec(d, Plan(d, op).value); Links(e) && Tracks(e)
  {
    hide FreeInv, Links, Tracks, Exec, Move, Transition;
    match op
    case Pause(agent) => EndFree(d, agent, Paused, []);
    case Resume(agent, attempt) => ResumeFree(d, agent, attempt);
    case WaitForPermission(agent, r) => RequestFree(d, agent, Permission, r);
    case RequestInput(agent, r) => RequestFree(d, agent, Input, r);
    case SendInput(agent, r) => SendFree(d, agent, r);
    case ResolvePermission(agent, r, approved) => ResolveFree(d, agent, r, approved);
    case Cancel(agent) => CancelFree(d, agent);
    case Complete(agent) => EndFree(d, agent, Succeeded, [OtherEvent(agent)]);
    case Fail(agent) => EndFree(d, agent, Failed, [OtherEvent(agent)]);
    case Archive(agent) => EndFree(d, agent, Archived, [OtherEvent(agent)]);
    case DeleteArchived(agent) => DeleteFree(d, agent);
  }

  lemma OpFree(d: Disk, op: Op)
    requires FreeInv(d) && Admissible(d, op) && Plan(d, op).Ok? && (op.Start? ==> op.agent !in d.agents)
    ensures FreeInv(Exec(d, Plan(d, op).value))
  {
    hide CrashInv, Links, Tracks, Exec;
    if op.Start? {
      StartGood(true, d, op.agent, op.attempt, op.payload);
      StartFree(d, op.agent, op.attempt, op.payload);
      GoodKeeps(true, d, Plan(d, op).value);
    } else if op.RecoverOnStartup? {
      RecoverFree(d, op.order);
    } else {
      AgentPlanGood(true, d, op);
      GoodKeeps(true, d, Plan(d, op).value);
      AgentOpFree(d, op);
    }
  }

  lemma {:induction false} FreeRun(steps: seq<Step>)
    requires AdmissibleRun(EMPTY_DISK, steps) && UnusedStarts(EMPTY_DISK, steps) && CrashFree(EMPTY_DISK, steps)
    ensures FreeInv(RunSteps(EMPTY_DISK, steps))
  {
    if |steps| > 0 {
      var init := steps[..|steps| - 1];
      assert forall i :: 0 <= i < |init| ==> init[..i] == steps[..i];
      FreeRun(init);
      var d, step := RunSteps(EMPTY_DISK, init), steps[|steps| - 1];
      FreeStep(d, step);
    }
  }

  lemma FreeStep(d: Disk, step: Step)
    requires FreeInv(d) && Admissible(d, step.op) && (step.op.Start? ==> step.op.agent !in d.agents)
    requires Plan(d, step.op).Ok? ==> step.writes >= |Plan(d, step.op).value|
    ensures FreeInv(After(d, step))
  {
    hide FreeInv, Exec;
    if Plan(d, step.op).Ok? { OpFree(d, step.op); } else { EmptyGood(true, d); }
  }

  /**
   Without crashes the journaled changes of an agent chain end to end from Queued
   and replay to its stored state, and its run id is that of its last attempt.
   */
  lemma JournalReplays(steps: seq<Step>, agent: AgentId)
    requires AdmissibleRun(EMPTY_DISK, steps) && UnusedStarts(EMPTY_DISK, steps) && CrashFree(EMPTY_DISK, steps)
    requires agent in RunSteps(EMPTY_DISK, steps).agents
    ensures var d := RunSteps(EMPTY_DISK, steps); var mine := AttemptsOf(d.attempts, agent);
            && Followed(TrailOf(d.journal, agent).changes) == Some(d.agents[agent].state)
            && |mine| > 0 && d.agents[agent].run == Some(mine[|mine| - 1].id)
  {
    FreeRun(steps);
  }

  /** Without crashes an answer is accepted exactly when the agent waits for it and it answers the journal's outstanding request. */
  lemma AnswersOutstandingRequest(steps: seq<Step>, agent: AgentId, r: RequestId, approved: bool)
    requires AdmissibleRun(EMPTY_DISK, steps) && UnusedStarts(EMPTY_DISK, steps) && CrashFree(EMPTY_DISK, steps)
    requires agent in RunSteps(EMPTY_DISK, steps).agents
    ensures var d := RunSteps(EMPTY_DISK, steps); var s := d.agents[agent].state; var asked := TrailOf(d.journal, agent).outstanding;
            && (Plan(d, SendInput(agent, r)).Ok? <==> (s.WaitingForInput? || s.Recoverable?) && asked == Some((Input, r)))
            && (Plan(d, ResolvePermission(agent, r, approved)).Ok? <==> (s.WaitingForPermission? || s.Recoverable?) && asked == Some((Permission, r)))
  {
    hide RunSteps, AdmissibleRun, UnusedStarts, CrashFree, TrailOf, Links;
    FreeRun(steps);
    var d := RunSteps(EMPTY_DISK, steps);
    assert MarkerOk(d.agents[agent]) && Tracked(d.agents[agent], TrailOf(d.journal, agent).outstanding);
  }
}
