/**
 The background agent manager. Every method performs its writes one by one on
 the journal and the tables; `trace` records them, and each method is proved to
 perform exactly the writes of its plan, or none.
 */
module BackgroundManagers {
  import opened Basics
  import opened BackgroundAgents
  import opened BackgroundLaws
  import opened BackgroundRuns

  datatype Failure = Refused(refusal: Refusal) | StoreFailure

  function StartedOnly(es: seq<JournalEvent>): seq<JournalEvent> {
    if |es| == 0 then [] else StartedOnly(es[..|es| - 1]) + (if es[|es| - 1].StartedEvent? then [es[|es| - 1]] else [])
  }

  function OthersOnly(es: seq<JournalEvent>): seq<JournalEvent> {
    if |es| == 0 then [] else OthersOnly(es[..|es| - 1]) + (if es[|es| - 1].StartedEvent? then [] else [es[|es| - 1]])
  }

  lemma SeparateLast(es: seq<JournalEvent>, e: JournalEvent)
    ensures StartedOnly(es + [e]) == StartedOnly(es) + (if e.StartedEvent? then [e] else [])
    ensures OthersOnly(es + [e]) == OthersOnly(es) + (if e.StartedEvent? then [] else [e])
  {
    assert (es + [e])[..|es + [e]| - 1] == es;
  }

  /** Separating events that were already separate changes nothing. */
  lemma {:induction false} Separated(first: seq<JournalEvent>, after: seq<JournalEvent>)
    requires (forall i :: 0 <= i < |first| ==> first[i].StartedEvent?) && (forall i :: 0 <= i < |after| ==> !after[i].StartedEvent?)
    ensures StartedOnly(first + after) == first && OthersOnly(first + after) == after
  {
    if |after| > 0 {
      hide StartedOnly, OthersOnly;
      var init, last := after[..|after| - 1], after[|after| - 1];
      Separated(first, init);
      assert first + after == (first + init) + [last] && after == init + [last];
      SeparateLast(first + init, last);
    } else if |first| > 0 {
      hide StartedOnly, OthersOnly;
      var init, last := first[..|first| - 1], first[|first| - 1];
      Separated(init, []);
      assert first + after == init + [last] && init + [] == init && first == init + [last];
      SeparateLast(init, last);
    }
  }

  lemma ExecOne(d: Disk, w: Write)
    requires Apply(d, w).Some?
    ensures Completes(d, [w]) && Exec(d, [w]) == Apply(d, w).value
  {
    assert [w][1..] == [];
    assert Exec(Apply(d, w).value, []) == Apply(d, w).value;
  }

  /** A transition of an existing row does all of its writes. */
  lemma TransitionExec(d: Disk, agent: AgentId, from: AgentState, to: AgentState, payload: Option<Payload>, run: Option<RunId>,
                       attempt: Option<Attempt>, first: seq<JournalEvent>, after: seq<JournalEvent>)
    requires agent in d.agents && (attempt.Some? ==> FreshAttempt(d, attempt.value.id))
    ensures var ws := Transition(agent, from, to, payload, run, attempt, first, after);
            Completes(d, ws) && Exec(d, ws) == Moved(d, agent, from, to, payload, run, attempt, first, after)
  {
    var journal := Journal(first + [StateChanged(agent, from, to)] + after);
    ExecOne(d, journal);
    var d1 := Exec(d, [journal]);
    var insert: seq<Write> := if attempt.Some? then [InsertAttempt(attempt.value)] else [];
    if attempt.Some? { ExecOne(d1, InsertAttempt(attempt.value)); }
    ExecConcat(d, [journal], insert);
    var d2 := Exec(d1, insert);
    ExecOne(d2, Update(agent, to, payload, run));
    ExecConcat(d, [journal] + insert, [Update(agent, to, payload, run)]);
  }

  class BackgroundAgentManager {
    var journal: seq<JournalEvent>
    var agents: map<AgentId, Agent>
    var attempts: seq<Attempt>
    ghost var trace: seq<Write>

    ghost function OnDisk(): Disk
      reads this
    {
      Disk(journal, agents, attempts)
    }

    constructor (d: Disk)
      ensures OnDisk() == d && trace == []
    {
      journal, agents, attempts, trace := d.journal, d.agents, d.attempts, [];
    }

    // ----- single writes -----

    method Append(events: seq<JournalEvent>)
      modifies this
      ensures Some(OnDisk()) == Apply(old(OnDisk()), Journal(events)) && trace == old(trace) + [Journal(events)]
    {
      journal := journal + events;
      trace := trace + [Journal(events)];
    }

    method InsertAgentRow(agent: AgentId, record: Agent) returns (ok: bool)
      modifies this
      ensures ok == Apply(old(OnDisk()), InsertAgent(agent, record)).Some?
      ensures if ok then OnDisk() == Apply(old(OnDisk()), InsertAgent(agent, record)).value
          && trace == old(trace) + [InsertAgent(agent, record)]
              else OnDisk() == old(OnDisk()) && trace == old(trace)
    {
      if agent in agents { return false; }
      agents := agents[agent := record];
      trace := trace + [InsertAgent(agent, record)];
      ok := true;
    }

    method InsertAttemptRow(attempt: Attempt) returns (ok: bool)
      modifies this
      ensures ok == Apply(old(OnDisk()), InsertAttempt(attempt)).Some?
      ensures if ok then OnDisk() == Apply(old(OnDisk()), InsertAttempt(attempt)).value && trace == old(trace) + [InsertAttempt(attempt)]
              else OnDisk() == old(OnDisk()) && trace == old(trace)
    {
      for i := 0 to |attempts|
        invariant forall j :: 0 <= j < i ==> attempts[j].id != attempt.id
      {
        if attempts[i].id == attempt.id { return false; }
      }
      attempts := attempts + [attempt];
      trace := trace + [InsertAttempt(attempt)];
      ok := true;
    }

    method UpdateRow(agent: AgentId, state: AgentState, payload: Option<Payload>, run: Option<RunId>)
      modifies this
      ensures Some(OnDisk()) == Apply(old(OnDisk()), Update(agent, state, payload, run))
          && trace == old(trace) + [Update(agent, state, payload, run)]
    {
      if agent in agents { agents := agents[agent := Updated(agents[agent], state, payload, run)]; }
      trace := trace + [Update(agent, state, payload, run)];
    }

    /** Deletes the attempts, then the row. */
    method DeleteRows(agent: AgentId)
      modifies this
      ensures OnDisk() == Exec(old(OnDisk()), [DeleteAttempts(agent), DeleteAgent(agent)])
      ensures trace == old(trace) + [DeleteAttempts(agent), DeleteAgent(agent)]
    {
      var kept: seq<Attempt> := [];
      for i := 0 to |attempts|
        invariant kept == Without(attempts[..i], agent)
      {
        assert attempts[..i + 1][..i] == attempts[..i];
        if attempts[i].agent != agent { kept := kept + [attempts[i]]; }
      }
      assert attempts[..|attempts|] == attempts;
      ghost var d := OnDisk();
      attempts := kept;
      ExecOne(d, DeleteAttempts(agent));
      ExecOne(OnDisk(), DeleteAgent(agent));
      ExecConcat(d, [DeleteAttempts(agent)], [DeleteAgent(agent)]);
      assert [DeleteAttempts(agent)] + [DeleteAgent(agent)] == [DeleteAttempts(agent), DeleteAgent(agent)];
      agents := agents - {agent};
      trace := trace + [DeleteAttempts(agent), DeleteAgent(agent)];
    }

    /** The attempts of an agent; where they are chained, as every run keeps them, in the order of their numbers. */
    method ListAttempts(agent: AgentId) returns (mine: seq<Attempt>)
      ensures mine == AttemptsOf(attempts, agent)
      ensures Chained(AttemptsOf(attempts, agent)) ==> forall i, j :: 0 <= i < j < |mine| ==> mine[i].number < mine[j].number
    {
      mine := [];
      for i := 0 to |attempts|
        invariant mine == AttemptsOf(attempts[..i], agent)
      {
        assert attempts[..i + 1][..i] == attempts[..i];
        if attempts[i].agent == agent { mine := mine + [attempts[i]]; }
      }
      assert attempts[..|attempts|] == attempts;
    }

    // ----- transitions -----

    method TransitionFrom(agent: AgentId, current: Agent, to: AgentState, payload: Option<Payload>, run: Option<RunId>,
                          attempt: Option<Attempt>, additional: seq<JournalEvent>, ghost first: seq<JournalEvent>,
                              ghost after: seq<JournalEvent>)
      returns (next: Agent)
      requires agent in agents && agents[agent] == current && (attempt.Some? ==> FreshAttempt(OnDisk(), attempt.value.id))
      requires additional == first + after && (forall i :: 0 <= i < |first| ==> first[i].StartedEvent?)
          && (forall i :: 0 <= i < |after| ==> !after[i].StartedEvent?)
      modifies this
      ensures trace == old(trace) + Transition(agent, current.state, to, payload, run, attempt, first, after)
      ensures OnDisk() == Moved(old(OnDisk()), agent, current.state, to, payload, run, attempt, first, after)
      ensures agent in agents && agents[agent] == next == Updated(current, to, payload, run)
    {
      var events: seq<JournalEvent>, rest: seq<JournalEvent> := [], [];
      for i := 0 to |additional|
        invariant events == StartedOnly(additional[..i]) && rest == OthersOnly(additional[..i])
      {
        assert additional[..i + 1][..i] == additional[..i];
        if additional[i].StartedEvent? { events := events + [additional[i]]; } else { rest := rest + [additional[i]]; }
      }
      assert additional[..|additional|] == additional;
      Separated(first, after);
      events := events + [StateChanged(agent, current.state, to)] + rest;
      Append(events);
      if attempt.Some? {
        var ok := InsertAttemptRow(attempt.value);
        assert ok;
      }
      UpdateRow(agent, to, payload, run);
      next := agents[agent];
    }

    /** What an operation did: exactly the writes of its plan, or nothing when it is refused. */
    twostate predicate Performed(op: Op)
      reads this
    {
      match Plan(old(OnDisk()), op)
      case Err(_) => OnDisk() == old(OnDisk()) && trace == old(trace)
      case Ok(ws) => OnDisk() == Exec(old(OnDisk()), ws) && trace == old(trace) + ws
    }

    /** A plain change of state. */
    method Move(agent: AgentId, current: Agent, to: AgentState, after: seq<JournalEvent>) returns (next: Agent)
      requires agent in agents && agents[agent] == current && forall i :: 0 <= i < |after| ==> !after[i].StartedEvent?
      modifies this
      ensures trace == old(trace) + BackgroundAgents.Move(agent, current.state, to, after)
      ensures OnDisk() == Exec(old(OnDisk()), BackgroundAgents.Move(agent, current.state, to, after))
      ensures agent in agents && agents[agent] == next == current.(state := to)
    {
      assert [] + after == after;
      TransitionExec(OnDisk(), agent, current.state, to, None, None, None, [], after);
      next := TransitionFrom(agent, current, to, None, None, None, after, [], after);
    }

    /** A change of state that also replaces the payload. */
    method MoveWith(agent: AgentId, current: Agent, to: AgentState, payload: Payload, after: seq<JournalEvent>) returns (next: Agent)
      requires agent in agents && agents[agent] == current && forall i :: 0 <= i < |after| ==> !after[i].StartedEvent?
      modifies this
      ensures trace == old(trace) + Transition(agent, current.state, to, Some(payload), None, None, [], after)
      ensures OnDisk() == Exec(old(OnDisk()), Transition(agent, current.state, to, Some(payload), None, None, [], after))
      ensures agent in agents && agents[agent] == next == Agent(to, payload, current.run)
    {
      assert [] + after == after;
      TransitionExec(OnDisk(), agent, current.state, to, Some(payload), None, None, [], after);
      next := TransitionFrom(agent, current, to, Some(payload), None, None, after, [], after);
    }

    // ----- operations -----

    method Pause(agent: AgentId) returns (r: Result<Agent, Failure>)
      modifies this
      ensures Performed(Op.Pause(agent)) && (r.Ok? <==> Plan(old(OnDisk()), Op.Pause(agent)).Ok?)
      ensures r.Ok? ==> agent in agents && agents[agent] == r.value
    {
      if agent !in agents { return Err(Refused(NotFound)); }
      var current := agents[agent];
      if !Allows(Op.Pause(agent), current.state) { return Err(Refused(InvalidTransition)); }
      var next := Move(agent, current, Paused, []);
      r := Ok(next);
    }

    method Complete(agent: AgentId) returns (r: Result<Agent, Failure>)
      modifies this
      ensures Performed(Op.Complete(agent)) && (r.Ok? <==> Plan(old(OnDisk()), Op.Complete(agent)).Ok?)
      ensures r.Ok? ==> agent in agents && agents[agent] == r.value
    {
      if agent !in agents { return Err(Refused(NotFound)); }
      var current := agents[agent];
      if !Allows(Op.Complete(agent), current.state) { return Err(Refused(InvalidTransition)); }
      var next := Move(agent, current, Succeeded, [OtherEvent(agent)]);
      r := Ok(next);
    }

    method Fail(agent: AgentId) returns (r: Result<Agent, Failure>)
      modifies this
      ensures Performed(Op.Fail(agent)) && (r.Ok? <==> Plan(old(OnDisk()), Op.Fail(agent)).Ok?)
      ensures r.Ok? ==> agent in agents && agents[agent] == r.value
    {
      if agent !in agents { return Err(Refused(NotFound)); }
      var current := agents[agent];
      if !Allows(Op.Fail(agent), current.state) { return Err(Refused(InvalidTransition)); }
      var next := Move(agent, current, AgentState.Failed, [OtherEvent(agent)]);
      r := Ok(next);
    }

    method Archive(agent: AgentId) returns (r: Result<Agent, Failure>)
      modifies this
      ensures Performed(Op.Archive(agent)) && (r.Ok? <==> Plan(old(OnDisk()), Op.Archive(agent)).Ok?)
      ensures r.Ok? ==> agent in agents && agents[agent] == r.value
    {
      if agent !in agents { return Err(Refused(NotFound)); }
      var current := agents[agent];
      if !Allows(Op.Archive(agent), current.state) { return Err(Refused(InvalidTransition)); }
      var next := Move(agent, current, Archived, [OtherEvent(agent)]);
      r := Ok(next);
    }

    /** Starting a used id fails after the journal was written. */
    method Start(agent: AgentId, attempt: RunId, payload: Payload) returns (r: Result<Agent, Failure>)
      requires FreshAttempt(OnDisk(), attempt)
      modifies this
      ensures r.Ok? <==> agent !in old(agents)
      ensures OnDisk() == Exec(old(OnDisk()), StartPlan(agent, attempt, payload))
      ensures trace == old(trace) + if r.Ok? then StartPlan(agent, attempt, payload) else StartPlan(agent, attempt, payload)[..1]
      ensures r.Ok? ==> agent in agents && agents[agent] == r.value
    {
      ghost var d, plan := OnDisk(), StartPlan(agent, attempt, payload);
      Append([StartedEvent(agent, attempt), StateChanged(agent, Queued, Running)]);
      ExecOne(d, plan[0]);
      var inserted := InsertAgentRow(agent, Agent(Queued, payload, Some(attempt)));
      if !inserted {
        assert Exec(OnDisk(), plan[1..]) == OnDisk();
        return Err(StoreFailure);
      }
      ghost var d2 := OnDisk();
      var numbered := InsertAttemptRow(Attempt(attempt, agent, None, 1));
      assert numbered;
      ghost var d3 := OnDisk();
      UpdateRow(agent, Running, None, None);
      StartExec(d, plan, d2, d3, OnDisk());
      r := Ok(agents[agent]);
    }

    lemma StartExec(d: Disk, plan: seq<Write>, d2: Disk, d3: Disk, d4: Disk)
      requires |plan| == 4 && Apply(d, plan[0]).Some? && Apply(Apply(d, plan[0]).value, plan[1]) == Some(d2)
      requires Apply(d2, plan[2]) == Some(d3) && Apply(d3, plan[3]) == Some(d4)
      ensures Exec(d, plan) == d4
    {
      assert plan[1..][1..] == plan[2..] && plan[2..][1..] == plan[3..] && plan[3..][1..] == [];
      assert Exec(d4, []) == d4;
      assert Exec(d3, plan[3..]) == d4;
      assert Exec(d2, plan[2..]) == d4;
      assert Exec(Apply(d, plan[0]).value, plan[1..]) == d4;
    }

    /** An interrupted agent runs again under a new attempt. */
    method ResumeInterrupted(agent: AgentId, current: Agent, attempt: RunId) returns (next: Agent)
      requires agent in agents && agents[agent] == current && current.state.Interrupted? && FreshAttempt(OnDisk(), attempt)
      modifies this
      ensures OnDisk() == Exec(old(OnDisk()), ResumePlan(old(OnDisk()), agent, current, attempt))
      ensures trace == old(trace) + ResumePlan(old(OnDisk()), agent, current, attempt)
      ensures agent in agents && agents[agent] == next
    {
      var mine := ListAttempts(agent);
      var record := Attempt(attempt, agent, if |mine| == 0 then None else Some(mine[|mine| - 1].id), |mine| + 1);
      TransitionExec(OnDisk(), agent, current.state, Running, None, Some(attempt), Some(record), [StartedEvent(agent, attempt)], []);
      assert [StartedEvent(agent, attempt)] + [] == [StartedEvent(agent, attempt)];
      next := TransitionFrom(agent, current, Running, None, Some(attempt), Some(record),
          [StartedEvent(agent, attempt)], [StartedEvent(agent, attempt)], []);
    }

    /** Other agents go through Queued, and back to waiting if an input is still marked. */
    method ResumeQueued(agent: AgentId, current: Agent, ghost attempt: RunId) returns (next: Agent)
      requires agent in agents && agents[agent] == current && !current.state.Interrupted?
      modifies this
      ensures OnDisk() == Exec(old(OnDisk()), ResumePlan(old(OnDisk()), agent, current, attempt))
      ensures trace == old(trace) + ResumePlan(old(OnDisk()), agent, current, attempt)
      ensures agent in agents && agents[agent] == next
    {
      ghost var d := OnDisk();
      TransitionExec(d, agent, current.state, Queued, None, None, None, [], []);
      var queued := Move(agent, current, Queued, []);
      var target := if RecoverableKind(queued.payload) == Some(Input) then WaitingForInput else Running;
      ExecConcat(d, BackgroundAgents.Move(agent, current.state, Queued, []), BackgroundAgents.Move(agent, Queued, target, []));
      next := Move(agent, queued, target, []);
    }

    method Resume(agent: AgentId, attempt: RunId) returns (r: Result<Agent, Failure>)
      requires FreshAttempt(OnDisk(), attempt)
      modifies this
      ensures Performed(Op.Resume(agent, attempt)) && (r.Ok? <==> Plan(old(OnDisk()), Op.Resume(agent, attempt)).Ok?)
      ensures r.Ok? ==> agent in agents && agents[agent] == r.value
    {
      hide Exec, ResumePlan;
      if agent !in agents { return Err(Refused(NotFound)); }
      var current := agents[agent];
      if !Allows(Op.Resume(agent, attempt), current.state) { return Err(Refused(InvalidTransition)); }
      var next;
      if current.state.Interrupted? { next := ResumeInterrupted(agent, current, attempt); }
          else { next := ResumeQueued(agent, current, attempt); }
      r := Ok(next);
    }

    method WaitForPermission(agent: AgentId, request: RequestId) returns (r: Result<Agent, Failure>)
      modifies this
      ensures Performed(Op.WaitForPermission(agent, request)) && (r.Ok? <==> Plan(old(OnDisk()), Op.WaitForPermission(agent, request)).Ok?)
      ensures r.Ok? ==> agent in agents && agents[agent] == r.value
    {
      if agent !in agents { return Err(Refused(NotFound)); }
      var current := agents[agent];
      if !Allows(Op.WaitForPermission(agent, request), current.state) { return Err(Refused(InvalidTransition)); }
      var next := MoveWith(agent, current, WaitingForPermission, SetRequest(current.payload, Permission, request),
          [PermissionRequested(agent, request)]);
      r := Ok(next);
    }

    method RequestInput(agent: AgentId, request: RequestId) returns (r: Result<Agent, Failure>)
      modifies this
      ensures Performed(Op.RequestInput(agent, request)) && (r.Ok? <==> Plan(old(OnDisk()), Op.RequestInput(agent, request)).Ok?)
      ensures r.Ok? ==> agent in agents && agents[agent] == r.value
    {
      if agent !in agents { return Err(Refused(NotFound)); }
      var current := agents[agent];
      if !Allows(Op.RequestInput(agent, request), current.state) { return Err(Refused(InvalidTransition)); }
      var next := MoveWith(agent, current, WaitingForInput, SetRequest(current.payload, Input, request), [InputRequested(agent, request)]);
      r := Ok(next);
    }

    method SendInput(agent: AgentId, request: RequestId) returns (r: Result<Agent, Failure>)
      modifies this
      ensures Performed(Op.SendInput(agent, request)) && (r.Ok? <==> Plan(old(OnDisk()), Op.SendInput(agent, request)).Ok?)
      ensures r.Ok? ==> agent in agents && agents[agent] == r.value
    {
      if agent !in agents { return Err(Refused(NotFound)); }
      var current := agents[agent];
      if !Allows(Op.SendInput(agent, request), current.state) || !RequestMatches(current, Input,
          request) { return Err(Refused(InvalidTransition)); }
      ghost var d := OnDisk();
      var cleared := ClearRequest(current.payload, Input);
      ghost var a, b, c := [Journal([InputSubmitted(agent, request)])],
                           Transition(agent, current.state, Queued, Some(cleared), None, None, [], []),
                           BackgroundAgents.Move(agent, Queued, Running, []);
      Append([InputSubmitted(agent, request)]);
      ExecOne(d, Journal([InputSubmitted(agent, request)]));
      TransitionExec(OnDisk(), agent, current.state, Queued, Some(cleared), None, None, [], []);
      ExecConcat(d, a, b);
      var queued := MoveWith(agent, current, Queued, cleared, []);
      ExecConcat(d, a + b, c);
      var next := Move(agent, queued, Running, []);
      r := Ok(next);
    }

    method ResolvePermission(agent: AgentId, request: RequestId, approved: bool) returns (r: Result<Agent, Failure>)
      modifies this
      ensures Performed(Op.ResolvePermission(agent, request, approved))
          && (r.Ok? <==> Plan(old(OnDisk()), Op.ResolvePermission(agent, request, approved)).Ok?)
      ensures r.Ok? ==> agent in agents && agents[agent] == r.value
    {
      if agent !in agents { return Err(Refused(NotFound)); }
      var current := agents[agent];
      if !Allows(Op.ResolvePermission(agent, request, approved), current.state) || !RequestMatches(current, Permission, request) {
        return Err(Refused(InvalidTransition));
      }
      ghost var d := OnDisk();
      var cleared := ClearRequest(current.payload, Permission);
      var resolved := PermissionResolved(agent, request, approved);
      if !approved {
        var failed := MoveWith(agent, current, AgentState.Failed, cleared, [resolved, OtherEvent(agent)]);
        return Ok(failed);
      }
      TransitionExec(d, agent, current.state, Queued, Some(cleared), None, None, [], [resolved]);
      var queued := MoveWith(agent, current, Queued, cleared, [resolved]);
      ExecConcat(d, Transition(agent, current.state, Queued, Some(cleared), None, None, [], [resolved]),
          BackgroundAgents.Move(agent, Queued, Running, []));
      var next := Move(agent, queued, Running, []);
      r := Ok(next);
    }

    method Cancel(agent: AgentId) returns (r: Result<Agent, Failure>)
      modifies this
      ensures Performed(Op.Cancel(agent)) && (r.Ok? <==> Plan(old(OnDisk()), Op.Cancel(agent)).Ok?)
      ensures r.Ok? ==> agent in agents && agents[agent] == r.value
    {
      if agent !in agents { return Err(Refused(NotFound)); }
      var current := agents[agent];
      if !Allows(Op.Cancel(agent), current.state) { return Err(Refused(InvalidTransition)); }
      ghost var d := OnDisk();
      TransitionExec(d, agent, current.state, Cancelling, None, None, None, [], []);
      var cancelling := Move(agent, current, Cancelling, []);
      ExecConcat(d, BackgroundAgents.Move(agent, current.state, Cancelling, []),
          BackgroundAgents.Move(agent, Cancelling, Cancelled, [OtherEvent(agent)]));
      var next := Move(agent, cancelling, Cancelled, [OtherEvent(agent)]);
      r := Ok(next);
    }

    method DeleteArchived(agent: AgentId) returns (r: Result<(), Failure>)
      modifies this
      ensures Performed(Op.DeleteArchived(agent)) && (r.Ok? <==> Plan(old(OnDisk()), Op.DeleteArchived(agent)).Ok?)
      ensures r.Ok? ==> agent !in agents
    {
      if agent !in agents { return Err(Refused(NotFound)); }
      if !Allows(Op.DeleteArchived(agent), agents[agent].state) { return Err(Refused(InvalidTransition)); }
      ghost var d := OnDisk();
      var deleted := [DeletedEvent(agent)];
      Append(deleted);
      ExecOne(d, Journal(deleted));
      ghost var rows := [DeleteAttempts(agent), DeleteAgent(agent)];
      ExecConcat(d, [Journal(deleted)], rows);
      assert [Journal(deleted)] + rows == [Journal(deleted), DeleteAttempts(agent), DeleteAgent(agent)];
      DeletedRow(OnDisk(), agent);
      DeleteRows(agent);
      r := Ok(());
    }

    lemma DeletedRow(d: Disk, agent: AgentId)
      ensures agent !in Exec(d, [DeleteAttempts(agent), DeleteAgent(agent)]).agents
    {
      var ws := [DeleteAttempts(agent), DeleteAgent(agent)];
      assert ws[1..] == [DeleteAgent(agent)] && ws[1..][1..] == [];
      assert Exec(Apply(Apply(d, ws[0]).value, ws[1]).value, []).agents == d.agents - {agent};
    }

    /** One row of startup recovery. */
    method RecoverRow(agent: AgentId, record: Agent) returns (moved: bool)
      requires agent in agents && agents[agent] == record
      modifies this
      ensures moved == RecoveryTarget(record).Some?
      ensures OnDisk() == Exec(old(OnDisk()), RecoverAgent(old(OnDisk()), agent)) && Completes(old(OnDisk()),
          RecoverAgent(old(OnDisk()), agent))
      ensures trace == old(trace) + RecoverAgent(old(OnDisk()), agent)
      ensures agents.Keys == old(agents).Keys && attempts == old(attempts)
      ensures forall other :: other in old(agents) && other != agent ==> agents[other] == old(agents)[other]
      ensures moved ==> Some(agents[agent].state) == RecoveryTarget(record)
    {
      var to := RecoveryTarget(record);
      if to.None? { return false; }
      var after := if to.value.Interrupted? then [OtherEvent(agent)] else [];
      TransitionExec(OnDisk(), agent, record.state, to.value, None, None, None, [], after);
      var next := Move(agent, record, to.value, after);
      moved := true;
    }

    /** Interrupts or parks every row that cannot have survived a restart; `order` is the registry listing. */
    method RecoverOnStartup(order: seq<AgentId>) returns (recovered: seq<AgentId>)
      requires Distinct(order) && forall i :: 0 <= i < |order| ==> order[i] in agents
      modifies this
      ensures Performed(Op.RecoverOnStartup(order))
      ensures recovered == RecoveredRows(old(agents), order)
    {
      hide RecoverAgent, RecoverPlan, OthersKept, Completes, Exec, RecoveryTarget, RecoveredRows;
      recovered := [];
      var records := agents;
      ghost var d, was := OnDisk(), trace;
      NothingYet(d, order);
      for i := 0 to |order|
        invariant OnDisk() == Exec(d, RecoverPlan(d, order[..i])) && Completes(d, RecoverPlan(d, order[..i]))
            && trace == was + RecoverPlan(d, order[..i])
        invariant OthersKept(d, OnDisk(), order[..i]) && recovered == RecoveredRows(records, order[..i])
      {
        var agent := order[i];
        ghost var e := OnDisk();
        Untouched(d, order, i, e);
        var moved := RecoverRow(agent, records[agent]);
        RecoverStep(d, order, i, e, OnDisk());
        if moved { recovered := recovered + [agent]; }
      }
      assert order[..|order|] == order;
    }
  }

  lemma NothingYet(d: Disk, order: seq<AgentId>)
    ensures Exec(d, RecoverPlan(d, order[..0])) == d && Completes(d, RecoverPlan(d, order[..0])) && RecoverPlan(d, order[..0]) == []
    ensures OthersKept(d, d, order[..0]) && RecoveredRows(d.agents, order[..0]) == []
  {
  }

  lemma Untouched(d: Disk, order: seq<AgentId>, i: nat, e: Disk)
    requires i < |order| && Distinct(order) && OthersKept(d, e, order[..i]) && order[i] in d.agents
    ensures order[i] in e.agents && e.agents[order[i]] == d.agents[order[i]]
  {
    assert order[i] in d.agents.Keys && order[i] !in order[..i];
  }

  /** One more row of the listing. */
  lemma RecoverStep(d: Disk, order: seq<AgentId>, i: nat, e: Disk, e': Disk)
    requires i < |order| && Distinct(order) && OthersKept(d, e, order[..i]) && order[i] in d.agents
    requires e == Exec(d, RecoverPlan(d, order[..i])) && Completes(d, RecoverPlan(d, order[..i]))
    requires e' == Exec(e, RecoverAgent(e, order[i])) && Completes(e, RecoverAgent(e, order[i]))
    requires e'.agents.Keys == e.agents.Keys && e'.attempts == e.attempts
    requires forall other :: other in e.agents && other != order[i] ==> e'.agents[other] == e.agents[other]
    ensures RecoverPlan(d, order[..i + 1]) == RecoverPlan(d, order[..i]) + RecoverAgent(e, order[i])
    ensures e' == Exec(d, RecoverPlan(d, order[..i + 1])) && Completes(d, RecoverPlan(d, order[..i + 1]))
    ensures OthersKept(d, e', order[..i + 1])
    ensures RecoveredRows(d.agents, order[..i + 1]) ==
            RecoveredRows(d.agents, order[..i]) + (if RecoveryTarget(d.agents[order[i]]).Some? then [order[i]] else [])
  {
    hide RecoverAgent, RecoveryTarget;
    assert order[..i + 1][..i] == order[..i];
    Untouched(d, order, i, e);
    SameRecovery(d, e, order[i]);
    ExecConcat(d, RecoverPlan(d, order[..i]), RecoverAgent(e, order[i]));
    assert forall a :: a !in order[..i + 1] ==> a !in order[..i] && a != order[i];
  }

  /** The rows startup recovery changes. */
  function RecoveredRows(agents: map<AgentId, Agent>, order: seq<AgentId>): seq<AgentId> {
    if |order| == 0 then []
    else
      var agent := order[|order| - 1];
      RecoveredRows(agents, order[..|order| - 1]) + (if agent in agents && RecoveryTarget(agents[agent]).Some? then [agent] else [])
  }
}
