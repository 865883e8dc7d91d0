/**
 What every run of the background agent manager keeps, with a crash allowed
 between any two writes, and what holds in addition when nothing crashes.
 */
module BackgroundLaws {
  import opened Basics
  import opened BackgroundAgents

  // ----- what the journal says about one agent -----

  datatype Change = Change(from: AgentState, to: AgentState)

  /**
   `last` is the last journaled change; `changes` are those since the agent was
   last deleted; `outstanding` is the request that was asked and not answered.
   */
  datatype Trail = Trail(last: Option<Change>, changes: seq<Change>, outstanding: Option<(Kind, RequestId)>)

  const NO_TRAIL := Trail(None, [], None)

  function TrailStep(t: Trail, agent: AgentId, e: JournalEvent): Trail {
    if e.agent != agent then t
    else match e
      case StateChanged(_, from, to) => t.(last := Some(Change(from, to)), changes := t.changes + [Change(from, to)])
      case InputRequested(_, r) => t.(outstanding := Some((Input, r)))
      case PermissionRequested(_, r) => t.(outstanding := Some((Permission, r)))
      case InputSubmitted(_, _) => t.(outstanding := None)
      case PermissionResolved(_, _, _) => t.(outstanding := None)
      case DeletedEvent(_) => t.(changes := [], outstanding := None)
      case _ => t
  }

  function TrailAfter(t: Trail, agent: AgentId, es: seq<JournalEvent>): Trail {
    if |es| == 0 then t else TrailStep(TrailAfter(t, agent, es[..|es| - 1]), agent, es[|es| - 1])
  }

  function TrailOf(journal: seq<JournalEvent>, agent: AgentId): Trail { TrailAfter(NO_TRAIL, agent, journal) }

  lemma {:induction false} TrailConcat(t: Trail, agent: AgentId, a: seq<JournalEvent>, b: seq<JournalEvent>)
    ensures TrailAfter(t, agent, a + b) == TrailAfter(TrailAfter(t, agent, a), agent, b)
  {
    if |b| == 0 {
      assert a + b == a;
    } else {
      assert (a + b)[..|a + b| - 1] == a + b[..|b| - 1];
      TrailConcat(t, agent, a, b[..|b| - 1]);
    }
  }

  lemma {:induction false} TrailOfOthers(t: Trail, agent: AgentId, es: seq<JournalEvent>)
    requires forall i :: 0 <= i < |es| ==> es[i].agent != agent
    ensures TrailAfter(t, agent, es) == t
  {
    if |es| > 0 { TrailOfOthers(t, agent, es[..|es| - 1]); }
  }

  /** Follows the changes from Queued; `None` when they do not chain end to end. */
  function Followed(changes: seq<Change>): Option<AgentState> {
    if |changes| == 0 then Some(Queued)
    else
      var before := Followed(changes[..|changes| - 1]);
      var c := changes[|changes| - 1];
      if before == Some(c.from) then Some(c.to) else None
  }

  lemma FollowedAppend(changes: seq<Change>, c: Change)
    ensures Followed(changes + [c]) == if Followed(changes) == Some(c.from) then Some(c.to) else None
  {
    assert (changes + [c])[..|changes + [c]| - 1] == changes;
  }

  // ----- attempts -----

  /** Numbered 1..n without gaps, each linked to its predecessor. */
  predicate Chained(mine: seq<Attempt>) {
    && (forall i :: 0 <= i < |mine| ==> mine[i].number == i + 1)
    && (|mine| > 0 ==> mine[0].prior == None)
    && (forall i :: 1 <= i < |mine| ==> mine[i].prior == Some(mine[i - 1].id))
  }

  lemma AttemptsAppend(attempts: seq<Attempt>, t: Attempt, agent: AgentId)
    ensures AttemptsOf(attempts + [t], agent) == AttemptsOf(attempts, agent) + (if t.agent == agent then [t] else [])
  {
    assert (attempts + [t])[..|attempts + [t]| - 1] == attempts;
  }

  lemma {:induction false} AttemptsWithout(attempts: seq<Attempt>, gone: AgentId, agent: AgentId)
    ensures AttemptsOf(Without(attempts, gone), agent) == if agent == gone then [] else AttemptsOf(attempts, agent)
  {
    if |attempts| > 0 {
      var init, last := attempts[..|attempts| - 1], attempts[|attempts| - 1];
      AttemptsWithout(init, gone, agent);
      if last.agent != gone { AttemptsAppend(Without(init, gone), last, agent); } else { assert Without(init,
          gone) + [] == Without(init, gone); }
      assert AttemptsOf(init, agent) + [] == AttemptsOf(init, agent);
    }
  }

  lemma {:induction false} AttemptsNamed(attempts: seq<Attempt>, agent: AgentId)
    ensures AttemptsOf(attempts, agent) == [] <==> forall i :: 0 <= i < |attempts| ==> attempts[i].agent != agent
  {
    if |attempts| > 0 {
      var init := attempts[..|attempts| - 1];
      AttemptsNamed(init, agent);
      if forall i :: 0 <= i < |init| ==> init[i].agent != agent {
        assert forall i :: 0 <= i < |init| ==> init[i] == attempts[i];
      } else {
        var i :| 0 <= i < |init| && init[i].agent == agent;
        assert attempts[i].agent == agent;
      }
    }
  }

  // ----- the invariant under crashes -----

  /** A waiting or recoverable agent carries the matching kind and a request; markers are complete. */
  predicate MarkerOk(a: Agent) {
    && (RecoverableKind(a.payload).Some? ==> RecoverableRequest(a.payload).Some?)
    && (a.state.WaitingForInput? ==> RecoverableKind(a.payload) == Some(Input))
    && (a.state.WaitingForPermission? ==> RecoverableKind(a.payload) == Some(Permission))
    && (a.state.Recoverable? ==> RecoverableKind(a.payload).Some?)
  }

  predicate Logged(t: Trail, state: AgentState) {
    t.last.Some? && (state == t.last.value.from || state == t.last.value.to)
  }

  ghost predicate AttemptsOk(d: Disk) {
    && (forall agent :: Chained(AttemptsOf(d.attempts, agent)))
    && (forall agent :: agent !in d.agents ==> AttemptsOf(d.attempts, agent) == [])
  }

  /** With `wal`, every stored state is one side of the last journaled change. */
  ghost predicate CrashInv(wal: bool, d: Disk) {
    && (forall agent :: agent in d.agents ==> MarkerOk(d.agents[agent]))
    && AttemptsOk(d)
    && (wal ==> forall agent :: agent in d.agents ==> Logged(TrailOf(d.journal, agent), d.agents[agent].state))
  }

  /** When a write keeps the invariant. */
  ghost predicate Allowed(wal: bool, d: Disk, w: Write) {
    match w
    case Journal(events) => wal ==> forall agent :: agent in d.agents ==> Logged(TrailAfter(TrailOf(d.journal,
        agent), agent, events), d.agents[agent].state)
    case InsertAgent(agent, record) => MarkerOk(record) && (wal ==> Logged(TrailOf(d.journal, agent), record.state))
    case InsertAttempt(t) => t.agent in d.agents && t == NextAttempt(d.attempts, t.agent, t.id)
    case Update(agent, state, payload, run) =>
      agent in d.agents ==>
        && MarkerOk(Updated(d.agents[agent], state, payload, run))
        && (wal ==> Logged(TrailOf(d.journal, agent), state))
    case DeleteAttempts(_) => true
    case DeleteAgent(agent) => AttemptsOf(d.attempts, agent) == []
  }

  lemma JournalKeeps(wal: bool, d: Disk, events: seq<JournalEvent>)
    requires CrashInv(wal, d) && Allowed(wal, d, Journal(events))
    ensures CrashInv(wal, d.(journal := d.journal + events))
  {
    if wal {
      forall agent | agent in d.agents ensures Logged(TrailOf(d.journal + events, agent), d.agents[agent].state) {
        TrailConcat(NO_TRAIL, agent, d.journal, events);
      }
    }
  }

  lemma ChainedAppend(mine: seq<Attempt>, t: Attempt)
    requires Chained(mine) && t.number == |mine| + 1 && t.prior == if |mine| == 0 then None else Some(mine[|mine| - 1].id)
    ensures Chained(mine + [t])
  {
  }

  lemma InsertAttemptKeeps(wal: bool, d: Disk, t: Attempt)
    requires CrashInv(wal, d) && Allowed(wal, d, InsertAttempt(t))
    ensures CrashInv(wal, d.(attempts := d.attempts + [t]))
  {
    var d' := d.(attempts := d.attempts + [t]);
    forall agent ensures Chained(AttemptsOf(d'.attempts, agent)) && (agent !in d.agents ==> AttemptsOf(d'.attempts, agent) == []) {
      AttemptsAppend(d.attempts, t, agent);
      assert Chained(AttemptsOf(d.attempts, agent));
      if t.agent == agent { ChainedAppend(AttemptsOf(d.attempts, agent), t); } else { assert AttemptsOf(d.attempts,
          agent) + [] == AttemptsOf(d.attempts, agent); }
    }
  }

  lemma DeleteAttemptsKeeps(wal: bool, d: Disk, gone: AgentId)
    requires CrashInv(wal, d)
    ensures CrashInv(wal, d.(attempts := Without(d.attempts, gone)))
  {
    forall agent ensures AttemptsOf(Without(d.attempts, gone), agent) == if agent == gone then [] else AttemptsOf(d.attempts, agent) {
      AttemptsWithout(d.attempts, gone, agent);
    }
  }

  lemma WriteKeeps(wal: bool, d: Disk, w: Write)
    requires CrashInv(wal, d) && Allowed(wal, d, w) && Apply(d, w).Some?
    ensures CrashInv(wal, Apply(d, w).value)
  {
    match w
    case Journal(events) => JournalKeeps(wal, d, events);
    case InsertAttempt(t) => InsertAttemptKeeps(wal, d, t);
    case DeleteAttempts(agent) => DeleteAttemptsKeeps(wal, d, agent);
    case _ =>
  }

  /** Every write of a sequence is allowed when its turn comes. */
  ghost predicate AllowedAll(wal: bool, d: Disk, ws: seq<Write>)
    decreases ws
  {
    |ws| > 0 ==> Allowed(wal, d, ws[0]) && (Apply(d, ws[0]).Some? ==> AllowedAll(wal, Apply(d, ws[0]).value, ws[1..]))
  }

  /** So the invariant holds wherever the operation crashes. */
  lemma {:induction false} PrefixKeeps(wal: bool, d: Disk, ws: seq<Write>, k: nat)
    requires CrashInv(wal, d) && AllowedAll(wal, d, ws) && k <= |ws|
    ensures CrashInv(wal, Exec(d, ws[..k]))
    decreases k
  {
    if k > 0 && Apply(d, ws[0]).Some? {
      WriteKeeps(wal, d, ws[0]);
      assert ws[..k][1..] == ws[1..][..k - 1];
      PrefixKeeps(wal, Apply(d, ws[0]).value, ws[1..], k - 1);
    }
  }

  predicate Completes(d: Disk, ws: seq<Write>)
    decreases ws
  {
    |ws| > 0 ==> Apply(d, ws[0]).Some? && Completes(Apply(d, ws[0]).value, ws[1..])
  }

  lemma {:induction false} AllowedConcat(wal: bool, d: Disk, a: seq<Write>, b: seq<Write>)
    requires AllowedAll(wal, d, a) && (Completes(d, a) ==> AllowedAll(wal, Exec(d, a), b))
    ensures AllowedAll(wal, d, a + b)
    decreases a
  {
    if |a| == 0 {
      assert a + b == b;
    } else {
      assert (a + b)[1..] == a[1..] + b;
      if Apply(d, a[0]).Some? { AllowedConcat(wal, Apply(d, a[0]).value, a[1..], b); }
    }
  }

  lemma {:induction false} ExecConcat(d: Disk, a: seq<Write>, b: seq<Write>)
    requires Completes(d, a)
    ensures Exec(d, a + b) == Exec(Exec(d, a), b)
    ensures Completes(Exec(d, a), b) ==> Completes(d, a + b)
    decreases a
  {
    if |a| == 0 {
      assert a + b == b;
    } else {
      assert (a + b)[1..] == a[1..] + b;
      ExecConcat(Apply(d, a[0]).value, a[1..], b);
    }
  }

  /** Allowed at every crash point, and carried out in full when nothing crashes. */
  ghost predicate Good(wal: bool, d: Disk, ws: seq<Write>) { AllowedAll(wal, d, ws) && Completes(d, ws) }

  lemma Single(wal: bool, d: Disk, w: Write)
    requires Allowed(wal, d, w) && Apply(d, w).Some?
    ensures Good(wal, d, [w]) && Exec(d, [w]) == Apply(d, w).value
  {
    assert [w][1..] == [];
    assert Exec(Apply(d, w).value, []) == Apply(d, w).value;
  }

  lemma Then(wal: bool, d: Disk, a: seq<Write>, b: seq<Write>)
    requires Good(wal, d, a) && Good(wal, Exec(d, a), b)
    ensures Good(wal, d, a + b) && Exec(d, a + b) == Exec(Exec(d, a), b)
  {
    AllowedConcat(wal, d, a, b);
    ExecConcat(d, a, b);
  }

  lemma GoodKeeps(wal: bool, d: Disk, ws: seq<Write>)
    requires CrashInv(wal, d) && Good(wal, d, ws)
    ensures CrashInv(wal, Exec(d, ws))
  {
    PrefixKeeps(wal, d, ws, |ws|);
    assert ws[..|ws|] == ws;
  }

  // ----- transitions -----

  /** What a whole transition leaves behind. */
  function Moved(d: Disk, agent: AgentId, from: AgentState, to: AgentState, payload: Option<Payload>, run: Option<RunId>,
                 attempt: Option<Attempt>, first: seq<JournalEvent>, after: seq<JournalEvent>): Disk
    requires agent in d.agents
  {
    Disk(d.journal + (first + [StateChanged(agent, from, to)] + after),
         d.agents[agent := Updated(d.agents[agent], to, payload, run)],
         if attempt.Some? then d.attempts + [attempt.value] else d.attempts)
  }

  predicate NoChanges(es: seq<JournalEvent>) {
    forall i :: 0 <= i < |es| ==> !es[i].StateChanged? && !es[i].DeletedEvent?
  }

  lemma {:induction false} NoChangesTrail(t: Trail, agent: AgentId, es: seq<JournalEvent>)
    requires NoChanges(es)
    ensures var t' := TrailAfter(t, agent, es); t'.last == t.last && t'.changes == t.changes
  {
    if |es| > 0 { NoChangesTrail(t, agent, es[..|es| - 1]); }
  }

  /** The journal batch of a transition records one change. */
  lemma BatchTrail(t: Trail, agent: AgentId, who: AgentId, from: AgentState, to: AgentState,
                   first: seq<JournalEvent>, after: seq<JournalEvent>)
    requires NoChanges(first) && NoChanges(after)
    ensures var t' := TrailAfter(t, agent, first + [StateChanged(who, from, to)] + after);
            if who == agent then t'.last == Some(Change(from, to)) && t'.changes == t.changes + [Change(from, to)]
            else t'.last == t.last && t'.changes == t.changes
  {
    var e := StateChanged(who, from, to);
    TrailConcat(t, agent, first + [e], after);
    TrailConcat(t, agent, first, [e]);
    assert [e][..0] == [];
    NoChangesTrail(t, agent, first);
    NoChangesTrail(TrailAfter(t, agent, first + [e]), agent, after);
  }

  /** A transition from the stored state may crash anywhere, and otherwise does all of its writes. */
  lemma TransitionAllowed(wal: bool, d: Disk, agent: AgentId, from: AgentState, to: AgentState,
                          payload: Option<Payload>, run: Option<RunId>,
                          attempt: Option<Attempt>, first: seq<JournalEvent>, after: seq<JournalEvent>)
    requires CrashInv(wal, d) && agent in d.agents && d.agents[agent].state == from && NoChanges(first) && NoChanges(after)
    requires MarkerOk(Updated(d.agents[agent], to, payload, run))
    requires attempt.Some? ==> attempt.value == NextAttempt(d.attempts, agent, attempt.value.id) && FreshAttempt(d, attempt.value.id)
    ensures Good(wal, d, Transition(agent, from, to, payload, run, attempt, first, after))
    ensures Exec(d, Transition(agent, from, to, payload, run, attempt, first, after)) == Moved(d, agent, from, to,
        payload, run, attempt, first, after)
  {
    hide MarkerOk, Logged;
    var journal := Journal(first + [StateChanged(agent, from, to)] + after);
    JournalAllowed(wal, d, agent, from, to, first, after);
    Single(wal, d, journal);
    var d1 := Exec(d, [journal]);
    var insert: seq<Write> := if attempt.Some? then [InsertAttempt(attempt.value)] else [];
    if attempt.Some? { Single(wal, d1, InsertAttempt(attempt.value)); }
    Then(wal, d, [journal], insert);
    var d2 := Exec(d1, insert);
    LoggedTo(TrailOf(d1.journal, agent), from, to);
    Single(wal, d2, Update(agent, to, payload, run));
    Then(wal, d, [journal] + insert, [Update(agent, to, payload, run)]);
  }

  lemma LoggedTo(t: Trail, from: AgentState, to: AgentState)
    requires t.last == Some(Change(from, to))
    ensures Logged(t, to)
  {
  }

  lemma JournalAllowed(wal: bool, d: Disk, agent: AgentId, from: AgentState, to: AgentState,
                       first: seq<JournalEvent>, after: seq<JournalEvent>)
    requires CrashInv(wal, d) && agent in d.agents && d.agents[agent].state == from && NoChanges(first) && NoChanges(after)
    ensures Allowed(wal, d, Journal(first + [StateChanged(agent, from, to)] + after))
    ensures TrailOf(d.journal + (first + [StateChanged(agent, from, to)] + after), agent).last == Some(Change(from, to))
  {
    var batch := first + [StateChanged(agent, from, to)] + after;
    forall a | a in d.agents && wal ensures Logged(TrailAfter(TrailOf(d.journal, a), a, batch), d.agents[a].state) {
      BatchTrail(TrailOf(d.journal, a), a, agent, from, to, first, after);
    }
    BatchTrail(TrailOf(d.journal, agent), agent, agent, from, to, first, after);
    TrailConcat(NO_TRAIL, agent, d.journal, batch);
  }

  lemma MoveGood(wal: bool, d: Disk, agent: AgentId, from: AgentState, to: AgentState, after: seq<JournalEvent>)
    requires CrashInv(wal, d) && agent in d.agents && d.agents[agent].state == from && NoChanges(after)
    requires MarkerOk(d.agents[agent].(state := to))
    ensures Good(wal, d, Move(agent, from, to, after))
    ensures Exec(d, Move(agent, from, to, after)) == Moved(d, agent, from, to, None, None, None, [], after)
  {
    TransitionAllowed(wal, d, agent, from, to, None, None, None, [], after);
  }

  /** Two moves in a row, the first of which may also change the payload. */
  lemma TwoMovesGood(wal: bool, d: Disk, agent: AgentId, from: AgentState, via: AgentState, to: AgentState, payload: Option<Payload>,
                     after: seq<JournalEvent>, last: seq<JournalEvent>)
    requires CrashInv(wal, d) && agent in d.agents && d.agents[agent].state == from && NoChanges(after) && NoChanges(last)
    requires MarkerOk(Updated(d.agents[agent], via, payload, None)) && MarkerOk(Updated(d.agents[agent], to, payload, None))
    ensures var ws := Transition(agent, from, via, payload, None, None, [], after) + Move(agent, via, to, last);
            var d1 := Moved(d, agent, from, via, payload, None, None, [], after);
            Good(wal, d, ws) && Exec(d, ws) == Moved(d1, agent, via, to, None, None, None, [], last)
  {
    hide MarkerOk, CrashInv, Good, Exec;
    var first := Transition(agent, from, via, payload, None, None, [], after);
    TransitionAllowed(wal, d, agent, from, via, payload, None, None, [], after);
    GoodKeeps(wal, d, first);
    MoveGood(wal, Exec(d, first), agent, via, to, last);
    Then(wal, d, first, Move(agent, via, to, last));
  }

  lemma ResumeGood(wal: bool, d: Disk, agent: AgentId, attempt: RunId)
    requires CrashInv(wal, d) && agent in d.agents && FreshAttempt(d, attempt)
    requires var s := d.agents[agent].state; s.Paused? || s.Interrupted? || s.Recoverable?
    ensures Good(wal, d, ResumePlan(d, agent, d.agents[agent], attempt))
  {
    var a := d.agents[agent];
    assert MarkerOk(a);
    if a.state.Interrupted? {
      TransitionAllowed(wal, d, agent, a.state, Running, None, Some(attempt),
          Some(NextAttempt(d.attempts, agent, attempt)), [StartedEvent(agent, attempt)], []);
    } else {
      TwoMovesGood(wal, d, agent, a.state, Queued,
          if RecoverableKind(a.payload) == Some(Input) then WaitingForInput else Running, None, [], []);
    }
  }

  lemma ClearedOk(a: Agent, kind: Kind, to: AgentState)
    requires MarkerOk(a) && (to.Queued? || to.Running? || to.Failed?)
    ensures MarkerOk(Updated(a, to, Some(ClearRequest(a.payload, kind)), None))
  {
    SetThenRead(a.payload, kind, "");
  }

  lemma AnswerGood(wal: bool, d: Disk, agent: AgentId, r: RequestId, approved: bool)
    requires CrashInv(wal, d) && agent in d.agents
    ensures Good(wal, d, AgentPlan(d, SendInput(agent, r), agent, d.agents[agent]))
    ensures Good(wal, d, AgentPlan(d, ResolvePermission(agent, r, approved), agent, d.agents[agent]))
  {
    var a := d.agents[agent];
    assert MarkerOk(a);
    forall kind: Kind, to: AgentState | to.Queued? || to.Running? || to.Failed?
      ensures MarkerOk(Updated(a, to, Some(ClearRequest(a.payload, kind)), None))
    {
      ClearedOk(a, kind, to);
    }
    SubmitGood(wal, d, agent, r);
    if approved {
      TwoMovesGood(wal, d, agent, a.state, Queued, Running, Some(ClearRequest(a.payload, Permission)),
          [PermissionResolved(agent, r, true)], []);
    } else {
      TransitionAllowed(wal, d, agent, a.state, Failed, Some(ClearRequest(a.payload, Permission)), None, None, [],
          [PermissionResolved(agent, r, false), OtherEvent(agent)]);
    }
  }

  /** Journaling events that change no state is always allowed. */
  lemma NoteGood(wal: bool, d: Disk, es: seq<JournalEvent>)
    requires CrashInv(wal, d) && forall i :: 0 <= i < |es| ==> !es[i].StateChanged?
    ensures Good(wal, d, [Journal(es)]) && Exec(d, [Journal(es)]) == d.(journal := d.journal + es)
  {
    if wal {
      forall a | a in d.agents ensures Logged(TrailAfter(TrailOf(d.journal, a), a, es), d.agents[a].state) {
        LastKept(TrailOf(d.journal, a), a, es);
      }
    }
    Single(wal, d, Journal(es));
  }

  lemma {:induction false} LastKept(t: Trail, agent: AgentId, es: seq<JournalEvent>)
    requires forall i :: 0 <= i < |es| ==> !es[i].StateChanged?
    ensures TrailAfter(t, agent, es).last == t.last
  {
    if |es| > 0 { LastKept(t, agent, es[..|es| - 1]); }
  }

  lemma SubmitGood(wal: bool, d: Disk, agent: AgentId, r: RequestId)
    requires CrashInv(wal, d) && agent in d.agents
    requires MarkerOk(Updated(d.agents[agent], Queued, Some(ClearRequest(d.agents[agent].payload, Input)), None))
    requires MarkerOk(Updated(d.agents[agent], Running, Some(ClearRequest(d.agents[agent].payload, Input)), None))
    ensures Good(wal, d, AgentPlan(d, SendInput(agent, r), agent, d.agents[agent]))
  {
    hide MarkerOk, CrashInv, Good, Exec, ClearRequest;
    var a := d.agents[agent];
    var es := [InputSubmitted(agent, r)];
    NoteGood(wal, d, es);
    var d1 := d.(journal := d.journal + es);
    GoodKeeps(wal, d, [Journal(es)]);
    var cleared := Some(ClearRequest(a.payload, Input));
    TwoMovesGood(wal, d1, agent, a.state, Queued, Running, cleared, [], []);
    var rest := Transition(agent, a.state, Queued, cleared, None, None, [], []) + Move(agent, Queued, Running, []);
    Then(wal, d, [Journal(es)], rest);
    assert [Journal(es)] + rest == AgentPlan(d, SendInput(agent, r), agent, a);
  }

  lemma DeleteGood(wal: bool, d: Disk, agent: AgentId)
    requires CrashInv(wal, d)
    ensures Good(wal, d, [Journal([DeletedEvent(agent)]), DeleteAttempts(agent), DeleteAgent(agent)])
    ensures Exec(d, [Journal([DeletedEvent(agent)]), DeleteAttempts(agent), DeleteAgent(agent)])
            == Disk(d.journal + [DeletedEvent(agent)], d.agents - {agent}, Without(d.attempts, agent))
  {
    var a, b, c := [Journal([DeletedEvent(agent)])], [DeleteAttempts(agent)], [DeleteAgent(agent)];
    NoteGood(wal, d, [DeletedEvent(agent)]);
    var d1 := Exec(d, a);
    Single(wal, d1, DeleteAttempts(agent));
    Then(wal, d, a, b);
    AttemptsWithout(d.attempts, agent, agent);
    Single(wal, Exec(d1, b), DeleteAgent(agent));
    Then(wal, d, a + b, c);
    assert a + b + c == [Journal([DeletedEvent(agent)]), DeleteAttempts(agent), DeleteAgent(agent)];
  }

  lemma RequestGood(wal: bool, d: Disk, agent: AgentId, r: RequestId)
    requires CrashInv(wal, d) && agent in d.agents
    ensures Good(wal, d, AgentPlan(d, WaitForPermission(agent, r), agent, d.agents[agent]))
    ensures Good(wal, d, AgentPlan(d, RequestInput(agent, r), agent, d.agents[agent]))
  {
    var a := d.agents[agent];
    SetThenRead(a.payload, Permission, r);
    SetThenRead(a.payload, Input, r);
    TransitionAllowed(wal, d, agent, a.state, WaitingForPermission, Some(SetRequest(a.payload, Permission, r)),
        None, None, [], [PermissionRequested(agent, r)]);
    TransitionAllowed(wal, d, agent, a.state, WaitingForInput, Some(SetRequest(a.payload, Input, r)), None, None,
        [], [InputRequested(agent, r)]);
  }

  lemma CancelGood(wal: bool, d: Disk, agent: AgentId)
    requires CrashInv(wal, d) && agent in d.agents
    ensures Good(wal, d, AgentPlan(d, Cancel(agent), agent, d.agents[agent]))
  {
    assert MarkerOk(d.agents[agent]);
    TwoMovesGood(wal, d, agent, d.agents[agent].state, Cancelling, Cancelled, None, [], [OtherEvent(agent)]);
  }

  lemma EndGood(wal: bool, d: Disk, agent: AgentId, to: AgentState, after: seq<JournalEvent>)
    requires CrashInv(wal, d) && agent in d.agents && NoChanges(after)
    requires to.Paused? || to.Succeeded? || to.Failed? || to.Archived?
    ensures Good(wal, d, Move(agent, d.agents[agent].state, to, after))
  {
    assert MarkerOk(d.agents[agent]);
    MoveGood(wal, d, agent, d.agents[agent].state, to, after);
  }

  lemma AgentPlanGood(wal: bool, d: Disk, op: Op)
    requires CrashInv(wal, d) && Admissible(d, op) && !op.Start? && !op.RecoverOnStartup? && Plan(d, op).Ok?
    ensures Good(wal, d, Plan(d, op).value)
  {
    hide CrashInv, Good, Transition, Move;
    match op
    case Pause(agent) => EndGood(wal, d, agent, Paused, []);
    case Resume(agent, attempt) => ResumeGood(wal, d, agent, attempt);
    case WaitForPermission(agent, r) => RequestGood(wal, d, agent, r);
    case RequestInput(agent, r) => RequestGood(wal, d, agent, r);
    case SendInput(agent, r) => AnswerGood(wal, d, agent, r, true);
    case ResolvePermission(agent, r, approved) => AnswerGood(wal, d, agent, r, approved);
    case Cancel(agent) => CancelGood(wal, d, agent);
    case Complete(agent) => EndGood(wal, d, agent, Succeeded, [OtherEvent(agent)]);
    case Fail(agent) => EndGood(wal, d, agent, Failed, [OtherEvent(agent)]);
    case Archive(agent) => EndGood(wal, d, agent, Archived, [OtherEvent(agent)]);
    case DeleteArchived(agent) => DeleteGood(wal, d, agent);
  }

  // ----- start -----

  lemma StartJournalAllowed(wal: bool, d: Disk, agent: AgentId, attempt: RunId)
    requires CrashInv(wal, d) && (wal ==> agent !in d.agents)
    ensures Allowed(wal, d, Journal([StartedEvent(agent, attempt), StateChanged(agent, Queued, Running)]))
    ensures TrailOf(d.journal + [StartedEvent(agent, attempt), StateChanged(agent, Queued, Running)],
        agent).last == Some(Change(Queued, Running))
  {
    var batch := [StartedEvent(agent, attempt), StateChanged(agent, Queued, Running)];
    assert batch == [StartedEvent(agent, attempt)] + [StateChanged(agent, Queued, Running)] + [];
    forall a | a in d.agents && wal ensures Logged(TrailAfter(TrailOf(d.journal, a), a, batch), d.agents[a].state) {
      BatchTrail(TrailOf(d.journal, a), a, agent, Queued, Running, [StartedEvent(agent, attempt)], []);
    }
    BatchTrail(TrailOf(d.journal, agent), agent, agent, Queued, Running, [StartedEvent(agent, attempt)], []);
    TrailConcat(NO_TRAIL, agent, d.journal, batch);
  }

  /** Starting an unused id may crash anywhere. */
  lemma StartGood(wal: bool, d: Disk, agent: AgentId, attempt: RunId, payload: Payload)
    requires CrashInv(wal, d) && agent !in d.agents && FreshAttempt(d, attempt) && RecoverableKind(payload).None?
    ensures Good(wal, d, StartPlan(agent, attempt, payload))
    ensures Exec(d, StartPlan(agent, attempt, payload)) ==
            Disk(d.journal + [StartedEvent(agent, attempt), StateChanged(agent, Queued, Running)],
                 d.agents[agent := Agent(Running, payload, Some(attempt))], d.attempts + [Attempt(attempt, agent, None, 1)])
  {
    hide Logged;
    var plan := StartPlan(agent, attempt, payload);
    StartJournalAllowed(wal, d, agent, attempt);
    Single(wal, d, plan[0]);
    var d1 := Exec(d, [plan[0]]);
    LoggedFrom(TrailOf(d1.journal, agent), Queued, Running);
    Single(wal, d1, plan[1]);
    Then(wal, d, [plan[0]], [plan[1]]);
    var d2 := Exec(d1, [plan[1]]);
    Single(wal, d2, plan[2]);
    Then(wal, d, [plan[0]] + [plan[1]], [plan[2]]);
    var d3 := Exec(d2, [plan[2]]);
    LoggedTo(TrailOf(d3.journal, agent), Queued, Running);
    Single(wal, d3, plan[3]);
    Then(wal, d, [plan[0]] + [plan[1]] + [plan[2]], [plan[3]]);
    assert [plan[0]] + [plan[1]] + [plan[2]] + [plan[3]] == plan;
    assert d1.agents[agent := Agent(Queued, payload, Some(attempt))][agent := Agent(Running, payload, Some(attempt))]
           == d.agents[agent := Agent(Running, payload, Some(attempt))];
  }

  lemma LoggedFrom(t: Trail, from: AgentState, to: AgentState)
    requires t.last == Some(Change(from, to))
    ensures Logged(t, from)
  {
  }

  /** Starting a used id journals the start and then fails. */
  lemma StartUsed(d: Disk, agent: AgentId, attempt: RunId, payload: Payload)
    requires CrashInv(false, d) && agent in d.agents && RecoverableKind(payload).None?
    ensures AllowedAll(false, d, StartPlan(agent, attempt, payload))
    ensures Exec(d, StartPlan(agent, attempt, payload)) ==
            d.(journal := d.journal + [StartedEvent(agent, attempt), StateChanged(agent, Queued, Running)])
  {
    var plan := StartPlan(agent, attempt, payload);
    StartJournalAllowed(false, d, agent, attempt);
    var d1 := Apply(d, plan[0]).value;
    assert Apply(d1, plan[1..][0]).None?;
    assert AllowedAll(false, d1, plan[1..]);
    assert Exec(d1, plan[1..]) == d1;
  }
}
