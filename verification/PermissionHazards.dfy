/**
 A short run of the permission broker from a fresh start, up to a client that has
 looked up the pending permission; and the two ways it can end badly: the recorded
 grant that is denied, and the permission that stays pending without a context.
 */
module PermissionHazards {
  import opened Basics
  import opened TaskStream
  import opened StreamLaws
  import opened StoreLaws
  import opened PermissionProtocol
  import opened PermissionInbox
  import opened PermissionContexts
  import opened PermissionGuarantees

  const OPTION := EngineOption("y", AllowOnce, false, "l")
  const REQUEST := EngineRequest(5, [OPTION], false, PermissionKind.Command, "h", JNull, JNull, "p")
  const AUTHORITY := Authority(0, 0, "w", true, "s")

  const FIRST_LOG: seq<Envelope> := [Envelope(1, TaskCreated)] + [Envelope(2, RunStarted(7, 0))]
  const FIRST := State(0, Store(map[0 := FIRST_LOG], 2, map[]), map[], map[], map[], map[], map[])

  const STOP: Step := OtherCommand(0, 1, "k", "stop", 2, Supervisor, Ok([RunYieldRequested(7, false)]))
  const FINISH: Step := OtherAppend(0, Supervisor, [RunCompleted(7, 0, TerminalReason.Superseded, false)])
  const RESTART: Step := OtherAppend(0, Supervisor, [RunStarted(8, 0)])
  const START: Step := StartDecide(0, 0, 8, REQUEST, AUTHORITY, 0)
  const DECISION := DecisionInput(0, 5, 1, "y", 6)
  const ANSWER: Step := StartResolve(1, ClientKey(2, "a"), 0, 6, DECISION)
  const STOP_AGAIN: Step := Steer(2, 0, 1, "k", "stop", 5, 1, 2, Ok([RunYieldRequested(8, false)]))

  const OPENING: seq<Step> :=
    [STOP] + [FINISH] + [RESTART] + [START] + [Prepare(0)] + [Reserve(0)] + [Judge(0, None)] + [TryCommit(0, true)] + [ANSWER] + [LookUp(1)]

  function RunOf(segment: SegmentId, state: RunState): Run { Run(segment, state, None, None, 0, None, false) }

  // ----- the streams -----

  /** The task runs `run`, nothing is pending, and permission 5 was never asked. */
  ghost predicate Ready(st: Store, version: nat, run: Run) {
    && st.Valid() && st.Version(0) == version && st.View(0).run == Some(run) && !st.View(0).removed
    && st.View(0).permission.None? && st.View(0).question.None? && version > 0
    && NeverAsked(st, 5)
  }

  lemma FirstFacts()
    ensures Init(FIRST) && Ready(FIRST.store, 2, RunOf(7, RunState.Running))
  {
    var one := [Envelope(1, TaskCreated)];
    var two := [Envelope(2, RunStarted(7, 0))];
    assert one[..0] == [] && two[..0] == [];
    ReduceAllConcat(EMPTY_PROJECTION, one, two);
    assert ReduceAll(EMPTY_PROJECTION, one) == Reduce(EMPTY_PROJECTION, one[0]);
    var p := Reduce(EMPTY_PROJECTION, one[0]).value;
    assert ReduceAll(p, two) == Reduce(p, two[0]);
    CountPositive(PermissionAsked(5), FIRST_LOG);
    forall t ensures FIRST.store.View(t).permission.None? { if t != 0 { assert FIRST.store.Log(t) == []; } }
  }

  lemma StillNeverAsked(a: Store, b: Store, e: TaskEvent)
    requires NeverAsked(a, 5) && !e.PermissionRequested? && b.logs == a.logs[0 := a.Log(0) + Stamp([e], a.lastOffset)]
    ensures NeverAsked(b, 5)
  {
    CountConcat(PermissionAsked(5), a.Log(0), Stamp([e], a.lastOffset));
    CountNone(PermissionAsked(5), Stamp([e], a.lastOffset));
    assert Count(PermissionAsked(5), a.Log(0)) == 0;
  }

  lemma Stops(red: Redactor) returns (t: State)
    ensures Apply(red, FIRST, STOP) == Some(t) && t == FIRST.(store := t.store)
    ensures Ready(t.store, 3, YIELDING)
    ensures t.store.inbox == map[(0, ClientKey(1, "k")) := InboxEntry(SteeringPayload("stop"), 2, Accepted)]
  {
    FirstFacts();
    var c := StoreCommand(0, ClientKey(1, "k"), SteeringPayload("stop"), 2, Supervisor);
    var e := RunYieldRequested(7, false);
    ViewOffset(FIRST.store, 0);
    TransactOne(FIRST.store, c, e);
    StillNeverAsked(FIRST.store, Transact(FIRST.store, c, None, Ok([e])).store, e);
    hide Transact, NeverAsked;
    t := Apply(red, FIRST, STOP).value;
  }

  lemma EndsOrStarts(p: Projection, e: Envelope)
    requires (e.event.RunCompleted? || e.event.RunStarted?) && p.permission.None? && p.question.None? && Reduce(p, e).Some?
    ensures var q := Reduce(p, e).value; q.permission.None? && q.question.None? && q.removed == p.removed
  {
  }

  lemma Appends(red: Redactor, s: State, e: TaskEvent, version: nat, run: Run, next: Run) returns (t: State)
    requires Ready(s.store, version, run) && (e.RunCompleted? || e.RunStarted?)
    requires var q := Reduce(s.store.View(0), Envelope(s.store.lastOffset + 1, e)); q.Some? && q.value.run == Some(next)
    ensures Apply(red, s, OtherAppend(0, Supervisor, [e])) == Some(t) && t == s.(store := t.store)
    ensures Ready(t.store, version + 1, next) && t.store.inbox == s.store.inbox
  {
    AppendOne(s.store, 0, e);
    assert AcceptableBatch(Supervisor, [e]);
    StillNeverAsked(s.store, Append(s.store, 0, [e]).value, e);
    EndsOrStarts(s.store.View(0), Envelope(s.store.lastOffset + 1, e));
    hide NeverAsked, AcceptableBatch, Reduce, Append;
    t := Apply(red, s, OtherAppend(0, Supervisor, [e])).value;
  }

  const OVER := RunOf(7, RunState.Interrupted).(promotion := Some(SafePoint),
      terminal := Some(TerminalReason.Superseded), endedAt := Some(0))

  const YIELDING := RunOf(7, RunState.Yielding).(promotion := Some(SafePoint))

  lemma FinishReduces(st: Store)
    requires Ready(st, 3, YIELDING)
    ensures var q := Reduce(st.View(0), Envelope(st.lastOffset + 1, RunCompleted(7, 0, TerminalReason.Superseded, false)));
            q.Some? && q.value.run == Some(OVER)
  {
    ViewOffset(st, 0);
    hide NeverAsked;
  }

  lemma RestartReduces(st: Store)
    requires Ready(st, 4, OVER)
    ensures var q := Reduce(st.View(0), Envelope(st.lastOffset + 1, RunStarted(8, 0)));
            q.Some? && q.value.run == Some(RunOf(8, RunState.Running))
  {
    ViewOffset(st, 0);
    hide NeverAsked;
  }

  lemma Restarts(red: Redactor, s: State) returns (m: State, t: State)
    requires Ready(s.store, 3, YIELDING)
    ensures Apply(red, s, FINISH) == Some(m) && Apply(red, m, RESTART) == Some(t) && t == s.(store := t.store)
    ensures Ready(t.store, 5, RunOf(8, RunState.Running)) && t.store.inbox == s.store.inbox
  {
    hide Ready, Reduce, Apply, RunOf;
    FinishReduces(s.store);
    m := Appends(red, s, RunCompleted(7, 0, TerminalReason.Superseded, false), 3, YIELDING, OVER);
    RestartReduces(m.store);
    t := Appends(red, m, RunStarted(8, 0), 4, OVER, RunOf(8, RunState.Running));
  }

  // ----- the call -----

  const OPTIONS: map<string, EngineDecision> := map["y" := AllowOnce]
  const DRAFT := Context(0, 8, 1, PermissionKind.Command, "h", "s", "w", JNull, JNull, [PermissionOption("y", "l")], 1, AUTHORITY)
  const CALL := Call(0, 8, REQUEST, AUTHORITY, 0, OPTIONS, Registered, None, false, None, false, true, 0)

  lemma OneOption()
    ensures Presented(REQUEST, REQUEST.options) == [OPTION] && DecisionMap([OPTION]) == OPTIONS
    ensures OptionList([OPTION]) == [PermissionOption("y", "l")]
  {
    assert REQUEST.options[1..] == [] && [OPTION][..0] == [];
    assert DecisionMap([OPTION][..0]) == map[];
    assert OPTIONS == map[]["y" := AllowOnce];
  }

  lemma Starts(red: Redactor, s: State)
    requires NeverAsked(s.store, 5) && s.calls == map[] && s.waiters == map[]
    ensures Apply(red, s, START) == Some(s.(calls := map[0 := CALL], waiters := map[5 := Waiter(0, OPTIONS)]))
  {
    OneOption();
    hide Presented, DecisionMap, NeverAsked;
  }

  lemma Prepares(red: Redactor, s: State)
    requires s.calls == map[0 := CALL] && s.clock == 0 && s.store.Version(0) == 5
    ensures Apply(red, s, Prepare(0)) == Some(s.(calls := map[0 := CALL.(pc := Prepared(DRAFT, 5), draft := Some(DRAFT))]))
  {
    OneOption();
    hide Presented, OptionList;
    assert DraftContext(CALL, 0) == DRAFT;
    var next := CALL.(pc := Prepared(DRAFT, 5), draft := Some(DRAFT));
    assert s.calls[0 := next] == map[0 := next];
  }

  const HELD := CALL.(draft := Some(DRAFT))

  lemma Reserves(red: Redactor, s: State)
    requires s.calls == map[0 := HELD.(pc := Prepared(DRAFT, 5))] && s.clock == 0 && s.contexts == map[]
    ensures Apply(red, s, Reserve(0)) == Some(s.(calls := map[0 := HELD.(pc := Judging(DRAFT, 5))], contexts := map[5 := DRAFT]))
  {
    assert ValidDraft(0, DRAFT) by { assert DRAFT.options[0].id[0] == 'y'; }
    var next := HELD.(pc := Judging(DRAFT, 5));
    assert s.calls[0 := next] == map[0 := next] && s.contexts[5 := DRAFT] == map[5 := DRAFT];
  }

  lemma Judges(red: Redactor, s: State)
    requires s.calls == map[0 := HELD.(pc := Judging(DRAFT, 5))]
    ensures Apply(red, s, Judge(0, None)) == Some(s.(calls := map[0 := HELD.(pc := Committing(DRAFT, None, 5, VERSION_RETRIES))]))
  {
    var next := HELD.(pc := Committing(DRAFT, None, 5, VERSION_RETRIES));
    assert s.calls[0 := next] == map[0 := next];
  }

  function Pending(red: Redactor): PendingPermission { RedactedProjection(red, 5, DRAFT, REQUEST.preview, None) }

  lemma Decides(red: Redactor, st: Store)
    requires Ready(st, 5, RunOf(8, RunState.Running))
    ensures RequestDecision(red, 0, st.View(0), 5, DRAFT, REQUEST.preview, None) == Ok([PermissionRequested(Pending(red))])
    ensures RequestRefusal(st.Log(0), 5, true) == None
    ensures var q := Reduce(st.View(0), Envelope(st.lastOffset + 1, PermissionRequested(Pending(red))));
            q.Some? && q.value.permission == Some(Pending(red)) && q.value.removed == st.View(0).removed
  {
    ViewOffset(st, 0);
    assert [PermissionRequested(Pending(red))] + [] == [PermissionRequested(Pending(red))];
  }

  lemma RecordTx(red: Redactor, s: State) returns (tx: Tx)
    requires s.calls == map[0 := HELD.(pc := Committing(DRAFT, None, 5, VERSION_RETRIES))] && s.clock == 0
    requires Ready(s.store, 5, RunOf(8, RunState.Running)) && (forall k :: k in s.store.inbox ==> k.1.ClientKey?)
    ensures tx == RequestTx(red, s, s.calls[0], DRAFT, None, 5, true) && tx.outcome.Accepted?
    ensures tx.store.Valid() && tx.store.Version(0) == 6 && !tx.store.View(0).removed && tx.store.View(0).permission == Some(Pending(red))
    ensures forall k :: k in tx.store.inbox ==> k in s.store.inbox || k == (0, PermissionRequestKey(5, 5))
    ensures forall k :: k in s.store.inbox ==> k in tx.store.inbox && tx.store.inbox[k] == s.store.inbox[k]
  {
    Decides(red, s.store);
    hide Transact, RequestDecision, NeverAsked, Reduce, Pending, RequestRefusal;
    TransactOne(s.store, RequestCommand(red, s.calls[0], DRAFT, None, 5), PermissionRequested(Pending(red)));
    tx := RequestTx(red, s, s.calls[0], DRAFT, None, 5, true);
  }

  lemma CommitStep(red: Redactor, s: State, tx: Tx)
    requires s.calls == map[0 := HELD.(pc := Committing(DRAFT, None, 5, VERSION_RETRIES))]
    requires tx == RequestTx(red, s, s.calls[0], DRAFT, None, 5, true) && tx.outcome.Accepted?
    ensures Apply(red, s, TryCommit(0, true)) ==
            Some(s.(store := tx.store, calls := map[0 := HELD.(pc := Waiting, attempts := 1, committed := true)]))
  {
    hide RequestTx;
    var next := HELD.(pc := Waiting, attempts := 1, committed := true);
    assert s.calls[0 := next] == map[0 := next];
  }

  // ----- the client -----

  lemma Answers(red: Redactor, s: State)
    requires s.resolvers == map[] && s.waiters == map[5 := Waiter(0, OPTIONS)] && s.contexts == map[5 := DRAFT]
    ensures Apply(red, s, ANSWER) == Some(s.(resolvers := map[1 := Resolver(ClientKey(2, "a"), DECISION, None)]))
    ensures Apply(red, s.(resolvers := map[1 := Resolver(ClientKey(2, "a"), DECISION, None)]), LookUp(1)) ==
            Some(s.(resolvers := map[1 := Resolver(ClientKey(2, "a"), DECISION, Some(Some(DRAFT)))]))
  {
    var w := Resolver(ClientKey(2, "a"), DECISION, None);
    var v := Resolver(ClientKey(2, "a"), DECISION, Some(Some(DRAFT)));
    assert s.resolvers[1 := w] == map[1 := w] && map[1 := w][1 := v] == map[1 := v];
  }

  /** The state the opening run reaches. */
  ghost predicate Opened(red: Redactor, t: State) {
    && t.clock == 0 && t.calls == map[0 := HELD.(pc := Waiting, attempts := 1, committed := true)]
    && t.contexts == map[5 := DRAFT] && t.waiters == map[5 := Waiter(0, OPTIONS)] && t.completers == map[]
    && t.resolvers == map[1 := Resolver(ClientKey(2, "a"), DECISION, Some(Some(DRAFT)))]
    && t.store.Valid() && t.store.Version(0) == 6 && !t.store.View(0).removed && t.store.View(0).permission == Some(Pending(red))
    && (forall k :: k in t.store.inbox ==> k == (0, ClientKey(1, "k")) || k == (0, PermissionRequestKey(5, 5)))
    && (0, ClientKey(1, "k")) in t.store.inbox && t.store.inbox[(0, ClientKey(1, "k"))] == InboxEntry(SteeringPayload("stop"), 2, Accepted)
  }

  lemma RunSnoc(red: Redactor, s: State, steps: seq<Step>, step: Step, m: State)
    requires RunSteps(red, s, steps) == Some(m)
    ensures RunSteps(red, s, steps + [step]) == Apply(red, m, step)
  {
    assert (steps + [step])[..|steps + [step]| - 1] == steps;
  }

  lemma Prelude(red: Redactor) returns (t: State)
    ensures RunSteps(red, FIRST, [STOP] + [FINISH] + [RESTART]) == Some(t) && t == FIRST.(store := t.store)
    ensures Ready(t.store, 5, RunOf(8, RunState.Running))
    ensures t.store.inbox == map[(0, ClientKey(1, "k")) := InboxEntry(SteeringPayload("stop"), 2, Accepted)]
  {
    hide Apply, RunSteps, Ready;
    var a := Stops(red);
    var m, b := Restarts(red, a);
    t := b;
    assert RunSteps(red, FIRST, []) == Some(FIRST) by { NoSteps(red, FIRST); }
    RunSnoc(red, FIRST, [], STOP, FIRST);
    assert [] + [STOP] == [STOP];
    RunSnoc(red, FIRST, [STOP], FINISH, a);
    RunSnoc(red, FIRST, [STOP] + [FINISH], RESTART, m);
  }

  lemma NoSteps(red: Redactor, s: State)
    ensures RunSteps(red, s, []) == Some(s)
  {
  }

  const CALLING: seq<Step> := [START] + [Prepare(0)] + [Reserve(0)] + [Judge(0, None)]

  lemma Calls(red: Redactor, s: State) returns (t: State)
    requires s == FIRST.(store := s.store) && Ready(s.store, 5, RunOf(8, RunState.Running))
    ensures RunSteps(red, s, CALLING) == Some(t)
    ensures t == s.(calls := map[0 := HELD.(pc := Committing(DRAFT, None, 5, VERSION_RETRIES))],
                    contexts := map[5 := DRAFT], waiters := map[5 := Waiter(0, OPTIONS)])
  {
    hide Apply, RunSteps, NeverAsked;
    Starts(red, s);
    var a := s.(calls := map[0 := CALL], waiters := map[5 := Waiter(0, OPTIONS)]);
    Prepares(red, a);
    var b := a.(calls := map[0 := HELD.(pc := Prepared(DRAFT, 5))]);
    Reserves(red, b);
    var c := b.(calls := map[0 := HELD.(pc := Judging(DRAFT, 5))], contexts := map[5 := DRAFT]);
    Judges(red, c);
    t := c.(calls := map[0 := HELD.(pc := Committing(DRAFT, None, 5, VERSION_RETRIES))]);
    NoSteps(red, s);
    RunSnoc(red, s, [], START, s);
    assert [] + [START] == [START];
    RunSnoc(red, s, [START], Prepare(0), a);
    RunSnoc(red, s, [START] + [Prepare(0)], Reserve(0), b);
    RunSnoc(red, s, [START] + [Prepare(0)] + [Reserve(0)], Judge(0, None), c);
  }

  const ASKING: seq<Step> := [TryCommit(0, true)] + [ANSWER] + [LookUp(1)]

  lemma AsksAndAnswers(red: Redactor, s: State) returns (t: State)
    requires s == FIRST.(store := s.store, calls := map[0 := HELD.(pc := Committing(DRAFT, None, 5, VERSION_RETRIES))],
                         contexts := map[5 := DRAFT], waiters := map[5 := Waiter(0, OPTIONS)])
    requires Ready(s.store, 5, RunOf(8, RunState.Running))
    requires s.store.inbox == map[(0, ClientKey(1, "k")) := InboxEntry(SteeringPayload("stop"), 2, Accepted)]
    ensures RunSteps(red, s, ASKING) == Some(t) && Opened(red, t)
  {
    hide Apply, RunSteps, Ready, Pending, RequestTx;
    var tx := RecordTx(red, s);
    CommitStep(red, s, tx);
    var a := s.(store := tx.store, calls := map[0 := HELD.(pc := Waiting, attempts := 1, committed := true)]);
    Answers(red, a);
    var b := a.(resolvers := map[1 := Resolver(ClientKey(2, "a"), DECISION, None)]);
    t := a.(resolvers := map[1 := Resolver(ClientKey(2, "a"), DECISION, Some(Some(DRAFT)))]);
    NoSteps(red, s);
    RunSnoc(red, s, [], TryCommit(0, true), s);
    assert [] + [TryCommit(0, true)] == [TryCommit(0, true)];
    RunSnoc(red, s, [TryCommit(0, true)], ANSWER, a);
    RunSnoc(red, s, [TryCommit(0, true)] + [ANSWER], LookUp(1), b);
  }

  lemma Opens(red: Redactor) returns (t: State)
    ensures RunSteps(red, FIRST, OPENING) == Some(t) && Opened(red, t)
  {
    hide Apply, RunSteps, Ready, Opened;
    var a := Prelude(red);
    var b := Calls(red, a);
    t := AsksAndAnswers(red, b);
    RunConcat(red, FIRST, [STOP] + [FINISH] + [RESTART], CALLING);
    RunConcat(red, FIRST, ([STOP] + [FINISH] + [RESTART]) + CALLING, ASKING);
    assert OPENING == (([STOP] + [FINISH] + [RESTART]) + CALLING) + ASKING;
  }

  /** No step of the opening is a steering command. */
  lemma OpeningHasNoReplay(red: Redactor)
    ensures NoCrossReplay(red, FIRST, OPENING)
  {
    forall i | 0 <= i < |OPENING| ensures !OPENING[i].Steer? { }
  }

  lemma OpenedInv(red: Redactor) returns (t: State)
    ensures Init(FIRST) && RunSteps(red, FIRST, OPENING) == Some(t) && Opened(red, t) && Inv(red, t)
  {
    FirstFacts();
    hide Init, RunSteps, Opened, Inv, NoCrossReplay;
    t := Opens(red);
    OpeningHasNoReplay(red);
    RunKeeps(red, FIRST, OPENING);
  }

  lemma OpenedIsUnique(red: Redactor, t: State)
    requires Opened(red, t)
    ensures Unique(t, 0) && t.calls[0].pc.Waiting? && t.calls[0].draft == Some(DRAFT) && IsPending(t.store.View(0), 5)
  {
  }

  lemma OpenedGrants(red: Redactor, t: State)
    requires Opened(red, t) && Inv(red, t)
    ensures AboutToGrant(red, t, 0, 1)
  {
    OpenedIsUnique(red, t);
    assert HasOption(DRAFT.options, "y") by { assert DRAFT.options[0].id == "y"; }
    hide Pending;
  }

  const DENYING: seq<Step> := OPENING + (Grant(1) + (GiveUp(0, 2) + ReadBack(0)))

  /**
   A concrete run from a fresh broker, for every redactor: the grant is recorded,
   its thread has taken the waiter, the call times out in between and denies.
   */
  lemma GrantRecordedAndDenied(red: Redactor)
    ensures Init(FIRST) && RunSteps(red, FIRST, DENYING).Some?
    ensures var t := RunSteps(red, FIRST, DENYING).value;
            && 0 in t.calls && t.calls[0].pc == Done(DenyOnce)
            && ResolutionOption(t.store.Log(0), 5, REQUEST_REVISION) == Some("y")
                && REQUEST.options[0] == EngineOption("y", AllowOnce, false, "l")
  {
    hide Init, RunSteps, Inv, AboutToGrant, ResolutionOption;
    var m := OpenedInv(red);
    OpenedGrants(red, m);
    RecordedGrantCanBeDenied(red, m, 0, 1);
    RunConcat(red, FIRST, OPENING, Grant(1) + (GiveUp(0, 2) + ReadBack(0)));
  }

  const ORPHANING: seq<Step> := OPENING + [STOP_AGAIN, DropContext(2)]

  /** A concrete run that leaves a pending permission without its context: the old stop command is sent again. */
  lemma PermissionOrphaned(red: Redactor)
    ensures Init(FIRST) && RunSteps(red, FIRST, ORPHANING).Some?
    ensures var t := RunSteps(red, FIRST, ORPHANING).value; IsPending(t.store.View(0), 5) && 5 !in t.contexts
  {
    hide Init, RunSteps, Inv;
    var m := OpenedInv(red);
    OrphanedFrom(red, m);
    RunConcat(red, FIRST, OPENING, [STOP_AGAIN, DropContext(2)]);
  }

  lemma OrphanedFrom(red: Redactor, m: State)
    requires Opened(red, m) && Inv(red, m)
    ensures RunSteps(red, m, [STOP_AGAIN, DropContext(2)]).Some?
    ensures var t := RunSteps(red, m, [STOP_AGAIN, DropContext(2)]).value; IsPending(t.store.View(0), 5) && 5 !in t.contexts
  {
    OpenedIsUnique(red, m);
    StopReplays(red, m);
    SteeringOrphansExactlyOnReplay(red, m, STOP_AGAIN, 0);
  }

  lemma StopReplays(red: Redactor, m: State)
    requires Opened(red, m) && Inv(red, m)
    ensures CrossReplay(m, STOP_AGAIN) && SteerTx(m, 0, 1, "k", "stop", 5, 1, 2, Ok([RunYieldRequested(8, false)])).outcome.Accepted?
  {
    OpenedIsUnique(red, m);
    assert CallInv(red, m, m.calls[0]);
    LogReplays(m.store, 0);
    PermissionEndsOnce(m.store.Log(0), 5);
    assert Count(PermissionAsked(5), m.store.Log(0)) == 1;
  }
}
