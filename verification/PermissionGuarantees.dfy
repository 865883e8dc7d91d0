/**
 What the permission broker guarantees over every run: live contexts for pending
 permissions, prompt decisions that are accepted, one request per call; and the
 two exact limits of those guarantees, replayed steering and the window between
 taking a waiter and sending on it.
 */
module PermissionGuarantees {
  import opened Basics
  import opened TaskStream
  import opened StreamLaws
  import opened StoreLaws
  import opened PermissionProtocol
  import opened PermissionInbox
  import opened PermissionContexts
  import FailClosed = PermissionFailClosed

  /** Every call that uses `r` is its only user. */
  ghost predicate SoleUser(s: State, r: RequestId) {
    forall call :: call in s.calls && s.calls[call].request.requestId == r ==> Unique(s, call)
  }

  /** The stored details are the redacted form of the live context. */
  predicate Matches(red: Redactor, task: TaskId, p: PendingPermission, x: Context) {
    && x.task == task && p.revision == x.revision && p.details.Some?
    && var d := p.details.value;
       && d.kind == x.kind && d.segment == x.segment && d.expiresAt == x.expiresAt
       && d.actionPlanHash == x.actionPlanHash && d.sandboxPolicyHash == x.sandboxPolicyHash
       && d.workspace == red(x.workspace) && d.subject == RedactJson(red, x.subject) && d.actorSource == RedactJson(red, x.actorSource)
       && |d.options| == |x.options|
       && forall i :: 0 <= i < |x.options| ==> d.options[i].id == x.options[i].id && d.options[i].labelText == red(x.options[i].labelText)
  }

  /** In every reachable state a pending permission has a live context that agrees with it field by field. */
  lemma PendingPermissionHasContext(red: Redactor, s: State, steps: seq<Step>, task: TaskId)
    requires Init(s) && RunSteps(red, s, steps).Some? && NoCrossReplay(red, s, steps)
    requires var p := RunSteps(red, s, steps).value.store.View(task).permission;
             p.Some? && SoleUser(RunSteps(red, s, steps).value, p.value.requestId)
    ensures var t := RunSteps(red, s, steps).value; var p := t.store.View(task).permission.value;
            p.requestId in t.contexts && Matches(red, task, p, t.contexts[p.requestId])
  {
    RunKeeps(red, s, steps);
    var t := RunSteps(red, s, steps).value;
    var p := t.store.View(task).permission.value;
    var call :| Owner(t, task, p.requestId, call);
    assert Unique(t, call) && DraftOk(t.calls[call]);
    assert CallInv(red, t, t.calls[call]);
  }

  /** A decision on a pending permission of `c`, with the context looked up while it was live. */
  ghost predicate DecisionOn(s: State, c: Call, w: Resolver) {
    && ResolverOk(s, w) && w.context.Some? && w.context.value.Some?
    && w.input.task == c.task && w.input.requestId == c.request.requestId && w.input.revision == REQUEST_REVISION
  }

  /**
   While its permission is pending, a decision is refused only because it is late
   or because its option was not presented; never for its context.
   */
  lemma DecisionRefusedOnlyForCause(red: Redactor, s: State, call: CallId, w: Resolver)
    requires Inv(red, s) && Unique(s, call) && IsPending(s.store.View(s.calls[call].task), s.calls[call].request.requestId)
    requires DecisionOn(s, s.calls[call], w)
    ensures s.calls[call].draft.Some?
    ensures var x := s.calls[call].draft.value;
            ResolveCheck(red, s.clock, s.store.View(w.input.task), w.context.value, w.input) ==
              if s.clock > x.expiresAt then Some(RequestExpired)
              else if !HasOption(x.options, w.input.option) then Some(OptionNotPresented)
              else None
  {
    UniqueOwner(s, call, w.context.value.value);
    assert DraftOk(s.calls[call]) && CallInv(red, s, s.calls[call]);
  }

  /** A client that looks up the context of a pending permission finds it. */
  lemma LookUpFindsContext(red: Redactor, s: State, call: CallId, thread: ThreadId)
    requires Inv(red, s) && Unique(s, call) && IsPending(s.store.View(s.calls[call].task), s.calls[call].request.requestId)
    requires thread in s.resolvers && s.resolvers[thread].context.None?
        && s.resolvers[thread].input.requestId == s.calls[call].request.requestId
    ensures Apply(red, s, LookUp(thread)).Some?
    ensures s.calls[call].draft.Some?
            && Apply(red, s, LookUp(thread)).value.resolvers[thread].context == Some(Some(s.calls[call].draft.value))
  {
    assert CallInv(red, s, s.calls[call]);
  }

  lemma EndReduces(st: Store, task: TaskId, r: RequestId, option: string)
    requires st.Valid() && PendingIs(st.View(task), r, REQUEST_REVISION)
    ensures Reduce(st.View(task), Envelope(st.lastOffset + 1, PermissionResolved(r, REQUEST_REVISION, option))).Some?
  {
    ViewOffset(st, task);
  }

  function ResolveCommand(w: Resolver): StoreCommand {
    StoreCommand(w.input.task, w.key,
        PermissionResolvePayload(w.input.requestId, w.input.revision, w.input.option), w.input.expected, PermissionBroker)
  }

  /** A prompt decision for a presented option at the current version is recorded. */
  lemma PromptDecisionIsRecorded(red: Redactor, s: State, call: CallId, w: Resolver)
    requires Inv(red, s) && Unique(s, call) && IsPending(s.store.View(s.calls[call].task), s.calls[call].request.requestId)
    requires DecisionOn(s, s.calls[call], w) && s.calls[call].draft.Some?
    requires s.clock <= s.calls[call].draft.value.expiresAt && HasOption(s.calls[call].draft.value.options, w.input.option)
    requires w.input.expected == s.store.Version(w.input.task) && !s.store.View(w.input.task).removed && Fresh(s.store, ResolveCommand(w))
    ensures var tx := ResolveTx(red, s, w, w.context.value, true);
            && tx.outcome.Accepted? && tx.store.Valid()
            && Appended(s.store, tx.store, w.input.task, [PermissionResolved(w.input.requestId, REQUEST_REVISION, w.input.option)])
            && tx.store.View(w.input.task).permission.None?
            && tx.store.View(w.input.task).removed == s.store.View(w.input.task).removed
            && tx.store.inbox == s.store.inbox[(w.input.task, w.key) := InboxEntry(ResolveCommand(w).payload, w.input.expected, Accepted)]
  {
    DecisionRefusedOnlyForCause(red, s, call, w);
    var e := PermissionResolved(w.input.requestId, REQUEST_REVISION, w.input.option);
    assert CallInv(red, s, s.calls[call]) && DraftOk(s.calls[call]);
    EndReduces(s.store, w.input.task, w.input.requestId, w.input.option);
    TransactOne(s.store, ResolveCommand(w), e);
    assert ResolveTx(red, s, w, w.context.value, true) == Transact(s.store, ResolveCommand(w), None, Ok([e]));
  }

  /**
   Each call records at most one request despite its retries, and that request
   ends at most once: resolved or invalidated, never both, and not while pending.
   */
  lemma OnePermissionRequestPerCall(red: Redactor, s: State, steps: seq<Step>, call: CallId)
    requires Init(s) && RunSteps(red, s, steps).Some? && NoCrossReplay(red, s, steps) && Unique(RunSteps(red, s, steps).value, call)
    ensures OneRequest(RunSteps(red, s, steps).value, RunSteps(red, s, steps).value.calls[call])
    ensures forall task :: Coherent(RunSteps(red, s, steps).value.store.View(task))
  {
    RunKeeps(red, s, steps);
    var t := RunSteps(red, s, steps).value;
    assert DraftOk(t.calls[call]);
    RequestCounts(red, t, t.calls[call]);
    forall task ensures Coherent(t.store.View(task)) {
      LogReplays(t.store, task);
      OneForegroundInteraction(t.store.Log(task));
    }
  }

  ghost predicate OneRequest(s: State, c: Call) {
    var r := c.request.requestId;
    && c.attempts <= VERSION_RETRIES + 1
    && (forall task :: Count(PermissionAsked(r), s.store.Log(task)) == if task == c.task && c.committed then 1 else 0)
    && Count(PermissionAnswered(r), s.store.Log(c.task)) + Count(PermissionDropped(r), s.store.Log(c.task))
       + Pending(IsPending(s.store.View(c.task), r)) <= Count(PermissionAsked(r), s.store.Log(c.task))
  }

  lemma RequestCounts(red: Redactor, s: State, c: Call)
    requires s.store.Valid() && DraftOk(c) && CallInv(red, s, c)
    ensures OneRequest(s, c)
  {
    LogReplays(s.store, c.task);
    PermissionEndsOnce(s.store.Log(c.task), c.request.requestId);
  }

  lemma ResolvedWhereAsked(red: Redactor, s: State, call: CallId, option: string)
    requires Inv(red, s) && Unique(s, call) && FailClosed.Resolved(s.store, s.calls[call].request.requestId, option)
    ensures FailClosed.ResolvedIn(s.store.Log(s.calls[call].task), s.calls[call].request.requestId, option)
  {
    var c := s.calls[call];
    var r := c.request.requestId;
    var task :| FailClosed.ResolvedIn(s.store.Log(task), r, option);
    var log := s.store.Log(task);
    var i :| 0 <= i < |log| && log[i].event.PermissionResolved? && log[i].event.requestId == r && log[i].event.option == option;
    assert Marks(PermissionAnswered(r), log[i].event);
    CountPositive(PermissionAnswered(r), log);
    EndedWasAsked(s.store, task, r);
    assert CallInv(red, s, c);
    assert task == c.task;
  }

  /** For a request id of its own, the resolution that justifies a decision is in the call's own stream. */
  lemma GrantIsInOwnStream(red: Redactor, s: State, steps: seq<Step>, call: CallId)
    requires Init(s) && RunSteps(red, s, steps).Some? && NoCrossReplay(red, s, steps) && Unique(RunSteps(red, s, steps).value, call)
    requires var c := RunSteps(red, s, steps).value.calls[call]; c.pc.Done? && c.pc.decision != DenyOnce
    ensures var t := RunSteps(red, s, steps).value; var c := t.calls[call];
            exists o: EngineOption ::
              && o in c.request.options && o.decision == c.pc.decision && Presentable(c.request, o)
              && FailClosed.ResolvedIn(t.store.Log(c.task), c.request.requestId, o.id)
  {
    var t := RunSteps(red, s, steps).value;
    var c := t.calls[call];
    RunKeeps(red, s, steps);
    FailClosed.DecideFailsClosed(red, s, steps, call);
    var o: EngineOption :| o in c.request.options && o.decision == c.pc.decision && !o.requiresConfirmation
      && (c.request.confirmationExpected ==> !IsAllow(c.pc.decision)) && FailClosed.Resolved(t.store, c.request.requestId, o.id);
    ResolvedWhereAsked(red, t, call, o.id);
  }

  // ----- replayed steering -----

  /**
   An accepted steering command drops the context. The permission stays pending
   without one exactly when the acceptance was replayed from another command.
   */
  lemma SteeringOrphansExactlyOnReplay(red: Redactor, s: State, step: Step, call: CallId)
    requires Inv(red, s) && Unique(s, call) && IsPending(s.store.View(s.calls[call].task), s.calls[call].request.requestId)
    requires step.Steer? && step.thread !in s.completers && step.task == s.calls[call].task && step.r == s.calls[call].request.requestId
    requires SteerTx(s, step.task, step.client, step.key, step.text, step.r, step.revision, step.expected, step.extra).outcome.Accepted?
    ensures RunSteps(red, s, [step, DropContext(step.thread)]).Some?
    ensures var t := RunSteps(red, s, [step, DropContext(step.thread)]).value;
            && step.r !in t.contexts
            && (IsPending(t.store.View(step.task), step.r) <==> CrossReplay(s, step))
  {
    var tx := SteerTx(s, step.task, step.client, step.key, step.text, step.r, step.revision, step.expected, step.extra);
    SteerLeavesPending(red, s, step, s.calls[call]);
    SteerRun(red, s, step, tx);
  }

  lemma SteerLeavesPending(red: Redactor, s: State, step: Step, c: Call)
    requires Shape(s) && CallInv(red, s, c) && IsPending(s.store.View(c.task), c.request.requestId)
    requires step.Steer? && step.task == c.task && step.r == c.request.requestId
    requires SteerTx(s, step.task, step.client, step.key, step.text, step.r, step.revision, step.expected, step.extra).outcome.Accepted?
    ensures var tx := SteerTx(s, step.task, step.client, step.key, step.text, step.r, step.revision, step.expected, step.extra);
            IsPending(tx.store.View(step.task), step.r) <==> CrossReplay(s, step)
  {
    var tx := SteerTx(s, step.task, step.client, step.key, step.text, step.r, step.revision, step.expected, step.extra);
    SteerFacts(s, step);
    assert Quiet(s.store, tx.store, step.r);
    assert Count(PermissionAsked(step.r), tx.store.Log(step.task)) == Count(PermissionAsked(step.r), s.store.Log(step.task));
    if !CrossReplay(s, step) { EndedNotPending(tx.store, step.task, step.r); }
  }

  lemma SteerStep(red: Redactor, s: State, step: Step)
    requires step.Steer? && step.thread !in s.completers
    ensures Apply(red, s, step) ==
            Some(StartCompleter(s, step.thread,
                SteerTx(s, step.task, step.client, step.key, step.text, step.r, step.revision, step.expected,
                    step.extra), step.task, step.r, None))
  {
  }

  lemma DropContextStep(red: Redactor, s: State, thread: ThreadId)
    requires thread in s.completers && !s.completers[thread].contextDropped
    ensures var w := s.completers[thread];
            Apply(red, s, DropContext(thread)) ==
              Some(ForgetContext(s, w.requestId).(completers := s.completers[thread := w.(contextDropped := true)]))
  {
  }

  lemma SteerRun(red: Redactor, s: State, step: Step, tx: Tx)
    requires step.Steer? && step.thread !in s.completers && tx.outcome.Accepted?
    requires tx == SteerTx(s, step.task, step.client, step.key, step.text, step.r, step.revision, step.expected, step.extra)
    ensures var t := RunSteps(red, s, [step, DropContext(step.thread)]);
            t.Some? && step.r !in t.value.contexts && t.value.store == tx.store
  {
    var t1 := StartCompleter(s, step.thread, tx, step.task, step.r, None);
    SteerStep(red, s, step);
    TwoSteps(red, s, step, DropContext(step.thread), t1);
    DropContextStep(red, t1, step.thread);
  }

  lemma TwoSteps(red: Redactor, s: State, a: Step, b: Step, t: State)
    requires Apply(red, s, a) == Some(t)
    ensures RunSteps(red, s, [a, b]) == Apply(red, t, b)
  {
    assert [a, b][..1] == [a] && [a][..0] == [];
    assert RunSteps(red, s, [a]) == Some(t);
  }

  lemma {:induction false} RunConcat(red: Redactor, s: State, a: seq<Step>, b: seq<Step>)
    ensures RunSteps(red, s, a + b) ==
            match RunSteps(red, s, a) case None => None case Some(t) => RunSteps(red, t, b)
  {
    if |b| == 0 {
      assert a + b == a;
    } else {
      assert (a + b)[..|a + b| - 1] == a + b[..|b| - 1];
      RunConcat(red, s, a, b[..|b| - 1]);
    }
  }

  // ----- the window between taking a waiter and sending on it -----

  lemma ReadResolutionStep(red: Redactor, s: State, call: CallId, option: string)
    requires call in s.calls && s.calls[call].pc.ReadingStore?
    requires ResolutionOption(s.store.Log(s.calls[call].task), s.calls[call].request.requestId, REQUEST_REVISION) == Some(option)
    ensures Apply(red, s, ReadResolution(call)) == Some(SetPc(s, call, Taking(option, true)))
  {
  }

  lemma TakeOwnStep(red: Redactor, s: State, call: CallId)
    requires call in s.calls && s.calls[call].pc.Taking?
    ensures var c := s.calls[call]; var r := c.request.requestId;
            Apply(red, s, TakeOwn(call)) ==
              Some(SetPc(TakeWaiter(s, r, c.pc.option), call, Sending(TakenHold(s, r, c.pc.option), c.pc.final)))
  {
  }

  lemma SendOwnStep(red: Redactor, s: State, call: CallId)
    requires call in s.calls && s.calls[call].pc.Sending? && s.calls[call].pc.final
    ensures var held := s.calls[call].pc.held;
            Apply(red, s, SendOwn(call)) == Some(SetPc(if held.Some? then SetCell(s, held.value.0, held.value.1) else s, call, Polling))
  {
  }

  lemma PollStep(red: Redactor, s: State, call: CallId)
    requires call in s.calls && s.calls[call].pc.Polling?
    ensures var c := s.calls[call];
            Apply(red, s, Poll(call)) == Some(SetPc(s, call, Done(if c.cell.Some? then c.cell.value else DenyOnce)))
  {
  }

  function ReadBack(call: CallId): seq<Step> {
    [ReadResolution(call), TakeOwn(call)] + [SendOwn(call), Poll(call)]
  }

  /** The waiter registered for the call's request, if any, is the call's own. */
  predicate OwnWaiter(s: State, call: CallId)
    requires call in s.calls
  {
    var c := s.calls[call];
    c.request.requestId in s.waiters ==> s.waiters[c.request.requestId] == Waiter(call, c.options)
  }

  /**
   A call whose invalidation lost against a recorded resolution reads it back. It
   returns the decision of the selected option exactly when its waiter is still
   registered or has been sent to; while another thread holds the waiter it denies.
   */
  lemma TimeoutReadsBack(red: Redactor, s: State, call: CallId, option: string)
    requires call in s.calls && s.calls[call].pc.ReadingStore? && OwnWaiter(s, call) && option in s.calls[call].options
    requires ResolutionOption(s.store.Log(s.calls[call].task), s.calls[call].request.requestId, REQUEST_REVISION) == Some(option)
    ensures RunSteps(red, s, ReadBack(call)).Some? && call in RunSteps(red, s, ReadBack(call)).value.calls
    ensures var c := s.calls[call]; var t := RunSteps(red, s, ReadBack(call)).value;
            t.store == s.store && t.calls[call].pc ==
              Done(if c.request.requestId in s.waiters then c.options[option]
                   else if c.cell.Some? then c.cell.value
                   else DenyOnce)
  {
    hide Apply, ResolutionOption;
    var c := s.calls[call];
    var r := c.request.requestId;
    ReadResolutionStep(red, s, call, option);
    var s1 := SetPc(s, call, Taking(option, true));
    TakeOwnStep(red, s1, call);
    TwoSteps(red, s, ReadResolution(call), TakeOwn(call), s1);
    var s2 := SetPc(TakeWaiter(s1, r, option), call, Sending(TakenHold(s1, r, option), true));
    SendOwnStep(red, s2, call);
    var held := TakenHold(s1, r, option);
    var s3 := SetPc(if held.Some? then SetCell(s2, held.value.0, held.value.1) else s2, call, Polling);
    PollStep(red, s3, call);
    TwoSteps(red, s2, SendOwn(call), Poll(call), s3);
    RunConcat(red, s, [ReadResolution(call), TakeOwn(call)], [SendOwn(call), Poll(call)]);
  }

  lemma TickStep(red: Redactor, s: State, to: Time)
    requires s.clock <= to
    ensures Apply(red, s, Tick(to)) == Some(s.(clock := to))
  {
  }

  lemma ExpireStep(red: Redactor, s: State, call: CallId)
    requires call in s.calls && s.calls[call].pc.Waiting? && s.calls[call].draft.Some? && s.clock > s.calls[call].draft.value.expiresAt
    ensures Apply(red, s, Expire(call)) == Some(SetPc(s, call, Expired))
  {
  }

  lemma ReadVersionStep(red: Redactor, s: State, call: CallId)
    requires call in s.calls && s.calls[call].pc.Expired?
    ensures Apply(red, s, ReadVersion(call)) == Some(SetPc(s, call, Invalidating(s.store.Version(s.calls[call].task), VERSION_RETRIES)))
  {
  }

  /** Invalidating a request that is no longer pending is rejected, and the call turns to the store. */
  lemma LateInvalidateStep(red: Redactor, s: State, call: CallId)
    requires call in s.calls && s.calls[call].pc.Invalidating? && s.calls[call].pc.expected == s.store.Version(s.calls[call].task)
    requires s.store.View(s.calls[call].task).permission.None?
    requires (s.calls[call].task,
        PermissionInvalidateKey(s.calls[call].request.requestId, REQUEST_REVISION, s.calls[call].pc.expected)) !in s.store.inbox
    ensures var t := Apply(red, s, TryInvalidate(call));
            t.Some? && t.value.store.logs == s.store.logs && t.value == SetPc(s.(store := t.value.store), call, ReadingStore)
  {
    LateInvalidateTx(red, s, call);
  }

  lemma LateInvalidateTx(red: Redactor, s: State, call: CallId)
    requires call in s.calls && s.calls[call].pc.Invalidating? && s.calls[call].pc.expected == s.store.Version(s.calls[call].task)
    requires s.store.View(s.calls[call].task).permission.None?
    requires (s.calls[call].task,
        PermissionInvalidateKey(s.calls[call].request.requestId, REQUEST_REVISION, s.calls[call].pc.expected)) !in s.store.inbox
    ensures var c := s.calls[call];
            var tx := InvalidateTx(red, s, c.task, c.request.requestId, REQUEST_REVISION, c.pc.expected, EXPIRED_REASON);
            tx.store.logs == s.store.logs && tx.outcome.Rejected? && tx.outcome.rejection.InvalidCommand?
  {
  }

  function GiveUp(call: CallId, to: Time): seq<Step> {
    [Tick(to), Expire(call)] + [ReadVersion(call), TryInvalidate(call)]
  }

  /** A waiting call whose request was resolved gives up at its deadline and turns to the store. */
  lemma GivesUp(red: Redactor, s: State, call: CallId, to: Time)
    requires call in s.calls && s.calls[call].pc.Waiting? && s.calls[call].draft.Some?
    requires s.clock <= to && to > s.calls[call].draft.value.expiresAt && s.store.View(s.calls[call].task).permission.None?
    requires var c := s.calls[call];
             (c.task, PermissionInvalidateKey(c.request.requestId, REQUEST_REVISION, s.store.Version(c.task))) !in s.store.inbox
    ensures var t := RunSteps(red, s, GiveUp(call, to));
            && t.Some? && t.value.store.logs == s.store.logs && t.value.waiters == s.waiters
            && t.value.calls == s.calls[call := s.calls[call].(pc := ReadingStore)]
  {
    hide Apply;
    var s1 := s.(clock := to);
    TickStep(red, s, to);
    ExpireStep(red, s1, call);
    TwoSteps(red, s, Tick(to), Expire(call), s1);
    var s2 := SetPc(s1, call, Expired);
    var s3 := SetPc(s2, call, Invalidating(s2.store.Version(s.calls[call].task), VERSION_RETRIES));
    ReadVersionStep(red, s2, call);
    LateInvalidateStep(red, s3, call);
    TwoSteps(red, s2, ReadVersion(call), TryInvalidate(call), s3);
    RunConcat(red, s, [Tick(to), Expire(call)], [ReadVersion(call), TryInvalidate(call)]);
  }

  lemma CommitResolveStep(red: Redactor, s: State, thread: ThreadId)
    requires thread in s.resolvers && thread !in s.completers && s.resolvers[thread].context.Some?
    ensures var w := s.resolvers[thread];
            Apply(red, s, CommitResolve(thread, true)) ==
              Some(StartCompleter(s.(resolvers := s.resolvers - {thread}), thread, ResolveTx(red, s, w, w.context.value, true),
                                  w.input.task, w.input.requestId, Some(w.input.option)))
  {
  }

  lemma TakeStep(red: Redactor, s: State, thread: ThreadId)
    requires thread in s.completers && s.completers[thread].contextDropped && !s.completers[thread].taken
        && s.completers[thread].notice.Some?
    ensures var w := s.completers[thread];
            Apply(red, s, Take(thread)) ==
              Some(TakeWaiter(s, w.requestId, w.notice.value).(completers :=
                     s.completers[thread := w.(taken := true, held := TakenHold(s, w.requestId, w.notice.value))]))
  {
  }

  function Grant(thread: ThreadId): seq<Step> {
    [CommitResolve(thread, true), DropContext(thread)] + [Take(thread)]
  }

  /** An accepted decision up to, but not including, its delivery. */
  lemma GrantTakesWaiter(red: Redactor, s: State, call: CallId, thread: ThreadId, tx: Tx)
    requires call in s.calls && thread in s.resolvers && thread !in s.completers && s.resolvers[thread].context.Some?
    requires tx == ResolveTx(red, s, s.resolvers[thread], s.resolvers[thread].context.value, true) && tx.outcome.Accepted?
    requires s.resolvers[thread].input.requestId == s.calls[call].request.requestId
    requires s.calls[call].request.requestId in s.waiters && OwnWaiter(s, call) && s.resolvers[thread].input.option in s.calls[call].options
    ensures var t := RunSteps(red, s, Grant(thread));
            && t.Some? && t.value.store == tx.store && t.value.calls == s.calls && t.value.clock == s.clock
            && s.calls[call].request.requestId !in t.value.waiters
  {
    var w := s.resolvers[thread];
    CommitResolveStep(red, s, thread);
    var s1 := StartCompleter(s.(resolvers := s.resolvers - {thread}), thread, tx, w.input.task, w.input.requestId, Some(w.input.option));
    DropContextStep(red, s1, thread);
    TwoSteps(red, s, CommitResolve(thread, true), DropContext(thread), s1);
    var v := s1.completers[thread];
    var s2 := ForgetContext(s1, v.requestId).(completers := s1.completers[thread := v.(contextDropped := true)]);
    TakeStep(red, s2, thread);
    assert [Take(thread)][..0] == [];
    RunConcat(red, s, [CommitResolve(thread, true), DropContext(thread)], [Take(thread)]);
  }

  lemma LatestOption(a: Store, b: Store, task: TaskId, r: RequestId, option: string)
    requires Appended(a, b, task, [PermissionResolved(r, REQUEST_REVISION, option)])
    ensures ResolutionOption(b.Log(task), r, REQUEST_REVISION) == Some(option)
  {
    assert b.Log(task)[|b.Log(task)| - 1].event == PermissionResolved(r, REQUEST_REVISION, option);
  }

  /** Everything a prompt client needs for its decision to be recorded, while the call is still waiting. */
  ghost predicate AboutToGrant(red: Redactor, s: State, call: CallId, thread: ThreadId) {
    && Inv(red, s) && Unique(s, call) && IsPending(s.store.View(s.calls[call].task), s.calls[call].request.requestId)
    && s.calls[call].pc.Waiting? && s.calls[call].cell.None? && s.calls[call].draft.Some?
    && OwnWaiter(s, call) && s.calls[call].request.requestId in s.waiters
    && thread in s.resolvers && thread !in s.completers
    && var w := s.resolvers[thread]; var x := s.calls[call].draft.value;
       && DecisionOn(s, s.calls[call], w) && s.clock <= x.expiresAt && HasOption(x.options, w.input.option)
       && w.input.option in s.calls[call].options
       && w.input.expected == s.store.Version(w.input.task) && !s.store.View(w.input.task).removed
       && Fresh(s.store, ResolveCommand(w))
       && w.key != PermissionInvalidateKey(w.input.requestId, REQUEST_REVISION, w.input.expected + 1)
       && (w.input.task, PermissionInvalidateKey(w.input.requestId, REQUEST_REVISION, w.input.expected + 1)) !in s.store.inbox
  }

  /**
   Agreement is one-directional: whenever a prompt decision is about to be
   recorded, some interleaving records it, even for an allow option, and still
   makes the call return DenyOnce.
   */
  lemma RecordedGrantCanBeDenied(red: Redactor, s: State, call: CallId, thread: ThreadId)
    requires AboutToGrant(red, s, call, thread)
    ensures var steps := Grant(thread) + (GiveUp(call, s.calls[call].draft.value.expiresAt + 1) + ReadBack(call));
            && RunSteps(red, s, steps).Some?
            && var t := RunSteps(red, s, steps).value;
               && call in t.calls && t.calls[call].pc == Done(DenyOnce)
               && ResolutionOption(t.store.Log(s.calls[call].task), s.calls[call].request.requestId, REQUEST_REVISION)
                  == Some(s.resolvers[thread].input.option)
  {
    var w := s.resolvers[thread];
    var to := s.calls[call].draft.value.expiresAt + 1;
    PromptDecisionIsRecorded(red, s, call, w);
    var tx := ResolveTx(red, s, w, w.context.value, true);
    LatestOption(s.store, tx.store, w.input.task, w.input.requestId, w.input.option);
    GrantTakesWaiter(red, s, call, thread, tx);
    var t1 := RunSteps(red, s, Grant(thread)).value;
    GivesUp(red, t1, call, to);
    var t2 := RunSteps(red, t1, GiveUp(call, to)).value;
    assert t2.store.Log(w.input.task) == t1.store.Log(w.input.task);
    TimeoutReadsBack(red, t2, call, w.input.option);
    RunConcat(red, t1, GiveUp(call, to), ReadBack(call));
    RunConcat(red, s, Grant(thread), GiveUp(call, to) + ReadBack(call));
  }
}
