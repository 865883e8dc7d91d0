/**
 What the question broker guarantees to a prompt client, and how the agreement is
 lost when a steering acceptance is replayed onto another question.
 */
module QuestionHazards {
  import opened Basics
  import opened TaskStream
  import opened StreamLaws
  import opened StoreLaws
  import opened QuestionValidation
  import opened QuestionProtocol
  import opened QuestionAgreement
  import Text

  // ----- progress -----

  /** The reducer accepts the end of a pending question. */
  lemma EndReduces(st: Store, task: TaskId, e: TaskEvent)
    requires st.Valid() && (e.QuestionResolved? || e.QuestionInvalidated?)
    requires PendingIs(st.View(task), e.requestId, e.revision)
    ensures Reduce(st.View(task), Envelope(st.lastOffset + 1, e)).Some?
    ensures Reduce(st.View(task), Envelope(st.lastOffset + 1, e)).value.question.None?
  {
    ViewOffset(st, task);
  }

  /**
   While its question is pending, a valid and unexpired answer at the current
   version is accepted: the looked-up context never disagrees with the stream.
   */
  lemma LiveAnswerIsAccepted(red: Redactor, s: State, call: CallId, w: Resolver)
    requires Inv(red, s) && Unique(s, call) && IsPending(s.store.View(s.calls[call].task), s.calls[call].request.requestId)
    requires ResolverOk(s, w) && w.context.Some?
    requires w.input.task == s.calls[call].task && w.input.requestId == s.calls[call].request.requestId
    requires w.input.revision == REQUEST_REVISION && w.input.expected == s.store.Version(w.input.task)
    requires s.clock <= s.calls[call].request.expiresAt && !s.store.View(w.input.task).removed
    requires Fresh(s.store, ResolveCommand(red, w))
    ensures ResolveTx(red, s, w).outcome.Accepted?
    ensures Resolution(ResolveTx(red, s, w).store.Log(w.input.task), w.input.requestId, REQUEST_REVISION)
            == Some(RedactOutcome(red, ResponseOutcome(w.input.response)))
  {
    UniqueOwner(s, call, w.context.value);
    var e := QuestionResolved(w.input.requestId, w.input.revision, RedactOutcome(red, ResponseOutcome(w.input.response)));
    assert ResolveDecision(red, s.clock, s.store.View(w.input.task), w.context, w.input) == Ok([e]);
    EndReduces(s.store, w.input.task, e);
    TransactOne(s.store, ResolveCommand(red, w), e);
    AnswerAppended(s.store, ResolveTx(red, s, w).store, w.input.task, w.input.requestId, e.outcome);
  }

  /** A waiting call whose question is pending is reachable by clients. */
  lemma PendingIsLive(red: Redactor, s: State, call: CallId)
    requires Inv(red, s) && Unique(s, call) && s.calls[call].pc.Waiting?
    requires IsPending(s.store.View(s.calls[call].task), s.calls[call].request.requestId)
    ensures var r := s.calls[call].request.requestId;
            r in s.contexts && s.contexts[r] == s.calls[call].Ctx() && r in s.waiters && s.waiters[r] == call
  {
    assert PcOk(red, s, call);
  }

  // ----- one ask -----

  /** The segment runs and nothing is pending. */
  ghost predicate Free(st: Store, task: TaskId, segment: SegmentId) {
    var p := st.View(task);
    st.Valid() && !p.removed && p.RunningSegment(segment) && p.question.None? && p.permission.None?
  }

  /** The segment waits for the question of this call. */
  ghost predicate Asks(red: Redactor, st: Store, c: Call) {
    var p := st.View(c.task);
    && st.Valid() && !p.removed && p.permission.None? && p.question == Some(RedactedProjection(red, c.Ctx()))
    && p.run.Some? && p.run.value.segment == c.segment && p.run.value.state == RunState.WaitingInput
  }

  /** One more command is on record. */
  predicate Files(a: Store, b: Store, key: (TaskId, IdempotencyKey)) {
    b.inbox.Keys == a.inbox.Keys + {key} && forall k :: k in a.inbox && k in b.inbox ==> k == key || b.inbox[k] == a.inbox[k]
  }

  lemma RequestReduces(red: Redactor, st: Store, c: Call)
    requires Free(st, c.task, c.segment)
    ensures var e := QuestionRequested(RedactedProjection(red, c.Ctx()));
            Reduce(st.View(c.task), Envelope(st.lastOffset + 1, e)) == Some(st.View(c.task).(
              version := st.View(c.task).version + 1, lastOffset := st.lastOffset + 1, question := Some(e.question),
              state := TaskState.WaitingInput, run := Some(st.View(c.task).run.value.(state := RunState.WaitingInput))))
  {
    hide ReduceRun, ReduceMessage, ReducePermission, ReduceActorFailed;
    ViewOffset(st, c.task);
  }

  lemma RequestLands(red: Redactor, s: State, c: Call) returns (tx: Tx)
    requires Free(s.store, c.task, c.segment) && s.clock < c.request.expiresAt
    requires (c.task, QuestionRequestKey(c.request.requestId, s.store.Version(c.task))) !in s.store.inbox
    ensures tx == RequestTx(red, s, c, s.store.Version(c.task)) && tx.outcome.Accepted? && Asks(red, tx.store, c)
    ensures Appended(s.store, tx.store, c.task, [QuestionRequested(RedactedProjection(red, c.Ctx()))])
    ensures Files(s.store, tx.store, (c.task, QuestionRequestKey(c.request.requestId, s.store.Version(c.task))))
  {
    var v := s.store.Version(c.task);
    var e := QuestionRequested(RedactedProjection(red, c.Ctx()));
    assert RequestDecision(red, s.clock, s.store.View(c.task), c.Ctx()) == Ok([e]);
    RequestReduces(red, s.store, c);
    hide Transact, Reduce, RequestDecision, RedactedProjection;
    TransactOne(s.store, RequestCommand(red, c, v), e);
    tx := RequestTx(red, s, c, v);
  }

  function AskSteps(call: CallId, task: TaskId, segment: SegmentId, request: AskRequest): seq<Step> {
    [StartAsk(call, task, segment, request)] + [ReadVersion(call)] + [TryCommit(call)]
  }

  /** A call of a valid request waits, registered and reachable, while its segment runs undisturbed. */
  function WaitingCall(s: State, task: TaskId, segment: SegmentId, request: AskRequest): Call {
    Call(task, segment, request, Waiting, None, false, NeverAsked(s.store, request.requestId), 1)
  }

  lemma AskReads(red: Redactor, s: State, call: CallId, task: TaskId, segment: SegmentId, request: AskRequest) returns (t: State)
    requires ValidRequest(s.clock, request) && call !in s.calls && request.requestId !in s.contexts && request.requestId !in s.waiters
    ensures RunSteps(red, s, [StartAsk(call, task, segment, request)] + [ReadVersion(call)]) == Some(t)
    ensures var c := WaitingCall(s, task, segment, request).(pc := Committing(s.store.Version(task), VERSION_RETRIES), attempts := 0);
            t == s.(calls := s.calls[call := c], contexts := s.contexts[request.requestId := c.Ctx()],
                    waiters := s.waiters[request.requestId := call])
  {
    hide ValidRequest, NeverAsked;
    var a := Begin(s, call, task, segment, request).value;
    t := SetPc(a, call, Committing(s.store.Version(task), VERSION_RETRIES));
    var c := WaitingCall(s, task, segment, request).(pc := Committing(s.store.Version(task), VERSION_RETRIES), attempts := 0);
    assert t.calls == s.calls[call := c];
    RunTwo(red, s, StartAsk(call, task, segment, request), ReadVersion(call), a);
  }

  lemma AskCommits(red: Redactor, s: State, call: CallId, tx: Tx)
    requires call in s.calls && s.calls[call].pc.Committing?
    requires tx == RequestTx(red, s, s.calls[call], s.calls[call].pc.expected) && tx.outcome.Accepted?
    ensures Apply(red, s, TryCommit(call)) ==
            Some(s.(store := tx.store, calls := s.calls[call := s.calls[call].(pc := Waiting, attempts := s.calls[call].attempts + 1)]))
  {
    hide RequestTx;
  }

  lemma AskWaits(red: Redactor, s: State, call: CallId, task: TaskId, segment: SegmentId, request: AskRequest) returns (t: State)
    requires Free(s.store, task, segment) && ValidRequest(s.clock, request)
    requires call !in s.calls && request.requestId !in s.contexts && request.requestId !in s.waiters
    requires (task, QuestionRequestKey(request.requestId, s.store.Version(task))) !in s.store.inbox
    ensures RunSteps(red, s, AskSteps(call, task, segment, request)) == Some(t)
    ensures var c := WaitingCall(s, task, segment, request); var r := request.requestId;
            && t == s.(store := t.store, calls := s.calls[call := c], contexts := s.contexts[r := c.Ctx()], waiters := s.waiters[r := call])
            && Asks(red, t.store, c) && Appended(s.store, t.store, task, [QuestionRequested(RedactedProjection(red, c.Ctx()))])
            && Files(s.store, t.store, (task, QuestionRequestKey(r, s.store.Version(task))))
  {
    hide *;
    var c := WaitingCall(s, task, segment, request);
    var d := c.(pc := Committing(s.store.Version(task), VERSION_RETRIES), attempts := 0);
    BeginningCall(s, call, task, segment, request, d);
    var b := AskReads(red, s, call, task, segment, request);
    var tx := RequestLands(red, b, d);
    SameAsks(red, tx.store, d, c);
    RunSnoc(red, s, [StartAsk(call, task, segment, request)] + [ReadVersion(call)], TryCommit(call));
    AskCommits(red, b, call, tx);
    t := Apply(red, b, TryCommit(call)).value;
    assert b.calls[call := c] == s.calls[call := c];
  }

  lemma BeginningCall(s: State, call: CallId, task: TaskId, segment: SegmentId, request: AskRequest, d: Call)
    requires ValidRequest(s.clock, request) && d == WaitingCall(s, task, segment, request).(pc := d.pc, attempts := 0)
    ensures s.clock < request.expiresAt && d.task == task && d.segment == segment && d.request == request
    ensures d.Ctx() == WaitingCall(s, task, segment, request).Ctx()
    ensures d.(pc := Waiting, attempts := 1) == WaitingCall(s, task, segment, request)
    ensures AskSteps(call, task, segment, request) == [StartAsk(call, task, segment, request)] + [ReadVersion(call)] + [TryCommit(call)]
  {
    hide NeverAsked;
  }

  lemma SameAsks(red: Redactor, st: Store, c: Call, d: Call)
    requires Asks(red, st, c) && d == c.(pc := d.pc, attempts := d.attempts)
    ensures Asks(red, st, d)
  {
  }

  lemma RunThree(red: Redactor, s: State, a: Step, b: Step, c: Step, s1: State, s2: State)
    requires Apply(red, s, a) == Some(s1) && Apply(red, s1, b) == Some(s2)
    ensures RunSteps(red, s, [a] + [b] + [c]) == Apply(red, s2, c)
  {
    hide Apply;
    assert [a][..0] == [] && ([a] + [b])[..1] == [a] && ([a] + [b] + [c])[..2] == [a] + [b];
    assert RunSteps(red, s, [a]) == Some(s1);
    assert RunSteps(red, s, [a] + [b]) == Some(s2);
  }

  lemma RunTwo(red: Redactor, s: State, a: Step, b: Step, s1: State)
    requires Apply(red, s, a) == Some(s1)
    ensures RunSteps(red, s, [a] + [b]) == Apply(red, s1, b)
  {
    hide Apply;
    assert [a][..0] == [] && ([a] + [b])[..1] == [a];
    assert RunSteps(red, s, [a]) == Some(s1);
  }

  lemma RunOne(red: Redactor, s: State, a: Step)
    ensures RunSteps(red, s, [a]) == Apply(red, s, a)
  {
    hide Apply;
    assert [a][..0] == [];
  }

  lemma RunSnoc(red: Redactor, s: State, steps: seq<Step>, step: Step)
    requires RunSteps(red, s, steps).Some?
    ensures RunSteps(red, s, steps + [step]) == Apply(red, RunSteps(red, s, steps).value, step)
  {
    assert (steps + [step])[..|steps + [step]| - 1] == steps;
  }

  // ----- replayed steering -----

  function SteerStore(s: State, step: Step): Tx
    requires step.Steer?
  {
    SteerTx(s, step.task, step.client, step.key, step.text, step.r, step.revision, step.expected, step.extra)
  }

  /** What an accepted completer leaves behind after its two critical sections. */
  function Completed(s: State, thread: ThreadId): State
    requires thread in s.completers
  {
    var w := s.completers[thread];
    Notify(ForgetContext(s, w.requestId), w.requestId, w.outcome).(completers := s.completers - {thread})
  }

  lemma NotifyCompleters(s: State, r: RequestId, outcome: QuestionOutcome, m: map<ThreadId, Completer>)
    ensures Notify(s.(completers := m), r, outcome) == Notify(s, r, outcome).(completers := m)
  {
  }

  lemma DropContextStep(red: Redactor, s: State, thread: ThreadId)
    requires thread in s.completers && !s.completers[thread].contextDropped
    ensures var w := s.completers[thread];
            Apply(red, s, DropContext(thread)) ==
              Some(ForgetContext(s, w.requestId).(completers := s.completers[thread := w.(contextDropped := true)]))
  {
  }

  lemma DeliverStep(red: Redactor, s: State, thread: ThreadId)
    requires thread in s.completers && s.completers[thread].contextDropped
    ensures var w := s.completers[thread];
            Apply(red, s, Deliver(thread)) == Some(Notify(s, w.requestId, w.outcome).(completers := s.completers - {thread}))
  {
  }

  lemma CompleterRun(red: Redactor, s: State, thread: ThreadId)
    requires thread in s.completers && !s.completers[thread].contextDropped
    ensures RunSteps(red, s, [DropContext(thread)] + [Deliver(thread)]) == Some(Completed(s, thread))
  {
    var w := s.completers[thread];
    DropContextStep(red, s, thread);
    var f := ForgetContext(s, w.requestId);
    var m := s.completers[thread := w.(contextDropped := true)];
    var a := f.(completers := m);
    assert [DropContext(thread)][..0] == [] && [Deliver(thread)][..0] == [];
    RunConcat(red, s, [DropContext(thread)], [Deliver(thread)]);
    DeliverStep(red, a, thread);
    NotifyCompleters(f, w.requestId, w.outcome, m);
    assert m - {thread} == s.completers - {thread};
  }

  /** The three critical sections of one accepted steering command. */
  function SteerSteps(step: Step): seq<Step>
    requires step.Steer?
  {
    [step] + ([DropContext(step.thread)] + [Deliver(step.thread)])
  }

  /** The state right after the steering transaction was accepted. */
  function Accepting(s: State, step: Step, store: Store): State
    requires step.Steer?
  {
    s.(store := store, completers := s.completers[step.thread := Completer(step.task, step.r, QuestionOutcome.Cancelled, false)])
  }

  lemma SteerRun(red: Redactor, s: State, step: Step)
    requires step.Steer? && step.thread !in s.completers && SteerStore(s, step).outcome.Accepted?
    ensures RunSteps(red, s, SteerSteps(step)) == Some(Completed(Accepting(s, step, SteerStore(s, step).store), step.thread))
  {
    var a := Accepting(s, step, SteerStore(s, step).store);
    assert Apply(red, s, step) == Some(a);
    assert [step][..0] == [];
    assert RunSteps(red, s, [step]) == Some(a);
    RunConcat(red, s, [step], [DropContext(step.thread)] + [Deliver(step.thread)]);
    CompleterRun(red, a, step.thread);
  }

  /** The steering transaction leaves the question pending exactly when it was a replay. */
  lemma SteerLeavesPending(red: Redactor, s: State, step: Step, c: Call)
    requires Shape(s) && StreamOk(red, s, c) && Committed(c.pc) && IsPending(s.store.View(c.task), c.request.requestId)
    requires step.Steer? && step.task == c.task && step.r == c.request.requestId && SteerStore(s, step).outcome.Accepted?
    ensures IsPending(SteerStore(s, step).store.View(c.task), step.r) <==> CrossReplay(s, step)
    ensures CrossReplay(s, step) ==> SteerStore(s, step).store == s.store
  {
    EndedOnce(red, s, c);
    if CrossReplay(s, step) {
      TransactInbox(s.store, SteerCommand(step.task, step.client, step.key, step.text, step.expected), None,
                    InvalidateDecision(s.store.View(step.task), step.r, step.revision, step.extra));
    } else {
      SteerTxFacts(s, step);
      EndedNotPending(s.store, SteerStore(s, step).store, c.task, step.r);
    }
  }

  lemma EndedNotPending(a: Store, b: Store, task: TaskId, r: RequestId)
    requires b.Valid() && Quiet(a, b, r) && Count(QuestionAsked(r), a.Log(task)) == 1 && Count(QuestionDropped(r), b.Log(task)) > 0
    ensures !IsPending(b.View(task), r)
  {
    LogReplays(b, task);
    QuestionEndsOnce(b.Log(task), r);
    assert Count(QuestionAsked(r), b.Log(task)) == Count(QuestionAsked(r), a.Log(task));
  }

  /** A registered call whose completer has run has lost its context and holds the notice. */
  lemma CompletedCall(s: State, call: CallId, thread: ThreadId)
    requires call in s.calls && Registered(s, call) && thread in s.completers
        && s.completers[thread].requestId == s.calls[call].request.requestId
    ensures var t := Completed(s, thread);
            && s.completers[thread].requestId !in t.contexts
            && t.calls == s.calls[call := s.calls[call].(cell := Some(s.completers[thread].outcome))]
            && t.store == s.store && t.resolvers == s.resolvers && t.clock == s.clock && t.completers == s.completers - {thread}
  {
  }

  /**
   An accepted steering command always cancels the waiting call. The question
   stays pending in the stream, without context, exactly when the acceptance was
   replayed from a command that did not invalidate it.
   */
  lemma SteeringOrphansExactlyOnReplay(red: Redactor, s: State, step: Step, call: CallId)
    requires Inv(red, s) && Unique(s, call) && s.calls[call].pc.Waiting?
    requires IsPending(s.store.View(s.calls[call].task), s.calls[call].request.requestId)
    requires step.Steer? && step.thread !in s.completers && step.task == s.calls[call].task && step.r == s.calls[call].request.requestId
    requires SteerStore(s, step).outcome.Accepted?
    ensures RunSteps(red, s, SteerSteps(step)).Some?
    ensures var t := RunSteps(red, s, SteerSteps(step)).value;
            && step.r !in t.contexts && call in t.calls && t.calls[call].cell == Some(QuestionOutcome.Cancelled)
            && (IsPending(t.store.View(step.task), step.r) <==> CrossReplay(s, step))
  {
    SteerRun(red, s, step);
    PendingIsLive(red, s, call);
    assert Registered(s, call);
    SteerLeavesPending(red, s, step, s.calls[call]);
    CompletedCall(Accepting(s, step, SteerStore(s, step).store), call, step.thread);
  }

  lemma ReceiveThenResolve(red: Redactor, s: State, call: CallId, client: ThreadId)
    requires call in s.calls && s.calls[call].pc.Waiting? && s.calls[call].cell.Some?
    requires client in s.resolvers && client !in s.completers
    ensures var s1 := SetPc(s, call, Done(Returned(s.calls[call].cell.value)));
            RunSteps(red, s, [Receive(call)] + [CommitResolve(client)]) == ThreadStep(red, s1, CommitResolve(client))
  {
    var s1 := SetPc(s, call, Done(Returned(s.calls[call].cell.value)));
    assert Apply(red, s, Receive(call)) == Some(s1);
    assert [Receive(call)][..0] == [];
    assert RunSteps(red, s, [Receive(call)]) == Some(s1);
    RunConcat(red, s, [Receive(call)], [CommitResolve(client)]);
    assert [CommitResolve(client)][..0] == [];
    assert RunSteps(red, s1, [CommitResolve(client)]) == Apply(red, s1, CommitResolve(client));
  }

  lemma CommitResolveStep(red: Redactor, s: State, client: ThreadId)
    requires client in s.resolvers && client !in s.completers
    ensures var t := ThreadStep(red, s, CommitResolve(client));
            t.Some? && t.value.calls == s.calls && t.value.store == ResolveTx(red, s, s.resolvers[client]).store
  {
  }

  lemma CancelledThenAnswered(red: Redactor, s: State, t: State, call: CallId, client: ThreadId)
    requires call in s.calls && s.calls[call].pc.Waiting? && client in s.resolvers
    requires t.calls == s.calls[call := s.calls[call].(cell := Some(QuestionOutcome.Cancelled))]
    requires t.store == s.store && t.clock == s.clock && t.resolvers == s.resolvers && client !in t.completers
    ensures var u := RunSteps(red, t, [Receive(call)] + [CommitResolve(client)]);
            && u.Some? && u.value.store == ResolveTx(red, s, s.resolvers[client]).store
            && u.value.calls == s.calls[call := s.calls[call].(cell := Some(QuestionOutcome.Cancelled),
                pc := Done(Returned(QuestionOutcome.Cancelled)))]
  {
    ReceiveThenResolve(red, t, call, client);
    var t1 := SetPc(t, call, Done(Returned(QuestionOutcome.Cancelled)));
    CommitResolveStep(red, t1, client);
    assert ResolveTx(red, t1, s.resolvers[client]) == ResolveTx(red, s, s.resolvers[client]);
  }

  /**
   The guard of the agreement theorem is needed: after any replayed steering
   acceptance, a client that had looked up its context in time still commits
   its answer, although the call has returned Cancelled.
   */
  lemma ReplayedSteeringBreaksAgreement(red: Redactor, s: State, step: Step, call: CallId, client: ThreadId)
    requires Inv(red, s) && Unique(s, call) && s.calls[call].pc.Waiting?
    requires IsPending(s.store.View(s.calls[call].task), s.calls[call].request.requestId)
    requires step.Steer? && step.thread !in s.completers && step.task == s.calls[call].task && step.r == s.calls[call].request.requestId
    requires CrossReplay(s, step)
    requires client in s.resolvers && client !in s.completers && client != step.thread
    requires var w := s.resolvers[client];
             && w.context.Some? && w.input.task == s.calls[call].task && w.input.requestId == step.r
             && w.input.revision == REQUEST_REVISION && w.input.expected == s.store.Version(w.input.task)
             && Fresh(s.store, ResolveCommand(red, w))
    requires s.clock <= s.calls[call].request.expiresAt && !s.store.View(step.task).removed
    ensures var steps := SteerSteps(step) + ([Receive(call)] + [CommitResolve(client)]);
            RunSteps(red, s, steps).Some?
            && var t := RunSteps(red, s, steps).value;
               && t.calls == s.calls[call := s.calls[call].(cell := Some(QuestionOutcome.Cancelled),
                   pc := Done(Returned(QuestionOutcome.Cancelled)))]
               && Resolution(t.store.Log(step.task), step.r, REQUEST_REVISION).Some?
  {
    var w := s.resolvers[client];
    assert SteerStore(s, step).outcome.Accepted?;
    SteerRun(red, s, step);
    PendingIsLive(red, s, call);
    assert Registered(s, call);
    SteerLeavesPending(red, s, step, s.calls[call]);
    CompletedCall(Accepting(s, step, s.store), call, step.thread);
    var t := Completed(Accepting(s, step, s.store), step.thread);
    LiveAnswerIsAccepted(red, s, call, w);
    CancelledThenAnswered(red, s, t, call, client);
    RunConcat(red, s, SteerSteps(step), [Receive(call)] + [CommitResolve(client)]);
  }

  // ----- a reachable instance -----

  const PLAIN: Redactor := (text: string) => text

  const ASKED := AskRequest(5, 0, [QuestionItem("q", None, "Proceed?", [], false, true)], 10)

  const START_LOG: seq<Envelope> := [Envelope(1, TaskCreated)] + [Envelope(2, RunStarted(7, 0))]

  const START_STATE := State(0, Store(map[0 := START_LOG], 2, map[]), map[], map[], map[], map[], map[], {})

  function RunOf(segment: SegmentId, state: RunState): Run { Run(segment, state, None, None, 0, None, false) }

  lemma StartFacts()
    ensures Init(START_STATE) && START_STATE.store.Version(0) == 2 && NeverAsked(START_STATE.store, 5)
    ensures START_STATE.store.View(0) == Projection(2, 2, TaskState.Running, false, Some(RunOf(7, RunState.Running)), [], map[], None, None)
  {
    var one := [Envelope(1, TaskCreated)];
    var two := [Envelope(2, RunStarted(7, 0))];
    assert one[..0] == [] && two[..0] == [];
    ReduceAllConcat(EMPTY_PROJECTION, one, two);
    assert ReduceAll(EMPTY_PROJECTION, one) == Reduce(EMPTY_PROJECTION, one[0]);
    var p := Reduce(EMPTY_PROJECTION, one[0]).value;
    assert ReduceAll(p, two) == Reduce(p, two[0]);
    CountPositive(QuestionAsked(5), START_LOG);
  }

  const STOP: Step := OtherCommand(0, 1, "k", "stop", 2, Supervisor, Ok([RunYieldRequested(7, false)]))
  const FINISH: Step := OtherAppend(0, Supervisor, [RunCompleted(7, 0, TerminalReason.Superseded, false)])
  const RESTART: Step := OtherAppend(0, Supervisor, [RunStarted(8, 0)])
  const REPLY: Step := StartResolve(1, 2, "a", 0, 6, DecisionInput(0, 5, 1, ResponseDeclined, 6))
  const STOP_AGAIN: Step := Steer(2, 0, 1, "k", "stop", 5, 1, 2, Ok([RunYieldRequested(8, false)]))

  /** A stream whose last run is `segment`, running, with nothing pending. */
  ghost predicate Ready(st: Store, version: nat, run: Run) {
    && st.Valid() && st.Version(0) == version && st.View(0).run == Some(run) && !st.View(0).removed
    && st.View(0).permission.None? && st.View(0).question.None? && version > 0
    && NeverAsked(st, 5)
  }

  lemma NeverAskedAppend(a: Store, b: Store, e: TaskEvent)
    requires NeverAsked(a, 5) && !e.QuestionRequested? && b.logs == a.logs[0 := a.Log(0) + Stamp([e], a.lastOffset)]
    ensures NeverAsked(b, 5)
  {
    CountConcat(QuestionAsked(5), a.Log(0), Stamp([e], a.lastOffset));
    CountNone(QuestionAsked(5), Stamp([e], a.lastOffset));
    assert Count(QuestionAsked(5), a.Log(0)) == 0;
  }

  lemma StopIsAccepted()
    ensures Apply(PLAIN, START_STATE, STOP).Some?
    ensures var t := Apply(PLAIN, START_STATE, STOP).value;
            && t == START_STATE.(store := t.store)
            && Ready(t.store, 3, RunOf(7, RunState.Yielding).(promotion := Some(SafePoint)))
            && t.store.inbox == map[(0, ClientKey(1, "k")) := InboxEntry(SteeringPayload("stop"), 2, Accepted)]
  {
    StartFacts();
    var c := StoreCommand(0, ClientKey(1, "k"), SteeringPayload("stop"), 2, Supervisor);
    TransactOne(START_STATE.store, c, RunYieldRequested(7, false));
    NeverAskedAppend(START_STATE.store,
        Transact(START_STATE.store, c, None, Ok([RunYieldRequested(7, false)])).store, RunYieldRequested(7, false));
  }

  lemma AppendIsAccepted(s: State, e: TaskEvent, version: nat, run: Run, next: Run)
    requires Ready(s.store, version, run) && AllowedSource(Supervisor, e) && (e.RunCompleted? || e.RunStarted?)
    requires Reduce(s.store.View(0), Envelope(s.store.lastOffset + 1, e)).Some?
    requires Reduce(s.store.View(0), Envelope(s.store.lastOffset + 1, e)).value.run == Some(next)
    ensures Apply(PLAIN, s, OtherAppend(0, Supervisor, [e])).Some?
    ensures var t := Apply(PLAIN, s, OtherAppend(0, Supervisor, [e])).value;
            t == s.(store := t.store) && Ready(t.store, version + 1, next) && t.store.inbox == s.store.inbox
  {
    AppendOne(s.store, 0, e);
    assert AcceptableBatch(Supervisor, [e]);
    NeverAskedAppend(s.store, Append(s.store, 0, [e]).value, e);
  }

  lemma RestartIsAccepted(s: State)
    requires Ready(s.store, 3, RunOf(7, RunState.Yielding).(promotion := Some(SafePoint)))
    ensures Apply(PLAIN, s, FINISH).Some? && Apply(PLAIN, Apply(PLAIN, s, FINISH).value, RESTART).Some?
    ensures var t := Apply(PLAIN, Apply(PLAIN, s, FINISH).value, RESTART).value;
            t == s.(store := t.store) && Ready(t.store, 5, RunOf(8, RunState.Running)) && t.store.inbox == s.store.inbox
  {
    ViewOffset(s.store, 0);
    var over := RunOf(7, RunState.Interrupted).(promotion := Some(SafePoint),
        terminal := Some(TerminalReason.Superseded), endedAt := Some(0));
    AppendIsAccepted(s, RunCompleted(7, 0, TerminalReason.Superseded, false), 3,
        RunOf(7, RunState.Yielding).(promotion := Some(SafePoint)), over);
    var t := Apply(PLAIN, s, FINISH).value;
    ViewOffset(t.store, 0);
    AppendIsAccepted(t, RunStarted(8, 0), 4, over, RunOf(8, RunState.Running));
  }

  const BEGINNING := Call(0, 8, ASKED, Waiting, None, false, true, 1)

  /** Nothing has asked question 5 yet, so the call that begins owns the id. */
  lemma AskOpens(s: State) returns (t: State)
    requires Ready(s.store, 5, RunOf(8, RunState.Running)) && forall k :: k in s.store.inbox ==> k.1.ClientKey?
    requires s.clock == 0 && s.calls == map[] && s.contexts == map[] && s.waiters == map[]
    ensures RunSteps(PLAIN, s, AskSteps(0, 0, 8, ASKED)) == Some(t)
    ensures t == s.(store := t.store, calls := map[0 := BEGINNING], contexts := map[5 := BEGINNING.Ctx()], waiters := map[5 := 0])
    ensures t.store.Version(0) == 6 && !t.store.View(0).removed && IsPending(t.store.View(0), 5)
    ensures t.store.inbox.Keys == s.store.inbox.Keys + {(0, QuestionRequestKey(5, 5))}
    ensures forall k :: k in s.store.inbox && k in t.store.inbox ==> t.store.inbox[k] == s.store.inbox[k]
  {
    ReadyIsFree(s.store);
    AskedIsValid();
    hide ValidRequest, Free, Asks, RunSteps, Ready, NeverAsked, RedactedProjection;
    t := AskWaits(PLAIN, s, 0, 0, 8, ASKED);
    AsksIsPending(PLAIN, t.store, BEGINNING);
    assert s.calls[0 := BEGINNING] == map[0 := BEGINNING] && s.contexts[5 := BEGINNING.Ctx()] == map[5 := BEGINNING.Ctx()];
    assert s.waiters[5 := 0] == map[5 := 0];
  }

  lemma ReadyIsFree(st: Store)
    requires Ready(st, 5, RunOf(8, RunState.Running))
    ensures Free(st, 0, 8) && NeverAsked(st, 5) && st.Version(0) == 5
  {
    hide NeverAsked;
  }

  lemma AsksIsPending(red: Redactor, st: Store, c: Call)
    requires Asks(red, st, c)
    ensures !st.View(c.task).removed && IsPending(st.View(c.task), c.request.requestId)
  {
  }

  lemma AskedIsValid()
    ensures ValidRequest(0, ASKED)
  {
    assert |ASKED.questions| == 1;
    AskedIsGood();
    hide GoodQuestion;
  }

  lemma AskedIsGood()
    ensures GoodQuestion(ASKED.questions[0])
  {
    var q := ASKED.questions[0];
    assert q.id[0] == 'q' && q.text[0] == 'P' && |q.id| == 1 && |q.text| == 8;
    Utf8Bound(q.id);
    Utf8Bound(q.text);
    hide Text.Utf8Length;
  }

  lemma {:induction false} Utf8Bound(t: string)
    ensures Text.Utf8Length(t) <= 4 * |t|
  {
    if |t| > 0 { Utf8Bound(t[1..]); }
  }

  /** The run up to the moment a client has looked up the pending question. */
  const OPENING: seq<Step> :=
    [STOP] + [FINISH] + [RESTART] + AskSteps(0, 0, 8, ASKED) + [REPLY]

  /** The state the opening run reaches. */
  ghost predicate Opened(t: State) {
    && t.clock == 0 && t.calls == map[0 := BEGINNING]
    && t.contexts == map[5 := BEGINNING.Ctx()] && t.completers == map[]
    && t.resolvers == map[1 := Resolver(ClientKey(2, "a"), DecisionInput(0, 5, 1, ResponseDeclined, 6), Some(BEGINNING.Ctx()))]
    && t.store.Version(0) == 6 && !t.store.View(0).removed && IsPending(t.store.View(0), 5)
    && (0, ClientKey(1, "k")) in t.store.inbox && t.store.inbox[(0, ClientKey(1, "k"))] == InboxEntry(SteeringPayload("stop"), 2, Accepted)
    && (0, ClientKey(2, "a")) !in t.store.inbox
  }

  lemma OpeningRuns()
    ensures RunSteps(PLAIN, START_STATE, OPENING).Some? && Opened(RunSteps(PLAIN, START_STATE, OPENING).value)
  {
    hide Apply, RunSteps, Transact;
    StartFacts();
    StopIsAccepted();
    var s1 := Apply(PLAIN, START_STATE, STOP).value;
    RestartIsAccepted(s1);
    var s3 := Apply(PLAIN, Apply(PLAIN, s1, FINISH).value, RESTART).value;
    var s6 := AskOpens(s3);
    ReplyStarts(s6);
    OpeningTrace(s1, s3, s6);
  }

  lemma ReplyStarts(s: State)
    requires s.resolvers == map[] && s.contexts == map[5 := BEGINNING.Ctx()]
    ensures Apply(PLAIN, s, REPLY) ==
      Some(s.(resolvers := map[1 := Resolver(ClientKey(2, "a"), DecisionInput(0, 5, 1, ResponseDeclined, 6), Some(BEGINNING.Ctx()))],
              submitted := s.submitted + {(5, Declined)}))
  {
  }

  lemma OpeningTrace(s1: State, s3: State, s6: State)
    requires Apply(PLAIN, START_STATE, STOP) == Some(s1)
    requires Apply(PLAIN, s1, FINISH).Some? && Apply(PLAIN, Apply(PLAIN, s1, FINISH).value, RESTART) == Some(s3)
    requires RunSteps(PLAIN, s3, AskSteps(0, 0, 8, ASKED)) == Some(s6)
    ensures RunSteps(PLAIN, START_STATE, OPENING) == Apply(PLAIN, s6, REPLY)
  {
    hide Apply, RunSteps, AskSteps;
    RunThree(PLAIN, START_STATE, STOP, FINISH, RESTART, s1, Apply(PLAIN, s1, FINISH).value);
    RunConcat(PLAIN, START_STATE, [STOP] + [FINISH] + [RESTART], AskSteps(0, 0, 8, ASKED));
    RunSnoc(PLAIN, START_STATE, [STOP] + [FINISH] + [RESTART] + AskSteps(0, 0, 8, ASKED), REPLY);
  }

  lemma BreaksFrom(m: State)
    requires Inv(PLAIN, m) && Opened(m)
    ensures var steps := SteerSteps(STOP_AGAIN) + ([Receive(0)] + [CommitResolve(1)]);
            RunSteps(PLAIN, m, steps).Some?
            && var t := RunSteps(PLAIN, m, steps).value;
               && Unique(t, 0) && t.calls[0].pc == Done(Returned(QuestionOutcome.Cancelled))
               && Resolution(t.store.Log(0), 5, REQUEST_REVISION).Some?
  {
    assert Unique(m, 0);
    EndedOnce(PLAIN, m, m.calls[0]);
    assert CrossReplay(m, STOP_AGAIN);
    ReplayedSteeringBreaksAgreement(PLAIN, m, STOP_AGAIN, 0, 1);
  }

  /** No step of the opening is a steering command. */
  lemma OpeningHasNoReplay()
    ensures NoCrossReplay(PLAIN, START_STATE, OPENING)
  {
    hide Apply, RunSteps;
    forall i | 0 <= i < |OPENING| ensures !OPENING[i].Steer? { }
  }

  lemma OpeningHolds()
    ensures Init(START_STATE) && RunSteps(PLAIN, START_STATE, OPENING).Some?
    ensures Opened(RunSteps(PLAIN, START_STATE, OPENING).value) && Inv(PLAIN, RunSteps(PLAIN, START_STATE, OPENING).value)
  {
    hide *;
    StartFacts();
    OpeningRuns();
    OpeningHasNoReplay();
    RunKeeps(PLAIN, START_STATE, OPENING);
  }

  /**
   A concrete run from a fresh daemon: a stop command is accepted, the next run
   asks a question, a client looks it up, and the stop command is sent again.
   The call returns Cancelled and the client's answer is recorded all the same.
   */
  lemma AgreementFailsUnderReplay()
    ensures Init(START_STATE)
    ensures var steps := OPENING + (SteerSteps(STOP_AGAIN) + ([Receive(0)] + [CommitResolve(1)]));
            RunSteps(PLAIN, START_STATE, steps).Some?
            && var t := RunSteps(PLAIN, START_STATE, steps).value;
               && Unique(t, 0) && t.calls[0].pc == Done(Returned(QuestionOutcome.Cancelled))
               && Resolution(t.store.Log(0), 5, REQUEST_REVISION).Some?
  {
    assert STOP_AGAIN.Steer?;
    hide *;
    OpeningHolds();
    BreaksFrom(RunSteps(PLAIN, START_STATE, OPENING).value);
    RunConcat(PLAIN, START_STATE, OPENING, SteerSteps(STOP_AGAIN) + ([Receive(0)] + [CommitResolve(1)]));
  }
}
