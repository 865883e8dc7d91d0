/**
 Question ids that are used twice: a call under an id that was answered before
 can return the old answer, and a call under an id that was only withdrawn before
 can lose the answer it gets.
 */
module QuestionReuse {
  import opened Basics
  import opened TaskStream
  import opened StreamLaws
  import opened StoreLaws
  import opened QuestionValidation
  import opened QuestionProtocol
  import opened QuestionAgreement
  import opened QuestionHazards

  // ----- one answer -----

  lemma EndReopens(st: Store, c: Call, red: Redactor, e: TaskEvent)
    requires Asks(red, st, c) && (e.QuestionResolved? || e.QuestionInvalidated?)
    requires e.requestId == c.request.requestId && e.revision == REQUEST_REVISION
    ensures Reduce(st.View(c.task), Envelope(st.lastOffset + 1, e)) == Some(st.View(c.task).(
              version := st.View(c.task).version + 1, lastOffset := st.lastOffset + 1, question := None,
              state := TaskState.Running, run := Some(st.View(c.task).run.value.(state := RunState.Running))))
  {
    hide ReduceRun, ReduceMessage, ReducePermission, ReduceActorFailed;
    ViewOffset(st, c.task);
  }

  /** A client's answer to the question it looked up. */
  ghost predicate Answers(red: Redactor, s: State, c: Call, w: Resolver) {
    && Asks(red, s.store, c) && s.clock <= c.request.expiresAt && w.context == Some(c.Ctx())
    && w.input.task == c.task && w.input.requestId == c.request.requestId && w.input.revision == REQUEST_REVISION
    && w.input.expected == s.store.Version(c.task) && Fresh(s.store, ResolveCommand(red, w))
  }

  lemma AnswerLands(red: Redactor, s: State, c: Call, w: Resolver) returns (tx: Tx)
    requires Answers(red, s, c, w)
    ensures tx == ResolveTx(red, s, w) && tx.outcome.Accepted? && Free(tx.store, c.task, c.segment)
    ensures Appended(s.store, tx.store, c.task,
        [QuestionResolved(c.request.requestId, REQUEST_REVISION, RedactOutcome(red, ResponseOutcome(w.input.response)))])
    ensures tx.store.inbox.Keys == s.store.inbox.Keys + {(c.task, w.key)}
  {
    var e := QuestionResolved(w.input.requestId, w.input.revision, RedactOutcome(red, ResponseOutcome(w.input.response)));
    assert ResolveDecision(red, s.clock, s.store.View(c.task), w.context, w.input) == Ok([e]);
    EndReopens(s.store, c, red, e);
    hide Transact, Reduce, ResolveDecision, RedactOutcome, RedactedProjection;
    TransactOne(s.store, ResolveCommand(red, w), e);
    tx := ResolveTx(red, s, w);
  }

  /** A client's whole answer, up to the return of the call. */
  function AnswerSteps(call: CallId, thread: ThreadId, client: nat, key: string, input: DecisionInput): seq<Step> {
    [StartResolve(thread, client, key, input.task, input.expected, input)] + [CommitResolve(thread)]
    + ([DropContext(thread)] + [Deliver(thread)]) + [Receive(call)]
  }

  /** What the calls and the maps look like when the answer has arrived. */
  ghost predicate Answered(s: State, t: State, call: CallId, input: DecisionInput)
    requires call in s.calls
  {
    var outcome, r := ResponseOutcome(input.response), input.requestId;
    t == s.(store := t.store, contexts := s.contexts - {r}, waiters := s.waiters - {r}, submitted := s.submitted + {(r, outcome)},
            calls := s.calls[call := s.calls[call].(cell := Some(outcome), pc := Done(Returned(outcome)))])
  }

  lemma AnswerCommits(red: Redactor, s: State, call: CallId, thread: ThreadId, client: nat, key: string, input: DecisionInput)
    returns (t: State)
    requires call in s.calls && Registered(s, call) && thread !in s.resolvers && thread !in s.completers
    requires ValidResponse(s.calls[call].request.questions, input.response)
    requires Answers(red, s, s.calls[call], Resolver(ClientKey(client, key), input, Some(s.calls[call].Ctx())))
    ensures RunSteps(red, s, [StartResolve(thread, client, key, input.task, input.expected, input)] + [CommitResolve(thread)]) == Some(t)
    ensures var c := s.calls[call]; var outcome := ResponseOutcome(input.response);
            && t == s.(store := t.store, submitted := s.submitted + {(input.requestId, outcome)},
                       completers := s.completers[thread := Completer(c.task, c.request.requestId, outcome, false)])
            && Free(t.store, c.task, c.segment) && t.store.inbox.Keys == s.store.inbox.Keys + {(c.task, ClientKey(client, key))}
            && Appended(s.store, t.store, c.task,
                 [QuestionResolved(c.request.requestId, REQUEST_REVISION, RedactOutcome(red, outcome))])
  {
    var c := s.calls[call];
    var w := Resolver(ClientKey(client, key), input, Some(c.Ctx()));
    var a := s.(resolvers := s.resolvers[thread := w], submitted := s.submitted + {(input.requestId, ResponseOutcome(input.response))});
    hide Asks, Free, ResolveTx, RedactOutcome, ValidResponse, Apply, RunSteps;
    LooksUp(red, s, call, thread, client, key, input);
    var tx := AnswerLands(red, a, c, w);
    CommitsAnswer(red, s, a, thread, w, tx);
    t := Apply(red, a, CommitResolve(thread)).value;
    RunTwo(red, s, StartResolve(thread, client, key, input.task, input.expected, input), CommitResolve(thread), a);
  }

  lemma LooksUp(red: Redactor, s: State, call: CallId, thread: ThreadId, client: nat, key: string, input: DecisionInput)
    requires call in s.calls && Registered(s, call) && thread !in s.resolvers && input.requestId == s.calls[call].request.requestId
    requires ValidResponse(s.calls[call].request.questions, input.response)
    ensures Apply(red, s, StartResolve(thread, client, key, input.task, input.expected, input)) ==
      Some(s.(resolvers := s.resolvers[thread := Resolver(ClientKey(client, key), input, Some(s.calls[call].Ctx()))],
              submitted := s.submitted + {(input.requestId, ResponseOutcome(input.response))}))
  {
    hide ValidResponse;
  }

  lemma CommitsAnswer(red: Redactor, s: State, a: State, thread: ThreadId, w: Resolver, tx: Tx)
    requires thread !in s.resolvers && thread !in s.completers && a == s.(resolvers := s.resolvers[thread := w], submitted := a.submitted)
    requires tx == ResolveTx(red, a, w) && tx.outcome.Accepted?
    ensures Apply(red, a, CommitResolve(thread)) == Some(s.(store := tx.store, submitted := a.submitted,
      completers := s.completers[thread := Completer(w.input.task, w.input.requestId, ResponseOutcome(w.input.response), false)]))
  {
    hide ResolveTx;
    assert s.resolvers[thread := w] - {thread} == s.resolvers;
  }

  /** A valid answer in time to a question that a registered call waits on is recorded and returned. */
  lemma AnswerReaches(red: Redactor, s: State, call: CallId, thread: ThreadId, client: nat, key: string, input: DecisionInput)
    returns (t: State)
    requires call in s.calls && s.calls[call].pc.Waiting? && Registered(s, call) && thread !in s.resolvers && thread !in s.completers
    requires ValidResponse(s.calls[call].request.questions, input.response)
    requires Answers(red, s, s.calls[call], Resolver(ClientKey(client, key), input, Some(s.calls[call].Ctx())))
    ensures RunSteps(red, s, AnswerSteps(call, thread, client, key, input)) == Some(t) && Answered(s, t, call, input)
    ensures var c := s.calls[call];
            && Free(t.store, c.task, c.segment) && t.store.inbox.Keys == s.store.inbox.Keys + {(c.task, ClientKey(client, key))}
            && Appended(s.store, t.store, c.task,
                 [QuestionResolved(c.request.requestId, REQUEST_REVISION, RedactOutcome(red, ResponseOutcome(input.response)))])
  {
    hide RunSteps, Free, ValidResponse, Asks, RedactOutcome;
    var first := [StartResolve(thread, client, key, input.task, input.expected, input)] + [CommitResolve(thread)];
    var completing := [DropContext(thread)] + [Deliver(thread)];
    var c, outcome := s.calls[call], ResponseOutcome(input.response);
    var a := AnswerCommits(red, s, call, thread, client, key, input);
    CompleterRun(red, a, thread);
    RunConcat(red, s, first, completing);
    var b := QuestionHazards.Completed(a, thread);
    CompletedCall(a, call, thread);
    assert a.completers - {thread} == s.completers;
    t := SetPc(b, call, Done(Returned(outcome)));
    assert Apply(red, b, Receive(call)) == Some(t);
    RunOne(red, b, Receive(call));
    RunConcat(red, s, first + completing, [Receive(call)]);
    assert t.calls == s.calls[call := c.(cell := Some(outcome), pc := Done(Returned(outcome)))];
  }

  // ----- a call whose question was withdrawn -----

  /** A fresh invalidation of the pending question at the current version is accepted. */
  lemma InvalidateLands(red: Redactor, s: State, c: Call, reason: string) returns (tx: Tx)
    requires Asks(red, s.store, c)
    requires (c.task, QuestionInvalidateKey(c.request.requestId, REQUEST_REVISION, s.store.Version(c.task))) !in s.store.inbox
    ensures tx == InvalidateTx(red, s, c.task, c.request.requestId, REQUEST_REVISION, s.store.Version(c.task), reason)
    ensures tx.outcome.Accepted? && Free(tx.store, c.task, c.segment)
    ensures Appended(s.store, tx.store, c.task, [QuestionInvalidated(c.request.requestId, REQUEST_REVISION)])
    ensures tx.store.inbox.Keys == s.store.inbox.Keys
      + {(c.task, QuestionInvalidateKey(c.request.requestId, REQUEST_REVISION, s.store.Version(c.task)))}
  {
    var r, v := c.request.requestId, s.store.Version(c.task);
    var e := QuestionInvalidated(r, REQUEST_REVISION);
    assert [e] + [] == [e];
    assert InvalidateDecision(s.store.View(c.task), r, REQUEST_REVISION, Ok([])) == Ok([e]);
    EndReopens(s.store, c, red, e);
    hide Transact, Reduce, InvalidateDecision, RedactedProjection;
    TransactOne(s.store, InvalidateCommand(red, c.task, r, REQUEST_REVISION, v, reason), e);
    tx := InvalidateTx(red, s, c.task, r, REQUEST_REVISION, v, reason);
  }

  lemma InvalidateStep(red: Redactor, s: State, task: TaskId, r: RequestId, thread: ThreadId, expected: nat, reason: string)
    requires thread !in s.completers && InvalidateTx(red, s, task, r, REQUEST_REVISION, expected, reason).outcome.Accepted?
    ensures RunSteps(red, s, [Invalidate(thread, task, r, REQUEST_REVISION, expected, reason)]) ==
              Some(s.(store := InvalidateTx(red, s, task, r, REQUEST_REVISION, expected, reason).store,
                      completers := s.completers[thread := Completer(task, r, QuestionOutcome.Cancelled, false)]))
  {
    hide InvalidateTx;
    RunOne(red, s, Invalidate(thread, task, r, REQUEST_REVISION, expected, reason));
  }

  /** Without a pending question the call's own invalidation is refused, and it turns to the store. */
  lemma InvalidateIsRefused(red: Redactor, s: State, call: CallId) returns (t: State)
    requires s.store.Valid() && call in s.calls && s.calls[call].pc == Invalidating(s.store.Version(s.calls[call].task), VERSION_RETRIES)
    requires s.store.View(s.calls[call].task).question.None? && !s.store.View(s.calls[call].task).removed
    requires (s.calls[call].task,
        QuestionInvalidateKey(s.calls[call].request.requestId, REQUEST_REVISION, s.store.Version(s.calls[call].task))) !in s.store.inbox
    ensures Apply(red, s, TryInvalidate(call)) == Some(t)
    ensures t == s.(store := s.store.(inbox := t.store.inbox), calls := s.calls[call := s.calls[call].(pc := ReadingStore)])
    ensures t.store.inbox.Keys == s.store.inbox.Keys + {(s.calls[call].task,
        QuestionInvalidateKey(s.calls[call].request.requestId, REQUEST_REVISION, s.store.Version(s.calls[call].task)))}
  {
    t := Apply(red, s, TryInvalidate(call)).value;
  }

  lemma ExpireSteps(red: Redactor, s: State, call: CallId)
    requires call in s.calls && s.calls[call].pc.Waiting? && s.clock > s.calls[call].request.expiresAt
    ensures Apply(red, s, Expire(call)) == Some(SetPc(s, call, Expired))
    ensures Apply(red, SetPc(s, call, Expired), ReadVersion(call)) ==
            Some(SetPc(s, call, Invalidating(s.store.Version(s.calls[call].task), VERSION_RETRIES)))
  {
    var pc := Invalidating(s.store.Version(s.calls[call].task), VERSION_RETRIES);
    assert SetPc(SetPc(s, call, Expired), call, pc).calls == SetPc(s, call, pc).calls;
  }

  /** What the store holds for a question that is no longer pending. */
  function Recorded(log: seq<Envelope>, r: RequestId): QuestionOutcome {
    var found := Resolution(log, r, REQUEST_REVISION);
    if found.Some? then found.value else TimedOut
  }

  function LateSteps(call: CallId): seq<Step> {
    [Expire(call)] + [ReadVersion(call)] + [TryInvalidate(call)] + [ReadResolution(call)] + ([Release(call)] + [Release(call)])
  }

  lemma ReleaseSteps(red: Redactor, s: State, call: CallId, result: AskResult)
    requires call in s.calls && s.calls[call].pc == Releasing(false, result)
    requires s.calls[call].request.requestId in s.waiters && s.waiters[s.calls[call].request.requestId] == call
    ensures var r := s.calls[call].request.requestId;
            RunSteps(red, s, [Release(call)] + [Release(call)]) ==
              Some(s.(contexts := s.contexts - {r}, waiters := s.waiters - {r},
                      calls := s.calls[call := s.calls[call].(pc := Done(result), senderLost := true)]))
  {
    var r := s.calls[call].request.requestId;
    var a := SetPc(ForgetContext(s, r), call, Releasing(true, result));
    assert Apply(red, s, Release(call)) == Some(a);
    assert SetPc(Discard(a, r), call, Done(result)).calls == s.calls[call := s.calls[call].(pc := Done(result), senderLost := true)];
    RunTwo(red, s, Release(call), Release(call), a);
  }

  lemma RunFour(red: Redactor, s: State, a: Step, b: Step, c: Step, d: Step, s1: State, s2: State, s3: State)
    requires Apply(red, s, a) == Some(s1) && Apply(red, s1, b) == Some(s2) && Apply(red, s2, c) == Some(s3)
    ensures RunSteps(red, s, [a] + [b] + [c] + [d]) == Apply(red, s3, d)
  {
    hide Apply;
    RunThree(red, s, a, b, c, s1, s2);
    assert ([a] + [b] + [c] + [d])[..3] == [a] + [b] + [c];
  }

  /** The rest of `ask` after the timer has fired on a question that is gone: it returns what the store holds. */
  lemma ExpiredCallReadsStore(red: Redactor, s: State, call: CallId) returns (t: State)
    requires s.store.Valid() && call in s.calls && s.calls[call].pc.Waiting? && s.clock > s.calls[call].request.expiresAt
    requires Registered(s, call)
    requires s.store.View(s.calls[call].task).question.None? && !s.store.View(s.calls[call].task).removed
    requires (s.calls[call].task,
        QuestionInvalidateKey(s.calls[call].request.requestId, REQUEST_REVISION, s.store.Version(s.calls[call].task))) !in s.store.inbox
    ensures RunSteps(red, s, LateSteps(call)) == Some(t)
    ensures var c := s.calls[call]; var r := c.request.requestId;
            && t == s.(store := s.store.(inbox := t.store.inbox), contexts := s.contexts - {r}, waiters := s.waiters - {r},
                       calls := s.calls[call := c.(pc := Done(Returned(Recorded(s.store.Log(c.task), r))), senderLost := true)])
            && t.store.inbox.Keys == s.store.inbox.Keys
                 + {(c.task, QuestionInvalidateKey(r, REQUEST_REVISION, s.store.Version(c.task)))}
  {
    hide RunSteps, Resolution;
    var c := s.calls[call];
    ExpireSteps(red, s, call);
    var s2 := SetPc(s, call, Invalidating(s.store.Version(c.task), VERSION_RETRIES));
    var s3 := InvalidateIsRefused(red, s2, call);
    RunFour(red, s, Expire(call), ReadVersion(call), TryInvalidate(call), ReadResolution(call), SetPc(s, call, Expired), s2, s3);
    var result := Returned(Recorded(s.store.Log(c.task), c.request.requestId));
    var s4 := ReadsResolution(red, s3, call);
    ReleaseSteps(red, s4, call, result);
    RunConcat(red, s, [Expire(call)] + [ReadVersion(call)] + [TryInvalidate(call)] + [ReadResolution(call)],
        [Release(call)] + [Release(call)]);
    t := RunSteps(red, s, LateSteps(call)).value;
    assert t.calls == s.calls[call := c.(pc := Done(result), senderLost := true)];
  }

  lemma ReadsResolution(red: Redactor, s: State, call: CallId) returns (t: State)
    requires call in s.calls && s.calls[call].pc.ReadingStore?
    ensures t == SetPc(s, call, Releasing(false, Returned(Recorded(s.store.Log(s.calls[call].task), s.calls[call].request.requestId))))
    ensures Apply(red, s, ReadResolution(call)) == Some(t)
  {
    t := SetPc(s, call, Releasing(false, Returned(Recorded(s.store.Log(s.calls[call].task), s.calls[call].request.requestId))));
  }

  lemma InvalidationKeepsAnswers(a: Store, b: Store, task: TaskId, r: RequestId)
    requires Appended(a, b, task, [QuestionInvalidated(r, REQUEST_REVISION)])
    ensures Count(QuestionAnswered(r), b.Log(task)) == Count(QuestionAnswered(r), a.Log(task))
    ensures Count(QuestionDropped(r), b.Log(task)) == Count(QuestionDropped(r), a.Log(task)) + 1
    ensures Resolution(b.Log(task), r, REQUEST_REVISION) == Resolution(a.Log(task), r, REQUEST_REVISION)
    ensures b.Version(task) == a.Version(task) + 1
  {
    var e := QuestionInvalidated(r, REQUEST_REVISION);
    var es := Stamp([e], a.lastOffset);
    assert es == [Envelope(a.lastOffset + 1, e)] && es[..0] == [];
    CountAppend(QuestionAnswered(r), a, b, task, [e]);
    CountAppend(QuestionDropped(r), a, b, task, [e]);
    CountOne(QuestionAnswered(r), es[0]);
    CountOne(QuestionDropped(r), es[0]);
    ResolutionConcat(a.Log(task), es, r, REQUEST_REVISION);
    NoResolution(es, r, REQUEST_REVISION);
  }

  /** A thread withdraws the question, and its call times out before the notice. */
  function WithdrawnSteps(s: State, call: CallId, thread: ThreadId, reason: string): seq<Step>
    requires call in s.calls
  {
    var c := s.calls[call];
    [Invalidate(thread, c.task, c.request.requestId, REQUEST_REVISION, s.store.Version(c.task), reason)] + LateSteps(call)
  }

  /**
   When a question is withdrawn and its call times out before the notice, the call
   returns the latest answer the stream holds under its id, whichever question that
   answered. The broker does not refuse an id that was answered before, so the
   answer can be that of an earlier question; the thread still owes its notice.
   */
  lemma ReusedIdReturnsOldAnswer(red: Redactor, s: State, call: CallId, thread: ThreadId, reason: string) returns (t: State)
    requires call in s.calls && s.calls[call].pc.Waiting? && Registered(s, call) && Asks(red, s.store, s.calls[call])
    requires s.clock > s.calls[call].request.expiresAt && thread !in s.completers
    requires var c := s.calls[call]; var v := s.store.Version(c.task);
             && (c.task, QuestionInvalidateKey(c.request.requestId, REQUEST_REVISION, v)) !in s.store.inbox
             && (c.task, QuestionInvalidateKey(c.request.requestId, REQUEST_REVISION, v + 1)) !in s.store.inbox
    ensures RunSteps(red, s, WithdrawnSteps(s, call, thread, reason)) == Some(t)
    ensures var c := s.calls[call]; var r := c.request.requestId; var v := s.store.Version(c.task);
            && t.calls == s.calls[call := c.(pc := Done(Returned(Recorded(s.store.Log(c.task), r))), senderLost := true)]
            && Count(QuestionAnswered(r), t.store.Log(c.task)) == Count(QuestionAnswered(r), s.store.Log(c.task))
            && Count(QuestionDropped(r), t.store.Log(c.task)) == Count(QuestionDropped(r), s.store.Log(c.task)) + 1
            && Resolution(t.store.Log(c.task), r, REQUEST_REVISION) == Resolution(s.store.Log(c.task), r, REQUEST_REVISION)
            && Free(t.store, c.task, c.segment) && t.store.Version(c.task) == v + 1
            && t == s.(store := t.store, contexts := s.contexts - {r}, waiters := s.waiters - {r}, calls := t.calls,
                       completers := s.completers[thread := Completer(c.task, r, QuestionOutcome.Cancelled, false)])
            && t.store.inbox.Keys == s.store.inbox.Keys + {(c.task, QuestionInvalidateKey(r, REQUEST_REVISION, v)),
                 (c.task, QuestionInvalidateKey(r, REQUEST_REVISION, v + 1))}
  {
    hide RunSteps, InvalidateTx, Asks, Resolution, Free, Count, Appended, LateSteps, Replay;
    var c := s.calls[call];
    var r, v := c.request.requestId, s.store.Version(c.task);
    var tx := InvalidateLands(red, s, c, reason);
    FreeFacts(tx.store, c.task, c.segment);
    InvalidationKeepsAnswers(s.store, tx.store, c.task, r);
    var s1 := s.(store := tx.store, completers := s.completers[thread := Completer(c.task, r, QuestionOutcome.Cancelled, false)]);
    InvalidateStep(red, s, c.task, r, thread, v, reason);
    t := ExpiredCallReadsStore(red, s1, call);
    RunConcat(red, s, [Invalidate(thread, c.task, r, REQUEST_REVISION, v, reason)], LateSteps(call));
    SameLogsFree(tx.store, t.store, c.task, c.segment);
    assert Recorded(tx.store.Log(c.task), r) == Recorded(s.store.Log(c.task), r);
    assert t.store.inbox.Keys == s.store.inbox.Keys + {(c.task, QuestionInvalidateKey(r, REQUEST_REVISION, v)),
        (c.task, QuestionInvalidateKey(r, REQUEST_REVISION, v + 1))};
  }

  lemma FreeFacts(st: Store, task: TaskId, segment: SegmentId)
    requires Free(st, task, segment)
    ensures st.Valid() && st.View(task).question.None? && !st.View(task).removed
  {
  }

  lemma SameLogsFree(a: Store, b: Store, task: TaskId, segment: SegmentId)
    requires Free(a, task, segment) && b == a.(inbox := b.inbox)
    ensures Free(b, task, segment) && b.Log(task) == a.Log(task)
  {
  }

  lemma TickStep(red: Redactor, s: State, to: Time)
    requires s.clock <= to
    ensures RunSteps(red, s, [Tick(to)]) == Some(s.(clock := to))
  {
    RunOne(red, s, Tick(to));
  }

  // ----- an answer that is lost -----

  /**
   A notice that is still owed for an earlier question under the same id cancels
   the waiting call, and a client that had looked up its question in time still
   commits its answer.
   */
  lemma LeftoverNoticeLosesAnswer(red: Redactor, s: State, call: CallId, thread: ThreadId, client: ThreadId) returns (t: State)
    requires call in s.calls && s.calls[call].pc.Waiting? && Registered(s, call)
    requires thread in s.completers && !s.completers[thread].contextDropped
        && s.completers[thread].requestId == s.calls[call].request.requestId && s.completers[thread].outcome == QuestionOutcome.Cancelled
    requires client in s.resolvers && client !in s.completers && Answers(red, s, s.calls[call], s.resolvers[client])
    ensures RunSteps(red, s, [DropContext(thread)] + [Deliver(thread)] + ([Receive(call)] + [CommitResolve(client)])) == Some(t)
    ensures var c := s.calls[call];
            && t.calls == s.calls[call := c.(cell := Some(QuestionOutcome.Cancelled), pc := Done(Returned(QuestionOutcome.Cancelled)))]
            && Resolution(t.store.Log(c.task), c.request.requestId, REQUEST_REVISION)
               == Some(RedactOutcome(red, ResponseOutcome(s.resolvers[client].input.response)))
  {
    hide RunSteps, ResolveTx, Asks, Free, Resolution, RedactOutcome;
    var c, w := s.calls[call], s.resolvers[client];
    CompleterRun(red, s, thread);
    CompletedCall(s, call, thread);
    CancelledThenAnswered(red, s, QuestionHazards.Completed(s, thread), call, client);
    RunConcat(red, s, [DropContext(thread)] + [Deliver(thread)], [Receive(call)] + [CommitResolve(client)]);
    t := RunSteps(red, s, [DropContext(thread)] + [Deliver(thread)] + ([Receive(call)] + [CommitResolve(client)])).value;
    var tx := AnswerLands(red, s, c, w);
    assert Asks(red, s.store, c) && Free(tx.store, c.task, c.segment);
    BothValid(red, s.store, tx.store, c);
    AnswerAppended(s.store, tx.store, c.task, c.request.requestId, RedactOutcome(red, ResponseOutcome(w.input.response)));
  }

  lemma BothValid(red: Redactor, a: Store, b: Store, c: Call)
    requires Asks(red, a, c) && Free(b, c.task, c.segment)
    ensures a.Valid() && b.Valid()
  {
  }

  // ----- two concrete runs -----

  lemma OtherEventKeepsResolution(a: Store, b: Store, task: TaskId, e: TaskEvent, r: RequestId)
    requires Appended(a, b, task, [e]) && !e.QuestionResolved?
    ensures Resolution(b.Log(task), r, REQUEST_REVISION) == Resolution(a.Log(task), r, REQUEST_REVISION)
  {
    var es := Stamp([e], a.lastOffset);
    assert es == [Envelope(a.lastOffset + 1, e)] && es[..0] == [];
    ResolutionConcat(a.Log(task), es, r, REQUEST_REVISION);
    NoResolution(es, r, REQUEST_REVISION);
  }

  const FIRST_CALL := Call(0, 7, ASKED, Waiting, None, false, true, 1)

  /** The first call of a fresh daemon waits on question 5. */
  ghost predicate FirstWaits(s: State) {
    && s == START_STATE.(store := s.store, calls := map[0 := FIRST_CALL], contexts := map[5 := FIRST_CALL.Ctx()], waiters := map[5 := 0])
    && Asks(PLAIN, s.store, FIRST_CALL) && s.store.Version(0) == 3 && s.store.inbox.Keys == {(0, QuestionRequestKey(5, 2))}
    && Resolution(s.store.Log(0), 5, REQUEST_REVISION).None?
  }

  lemma NothingRecorded()
    ensures Resolution(START_LOG, 5, REQUEST_REVISION).None? && START_STATE.store.Log(0) == START_LOG
  {
    NoResolution(START_LOG, 5, REQUEST_REVISION);
  }

  lemma FirstAsk() returns (s: State)
    ensures RunSteps(PLAIN, START_STATE, AskSteps(0, 0, 7, ASKED)) == Some(s) && FirstWaits(s)
  {
    StartFacts();
    AskedIsValid();
    NothingRecorded();
    hide RunSteps, ValidRequest, NeverAsked, Init, Asks, RedactedProjection, Resolution;
    s := AskWaits(PLAIN, START_STATE, 0, 0, 7, ASKED);
    OtherEventKeepsResolution(START_STATE.store, s.store, 0, QuestionRequested(RedactedProjection(PLAIN, FIRST_CALL.Ctx())), 5);
    var calls: map<CallId, Call> := map[];
    var contexts: map<RequestId, Context> := map[];
    var waiters: map<RequestId, CallId> := map[];
    assert calls[0 := FIRST_CALL] == map[0 := FIRST_CALL] && contexts[5 := FIRST_CALL.Ctx()] == map[5 := FIRST_CALL.Ctx()];
    assert waiters[5 := 0] == map[5 := 0];
  }

  const DECLINE := DecisionInput(0, 5, 1, ResponseDeclined, 3)
  const DECLINED_CALL := FIRST_CALL.(cell := Some(Declined), pc := Done(Returned(Declined)))

  /** Question 5 was declined, and its call has returned. */
  ghost predicate FirstDeclined(s: State) {
    && s == START_STATE.(store := s.store, calls := map[0 := DECLINED_CALL], submitted := {(5, Declined)})
    && Free(s.store, 0, 7) && s.store.Version(0) == 4 && s.store.inbox.Keys == {(0, QuestionRequestKey(5, 2)), (0, ClientKey(2, "a"))}
    && Resolution(s.store.Log(0), 5, REQUEST_REVISION) == Some(Declined)
  }

  lemma DeclineAnswers(s: State)
    requires FirstWaits(s)
    ensures 0 in s.calls && s.calls[0] == FIRST_CALL && FIRST_CALL.pc.Waiting? && Registered(s, 0)
    ensures s.resolvers == map[] && s.completers == map[]
    ensures ValidResponse(ASKED.questions, ResponseDeclined) && ResponseOutcome(DECLINE.response) == Declined
    ensures Answers(PLAIN, s, FIRST_CALL, Resolver(ClientKey(2, "a"), DECLINE, Some(FIRST_CALL.Ctx())))
  {
    hide Asks, Resolution;
    assert (0, ClientKey(2, "a")) !in s.store.inbox.Keys;
  }

  lemma FirstAnswer(s: State) returns (t: State)
    requires FirstWaits(s)
    ensures RunSteps(PLAIN, s, AnswerSteps(0, 1, 2, "a", DECLINE)) == Some(t) && FirstDeclined(t)
  {
    DeclineAnswers(s);
    hide RunSteps, Answers, Registered, Asks, Free, Resolution, ValidResponse;
    t := AnswerReaches(PLAIN, s, 0, 1, 2, "a", DECLINE);
    DeclineRecorded(s.store, t.store) by { BothValid(PLAIN, s.store, t.store, FIRST_CALL); }
    assert s.calls[0 := DECLINED_CALL] == map[0 := DECLINED_CALL];
    assert s.contexts - {5} == map[] && s.waiters - {5} == map[];
  }

  lemma DeclineRecorded(a: Store, b: Store)
    requires a.Valid() && b.Valid() && Appended(a, b, 0, [QuestionResolved(5, REQUEST_REVISION, RedactOutcome(PLAIN, Declined))])
    ensures Resolution(b.Log(0), 5, REQUEST_REVISION) == Some(Declined) && b.Version(0) == a.Version(0) + 1
  {
    assert RedactOutcome(PLAIN, Declined) == Declined;
    hide Count, Resolution, RedactOutcome, Replay;
    AnswerAppended(a, b, 0, 5, Declined);
  }

  /** The second call waits on a question under the id of the first one. */
  ghost predicate SecondWaits(s: State, request: AskRequest) {
    && 1 in s.calls && s.calls[1] == s.calls[1].(task := 0, segment := 7, request := request, pc := Waiting)
    && Registered(s, 1) && Asks(PLAIN, s.store, s.calls[1]) && s.store.Version(0) == 5
  }

  lemma SecondAsk(s: State, request: AskRequest) returns (t: State)
    requires Free(s.store, 0, 7) && s.store.Version(0) == 4 && s.contexts == map[] && s.waiters == map[] && 1 !in s.calls
    requires ValidRequest(s.clock, request) && request.requestId == 5 && (0, QuestionRequestKey(5, 4)) !in s.store.inbox
    ensures RunSteps(PLAIN, s, AskSteps(1, 0, 7, request)) == Some(t) && SecondWaits(t, request)
    ensures t.clock == s.clock && t.completers == s.completers && t.resolvers == s.resolvers
    ensures t.store.inbox.Keys == s.store.inbox.Keys + {(0, QuestionRequestKey(5, 4))}
    ensures Resolution(t.store.Log(0), 5, REQUEST_REVISION) == Resolution(s.store.Log(0), 5, REQUEST_REVISION)
  {
    hide RunSteps, ValidRequest, NeverAsked, Asks, Free, RedactedProjection, Resolution;
    t := AskWaits(PLAIN, s, 1, 0, 7, request);
    var c := WaitingCall(s, 0, 7, request);
    OtherEventKeepsResolution(s.store, t.store, 0, QuestionRequested(RedactedProjection(PLAIN, c.Ctx())), 5);
  }

  const REUSING: seq<Step> :=
    AskSteps(0, 0, 7, ASKED) + AnswerSteps(0, 1, 2, "a", DECLINE) + AskSteps(1, 0, 7, ASKED) + [Tick(11)]
    + ([Invalidate(3, 0, 5, REQUEST_REVISION, 5, "x")] + LateSteps(1))

  lemma WithdrawsSecond(s: State) returns (t: State)
    requires SecondWaits(s, ASKED) && s.clock == 11 && s.completers == map[]
    requires s.store.inbox.Keys == {(0, QuestionRequestKey(5, 2)), (0, ClientKey(2, "a")), (0, QuestionRequestKey(5, 4))}
    requires Resolution(s.store.Log(0), 5, REQUEST_REVISION) == Some(Declined)
    ensures RunSteps(PLAIN, s, [Invalidate(3, 0, 5, REQUEST_REVISION, 5, "x")] + LateSteps(1)) == Some(t)
    ensures 1 in t.calls && t.calls[1].pc == Done(Returned(Declined)) && t.store.View(0).question.None?
  {
    hide RunSteps, Asks, Resolution, Free, LateSteps, Count;
    assert (0, QuestionInvalidateKey(5, REQUEST_REVISION, 5)) !in s.store.inbox.Keys;
    assert (0, QuestionInvalidateKey(5, REQUEST_REVISION, 6)) !in s.store.inbox.Keys;
    t := ReusedIdReturnsOldAnswer(PLAIN, s, 1, 3, "x");
    FreeFacts(t.store, 0, 7);
  }

  /**
   A concrete run from a fresh daemon: question 5 is asked and declined, asked
   again and withdrawn, and the second call returns the answer to the first.
   */
  lemma OldAnswerReturned()
    ensures Init(START_STATE) && RunSteps(PLAIN, START_STATE, REUSING).Some?
    ensures var t := RunSteps(PLAIN, START_STATE, REUSING).value;
            1 in t.calls && t.calls[1].pc == Done(Returned(Declined)) && t.store.View(0).question.None?
  {
    StartFacts();
    AskedIsValid();
    hide RunSteps, Init, Resolution, NeverAsked, Free, Asks, ValidRequest, AskSteps, AnswerSteps, LateSteps, Registered;
    var a := FirstAsk();
    var b := FirstAnswer(a);
    RunConcat(PLAIN, START_STATE, AskSteps(0, 0, 7, ASKED), AnswerSteps(0, 1, 2, "a", DECLINE));
    assert (0, QuestionRequestKey(5, 4)) !in b.store.inbox.Keys;
    var c := SecondAsk(b, ASKED);
    RunConcat(PLAIN, START_STATE, AskSteps(0, 0, 7, ASKED) + AnswerSteps(0, 1, 2, "a", DECLINE), AskSteps(1, 0, 7, ASKED));
    TickStep(PLAIN, c, 11);
    RunConcat(PLAIN, START_STATE,
        AskSteps(0, 0, 7, ASKED) + AnswerSteps(0, 1, 2, "a", DECLINE) + AskSteps(1, 0, 7, ASKED), [Tick(11)]);
    var d := c.(clock := 11);
    LaterStillWaits(c, d);
    var t := WithdrawsSecond(d);
    RunConcat(PLAIN, START_STATE,
        AskSteps(0, 0, 7, ASKED) + AnswerSteps(0, 1, 2, "a", DECLINE) + AskSteps(1, 0, 7, ASKED) + [Tick(11)],
        [Invalidate(3, 0, 5, REQUEST_REVISION, 5, "x")] + LateSteps(1));
  }

  lemma LaterStillWaits(s: State, t: State)
    requires SecondWaits(s, ASKED) && t == s.(clock := t.clock)
    ensures SecondWaits(t, ASKED)
  {
    hide Asks;
  }

  // ----- the second run -----

  const LATER := ASKED.(expiresAt := 20)
  const LATE_DECLINE := DecisionInput(0, 5, 1, ResponseDeclined, 5)

  /** Question 5 is asked, withdrawn, and its call times out before the notice. */
  const WITHDRAWING: seq<Step> :=
    AskSteps(0, 0, 7, ASKED) + [Tick(11)] + ([Invalidate(3, 0, 5, REQUEST_REVISION, 3, "x")] + LateSteps(0))

  /** It is asked again, a client looks it up, and the notice of the first withdrawal arrives. */
  const REASKING: seq<Step> :=
    AskSteps(1, 0, 7, LATER) + [StartResolve(1, 2, "a", 0, 5, LATE_DECLINE)]
    + ([DropContext(3)] + [Deliver(3)] + ([Receive(1)] + [CommitResolve(1)]))

  /** Question 5 was withdrawn, and its notice is still owed. */
  ghost predicate FirstWithdrawn(s: State) {
    && s.clock == 11 && s.calls.Keys == {0} && s.contexts == map[] && s.waiters == map[] && s.resolvers == map[]
    && s.completers == map[3 := Completer(0, 5, QuestionOutcome.Cancelled, false)]
    && Free(s.store, 0, 7) && s.store.Version(0) == 4 && Resolution(s.store.Log(0), 5, REQUEST_REVISION).None?
    && s.store.inbox.Keys == {(0, QuestionRequestKey(5, 2)), (0, QuestionInvalidateKey(5, 1, 3)), (0, QuestionInvalidateKey(5, 1, 4))}
  }

  lemma WithdrawsFirst(s: State) returns (t: State)
    requires FirstWaits(s)
    ensures RunSteps(PLAIN, s.(clock := 11), [Invalidate(3, 0, 5, REQUEST_REVISION, 3, "x")] + LateSteps(0)) == Some(t)
    ensures FirstWithdrawn(t)
  {
    hide RunSteps, Asks, Resolution, Free, LateSteps, Count;
    var m := s.(clock := 11);
    assert (0, QuestionInvalidateKey(5, REQUEST_REVISION, 3)) !in m.store.inbox.Keys;
    assert (0, QuestionInvalidateKey(5, REQUEST_REVISION, 4)) !in m.store.inbox.Keys;
    t := ReusedIdReturnsOldAnswer(PLAIN, m, 0, 3, "x");
    assert m.contexts - {5} == map[] && m.waiters - {5} == map[];
  }

  lemma LaterIsValid()
    ensures ValidRequest(11, LATER) && LATER.requestId == 5
  {
    AskedIsValid();
    assert LATER.questions == ASKED.questions;
  }

  lemma LateLookUp(s: State) returns (t: State)
    requires SecondWaits(s, LATER) && s.clock == 11 && s.resolvers == map[]
    requires s.completers == map[3 := Completer(0, 5, QuestionOutcome.Cancelled, false)]
    requires (0, ClientKey(2, "a")) !in s.store.inbox
    ensures RunSteps(PLAIN, s, [StartResolve(1, 2, "a", 0, 5, LATE_DECLINE)]) == Some(t)
    ensures SecondWaits(t, LATER) && t.completers == s.completers && 1 in t.resolvers && Answers(PLAIN, t, t.calls[1], t.resolvers[1])
    ensures t.resolvers[1].input.response == ResponseDeclined
  {
    hide RunSteps, Asks;
    LooksUp(PLAIN, s, 1, 1, 2, "a", LATE_DECLINE);
    RunOne(PLAIN, s, StartResolve(1, 2, "a", 0, 5, LATE_DECLINE));
    t := Apply(PLAIN, s, StartResolve(1, 2, "a", 0, 5, LATE_DECLINE)).value;
  }

  lemma ReasksAndLoses(s: State) returns (t: State)
    requires FirstWithdrawn(s)
    ensures RunSteps(PLAIN, s, REASKING) == Some(t)
    ensures 1 in t.calls && t.calls[1].pc == Done(Returned(QuestionOutcome.Cancelled))
    ensures Resolution(t.store.Log(0), 5, REQUEST_REVISION) == Some(Declined)
  {
    LaterIsValid();
    hide RunSteps, Resolution, Free, Asks, ValidRequest, AskSteps, Registered, Answers;
    assert (0, QuestionRequestKey(5, 4)) !in s.store.inbox.Keys;
    var a := SecondAsk(s, LATER);
    assert (0, ClientKey(2, "a")) !in a.store.inbox.Keys;
    var b := LateLookUp(a);
    RunConcat(PLAIN, s, AskSteps(1, 0, 7, LATER), [StartResolve(1, 2, "a", 0, 5, LATE_DECLINE)]);
    t := LeftoverNoticeLosesAnswer(PLAIN, b, 1, 3, 1);
    RunConcat(PLAIN, s, AskSteps(1, 0, 7, LATER) + [StartResolve(1, 2, "a", 0, 5, LATE_DECLINE)],
        [DropContext(3)] + [Deliver(3)] + ([Receive(1)] + [CommitResolve(1)]));
  }

  /**
   A concrete run without steering: the id was never answered when the second call
   began, only withdrawn. That call returns Cancelled, and its answer is recorded.
   */
  lemma WithdrawnIdLosesAnswer()
    ensures Init(START_STATE)
    ensures RunSteps(PLAIN, START_STATE, WITHDRAWING).Some? && RunSteps(PLAIN, START_STATE, WITHDRAWING + REASKING).Some?
    ensures Resolution(RunSteps(PLAIN, START_STATE, WITHDRAWING).value.store.Log(0), 5, REQUEST_REVISION).None?
    ensures var t := RunSteps(PLAIN, START_STATE, WITHDRAWING + REASKING).value;
            && 1 in t.calls && t.calls[1].pc == Done(Returned(QuestionOutcome.Cancelled))
            && Resolution(t.store.Log(0), 5, REQUEST_REVISION) == Some(Declined)
  {
    StartFacts();
    hide RunSteps, Init, Resolution, NeverAsked, Free, Asks, AskSteps, LateSteps, REASKING;
    var a := FirstAsk();
    TickStep(PLAIN, a, 11);
    RunConcat(PLAIN, START_STATE, AskSteps(0, 0, 7, ASKED), [Tick(11)]);
    var b := WithdrawsFirst(a);
    RunConcat(PLAIN, START_STATE, AskSteps(0, 0, 7, ASKED) + [Tick(11)],
        [Invalidate(3, 0, 5, REQUEST_REVISION, 3, "x")] + LateSteps(0));
    var t := ReasksAndLoses(b);
    RunConcat(PLAIN, START_STATE, WITHDRAWING, REASKING);
  }
}
