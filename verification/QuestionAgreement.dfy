/**
 What `ask` returns agrees with the durable stream, in every interleaving.

 The statements are about calls whose request id is used by no other call and
 was never asked before (request ids are freshly generated); module
 QuestionHazards shows what happens without that, and without the guard against
 replayed steering.
 */
module QuestionAgreement {
  import opened Basics
  import opened TaskStream
  import opened StreamLaws
  import opened StoreLaws
  import opened QuestionValidation
  import opened QuestionProtocol

  // ----- facts about one request -----

  ghost predicate IsPending(p: Projection, r: RequestId) {
    p.question.Some? && p.question.value.requestId == r
  }

  lemma {:induction false} ResolutionConcat(a: seq<Envelope>, b: seq<Envelope>, r: RequestId, revision: nat)
    ensures Resolution(a + b, r, revision) ==
            if Resolution(b, r, revision).Some? then Resolution(b, r, revision) else Resolution(a, r, revision)
  {
    if |b| == 0 {
      assert a + b == a;
    } else {
      assert (a + b)[..|a + b| - 1] == a + b[..|b| - 1];
      ResolutionConcat(a, b[..|b| - 1], r, revision);
    }
  }

  lemma {:induction false} NoResolution(es: seq<Envelope>, r: RequestId, revision: nat)
    requires forall i :: 0 <= i < |es| ==> !Marks(QuestionAnswered(r), es[i].event)
    ensures Resolution(es, r, revision).None?
  {
    if |es| > 0 { NoResolution(es[..|es| - 1], r, revision); }
  }

  /** A resolution that is the only one is the latest one. */
  lemma {:induction false} OnlyResolution(log: seq<Envelope>, r: RequestId, revision: nat, outcome: QuestionOutcome)
    requires Holds(log, QuestionResolved(r, revision, outcome)) && Count(QuestionAnswered(r), log) <= 1
    ensures Resolution(log, r, revision) == Some(outcome) && Count(QuestionAnswered(r), log) == 1
  {
    var i :| 0 <= i < |log| && log[i].event == QuestionResolved(r, revision, outcome);
    var init := log[..|log| - 1];
    if Marks(QuestionAnswered(r), log[|log| - 1].event) {
      if i < |init| {
        assert Marks(QuestionAnswered(r), init[i].event);
        CountPositive(QuestionAnswered(r), init);
        assert false;
      }
    } else {
      assert init[i].event == QuestionResolved(r, revision, outcome);
      OnlyResolution(init, r, revision, outcome);
    }
  }

  /** A change of the streams that neither asks nor answers `r`. */
  ghost predicate Quiet(a: Store, b: Store, r: RequestId) {
    forall t ::
      && Count(QuestionAsked(r), b.Log(t)) == Count(QuestionAsked(r), a.Log(t))
      && Count(QuestionAnswered(r), b.Log(t)) == Count(QuestionAnswered(r), a.Log(t))
      && Count(QuestionDropped(r), b.Log(t)) >= Count(QuestionDropped(r), a.Log(t))
      && Resolution(b.Log(t), r, REQUEST_REVISION) == Resolution(a.Log(t), r, REQUEST_REVISION)
      && (IsPending(b.View(t), r) ==> b.View(t).question == a.View(t).question)
  }

  lemma QuietSame(a: Store, b: Store, r: RequestId)
    requires SameLogs(a, b)
    ensures Quiet(a, b, r)
  {
    forall t ensures b.View(t) == a.View(t) { assert a.Log(t) == b.Log(t); }
  }

  lemma QuietAppend(a: Store, b: Store, task: TaskId, events: seq<TaskEvent>, r: RequestId)
    requires a.Valid() && b.Valid() && Appended(a, b, task, events)
    requires forall i :: 0 <= i < |events| ==> !Marks(QuestionAsked(r), events[i]) && !Marks(QuestionAnswered(r), events[i])
    ensures Quiet(a, b, r)
  {
    var es := Stamp(events, a.lastOffset);
    CountAppend(QuestionAsked(r), a, b, task, events);
    CountAppend(QuestionAnswered(r), a, b, task, events);
    CountAppend(QuestionDropped(r), a, b, task, events);
    CountNone(QuestionAsked(r), es);
    CountNone(QuestionAnswered(r), es);
    ResolutionConcat(a.Log(task), es, r, REQUEST_REVISION);
    NoResolution(es, r, REQUEST_REVISION);
    ViewAppend(a, b, task, events);
    QuestionOrigin(a.View(task), es, r);
    forall t | t != task ensures b.View(t) == a.View(t) { assert a.Log(t) == b.Log(t); }
  }

  // ----- invariant -----

  /** Nobody else uses this call's request id, now or earlier. */
  ghost predicate Unique(s: State, call: CallId) {
    && call in s.calls && s.calls[call].newId
    && forall d :: d in s.calls && d != call ==> s.calls[d].request.requestId != s.calls[call].request.requestId
  }

  predicate Committed(pc: AskPc) {
    match pc
    case Reserved => false
    case Committing(_, _) => false
    case Releasing(_, result) => result.Returned?
    case Done(result) => result.Returned?
    case _ => true
  }

  ghost predicate AskedOnce(store: Store, task: TaskId, r: RequestId, n: nat) {
    forall t :: Count(QuestionAsked(r), store.Log(t)) == if t == task then n else 0
  }

  /** The durable outcome is the redacted form of a valid response that a client submitted. */
  ghost predicate Witnessed(red: Redactor, s: State, c: Call, durable: QuestionOutcome) {
    exists response: Response ::
      && (c.request.requestId, ResponseOutcome(response)) in s.submitted
      && ValidResponse(c.request.questions, response)
      && RedactOutcome(red, ResponseOutcome(response)) == durable
  }

  ghost predicate NoticeOk(red: Redactor, s: State, c: Call, outcome: QuestionOutcome) {
    var log := s.store.Log(c.task);
    if IsReply(outcome) then
      && Resolution(log, c.request.requestId, REQUEST_REVISION) == Some(RedactOutcome(red, outcome))
      && Count(QuestionAnswered(c.request.requestId), log) > 0
      && (c.request.requestId, outcome) in s.submitted
    else
      outcome.Cancelled? && Count(QuestionDropped(c.request.requestId), log) > 0
  }

  ghost predicate ResultOk(red: Redactor, s: State, c: Call, outcome: QuestionOutcome) {
    var log := s.store.Log(c.task);
    var found := Resolution(log, c.request.requestId, REQUEST_REVISION);
    match outcome
    case TimedOut => Count(QuestionAnswered(c.request.requestId), log) == 0 && s.clock > c.request.expiresAt
    case Cancelled => Count(QuestionDropped(c.request.requestId), log) > 0
    case _ =>
      && Count(QuestionAnswered(c.request.requestId), log) > 0 && found.Some?
      && (outcome == found.value || ((c.request.requestId, outcome) in s.submitted && RedactOutcome(red, outcome) == found.value))
  }

  ghost predicate Registered(s: State, call: CallId)
    requires call in s.calls
  {
    var c := s.calls[call];
    var r := c.request.requestId;
    r in s.contexts && s.contexts[r] == c.Ctx() && r in s.waiters && s.waiters[r] == call && c.cell.None?
  }

  ghost predicate PcOk(red: Redactor, s: State, call: CallId)
    requires call in s.calls
  {
    var c := s.calls[call];
    match c.pc
    case Reserved => Registered(s, call)
    case Committing(_, _) => Registered(s, call)
    case Waiting => IsPending(s.store.View(c.task), c.request.requestId) ==> Registered(s, call)
    case Withdrawing(_) => s.clock > c.request.expiresAt && Count(QuestionDropped(c.request.requestId), s.store.Log(c.task)) > 0
    case Releasing(_, result) => result.Returned? ==> ResultOk(red, s, c, result.outcome)
    case Done(result) => result.Returned? ==> ResultOk(red, s, c, result.outcome)
    case _ => s.clock > c.request.expiresAt
  }

  ghost predicate StreamOk(red: Redactor, s: State, c: Call) {
    var r := c.request.requestId;
    var log := s.store.Log(c.task);
    var found := Resolution(log, r, REQUEST_REVISION);
    && AskedOnce(s.store, c.task, r, if Committed(c.pc) then 1 else 0)
    && (Count(QuestionAnswered(r), log) > 0 ==> found.Some? && Witnessed(red, s, c, found.value))
    && (IsPending(s.store.View(c.task), r) ==> s.store.View(c.task).question == Some(RedactedProjection(red, c.Ctx())))
  }

  ghost predicate CallInv(red: Redactor, s: State, call: CallId)
    requires call in s.calls
  {
    var c := s.calls[call];
    && StreamOk(red, s, c)
    && PcOk(red, s, call)
    && (c.cell.Some? ==> NoticeOk(red, s, c, c.cell.value))
    && (forall th :: th in s.completers && s.completers[th].requestId == c.request.requestId ==>
          NoticeOk(red, s, c, s.completers[th].outcome))
    && (c.pc.Done? || !c.senderLost)
  }

  ghost predicate Owned(s: State, context: Context) {
    exists call :: call in s.calls && s.calls[call].Ctx() == context
  }

  ghost predicate ResolverOk(s: State, w: Resolver) {
    && w.key.ClientKey?
    && (w.input.requestId, ResponseOutcome(w.input.response)) in s.submitted
    && (w.context.Some? ==>
          && w.context.value.request.requestId == w.input.requestId
          && Owned(s, w.context.value)
          && ValidResponse(w.context.value.request.questions, w.input.response))
  }

  ghost predicate AttemptsOk(c: Call) {
    && (c.pc.Reserved? ==> c.attempts == 0)
    && (c.pc.Committing? ==> c.attempts + c.pc.retries == VERSION_RETRIES)
    && c.attempts <= VERSION_RETRIES + 1
  }

  /** A completer acts only after its request has ended in its stream. */
  ghost predicate CompleterOk(store: Store, w: Completer) {
    Count(QuestionAnswered(w.requestId), store.Log(w.task)) + Count(QuestionDropped(w.requestId), store.Log(w.task)) > 0
  }

  ghost predicate Shape(s: State) {
    && s.store.Valid() && InboxSound(s.store)
    && (forall r :: r in s.contexts ==> s.contexts[r].request.requestId == r && Owned(s, s.contexts[r]))
    && (forall r :: r in s.waiters ==> s.waiters[r] in s.calls && s.calls[s.waiters[r]].request.requestId == r)
    && (forall th :: th in s.resolvers ==> ResolverOk(s, s.resolvers[th]))
    && (forall th :: th in s.completers ==> CompleterOk(s.store, s.completers[th]))
    && (forall c :: c in s.calls ==> AttemptsOk(s.calls[c]))
  }

  ghost predicate Inv(red: Redactor, s: State) {
    && Shape(s)
    && forall call :: Unique(s, call) ==> CallInv(red, s, call)
  }

  lemma UniqueOwner(s: State, call: CallId, context: Context)
    requires Unique(s, call) && Owned(s, context) && context.request.requestId == s.calls[call].request.requestId
    ensures context == s.calls[call].Ctx()
  {
  }

  /** A request that ended is not pending, and cannot have ended in two ways. */
  lemma EndedOnce(red: Redactor, s: State, c: Call)
    requires s.store.Valid() && StreamOk(red, s, c)
    ensures var log := s.store.Log(c.task); var r := c.request.requestId;
            Count(QuestionAnswered(r), log) + Count(QuestionDropped(r), log) + Pending(IsPending(s.store.View(c.task), r))
            <= if Committed(c.pc) then 1 else 0
  {
    LogReplays(s.store, c.task);
    QuestionEndsOnce(s.store.Log(c.task), c.request.requestId);
  }

  // ----- steps that leave a call's request alone -----

  ghost predicate CallsKept(s: State, t: State) {
    forall d :: d in s.calls ==>
      d in t.calls && t.calls[d].request == s.calls[d].request && t.calls[d].task == s.calls[d].task
      && t.calls[d].segment == s.calls[d].segment && t.calls[d].newId == s.calls[d].newId
  }

  lemma StillUnique(s: State, t: State, call: CallId)
    requires CallsKept(s, t) && Unique(t, call) && call in s.calls
    ensures Unique(s, call)
  {
  }

  lemma StillOwned(s: State, t: State, context: Context)
    requires CallsKept(s, t) && Owned(s, context)
    ensures Owned(t, context)
  {
    var d :| d in s.calls && s.calls[d].Ctx() == context;
    assert t.calls[d].Ctx() == context;
  }

  /** The invariant of a call survives any quiet step that does not unregister it while it is pending. */
  lemma FrameCall(red: Redactor, s: State, t: State, call: CallId)
    requires s.store.Valid() && call in s.calls && CallInv(red, s, call)
    requires call in t.calls && t.calls[call] == s.calls[call]
    requires Quiet(s.store, t.store, s.calls[call].request.requestId)
    requires s.clock <= t.clock && s.submitted <= t.submitted
    requires forall th :: th in t.completers && t.completers[th].requestId == s.calls[call].request.requestId ==>
      NoticeOk(red, t, t.calls[call], t.completers[th].outcome)
    requires Registered(s, call) ==>
      || Registered(t, call)
      || Count(QuestionAnswered(s.calls[call].request.requestId), s.store.Log(s.calls[call].task)) > 0
      || Count(QuestionDropped(s.calls[call].request.requestId), s.store.Log(s.calls[call].task)) > 0
    ensures CallInv(red, t, call)
  {
    var c := s.calls[call];
    var r := c.request.requestId;
    assert Count(QuestionAsked(r), t.store.Log(c.task)) == Count(QuestionAsked(r), s.store.Log(c.task));
    EndedOnce(red, s, c);
    assert StreamOk(red, t, c) by {
      if Count(QuestionAnswered(r), t.store.Log(c.task)) > 0 {
        var response: Response :| (r, ResponseOutcome(response)) in s.submitted
          && ValidResponse(c.request.questions, response)
          && RedactOutcome(red, ResponseOutcome(response)) == Resolution(s.store.Log(c.task), r, REQUEST_REVISION).value;
        assert (r, ResponseOutcome(response)) in t.submitted;
      }
    }
  }

  /** The notice of a completer survives quiet steps. */
  lemma FrameNotice(red: Redactor, s: State, t: State, c: Call, outcome: QuestionOutcome)
    requires NoticeOk(red, s, c, outcome)
    requires Quiet(s.store, t.store, c.request.requestId) && s.submitted <= t.submitted
    ensures NoticeOk(red, t, c, outcome)
  {
    assert Count(QuestionAsked(c.request.requestId), t.store.Log(c.task)) == Count(QuestionAsked(c.request.requestId), s.store.Log(c.task));
  }

  lemma HoldsGrows(a: seq<Envelope>, b: seq<Envelope>, e: TaskEvent)
    requires a <= b && Holds(a, e)
    ensures Holds(b, e)
  {
    var i :| 0 <= i < |a| && a[i].event == e;
    assert b[i].event == e;
  }

  lemma EntryGrows(a: seq<Envelope>, b: seq<Envelope>, entry: InboxEntry)
    requires a <= b && EntrySound(a, entry)
    ensures EntrySound(b, entry)
  {
    if entry.outcome.Accepted? {
      match entry.payload
      case QuestionRequestPayload(q) => CountGrows(QuestionAsked(q.requestId), a, b);
      case QuestionResolvePayload(r, revision, outcome) => HoldsGrows(a, b, QuestionResolved(r, revision, outcome));
      case QuestionInvalidatePayload(r, _, _) => CountGrows(QuestionDropped(r), a, b);
      case _ =>
    }
  }

  lemma InboxGrows(a: Store, b: Store)
    requires InboxSound(a) && Grows(a, b) && b.inbox == a.inbox
    ensures InboxSound(b)
  {
    forall k | k in b.inbox ensures EntrySound(b.Log(k.0), b.inbox[k]) {
      EntryGrows(a.Log(k.0), b.Log(k.0), a.inbox[k]);
    }
  }

  /** The event an accepted question command must begin with for its inbox entry to be sound. */
  predicate DecisionNames(payload: Payload, first: TaskEvent) {
    match payload
    case QuestionRequestPayload(q) => Marks(QuestionAsked(q.requestId), first)
    case QuestionResolvePayload(r, revision, outcome) => first == QuestionResolved(r, revision, outcome)
    case QuestionInvalidatePayload(r, _, _) => Marks(QuestionDropped(r), first)
    case _ => true
  }

  /** A transaction keeps the inbox sound when an accepted decision contains the event its payload names. */
  lemma TransactKeepsInbox(st: Store, c: StoreCommand, refusal: Option<Reason>, decision: Decision)
    requires st.Valid() && InboxSound(st)
    requires decision.Ok? && |decision.value| > 0 ==> DecisionNames(c.payload, decision.value[0])
    ensures InboxSound(Transact(st, c, refusal, decision).store)
  {
    var tx := Transact(st, c, refusal, decision);
    TransactLogs(st, c, refusal, decision);
    TransactInbox(st, c, refusal, decision);
    forall k | k in tx.store.inbox ensures EntrySound(tx.store.Log(k.0), tx.store.inbox[k]) {
      if k != (c.task, c.key) || !Fresh(st, c) {
        assert st.Log(k.0) <= tx.store.Log(k.0);
        EntryGrows(st.Log(k.0), tx.store.Log(k.0), st.inbox[k]);
      } else if tx.outcome.Accepted? {
        var log := tx.store.Log(c.task);
        var i := |st.Log(c.task)|;
        assert log[i].event == decision.value[0];
        match c.payload
        case QuestionRequestPayload(q) => assert Marks(QuestionAsked(q.requestId),
            log[i].event); CountPositive(QuestionAsked(q.requestId), log);
        case QuestionInvalidatePayload(r, _, _) => assert Marks(QuestionDropped(r), log[i].event); CountPositive(QuestionDropped(r), log);
        case _ =>
      }
    }
  }

  ghost predicate SubMap<K, V>(a: map<K, V>, b: map<K, V>) {
    forall k :: k in a ==> k in b && a[k] == b[k]
  }

  lemma CompleterGrows(a: Store, b: Store, w: Completer)
    requires Grows(a, b) && CompleterOk(a, w)
    ensures CompleterOk(b, w)
  {
    CountGrows(QuestionAnswered(w.requestId), a.Log(w.task), b.Log(w.task));
    CountGrows(QuestionDropped(w.requestId), a.Log(w.task), b.Log(w.task));
  }

  lemma ShapeFrame(s: State, t: State)
    requires Shape(s) && CallsKept(s, t)
    requires t.store.Valid() && InboxSound(t.store) && Grows(s.store, t.store)
    requires SubMap(t.contexts, s.contexts) && SubMap(t.waiters, s.waiters) && SubMap(t.resolvers, s.resolvers)
    requires forall th :: th in t.completers ==>
      CompleterOk(t.store, t.completers[th]) || (th in s.completers && CompleterOk(s.store, t.completers[th]))
    requires s.submitted <= t.submitted
    requires forall c :: c in t.calls ==> AttemptsOk(t.calls[c])
    ensures Shape(t)
  {
    forall r | r in t.contexts ensures Owned(t, t.contexts[r]) { StillOwned(s, t, s.contexts[r]); }
    forall th | th in t.resolvers ensures ResolverOk(t, t.resolvers[th]) {
      var w := s.resolvers[th];
      if w.context.Some? { StillOwned(s, t, w.context.value); }
    }
    forall th | th in t.completers ensures CompleterOk(t.store, t.completers[th]) {
      if !CompleterOk(t.store, t.completers[th]) { CompleterGrows(s.store, t.store, t.completers[th]); }
    }
  }

  // ----- other writers and the clock -----

  lemma ForeignBatchIsQuiet(source: Source, events: seq<TaskEvent>, r: RequestId)
    requires source != QuestionBroker && AcceptableBatch(source, events)
    ensures forall i :: 0 <= i < |events| ==> !Marks(QuestionAsked(r), events[i]) && !Marks(QuestionAnswered(r), events[i])
  {
    forall i | 0 <= i < |events| ensures !Marks(QuestionAsked(r), events[i]) && !Marks(QuestionAnswered(r), events[i]) {
      assert AllowedSource(source, events[i]);
    }
  }

  /** A transaction of a component other than the question broker is quiet for every question. */
  lemma ForeignTransact(st: Store, c: StoreCommand, decision: Decision, r: RequestId)
    requires st.Valid() && c.source != QuestionBroker
    ensures Quiet(st, Transact(st, c, None, decision).store, r)
  {
    var tx := Transact(st, c, None, decision);
    TransactLogs(st, c, None, decision);
    if Fresh(st, c) && tx.outcome.Accepted? {
      ForeignBatchIsQuiet(c.source, decision.value, r);
      QuietAppend(st, tx.store, c.task, decision.value, r);
    } else {
      QuietSame(st, tx.store, r);
    }
  }

  /** Steps that change only the clock and the store, quietly. */
  lemma StoreStepKeeps(red: Redactor, s: State, t: State)
    requires Inv(red, s)
    requires t == s.(clock := t.clock, store := t.store) && s.clock <= t.clock
    requires t.store.Valid() && InboxSound(t.store) && Grows(s.store, t.store)
    requires forall r :: Quiet(s.store, t.store, r)
    ensures Inv(red, t)
  {
    ShapeFrame(s, t);
    forall call | Unique(t, call) ensures CallInv(red, t, call) {
      StillUnique(s, t, call);
      var c := s.calls[call];
      forall th | th in t.completers && t.completers[th].requestId == c.request.requestId
        ensures NoticeOk(red, t, c, t.completers[th].outcome)
      {
        FrameNotice(red, s, t, c, s.completers[th].outcome);
      }
      FrameCall(red, s, t, call);
    }
  }

  lemma OtherKeeps(red: Redactor, s: State, step: Step)
    requires Inv(red, s) && OtherStep(s, step).Some?
    ensures Inv(red, OtherStep(s, step).value)
  {
    var t := OtherStep(s, step).value;
    match step
    case Tick(_) =>
      forall r ensures Quiet(s.store, t.store, r) { QuietSame(s.store, t.store, r); }
      StoreStepKeeps(red, s, t);
    case OtherAppend(task, source, events) =>
      AppendResult(s.store, task, events);
      AppendedGrows(s.store, t.store, task, events);
      InboxGrows(s.store, t.store);
      forall r ensures Quiet(s.store, t.store, r) {
        ForeignBatchIsQuiet(source, events, r);
        QuietAppend(s.store, t.store, task, events, r);
      }
      StoreStepKeeps(red, s, t);
    case OtherCommand(task, client, key, text, expected, source, decision) =>
      var c := StoreCommand(task, ClientKey(client, key), SteeringPayload(text), expected, source);
      TransactLogs(s.store, c, None, decision);
      TransactKeepsInbox(s.store, c, None, decision);
      TransactGrows(s.store, c, None, decision);
      forall r ensures Quiet(s.store, t.store, r) { ForeignTransact(s.store, c, decision, r); }
      StoreStepKeeps(red, s, t);
    case _ =>
  }

  // ----- a call begins -----

  lemma BeginShape(s: State, t: State, call: CallId)
    requires Shape(s) && call !in s.calls && call in t.calls && t.store == s.store && t.calls == s.calls[call := t.calls[call]]
    requires AttemptsOk(t.calls[call]) && t.resolvers == s.resolvers && t.completers == s.completers && t.submitted == s.submitted
    requires var r := t.calls[call].request.requestId;
             t.contexts == s.contexts[r := t.calls[call].Ctx()] && t.waiters == s.waiters[r := call]
    ensures Shape(t)
  {
    var r := t.calls[call].request.requestId;
    forall q | q in t.contexts ensures t.contexts[q].request.requestId == q && Owned(t, t.contexts[q]) {
      if q == r { assert t.calls[call].Ctx() == t.contexts[q]; } else { StillOwned(s, t, s.contexts[q]); }
    }
    forall th | th in t.resolvers ensures ResolverOk(t, t.resolvers[th]) {
      var w := s.resolvers[th];
      if w.context.Some? { StillOwned(s, t, w.context.value); }
    }
  }

  /** A request with a completer has been asked in the completer's stream. */
  lemma CompleterWasAsked(s: State, th: ThreadId)
    requires Shape(s) && th in s.completers
    ensures Count(QuestionAsked(s.completers[th].requestId), s.store.Log(s.completers[th].task)) > 0
  {
    var w := s.completers[th];
    LogReplays(s.store, w.task);
    QuestionEndsOnce(s.store.Log(w.task), w.requestId);
  }

  lemma NewCall(red: Redactor, s: State, t: State, call: CallId)
    requires Shape(s) && t.store == s.store && t.completers == s.completers
    requires call in t.calls && t.calls[call].pc.Reserved? && NeverAsked(s.store, t.calls[call].request.requestId)
    requires Registered(t, call) && !t.calls[call].senderLost
    ensures CallInv(red, t, call)
  {
    var c := t.calls[call];
    var r := c.request.requestId;
    forall task ensures Count(QuestionAsked(r), t.store.Log(task)) == 0 { }
    LogReplays(t.store, c.task);
    QuestionEndsOnce(t.store.Log(c.task), r);
    forall th | th in t.completers ensures t.completers[th].requestId != r { CompleterWasAsked(s, th); }
  }

  /** The state right after a call was registered. */
  ghost predicate Began(s: State, t: State, call: CallId) {
    && call !in s.calls && call in t.calls && t == s.(calls := s.calls[call := t.calls[call]], contexts := t.contexts, waiters := t.waiters)
    && var r := t.calls[call].request.requestId;
       && r !in s.contexts && r !in s.waiters
       && t.contexts == s.contexts[r := t.calls[call].Ctx()] && t.waiters == s.waiters[r := call]
  }

  lemma BeganOthers(red: Redactor, s: State, t: State, call: CallId, d: CallId)
    requires Inv(red, s) && Began(s, t, call) && Unique(t, d) && d != call
    ensures CallInv(red, t, d)
  {
    hide AttemptsOk, ResolverOk, Owned, CompleterOk, Witnessed, ResultOk, AskedOnce;
    StillUnique(s, t, d);
    QuietSame(s.store, t.store, s.calls[d].request.requestId);
    FrameCall(red, s, t, d);
  }

  lemma BeginForm(s: State, call: CallId, task: TaskId, segment: SegmentId, request: AskRequest)
    requires Begin(s, call, task, segment, request).Some?
    ensures var t := Begin(s, call, task, segment, request).value;
            && Began(s, t, call) && t.calls[call].pc.Reserved? && t.calls[call].attempts == 0
                && t.calls[call].cell.None? && !t.calls[call].senderLost
            && t.calls[call].newId == NeverAsked(s.store, t.calls[call].request.requestId)
  {
    hide NeverAsked, ValidRequest;
  }

  lemma BeginKeeps(red: Redactor, s: State, call: CallId, task: TaskId, segment: SegmentId, request: AskRequest)
    requires Inv(red, s) && Begin(s, call, task, segment, request).Some?
    ensures Inv(red, Begin(s, call, task, segment, request).value)
  {
    hide CallInv, ResolverOk, Owned, CompleterOk, NeverAsked, Begin;
    var t := Begin(s, call, task, segment, request).value;
    BeginForm(s, call, task, segment, request);
    BeginShape(s, t, call);
    forall d | Unique(t, d) ensures CallInv(red, t, d) {
      if d != call { BeganOthers(red, s, t, call, d); } else { NewCall(red, s, t, call); }
    }
  }

  // ----- steps about one request -----

  /** `t` differs from `s` only in what concerns request `r`. */
  ghost predicate OnlyAbout(s: State, t: State, r: RequestId) {
    && CallsKept(s, t) && t.calls.Keys == s.calls.Keys
    && (forall d :: d in s.calls && s.calls[d].request.requestId != r ==> t.calls[d] == s.calls[d])
    && (forall q :: q != r ==> (q in s.contexts <==> q in t.contexts) && (q in s.contexts ==> t.contexts[q] == s.contexts[q]))
    && (forall q :: q != r ==> (q in s.waiters <==> q in t.waiters) && (q in s.waiters ==> t.waiters[q] == s.waiters[q]))
    && (forall th :: th in t.completers && t.completers[th].requestId != r ==> th in s.completers && t.completers[th] == s.completers[th])
    && s.clock == t.clock && s.submitted == t.submitted
  }

  lemma OthersKeep(red: Redactor, s: State, t: State, r: RequestId, d: CallId)
    requires Inv(red, s) && OnlyAbout(s, t, r)
    requires Unique(t, d) && t.calls[d].request.requestId != r
    requires Quiet(s.store, t.store, t.calls[d].request.requestId)
    ensures CallInv(red, t, d)
  {
    StillUnique(s, t, d);
    var c := s.calls[d];
    forall th | th in t.completers && t.completers[th].requestId == c.request.requestId
      ensures NoticeOk(red, t, c, t.completers[th].outcome)
    {
      FrameNotice(red, s, t, c, s.completers[th].outcome);
    }
    FrameCall(red, s, t, d);
  }

  /** Assembles the invariant from the acting call and everybody else. */
  lemma AboutOne(red: Redactor, s: State, t: State, r: RequestId)
    requires Inv(red, s) && OnlyAbout(s, t, r) && Shape(t)
    requires forall q :: q != r ==> Quiet(s.store, t.store, q)
    requires forall d :: Unique(t, d) && t.calls[d].request.requestId == r ==> CallInv(red, t, d)
    ensures Inv(red, t)
  {
    forall d | Unique(t, d) ensures CallInv(red, t, d) {
      if t.calls[d].request.requestId != r { OthersKeep(red, s, t, r, d); }
    }
  }

  lemma PcStepShape(s: State, call: CallId, pc: AskPc)
    requires Shape(s) && call in s.calls && AttemptsOk(s.calls[call].(pc := pc))
    ensures Shape(SetPc(s, call, pc)) && OnlyAbout(s, SetPc(s, call, pc), s.calls[call].request.requestId)
  {
    ShapeFrame(s, SetPc(s, call, pc));
  }

  lemma PcStepCall(red: Redactor, s: State, call: CallId, pc: AskPc)
    requires call in s.calls && CallInv(red, s, call)
    requires Committed(pc) == Committed(s.calls[call].pc) && (pc.Done? || !s.calls[call].pc.Done?)
    requires PcOk(red, SetPc(s, call, pc), call)
    ensures CallInv(red, SetPc(s, call, pc), call)
  {
    var t := SetPc(s, call, pc);
    assert StreamOk(red, s, s.calls[call]);
    assert StreamOk(red, t, t.calls[call]);
  }

  /** A step that only moves the program counter of one call. */
  lemma PcStepKeeps(red: Redactor, s: State, call: CallId, pc: AskPc)
    requires Inv(red, s) && call in s.calls
    requires Committed(pc) == Committed(s.calls[call].pc) && (pc.Done? || !s.calls[call].pc.Done?)
    requires AttemptsOk(s.calls[call].(pc := pc))
    requires Unique(s, call) && CallInv(red, s, call) ==> PcOk(red, SetPc(s, call, pc), call)
    ensures Inv(red, SetPc(s, call, pc))
  {
    var t := SetPc(s, call, pc);
    var r := s.calls[call].request.requestId;
    PcStepShape(s, call, pc);
    forall d | Unique(t, d) && t.calls[d].request.requestId == r ensures CallInv(red, t, d) {
      assert d == call;
      StillUnique(s, t, d);
      PcStepCall(red, s, call, pc);
    }
    forall q ensures Quiet(s.store, t.store, q) { QuietSame(s.store, t.store, q); }
    AboutOne(red, s, t, r);
  }

  lemma ReadVersionKeeps(red: Redactor, s: State, call: CallId)
    requires Inv(red, s) && CallStep(red, s, ReadVersion(call), call).Some?
    ensures Inv(red, CallStep(red, s, ReadVersion(call), call).value)
  {
    var c := s.calls[call];
    assert AttemptsOk(c);
    PcStepKeeps(red, s, call, CallStep(red, s, ReadVersion(call), call).value.calls[call].pc);
  }

  lemma ExpireKeeps(red: Redactor, s: State, call: CallId)
    requires Inv(red, s) && CallStep(red, s, Expire(call), call).Some?
    ensures Inv(red, CallStep(red, s, Expire(call), call).value)
  {
    assert AttemptsOk(s.calls[call]);
    PcStepKeeps(red, s, call, Expired);
  }

  lemma LoseSenderKeeps(red: Redactor, s: State, call: CallId)
    requires Inv(red, s) && CallStep(red, s, LoseSender(call), call).Some?
    ensures Inv(red, CallStep(red, s, LoseSender(call), call).value)
  {
    assert AttemptsOk(s.calls[call]);
    PcStepKeeps(red, s, call, Expired);
  }

  lemma ReceiveKeeps(red: Redactor, s: State, call: CallId)
    requires Inv(red, s) && CallStep(red, s, Receive(call), call).Some?
    ensures Inv(red, CallStep(red, s, Receive(call), call).value)
  {
    assert AttemptsOk(s.calls[call]);
    PcStepKeeps(red, s, call, Done(Returned(s.calls[call].cell.value)));
  }

  lemma ReadResolutionKeeps(red: Redactor, s: State, call: CallId)
    requires Inv(red, s) && CallStep(red, s, ReadResolution(call), call).Some?
    ensures Inv(red, CallStep(red, s, ReadResolution(call), call).value)
  {
    var c := s.calls[call];
    assert AttemptsOk(c);
    var pc := CallStep(red, s, ReadResolution(call), call).value.calls[call].pc;
    if Unique(s, call) && CallInv(red, s, call) {
      StoredIsReply(red, s, c);
      assert PcOk(red, SetPc(s, call, pc), call);
    }
    PcStepKeeps(red, s, call, pc);
  }

  /** The store holds a resolution exactly when the request was answered, and it is a reply. */
  lemma StoredIsReply(red: Redactor, s: State, c: Call)
    requires StreamOk(red, s, c)
    ensures var found := Resolution(s.store.Log(c.task), c.request.requestId, REQUEST_REVISION);
            && (found.Some? <==> Count(QuestionAnswered(c.request.requestId), s.store.Log(c.task)) > 0)
            && (found.Some? ==> IsReply(found.value))
  {
    var log := s.store.Log(c.task);
    if Count(QuestionAnswered(c.request.requestId), log) == 0 {
      CountPositive(QuestionAnswered(c.request.requestId), log);
      NoResolution(log, c.request.requestId, REQUEST_REVISION);
    }
  }

  // ----- committing the request -----

  /** A transaction whose decision speaks only about `r` is quiet for every other request. */
  lemma OwnTransactQuiet(st: Store, c: StoreCommand, decision: Decision, r: RequestId, q: RequestId)
    requires st.Valid() && q != r
    requires decision.Ok? ==> forall i :: 0 <= i < |decision.value| ==>
      (decision.value[i].QuestionRequested? ==> decision.value[i].question.requestId == r)
      && (decision.value[i].QuestionResolved? ==> decision.value[i].requestId == r)
    ensures Quiet(st, Transact(st, c, None, decision).store, q)
  {
    var tx := Transact(st, c, None, decision);
    TransactLogs(st, c, None, decision);
    if Fresh(st, c) && tx.outcome.Accepted? {
      QuietAppend(st, tx.store, c.task, decision.value, q);
    } else {
      QuietSame(st, tx.store, q);
    }
  }

  /** A step of one call that runs a transaction and moves that call. */
  ghost predicate CallTx(s: State, t: State, call: CallId) {
    && call in s.calls && call in t.calls
    && t == s.(store := t.store, calls := s.calls[call := t.calls[call]])
    && t.calls[call] == s.calls[call].(pc := t.calls[call].pc, attempts := t.calls[call].attempts)
    && t.store.Valid() && InboxSound(t.store) && Grows(s.store, t.store)
  }

  lemma CallTxShape(s: State, t: State, call: CallId)
    requires Shape(s) && CallTx(s, t, call) && AttemptsOk(t.calls[call])
    ensures Shape(t) && OnlyAbout(s, t, s.calls[call].request.requestId)
  {
    ShapeFrame(s, t);
  }

  lemma CallTxKeeps(red: Redactor, s: State, t: State, call: CallId)
    requires Inv(red, s) && CallTx(s, t, call) && AttemptsOk(t.calls[call])
    requires forall q :: q != s.calls[call].request.requestId ==> Quiet(s.store, t.store, q)
    requires Unique(s, call) ==> CallInv(red, t, call)
    ensures Inv(red, t)
  {
    var r := s.calls[call].request.requestId;
    CallTxShape(s, t, call);
    forall d | Unique(t, d) && t.calls[d].request.requestId == r ensures CallInv(red, t, d) {
      assert d == call;
      StillUnique(s, t, d);
    }
    AboutOne(red, s, t, r);
  }

  /** An uncommitted, unique call has nothing in any stream and no completer. */
  lemma UncommittedIsClean(red: Redactor, s: State, call: CallId)
    requires Shape(s) && call in s.calls && CallInv(red, s, call) && !Committed(s.calls[call].pc)
    ensures forall th :: th in s.completers ==> s.completers[th].requestId != s.calls[call].request.requestId
    ensures var c := s.calls[call]; var log := s.store.Log(c.task);
            Count(QuestionAnswered(c.request.requestId), log) == 0 && Count(QuestionDropped(c.request.requestId), log) == 0
  {
    var c := s.calls[call];
    EndedOnce(red, s, c);
    forall th | th in s.completers ensures s.completers[th].requestId != c.request.requestId {
      CompleterWasAsked(s, th);
      assert Count(QuestionAsked(c.request.requestId), s.store.Log(s.completers[th].task)) == 0;
    }
  }

  /** The request of `c` is now the pending question of its stream, asked once and not answered. */
  ghost predicate RequestRecorded(red: Redactor, a: Store, b: Store, c: Call) {
    && AskedOnce(b, c.task, c.request.requestId, 1)
    && Count(QuestionAnswered(c.request.requestId), b.Log(c.task)) == Count(QuestionAnswered(c.request.requestId), a.Log(c.task))
    && b.View(c.task).question == Some(RedactedProjection(red, c.Ctx()))
  }

  lemma RequestAppended(red: Redactor, a: Store, b: Store, c: Call)
    requires a.Valid() && b.Valid() && Appended(a, b, c.task, [QuestionRequested(RedactedProjection(red, c.Ctx()))])
    requires AskedOnce(a, c.task, c.request.requestId, 0)
    ensures RequestRecorded(red, a, b, c)
  {
    var r := c.request.requestId;
    var e := QuestionRequested(RedactedProjection(red, c.Ctx()));
    var es := Stamp([e], a.lastOffset);
    assert es == [Envelope(a.lastOffset + 1, e)];
    CountAppend(QuestionAsked(r), a, b, c.task, [e]);
    CountAppend(QuestionAnswered(r), a, b, c.task, [e]);
    CountOne(QuestionAsked(r), es[0]);
    CountOne(QuestionAnswered(r), es[0]);
    ViewAppend(a, b, c.task, [e]);
    assert es[..0] == [];
    assert ReduceAll(a.View(c.task), es) == Reduce(a.View(c.task), es[0]);
    forall t ensures Count(QuestionAsked(r), b.Log(t)) == if t == c.task then 1 else 0 {
      if t != c.task { assert b.Log(t) == a.Log(t); }
      assert Count(QuestionAsked(r), a.Log(t)) == 0;
    }
  }

  /** What the request transaction does to the store. */
  lemma RequestTxFacts(red: Redactor, s: State, c: Call, expected: nat)
    requires s.store.Valid() && InboxSound(s.store)
    ensures var tx := RequestTx(red, s, c, expected); var r := c.request.requestId;
            && tx.store.Valid() && InboxSound(tx.store) && Grows(s.store, tx.store)
            && (forall q :: q != r ==> Quiet(s.store, tx.store, q))
            && (!tx.outcome.Accepted? ==> SameLogs(s.store, tx.store))
            && (tx.outcome.Accepted? && AskedOnce(s.store, c.task, r, 0) ==> RequestRecorded(red, s.store, tx.store, c))
  {
    var r := c.request.requestId;
    var command := RequestCommand(red, c, expected);
    var decision := RequestDecision(red, s.clock, s.store.View(c.task), c.Ctx());
    TransactLogs(s.store, command, None, decision);
    TransactInbox(s.store, command, None, decision);
    TransactGrows(s.store, command, None, decision);
    TransactKeepsInbox(s.store, command, None, decision);
    forall q | q != r ensures Quiet(s.store, RequestTx(red, s, c, expected).store, q) {
      OwnTransactQuiet(s.store, command, decision, r, q);
    }
    if AskedOnce(s.store, c.task, r, 0) {
      assert Count(QuestionAsked(r), s.store.Log(c.task)) == 0;
      assert !Fresh(s.store, command) ==> EntrySound(s.store.Log(c.task), s.store.inbox[(command.task, command.key)]);
      if RequestTx(red, s, c, expected).outcome.Accepted? {
        RequestAppended(red, s.store, RequestTx(red, s, c, expected).store, c);
      }
    }
  }

  lemma CommitAccepted(red: Redactor, s: State, t: State, call: CallId)
    requires Shape(s) && call in s.calls && CallInv(red, s, call) && CallTx(s, t, call)
    requires s.calls[call].pc.Committing? && t.calls[call].pc.Waiting?
    requires RequestRecorded(red, s.store, t.store, s.calls[call])
    ensures CallInv(red, t, call)
  {
    UncommittedIsClean(red, s, call);
    assert Registered(s, call);
    assert StreamOk(red, t, t.calls[call]);
  }

  lemma CommitRefused(red: Redactor, s: State, t: State, call: CallId)
    requires Shape(s) && call in s.calls && CallInv(red, s, call) && CallTx(s, t, call) && SameLogs(s.store, t.store)
    requires s.calls[call].pc.Committing? && (t.calls[call].pc.Committing? || t.calls[call].pc == Releasing(false, Errored))
    ensures CallInv(red, t, call)
  {
    UncommittedIsClean(red, s, call);
    var c := s.calls[call];
    QuietSame(s.store, t.store, c.request.requestId);
    assert s.store.Log(c.task) == t.store.Log(c.task);
    assert StreamOk(red, s, c);
  }

  /** The commit step in terms of its effect on the streams. */
  ghost predicate CommitEffect(red: Redactor, s: State, t: State, call: CallId) {
    && CallTx(s, t, call) && s.calls[call].pc.Committing?
    && (AttemptsOk(s.calls[call]) ==> AttemptsOk(t.calls[call]))
    && (forall q :: q != s.calls[call].request.requestId ==> Quiet(s.store, t.store, q))
    && (if t.calls[call].pc.Waiting? then
          AskedOnce(s.store, s.calls[call].task, s.calls[call].request.requestId, 0) ==>
            RequestRecorded(red, s.store, t.store, s.calls[call])
        else SameLogs(s.store, t.store) && (t.calls[call].pc.Committing? || t.calls[call].pc == Releasing(false, Errored)))
  }

  lemma CommitForm(red: Redactor, s: State, call: CallId, t: State)
    requires s.store.Valid() && InboxSound(s.store) && call in s.calls && Commit(red, s, call) == Some(t)
    ensures CommitEffect(red, s, t, call)
  {
    RequestTxFacts(red, s, s.calls[call], s.calls[call].pc.expected);
  }

  lemma CommitEffectKeeps(red: Redactor, s: State, t: State, call: CallId)
    requires Inv(red, s) && CommitEffect(red, s, t, call)
    ensures Inv(red, t)
  {
    var c := s.calls[call];
    assert AttemptsOk(c);
    if Unique(s, call) {
      assert StreamOk(red, s, c);
      if t.calls[call].pc.Waiting? { CommitAccepted(red, s, t, call); } else { CommitRefused(red, s, t, call); }
    }
    CallTxKeeps(red, s, t, call);
  }

  lemma CommitKeeps(red: Redactor, s: State, call: CallId)
    requires Inv(red, s) && call in s.calls && Commit(red, s, call).Some?
    ensures Inv(red, Commit(red, s, call).value)
  {
    CommitForm(red, s, call, Commit(red, s, call).value);
    CommitEffectKeeps(red, s, Commit(red, s, call).value, call);
  }

  // ----- small steps from which the others are composed -----

  /** The call's registration is no longer needed: the request has ended or the call is past waiting. */
  ghost predicate Settled(s: State, call: CallId)
    requires call in s.calls
  {
    var c := s.calls[call];
    !c.pc.Reserved? && !c.pc.Committing? && (c.pc.Waiting? ==> !IsPending(s.store.View(c.task), c.request.requestId))
  }

  lemma SettledFrame(red: Redactor, s: State, t: State, call: CallId)
    requires call in s.calls && CallInv(red, s, call) && Settled(s, call)
    requires t.store == s.store && t.clock == s.clock && t.submitted == s.submitted && t.completers == s.completers
    requires call in t.calls && t.calls[call] == s.calls[call].(cell := t.calls[call].cell, senderLost := t.calls[call].senderLost)
    requires t.calls[call].cell.Some? ==> NoticeOk(red, s, s.calls[call], t.calls[call].cell.value)
    requires t.calls[call].senderLost ==> t.calls[call].pc.Done?
    ensures CallInv(red, t, call)
  {
    assert StreamOk(red, s, s.calls[call]);
    assert StreamOk(red, t, t.calls[call]);
  }

  lemma ForgetKeeps(red: Redactor, s: State, r: RequestId)
    requires Inv(red, s)
    requires forall d :: Unique(s, d) && s.calls[d].request.requestId == r ==> Settled(s, d)
    ensures Inv(red, ForgetContext(s, r))
  {
    hide Quiet, AttemptsOk, ResolverOk, CompleterOk, Owned;
    var t := ForgetContext(s, r);
    ShapeFrame(s, t);
    forall q ensures Quiet(s.store, t.store, q) { QuietSame(s.store, t.store, q); }
    forall d | Unique(t, d) && t.calls[d].request.requestId == r ensures CallInv(red, t, d) {
      StillUnique(s, t, d);
      SettledFrame(red, s, t, d);
    }
    AboutOne(red, s, t, r);
  }

  /** `t` is `s` after the waiter of `r` was removed and its call's receiving end changed. */
  ghost predicate WaiterTaken(s: State, t: State, r: RequestId) {
    && r in s.waiters && s.waiters[r] in s.calls && s.waiters[r] in t.calls
    && t == s.(waiters := s.waiters - {r}, calls := s.calls[s.waiters[r] := t.calls[s.waiters[r]]])
    && var c := s.calls[s.waiters[r]];
       t.calls[s.waiters[r]] == c.(cell := t.calls[s.waiters[r]].cell, senderLost := t.calls[s.waiters[r]].senderLost)
  }

  lemma WaiterTakenShape(s: State, t: State, r: RequestId)
    requires Shape(s) && WaiterTaken(s, t, r)
    ensures Shape(t) && OnlyAbout(s, t, r)
  {
    hide Shape;
    WaiterTakenAbout(s, t, r);
    WaiterTakenKept(s, t, r);
  }

  lemma WaiterTakenAbout(s: State, t: State, r: RequestId)
    requires Shape(s) && WaiterTaken(s, t, r)
    ensures OnlyAbout(s, t, r)
  {
    hide ResolverOk, Owned, CompleterOk, AttemptsOk, InboxSound;
  }

  lemma WaiterTakenKept(s: State, t: State, r: RequestId)
    requires Shape(s) && WaiterTaken(s, t, r)
    ensures Shape(t)
  {
    hide ResolverOk, Owned, CompleterOk, InboxSound;
    forall c | c in t.calls ensures AttemptsOk(t.calls[c]) { assert AttemptsOk(s.calls[c]); }
    ShapeFrame(s, t);
  }

  lemma WaiterTakenKeeps(red: Redactor, s: State, t: State, r: RequestId)
    requires Inv(red, s) && WaiterTaken(s, t, r)
    requires forall d :: Unique(s, d) && s.calls[d].request.requestId == r ==>
      && Settled(s, d)
      && (t.calls[d].cell.Some? ==> NoticeOk(red, s, s.calls[d], t.calls[d].cell.value))
      && (t.calls[d].senderLost ==> s.calls[d].pc.Done?)
    ensures Inv(red, t)
  {
    WaiterTakenShape(s, t, r);
    forall q ensures Quiet(s.store, t.store, q) { QuietSame(s.store, t.store, q); }
    forall d | Unique(t, d) && t.calls[d].request.requestId == r ensures CallInv(red, t, d) {
      StillUnique(s, t, d);
      SettledFrame(red, s, t, d);
    }
    AboutOne(red, s, t, r);
  }

  lemma NotifyKeeps(red: Redactor, s: State, r: RequestId, outcome: QuestionOutcome)
    requires Inv(red, s)
    requires forall d :: Unique(s, d) && s.calls[d].request.requestId == r ==> Settled(s, d) && NoticeOk(red, s, s.calls[d], outcome)
    ensures Inv(red, Notify(s, r, outcome))
  {
    if r in s.waiters { WaiterTakenKeeps(red, s, Notify(s, r, outcome), r); }
  }

  lemma DiscardKeeps(red: Redactor, s: State, r: RequestId)
    requires Inv(red, s)
    requires forall d :: Unique(s, d) && s.calls[d].request.requestId == r ==> s.calls[d].pc.Done?
    ensures Inv(red, Discard(s, r))
  {
    if r in s.waiters { WaiterTakenKeeps(red, s, Discard(s, r), r); }
  }

  lemma SetCompleterKeeps(red: Redactor, s: State, thread: ThreadId, w: Completer)
    requires Inv(red, s) && CompleterOk(s.store, w)
    requires thread !in s.completers || s.completers[thread].requestId == w.requestId
    requires forall d :: Unique(s, d) && s.calls[d].request.requestId == w.requestId ==> NoticeOk(red, s, s.calls[d], w.outcome)
    ensures Inv(red, s.(completers := s.completers[thread := w]))
  {
    hide Quiet, AttemptsOk, ResolverOk, Owned, Witnessed, ResultOk;
    var t := s.(completers := s.completers[thread := w]);
    ShapeFrame(s, t);
    forall d | Unique(t, d) ensures CallInv(red, t, d) {
      StillUnique(s, t, d);
      QuietSame(s.store, t.store, s.calls[d].request.requestId);
      FrameCall(red, s, t, d);
    }
  }

  lemma RemoveCompleterKeeps(red: Redactor, s: State, thread: ThreadId)
    requires Inv(red, s)
    ensures Inv(red, s.(completers := s.completers - {thread}))
  {
    var t := s.(completers := s.completers - {thread});
    ShapeFrame(s, t);
    forall d | Unique(t, d) ensures CallInv(red, t, d) {
      StillUnique(s, t, d);
      QuietSame(s.store, t.store, s.calls[d].request.requestId);
      FrameCall(red, s, t, d);
    }
  }

  /** After the end of a request its call is settled. */
  lemma EndedIsSettled(red: Redactor, s: State, call: CallId, outcome: QuestionOutcome)
    requires Shape(s) && call in s.calls && CallInv(red, s, call) && NoticeOk(red, s, s.calls[call], outcome)
    ensures Settled(s, call)
  {
    EndedOnce(red, s, s.calls[call]);
  }

  // ----- the call's own invalidation and its release -----

  lemma InvalidateTxFacts(red: Redactor, s: State, task: TaskId, r: RequestId, revision: nat, expected: nat, reason: string)
    requires s.store.Valid() && InboxSound(s.store)
    ensures var tx := InvalidateTx(red, s, task, r, revision, expected, reason);
            && tx.store.Valid() && InboxSound(tx.store) && Grows(s.store, tx.store)
            && (forall q :: Quiet(s.store, tx.store, q))
            && (tx.outcome.Accepted? ==> Count(QuestionDropped(r), tx.store.Log(task)) > 0)
  {
    var command := InvalidateCommand(red, task, r, revision, expected, reason);
    var decision := InvalidateDecision(s.store.View(task), r, revision, Ok([]));
    var tx := InvalidateTx(red, s, task, r, revision, expected, reason);
    TransactLogs(s.store, command, None, decision);
    TransactInbox(s.store, command, None, decision);
    TransactGrows(s.store, command, None, decision);
    TransactKeepsInbox(s.store, command, None, decision);
    forall q ensures Quiet(s.store, tx.store, q) { InvalidatingTransactQuiet(s.store, command, decision, q); }
    if tx.outcome.Accepted? {
      if Fresh(s.store, command) {
        InvalidatedIsCounted(s.store, tx.store, task, decision.value, r);
      } else {
        assert EntrySound(s.store.Log(task), s.store.inbox[(command.task, command.key)]);
      }
    }
  }

  lemma InvalidatingTransactQuiet(st: Store, c: StoreCommand, decision: Decision, q: RequestId)
    requires st.Valid()
    requires decision.Ok? ==> forall i :: 0 <= i < |decision.value| ==> !decision.value[i].QuestionRequested? && !decision.value[i].QuestionResolved?
    ensures Quiet(st, Transact(st, c, None, decision).store, q)
  {
    OwnTransactQuiet(st, c, decision, q + 1, q);
  }

  lemma InvalidatedIsCounted(a: Store, b: Store, task: TaskId, events: seq<TaskEvent>, r: RequestId)
    requires Appended(a, b, task, events) && |events| > 0 && Marks(QuestionDropped(r), events[0])
    ensures Count(QuestionDropped(r), b.Log(task)) > 0
  {
    var i := |a.Log(task)|;
    assert b.Log(task)[i].event == events[0];
    assert Marks(QuestionDropped(r), b.Log(task)[i].event);
    CountPositive(QuestionDropped(r), b.Log(task));
  }

  lemma InvalidateOwnKeeps(red: Redactor, s: State, call: CallId)
    requires Inv(red, s) && call in s.calls && InvalidateOwn(red, s, call).Some?
    ensures Inv(red, InvalidateOwn(red, s, call).value)
  {
    var c := s.calls[call];
    var tx := InvalidateTx(red, s, c.task, c.request.requestId, REQUEST_REVISION, c.pc.expected, EXPIRED_REASON);
    InvalidateTxFacts(red, s, c.task, c.request.requestId, REQUEST_REVISION, c.pc.expected, EXPIRED_REASON);
    InvalidateOwnMoves(red, s, call, tx.store, AfterInvalidate(c.pc.retries, tx.outcome));
    assert InvalidateOwn(red, s, call).value == SetPc(s.(store := tx.store), call, AfterInvalidate(c.pc.retries, tx.outcome));
  }

  lemma InvalidateOwnMoves(red: Redactor, s: State, call: CallId, store: Store, pc: AskPc)
    requires Inv(red, s) && call in s.calls && s.calls[call].pc.Invalidating?
    requires store.Valid() && InboxSound(store) && Grows(s.store, store) && forall q :: Quiet(s.store, store, q)
    requires pc.Invalidating? || pc.ReadingStore? ||
      (pc.Withdrawing? && Count(QuestionDropped(s.calls[call].request.requestId), store.Log(s.calls[call].task)) > 0)
    ensures Inv(red, SetPc(s.(store := store), call, pc))
  {
    var s1 := s.(store := store);
    StoreStepKeeps(red, s, s1);
    assert AttemptsOk(s1.calls[call]);
    PcStepKeeps(red, s1, call, pc);
  }

  lemma WithdrawSettled(red: Redactor, s: State, call: CallId, d: CallId)
    requires Inv(red, s) && call in s.calls && s.calls[call].pc.Withdrawing? && Unique(s, d)
        && s.calls[d].request.requestId == s.calls[call].request.requestId
    ensures Settled(s, d) && NoticeOk(red, s, s.calls[d], QuestionOutcome.Cancelled) && d == call
  {
    assert d == call;
  }

  lemma WithdrawWaiterKeeps(red: Redactor, s: State, call: CallId)
    requires Inv(red, s) && call in s.calls && s.calls[call].pc.Withdrawing?
    ensures var r := s.calls[call].request.requestId;
            call in Notify(s, r, QuestionOutcome.Cancelled).calls
            && Inv(red, SetPc(Notify(s, r, QuestionOutcome.Cancelled), call, Releasing(false, Returned(TimedOut))))
  {
    var c := s.calls[call];
    var r := c.request.requestId;
    assert AttemptsOk(c);
    forall d | Unique(s, d) && s.calls[d].request.requestId == r
      ensures Settled(s, d) && NoticeOk(red, s, s.calls[d], QuestionOutcome.Cancelled)
    {
      WithdrawSettled(red, s, call, d);
    }
    NotifyKeeps(red, s, r, QuestionOutcome.Cancelled);
    var s1 := Notify(s, r, QuestionOutcome.Cancelled);
    assert AttemptsOk(s1.calls[call]);
    if Unique(s1, call) && CallInv(red, s1, call) { EndedOnce(red, s1, s1.calls[call]); }
    PcStepKeeps(red, s1, call, Releasing(false, Returned(TimedOut)));
  }

  lemma WithdrawKeeps(red: Redactor, s: State, call: CallId)
    requires Inv(red, s) && CallStep(red, s, Withdraw(call), call).Some?
    ensures Inv(red, CallStep(red, s, Withdraw(call), call).value)
  {
    var c := s.calls[call];
    var r := c.request.requestId;
    assert AttemptsOk(c);
    hide Shape, CallInv, Notify, NoticeOk, Settled;
    if c.pc == Withdrawing(false) {
      forall d | Unique(s, d) && s.calls[d].request.requestId == r ensures Settled(s, d) { WithdrawSettled(red, s, call, d); }
      ForgetKeeps(red, s, r);
      WithdrawOn(red, ForgetContext(s, r), call);
    } else {
      WithdrawWaiterKeeps(red, s, call);
    }
  }

  lemma WithdrawOn(red: Redactor, s: State, call: CallId)
    requires Inv(red, s) && call in s.calls && s.calls[call].pc.Withdrawing?
    ensures Inv(red, SetPc(s, call, Withdrawing(true)))
  {
    assert AttemptsOk(s.calls[call]);
    PcStepKeeps(red, s, call, Withdrawing(true));
  }

  lemma ReleaseContextKeeps(red: Redactor, s: State, call: CallId)
    requires Inv(red, s) && call in s.calls && s.calls[call].pc.Releasing? && !s.calls[call].pc.contextDropped
    ensures Inv(red, SetPc(ForgetContext(s, s.calls[call].request.requestId), call, Releasing(true, s.calls[call].pc.result)))
  {
    var c := s.calls[call];
    var r := c.request.requestId;
    assert AttemptsOk(c);
    forall d | Unique(s, d) && s.calls[d].request.requestId == r ensures Settled(s, d) { assert d == call; }
    ForgetKeeps(red, s, r);
    PcStepKeeps(red, ForgetContext(s, r), call, Releasing(true, c.pc.result));
  }

  lemma ReleaseWaiterKeeps(red: Redactor, s: State, call: CallId)
    requires Inv(red, s) && call in s.calls && s.calls[call].pc.Releasing? && s.calls[call].pc.contextDropped
    ensures Inv(red, Discard(SetPc(s, call, Done(s.calls[call].pc.result)), s.calls[call].request.requestId))
  {
    var c := s.calls[call];
    var r := c.request.requestId;
    assert AttemptsOk(c);
    PcStepKeeps(red, s, call, Done(c.pc.result));
    var s1 := SetPc(s, call, Done(c.pc.result));
    assert s1.calls[call].request.requestId == r;
    forall d | Unique(s1, d) && s1.calls[d].request.requestId == r ensures s1.calls[d].pc.Done? { assert d == call; }
    DiscardKeeps(red, s1, r);
  }

  lemma DiscardCommutes(s: State, call: CallId, pc: AskPc, r: RequestId)
    requires call in s.calls
    ensures Discard(SetPc(s, call, pc), r) == SetPc(Discard(s, r), call, pc)
  {
    if r in s.waiters && s.waiters[r] in s.calls {
      var w := s.waiters[r];
      var a, b := s.calls[call].(pc := pc), s.calls[w].(senderLost := true);
      if w != call { assert s.calls[call := a][w := b] == s.calls[w := b][call := a]; }
    }
  }

  lemma ReleaseKeeps(red: Redactor, s: State, call: CallId)
    requires Inv(red, s) && CallStep(red, s, Release(call), call).Some?
    ensures Inv(red, CallStep(red, s, Release(call), call).value)
  {
    var c := s.calls[call];
    if !c.pc.contextDropped {
      ReleaseContextKeeps(red, s, call);
    } else {
      ReleaseWaiterKeeps(red, s, call);
      DiscardCommutes(s, call, Done(c.pc.result), c.request.requestId);
    }
  }

  // ----- threads -----

  lemma StartResolveKeeps(red: Redactor, s: State, step: Step)
    requires Inv(red, s) && step.StartResolve? && ThreadStep(red, s, step).Some?
    ensures Inv(red, ThreadStep(red, s, step).value)
  {
    var t := ThreadStep(red, s, step).value;
    assert CallsKept(s, t);
    forall r | r in t.contexts ensures Owned(t, t.contexts[r]) { StillOwned(s, t, s.contexts[r]); }
    forall th | th in t.resolvers ensures ResolverOk(t, t.resolvers[th]) {
      if th == step.thread {
        if t.resolvers[th].context.Some? { StillOwned(s, t, s.contexts[step.input.requestId]); }
      } else if s.resolvers[th].context.Some? {
        StillOwned(s, t, s.resolvers[th].context.value);
      }
    }
    forall d | Unique(t, d) ensures CallInv(red, t, d) {
      StillUnique(s, t, d);
      QuietSame(s.store, t.store, s.calls[d].request.requestId);
      FrameCall(red, s, t, d);
    }
  }

  /** A thread that was accepted for an invalidation of `r` becomes a completer. */
  lemma CancelledThread(red: Redactor, s: State, thread: ThreadId, tx: Tx, task: TaskId, r: RequestId)
    requires Inv(red, s) && thread !in s.completers
    requires tx.store.Valid() && InboxSound(tx.store) && Grows(s.store, tx.store) && forall q :: Quiet(s.store, tx.store, q)
    requires tx.outcome.Accepted? ==> Count(QuestionDropped(r), tx.store.Log(task)) > 0
    ensures Inv(red, StartCompleter(s, thread, tx, task, r, QuestionOutcome.Cancelled))
  {
    var s1 := s.(store := tx.store);
    StoreStepKeeps(red, s, s1);
    if tx.outcome.Accepted? {
      forall d | Unique(s1, d) && s1.calls[d].request.requestId == r ensures NoticeOk(red, s1, s1.calls[d], QuestionOutcome.Cancelled) {
        EndedWhereAsked(red, s1, s1.calls[d], task);
      }
      SetCompleterKeeps(red, s1, thread, Completer(task, r, QuestionOutcome.Cancelled, false));
    }
  }

  /** A request can only have ended in the stream of the call that asked it. */
  lemma EndedWhereAsked(red: Redactor, s: State, c: Call, task: TaskId)
    requires s.store.Valid() && StreamOk(red, s, c)
    requires Count(QuestionAnswered(c.request.requestId),
        s.store.Log(task)) + Count(QuestionDropped(c.request.requestId), s.store.Log(task)) > 0
    ensures task == c.task
  {
    LogReplays(s.store, task);
    QuestionEndsOnce(s.store.Log(task), c.request.requestId);
    assert Count(QuestionAsked(c.request.requestId), s.store.Log(task)) > 0;
  }

  lemma InvalidateKeeps(red: Redactor, s: State, step: Step)
    requires Inv(red, s) && step.Invalidate? && ThreadStep(red, s, step).Some?
    ensures Inv(red, ThreadStep(red, s, step).value)
  {
    InvalidateTxFacts(red, s, step.task, step.r, step.revision, step.expected, step.reason);
    CancelledThread(red, s, step.thread,
        InvalidateTx(red, s, step.task, step.r, step.revision, step.expected, step.reason), step.task, step.r);
  }

  lemma SteerTxFacts(s: State, step: Step)
    requires s.store.Valid() && InboxSound(s.store) && step.Steer? && !CrossReplay(s, step)
    ensures var tx := SteerTx(s, step.task, step.client, step.key, step.text, step.r, step.revision, step.expected, step.extra);
            && tx.store.Valid() && InboxSound(tx.store) && Grows(s.store, tx.store)
            && (forall q :: Quiet(s.store, tx.store, q))
            && (tx.outcome.Accepted? ==> Count(QuestionDropped(step.r), tx.store.Log(step.task)) > 0)
  {
    var command := SteerCommand(step.task, step.client, step.key, step.text, step.expected);
    var decision := InvalidateDecision(s.store.View(step.task), step.r, step.revision, step.extra);
    var tx := Transact(s.store, command, None, decision);
    TransactLogs(s.store, command, None, decision);
    TransactInbox(s.store, command, None, decision);
    TransactGrows(s.store, command, None, decision);
    TransactKeepsInbox(s.store, command, None, decision);
    forall q ensures Quiet(s.store, tx.store, q) { ForeignTransact(s.store, command, decision, q); }
    if tx.outcome.Accepted? && Fresh(s.store, command) {
      InvalidatedIsCounted(s.store, tx.store, step.task, decision.value, step.r);
    }
  }

  lemma SteerKeeps(red: Redactor, s: State, step: Step)
    requires Inv(red, s) && step.Steer? && ThreadStep(red, s, step).Some? && !CrossReplay(s, step)
    ensures Inv(red, ThreadStep(red, s, step).value)
  {
    SteerTxFacts(s, step);
    CancelledThread(red, s, step.thread,
                    SteerTx(s, step.task, step.client, step.key, step.text, step.r, step.revision, step.expected,
                        step.extra), step.task, step.r);
  }

  lemma CompleterSettles(red: Redactor, s: State, thread: ThreadId, d: CallId)
    requires Inv(red, s) && thread in s.completers && Unique(s, d) && s.calls[d].request.requestId == s.completers[thread].requestId
    ensures Settled(s, d) && NoticeOk(red, s, s.calls[d], s.completers[thread].outcome)
  {
    EndedIsSettled(red, s, d, s.completers[thread].outcome);
  }

  lemma DropContextKeeps(red: Redactor, s: State, thread: ThreadId)
    requires Inv(red, s) && ThreadStep(red, s, DropContext(thread)).Some?
    ensures Inv(red, ThreadStep(red, s, DropContext(thread)).value)
  {
    var w := s.completers[thread];
    forall d | Unique(s, d) && s.calls[d].request.requestId == w.requestId ensures Settled(s, d) { CompleterSettles(red, s, thread, d); }
    ForgetKeeps(red, s, w.requestId);
    var s1 := ForgetContext(s, w.requestId);
    forall d | Unique(s1, d) && s1.calls[d].request.requestId == w.requestId ensures NoticeOk(red, s1, s1.calls[d], w.outcome) {
      CompleterSettles(red, s1, thread, d);
    }
    SetCompleterKeeps(red, s1, thread, w.(contextDropped := true));
  }

  lemma DeliverKeeps(red: Redactor, s: State, thread: ThreadId)
    requires Inv(red, s) && ThreadStep(red, s, Deliver(thread)).Some?
    ensures Inv(red, ThreadStep(red, s, Deliver(thread)).value)
  {
    var w := s.completers[thread];
    forall d | Unique(s, d) && s.calls[d].request.requestId == w.requestId
      ensures Settled(s, d) && NoticeOk(red, s, s.calls[d], w.outcome)
    {
      CompleterSettles(red, s, thread, d);
    }
    NotifyKeeps(red, s, w.requestId, w.outcome);
    RemoveCompleterKeeps(red, Notify(s, w.requestId, w.outcome), thread);
  }

  // ----- a client's answer -----

  /** The answer to `r` is the last event of its stream; every other request is untouched. */
  ghost predicate AnswerRecorded(a: Store, b: Store, task: TaskId, r: RequestId, durable: QuestionOutcome) {
    && (forall t :: Count(QuestionAsked(r), b.Log(t)) == Count(QuestionAsked(r), a.Log(t)))
    && Count(QuestionAnswered(r), b.Log(task)) > 0
    && Resolution(b.Log(task), r, REQUEST_REVISION) == Some(durable)
    && a.View(task).question.Some? && a.View(task).question.value.requestId == r
  }

  lemma AnswerAppended(a: Store, b: Store, task: TaskId, r: RequestId, durable: QuestionOutcome)
    requires a.Valid() && b.Valid() && Appended(a, b, task, [QuestionResolved(r, REQUEST_REVISION, durable)])
    ensures AnswerRecorded(a, b, task, r, durable)
  {
    var e := QuestionResolved(r, REQUEST_REVISION, durable);
    var es := Stamp([e], a.lastOffset);
    assert es == [Envelope(a.lastOffset + 1, e)];
    assert es[..0] == [];
    CountAppend(QuestionAsked(r), a, b, task, [e]);
    CountAppend(QuestionAnswered(r), a, b, task, [e]);
    CountOne(QuestionAsked(r), es[0]);
    CountOne(QuestionAnswered(r), es[0]);
    ResolutionConcat(a.Log(task), es, r, REQUEST_REVISION);
    assert Resolution(es, r, REQUEST_REVISION) == Some(durable);
    ViewAppend(a, b, task, [e]);
    assert ReduceAll(a.View(task), es) == Reduce(a.View(task), es[0]);
    forall t ensures Count(QuestionAsked(r), b.Log(t)) == Count(QuestionAsked(r), a.Log(t)) {
      if t != task { assert b.Log(t) == a.Log(t); }
    }
  }

  ghost predicate ResolveEffect(red: Redactor, s: State, w: Resolver, tx: Tx) {
    var r := w.input.requestId;
    var durable := RedactOutcome(red, ResponseOutcome(w.input.response));
    && tx.store.Valid() && InboxSound(tx.store) && Grows(s.store, tx.store)
    && (forall q :: q != r ==> Quiet(s.store, tx.store, q))
    && (if !tx.outcome.Accepted? then SameLogs(s.store, tx.store)
        else if tx.store == s.store then Holds(s.store.Log(w.input.task), QuestionResolved(r, w.input.revision, durable))
        else
          && w.context.Some? && w.context.value.task == w.input.task && w.context.value.revision == w.input.revision
          && s.clock <= w.context.value.request.expiresAt
          && (w.input.revision == REQUEST_REVISION ==> AnswerRecorded(s.store, tx.store, w.input.task, r, durable))
          && Count(QuestionAnswered(r), tx.store.Log(w.input.task)) > 0)
  }

  lemma ResolveTxFacts(red: Redactor, s: State, w: Resolver)
    requires s.store.Valid() && InboxSound(s.store)
    ensures ResolveEffect(red, s, w, ResolveTx(red, s, w))
  {
    var r := w.input.requestId;
    var durable := RedactOutcome(red, ResponseOutcome(w.input.response));
    var command := ResolveCommand(red, w);
    var decision := ResolveDecision(red, s.clock, s.store.View(w.input.task), w.context, w.input);
    var tx := Transact(s.store, command, None, decision);
    TransactLogs(s.store, command, None, decision);
    TransactInbox(s.store, command, None, decision);
    TransactGrows(s.store, command, None, decision);
    TransactKeepsInbox(s.store, command, None, decision);
    forall q | q != r ensures Quiet(s.store, tx.store, q) { OwnTransactQuiet(s.store, command, decision, r, q); }
    if tx.outcome.Accepted? {
      if Fresh(s.store, command) {
        assert decision.value == [QuestionResolved(r, w.input.revision, durable)];
        if w.input.revision == REQUEST_REVISION { AnswerAppended(s.store, tx.store, w.input.task, r, durable); }
        var i := |s.store.Log(w.input.task)|;
        assert tx.store.Log(w.input.task)[i].event == decision.value[0];
        assert Marks(QuestionAnswered(r), tx.store.Log(w.input.task)[i].event);
        CountPositive(QuestionAnswered(r), tx.store.Log(w.input.task));
      } else {
        assert EntrySound(s.store.Log(w.input.task), s.store.inbox[(command.task, command.key)]);
      }
    }
  }

  /** The unique call of an answered request: only a waiting call can be answered. */
  lemma AnswerCall(red: Redactor, s: State, t: State, call: CallId, w: Resolver)
    requires Shape(s) && Unique(s, call) && CallInv(red, s, call) && ResolverOk(s, w) && w.context.Some?
    requires w.input.requestId == s.calls[call].request.requestId && w.context.value.task == w.input.task
        && w.context.value.revision == w.input.revision
    requires s.clock <= w.context.value.request.expiresAt
    requires t == s.(store := t.store, resolvers := t.resolvers) && t.store.Valid()
    requires w.input.revision == REQUEST_REVISION ==>
      AnswerRecorded(s.store, t.store, w.input.task, w.input.requestId, RedactOutcome(red, ResponseOutcome(w.input.response)))
    ensures CallInv(red, t, call) && NoticeOk(red, t, t.calls[call], ResponseOutcome(w.input.response))
  {
    var c := s.calls[call];
    var r := c.request.requestId;
    UniqueOwner(s, call, w.context.value);
    EndedOnce(red, s, c);
    assert c.pc.Waiting? && Registered(s, call);
    forall th | th in s.completers ensures s.completers[th].requestId != r {
    }
    assert StreamOk(red, t, c) by {
      assert Witnessed(red, t, c, RedactOutcome(red, ResponseOutcome(w.input.response)));
      LogReplays(t.store, c.task);
      QuestionEndsOnce(t.store.Log(c.task), r);
      assert Count(QuestionAsked(r), s.store.Log(c.task)) == 1;
      forall u ensures Count(QuestionAsked(r), t.store.Log(u)) == if u == c.task then 1 else 0 {
        assert Count(QuestionAsked(r), s.store.Log(u)) == if u == c.task then 1 else 0;
      }
    }
    EndedOnce(red, t, c);
  }

  /** A resolver that replays an accepted answer reports exactly what the stream holds. */
  lemma ReplayedAnswer(red: Redactor, s: State, call: CallId, w: Resolver)
    requires Shape(s) && call in s.calls && CallInv(red, s, call) && ResolverOk(s, w)
    requires w.input.requestId == s.calls[call].request.requestId
    requires Holds(s.store.Log(w.input.task),
        QuestionResolved(w.input.requestId, w.input.revision, RedactOutcome(red, ResponseOutcome(w.input.response))))
    ensures NoticeOk(red, s, s.calls[call], ResponseOutcome(w.input.response))
  {
    var c := s.calls[call];
    var r := c.request.requestId;
    var log := s.store.Log(w.input.task);
    HoldsIsCounted(log, r, w.input.revision, RedactOutcome(red, ResponseOutcome(w.input.response)));
    EndedWhereAsked(red, s, c, w.input.task);
    EndedOnce(red, s, c);
    OnlyResolution(log, r, w.input.revision, RedactOutcome(red, ResponseOutcome(w.input.response)));
    var found := Resolution(log, r, REQUEST_REVISION);
    ResolutionHolds(log, r, REQUEST_REVISION);
    OnlyResolution(log, r, REQUEST_REVISION, found.value);
    SameResolution(log, r, w.input.revision, RedactOutcome(red, ResponseOutcome(w.input.response)), REQUEST_REVISION, found.value);
  }

  lemma HoldsIsCounted(log: seq<Envelope>, r: RequestId, revision: nat, outcome: QuestionOutcome)
    requires Holds(log, QuestionResolved(r, revision, outcome))
    ensures Count(QuestionAnswered(r), log) > 0
  {
    var i :| 0 <= i < |log| && log[i].event == QuestionResolved(r, revision, outcome);
    assert Marks(QuestionAnswered(r), log[i].event);
    CountPositive(QuestionAnswered(r), log);
  }

  lemma {:induction false} ResolutionHolds(log: seq<Envelope>, r: RequestId, revision: nat)
    requires Resolution(log, r, revision).Some?
    ensures Holds(log, QuestionResolved(r, revision, Resolution(log, r, revision).value))
  {
    var e := log[|log| - 1].event;
    if !(e.QuestionResolved? && e.requestId == r && e.revision == revision) {
      ResolutionHolds(log[..|log| - 1], r, revision);
      HoldsGrows(log[..|log| - 1], log, QuestionResolved(r, revision, Resolution(log, r, revision).value));
    }
  }

  /** One answer event cannot be two different ones. */
  lemma {:induction false} SameResolution(log: seq<Envelope>, r: RequestId, n: nat, a: QuestionOutcome, m: nat, b: QuestionOutcome)
    requires Count(QuestionAnswered(r), log) <= 1
    requires Holds(log, QuestionResolved(r, n, a)) && Holds(log, QuestionResolved(r, m, b))
    ensures n == m && a == b
  {
    var i :| 0 <= i < |log| && log[i].event == QuestionResolved(r, n, a);
    var j :| 0 <= j < |log| && log[j].event == QuestionResolved(r, m, b);
    var init := log[..|log| - 1];
    if Marks(QuestionAnswered(r), log[|log| - 1].event) {
      CountPositive(QuestionAnswered(r), init);
      if i < |init| { assert Marks(QuestionAnswered(r), init[i].event); }
      if j < |init| { assert Marks(QuestionAnswered(r), init[j].event); }
    } else {
      assert init[i].event == QuestionResolved(r, n, a) && init[j].event == QuestionResolved(r, m, b);
      SameResolution(init, r, n, a, m, b);
    }
  }

  lemma SameResolver(s: State, t: State, w: Resolver)
    requires ResolverOk(s, w) && t.calls == s.calls && t.submitted == s.submitted
    ensures ResolverOk(t, w)
  {
    if w.context.Some? { StillOwned(s, t, w.context.value); }
  }

  /** The call whose request was answered, or whose answer was refused or replayed. */
  lemma ResolvedCall(red: Redactor, s: State, s1: State, d: CallId, w: Resolver, tx: Tx)
    requires Inv(red, s) && Shape(s1) && s1.store == tx.store && s1 == s.(store := tx.store, resolvers := s1.resolvers)
    requires ResolverOk(s, w) && ResolveEffect(red, s, w, tx) && Unique(s, d) && s.calls[d].request.requestId == w.input.requestId
    ensures CallInv(red, s1, d) && (tx.outcome.Accepted? ==> NoticeOk(red, s1, s1.calls[d], ResponseOutcome(w.input.response)))
  {
    hide CallInv, NoticeOk, RedactOutcome, ResolverOk, Owned, CompleterOk, AttemptsOk;
    SameResolver(s, s1, w);
    if !tx.outcome.Accepted? || tx.store == s.store {
      QuietSame(s.store, s1.store, w.input.requestId);
      FrameAll(red, s, s1, d);
      if tx.outcome.Accepted? { ReplayedAnswer(red, s1, d, w); }
    } else {
      AnswerCall(red, s, s1, d, w);
    }
  }

  lemma ResolveShape(red: Redactor, s: State, s1: State, w: Resolver, tx: Tx)
    requires Shape(s) && ResolveEffect(red, s, w, tx) && s1 == s.(store := tx.store, resolvers := s1.resolvers)
        && SubMap(s1.resolvers, s.resolvers)
    ensures Shape(s1)
  {
    hide Quiet, AttemptsOk, ResolverOk, CompleterOk, Owned, Holds, AnswerRecorded;
    ShapeFrame(s, s1);
  }

  lemma ResolveEffectKeeps(red: Redactor, s: State, thread: ThreadId, tx: Tx)
    requires Inv(red, s) && thread in s.resolvers && thread !in s.completers && ResolveEffect(red, s, s.resolvers[thread], tx)
    ensures var w := s.resolvers[thread];
            Inv(red, StartCompleter(s.(resolvers := s.resolvers - {thread}), thread, tx, w.input.task,
                w.input.requestId, ResponseOutcome(w.input.response)))
  {
    var w := s.resolvers[thread];
    assert ResolverOk(s, w);
    var r := w.input.requestId;
    var s1 := s.(store := tx.store, resolvers := s.resolvers - {thread});
    hide CallInv, NoticeOk, RedactOutcome, ResolverOk, AttemptsOk, Quiet, Owned;
    ResolveShape(red, s, s1, w, tx);
    forall d | Unique(s1, d) && s1.calls[d].request.requestId == r
      ensures CallInv(red, s1, d) && (tx.outcome.Accepted? ==> NoticeOk(red, s1, s1.calls[d], ResponseOutcome(w.input.response)))
    {
      StillUnique(s, s1, d);
      ResolvedCall(red, s, s1, d, w, tx);
    }
    AboutOne(red, s, s1, r);
    if tx.outcome.Accepted? {
      if tx.store == s.store {
        HoldsIsCounted(s.store.Log(w.input.task), r, w.input.revision, RedactOutcome(red, ResponseOutcome(w.input.response)));
      }
      SetCompleterKeeps(red, s1, thread, Completer(w.input.task, r, ResponseOutcome(w.input.response), false));
    }
  }


  /** FrameCall when maps, completers and calls are all unchanged. */
  lemma FrameAll(red: Redactor, s: State, t: State, call: CallId)
    requires s.store.Valid() && call in s.calls && CallInv(red, s, call)
    requires t.calls == s.calls && t.contexts == s.contexts && t.waiters == s.waiters && t.completers == s.completers
    requires t.clock == s.clock && t.submitted == s.submitted && Quiet(s.store, t.store, s.calls[call].request.requestId)
    ensures CallInv(red, t, call)
  {
    var c := s.calls[call];
    forall th | th in t.completers && t.completers[th].requestId == c.request.requestId
      ensures NoticeOk(red, t, c, t.completers[th].outcome)
    {
      FrameNotice(red, s, t, c, s.completers[th].outcome);
    }
    FrameCall(red, s, t, call);
  }

  lemma CommitResolveKeeps(red: Redactor, s: State, thread: ThreadId)
    requires Inv(red, s) && ThreadStep(red, s, CommitResolve(thread)).Some?
    ensures Inv(red, ThreadStep(red, s, CommitResolve(thread)).value)
  {
    ResolveTxFacts(red, s, s.resolvers[thread]);
    ResolveEffectKeeps(red, s, thread, ResolveTx(red, s, s.resolvers[thread]));
  }

  // ----- whole runs -----

  lemma CallStepKeeps(red: Redactor, s: State, step: Step, call: CallId)
    requires Inv(red, s) && CallStep(red, s, step, call).Some?
    ensures Inv(red, CallStep(red, s, step, call).value)
  {
    match step
    case ReadVersion(_) => ReadVersionKeeps(red, s, call);
    case TryCommit(_) => CommitKeeps(red, s, call);
    case Receive(_) => ReceiveKeeps(red, s, call);
    case Expire(_) => ExpireKeeps(red, s, call);
    case LoseSender(_) => LoseSenderKeeps(red, s, call);
    case TryInvalidate(_) => InvalidateOwnKeeps(red, s, call);
    case Withdraw(_) => WithdrawKeeps(red, s, call);
    case ReadResolution(_) => ReadResolutionKeeps(red, s, call);
    case Release(_) => ReleaseKeeps(red, s, call);
    case _ =>
  }

  lemma ThreadStepKeeps(red: Redactor, s: State, step: Step)
    requires Inv(red, s) && ThreadStep(red, s, step).Some? && !CrossReplay(s, step)
    ensures Inv(red, ThreadStep(red, s, step).value)
  {
    match step
    case StartResolve(_, _, _, _, _, _) => StartResolveKeeps(red, s, step);
    case CommitResolve(thread) => CommitResolveKeeps(red, s, thread);
    case Invalidate(_, _, _, _, _, _) => InvalidateKeeps(red, s, step);
    case Steer(_, _, _, _, _, _, _, _, _) => SteerKeeps(red, s, step);
    case DropContext(thread) => DropContextKeeps(red, s, thread);
    case Deliver(thread) => DeliverKeeps(red, s, thread);
    case _ =>
  }

  /** Every step keeps the invariant, except a steering acceptance replayed onto another question. */
  lemma StepKeeps(red: Redactor, s: State, step: Step)
    requires Inv(red, s) && Apply(red, s, step).Some? && !CrossReplay(s, step)
    ensures Inv(red, Apply(red, s, step).value)
  {
    match step
    case Tick(_) => OtherKeeps(red, s, step);
    case OtherAppend(_, _, _) => OtherKeeps(red, s, step);
    case OtherCommand(_, _, _, _, _, _, _) => OtherKeeps(red, s, step);
    case StartAsk(call, task, segment, request) => BeginKeeps(red, s, call, task, segment, request);
    case ReadVersion(c) => CallStepKeeps(red, s, step, c);
    case TryCommit(c) => CallStepKeeps(red, s, step, c);
    case Receive(c) => CallStepKeeps(red, s, step, c);
    case Expire(c) => CallStepKeeps(red, s, step, c);
    case LoseSender(c) => CallStepKeeps(red, s, step, c);
    case TryInvalidate(c) => CallStepKeeps(red, s, step, c);
    case Withdraw(c) => CallStepKeeps(red, s, step, c);
    case ReadResolution(c) => CallStepKeeps(red, s, step, c);
    case Release(c) => CallStepKeeps(red, s, step, c);
    case _ => ThreadStepKeeps(red, s, step);
  }

  lemma {:induction false} RunKeeps(red: Redactor, s: State, steps: seq<Step>)
    requires Init(s) && RunSteps(red, s, steps).Some? && NoCrossReplay(red, s, steps)
    ensures Inv(red, RunSteps(red, s, steps).value)
  {
    if |steps| > 0 {
      var init := steps[..|steps| - 1];
      forall i | 0 <= i < |init| ensures init[..i] == steps[..i] { }
      RunKeeps(red, s, init);
      StepKeeps(red, RunSteps(red, s, init).value, steps[|steps| - 1]);
    }
  }

  /**
   Agreement: when `ask` has returned, its stream holds a resolution exactly if
   the call returned a reply; that reply is the durable copy or the submitted
   response it redacts, and the response was valid for the questions asked.
   */
  lemma AskAgreesWithStream(red: Redactor, s: State, steps: seq<Step>, call: CallId)
    requires Init(s) && RunSteps(red, s, steps).Some? && NoCrossReplay(red, s, steps)
    requires var t := RunSteps(red, s, steps).value; Unique(t, call) && t.calls[call].pc.Done?
    ensures var t := RunSteps(red, s, steps).value; var c := t.calls[call]; var result := c.pc.result;
            var found := Resolution(t.store.Log(c.task), c.request.requestId, REQUEST_REVISION);
            && (found.Some? <==> result.Returned? && IsReply(result.outcome))
            && (found.Some? ==>
                  && Witnessed(red, t, c, found.value)
                  && (result.outcome == found.value ||
                      ((c.request.requestId, result.outcome) in t.submitted && RedactOutcome(red, result.outcome) == found.value)))
  {
    RunKeeps(red, s, steps);
    var t := RunSteps(red, s, steps).value;
    hide RunSteps, NoCrossReplay, Init;
    AgreesWhenDone(red, t, call);
  }

  lemma AgreesWhenDone(red: Redactor, t: State, call: CallId)
    requires Inv(red, t) && Unique(t, call) && t.calls[call].pc.Done?
    ensures var c := t.calls[call]; var result := c.pc.result;
            var found := Resolution(t.store.Log(c.task), c.request.requestId, REQUEST_REVISION);
            && (found.Some? <==> result.Returned? && IsReply(result.outcome))
            && (found.Some? ==>
                  && Witnessed(red, t, c, found.value)
                  && (result.outcome == found.value ||
                      ((c.request.requestId, result.outcome) in t.submitted && RedactOutcome(red, result.outcome) == found.value)))
  {
    var c := t.calls[call];
    StoredIsReply(red, t, c);
    EndedOnce(red, t, c);
  }

  ghost predicate StaysDone(s: State, t: State, call: CallId) {
    call in s.calls && s.calls[call].pc.Done? ==> call in t.calls && t.calls[call].pc == s.calls[call].pc
  }

  lemma CallStepStaysDone(red: Redactor, s: State, step: Step, actor: CallId, call: CallId)
    requires CallStep(red, s, step, actor).Some?
    ensures StaysDone(s, CallStep(red, s, step, actor).value, call)
  {
    hide RequestTx, InvalidateTx, Resolution;
  }

  lemma ThreadStepStaysDone(red: Redactor, s: State, step: Step, call: CallId)
    requires ThreadStep(red, s, step).Some?
    ensures StaysDone(s, ThreadStep(red, s, step).value, call)
  {
  }

  lemma StepStaysDone(red: Redactor, s: State, step: Step, call: CallId)
    requires Apply(red, s, step).Some?
    ensures StaysDone(s, Apply(red, s, step).value, call)
  {
    match step
    case Tick(_) =>
    case OtherAppend(_, _, _) =>
    case OtherCommand(_, _, _, _, _, _, _) =>
    case StartAsk(_, _, _, _) =>
    case ReadVersion(c) => CallStepStaysDone(red, s, step, c, call);
    case TryCommit(c) => CallStepStaysDone(red, s, step, c, call);
    case Receive(c) => CallStepStaysDone(red, s, step, c, call);
    case Expire(c) => CallStepStaysDone(red, s, step, c, call);
    case LoseSender(c) => CallStepStaysDone(red, s, step, c, call);
    case TryInvalidate(c) => CallStepStaysDone(red, s, step, c, call);
    case Withdraw(c) => CallStepStaysDone(red, s, step, c, call);
    case ReadResolution(c) => CallStepStaysDone(red, s, step, c, call);
    case Release(c) => CallStepStaysDone(red, s, step, c, call);
    case _ => ThreadStepStaysDone(red, s, step, call);
  }

  lemma {:induction false} RunStaysDone(red: Redactor, s: State, steps: seq<Step>, call: CallId)
    requires RunSteps(red, s, steps).Some?
    ensures StaysDone(s, RunSteps(red, s, steps).value, call)
  {
    if |steps| > 0 {
      RunStaysDone(red, s, steps[..|steps| - 1], call);
      StepStaysDone(red, RunSteps(red, s, steps[..|steps| - 1]).value, steps[|steps| - 1], call);
    }
  }

  lemma {:induction false} RunConcat(red: Redactor, s: State, a: seq<Step>, b: seq<Step>)
    requires RunSteps(red, s, a).Some?
    ensures RunSteps(red, s, a + b) == RunSteps(red, RunSteps(red, s, a).value, b)
  {
    if |b| == 0 {
      assert a + b == a;
    } else {
      assert (a + b)[..|a + b| - 1] == a + b[..|b| - 1];
      RunConcat(red, s, a, b[..|b| - 1]);
    }
  }

  /**
   Once `ask` has returned without a reply, no resolution of its request is
   recorded in any stream, and none is recorded in any continuation of the run.
   */
  lemma NoLateAnswer(red: Redactor, s: State, steps: seq<Step>, more: seq<Step>, call: CallId, task: TaskId)
    requires Init(s) && RunSteps(red, s, steps).Some? && RunSteps(red, RunSteps(red, s, steps).value, more).Some?
    requires NoCrossReplay(red, s, steps + more)
    requires var m := RunSteps(red, s, steps).value;
             && call in m.calls && m.calls[call].pc.Done?
             && !(m.calls[call].pc.result.Returned? && IsReply(m.calls[call].pc.result.outcome))
             && Unique(RunSteps(red, m, more).value, call)
    ensures var t := RunSteps(red, RunSteps(red, s, steps).value, more).value;
            Count(QuestionAnswered(t.calls[call].request.requestId), t.store.Log(task)) == 0
  {
    var m := RunSteps(red, s, steps).value;
    var t := RunSteps(red, m, more).value;
    RunStaysDone(red, m, more, call);
    RunConcat(red, s, steps, more);
    RunKeeps(red, s, steps + more);
    EndedOnce(red, t, t.calls[call]);
    if Count(QuestionAnswered(t.calls[call].request.requestId), t.store.Log(task)) > 0 {
      EndedWhereAsked(red, t, t.calls[call], task);
    }
  }

  /**
   Every call tries to commit at most nine times and records its request at
   most once; in every reachable state every stream has at most one pending
   interaction, and this request has ended at most once.
   */
  lemma OneRequestPerCall(red: Redactor, s: State, steps: seq<Step>, call: CallId)
    requires Init(s) && RunSteps(red, s, steps).Some? && NoCrossReplay(red, s, steps)
    requires Unique(RunSteps(red, s, steps).value, call)
    ensures var t := RunSteps(red, s, steps).value; var c := t.calls[call]; var r := c.request.requestId; var log := t.store.Log(c.task);
            && c.attempts <= VERSION_RETRIES + 1
            && Count(QuestionAsked(r), log) == (if Committed(c.pc) then 1 else 0)
            && Count(QuestionAnswered(r), log) + Count(QuestionDropped(r), log) <= Count(QuestionAsked(r), log)
            && forall task :: Coherent(t.store.View(task))
  {
    RunKeeps(red, s, steps);
    var t := RunSteps(red, s, steps).value;
    var c := t.calls[call];
    assert AttemptsOk(c);
    EndedOnce(red, t, c);
    assert Count(QuestionAsked(c.request.requestId), t.store.Log(c.task)) == if Committed(c.pc) then 1 else 0;
    forall task ensures Coherent(t.store.View(task)) {
      LogReplays(t.store, task);
      OneForegroundInteraction(t.store.Log(task));
    }
  }
}
