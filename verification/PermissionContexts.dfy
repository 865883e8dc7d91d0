/**
 No orphaned permission: while a permission is pending in a stream, the broker
 holds the validation context it was recorded from, so a prompt decision is never
 refused for a lost or changed context.

 The statements are about requests whose id is used by one call only and was never
 asked before; ids are freshly generated by the engine.
 */
module PermissionContexts {
  import opened Basics
  import opened TaskStream
  import opened StreamLaws
  import opened StoreLaws
  import opened PermissionProtocol
  import opened PermissionInbox

  ghost predicate IsPending(p: Projection, r: RequestId) {
    p.permission.Some? && p.permission.value.requestId == r
  }

  // ----- changes of the streams that do not ask `r` -----

  ghost predicate Quiet(a: Store, b: Store, r: RequestId) {
    forall t ::
      && Count(PermissionAsked(r), b.Log(t)) == Count(PermissionAsked(r), a.Log(t))
      && Count(PermissionAnswered(r), b.Log(t)) >= Count(PermissionAnswered(r), a.Log(t))
      && Count(PermissionDropped(r), b.Log(t)) >= Count(PermissionDropped(r), a.Log(t))
      && (IsPending(b.View(t), r) ==> b.View(t).permission == a.View(t).permission)
  }

  lemma QuietSame(a: Store, b: Store, r: RequestId)
    requires SameLogs(a, b)
    ensures Quiet(a, b, r)
  {
    forall t ensures b.View(t) == a.View(t) { assert a.Log(t) == b.Log(t); }
  }

  lemma QuietAppend(a: Store, b: Store, task: TaskId, events: seq<TaskEvent>, r: RequestId)
    requires a.Valid() && b.Valid() && Appended(a, b, task, events)
    requires forall i :: 0 <= i < |events| ==> !Marks(PermissionAsked(r), events[i])
    ensures Quiet(a, b, r)
  {
    var es := Stamp(events, a.lastOffset);
    CountAppend(PermissionAsked(r), a, b, task, events);
    CountAppend(PermissionAnswered(r), a, b, task, events);
    CountAppend(PermissionDropped(r), a, b, task, events);
    CountNone(PermissionAsked(r), es);
    ViewAppend(a, b, task, events);
    PermissionOrigin(a.View(task), es, r);
    forall t | t != task ensures b.View(t) == a.View(t) { assert a.Log(t) == b.Log(t); }
  }

  lemma QuietTransact(st: Store, c: StoreCommand, refusal: Option<Reason>, decision: Decision, r: RequestId)
    requires st.Valid()
    requires decision.Ok? ==>
      forall i :: 0 <= i < |decision.value| && AllowedSource(c.source, decision.value[i]) ==> !Marks(PermissionAsked(r), decision.value[i])
    ensures Quiet(st, Transact(st, c, refusal, decision).store, r)
  {
    var tx := Transact(st, c, refusal, decision);
    TransactLogs(st, c, refusal, decision);
    if Fresh(st, c) && tx.outcome.Accepted? {
      QuietAppend(st, tx.store, c.task, decision.value, r);
    } else {
      QuietSame(st, tx.store, r);
    }
  }

  // ----- invariant -----

  /** Nobody else uses this call's request id, now or earlier. */
  ghost predicate Unique(s: State, call: CallId) {
    && call in s.calls && s.calls[call].newId
    && forall d :: d in s.calls && d != call ==> s.calls[d].request.requestId != s.calls[call].request.requestId
  }

  ghost predicate AskedOnce(store: Store, task: TaskId, r: RequestId, n: nat) {
    forall t :: Count(PermissionAsked(r), store.Log(t)) == if t == task then n else 0
  }

  ghost predicate Ended(store: Store, task: TaskId, r: RequestId) {
    Count(PermissionAnswered(r), store.Log(task)) + Count(PermissionDropped(r), store.Log(task)) > 0
  }

  /** What a call's position says about its draft, its commit and its attempts. */
  predicate DraftOk(c: Call) {
    && (c.committed ==> c.draft.Some?)
    && (c.draft.Some? ==> c.draft.value.task == c.task && c.draft.value.revision == REQUEST_REVISION)
    && c.attempts <= VERSION_RETRIES + 1
    && match c.pc
       case Registered => c.draft.None? && !c.committed && c.attempts == 0
       case Prepared(x, _) => c.draft == Some(x) && !c.committed && c.attempts == 0
       case Judging(x, _) => c.draft == Some(x) && !c.committed && c.attempts == 0
       case Committing(x, _, _, retries) => c.draft == Some(x) && !c.committed && c.attempts + retries == VERSION_RETRIES
       case Releasing(x) => c.draft == Some(x) && !c.committed
       case AutoResolved(x, _) => c.draft == Some(x) && c.committed
       case Cancelling => true
       case Done(_) => true
       case _ => c.committed
  }

  ghost predicate Owned(s: State, r: RequestId, x: Context) {
    exists call :: call in s.calls && s.calls[call].request.requestId == r && s.calls[call].draft == Some(x)
  }

  ghost predicate ResolverOk(s: State, w: Resolver) {
    w.context.Some? && w.context.value.Some? ==> Owned(s, w.input.requestId, w.context.value.value)
  }

  ghost predicate Shape(s: State) {
    && s.store.Valid() && InboxSound(s.store)
    && (forall c :: c in s.calls ==> DraftOk(s.calls[c]))
    && (forall r :: r in s.contexts ==> Owned(s, r, s.contexts[r]))
    && (forall th :: th in s.resolvers ==> ResolverOk(s, s.resolvers[th]))
    && (forall th :: th in s.completers ==> Ended(s.store, s.completers[th].task, s.completers[th].requestId))
  }

  ghost predicate Live(s: State, c: Call) {
    var r := c.request.requestId;
    c.draft.Some? && r in s.contexts && s.contexts[r] == c.draft.value
  }

  ghost predicate PcInv(s: State, c: Call) {
    && (c.pc.Judging? || c.pc.Committing? ==> Live(s, c))
    && (c.pc.AutoResolved? || c.pc.Withdrawing? ==> Ended(s.store, c.task, c.request.requestId))
  }

  ghost predicate CallInv(red: Redactor, s: State, c: Call) {
    var r := c.request.requestId;
    && AskedOnce(s.store, c.task, r, if c.committed then 1 else 0)
    && (IsPending(s.store.View(c.task), r) ==>
          && Live(s, c)
          && s.store.View(c.task).permission == Some(RedactedProjection(red, r, c.draft.value, c.request.preview, None)))
    && PcInv(s, c)
  }

  ghost predicate Owner(s: State, task: TaskId, r: RequestId, call: CallId) {
    call in s.calls && s.calls[call].task == task && s.calls[call].request.requestId == r && s.calls[call].committed
  }

  /** Every pending permission was recorded by a call of this process. */
  ghost predicate PendingOwned(s: State) {
    forall task :: s.store.View(task).permission.Some? ==>
      exists call :: Owner(s, task, s.store.View(task).permission.value.requestId, call)
  }

  ghost predicate Inv(red: Redactor, s: State) {
    && Shape(s) && PendingOwned(s)
    && forall call :: Unique(s, call) ==> CallInv(red, s, s.calls[call])
  }

  /** A request that ended is not pending. */
  lemma EndedNotPending(store: Store, task: TaskId, r: RequestId)
    requires store.Valid() && Ended(store, task, r) && Count(PermissionAsked(r), store.Log(task)) <= 1
    ensures !IsPending(store.View(task), r) && Count(PermissionAsked(r), store.Log(task)) == 1
  {
    LogReplays(store, task);
    PermissionEndsOnce(store.Log(task), r);
  }

  lemma EndedWasAsked(store: Store, task: TaskId, r: RequestId)
    requires store.Valid() && Ended(store, task, r)
    ensures Count(PermissionAsked(r), store.Log(task)) > 0
  {
    LogReplays(store, task);
    PermissionEndsOnce(store.Log(task), r);
  }

  lemma EndedGrows(a: Store, b: Store, task: TaskId, r: RequestId)
    requires Grows(a, b) && Ended(a, task, r)
    ensures Ended(b, task, r)
  {
    CountGrows(PermissionAnswered(r), a.Log(task), b.Log(task));
    CountGrows(PermissionDropped(r), a.Log(task), b.Log(task));
  }

  // ----- frames -----

  /** Identities stay, drafts and commits are never taken back. */
  ghost predicate CallsKept(s: State, t: State) {
    forall d :: d in s.calls ==>
      && d in t.calls && t.calls[d].request == s.calls[d].request && t.calls[d].task == s.calls[d].task
      && t.calls[d].newId == s.calls[d].newId
      && (s.calls[d].draft.Some? ==> t.calls[d].draft == s.calls[d].draft)
      && (s.calls[d].committed ==> t.calls[d].committed)
  }

  lemma StillUnique(s: State, t: State, call: CallId)
    requires CallsKept(s, t) && Unique(t, call) && call in s.calls
    ensures Unique(s, call)
  {
  }

  lemma StillOwned(s: State, t: State, r: RequestId, x: Context)
    requires CallsKept(s, t) && Owned(s, r, x)
    ensures Owned(t, r, x)
  {
    var d :| d in s.calls && s.calls[d].request.requestId == r && s.calls[d].draft == Some(x);
    assert t.calls[d].draft == Some(x);
  }

  lemma UniqueOwner(s: State, call: CallId, x: Context)
    requires Unique(s, call) && Owned(s, s.calls[call].request.requestId, x)
    ensures s.calls[call].draft == Some(x)
  {
  }

  lemma ShapeFrame(s: State, t: State)
    requires Shape(s) && CallsKept(s, t)
    requires t.store.Valid() && InboxSound(t.store) && Grows(s.store, t.store)
    requires forall c :: c in t.calls ==> DraftOk(t.calls[c])
    requires forall r :: r in t.contexts ==> (r in s.contexts && t.contexts[r] == s.contexts[r]) || Owned(t, r, t.contexts[r])
    requires forall th :: th in t.resolvers ==> (th in s.resolvers && t.resolvers[th] == s.resolvers[th]) || ResolverOk(t, t.resolvers[th])
    requires forall th :: th in t.completers ==>
      || Ended(s.store, t.completers[th].task, t.completers[th].requestId)
      || Ended(t.store, t.completers[th].task, t.completers[th].requestId)
    ensures Shape(t)
  {
    forall r | r in t.contexts ensures Owned(t, r, t.contexts[r]) {
      if r in s.contexts && t.contexts[r] == s.contexts[r] { StillOwned(s, t, r, s.contexts[r]); }
    }
    forall th | th in t.resolvers ensures ResolverOk(t, t.resolvers[th]) {
      if th in s.resolvers && t.resolvers[th] == s.resolvers[th] {
        var w := s.resolvers[th];
        if w.context.Some? && w.context.value.Some? { StillOwned(s, t, w.input.requestId, w.context.value.value); }
      }
    }
    forall th | th in t.completers ensures Ended(t.store, t.completers[th].task, t.completers[th].requestId) {
      var w := t.completers[th];
      if Ended(s.store, w.task, w.requestId) { EndedGrows(s.store, t.store, w.task, w.requestId); }
    }
  }

  lemma OwnedFrame(s: State, t: State)
    requires PendingOwned(s) && CallsKept(s, t) && forall r :: Quiet(s.store, t.store, r)
    ensures PendingOwned(t)
  {
    forall task | t.store.View(task).permission.Some?
      ensures exists call :: Owner(t, task, t.store.View(task).permission.value.requestId, call)
    {
      var r := t.store.View(task).permission.value.requestId;
      assert Quiet(s.store, t.store, r);
      assert IsPending(t.store.View(task), r);
      var call :| Owner(s, task, r, call);
      assert Owner(t, task, r, call);
    }
  }

  /** One call's invariant over a quiet step that keeps its context while it is needed. */
  lemma CallFrame(red: Redactor, s: State, t: State, c: Call, c': Call)
    requires CallInv(red, s, c) && c' == c.(pc := c'.pc, cell := c'.cell, senderLost := c'.senderLost, attempts := c'.attempts)
    requires Quiet(s.store, t.store, c.request.requestId)
    requires IsPending(t.store.View(c.task), c.request.requestId) && Live(s, c) ==> Live(t, c)
    requires PcInv(t, c')
    ensures CallInv(red, t, c')
  {
    var r := c.request.requestId;
    forall task ensures Count(PermissionAsked(r), t.store.Log(task)) == if task == c.task then (if c.committed then 1 else 0) else 0 {
      assert Count(PermissionAsked(r), t.store.Log(task)) == Count(PermissionAsked(r), s.store.Log(task));
    }
  }

  lemma PcInvGrows(s: State, t: State, c: Call)
    requires PcInv(s, c) && Grows(s.store, t.store) && (Live(s, c) ==> Live(t, c))
    ensures PcInv(t, c)
  {
    if c.pc.AutoResolved? || c.pc.Withdrawing? { EndedGrows(s.store, t.store, c.task, c.request.requestId); }
  }

  /** A call that did not move keeps its invariant over a quiet step that keeps its context. */
  lemma StillCall(red: Redactor, s: State, t: State, c: Call, c': Call)
    requires CallInv(red, s, c) && c' == c.(cell := c'.cell, senderLost := c'.senderLost)
    requires Quiet(s.store, t.store, c.request.requestId) && Grows(s.store, t.store) && (Live(s, c) ==> Live(t, c))
    ensures CallInv(red, t, c')
  {
    PcInvGrows(s, t, c);
    CallFrame(red, s, t, c, c');
  }

  /** Steps that leave contexts and calls alone and are quiet. */
  lemma StoreKeeps(red: Redactor, s: State, t: State)
    requires Inv(red, s) && t == s.(clock := t.clock, store := t.store)
    requires t.store.Valid() && InboxSound(t.store) && Grows(s.store, t.store) && forall r :: Quiet(s.store, t.store, r)
    ensures Inv(red, t)
  {
    hide CallInv, Quiet, PcInv, DraftOk;
    ShapeFrame(s, t);
    OwnedFrame(s, t);
    forall call | Unique(t, call) ensures CallInv(red, t, t.calls[call]) {
      StillUnique(s, t, call);
      StillCall(red, s, t, s.calls[call], t.calls[call]);
    }
  }

  ghost predicate SameButCells(s: State, t: State) {
    && t == s.(waiters := t.waiters, calls := t.calls) && t.calls.Keys == s.calls.Keys
    && forall d :: d in s.calls ==> t.calls[d] == s.calls[d].(cell := t.calls[d].cell, senderLost := t.calls[d].senderLost)
  }

  lemma SameDraft(c: Call, c': Call)
    requires DraftOk(c) && c' == c.(cell := c'.cell, senderLost := c'.senderLost)
    ensures DraftOk(c')
  {
  }

  /** Waiters and channels do not matter here. */
  lemma CellsKeep(red: Redactor, s: State, t: State)
    requires Inv(red, s) && SameButCells(s, t)
    ensures Inv(red, t)
  {
    hide CallInv, Quiet, DraftOk, Owned, PendingOwned, InboxSound;
    forall c | c in t.calls ensures DraftOk(t.calls[c]) { SameDraft(s.calls[c], t.calls[c]); }
    ShapeFrame(s, t);
    forall r ensures Quiet(s.store, t.store, r) { QuietSame(s.store, t.store, r); }
    OwnedFrame(s, t);
    forall call | Unique(t, call) ensures CallInv(red, t, t.calls[call]) {
      StillUnique(s, t, call);
      StillCall(red, s, t, s.calls[call], t.calls[call]);
    }
  }

  lemma CancelSame(s: State, r: RequestId)
    ensures SameButCells(s, Cancel(s, r))
  {
  }

  lemma TakeSame(s: State, r: RequestId, option: string)
    ensures SameButCells(s, TakeWaiter(s, r, option))
  {
  }

  lemma SendSame(s: State, held: Option<(CallId, EngineDecision)>)
    ensures SameButCells(s, if held.Some? then SetCell(s, held.value.0, held.value.1) else s)
  {
  }

  lemma SetPcKeeps(red: Redactor, s: State, call: CallId, pc: Pc)
    requires Inv(red, s) && call in s.calls && DraftOk(s.calls[call].(pc := pc))
    requires Unique(s, call) ==> PcInv(s, s.calls[call].(pc := pc))
    ensures Inv(red, SetPc(s, call, pc))
  {
    hide CallInv, Quiet, DraftOk, Owned, PendingOwned, InboxSound;
    var t := SetPc(s, call, pc);
    ShapeFrame(s, t);
    forall r ensures Quiet(s.store, t.store, r) { QuietSame(s.store, t.store, r); }
    OwnedFrame(s, t);
    forall d | Unique(t, d) ensures CallInv(red, t, t.calls[d]) {
      StillUnique(s, t, d);
      if d == call { MovedCall(red, s, t, s.calls[call], pc); } else { StillCall(red, s, t, s.calls[d], t.calls[d]); }
    }
  }

  lemma MovedCall(red: Redactor, s: State, t: State, c: Call, pc: Pc)
    requires CallInv(red, s, c) && PcInv(s, c.(pc := pc)) && t.store == s.store && t.contexts == s.contexts
    requires Quiet(s.store, t.store, c.request.requestId)
    ensures CallInv(red, t, c.(pc := pc))
  {
    PcInvGrows(s, t, c.(pc := pc));
    CallFrame(red, s, t, c, c.(pc := pc));
  }

  /** The context of `r` is not needed any more by its call. */
  ghost predicate Settled(s: State, c: Call) {
    !IsPending(s.store.View(c.task), c.request.requestId) && !c.pc.Judging? && !c.pc.Committing?
  }

  lemma ForgottenCall(red: Redactor, s: State, t: State, c: Call, r: RequestId)
    requires CallInv(red, s, c) && t == ForgetContext(s, r) && (c.request.requestId == r ==> Settled(s, c))
    requires Quiet(s.store, t.store, c.request.requestId)
    ensures CallInv(red, t, c)
  {
    assert PcInv(s, c);
    CallFrame(red, s, t, c, c);
  }

  lemma ForgetKeeps(red: Redactor, s: State, r: RequestId)
    requires Inv(red, s)
    requires forall d :: Unique(s, d) && s.calls[d].request.requestId == r ==> Settled(s, s.calls[d])
    ensures Inv(red, ForgetContext(s, r))
  {
    hide CallInv, Quiet, DraftOk, Owned, PendingOwned, InboxSound;
    var t := ForgetContext(s, r);
    ShapeFrame(s, t);
    forall q ensures Quiet(s.store, t.store, q) { QuietSame(s.store, t.store, q); }
    OwnedFrame(s, t);
    forall d | Unique(t, d) ensures CallInv(red, t, t.calls[d]) {
      StillUnique(s, t, d);
      ForgottenCall(red, s, t, s.calls[d], r);
    }
  }

  lemma ThreadsKeep(red: Redactor, s: State, t: State)
    requires Inv(red, s) && t == s.(resolvers := t.resolvers, completers := t.completers)
    requires forall th :: th in t.resolvers ==> (th in s.resolvers && t.resolvers[th] == s.resolvers[th]) || ResolverOk(t, t.resolvers[th])
    requires forall th :: th in t.completers ==> Ended(s.store, t.completers[th].task, t.completers[th].requestId)
    ensures Inv(red, t)
  {
    hide CallInv, Quiet, PcInv, DraftOk;
    ShapeFrame(s, t);
    forall q ensures Quiet(s.store, t.store, q) { QuietSame(s.store, t.store, q); }
    OwnedFrame(s, t);
    forall d | Unique(t, d) ensures CallInv(red, t, t.calls[d]) {
      StillUnique(s, t, d);
      StillCall(red, s, t, s.calls[d], t.calls[d]);
    }
  }

  /** Once a request ended in any stream, a unique call with its id is settled. */
  lemma EndedSettles(red: Redactor, s: State, task: TaskId, r: RequestId, d: CallId)
    requires Inv(red, s) && Ended(s.store, task, r) && Unique(s, d) && s.calls[d].request.requestId == r
    ensures Settled(s, s.calls[d])
  {
    var c := s.calls[d];
    EndedWasAsked(s.store, task, r);
    assert Count(PermissionAsked(r), s.store.Log(task)) == if task == c.task then (if c.committed then 1 else 0) else 0;
    EndedNotPending(s.store, task, r);
    assert DraftOk(c);
  }

  // ----- other writers -----

  lemma OtherAppendKeeps(red: Redactor, s: State, t: State, task: TaskId, source: Source, events: seq<TaskEvent>)
    requires Inv(red, s) && source != PermissionBroker && AcceptableBatch(source, events)
    requires Append(s.store, task, events).Some? && t == s.(store := Append(s.store, task, events).value)
    ensures Inv(red, t)
  {
    hide CallInv, Quiet, PendingOwned, Append;
    AppendResult(s.store, task, events);
    AppendedGrows(s.store, t.store, task, events);
    InboxGrows(s.store, t.store);
    forall r ensures Quiet(s.store, t.store, r) { QuietAppend(s.store, t.store, task, events, r); }
    StoreKeeps(red, s, t);
  }

  lemma OtherCommandKeeps(red: Redactor, s: State, t: State, c: StoreCommand, decision: Decision)
    requires Inv(red, s) && c.source != PermissionBroker && c.payload.SteeringPayload?
        && t == s.(store := Transact(s.store, c, None, decision).store)
    ensures Inv(red, t)
  {
    hide CallInv, Quiet, PendingOwned, Transact;
    TransactSound(s.store, c, None, decision);
    forall r ensures Quiet(s.store, t.store, r) { QuietTransact(s.store, c, None, decision, r); }
    StoreKeeps(red, s, t);
  }

  lemma OtherKeeps(red: Redactor, s: State, step: Step)
    requires Inv(red, s) && OtherStep(s, step).Some?
    ensures Inv(red, OtherStep(s, step).value)
  {
    hide CallInv, Quiet, PendingOwned, Shape, Transact, AcceptableBatch;
    var t := OtherStep(s, step).value;
    match step
    case Tick(_) =>
      forall r ensures Quiet(s.store, t.store, r) { QuietSame(s.store, t.store, r); }
      TickKeeps(red, s, t);
    case OtherAppend(task, source, events) => OtherAppendKeeps(red, s, t, task, source, events);
    case OtherCommand(task, client, key, text, expected, source, decision) =>
      OtherCommandKeeps(red, s, t, StoreCommand(task, ClientKey(client, key), SteeringPayload(text), expected, source), decision);
    case _ =>
  }

  lemma TickKeeps(red: Redactor, s: State, t: State)
    requires Inv(red, s) && t == s.(clock := t.clock) && forall r :: Quiet(s.store, t.store, r)
    ensures Inv(red, t)
  {
    hide CallInv, Quiet, PendingOwned;
    StoreKeeps(red, s, t);
  }

  // ----- a call begins, prepares and reserves -----

  lemma UnaskedNotPending(store: Store, task: TaskId, r: RequestId)
    requires store.Valid() && Count(PermissionAsked(r), store.Log(task)) == 0
    ensures !IsPending(store.View(task), r)
  {
    LogReplays(store, task);
    PermissionEndsOnce(store.Log(task), r);
  }

  lemma BeginForm(s: State, call: CallId, task: TaskId, segment: SegmentId, request: EngineRequest, authority: Authority, timeout: nat)
    requires Begin(s, call, task, segment, request, authority, timeout).Some?
    ensures var t := Begin(s, call, task, segment, request, authority, timeout).value;
            && call !in s.calls && call in t.calls && t == s.(waiters := t.waiters, calls := s.calls[call := t.calls[call]])
            && DraftOk(t.calls[call]) && t.calls[call].draft.None? && !t.calls[call].committed
            && (t.calls[call].pc.Registered? || t.calls[call].pc.Done?)
            && t.calls[call].newId == NeverAsked(s.store, t.calls[call].request.requestId)
  {
  }

  lemma BeginKeeps(red: Redactor, s: State, t: State, call: CallId)
    requires Inv(red, s) && call !in s.calls && call in t.calls && t == s.(waiters := t.waiters, calls := s.calls[call := t.calls[call]])
    requires DraftOk(t.calls[call]) && t.calls[call].draft.None? && !t.calls[call].committed
    requires t.calls[call].pc.Registered? || t.calls[call].pc.Done?
    requires t.calls[call].newId == NeverAsked(s.store, t.calls[call].request.requestId)
    ensures Inv(red, t)
  {
    hide Quiet, DraftOk, RedactedProjection, Owned, PendingOwned, InboxSound;
    ShapeFrame(s, t);
    forall q ensures Quiet(s.store, t.store, q) { QuietSame(s.store, t.store, q); }
    OwnedFrame(s, t);
    forall d | Unique(t, d) ensures CallInv(red, t, t.calls[d]) {
      if d == call {
        var c := t.calls[call];
        UnaskedNotPending(t.store, c.task, c.request.requestId);
      } else {
        StillUnique(s, t, d);
        StillCall(red, s, t, s.calls[d], t.calls[d]);
      }
    }
  }

  lemma PrepareKeeps(red: Redactor, s: State, t: State, call: CallId, x: Context, expected: nat)
    requires Inv(red, s) && call in s.calls && s.calls[call].pc.Registered?
    requires x.task == s.calls[call].task && x.revision == REQUEST_REVISION
    requires t == s.(calls := s.calls[call := s.calls[call].(pc := Prepared(x, expected), draft := Some(x))])
    ensures Inv(red, t)
  {
    hide Quiet, RedactedProjection, Owned, PendingOwned, InboxSound;
    assert DraftOk(s.calls[call]);
    ShapeFrame(s, t);
    forall q ensures Quiet(s.store, t.store, q) { QuietSame(s.store, t.store, q); }
    OwnedFrame(s, t);
    forall d | Unique(t, d) ensures CallInv(red, t, t.calls[d]) {
      StillUnique(s, t, d);
      if d == call {
        var c := s.calls[call];
        assert AskedOnce(s.store, c.task, c.request.requestId, 0);
        UnaskedNotPending(s.store, c.task, c.request.requestId);
      } else {
        StillCall(red, s, t, s.calls[d], t.calls[d]);
      }
    }
  }

  lemma AddContextKeeps(red: Redactor, s: State, call: CallId)
    requires Inv(red, s) && call in s.calls && s.calls[call].draft.Some? && s.calls[call].request.requestId !in s.contexts
    ensures Inv(red, s.(contexts := s.contexts[s.calls[call].request.requestId := s.calls[call].draft.value]))
  {
    hide CallInv, Quiet, PcInv, DraftOk;
    var r := s.calls[call].request.requestId;
    var t := s.(contexts := s.contexts[r := s.calls[call].draft.value]);
    assert Owned(t, r, t.contexts[r]);
    ShapeFrame(s, t);
    forall q ensures Quiet(s.store, t.store, q) { QuietSame(s.store, t.store, q); }
    OwnedFrame(s, t);
    forall d | Unique(t, d) ensures CallInv(red, t, t.calls[d]) {
      StillUnique(s, t, d);
      StillCall(red, s, t, s.calls[d], t.calls[d]);
    }
  }

  lemma ReserveKeeps(red: Redactor, s: State, call: CallId)
    requires Inv(red, s) && call in s.calls && ReserveContext(s, call).Some?
    ensures Inv(red, ReserveContext(s, call).value)
  {
    var c := s.calls[call];
    assert DraftOk(c);
    if !ValidDraft(s.clock, c.pc.context) || c.request.requestId in s.contexts {
      SetPcKeeps(red, s, call, Cancelling);
    } else {
      AddContextKeeps(red, s, call);
      var s1 := s.(contexts := s.contexts[c.request.requestId := c.pc.context]);
      SetPcKeeps(red, s1, call, Judging(c.pc.context, c.pc.expected));
      assert ReserveContext(s, call).value == SetPc(s1, call, Judging(c.pc.context, c.pc.expected));
    }
  }

  // ----- the commit -----

  /** The request of `c` is now recorded once; unless a saved policy ended it, it is pending. */
  ghost predicate RequestRecorded(red: Redactor, b: Store, c: Call, x: Context, saved: Option<string>) {
    var r := c.request.requestId;
    && AskedOnce(b, c.task, r, 1)
    && (if saved.Some? then Ended(b, c.task, r)
        else b.View(c.task).permission == Some(RedactedProjection(red, r, x, c.request.preview, None)))
  }

  function RequestEvents(red: Redactor, r: RequestId, x: Context, preview: string, saved: Option<string>): seq<TaskEvent> {
    [PermissionRequested(RedactedProjection(red, r, x, preview, saved))]
    + (if saved.Some? then [PermissionResolved(r, x.revision, saved.value)] else [])
  }

  lemma CountRequest(red: Redactor, r: RequestId, x: Context, preview: string, saved: Option<string>, offset: nat)
    ensures Count(PermissionAsked(r), Stamp(RequestEvents(red, r, x, preview, saved), offset)) == 1
    ensures saved.Some? ==> Count(PermissionAnswered(r), Stamp(RequestEvents(red, r, x, preview, saved), offset)) == 1
  {
    var asked := [Envelope(offset + 1, PermissionRequested(RedactedProjection(red, r, x, preview, saved)))];
    CountOne(PermissionAsked(r), asked[0]);
    CountOne(PermissionAnswered(r), asked[0]);
    var es := Stamp(RequestEvents(red, r, x, preview, saved), offset);
    if saved.Some? {
      var answered := [Envelope(offset + 2, PermissionResolved(r, x.revision, saved.value))];
      CountOne(PermissionAsked(r), answered[0]);
      CountOne(PermissionAnswered(r), answered[0]);
      assert es == asked + answered;
      CountConcat(PermissionAsked(r), asked, answered);
      CountConcat(PermissionAnswered(r), asked, answered);
    } else {
      assert es == asked;
    }
  }

  lemma RequestAppended(red: Redactor, a: Store, b: Store, c: Call, x: Context, saved: Option<string>)
    requires a.Valid() && b.Valid() && AskedOnce(a, c.task, c.request.requestId, 0)
    requires Appended(a, b, c.task, RequestEvents(red, c.request.requestId, x, c.request.preview, saved))
    ensures RequestRecorded(red, b, c, x, saved)
  {
    var r := c.request.requestId;
    var events := RequestEvents(red, r, x, c.request.preview, saved);
    var es := Stamp(events, a.lastOffset);
    CountRequest(red, r, x, c.request.preview, saved, a.lastOffset);
    CountAppend(PermissionAsked(r), a, b, c.task, events);
    CountAppend(PermissionAnswered(r), a, b, c.task, events);
    forall t ensures Count(PermissionAsked(r), b.Log(t)) == if t == c.task then 1 else 0 {
      if t != c.task { assert b.Log(t) == a.Log(t); }
      assert Count(PermissionAsked(r), a.Log(t)) == 0;
    }
    if saved.None? {
      ViewAppend(a, b, c.task, events);
      assert es == [Envelope(a.lastOffset + 1, events[0])] && es[..0] == [];
      assert ReduceAll(a.View(c.task), es) == Reduce(a.View(c.task), es[0]);
    }
  }

  /** What the request transaction does to the store. */
  ghost predicate RequestEffect(red: Redactor, a: Store, tx: Tx, c: Call, x: Context, saved: Option<string>) {
    var r := c.request.requestId;
    && tx.store.Valid() && InboxSound(tx.store) && Grows(a, tx.store)
    && (forall q :: q != r ==> Quiet(a, tx.store, q))
    && (!tx.outcome.Accepted? ==> SameLogs(a, tx.store))
    && (tx.outcome.Accepted? && AskedOnce(a, c.task, r, 0) ==> RequestRecorded(red, tx.store, c, x, saved))
    && (forall t :: t != c.task ==> tx.store.Log(t) == a.Log(t))
    && (IsPending(tx.store.View(c.task), r) ==> tx.outcome.Accepted? || IsPending(a.View(c.task), r))
  }

  lemma RequestTxFacts(red: Redactor, s: State, c: Call, x: Context, saved: Option<string>, expected: nat, leaseHeld: bool)
    requires s.store.Valid() && InboxSound(s.store)
    ensures RequestEffect(red, s.store, RequestTx(red, s, c, x, saved, expected, leaseHeld), c, x, saved)
  {
    var r := c.request.requestId;
    var command := RequestCommand(red, c, x, saved, expected);
    var refusal := RequestRefusal(s.store.Log(c.task), r, leaseHeld);
    var decision := RequestDecision(red, s.clock, s.store.View(c.task), r, x, c.request.preview, saved);
    var tx := RequestTx(red, s, c, x, saved, expected, leaseHeld);
    TransactSound(s.store, command, refusal, decision);
    TransactLogs(s.store, command, refusal, decision);
    TransactInbox(s.store, command, refusal, decision);
    forall q | q != r ensures Quiet(s.store, tx.store, q) { QuietTransact(s.store, command, refusal, decision, q); }
    if !tx.outcome.Accepted? { assert tx.store.Log(c.task) == s.store.Log(c.task); }
    assert !Fresh(s.store, command) ==> EntrySound(s.store.Log(c.task), s.store.inbox[(command.task, command.key)]);
    if tx.outcome.Accepted? && AskedOnce(s.store, c.task, r, 0) {
      assert Count(PermissionAsked(r), s.store.Log(c.task)) == 0;
      assert decision.value == RequestEvents(red, r, x, c.request.preview, saved);
      RequestAppended(red, s.store, tx.store, c, x, saved);
    }
  }

  /** The commit step in terms of its effect on the streams. */
  ghost predicate CommitEffect(red: Redactor, s: State, t: State, call: CallId, tx: Tx) {
    && call in s.calls && s.calls[call].pc.Committing?
    && var c := s.calls[call];
       && RequestEffect(red, s.store, tx, c, c.pc.context, c.pc.saved)
       && t == s.(store := tx.store, calls := s.calls[call := c.(pc := AfterCommit(c.pc.context, c.pc.saved, c.pc.retries, tx.outcome),
                                                                 attempts := c.attempts + 1,
                                                                     committed := c.committed || tx.outcome.Accepted?)])
  }

  lemma CommitForm(red: Redactor, s: State, call: CallId, leaseHeld: bool) returns (tx: Tx)
    requires s.store.Valid() && InboxSound(s.store) && call in s.calls && Commit(red, s, call, leaseHeld).Some?
    ensures CommitEffect(red, s, Commit(red, s, call, leaseHeld).value, call, tx)
  {
    var c := s.calls[call];
    tx := RequestTx(red, s, c, c.pc.context, c.pc.saved, c.pc.expected, leaseHeld);
    RequestTxFacts(red, s, c, c.pc.context, c.pc.saved, c.pc.expected, leaseHeld);
  }

  lemma CommitDraft(c: Call, outcome: Outcome)
    requires DraftOk(c) && c.pc.Committing?
    ensures DraftOk(c.(pc := AfterCommit(c.pc.context, c.pc.saved, c.pc.retries, outcome),
        attempts := c.attempts + 1, committed := c.committed || outcome.Accepted?))
  {
  }

  lemma CommitShape(red: Redactor, s: State, t: State, call: CallId, tx: Tx)
    requires Shape(s) && CommitEffect(red, s, t, call, tx)
    ensures Shape(t)
  {
    hide Quiet, RequestRecorded, Ended;
    CommitDraft(s.calls[call], tx.outcome);
    forall c | c in t.calls ensures DraftOk(t.calls[c]) { if c != call { assert t.calls[c] == s.calls[c]; } }
    ShapeFrame(s, t);
  }

  lemma CommitOwned(red: Redactor, s: State, t: State, call: CallId, tx: Tx)
    requires PendingOwned(s) && CommitEffect(red, s, t, call, tx)
    ensures PendingOwned(t)
  {
    forall task | t.store.View(task).permission.Some?
      ensures exists d :: Owner(t, task, t.store.View(task).permission.value.requestId, d)
    {
      var q := t.store.View(task).permission.value.requestId;
      assert IsPending(t.store.View(task), q);
      if task != s.calls[call].task { assert t.store.Log(task) == s.store.Log(task); }
      if q == s.calls[call].request.requestId && task == s.calls[call].task && tx.outcome.Accepted? {
        assert Owner(t, task, q, call);
      } else {
        assert IsPending(s.store.View(task), q) by {
          if q != s.calls[call].request.requestId { assert Quiet(s.store, t.store, q); }
        }
        var d :| Owner(s, task, q, d);
        assert Owner(t, task, q, d);
      }
    }
  }

  lemma CommitCall(red: Redactor, s: State, t: State, call: CallId, tx: Tx)
    requires Shape(s) && CommitEffect(red, s, t, call, tx) && CallInv(red, s, s.calls[call])
    ensures CallInv(red, t, t.calls[call])
  {
    var c := s.calls[call];
    var r := c.request.requestId;
    assert DraftOk(c);
    if tx.outcome.Accepted? {
      assert AskedOnce(s.store, c.task, r, 0);
      if c.pc.saved.Some? { EndedNotPending(t.store, c.task, r); }
    } else {
      QuietSame(s.store, t.store, r);
      CommitRefused(red, s, t, c, t.calls[call]);
    }
  }

  lemma CommitRefused(red: Redactor, s: State, t: State, c: Call, c': Call)
    requires CallInv(red, s, c) && c.pc.Committing? && c' == c.(pc := c'.pc, attempts := c'.attempts)
    requires Quiet(s.store, t.store, c.request.requestId) && t.contexts == s.contexts && (c'.pc.Committing? || c'.pc.Releasing?)
    ensures CallInv(red, t, c')
  {
    CallFrame(red, s, t, c, c');
  }

  lemma CommitKeeps(red: Redactor, s: State, t: State, call: CallId, tx: Tx)
    requires Inv(red, s) && CommitEffect(red, s, t, call, tx)
    ensures Inv(red, t)
  {
    hide CallInv, PendingOwned, Owned, Shape, RequestRecorded;
    CommitShape(red, s, t, call, tx);
    CommitOwned(red, s, t, call, tx);
    forall d | Unique(t, d) ensures CallInv(red, t, t.calls[d]) {
      StillUnique(s, t, d);
      if d == call { CommitCall(red, s, t, call, tx); } else {
        StillCall(red, s, t, s.calls[d], t.calls[d]);
      }
    }
  }

  // ----- the call's other steps -----

  lemma QuietInvalidate(red: Redactor, s: State, task: TaskId, r: RequestId, revision: nat, expected: nat, reason: string)
    requires s.store.Valid() && InboxSound(s.store)
    ensures var tx := InvalidateTx(red, s, task, r, revision, expected, reason);
            && tx.store.Valid() && InboxSound(tx.store) && Grows(s.store, tx.store) && (forall q :: Quiet(s.store, tx.store, q))
            && (tx.outcome.Accepted? ==> Ended(tx.store, task, r))
  {
    InvalidateSound(red, s, task, r, revision, expected, reason);
    forall q ensures Quiet(s.store, InvalidateTx(red, s, task, r, revision, expected, reason).store, q) {
      QuietTransact(s.store,
          StoreCommand(task, PermissionInvalidateKey(r, revision, expected),
              PermissionInvalidatePayload(r, revision, red(reason)), expected, PermissionBroker),
                    None, InvalidateDecision(s.store.View(task), r, revision, Ok([])), q);
    }
  }

  lemma InvalidateOwnKeeps(red: Redactor, s: State, call: CallId)
    requires Inv(red, s) && call in s.calls && InvalidateOwn(red, s, call).Some?
    ensures Inv(red, InvalidateOwn(red, s, call).value)
  {
    hide InvalidateTx, CallInv, PendingOwned, Quiet;
    var c := s.calls[call];
    assert DraftOk(c);
    QuietInvalidate(red, s, c.task, c.request.requestId, REQUEST_REVISION, c.pc.expected, EXPIRED_REASON);
    var tx := InvalidateTx(red, s, c.task, c.request.requestId, REQUEST_REVISION, c.pc.expected, EXPIRED_REASON);
    var s1 := s.(store := tx.store);
    StoreKeeps(red, s, s1);
    SetPcKeeps(red, s1, call, AfterInvalidate(c.pc.retries, tx.outcome));
    assert InvalidateOwn(red, s, call).value == SetPc(s1, call, AfterInvalidate(c.pc.retries, tx.outcome));
  }

  /** A call's own forgetting of its context is safe once its request ended or was never recorded. */
  lemma ForgetOwnKeeps(red: Redactor, s: State, call: CallId, pc: Pc)
    requires Inv(red, s) && call in s.calls && DraftOk(s.calls[call].(pc := pc)) && !pc.Judging? && !pc.Committing?
    requires Unique(s, call) ==> PcInv(s, s.calls[call].(pc := pc))
    requires Unique(s, call) ==> Settled(s, s.calls[call])
    ensures Inv(red, SetPc(ForgetContext(s, s.calls[call].request.requestId), call, pc))
  {
    var r := s.calls[call].request.requestId;
    ForgetKeeps(red, s, r);
    SetPcKeeps(red, ForgetContext(s, r), call, pc);
  }

  lemma OwnSettled(red: Redactor, s: State, call: CallId)
    requires Inv(red, s) && Unique(s, call)
    requires s.calls[call].pc.AutoResolved? || s.calls[call].pc.Withdrawing? || s.calls[call].pc.Releasing?
    ensures Settled(s, s.calls[call])
  {
    var c := s.calls[call];
    assert DraftOk(c) && CallInv(red, s, c);
    if c.pc.Releasing? { UnaskedNotPending(s.store, c.task, c.request.requestId); } else { EndedSettles(red, s,
        c.task, c.request.requestId, call); }
  }

  lemma DropOwnKeeps(red: Redactor, s: State, call: CallId)
    requires Inv(red, s) && call in s.calls && s.calls[call].pc.AutoResolved?
    ensures Inv(red, SetPc(ForgetContext(s, s.calls[call].request.requestId), call, Taking(s.calls[call].pc.option, false)))
  {
    assert DraftOk(s.calls[call]);
    if Unique(s, call) { OwnSettled(red, s, call); }
    ForgetOwnKeeps(red, s, call, Taking(s.calls[call].pc.option, false));
  }

  lemma WithdrawKeeps(red: Redactor, s: State, call: CallId)
    requires Inv(red, s) && call in s.calls && s.calls[call].pc.Withdrawing?
    ensures Inv(red, SetPc(ForgetContext(s, s.calls[call].request.requestId), call, Withdrawing(true)))
    ensures Inv(red, SetPc(Cancel(s, s.calls[call].request.requestId), call, Cancelling))
  {
    var r := s.calls[call].request.requestId;
    assert DraftOk(s.calls[call]);
    if Unique(s, call) {
      OwnSettled(red, s, call);
      assert PcInv(s, s.calls[call]);
    }
    ForgetOwnKeeps(red, s, call, Withdrawing(true));
    CancelSame(s, r);
    CellsKeep(red, s, Cancel(s, r));
    SetPcKeeps(red, Cancel(s, r), call, Cancelling);
  }

  lemma ReleaseKeeps(red: Redactor, s: State, call: CallId)
    requires Inv(red, s) && call in s.calls && s.calls[call].pc.Releasing?
    ensures Inv(red, SetPc(ForgetContext(s, s.calls[call].request.requestId), call, Cancelling))
    ensures Inv(red, SetPc(s, call, Cancelling))
  {
    assert DraftOk(s.calls[call]);
    if Unique(s, call) { OwnSettled(red, s, call); }
    ForgetOwnKeeps(red, s, call, Cancelling);
    SetPcKeeps(red, s, call, Cancelling);
  }

  lemma CancelOwnKeeps(red: Redactor, s: State, call: CallId)
    requires Inv(red, s) && call in s.calls && s.calls[call].pc.Cancelling?
    ensures Inv(red, SetPc(Cancel(s, s.calls[call].request.requestId), call, Done(DenyOnce)))
  {
    var r := s.calls[call].request.requestId;
    assert DraftOk(s.calls[call]);
    CancelSame(s, r);
    CellsKeep(red, s, Cancel(s, r));
    SetPcKeeps(red, Cancel(s, r), call, Done(DenyOnce));
  }

  lemma TakeOwnKeeps(red: Redactor, s: State, call: CallId)
    requires Inv(red, s) && call in s.calls && s.calls[call].pc.Taking?
    ensures var c := s.calls[call]; var r := c.request.requestId;
            Inv(red, SetPc(TakeWaiter(s, r, c.pc.option), call, Sending(TakenHold(s, r, c.pc.option), c.pc.final)))
  {
    var c := s.calls[call];
    var r := c.request.requestId;
    assert DraftOk(c);
    TakeSame(s, r, c.pc.option);
    CellsKeep(red, s, TakeWaiter(s, r, c.pc.option));
    SetPcKeeps(red, TakeWaiter(s, r, c.pc.option), call, Sending(TakenHold(s, r, c.pc.option), c.pc.final));
  }

  lemma SendOwnKeeps(red: Redactor, s: State, call: CallId, next: Pc)
    requires Inv(red, s) && call in s.calls && s.calls[call].pc.Sending? && (next.Polling? || next.Waiting?)
    ensures var held := s.calls[call].pc.held;
            Inv(red, SetPc(if held.Some? then SetCell(s, held.value.0, held.value.1) else s, call, next))
  {
    var held := s.calls[call].pc.held;
    assert DraftOk(s.calls[call]);
    var s1 := if held.Some? then SetCell(s, held.value.0, held.value.1) else s;
    SendSame(s, held);
    CellsKeep(red, s, s1);
    SetPcKeeps(red, s1, call, next);
  }

  lemma JudgeKeeps(red: Redactor, s: State, call: CallId, saved: Option<string>)
    requires Inv(red, s) && CallStep(red, s, Judge(call, saved), call).Some?
    ensures Inv(red, CallStep(red, s, Judge(call, saved), call).value)
  {
    var c := s.calls[call];
    assert DraftOk(c);
    assert Unique(s, call) ==> PcInv(s, c);
    SetPcKeeps(red, s, call, Releasing(c.pc.context));
    SetPcKeeps(red, s, call, Committing(c.pc.context, saved, c.pc.expected, VERSION_RETRIES));
  }

  /** Where a committed call can go on its own. */
  predicate Onward(pc: Pc) {
    pc.Expired? || pc.Invalidating? || pc.Taking? || pc.Cancelling? || pc.Done?
  }

  lemma OnwardKeeps(red: Redactor, s: State, call: CallId, pc: Pc)
    requires Inv(red, s) && call in s.calls && s.calls[call].committed && Onward(pc)
    ensures Inv(red, SetPc(s, call, pc))
  {
    assert DraftOk(s.calls[call]);
    SetPcKeeps(red, s, call, pc);
  }

  /** The steps that only move a committed call. */
  lemma OwnStepForm(red: Redactor, s: State, step: Step, call: CallId)
    requires CallStep(red, s, step, call).Some?
    requires step.Receive? || step.Expire? || step.LoseSender? || step.ReadVersion? || step.ReadResolution? || step.Poll?
    ensures var t := CallStep(red, s, step, call).value;
            call in t.calls && t == SetPc(s, call, t.calls[call].pc) && Onward(t.calls[call].pc)
    ensures var pc := s.calls[call].pc; pc.Waiting? || pc.Expired? || pc.ReadingStore? || pc.Polling?
  {
  }

  lemma OwnStepKeeps(red: Redactor, s: State, step: Step, call: CallId)
    requires Inv(red, s) && CallStep(red, s, step, call).Some?
    requires step.Receive? || step.Expire? || step.LoseSender? || step.ReadVersion? || step.ReadResolution? || step.Poll?
    ensures Inv(red, CallStep(red, s, step, call).value)
  {
    OwnStepForm(red, s, step, call);
    assert DraftOk(s.calls[call]);
    OnwardKeeps(red, s, call, CallStep(red, s, step, call).value.calls[call].pc);
  }

  lemma SoundStore(red: Redactor, s: State)
    requires Inv(red, s)
    ensures s.store.Valid() && InboxSound(s.store)
  {
  }

  lemma CallStepKeeps(red: Redactor, s: State, step: Step, call: CallId)
    requires Inv(red, s) && ActingCall(step) == Some(call) && CallStep(red, s, step, call).Some?
    ensures Inv(red, CallStep(red, s, step, call).value)
  {
    hide Inv, RequestTx, InvalidateTx, Cancel, TakeWaiter, TakenHold, SetCell, ResolutionOption, ReserveContext, Commit, InvalidateOwn;
    SoundStore(red, s);
    match step
    case Prepare(_) => PrepareKeeps(red, s, CallStep(red, s, step, call).value, call,
        DraftContext(s.calls[call], s.clock), s.store.Version(s.calls[call].task));
    case Reserve(_) => ReserveKeeps(red, s, call);
    case Judge(_, saved) => JudgeKeeps(red, s, call, saved);
    case TryCommit(_, leaseHeld) =>
      var tx := CommitForm(red, s, call, leaseHeld);
      CommitKeeps(red, s, CallStep(red, s, step, call).value, call, tx);
    case DropOwnContext(_) => DropOwnKeeps(red, s, call);
    case TakeOwn(_) => TakeOwnKeeps(red, s, call);
    case SendOwn(_) => SendOwnKeeps(red, s, call, if s.calls[call].pc.final then Polling else Waiting);
    case TryInvalidate(_) => InvalidateOwnKeeps(red, s, call);
    case Withdraw(_) => WithdrawKeeps(red, s, call);
    case ReleaseOwn(_) => ReleaseKeeps(red, s, call);
    case CancelOwn(_) => CancelOwnKeeps(red, s, call);
    case _ => OwnStepKeeps(red, s, step, call);
  }

  // ----- the other threads -----

  lemma StartCompleterKeeps(red: Redactor, s: State, thread: ThreadId, tx: Tx, task: TaskId, r: RequestId, notice: Option<string>)
    requires Inv(red, s) && tx.store.Valid() && InboxSound(tx.store) && Grows(s.store, tx.store) && forall q :: Quiet(s.store, tx.store, q)
    requires tx.outcome.Accepted? ==> Ended(tx.store, task, r)
    ensures Inv(red, StartCompleter(s, thread, tx, task, r, notice))
  {
    var s1 := s.(store := tx.store);
    StoreKeeps(red, s, s1);
    if tx.outcome.Accepted? { ThreadsKeep(red, s1, StartCompleter(s, thread, tx, task, r, notice)); }
  }

  lemma ResolveFacts(red: Redactor, s: State, w: Resolver, context: Option<Context>, leaseHeld: bool)
    requires s.store.Valid() && InboxSound(s.store)
    ensures var tx := ResolveTx(red, s, w, context, leaseHeld);
            && tx.store.Valid() && InboxSound(tx.store) && Grows(s.store, tx.store) && (forall q :: Quiet(s.store, tx.store, q))
            && (tx.outcome.Accepted? ==> Ended(tx.store, w.input.task, w.input.requestId))
  {
    var command := StoreCommand(w.input.task, w.key,
        PermissionResolvePayload(w.input.requestId, w.input.revision, w.input.option), w.input.expected, PermissionBroker);
    var refusal := if context.Some? && !leaseHeld then Some(AuthorityNotHeld) else None;
    var decision := ResolveDecision(red, s.clock, s.store.View(w.input.task), context, w.input);
    TransactSound(s.store, command, refusal, decision);
    var tx := Transact(s.store, command, refusal, decision);
    forall q ensures Quiet(s.store, tx.store, q) { QuietTransact(s.store, command, refusal, decision, q); }
    if tx.outcome.Accepted? {
      HoldsCounted(PermissionAnswered(w.input.requestId), tx.store.Log(w.input.task),
          PermissionResolved(w.input.requestId, w.input.revision, w.input.option));
    }
  }

  /** An accepted steering command has invalidated the permission, unless its acceptance was replayed. */
  lemma SteerFacts(s: State, step: Step)
    requires s.store.Valid() && InboxSound(s.store) && step.Steer?
    ensures var tx := SteerTx(s, step.task, step.client, step.key, step.text, step.r, step.revision, step.expected, step.extra);
            && tx.store.Valid() && InboxSound(tx.store) && Grows(s.store, tx.store) && (forall q :: Quiet(s.store, tx.store, q))
            && (tx.outcome.Accepted? && !CrossReplay(s, step) ==> Ended(tx.store, step.task, step.r))
            && (CrossReplay(s, step) ==> tx.store == s.store && tx.outcome.Accepted?)
  {
    var command := StoreCommand(step.task, ClientKey(step.client, step.key), SteeringPayload(step.text), step.expected, Supervisor);
    var decision := InvalidateDecision(s.store.View(step.task), step.r, step.revision, step.extra);
    TransactSound(s.store, command, None, decision);
    TransactLogs(s.store, command, None, decision);
    TransactInbox(s.store, command, None, decision);
    var tx := Transact(s.store, command, None, decision);
    forall q ensures Quiet(s.store, tx.store, q) { QuietTransact(s.store, command, None, decision, q); }
    if tx.outcome.Accepted? && Fresh(s.store, command) {
      AppendedHolds(s.store, tx.store, step.task, decision.value, 0);
      HoldsCounted(PermissionDropped(step.r), tx.store.Log(step.task), decision.value[0]);
    }
  }

  lemma DropContextKeeps(red: Redactor, s: State, thread: ThreadId)
    requires Inv(red, s) && thread in s.completers
    ensures var w := s.completers[thread];
            Inv(red, ForgetContext(s, w.requestId).(completers := s.completers[thread := w.(contextDropped := true)]))
  {
    var w := s.completers[thread];
    forall d | Unique(s, d) && s.calls[d].request.requestId == w.requestId ensures Settled(s, s.calls[d]) {
      EndedSettles(red, s, w.task, w.requestId, d);
    }
    ForgetKeeps(red, s, w.requestId);
    var s1 := ForgetContext(s, w.requestId);
    ThreadsKeep(red, s1, s1.(completers := s.completers[thread := w.(contextDropped := true)]));
  }

  lemma TakeThreadKeeps(red: Redactor, s: State, thread: ThreadId)
    requires Inv(red, s) && ThreadStep(red, s, Take(thread)).Some?
    ensures Inv(red, ThreadStep(red, s, Take(thread)).value)
  {
    hide Cancel, TakeWaiter, Ended, DraftOk, CallInv;
    var w := s.completers[thread];
    if w.notice.None? {
      CancelSame(s, w.requestId);
      CellsKeep(red, s, Cancel(s, w.requestId));
      ThreadsKeep(red, Cancel(s, w.requestId), Cancel(s, w.requestId).(completers := s.completers - {thread}));
    } else {
      var s1 := TakeWaiter(s, w.requestId, w.notice.value);
      TakeSame(s, w.requestId, w.notice.value);
      CellsKeep(red, s, s1);
      ThreadsKeep(red, s1, ThreadStep(red, s, Take(thread)).value);
    }
  }

  lemma SendThreadKeeps(red: Redactor, s: State, thread: ThreadId)
    requires Inv(red, s) && ThreadStep(red, s, Send(thread)).Some?
    ensures Inv(red, ThreadStep(red, s, Send(thread)).value)
  {
    hide SetCell, Ended, DraftOk, CallInv;
    var w := s.completers[thread];
    var s1 := if w.held.Some? then SetCell(s, w.held.value.0, w.held.value.1) else s;
    SendSame(s, w.held);
    CellsKeep(red, s, s1);
    ThreadsKeep(red, s1, s1.(completers := s.completers - {thread}));
  }

  lemma ClientStepKeeps(red: Redactor, s: State, step: Step)
    requires Inv(red, s) && ThreadStep(red, s, step).Some? && (step.StartResolve? || step.LookUp? || step.CommitResolve?)
    ensures Inv(red, ThreadStep(red, s, step).value)
  {
    hide DraftOk, CallInv, Quiet, Ended;
    var t := ThreadStep(red, s, step).value;
    match step
    case StartResolve(_, _, _, _, _) => ThreadsKeep(red, s, t);
    case LookUp(thread) =>
      var r := s.resolvers[thread].input.requestId;
      if r in s.contexts { StillOwned(s, t, r, s.contexts[r]); }
      ThreadsKeep(red, s, t);
    case CommitResolve(thread, leaseHeld) =>
      var w := s.resolvers[thread];
      ResolveFacts(red, s, w, w.context.value, leaseHeld);
      var s1 := s.(resolvers := s.resolvers - {thread});
      ThreadsKeep(red, s, s1);
      StartCompleterKeeps(red, s1, thread, ResolveTx(red, s, w, w.context.value, leaseHeld), w.input.task,
          w.input.requestId, Some(w.input.option));
    case _ =>
  }

  lemma ThreadStepKeeps(red: Redactor, s: State, step: Step)
    requires Inv(red, s) && ThreadStep(red, s, step).Some? && !CrossReplay(s, step)
    ensures Inv(red, ThreadStep(red, s, step).value)
  {
    match step
    case Invalidate(thread, task, r, revision, expected, reason) =>
      QuietInvalidate(red, s, task, r, revision, expected, reason);
      StartCompleterKeeps(red, s, thread, InvalidateTx(red, s, task, r, revision, expected, reason), task, r, None);
    case Steer(thread, task, client, key, text, r, revision, expected, extra) =>
      SteerFacts(s, step);
      StartCompleterKeeps(red, s, thread, SteerTx(s, task, client, key, text, r, revision, expected, extra), task, r, None);
    case DropContext(thread) => DropContextKeeps(red, s, thread);
    case Take(thread) => TakeThreadKeeps(red, s, thread);
    case Send(thread) => SendThreadKeeps(red, s, thread);
    case _ => if step.StartResolve? || step.LookUp? || step.CommitResolve? { ClientStepKeeps(red, s, step); }
  }

  lemma StepKeeps(red: Redactor, s: State, step: Step)
    requires Inv(red, s) && Apply(red, s, step).Some? && !CrossReplay(s, step)
    ensures Inv(red, Apply(red, s, step).value)
  {
    if step.Tick? || step.OtherAppend? || step.OtherCommand? {
      OtherKeeps(red, s, step);
    } else if step.StartDecide? {
      BeginForm(s, step.call, step.task, step.segment, step.request, step.authority, step.timeout);
      BeginKeeps(red, s, Apply(red, s, step).value, step.call);
    } else if ActingCall(step).Some? {
      CallStepKeeps(red, s, step, ActingCall(step).value);
    } else {
      ThreadStepKeeps(red, s, step);
    }
  }

  lemma {:induction false} RunKeeps(red: Redactor, s: State, steps: seq<Step>)
    requires Init(s) && RunSteps(red, s, steps).Some? && NoCrossReplay(red, s, steps)
    ensures Inv(red, RunSteps(red, s, steps).value)
  {
    if |steps| > 0 {
      var init := steps[..|steps| - 1];
      assert forall i :: 0 <= i < |init| ==> init[..i] == steps[..i];
      RunKeeps(red, s, init);
      StepKeeps(red, RunSteps(red, s, init).value, steps[|steps| - 1]);
    }
  }
}
