/**
 Permissions fail closed: in every interleaving, with reused ids, replayed
 commands and the race between timeout and notification, `decide` returns
 something other than DenyOnce only for an option that a recorded resolution of
 its request selected.
 */
module PermissionFailClosed {
  import opened Basics
  import opened TaskStream
  import opened StreamLaws
  import opened StoreLaws
  import opened PermissionProtocol
  import opened PermissionInbox

  ghost predicate ResolvedIn(log: seq<Envelope>, r: RequestId, option: string) {
    exists i :: 0 <= i < |log| && log[i].event.PermissionResolved? && log[i].event.requestId == r && log[i].event.option == option
  }

  /** Some stream holds a resolution of `r` that selected `option`. */
  ghost predicate Resolved(store: Store, r: RequestId, option: string) {
    exists t :: ResolvedIn(store.Log(t), r, option)
  }

  /** A decision is DenyOnce, or the decision of an option that was selected for this request. */
  ghost predicate Justified(store: Store, c: Call, d: EngineDecision) {
    d == DenyOnce || exists o :: o in c.options && c.options[o] == d && Resolved(store, c.request.requestId, o)
  }

  ghost predicate HeldOk(s: State, held: Option<(CallId, EngineDecision)>) {
    held.Some? ==> held.value.0 in s.calls && Justified(s.store, s.calls[held.value.0], held.value.1)
  }

  ghost predicate PcOk(s: State, c: Call, pc: Pc) {
    match pc
    case AutoResolved(_, o) => Resolved(s.store, c.request.requestId, o)
    case Taking(o, _) => Resolved(s.store, c.request.requestId, o)
    case Sending(held, _) => HeldOk(s, held)
    case Done(d) => Justified(s.store, c, d)
    case _ => true
  }

  ghost predicate CallOk(s: State, c: Call) {
    && c.options == DecisionMap(Presented(c.request, c.request.options))
    && (c.cell.Some? ==> Justified(s.store, c, c.cell.value))
    && PcOk(s, c, c.pc)
  }

  ghost predicate WaiterOk(s: State, r: RequestId, w: Waiter) {
    w.call in s.calls && s.calls[w.call].request.requestId == r && w.options == s.calls[w.call].options
  }

  ghost predicate CompleterOk(s: State, w: Completer) {
    (w.notice.Some? ==> Resolved(s.store, w.requestId, w.notice.value)) && HeldOk(s, w.held)
  }

  ghost predicate Inv(s: State) {
    && s.store.Valid() && InboxSound(s.store)
    && (forall c :: c in s.calls ==> CallOk(s, s.calls[c]))
    && (forall r :: r in s.waiters ==> WaiterOk(s, r, s.waiters[r]))
    && (forall th :: th in s.completers ==> CompleterOk(s, s.completers[th]))
  }

  // ----- everything only grows -----

  lemma ResolvedGrows(a: Store, b: Store, r: RequestId, option: string)
    requires Grows(a, b) && Resolved(a, r, option)
    ensures Resolved(b, r, option)
  {
    var t :| ResolvedIn(a.Log(t), r, option);
    var i :| 0 <= i < |a.Log(t)| && a.Log(t)[i].event.PermissionResolved? && a.Log(t)[i].event.requestId == r
        && a.Log(t)[i].event.option == option;
    assert a.Log(t)[i] == b.Log(t)[i];
    assert ResolvedIn(b.Log(t), r, option);
  }

  lemma JustifiedGrows(a: Store, b: Store, c: Call, c': Call, d: EngineDecision)
    requires Grows(a, b) && Justified(a, c, d) && c'.options == c.options && c'.request == c.request
    ensures Justified(b, c', d)
  {
    if d != DenyOnce {
      var o :| o in c.options && c.options[o] == d && Resolved(a, c.request.requestId, o);
      ResolvedGrows(a, b, c.request.requestId, o);
    }
  }

  ghost predicate SameCalls(s: State, t: State) {
    forall c :: c in s.calls ==> c in t.calls && t.calls[c].options == s.calls[c].options && t.calls[c].request == s.calls[c].request
  }

  lemma HeldGrows(s: State, t: State, held: Option<(CallId, EngineDecision)>)
    requires Grows(s.store, t.store) && SameCalls(s, t) && HeldOk(s, held)
    ensures HeldOk(t, held)
  {
    if held.Some? { JustifiedGrows(s.store, t.store, s.calls[held.value.0], t.calls[held.value.0], held.value.1); }
  }

  lemma PcGrows(s: State, t: State, c: Call, c': Call, pc: Pc)
    requires Grows(s.store, t.store) && SameCalls(s, t) && PcOk(s, c, pc) && c'.options == c.options && c'.request == c.request
    ensures PcOk(t, c', pc)
  {
    match pc
    case AutoResolved(_, o) => ResolvedGrows(s.store, t.store, c.request.requestId, o);
    case Taking(o, _) => ResolvedGrows(s.store, t.store, c.request.requestId, o);
    case Sending(held, _) => HeldGrows(s, t, held);
    case Done(d) => JustifiedGrows(s.store, t.store, c, c', d);
    case _ =>
  }

  lemma CallGrows(s: State, t: State, c: Call)
    requires Grows(s.store, t.store) && SameCalls(s, t) && CallOk(s, c)
    ensures CallOk(t, c)
  {
    if c.cell.Some? { JustifiedGrows(s.store, t.store, c, c, c.cell.value); }
    PcGrows(s, t, c, c, c.pc);
  }

  lemma CompleterGrows(s: State, t: State, w: Completer)
    requires Grows(s.store, t.store) && SameCalls(s, t) && CompleterOk(s, w)
    ensures CompleterOk(t, w)
  {
    if w.notice.Some? { ResolvedGrows(s.store, t.store, w.requestId, w.notice.value); }
    HeldGrows(s, t, w.held);
  }

  /** A step keeps the invariant if what it adds is justified. */
  lemma Frame(s: State, t: State)
    requires Inv(s) && Grows(s.store, t.store) && SameCalls(s, t) && t.store.Valid() && InboxSound(t.store)
    requires forall c :: c in t.calls ==> (c in s.calls && t.calls[c] == s.calls[c]) || CallOk(t, t.calls[c])
    requires forall r :: r in t.waiters ==> (r in s.waiters && t.waiters[r] == s.waiters[r]) || WaiterOk(t, r, t.waiters[r])
    requires forall th :: th in t.completers ==> (th in s.completers && t.completers[th] == s.completers[th]) || CompleterOk(t, t.completers[th])
    ensures Inv(t)
  {
    forall c | c in t.calls ensures CallOk(t, t.calls[c]) {
      if c in s.calls && t.calls[c] == s.calls[c] { CallGrows(s, t, s.calls[c]); }
    }
    forall th | th in t.completers ensures CompleterOk(t, t.completers[th]) {
      if th in s.completers && t.completers[th] == s.completers[th] { CompleterGrows(s, t, s.completers[th]); }
    }
  }

  // ----- the store -----

  lemma HoldsResolved(store: Store, task: TaskId, r: RequestId, revision: nat, option: string)
    requires Holds(store.Log(task), PermissionResolved(r, revision, option))
    ensures Resolved(store, r, option)
  {
    var i :| 0 <= i < |store.Log(task)| && store.Log(task)[i].event == PermissionResolved(r, revision, option);
    assert ResolvedIn(store.Log(task), r, option);
  }

  // ----- steps -----

  lemma OtherKeeps(s: State, step: Step)
    requires Inv(s) && OtherStep(s, step).Some?
    ensures Inv(OtherStep(s, step).value)
  {
    var t := OtherStep(s, step).value;
    match step
    case Tick(_) => Frame(s, t);
    case OtherAppend(task, source, events) =>
      AppendResult(s.store, task, events);
      AppendedGrows(s.store, t.store, task, events);
      InboxGrows(s.store, t.store);
      Frame(s, t);
    case OtherCommand(task, client, key, text, expected, source, decision) =>
      TransactSound(s.store, StoreCommand(task, ClientKey(client, key), SteeringPayload(text), expected, source), None, decision);
      Frame(s, t);
    case _ =>
  }

  lemma BeginKeeps(s: State, call: CallId, task: TaskId, segment: SegmentId, request: EngineRequest, authority: Authority, timeout: nat)
    requires Inv(s) && Begin(s, call, task, segment, request, authority, timeout).Some?
    ensures Inv(Begin(s, call, task, segment, request, authority, timeout).value)
  {
    hide Inv, NeverAsked, Resolved, DecisionMap, Presented;
    var t := Begin(s, call, task, segment, request, authority, timeout).value;
    AddCallKeeps(s, t, call);
  }

  lemma AddCallKeeps(s: State, t: State, call: CallId)
    requires Inv(s) && call !in s.calls && call in t.calls && CallOk(t, t.calls[call])
    requires t == s.(calls := s.calls[call := t.calls[call]], waiters := t.waiters)
    requires t.waiters == s.waiters || t.waiters == s.waiters[t.calls[call].request.requestId := Waiter(call, t.calls[call].options)]
    ensures Inv(t)
  {
    Frame(s, t);
  }

  lemma ChangeCallKeeps(s: State, t: State, call: CallId)
    requires Inv(s) && call in s.calls && call in t.calls && t == s.(calls := s.calls[call := t.calls[call]])
    requires t.calls[call].options == s.calls[call].options && t.calls[call].request == s.calls[call].request && CallOk(t, t.calls[call])
    ensures Inv(t)
  {
    Frame(s, t);
  }

  lemma SetPcKeeps(s: State, call: CallId, pc: Pc)
    requires Inv(s) && call in s.calls && PcOk(s, s.calls[call], pc)
    ensures Inv(SetPc(s, call, pc))
  {
    var t := SetPc(s, call, pc);
    var c := s.calls[call];
    assert CallOk(s, c);
    PcGrows(s, t, c, t.calls[call], pc);
    if c.cell.Some? { JustifiedGrows(s.store, t.store, c, t.calls[call], c.cell.value); }
    Frame(s, t);
  }

  lemma SetCellKeeps(s: State, call: CallId, d: EngineDecision)
    requires Inv(s) && (call in s.calls ==> Justified(s.store, s.calls[call], d))
    ensures Inv(SetCell(s, call, d))
  {
    if call in s.calls {
      var t := SetCell(s, call, d);
      assert CallOk(s, s.calls[call]);
      JustifiedGrows(s.store, t.store, s.calls[call], t.calls[call], d);
      PcGrows(s, t, s.calls[call], t.calls[call], s.calls[call].pc);
      assert CallOk(t, t.calls[call]);
      ChangeCallKeeps(s, t, call);
    }
  }

  lemma LoseCellKeeps(s: State, call: CallId)
    requires Inv(s)
    ensures Inv(LoseCell(s, call))
  {
    if call in s.calls {
      var t := LoseCell(s, call);
      var c := s.calls[call];
      assert CallOk(s, c);
      if c.cell.Some? { JustifiedGrows(s.store, t.store, c, t.calls[call], c.cell.value); }
      PcGrows(s, t, c, t.calls[call], c.pc);
      Frame(s, t);
    }
  }

  lemma MapsKeep(s: State, t: State)
    requires Inv(s) && t == s.(contexts := t.contexts, waiters := t.waiters, resolvers := t.resolvers)
    requires forall r :: r in t.waiters ==> r in s.waiters && t.waiters[r] == s.waiters[r]
    ensures Inv(t)
  {
    Frame(s, t);
  }

  lemma CancelKeeps(s: State, r: RequestId)
    requires Inv(s)
    ensures Inv(Cancel(s, r))
  {
    if r in s.waiters {
      MapsKeep(s, s.(waiters := s.waiters - {r}));
      SetCellKeeps(s.(waiters := s.waiters - {r}), s.waiters[r].call, DenyOnce);
    }
  }

  lemma TakeKeeps(s: State, r: RequestId, option: string)
    requires Inv(s) && Resolved(s.store, r, option)
    ensures Inv(TakeWaiter(s, r, option)) && HeldOk(TakeWaiter(s, r, option), TakenHold(s, r, option))
  {
    if r in s.waiters {
      assert WaiterOk(s, r, s.waiters[r]);
      MapsKeep(s, s.(waiters := s.waiters - {r}));
      if option !in s.waiters[r].options { LoseCellKeeps(s.(waiters := s.waiters - {r}), s.waiters[r].call); }
    }
  }

  lemma CommitKeeps(red: Redactor, s: State, call: CallId, leaseHeld: bool)
    requires Inv(s) && call in s.calls && Commit(red, s, call, leaseHeld).Some?
    ensures Inv(Commit(red, s, call, leaseHeld).value)
  {
    var c := s.calls[call];
    var tx := RequestTx(red, s, c, c.pc.context, c.pc.saved, c.pc.expected, leaseHeld);
    RequestSound(red, s, c, c.pc.context, c.pc.saved, c.pc.expected, leaseHeld);
    CommittedKeeps(s, call, tx.store, AfterCommit(c.pc.context, c.pc.saved, c.pc.retries, tx.outcome), tx.outcome.Accepted?);
    assert Commit(red, s, call, leaseHeld).value ==
      AfterTx(s, call, tx.store, AfterCommit(c.pc.context, c.pc.saved, c.pc.retries, tx.outcome), tx.outcome.Accepted?);
  }

  function AfterTx(s: State, call: CallId, store: Store, pc: Pc, accepted: bool): State
    requires call in s.calls
  {
    var c := s.calls[call];
    s.(store := store, calls := s.calls[call := c.(pc := pc, attempts := c.attempts + 1, committed := c.committed || accepted)])
  }

  lemma CommittedKeeps(s: State, call: CallId, store: Store, pc: Pc, accepted: bool)
    requires Inv(s) && call in s.calls && store.Valid() && InboxSound(store) && Grows(s.store, store)
    requires match pc
             case AutoResolved(_, o) => Resolved(store, s.calls[call].request.requestId, o)
             case Waiting | Committing(_, _, _, _) | Releasing(_) => true
             case _ => false
    ensures Inv(AfterTx(s, call, store, pc, accepted))
  {
    var s1 := s.(store := store);
    StoreKeeps(s, s1.store);
    var t := AfterTx(s, call, store, pc, accepted);
    var c := s1.calls[call];
    assert CallOk(s1, c);
    if c.cell.Some? { JustifiedGrows(s1.store, t.store, c, t.calls[call], c.cell.value); }
    ChangeCallKeeps(s1, t, call);
  }

  lemma RequestSound(red: Redactor, s: State, c: Call, x: Context, saved: Option<string>, expected: nat, leaseHeld: bool)
    requires s.store.Valid() && InboxSound(s.store)
    ensures var tx := RequestTx(red, s, c, x, saved, expected, leaseHeld);
            && tx.store.Valid() && InboxSound(tx.store) && Grows(s.store, tx.store)
            && (tx.outcome.Accepted? && saved.Some? ==> Resolved(tx.store, c.request.requestId, saved.value))
  {
    var command := RequestCommand(red, c, x, saved, expected);
    var refusal := RequestRefusal(s.store.Log(c.task), c.request.requestId, leaseHeld);
    var decision := RequestDecision(red, s.clock, s.store.View(c.task), c.request.requestId, x, c.request.preview, saved);
    TransactSound(s.store, command, refusal, decision);
    var tx := Transact(s.store, command, refusal, decision);
    if tx.outcome.Accepted? && saved.Some? {
      HoldsResolved(tx.store, c.task, c.request.requestId, x.revision, saved.value);
    }
  }

  lemma StoreKeeps(s: State, store: Store)
    requires Inv(s) && store.Valid() && InboxSound(store) && Grows(s.store, store)
    ensures Inv(s.(store := store))
  {
    Frame(s, s.(store := store));
  }

  lemma InvalidateOwnKeeps(red: Redactor, s: State, call: CallId)
    requires Inv(s) && call in s.calls && InvalidateOwn(red, s, call).Some?
    ensures Inv(InvalidateOwn(red, s, call).value)
  {
    var c := s.calls[call];
    var tx := InvalidateTx(red, s, c.task, c.request.requestId, REQUEST_REVISION, c.pc.expected, EXPIRED_REASON);
    InvalidateSound(red, s, c.task, c.request.requestId, REQUEST_REVISION, c.pc.expected, EXPIRED_REASON);
    StoreKeeps(s, tx.store);
    SetPcKeeps(s.(store := tx.store), call, AfterInvalidate(c.pc.retries, tx.outcome));
    assert InvalidateOwn(red, s, call).value == SetPc(s.(store := tx.store), call, AfterInvalidate(c.pc.retries, tx.outcome));
  }

  lemma ReserveKeeps(s: State, call: CallId)
    requires Inv(s) && call in s.calls && ReserveContext(s, call).Some?
    ensures Inv(ReserveContext(s, call).value)
  {
    var c := s.calls[call];
    if !ValidDraft(s.clock, c.pc.context) || c.request.requestId in s.contexts {
      SetPcKeeps(s, call, Cancelling);
    } else {
      var s1 := SetPc(s, call, Judging(c.pc.context, c.pc.expected));
      SetPcKeeps(s, call, Judging(c.pc.context, c.pc.expected));
      MapsKeep(s1, s1.(contexts := s.contexts[c.request.requestId := c.pc.context]));
    }
  }

  lemma TakeOwnKeeps(s: State, call: CallId)
    requires Inv(s) && call in s.calls && s.calls[call].pc.Taking?
    ensures var c := s.calls[call]; var r := c.request.requestId;
            Inv(SetPc(TakeWaiter(s, r, c.pc.option), call, Sending(TakenHold(s, r, c.pc.option), c.pc.final)))
  {
    var c := s.calls[call];
    var r := c.request.requestId;
    assert CallOk(s, c);
    TakeKeeps(s, r, c.pc.option);
    SetPcKeeps(TakeWaiter(s, r, c.pc.option), call, Sending(TakenHold(s, r, c.pc.option), c.pc.final));
  }

  lemma SendOwnKeeps(s: State, call: CallId, next: Pc)
    requires Inv(s) && call in s.calls && s.calls[call].pc.Sending? && (next.Polling? || next.Waiting?)
    ensures var held := s.calls[call].pc.held;
            Inv(SetPc(if held.Some? then SetCell(s, held.value.0, held.value.1) else s, call, next))
  {
    var held := s.calls[call].pc.held;
    assert CallOk(s, s.calls[call]);
    if held.Some? { SetCellKeeps(s, held.value.0, held.value.1); }
    SetPcKeeps(if held.Some? then SetCell(s, held.value.0, held.value.1) else s, call, next);
  }

  lemma ReadResolutionKeeps(s: State, call: CallId)
    requires Inv(s) && call in s.calls
    ensures var c := s.calls[call]; var found := ResolutionOption(s.store.Log(c.task), c.request.requestId, REQUEST_REVISION);
            Inv(SetPc(s, call, if found.Some? then Taking(found.value, true) else Cancelling))
  {
    var c := s.calls[call];
    var found := ResolutionOption(s.store.Log(c.task), c.request.requestId, REQUEST_REVISION);
    if found.Some? {
      ResolutionOptionHolds(s.store.Log(c.task), c.request.requestId, REQUEST_REVISION);
      HoldsResolved(s.store, c.task, c.request.requestId, REQUEST_REVISION, found.value);
    }
    SetPcKeeps(s, call, if found.Some? then Taking(found.value, true) else Cancelling);
  }

  lemma ForgetKeeps(s: State, r: RequestId)
    requires Inv(s)
    ensures Inv(ForgetContext(s, r))
  {
    MapsKeep(s, ForgetContext(s, r));
  }

  /** The steps that only move the call itself. */
  lemma OwnStepForm(red: Redactor, s: State, step: Step, call: CallId)
    requires CallStep(red, s, step, call).Some?
    requires step.Judge? || step.Receive? || step.Expire? || step.LoseSender? || step.ReadVersion? || step.Poll?
    ensures var t := CallStep(red, s, step, call).value;
            && call in t.calls && t == SetPc(s, call, t.calls[call].pc)
            && !t.calls[call].pc.AutoResolved? && !t.calls[call].pc.Taking? && !t.calls[call].pc.Sending?
            && (t.calls[call].pc.Done? ==> t.calls[call].pc.decision == DenyOnce || Some(t.calls[call].pc.decision) == s.calls[call].cell)
  {
    hide ReserveContext, Commit, InvalidateOwn, TakeWaiter, Cancel, SetCell, DraftContext, HasOption, ResolutionOption;
  }

  lemma OwnStepKeeps(red: Redactor, s: State, step: Step, call: CallId)
    requires Inv(s) && CallStep(red, s, step, call).Some?
    requires step.Judge? || step.Receive? || step.Expire? || step.LoseSender? || step.ReadVersion? || step.Poll?
    ensures Inv(CallStep(red, s, step, call).value)
  {
    OwnStepForm(red, s, step, call);
    assert CallOk(s, s.calls[call]);
    SetPcKeeps(s, call, CallStep(red, s, step, call).value.calls[call].pc);
  }

  lemma PrepareKeeps(red: Redactor, s: State, call: CallId)
    requires Inv(s) && CallStep(red, s, Prepare(call), call).Some?
    ensures Inv(CallStep(red, s, Prepare(call), call).value)
  {
    var t := CallStep(red, s, Prepare(call), call).value;
    var c := s.calls[call];
    assert CallOk(s, c);
    if c.cell.Some? { JustifiedGrows(s.store, t.store, c, t.calls[call], c.cell.value); }
    ChangeCallKeeps(s, t, call);
  }

  lemma CancelHasCall(s: State, r: RequestId, call: CallId)
    requires call in s.calls
    ensures call in Cancel(s, r).calls
  {
  }

  lemma WithdrawKeeps(red: Redactor, s: State, call: CallId)
    requires Inv(s) && CallStep(red, s, Withdraw(call), call).Some?
    ensures Inv(CallStep(red, s, Withdraw(call), call).value)
  {
    hide Inv, Cancel, ResolutionOption;
    CancelHasCall(s, s.calls[call].request.requestId, call);
    var r := s.calls[call].request.requestId;
    if s.calls[call].pc == Withdrawing(false) {
      ForgetKeeps(s, r);
      SetPcKeeps(ForgetContext(s, r), call, Withdrawing(true));
    } else {
      CancelKeeps(s, r);
      SetPcKeeps(Cancel(s, r), call, Cancelling);
    }
  }

  lemma ReleaseKeeps(red: Redactor, s: State, call: CallId)
    requires Inv(s) && CallStep(red, s, ReleaseOwn(call), call).Some?
    ensures Inv(CallStep(red, s, ReleaseOwn(call), call).value)
  {
    var r := s.calls[call].request.requestId;
    ForgetKeeps(s, r);
    SetPcKeeps(ForgetContext(s, r), call, Cancelling);
    SetPcKeeps(s, call, Cancelling);
  }

  lemma DropOwnKeeps(red: Redactor, s: State, call: CallId)
    requires Inv(s) && CallStep(red, s, DropOwnContext(call), call).Some?
    ensures Inv(CallStep(red, s, DropOwnContext(call), call).value)
  {
    var c := s.calls[call];
    assert CallOk(s, c);
    ForgetKeeps(s, c.request.requestId);
    SetPcKeeps(ForgetContext(s, c.request.requestId), call, Taking(c.pc.option, false));
  }

  lemma CancelOwnKeeps(red: Redactor, s: State, call: CallId)
    requires Inv(s) && CallStep(red, s, CancelOwn(call), call).Some?
    ensures Inv(CallStep(red, s, CancelOwn(call), call).value)
  {
    var r := s.calls[call].request.requestId;
    CancelKeeps(s, r);
    SetPcKeeps(Cancel(s, r), call, Done(DenyOnce));
  }

  lemma CallStepKeeps(red: Redactor, s: State, step: Step, call: CallId)
    requires Inv(s) && ActingCall(step) == Some(call) && CallStep(red, s, step, call).Some?
    ensures Inv(CallStep(red, s, step, call).value)
  {
    hide Inv, ReserveContext, Commit, InvalidateOwn, TakeWaiter, TakenHold, Cancel, SetCell, ResolutionOption;
    match step
    case Prepare(_) => PrepareKeeps(red, s, call);
    case Reserve(_) => ReserveKeeps(s, call);
    case TryCommit(_, leaseHeld) => CommitKeeps(red, s, call, leaseHeld);
    case DropOwnContext(_) => DropOwnKeeps(red, s, call);
    case TakeOwn(_) => TakeOwnKeeps(s, call);
    case SendOwn(_) => SendOwnKeeps(s, call, if s.calls[call].pc.final then Polling else Waiting);
    case TryInvalidate(_) => InvalidateOwnKeeps(red, s, call);
    case Withdraw(_) => WithdrawKeeps(red, s, call);
    case ReadResolution(_) => ReadResolutionKeeps(s, call);
    case ReleaseOwn(_) => ReleaseKeeps(red, s, call);
    case CancelOwn(_) => CancelOwnKeeps(red, s, call);
    case _ => OwnStepKeeps(red, s, step, call);
  }

  lemma SetCompleterKeeps(s: State, thread: ThreadId, w: Completer)
    requires Inv(s) && CompleterOk(s, w)
    ensures Inv(s.(completers := s.completers[thread := w]))
  {
    CompleterGrows(s, s.(completers := s.completers[thread := w]), w);
    Frame(s, s.(completers := s.completers[thread := w]));
  }

  lemma RemoveCompleterKeeps(s: State, thread: ThreadId)
    requires Inv(s)
    ensures Inv(s.(completers := s.completers - {thread}))
  {
    Frame(s, s.(completers := s.completers - {thread}));
  }

  lemma StartCompleterKeeps(s: State, thread: ThreadId, tx: Tx, task: TaskId, r: RequestId, notice: Option<string>)
    requires Inv(s) && tx.store.Valid() && InboxSound(tx.store) && Grows(s.store, tx.store)
    requires tx.outcome.Accepted? && notice.Some? ==> Resolved(tx.store, r, notice.value)
    ensures Inv(StartCompleter(s, thread, tx, task, r, notice))
  {
    StoreKeeps(s, tx.store);
    if tx.outcome.Accepted? { SetCompleterKeeps(s.(store := tx.store), thread, Completer(task, r, notice, false, None, false)); }
  }

  lemma CommitResolveKeeps(red: Redactor, s: State, thread: ThreadId, leaseHeld: bool)
    requires Inv(s) && ThreadStep(red, s, CommitResolve(thread, leaseHeld)).Some?
    ensures Inv(ThreadStep(red, s, CommitResolve(thread, leaseHeld)).value)
  {
    var w := s.resolvers[thread];
    ResolveSound(red, s, w, w.context.value, leaseHeld);
    var s1 := s.(resolvers := s.resolvers - {thread});
    MapsKeep(s, s1);
    StartCompleterKeeps(s1, thread, ResolveTx(red, s, w, w.context.value, leaseHeld), w.input.task,
        w.input.requestId, Some(w.input.option));
  }

  lemma ResolveSound(red: Redactor, s: State, w: Resolver, context: Option<Context>, leaseHeld: bool)
    requires s.store.Valid() && InboxSound(s.store)
    ensures var tx := ResolveTx(red, s, w, context, leaseHeld);
            && tx.store.Valid() && InboxSound(tx.store) && Grows(s.store, tx.store)
            && (tx.outcome.Accepted? ==> Holds(tx.store.Log(w.input.task),
                PermissionResolved(w.input.requestId, w.input.revision, w.input.option)))
            && (tx.outcome.Accepted? ==> Resolved(tx.store, w.input.requestId, w.input.option))
  {
    var command := StoreCommand(w.input.task, w.key,
        PermissionResolvePayload(w.input.requestId, w.input.revision, w.input.option), w.input.expected, PermissionBroker);
    var refusal := if context.Some? && !leaseHeld then Some(AuthorityNotHeld) else None;
    var decision := ResolveDecision(red, s.clock, s.store.View(w.input.task), context, w.input);
    TransactSound(s.store, command, refusal, decision);
    var tx := Transact(s.store, command, refusal, decision);
    if tx.outcome.Accepted? { HoldsResolved(tx.store, w.input.task, w.input.requestId, w.input.revision, w.input.option); }
  }

  lemma SteerKeeps(red: Redactor, s: State, step: Step)
    requires Inv(s) && step.Steer? && ThreadStep(red, s, step).Some?
    ensures Inv(ThreadStep(red, s, step).value)
  {
    TransactSound(s.store,
        StoreCommand(step.task, ClientKey(step.client, step.key), SteeringPayload(step.text), step.expected, Supervisor), None,
                  InvalidateDecision(s.store.View(step.task), step.r, step.revision, step.extra));
    StartCompleterKeeps(s, step.thread,
        SteerTx(s, step.task, step.client, step.key, step.text, step.r, step.revision, step.expected, step.extra), step.task, step.r, None);
  }

  lemma TakeThreadKeeps(red: Redactor, s: State, thread: ThreadId)
    requires Inv(s) && ThreadStep(red, s, Take(thread)).Some?
    ensures Inv(ThreadStep(red, s, Take(thread)).value)
  {
    var w := s.completers[thread];
    assert CompleterOk(s, w);
    if w.notice.None? {
      CancelKeeps(s, w.requestId);
      RemoveCompleterKeeps(Cancel(s, w.requestId), thread);
    } else {
      TakeKeeps(s, w.requestId, w.notice.value);
      var s1 := TakeWaiter(s, w.requestId, w.notice.value);
      SetCompleterKeeps(s1, thread, w.(taken := true, held := TakenHold(s, w.requestId, w.notice.value)));
    }
  }

  lemma ThreadStepKeeps(red: Redactor, s: State, step: Step)
    requires Inv(s) && ThreadStep(red, s, step).Some?
    ensures Inv(ThreadStep(red, s, step).value)
  {
    match step
    case StartResolve(_, _, _, _, _) => MapsKeep(s, ThreadStep(red, s, step).value);
    case LookUp(_) => MapsKeep(s, ThreadStep(red, s, step).value);
    case CommitResolve(thread, leaseHeld) => CommitResolveKeeps(red, s, thread, leaseHeld);
    case Invalidate(thread, task, r, revision, expected, reason) =>
      InvalidateSound(red, s, task, r, revision, expected, reason);
      StartCompleterKeeps(s, thread, InvalidateTx(red, s, task, r, revision, expected, reason), task, r, None);
    case Steer(_, _, _, _, _, _, _, _, _) => SteerKeeps(red, s, step);
    case DropContext(thread) =>
      var w := s.completers[thread];
      assert CompleterOk(s, w);
      ForgetKeeps(s, w.requestId);
      SetCompleterKeeps(ForgetContext(s, w.requestId), thread, w.(contextDropped := true));
    case Take(thread) => TakeThreadKeeps(red, s, thread);
    case Send(thread) =>
      var w := s.completers[thread];
      assert CompleterOk(s, w);
      if w.held.Some? { SetCellKeeps(s, w.held.value.0, w.held.value.1); }
      RemoveCompleterKeeps(if w.held.Some? then SetCell(s, w.held.value.0, w.held.value.1) else s, thread);
    case _ =>
  }

  lemma StepKeeps(red: Redactor, s: State, step: Step)
    requires Inv(s) && Apply(red, s, step).Some?
    ensures Inv(Apply(red, s, step).value)
  {
    if step.Tick? || step.OtherAppend? || step.OtherCommand? {
      OtherKeeps(s, step);
    } else if step.StartDecide? {
      BeginKeeps(s, step.call, step.task, step.segment, step.request, step.authority, step.timeout);
    } else if ActingCall(step).Some? {
      CallStepKeeps(red, s, step, ActingCall(step).value);
    } else {
      ThreadStepKeeps(red, s, step);
    }
  }

  lemma {:induction false} RunKeeps(red: Redactor, s: State, steps: seq<Step>)
    requires Inv(s) && RunSteps(red, s, steps).Some?
    ensures Inv(RunSteps(red, s, steps).value)
  {
    if |steps| > 0 {
      RunKeeps(red, s, steps[..|steps| - 1]);
      StepKeeps(red, RunSteps(red, s, steps[..|steps| - 1]).value, steps[|steps| - 1]);
    }
  }

  // ----- options -----

  lemma {:induction false} PresentedArePresentable(request: EngineRequest, options: seq<EngineOption>, i: nat)
    requires i < |Presented(request, options)|
    ensures Presented(request, options)[i] in options && Presentable(request, Presented(request, options)[i])
  {
    var head := if Presentable(request, options[0]) then [options[0]] else [];
    if i >= |head| {
      PresentedArePresentable(request, options[1..], i - |head|);
      assert Presented(request, options)[i] == Presented(request, options[1..])[i - |head|];
    }
  }

  lemma {:induction false} DecisionMapEntry(options: seq<EngineOption>, id: string)
    requires id in DecisionMap(options)
    ensures exists i :: 0 <= i < |options| && options[i].id == id && options[i].decision == DecisionMap(options)[id]
  {
    var last := options[|options| - 1];
    if last.id != id {
      DecisionMapEntry(options[..|options| - 1], id);
      var i :| 0 <= i < |options| - 1 && options[..|options| - 1][i].id == id
          && options[..|options| - 1][i].decision == DecisionMap(options)[id];
      assert options[i].id == id;
    }
  }

  /**
   Fail-closed: over every run, a decision other than DenyOnce is the decision of
   an option the engine offered, that option needs no confirmation and is not an
   allow option when a confirmation text is expected, and some stream holds a
   resolution of this request that selected it.
   */
  lemma DecideFailsClosed(red: Redactor, s: State, steps: seq<Step>, call: CallId)
    requires Started(s) && RunSteps(red, s, steps).Some?
    requires var t := RunSteps(red, s, steps).value; call in t.calls && t.calls[call].pc.Done? && t.calls[call].pc.decision != DenyOnce
    ensures var t := RunSteps(red, s, steps).value; var c := t.calls[call];
            exists o: EngineOption ::
              && o in c.request.options && o.decision == c.pc.decision && !o.requiresConfirmation
              && (c.request.confirmationExpected ==> !IsAllow(c.pc.decision))
              && Resolved(t.store, c.request.requestId, o.id)
  {
    RunKeeps(red, s, steps);
    var t := RunSteps(red, s, steps).value;
    var c := t.calls[call];
    assert CallOk(t, c);
    var id :| id in c.options && c.options[id] == c.pc.decision && Resolved(t.store, c.request.requestId, id);
    var offered := Presented(c.request, c.request.options);
    DecisionMapEntry(offered, id);
    var i :| 0 <= i < |offered| && offered[i].id == id && offered[i].decision == c.pc.decision;
    PresentedArePresentable(c.request, c.request.options, i);
  }
}
