/**
 The permission broker as an object. `DecideRequest` is the engine's call with its
 retry loops and critical sections written out; it is proved to be a run of the
 step system for whatever the other threads do before each of its steps.
 */
module PermissionBrokers {
  import opened Basics
  import opened TaskStream
  import opened PermissionProtocol
  import opened PermissionGuarantees

  type Environment = seq<seq<Step>>

  function Actor(step: Step): Option<CallId> {
    if step.StartDecide? then Some(step.call) else ActingCall(step)
  }

  predicate ByOthers(steps: seq<Step>, call: CallId) {
    forall i :: 0 <= i < |steps| ==> Actor(steps[i]) != Some(call)
  }

  ghost predicate Foreign(world: Environment, call: CallId) {
    forall i :: 0 <= i < |world| ==> ByOthers(world[i], call)
  }

  predicate SameCall(a: Call, b: Call) { b == a.(cell := b.cell, senderLost := b.senderLost) }

  ghost predicate CallKept(s: State, t: State, call: CallId) {
    call in s.calls ==> call in t.calls && SameCall(s.calls[call], t.calls[call])
  }

  lemma SetCellKeeps(s: State, c: CallId, d: EngineDecision, call: CallId)
    ensures CallKept(s, SetCell(s, c, d), call)
  {
  }

  lemma CancelKeeps(s: State, r: RequestId, call: CallId)
    ensures CallKept(s, Cancel(s, r), call)
  {
  }

  lemma TakeKeeps(s: State, r: RequestId, option: string, call: CallId)
    ensures CallKept(s, TakeWaiter(s, r, option), call)
  {
  }

  predicate Touches(step: Step) { step.TakeOwn? || step.SendOwn? || step.Withdraw? || step.CancelOwn? }

  /** Most steps of a call change that call only. */
  lemma OnlyActor(red: Redactor, s: State, step: Step, actor: CallId)
    requires CallStep(red, s, step, actor).Some? && !Touches(step)
    ensures var t := CallStep(red, s, step, actor).value; actor in t.calls && t.calls == s.calls[actor := t.calls[actor]]
  {
    hide RequestTx, InvalidateTx, ValidDraft, DraftContext, ResolutionOption, HasOption;
  }

  lemma SetPcKeeps(s: State, t: State, actor: CallId, pc: Pc, call: CallId)
    requires actor in t.calls && actor != call && CallKept(s, t, call)
    ensures CallKept(s, SetPc(t, actor, pc), call)
  {
  }

  lemma TouchingKeepsOthers(red: Redactor, s: State, step: Step, actor: CallId, call: CallId)
    requires CallStep(red, s, step, actor).Some? && Touches(step) && actor != call
    ensures CallKept(s, CallStep(red, s, step, actor).value, call)
  {
    hide CallKept, SetPc, ResolutionOption;
    var c := s.calls[actor];
    var r := c.request.requestId;
    CancelKeeps(s, r, call);
    SameSelf(s, call);
    match step
    case TakeOwn(_) =>
      TakeKeeps(s, r, c.pc.option, call);
      SetPcKeeps(s, TakeWaiter(s, r, c.pc.option), actor, Sending(TakenHold(s, r, c.pc.option), c.pc.final), call);
    case SendOwn(_) =>
      var t := if c.pc.held.Some? then SetCell(s, c.pc.held.value.0, c.pc.held.value.1) else s;
      if c.pc.held.Some? { SetCellKeeps(s, c.pc.held.value.0, c.pc.held.value.1, call); }
      SetPcKeeps(s, t, actor, if c.pc.final then Polling else Waiting, call);
    case Withdraw(_) =>
      if c.pc == Withdrawing(false) {
        ForgetSame(s, r, call);
        SetPcKeeps(s, ForgetContext(s, r), actor, Withdrawing(true), call);
      } else {
        SetPcKeeps(s, Cancel(s, r), actor, Cancelling, call);
      }
    case CancelOwn(_) => SetPcKeeps(s, Cancel(s, r), actor, Done(DenyOnce), call);
    case _ =>
  }

  lemma SameSelf(s: State, call: CallId)
    ensures CallKept(s, s, call)
  {
  }

  lemma ForgetSame(s: State, r: RequestId, call: CallId)
    ensures CallKept(s, ForgetContext(s, r), call)
  {
  }

  lemma CallStepKeepsOthers(red: Redactor, s: State, step: Step, actor: CallId, call: CallId)
    requires CallStep(red, s, step, actor).Some? && actor != call
    ensures CallKept(s, CallStep(red, s, step, actor).value, call)
  {
    hide CallStep;
    if Touches(step) { TouchingKeepsOthers(red, s, step, actor, call); } else { OnlyActor(red, s, step, actor); }
  }

  lemma ThreadStepKeepsCalls(red: Redactor, s: State, step: Step, call: CallId)
    requires ThreadStep(red, s, step).Some?
    ensures CallKept(s, ThreadStep(red, s, step).value, call)
  {
    hide SetCell, Cancel, TakeWaiter, ResolveTx, InvalidateTx, SteerTx;
    match step
    case Take(thread) =>
      var w := s.completers[thread];
      CancelKeeps(s, w.requestId, call);
      if w.notice.Some? { TakeKeeps(s, w.requestId, w.notice.value, call); }
    case Send(thread) =>
      var w := s.completers[thread];
      if w.held.Some? { SetCellKeeps(s, w.held.value.0, w.held.value.1, call); }
    case _ =>
  }

  lemma OtherStepKeepsCalls(s: State, step: Step, call: CallId)
    requires OtherStep(s, step).Some?
    ensures CallKept(s, OtherStep(s, step).value, call)
  {
    hide Transact, Append;
  }

  lemma BeginKeepsOthers(s: State, step: Step, call: CallId)
    requires step.StartDecide? && step.call != call && Begin(s, step.call, step.task, step.segment, step.request,
        step.authority, step.timeout).Some?
    ensures CallKept(s, Begin(s, step.call, step.task, step.segment, step.request, step.authority, step.timeout).value, call)
  {
    hide DecisionMap, Presented, NeverAsked;
  }

  lemma CallStepClock(red: Redactor, s: State, step: Step, actor: CallId)
    requires CallStep(red, s, step, actor).Some?
    ensures CallStep(red, s, step, actor).value.clock == s.clock
  {
    hide RequestTx, InvalidateTx, ResolutionOption, DraftContext, ValidDraft;
  }

  lemma ThreadStepClock(red: Redactor, s: State, step: Step)
    requires ThreadStep(red, s, step).Some?
    ensures ThreadStep(red, s, step).value.clock == s.clock
  {
    hide ResolveTx, InvalidateTx, SteerTx;
  }

  lemma ClockAdvances(red: Redactor, s: State, step: Step)
    requires Apply(red, s, step).Some?
    ensures Apply(red, s, step).value.clock >= s.clock
  {
    hide CallStep, ThreadStep;
    if step.Tick? || step.OtherAppend? || step.OtherCommand? {
    } else if step.StartDecide? {
    } else if ActingCall(step).Some? {
      CallStepClock(red, s, step, ActingCall(step).value);
    } else {
      ThreadStepClock(red, s, step);
    }
  }

  lemma StepKeepsOthers(red: Redactor, s: State, step: Step, call: CallId)
    requires Apply(red, s, step).Some? && Actor(step) != Some(call)
    ensures CallKept(s, Apply(red, s, step).value, call)
  {
    hide CallStep, ThreadStep, OtherStep, Begin, CallKept;
    if step.Tick? || step.OtherAppend? || step.OtherCommand? {
      OtherStepKeepsCalls(s, step, call);
    } else if step.StartDecide? {
      BeginKeepsOthers(s, step, call);
    } else if ActingCall(step).Some? {
      CallStepKeepsOthers(red, s, step, ActingCall(step).value, call);
    } else {
      ThreadStepKeepsCalls(red, s, step, call);
    }
  }

  lemma RunSnoc(red: Redactor, s: State, steps: seq<Step>, step: Step)
    requires RunSteps(red, s, steps).Some?
    ensures RunSteps(red, s, steps + [step]) == Apply(red, RunSteps(red, s, steps).value, step)
  {
    assert (steps + [step])[..|steps + [step]| - 1] == steps;
  }

  lemma FirstStep(red: Redactor, s: State, step: Step)
    ensures RunSteps(red, s, [] + [step]) == Apply(red, s, step)
  {
    assert RunSteps(red, s, []) == Some(s);
    RunSnoc(red, s, [], step);
  }

  class PermissionBroker {
    const red: Redactor
    var clock: Time
    var store: Store
    var contexts: map<RequestId, Context>
    var waiters: map<RequestId, Waiter>
    var calls: map<CallId, Call>
    var resolvers: map<ThreadId, Resolver>
    var completers: map<ThreadId, Completer>

    function AsState(): State
      reads this
    {
      State(clock, store, contexts, waiters, calls, resolvers, completers)
    }

    constructor (red: Redactor, s: State)
      ensures AsState() == s && this.red == red
    {
      this.red := red;
      clock, store, contexts, waiters := s.clock, s.store, s.contexts, s.waiters;
      calls, resolvers, completers := s.calls, s.resolvers, s.completers;
    }

    /** The other threads move; a step that is not enabled does nothing. */
    method Yield(steps: seq<Step>, ghost call: CallId) returns (ghost done: seq<Step>)
      requires ByOthers(steps, call)
      modifies this
      ensures RunSteps(red, old(AsState()), done) == Some(AsState())
      ensures CallKept(old(AsState()), AsState(), call) && clock >= old(clock)
    {
      hide Apply;
      ghost var s := AsState();
      done := [];
      for i := 0 to |steps|
        invariant RunSteps(red, s, done) == Some(AsState()) && CallKept(s, AsState(), call) && clock >= s.clock
      {
        var next := Apply(red, AsState(), steps[i]);
        if next.Some? {
          StepKeepsOthers(red, AsState(), steps[i], call);
          ClockAdvances(red, AsState(), steps[i]);
          RunSnoc(red, s, done, steps[i]);
          done := done + [steps[i]];
          var t := next.value;
          clock, store, contexts, waiters := t.clock, t.store, t.contexts, t.waiters;
          calls, resolvers, completers := t.calls, t.resolvers, t.completers;
        }
      }
    }

    method YieldPoint(world: Environment, call: CallId) returns (ghost others: seq<Step>, rest: Environment)
      requires Foreign(world, call) && call in calls
      modifies this
      ensures RunSteps(red, old(AsState()), others) == Some(AsState()) && Foreign(rest, call)
      ensures call in calls && SameCall(old(calls)[call], calls[call]) && clock >= old(clock)
    {
      if |world| == 0 {
        others, rest := [], [];
      } else {
        others := Yield(world[0], call);
        rest := world[1..];
      }
    }

    // ----- the maps -----

    method MoveTo(call: CallId, pc: Pc)
      requires call in calls
      modifies this`calls
      ensures AsState() == SetPc(old(AsState()), call, pc)
    {
      calls := calls[call := calls[call].(pc := pc)];
    }

    method DropContextOf(r: RequestId)
      modifies this`contexts
      ensures AsState() == ForgetContext(old(AsState()), r)
    {
      contexts := contexts - {r};
    }

    /** Removes the waiter and denies, in one critical section. */
    method CancelWaiter(r: RequestId)
      modifies this`waiters, this`calls
      ensures AsState() == Cancel(old(AsState()), r)
    {
      if r in waiters {
        var c := waiters[r].call;
        waiters := waiters - {r};
        if c in calls { calls := calls[c := calls[c].(cell := Some(DenyOnce))]; }
      }
    }

    /** Takes the waiter out of the map; what is to be sent is sent later. */
    method RemoveWaiter(r: RequestId, option: string) returns (held: Option<(CallId, EngineDecision)>)
      modifies this`waiters, this`calls
      ensures AsState() == TakeWaiter(old(AsState()), r, option) && held == TakenHold(old(AsState()), r, option)
    {
      held := None;
      if r in waiters {
        var w := waiters[r];
        waiters := waiters - {r};
        if option in w.options {
          held := Some((w.call, w.options[option]));
        } else if w.call in calls {
          calls := calls[w.call := calls[w.call].(senderLost := true)];
        }
      }
    }

    method SendHeld(held: Option<(CallId, EngineDecision)>)
      modifies this`calls
      ensures AsState() == if held.Some? then SetCell(old(AsState()), held.value.0, held.value.1) else old(AsState())
    {
      if held.Some? && held.value.0 in calls {
        calls := calls[held.value.0 := calls[held.value.0].(cell := Some(held.value.1))];
      }
    }

    // ----- single steps of one call -----

    /** Registers the waiter, unless nothing can be presented or the id is in flight. */
    method Register(call: CallId, task: TaskId, segment: SegmentId, request: EngineRequest, authority: Authority, timeout: nat)
      requires call !in calls
      modifies this
      ensures Some(AsState()) == Apply(red, old(AsState()), StartDecide(call, task, segment, request, authority, timeout)) && call in calls
      ensures (calls[call].pc.Registered? || calls[call].pc == Done(DenyOnce)) && calls[call].attempts == 0
    {
      var presented := Presented(request, request.options);
      var options := DecisionMap(presented);
      var c := Call(task, segment, request, authority, timeout, options, Done(DenyOnce), None, false, None, false,
          NeverAsked(store, request.requestId), 0);
      if |presented| == 0 || request.requestId in waiters {
        calls := calls[call := c];
      } else {
        calls := calls[call := c.(pc := Registered)];
        waiters := waiters[request.requestId := Waiter(call, options)];
      }
    }

    method PrepareDraft(call: CallId)
      requires call in calls && calls[call].pc.Registered?
      modifies this
      ensures Some(AsState()) == Apply(red, old(AsState()), Prepare(call)) && call in calls
          && calls[call].pc.Prepared? && calls[call].draft.Some?
      ensures calls[call].attempts == old(calls)[call].attempts
    {
      var c := calls[call];
      var x := DraftContext(c, clock);
      calls := calls[call := c.(pc := Prepared(x, store.Version(c.task)), draft := Some(x))];
    }

    method ReserveDraft(call: CallId)
      requires call in calls && calls[call].pc.Prepared?
      modifies this
      ensures Some(AsState()) == Apply(red, old(AsState()), Reserve(call)) && call in calls
      ensures calls[call].pc.Judging? || calls[call].pc.Cancelling?
      ensures calls[call] == old(calls)[call].(pc := calls[call].pc)
    {
      var c := calls[call];
      var r := c.request.requestId;
      if !ValidDraft(clock, c.pc.context) || r in contexts {
        MoveTo(call, Cancelling);
      } else {
        contexts := contexts[r := c.pc.context];
        MoveTo(call, Judging(c.pc.context, c.pc.expected));
      }
    }

    /** Asks the saved policy; an option it never presented is refused. */
    method JudgeSaved(call: CallId, saved: Option<string>)
      requires call in calls && calls[call].pc.Judging?
      modifies this
      ensures Some(AsState()) == Apply(red, old(AsState()), Judge(call, saved)) && call in calls
      ensures calls[call].pc.Releasing? || (calls[call].pc.Committing? && calls[call].pc.retries == VERSION_RETRIES)
      ensures calls[call] == old(calls)[call].(pc := calls[call].pc)
    {
      var c := calls[call];
      if saved.Some? && !HasOption(c.pc.context.options, saved.value) {
        MoveTo(call, Releasing(c.pc.context));
      } else {
        MoveTo(call, Committing(c.pc.context, saved, c.pc.expected, VERSION_RETRIES));
      }
    }

    method AttemptCommit(call: CallId, leaseHeld: bool, x: Context, saved: Option<string>, expected: nat,
                         retries: nat) returns (outcome: Outcome)
      requires call in calls && calls[call].pc == Committing(x, saved, expected, retries)
      modifies this
      ensures Some(AsState()) == Apply(red, old(AsState()), TryCommit(call, leaseHeld)) && call in calls
      ensures calls[call] == old(calls)[call].(pc := AfterCommit(x, saved, retries, outcome), attempts := old(calls)[call].attempts + 1,
                                              committed := old(calls)[call].committed || outcome.Accepted?)
    {
      var c := calls[call];
      var tx := RequestTx(red, AsState(), c, x, saved, expected, leaseHeld);
      outcome := tx.outcome;
      store := tx.store;
      calls := calls[call := c.(pc := AfterCommit(x, saved, retries, outcome), attempts := c.attempts + 1,
          committed := c.committed || outcome.Accepted?)];
    }

    method AttemptInvalidate(call: CallId, expected: nat, retries: nat) returns (outcome: Outcome)
      requires call in calls && calls[call].pc == Invalidating(expected, retries)
      modifies this
      ensures Some(AsState()) == Apply(red, old(AsState()), TryInvalidate(call)) && call in calls
      ensures calls[call] == old(calls)[call].(pc := AfterInvalidate(retries, outcome))
    {
      var c := calls[call];
      var tx := InvalidateTx(red, AsState(), c.task, c.request.requestId, REQUEST_REVISION, expected, EXPIRED_REASON);
      outcome := tx.outcome;
      store := tx.store;
      calls := calls[call := c.(pc := AfterInvalidate(retries, outcome))];
    }

    method ReadExpectedVersion(call: CallId) returns (version: nat)
      requires call in calls && calls[call].pc.Expired?
      modifies this
      ensures Some(AsState()) == Apply(red, old(AsState()), ReadVersion(call)) && call in calls
      ensures calls[call] == old(calls)[call].(pc := Invalidating(version, VERSION_RETRIES))
    {
      version := store.Version(calls[call].task);
      MoveTo(call, Invalidating(version, VERSION_RETRIES));
    }

    method DropResolvedContext(call: CallId)
      requires call in calls && calls[call].pc.AutoResolved?
      modifies this
      ensures Some(AsState()) == Apply(red, old(AsState()), DropOwnContext(call)) && call in calls
      ensures calls[call] == old(calls)[call].(pc := Taking(old(calls)[call].pc.option, false))
    {
      var c := calls[call];
      DropContextOf(c.request.requestId);
      MoveTo(call, Taking(c.pc.option, false));
    }

    method TakeOwnWaiter(call: CallId)
      requires call in calls && calls[call].pc.Taking?
      modifies this
      ensures Some(AsState()) == Apply(red, old(AsState()), TakeOwn(call)) && call in calls
      ensures calls[call].pc.Sending? && calls[call].pc.final == old(calls)[call].pc.final && calls[call].draft == old(calls)[call].draft
      ensures calls[call].attempts == old(calls)[call].attempts
    {
      hide Cancel, SetCell, ResolutionOption, DraftContext, ValidDraft;
      var c := calls[call];
      var held := RemoveWaiter(c.request.requestId, c.pc.option);
      MoveTo(call, Sending(held, c.pc.final));
    }

    method SendOwnDecision(call: CallId)
      requires call in calls && calls[call].pc.Sending?
      modifies this
      ensures Some(AsState()) == Apply(red, old(AsState()), SendOwn(call)) && call in calls
      ensures calls[call].pc == if old(calls)[call].pc.final then Polling else Waiting
      ensures calls[call].draft == old(calls)[call].draft && calls[call].attempts == old(calls)[call].attempts
    {
      hide Cancel, TakeWaiter, ResolutionOption, DraftContext, ValidDraft;
      var c := calls[call];
      SendHeld(c.pc.held);
      MoveTo(call, if c.pc.final then Polling else Waiting);
    }

    /** The option of the latest recorded resolution, found from the end of the stream. */
    method FindResolution(log: seq<Envelope>, r: RequestId, revision: nat) returns (found: Option<string>)
      ensures found == ResolutionOption(log, r, revision)
    {
      var i := |log|;
      assert log[..|log|] == log;
      while i > 0
        invariant 0 <= i <= |log| && ResolutionOption(log[..i], r, revision) == ResolutionOption(log, r, revision)
      {
        var e := log[i - 1].event;
        assert log[..i][..i - 1] == log[..i - 1];
        if e.PermissionResolved? && e.requestId == r && e.revision == revision { return Some(e.option); }
        i := i - 1;
      }
      assert log[..0] == [];
      found := None;
    }

    method ReadResolutionOf(call: CallId)
      requires call in calls && calls[call].pc.ReadingStore?
      modifies this
      ensures Some(AsState()) == Apply(red, old(AsState()), ReadResolution(call)) && call in calls
      ensures calls[call].pc.Cancelling? || (calls[call].pc.Taking? && calls[call].pc.final)
    {
      var c := calls[call];
      var found := FindResolution(store.Log(c.task), c.request.requestId, REQUEST_REVISION);
      MoveTo(call, if found.Some? then Taking(found.value, true) else Cancelling);
    }

    /** One last look at the channel. */
    method PollChannel(call: CallId) returns (d: EngineDecision)
      requires call in calls && calls[call].pc.Polling?
      modifies this
      ensures Some(AsState()) == Apply(red, old(AsState()), Poll(call)) && call in calls && calls[call].pc == Done(d)
    {
      var c := calls[call];
      d := if c.cell.Some? then c.cell.value else DenyOnce;
      MoveTo(call, Done(d));
    }

    method GiveBackContext(call: CallId)
      requires call in calls && calls[call].pc.Releasing?
      modifies this
      ensures Some(AsState()) == Apply(red, old(AsState()), ReleaseOwn(call)) && call in calls && calls[call].pc.Cancelling?
    {
      var c := calls[call];
      var r := c.request.requestId;
      if r in contexts && contexts[r] == c.pc.context { DropContextOf(r); }
      MoveTo(call, Cancelling);
    }

    method DenyOwn(call: CallId)
      requires call in calls && calls[call].pc.Cancelling?
      modifies this
      ensures Some(AsState()) == Apply(red, old(AsState()), CancelOwn(call)) && call in calls && calls[call].pc == Done(DenyOnce)
    {
      hide TakeWaiter, ResolutionOption, DraftContext, ValidDraft;
      var r := calls[call].request.requestId;
      CancelWaiter(r);
      MoveTo(call, Done(DenyOnce));
    }

    method WithdrawContext(call: CallId)
      requires call in calls && calls[call].pc == Withdrawing(false)
      modifies this
      ensures Some(AsState()) == Apply(red, old(AsState()), Withdraw(call)) && call in calls && calls[call].pc == Withdrawing(true)
    {
      DropContextOf(calls[call].request.requestId);
      MoveTo(call, Withdrawing(true));
    }

    method WithdrawWaiter(call: CallId)
      requires call in calls && calls[call].pc == Withdrawing(true)
      modifies this
      ensures Some(AsState()) == Apply(red, old(AsState()), Withdraw(call)) && call in calls && calls[call].pc.Cancelling?
    {
      hide TakeWaiter, ResolutionOption, DraftContext, ValidDraft;
      CancelWaiter(calls[call].request.requestId);
      MoveTo(call, Cancelling);
    }

    method TakeAnswer(call: CallId) returns (d: EngineDecision)
      requires call in calls && calls[call].pc.Waiting? && calls[call].cell.Some?
      modifies this
      ensures Some(AsState()) == Apply(red, old(AsState()), Receive(call)) && call in calls && calls[call].pc == Done(d)
    {
      d := calls[call].cell.value;
      MoveTo(call, Done(d));
    }

    method NoticeLostSender(call: CallId)
      requires call in calls && calls[call].pc.Waiting? && calls[call].cell.None? && calls[call].senderLost
      modifies this
      ensures Some(AsState()) == Apply(red, old(AsState()), LoseSender(call)) && call in calls && calls[call].pc == Expired
    {
      MoveTo(call, Expired);
    }

    method PassTime(to: Time)
      requires clock <= to
      modifies this`clock
      ensures Some(AsState()) == Apply(red, old(AsState()), Tick(to)) && clock == to
    {
      clock := to;
    }

    method PassDeadline(call: CallId)
      requires call in calls && calls[call].pc.Waiting? && calls[call].draft.Some? && clock > calls[call].draft.value.expiresAt
      modifies this
      ensures Some(AsState()) == Apply(red, old(AsState()), Expire(call)) && call in calls && calls[call].pc == Expired
    {
      MoveTo(call, Expired);
    }

    // ----- the retry loops -----

    /** At most nine attempts to record the request, each at the version the last one was told; the lease is checked anew each time. */
    method CommitRequest(call: CallId, lease: nat -> bool, world: Environment) returns (ghost ran: seq<Step>, rest: Environment)
      requires call in calls && calls[call].pc.Committing? && calls[call].pc.retries == VERSION_RETRIES && calls[call].attempts == 0
      requires calls[call].draft.Some? && Foreign(world, call)
      modifies this
      ensures RunSteps(red, old(AsState()), ran) == Some(AsState()) && Foreign(rest, call) && call in calls
      ensures calls[call].pc.Waiting? || calls[call].pc.AutoResolved? || calls[call].pc.Releasing?
      ensures 1 <= calls[call].attempts <= VERSION_RETRIES + 1 && calls[call].draft.Some?
    {
      hide Apply, RunSteps, ByOthers, AsState;
      ghost var s := AsState();
      rest := world;
      var x, saved, expected, retries := calls[call].pc.context, calls[call].pc.saved, calls[call].pc.expected, VERSION_RETRIES;
      ran := [];
      EmptyRun(s);
      while true
        invariant RunSteps(red, s, ran) == Some(AsState()) && Foreign(rest, call) && call in calls && calls[call].draft.Some?
        invariant calls[call].pc == Committing(x, saved, expected, retries) && calls[call].attempts + retries == VERSION_RETRIES
        decreases retries
      {
        ghost var others;
        others, rest := YieldPoint(rest, call);
        RunConcat(red, s, ran, others);
        ran := ran + others;
        var held := lease(calls[call].attempts);
        RunSnoc(red, s, ran, TryCommit(call, held));
        var outcome := AttemptCommit(call, held, x, saved, expected, retries);
        ran := ran + [TryCommit(call, held)];
        match outcome
        case Rejected(WrongExpectedVersion(actual)) =>
          if retries == 0 { return; }
          expected, retries := actual, retries - 1;
        case _ => return;
      }
    }

    lemma EmptyRun(s: State)
      ensures RunSteps(red, s, []) == Some(s)
    {
    }

    /** At most nine attempts to withdraw the request. */
    method InvalidateRuntimeRequest(call: CallId, world: Environment) returns (ghost ran: seq<Step>, rest: Environment)
      requires call in calls && calls[call].pc.Expired? && Foreign(world, call)
      modifies this
      ensures RunSteps(red, old(AsState()), ran) == Some(AsState()) && Foreign(rest, call) && call in calls
      ensures calls[call].pc == Withdrawing(false) || calls[call].pc.ReadingStore?
    {
      hide Apply, RunSteps, ByOthers, AsState;
      ghost var s := AsState();
      ran, rest := YieldPoint(world, call);
      RunSnoc(red, s, ran, ReadVersion(call));
      var expected := ReadExpectedVersion(call);
      ran := ran + [ReadVersion(call)];
      var retries := VERSION_RETRIES;
      while true
        invariant RunSteps(red, s, ran) == Some(AsState()) && Foreign(rest, call) && call in calls
        invariant calls[call].pc == Invalidating(expected, retries)
        decreases retries
      {
        ghost var others;
        others, rest := YieldPoint(rest, call);
        RunConcat(red, s, ran, others);
        ran := ran + others;
        RunSnoc(red, s, ran, TryInvalidate(call));
        var outcome := AttemptInvalidate(call, expected, retries);
        ran := ran + [TryInvalidate(call)];
        match outcome
        case Rejected(WrongExpectedVersion(actual)) =>
          if retries == 0 { return; }
          expected, retries := actual, retries - 1;
        case _ => return;
      }
    }

    // ----- the call -----

    /** Takes the call's own waiter and sends on it; other threads may move in between. */
    method DeliverOwn(call: CallId, world: Environment) returns (ghost ran: seq<Step>, rest: Environment)
      requires call in calls && calls[call].pc.Taking? && Foreign(world, call)
      modifies this
      ensures RunSteps(red, old(AsState()), ran) == Some(AsState()) && Foreign(rest, call) && call in calls
      ensures calls[call].pc == (if old(calls)[call].pc.final then Polling else Waiting) && calls[call].draft == old(calls)[call].draft
    {
      hide Apply, RunSteps, ByOthers, AsState;
      ghost var s := AsState();
      ghost var others;
      ran, rest := YieldPoint(world, call);
      RunSnoc(red, s, ran, TakeOwn(call));
      TakeOwnWaiter(call);
      ran := ran + [TakeOwn(call)];
      others, rest := YieldPoint(rest, call);
      RunConcat(red, s, ran, others);
      ran := ran + others;
      RunSnoc(red, s, ran, SendOwn(call));
      SendOwnDecision(call);
      ran := ran + [SendOwn(call)];
    }

    /** Waits for the channel until the deadline; time passes when nobody decides. */
    method Await(call: CallId, world: Environment) returns (ghost ran: seq<Step>, rest: Environment)
      requires call in calls && calls[call].pc.Waiting? && calls[call].draft.Some? && Foreign(world, call)
      modifies this
      ensures RunSteps(red, old(AsState()), ran) == Some(AsState()) && Foreign(rest, call) && call in calls
      ensures calls[call].pc.Done? || calls[call].pc.Expired?
    {
      hide Apply, RunSteps, ByOthers, AsState;
      ghost var s := AsState();
      ran, rest := YieldPoint(world, call);
      if calls[call].cell.Some? {
        RunSnoc(red, s, ran, Receive(call));
        var d := TakeAnswer(call);
        return ran + [Receive(call)], rest;
      }
      if calls[call].senderLost {
        RunSnoc(red, s, ran, LoseSender(call));
        NoticeLostSender(call);
        return ran + [LoseSender(call)], rest;
      }
      var deadline := calls[call].draft.value.expiresAt;
      if clock <= deadline {
        RunSnoc(red, s, ran, Tick(deadline + 1));
        PassTime(deadline + 1);
        ran := ran + [Tick(deadline + 1)];
        ghost var others;
        others, rest := YieldPoint(rest, call);
        RunConcat(red, s, ran, others);
        ran := ran + others;
        if calls[call].cell.Some? {
          RunSnoc(red, s, ran, Receive(call));
          var d := TakeAnswer(call);
          return ran + [Receive(call)], rest;
        }
      }
      RunSnoc(red, s, ran, Expire(call));
      PassDeadline(call);
      ran := ran + [Expire(call)];
    }

    /** After the deadline: withdraw the request, or deliver how it was resolved and look once more. */
    method GiveUp(call: CallId, world: Environment) returns (ghost ran: seq<Step>, rest: Environment)
      requires call in calls && calls[call].pc.Expired? && Foreign(world, call)
      modifies this
      ensures RunSteps(red, old(AsState()), ran) == Some(AsState()) && Foreign(rest, call) && call in calls
      ensures calls[call].pc.Done? || calls[call].pc.Cancelling?
    {
      hide Apply, RunSteps, ByOthers, AsState;
      ghost var s := AsState();
      ghost var more;
      ran, rest := InvalidateRuntimeRequest(call, world);
      more, rest := YieldPoint(rest, call);
      RunConcat(red, s, ran, more);
      ran := ran + more;
      if calls[call].pc.ReadingStore? {
        RunSnoc(red, s, ran, ReadResolution(call));
        ReadResolutionOf(call);
        ran := ran + [ReadResolution(call)];
        if calls[call].pc.Taking? {
          more, rest := DeliverOwn(call, rest);
          RunConcat(red, s, ran, more);
          ran := ran + more;
          more, rest := YieldPoint(rest, call);
          RunConcat(red, s, ran, more);
          ran := ran + more;
          RunSnoc(red, s, ran, Poll(call));
          var d := PollChannel(call);
          ran := ran + [Poll(call)];
        }
      } else {
        RunSnoc(red, s, ran, Withdraw(call));
        WithdrawContext(call);
        ran := ran + [Withdraw(call)];
        more, rest := YieldPoint(rest, call);
        RunConcat(red, s, ran, more);
        ran := ran + more;
        RunSnoc(red, s, ran, Withdraw(call));
        WithdrawWaiter(call);
        ran := ran + [Withdraw(call)];
      }
    }

    /** Registers, prepares and reserves; afterwards the saved policy is asked or the call is cancelled. */
    method Open(call: CallId, task: TaskId, segment: SegmentId, request: EngineRequest, authority: Authority,
                timeout: nat, world: Environment)
      returns (ghost ran: seq<Step>, rest: Environment)
      requires call !in calls && Foreign(world, call)
      modifies this
      ensures RunSteps(red, old(AsState()), ran) == Some(AsState()) && Foreign(rest, call) && call in calls && calls[call].attempts == 0
      ensures calls[call].pc.Done? || calls[call].pc.Cancelling? || (calls[call].pc.Judging? && calls[call].draft.Some?)
    {
      hide Apply, RunSteps, ByOthers, AsState;
      ghost var s := AsState();
      ghost var more;
      rest := world;
      FirstStep(red, s, StartDecide(call, task, segment, request, authority, timeout));
      Register(call, task, segment, request, authority, timeout);
      ran := [] + [StartDecide(call, task, segment, request, authority, timeout)];
      if calls[call].pc.Done? { return; }
      more, rest := YieldPoint(rest, call);
      RunConcat(red, s, ran, more);
      ran := ran + more;
      RunSnoc(red, s, ran, Prepare(call));
      PrepareDraft(call);
      ran := ran + [Prepare(call)];
      more, rest := YieldPoint(rest, call);
      RunConcat(red, s, ran, more);
      ran := ran + more;
      RunSnoc(red, s, ran, Reserve(call));
      ReserveDraft(call);
      ran := ran + [Reserve(call)];
    }

    /** From the saved policy's verdict to a waiting, a cancelled or a finished call. */
    method Record(call: CallId, saved: Option<string>, lease: nat -> bool,
                  world: Environment) returns (ghost ran: seq<Step>, rest: Environment)
      requires call in calls && calls[call].pc.Judging? && calls[call].draft.Some? && calls[call].attempts == 0 && Foreign(world, call)
      modifies this
      ensures RunSteps(red, old(AsState()), ran) == Some(AsState()) && Foreign(rest, call) && call in calls
      ensures calls[call].pc.Cancelling? || (calls[call].pc.Waiting? && calls[call].draft.Some?)
    {
      hide Apply, RunSteps, ByOthers, AsState;
      ghost var s := AsState();
      ghost var more;
      ran, rest := YieldPoint(world, call);
      RunSnoc(red, s, ran, Judge(call, saved));
      JudgeSaved(call, saved);
      ran := ran + [Judge(call, saved)];
      if calls[call].pc.Committing? {
        more, rest := CommitRequest(call, lease, rest);
        RunConcat(red, s, ran, more);
        ran := ran + more;
      }
      more, rest := YieldPoint(rest, call);
      RunConcat(red, s, ran, more);
      ran := ran + more;
      if calls[call].pc.AutoResolved? {
        RunSnoc(red, s, ran, DropOwnContext(call));
        DropResolvedContext(call);
        ran := ran + [DropOwnContext(call)];
        more, rest := DeliverOwn(call, rest);
        RunConcat(red, s, ran, more);
        ran := ran + more;
      } else if calls[call].pc.Releasing? {
        RunSnoc(red, s, ran, ReleaseOwn(call));
        GiveBackContext(call);
        ran := ran + [ReleaseOwn(call)];
      }
    }

    /**
     The whole call. Whatever the other threads do at its yield points, it is a run
     of the step system that ends with the call done and its decision returned.
     */
    method DecideRequest(call: CallId, task: TaskId, segment: SegmentId, request: EngineRequest, authority: Authority, timeout: nat,
                         saved: Option<string>, lease: nat -> bool, world: Environment)
      returns (d: EngineDecision, ghost ran: seq<Step>)
      requires call !in calls && Foreign(world, call)
      modifies this
      ensures RunSteps(red, old(AsState()), ran) == Some(AsState()) && call in calls && calls[call].pc == Done(d)
    {
      hide Apply, RunSteps, ByOthers, AsState;
      ghost var s := AsState();
      ghost var more;
      var rest;
      ran, rest := Open(call, task, segment, request, authority, timeout, world);
      if calls[call].pc.Judging? {
        more, rest := Record(call, saved, lease, rest);
        RunConcat(red, s, ran, more);
        ran := ran + more;
      }
      if calls[call].pc.Waiting? {
        more, rest := Await(call, rest);
        RunConcat(red, s, ran, more);
        ran := ran + more;
      }
      if calls[call].pc.Expired? {
        more, rest := GiveUp(call, rest);
        RunConcat(red, s, ran, more);
        ran := ran + more;
      }
      if calls[call].pc.Cancelling? {
        more, rest := YieldPoint(rest, call);
        RunConcat(red, s, ran, more);
        ran := ran + more;
        RunSnoc(red, s, ran, CancelOwn(call));
        DenyOwn(call);
        ran := ran + [CancelOwn(call)];
      }
      d := calls[call].pc.decision;
    }
  }
}
