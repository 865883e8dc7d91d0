/**
 The question broker as an object: its maps and loops, written out step by step.
 `Ask` is proved to be a run of the step system for whatever the other threads do
 before each of its steps, so every theorem about runs is a theorem about `Ask`.
 */
module QuestionBrokers {
  import opened Basics
  import opened TaskStream
  import opened QuestionValidation
  import opened QuestionProtocol
  import opened QuestionAgreement

  /** What the other threads do at the successive yield points of one call. */
  type Environment = seq<seq<Step>>

  function Actor(step: Step): Option<CallId> {
    match step
    case StartAsk(c, _, _, _) => Some(c)
    case ReadVersion(c) => Some(c)
    case TryCommit(c) => Some(c)
    case Receive(c) => Some(c)
    case Expire(c) => Some(c)
    case LoseSender(c) => Some(c)
    case TryInvalidate(c) => Some(c)
    case Withdraw(c) => Some(c)
    case ReadResolution(c) => Some(c)
    case Release(c) => Some(c)
    case _ => None
  }

  predicate ByOthers(steps: seq<Step>, call: CallId) {
    forall i :: 0 <= i < |steps| ==> Actor(steps[i]) != Some(call)
  }

  ghost predicate Foreign(world: Environment, call: CallId) {
    forall i :: 0 <= i < |world| ==> ByOthers(world[i], call)
  }

  /** Others may send on a call's channel or drop its sender; the call itself stands where it was. */
  predicate SameCall(a: Call, b: Call) { b == a.(cell := b.cell, senderLost := b.senderLost) }

  ghost predicate CallKept(s: State, t: State, call: CallId) {
    call in s.calls ==> call in t.calls && SameCall(s.calls[call], t.calls[call])
  }

  lemma CallStepKeepsOthers(red: Redactor, s: State, step: Step, actor: CallId, call: CallId)
    requires CallStep(red, s, step, actor).Some? && actor != call
    ensures CallKept(s, CallStep(red, s, step, actor).value, call)
  {
    hide RequestTx, InvalidateTx, Resolution;
  }

  lemma ThreadStepKeepsCalls(red: Redactor, s: State, step: Step, call: CallId)
    requires ThreadStep(red, s, step).Some?
    ensures CallKept(s, ThreadStep(red, s, step).value, call)
  {
  }

  lemma OtherStepKeepsCalls(s: State, step: Step, call: CallId)
    requires OtherStep(s, step).Some?
    ensures CallKept(s, OtherStep(s, step).value, call)
  {
  }

  lemma StepKeepsOthers(red: Redactor, s: State, step: Step, call: CallId)
    requires Apply(red, s, step).Some? && Actor(step) != Some(call)
    ensures CallKept(s, Apply(red, s, step).value, call)
  {
    hide CallStep, ThreadStep, OtherStep, CallKept;
    match step
    case Tick(_) => OtherStepKeepsCalls(s, step, call);
    case OtherAppend(_, _, _) => OtherStepKeepsCalls(s, step, call);
    case OtherCommand(_, _, _, _, _, _, _) => OtherStepKeepsCalls(s, step, call);
    case StartAsk(c, task, segment, request) => BeginKeepsOthers(s, c, task, segment, request, call);
    case ReadVersion(c) => CallStepKeepsOthers(red, s, step, c, call);
    case TryCommit(c) => CallStepKeepsOthers(red, s, step, c, call);
    case Receive(c) => CallStepKeepsOthers(red, s, step, c, call);
    case Expire(c) => CallStepKeepsOthers(red, s, step, c, call);
    case LoseSender(c) => CallStepKeepsOthers(red, s, step, c, call);
    case TryInvalidate(c) => CallStepKeepsOthers(red, s, step, c, call);
    case Withdraw(c) => CallStepKeepsOthers(red, s, step, c, call);
    case ReadResolution(c) => CallStepKeepsOthers(red, s, step, c, call);
    case Release(c) => CallStepKeepsOthers(red, s, step, c, call);
    case _ => ThreadStepKeepsCalls(red, s, step, call);
  }

  lemma CallStepClock(red: Redactor, s: State, step: Step, actor: CallId)
    requires CallStep(red, s, step, actor).Some?
    ensures CallStep(red, s, step, actor).value.clock == s.clock
  {
    hide RequestTx, InvalidateTx, Resolution;
  }

  lemma ThreadStepClock(red: Redactor, s: State, step: Step)
    requires ThreadStep(red, s, step).Some?
    ensures ThreadStep(red, s, step).value.clock == s.clock
  {
    hide ResolveTx, InvalidateTx;
  }

  lemma ClockAdvances(red: Redactor, s: State, step: Step)
    requires Apply(red, s, step).Some?
    ensures Apply(red, s, step).value.clock >= s.clock
  {
    hide CallStep, ThreadStep;
    match step
    case Tick(_) =>
    case OtherAppend(_, _, _) =>
    case OtherCommand(_, _, _, _, _, _, _) =>
    case StartAsk(_, _, _, _) =>
    case _ => if Actor(step).Some? { CallStepClock(red, s, step, Actor(step).value); } else { ThreadStepClock(red, s, step); }
  }

  lemma BeginKeepsOthers(s: State, c: CallId, task: TaskId, segment: SegmentId, request: AskRequest, call: CallId)
    requires Begin(s, c, task, segment, request).Some? && c != call
    ensures CallKept(s, Begin(s, c, task, segment, request).value, call)
  {
  }

  lemma RunSnoc(red: Redactor, s: State, steps: seq<Step>, step: Step)
    requires RunSteps(red, s, steps).Some?
    ensures RunSteps(red, s, steps + [step]) == Apply(red, RunSteps(red, s, steps).value, step)
  {
    assert (steps + [step])[..|steps + [step]| - 1] == steps;
  }

  class QuestionBroker {
    const red: Redactor
    // shared state of the daemon
    var clock: Time
    var store: Store
    var contexts: map<RequestId, Context>
    var waiters: map<RequestId, CallId>
    // where the calls and client threads stand, and what clients submitted
    var calls: map<CallId, Call>
    var resolvers: map<ThreadId, Resolver>
    var completers: map<ThreadId, Completer>
    var submitted: set<(RequestId, QuestionOutcome)>

    function AsState(): State
      reads this
    {
      State(clock, store, contexts, waiters, calls, resolvers, completers, submitted)
    }

    constructor (red: Redactor, s: State)
      ensures AsState() == s && this.red == red
    {
      this.red := red;
      clock, store, contexts, waiters := s.clock, s.store, s.contexts, s.waiters;
      calls, resolvers, completers, submitted := s.calls, s.resolvers, s.completers, s.submitted;
    }

    /** The other threads move; a step that is not enabled does nothing. */
    method Yield(steps: seq<Step>, ghost call: CallId) returns (ghost done: seq<Step>)
      requires ByOthers(steps, call)
      modifies this
      ensures RunSteps(red, old(AsState()), done) == Some(AsState()) && ByOthers(done, call)
      ensures CallKept(old(AsState()), AsState(), call) && clock >= old(clock)
    {
      hide Apply;
      ghost var s := AsState();
      done := [];
      for i := 0 to |steps|
        invariant RunSteps(red, s, done) == Some(AsState()) && ByOthers(done, call) && CallKept(s, AsState(), call) && clock >= s.clock
      {
        var next := Apply(red, AsState(), steps[i]);
        if next.Some? {
          StepKeepsOthers(red, AsState(), steps[i], call);
          ClockAdvances(red, AsState(), steps[i]);
          RunSnoc(red, s, done, steps[i]);
          done := done + [steps[i]];
          var t := next.value;
          clock, store, contexts, waiters := t.clock, t.store, t.contexts, t.waiters;
          calls, resolvers, completers, submitted := t.calls, t.resolvers, t.completers, t.submitted;
        }
      }
    }

    // ----- critical sections of one call -----

    /** Validates the request and registers its context and its waiter, if the id is not in flight. */
    method ReserveRequest(call: CallId, task: TaskId, segment: SegmentId, request: AskRequest) returns (ok: bool)
      requires call !in calls
      modifies this
      ensures if ok then Some(AsState()) == Apply(red, old(AsState()), StartAsk(call, task, segment, request))
              else AsState() == old(AsState()) && Apply(red, old(AsState()), StartAsk(call, task, segment, request)).None?
      ensures ok ==> call in calls && calls[call].pc.Reserved? && calls[call].attempts == 0
    {
      var valid := ValidateRequest(clock, request);
      var r := request.requestId;
      if valid.Err? || r in contexts || r in waiters { return false; }
      var c := Call(task, segment, request, Reserved, None, false, NeverAsked(store, r), 0);
      calls := calls[call := c];
      contexts := contexts[r := c.Ctx()];
      waiters := waiters[r := call];
      ok := true;
    }

    method ReadExpectedVersion(call: CallId) returns (version: nat)
      requires call in calls && (calls[call].pc.Reserved? || calls[call].pc.Expired?)
      modifies this
      ensures Some(AsState()) == Apply(red, old(AsState()), ReadVersion(call)) && call in calls
      ensures calls[call] == old(calls)[call].(pc := if old(calls)[call].pc.Reserved? then Committing(version,
          VERSION_RETRIES) else Invalidating(version, VERSION_RETRIES))
    {
      var c := calls[call];
      version := store.Version(c.task);
      calls := calls[call := c.(pc := if c.pc.Reserved? then Committing(version, VERSION_RETRIES)
          else Invalidating(version, VERSION_RETRIES))];
    }

    /** One attempt to record the request. */
    method AttemptCommit(call: CallId, expected: nat, retries: nat) returns (outcome: Outcome)
      requires call in calls && calls[call].pc == Committing(expected, retries)
      modifies this
      ensures Some(AsState()) == Apply(red, old(AsState()), TryCommit(call)) && call in calls
      ensures calls[call] == old(calls)[call].(pc := AfterCommit(retries, outcome), attempts := old(calls)[call].attempts + 1)
    {
      var c := calls[call];
      var tx := RequestTx(red, AsState(), c, expected);
      outcome := tx.outcome;
      store := tx.store;
      calls := calls[call := c.(pc := AfterCommit(retries, outcome), attempts := c.attempts + 1)];
    }

    method AttemptInvalidate(call: CallId, expected: nat, retries: nat) returns (outcome: Outcome)
      requires call in calls && calls[call].pc == Invalidating(expected, retries)
      modifies this
      ensures Some(AsState()) == Apply(red, old(AsState()), TryInvalidate(call)) && call in calls
      ensures calls[call] == old(calls)[call].(pc := AfterInvalidate(retries, outcome))
    {
      var c := calls[call];
      var tx := InvalidateTx(red, AsState(), c.task, c.request.requestId, REQUEST_REVISION, expected, EXPIRED_REASON);
      outcome := tx.outcome;
      store := tx.store;
      calls := calls[call := c.(pc := AfterInvalidate(retries, outcome))];
    }

    /** The call's next position, with nothing else changed. */
    method MoveTo(call: CallId, pc: AskPc)
      requires call in calls
      modifies this`calls
      ensures AsState() == SetPc(old(AsState()), call, pc)
    {
      calls := calls[call := calls[call].(pc := pc)];
    }

    method DropContextOf(r: RequestId)
      modifies this`contexts
      ensures AsState() == ForgetContext(old(AsState()), r)
    {
      contexts := contexts - {r};
    }

    /** Removes the waiter and sends, in one critical section. */
    method NotifyWaiter(r: RequestId, outcome: QuestionOutcome)
      modifies this`waiters, this`calls
      ensures AsState() == Notify(old(AsState()), r, outcome)
    {
      if r in waiters {
        var c := waiters[r];
        waiters := waiters - {r};
        if c in calls { calls := calls[c := calls[c].(cell := Some(outcome))]; }
      }
    }

    method DiscardWaiter(r: RequestId)
      modifies this`waiters, this`calls
      ensures AsState() == Discard(old(AsState()), r)
    {
      if r in waiters {
        var c := waiters[r];
        waiters := waiters - {r};
        if c in calls { calls := calls[c := calls[c].(senderLost := true)]; }
      }
    }

    // ----- the retry loops -----

    /** At most nine attempts to record the request, each at the version the last one was told. */
    method CommitRequest(call: CallId, world: Environment) returns (ok: bool, ghost ran: seq<Step>, rest: Environment)
      requires call in calls && calls[call].pc.Reserved? && calls[call].attempts == 0 && Foreign(world, call)
      modifies this
      ensures RunSteps(red, old(AsState()), ran) == Some(AsState()) && Foreign(rest, call) && call in calls
      ensures calls[call].pc == if ok then Waiting else Releasing(false, Errored)
      ensures 1 <= calls[call].attempts <= VERSION_RETRIES + 1 && calls[call].request == old(calls)[call].request
    {
      hide Apply, RunSteps, ByOthers, AsState;
      ghost var s := AsState();
      ran, rest := YieldPoint(world, call);
      RunSnoc(red, s, ran, ReadVersion(call));
      var expected := ReadExpectedVersion(call);
      ran := ran + [ReadVersion(call)];
      var retries := VERSION_RETRIES;
      while true
        invariant RunSteps(red, s, ran) == Some(AsState()) && Foreign(rest, call) && call in calls
        invariant calls[call].pc == Committing(expected, retries) && calls[call].attempts + retries == VERSION_RETRIES
        invariant calls[call].request == old(calls)[call].request
        decreases retries
      {
        ghost var others;
        others, rest := YieldPoint(rest, call);
        RunConcat(red, s, ran, others);
        ran := ran + others;
        RunSnoc(red, s, ran, TryCommit(call));
        var outcome := AttemptCommit(call, expected, retries);
        ran := ran + [TryCommit(call)];
        match outcome
        case Accepted => return true, ran, rest;
        case Rejected(WrongExpectedVersion(actual)) =>
          if retries == 0 { return false, ran, rest; }
          expected, retries := actual, retries - 1;
        case _ => return false, ran, rest;
      }
    }

    lemma FirstStep(s: State, step: Step)
      ensures RunSteps(red, s, [] + [step]) == Apply(red, s, step)
    {
      assert RunSteps(red, s, []) == Some(s);
      RunSnoc(red, s, [], step);
    }

    /** The other threads take their turn, if they have one left. */
    method YieldPoint(world: Environment, call: CallId) returns (ghost others: seq<Step>, rest: Environment)
      requires Foreign(world, call) && call in calls
      modifies this
      ensures RunSteps(red, old(AsState()), others) == Some(AsState()) && Foreign(rest, call)
      ensures call in calls && SameCall(old(calls)[call], calls[call]) && clock >= old(clock)
    {
      if |world| == 0 {
        others, rest := [], [];
      } else {
        others := Yield(world[0], call);
        rest := world[1..];
      }
    }

    /** At most nine attempts to withdraw the request; `true` when one was accepted. */
    method InvalidateRuntimeRequest(call: CallId, world: Environment) returns (ok: bool, ghost ran: seq<Step>, rest: Environment)
      requires call in calls && calls[call].pc.Expired? && Foreign(world, call)
      modifies this
      ensures RunSteps(red, old(AsState()), ran) == Some(AsState()) && Foreign(rest, call) && call in calls
      ensures calls[call].pc == if ok then Withdrawing(false) else ReadingStore
    {
      hide Apply, RunSteps, ByOthers, AsState;
      ghost var s := AsState();
      ran, rest := YieldPoint(world, call);
      RunSnoc(red, s, ran, ReadVersion(call));
      var expected := ReadExpectedVersion(call);
      ran := ran + [ReadVersion(call)];
      var retries := VERSION_RETRIES;
      while true
        invariant RunSteps(red, s, ran) == Some(AsState()) && Foreign(rest, call) && call in calls
        invariant calls[call].pc == Invalidating(expected, retries)
        decreases retries
      {
        ghost var others;
        others, rest := YieldPoint(rest, call);
        RunConcat(red, s, ran, others);
        ran := ran + others;
        RunSnoc(red, s, ran, TryInvalidate(call));
        var outcome := AttemptInvalidate(call, expected, retries);
        ran := ran + [TryInvalidate(call)];
        match outcome
        case Accepted => return true, ran, rest;
        case Rejected(WrongExpectedVersion(actual)) =>
          if retries == 0 { return false, ran, rest; }
          expected, retries := actual, retries - 1;
        case _ => return false, ran, rest;
      }
    }

    // ----- waiting, withdrawing and releasing -----

    method TakeAnswer(call: CallId) returns (answer: QuestionOutcome)
      requires call in calls && calls[call].pc.Waiting? && calls[call].cell.Some?
      modifies this
      ensures Some(AsState()) == Apply(red, old(AsState()), Receive(call)) && call in calls && calls[call].pc == Done(Returned(answer))
    {
      answer := calls[call].cell.value;
      MoveTo(call, Done(Returned(answer)));
    }

    /** The sender was dropped unused. */
    method NoticeLostSender(call: CallId)
      requires call in calls && calls[call].pc.Waiting? && calls[call].cell.None? && calls[call].senderLost
      modifies this
      ensures Some(AsState()) == Apply(red, old(AsState()), LoseSender(call)) && call in calls && calls[call].pc == Expired
    {
      MoveTo(call, Expired);
    }

    method PassTime(to: Time)
      requires clock <= to
      modifies this`clock
      ensures Some(AsState()) == Apply(red, old(AsState()), Tick(to)) && clock == to
    {
      clock := to;
    }

    method PassDeadline(call: CallId)
      requires call in calls && calls[call].pc.Waiting? && clock > calls[call].request.expiresAt
      modifies this
      ensures Some(AsState()) == Apply(red, old(AsState()), Expire(call)) && call in calls && calls[call].pc == Expired
    {
      MoveTo(call, Expired);
    }

    /** Waits for the channel until the deadline; time passes when nobody answers. */
    method Await(call: CallId, world: Environment) returns (answer: Option<QuestionOutcome>, ghost ran: seq<Step>, rest: Environment)
      requires call in calls && calls[call].pc.Waiting? && Foreign(world, call)
      modifies this
      ensures RunSteps(red, old(AsState()), ran) == Some(AsState()) && Foreign(rest, call) && call in calls
      ensures calls[call].pc == if answer.Some? then Done(Returned(answer.value)) else Expired
    {
      hide Apply, RunSteps, ByOthers, AsState;
      ghost var s := AsState();
      ran, rest := YieldPoint(world, call);
      if calls[call].cell.Some? {
        RunSnoc(red, s, ran, Receive(call));
        var outcome := TakeAnswer(call);
        return Some(outcome), ran + [Receive(call)], rest;
      }
      if calls[call].senderLost {
        RunSnoc(red, s, ran, LoseSender(call));
        NoticeLostSender(call);
        return None, ran + [LoseSender(call)], rest;
      }
      var deadline := calls[call].request.expiresAt;
      if clock <= deadline {
        RunSnoc(red, s, ran, Tick(deadline + 1));
        PassTime(deadline + 1);
        ran := ran + [Tick(deadline + 1)];
        ghost var others;
        others, rest := YieldPoint(rest, call);
        RunConcat(red, s, ran, others);
        ran := ran + others;
        if calls[call].cell.Some? {
          RunSnoc(red, s, ran, Receive(call));
          var outcome := TakeAnswer(call);
          return Some(outcome), ran + [Receive(call)], rest;
        }
      }
      RunSnoc(red, s, ran, Expire(call));
      PassDeadline(call);
      answer, ran := None, ran + [Expire(call)];
    }

    /** After an accepted withdrawal: the context goes first, then the waiter is told. */
    method CompleteCancelled(call: CallId, world: Environment) returns (ghost ran: seq<Step>, rest: Environment)
      requires call in calls && calls[call].pc == Withdrawing(false) && Foreign(world, call)
      modifies this
      ensures RunSteps(red, old(AsState()), ran) == Some(AsState()) && Foreign(rest, call) && call in calls
      ensures calls[call].pc == Releasing(false, Returned(TimedOut))
    {
      ghost var s := AsState();
      var r := calls[call].request.requestId;
      ran, rest := YieldPoint(world, call);
      RunSnoc(red, s, ran, Withdraw(call));
      DropContextOf(r);
      MoveTo(call, Withdrawing(true));
      ran := ran + [Withdraw(call)];
      ghost var others;
      others, rest := YieldPoint(rest, call);
      RunConcat(red, s, ran, others);
      ran := ran + others;
      RunSnoc(red, s, ran, Withdraw(call));
      NotifyWaiter(r, QuestionOutcome.Cancelled);
      MoveTo(call, Releasing(false, Returned(TimedOut)));
      ran := ran + [Withdraw(call)];
    }

    /** The latest recorded resolution, found from the end of the stream. */
    method FindResolution(log: seq<Envelope>, r: RequestId, revision: nat) returns (found: Option<QuestionOutcome>)
      ensures found == Resolution(log, r, revision)
    {
      var i := |log|;
      assert log[..|log|] == log;
      while i > 0
        invariant 0 <= i <= |log| && Resolution(log[..i], r, revision) == Resolution(log, r, revision)
      {
        var e := log[i - 1].event;
        assert log[..i][..i - 1] == log[..i - 1];
        if e.QuestionResolved? && e.requestId == r && e.revision == revision { return Some(e.outcome); }
        i := i - 1;
      }
      assert log[..0] == [];
      found := None;
    }

    method ReadResolutionOf(call: CallId) returns (outcome: QuestionOutcome)
      requires call in calls && calls[call].pc.ReadingStore?
      modifies this
      ensures Some(AsState()) == Apply(red, old(AsState()), ReadResolution(call)) && call in calls
      ensures calls[call].pc == Releasing(false, Returned(outcome))
    {
      var c := calls[call];
      var found := FindResolution(store.Log(c.task), c.request.requestId, REQUEST_REVISION);
      outcome := if found.Some? then found.value else TimedOut;
      MoveTo(call, Releasing(false, Returned(outcome)));
    }

    /** Gives back the context, then the waiter, and returns. */
    method ReleaseRequest(call: CallId, world: Environment) returns (ghost ran: seq<Step>, rest: Environment)
      requires call in calls && calls[call].pc.Releasing? && !calls[call].pc.contextDropped && Foreign(world, call)
      modifies this
      ensures RunSteps(red, old(AsState()), ran) == Some(AsState()) && Foreign(rest, call) && call in calls
      ensures calls[call].pc == Done(old(calls)[call].pc.result)
    {
      ghost var s := AsState();
      var r, result := calls[call].request.requestId, calls[call].pc.result;
      ran, rest := YieldPoint(world, call);
      RunSnoc(red, s, ran, QuestionProtocol.Release(call));
      DropContextOf(r);
      MoveTo(call, Releasing(true, result));
      ran := ran + [QuestionProtocol.Release(call)];
      ghost var others;
      others, rest := YieldPoint(rest, call);
      RunConcat(red, s, ran, others);
      ran := ran + others;
      RunSnoc(red, s, ran, QuestionProtocol.Release(call));
      DiscardWaiter(r);
      MoveTo(call, Done(result));
      ran := ran + [QuestionProtocol.Release(call)];
    }

    /** After the deadline: withdraw the request, or find out how it was resolved. */
    method GiveUp(call: CallId, world: Environment) returns (ghost ran: seq<Step>, rest: Environment)
      requires call in calls && calls[call].pc.Expired? && Foreign(world, call)
      modifies this
      ensures RunSteps(red, old(AsState()), ran) == Some(AsState()) && Foreign(rest, call) && call in calls
      ensures calls[call].pc.Done? && calls[call].pc.result.Returned?
    {
      hide Apply, RunSteps, ByOthers, AsState;
      ghost var s := AsState();
      var withdrawn;
      ghost var more;
      withdrawn, ran, rest := InvalidateRuntimeRequest(call, world);
      if withdrawn {
        more, rest := CompleteCancelled(call, rest);
        RunConcat(red, s, ran, more);
        ran := ran + more;
      } else {
        more, rest := YieldPoint(rest, call);
        RunConcat(red, s, ran, more);
        ran := ran + more;
        RunSnoc(red, s, ran, ReadResolution(call));
        var outcome := ReadResolutionOf(call);
        ran := ran + [ReadResolution(call)];
      }
      more, rest := ReleaseRequest(call, rest);
      RunConcat(red, s, ran, more);
      ran := ran + more;
    }

    /**
     The whole call. Whatever the other threads do at its yield points, it is a run
     of the step system that ends with the call done and its result returned.
     */
    method Ask(call: CallId, task: TaskId, segment: SegmentId, request: AskRequest, world: Environment)
      returns (result: AskResult, ghost ran: seq<Step>)
      requires call !in calls && Foreign(world, call)
      modifies this
      ensures RunSteps(red, old(AsState()), ran) == Some(AsState())
      ensures ran != [] ==> call in calls && calls[call].pc == Done(result)
      ensures ran == [] ==> result == Errored && AsState() == old(AsState())
    {
      hide Apply, RunSteps, ByOthers, AsState;
      ghost var s := AsState();
      var reserved := ReserveRequest(call, task, segment, request);
      if !reserved {
        EmptyRun(s);
        return Errored, [];
      }
      FirstStep(s, StartAsk(call, task, segment, request));
      ran := [] + [StartAsk(call, task, segment, request)];
      ghost var more;
      var committed, rest;
      committed, more, rest := CommitRequest(call, world);
      RunConcat(red, s, ran, more);
      ran := ran + more;
      if !committed {
        more, rest := ReleaseRequest(call, rest);
        RunConcat(red, s, ran, more);
        return Errored, ran + more;
      }
      var answer;
      answer, more, rest := Await(call, rest);
      RunConcat(red, s, ran, more);
      ran := ran + more;
      if answer.Some? { return Returned(answer.value), ran; }
      more, rest := GiveUp(call, rest);
      RunConcat(red, s, ran, more);
      ran := ran + more;
      result := calls[call].pc.result;
    }

    lemma EmptyRun(s: State)
      ensures RunSteps(red, s, []) == Some(s)
    {
    }
  }
}
