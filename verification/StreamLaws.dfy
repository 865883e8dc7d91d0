/**
 Laws of every task stream the reducer accepts, whoever wrote it: at most one
 foreground interaction is pending, the run waits exactly while one is, and no
 request ends more often than it was asked.
 */
module StreamLaws {
  import opened Basics
  import opened TaskStream

  /** Event classes that are counted per request. */
  datatype Mark =
    | QuestionAsked(r: RequestId)
    | QuestionAnswered(r: RequestId)
    | QuestionDropped(r: RequestId)
    | PermissionAsked(r: RequestId)
    | PermissionAnswered(r: RequestId)
    | PermissionDropped(r: RequestId)

  predicate Marks(m: Mark, e: TaskEvent) {
    match m
    case QuestionAsked(r) => e.QuestionRequested? && e.question.requestId == r
    case QuestionAnswered(r) => e.QuestionResolved? && e.requestId == r
    case QuestionDropped(r) => e.QuestionInvalidated? && e.requestId == r
    case PermissionAsked(r) => e.PermissionRequested? && e.permission.requestId == r
    case PermissionAnswered(r) => e.PermissionResolved? && e.requestId == r
    case PermissionDropped(r) => e.PermissionInvalidated? && e.requestId == r
  }

  function Count(m: Mark, log: seq<Envelope>): nat {
    if |log| == 0 then 0
    else Count(m, log[..|log| - 1]) + (if Marks(m, log[|log| - 1].event) then 1 else 0)
  }

  lemma {:induction false} CountConcat(m: Mark, a: seq<Envelope>, b: seq<Envelope>)
    ensures Count(m, a + b) == Count(m, a) + Count(m, b)
  {
    if |b| == 0 {
      assert a + b == a;
    } else {
      assert (a + b)[..|a + b| - 1] == a + b[..|b| - 1];
      CountConcat(m, a, b[..|b| - 1]);
    }
  }

  /** Counting is positive exactly when some event of the class is present. */
  lemma {:induction false} CountPositive(m: Mark, log: seq<Envelope>)
    ensures Count(m, log) > 0 <==> exists i :: 0 <= i < |log| && Marks(m, log[i].event)
  {
    if |log| > 0 {
      var init := log[..|log| - 1];
      CountPositive(m, init);
      if i :| 0 <= i < |log| && Marks(m, log[i].event) {
        if i < |init| { assert Marks(m, init[i].event); }
      }
      if i :| 0 <= i < |init| && Marks(m, init[i].event) {
        assert Marks(m, log[i].event);
      }
    }
  }

  // ----- one pending interaction -----

  /** What the run, the task state and the pending interaction say about each other. */
  ghost predicate Coherent(p: Projection) {
    && (p.version == 0 ==> p.run.None? && p.permission.None? && p.question.None?)
    && (p.permission.Some? ==> p.question.None?)
    && (p.question.Some? ==> p.run.Some? && p.run.value.state.WaitingInput? && p.run.value.segment == p.question.value.segment)
    && (p.permission.Some? && p.run.Some? ==> p.run.value.state.WaitingPermission?)
    && (p.permission.Some? ==> p.state.WaitingPermission?)
    && (p.run.Some? ==>
          match p.run.value.state
          case Running => p.state.Running?
          case Yielding => p.state.Running?
          case WaitingPermission => p.state.WaitingPermission? && p.permission.Some?
          case WaitingInput => p.state.WaitingInput? && p.question.Some?
          case Interrupted => p.state.Interrupted? || p.state.Failed?
          case Failed => p.state.Failed?
          case Completed => p.state.Completed? || p.state.Failed?)
  }

  /** Queue events leave the run and the pending interaction alone. */
  lemma MessageFrame(p: Projection, offset: nat, e: TaskEvent)
    ensures var q := ReduceMessage(p, offset, e);
            q.Some? ==> q.value == p.(queue := q.value.queue, durable := q.value.durable)
  {
  }

  lemma ActorFailedKeepsCoherent(p: Projection, segment: Option<SegmentId>, failedAt: Time)
    requires Coherent(p) && p.version > 0
    ensures var q := ReduceActorFailed(p, segment, failedAt); q.Some? ==> Coherent(q.value)
  {
  }

  lemma RunKeepsCoherent(p: Projection, e: TaskEvent)
    requires Coherent(p) && p.version > 0
    ensures var q := ReduceRun(p, e); q.Some? ==> Coherent(q.value)
  {
  }

  lemma PermissionKeepsCoherent(p: Projection, e: TaskEvent)
    requires Coherent(p) && p.version > 0
    ensures var q := ReducePermission(p, e); q.Some? ==> Coherent(q.value)
  {
  }

  lemma QuestionKeepsCoherent(p: Projection, e: TaskEvent)
    requires Coherent(p) && p.version > 0
    ensures var q := ReduceQuestion(p, e); q.Some? ==> Coherent(q.value)
  {
  }

  lemma ReduceEventKeepsCoherent(p: Projection, offset: nat, e: TaskEvent)
    requires Coherent(p) && (p.version == 0 ==> e.TaskCreated?)
    ensures var q := ReduceEvent(p, offset, e); q.Some? ==> Coherent(q.value) && q.value.version == p.version
  {
    if e.MessageQueued? || e.MessageEdited? || e.MessagePromoted? || e.MessageRecovered? || e.MessageDeleted? || e.MessageConsumed? {
      MessageFrame(p, offset, e);
    } else if e.TaskActorFailed? {
      ActorFailedKeepsCoherent(p, e.failedSegment, e.failedAt);
    } else if e.PermissionRequested? || e.PermissionResolved? || e.PermissionInvalidated? {
      PermissionKeepsCoherent(p, e);
    } else if e.QuestionRequested? || e.QuestionResolved? || e.QuestionInvalidated? {
      QuestionKeepsCoherent(p, e);
    } else if !e.TaskCreated? {
      RunKeepsCoherent(p, e);
    }
  }

  lemma ReduceKeepsCoherent(p: Projection, e: Envelope)
    requires Coherent(p)
    ensures var q := Reduce(p, e); q.Some? ==> Coherent(q.value)
  {
    if e.offset > p.lastOffset && (p.version == 0 ==> e.event.TaskCreated?) {
      ReduceEventKeepsCoherent(p, e.offset, e.event);
    }
  }

  /** In every accepted stream at most one foreground interaction is pending and the run state tells which. */
  lemma {:induction false} OneForegroundInteraction(log: seq<Envelope>)
    requires Replay(log).Some?
    ensures Coherent(Replay(log).value)
  {
    if |log| > 0 {
      OneForegroundInteraction(log[..|log| - 1]);
      ReduceKeepsCoherent(Replay(log[..|log| - 1]).value, log[|log| - 1]);
    }
  }

  // ----- every request ends at most as often as it was asked -----

  function Pending(b: bool): nat { if b then 1 else 0 }

  lemma QuestionStep(p: Projection, e: Envelope, r: RequestId)
    requires Reduce(p, e).Some?
    ensures var q := Reduce(p, e).value;
            Pending(q.question.Some? && q.question.value.requestId == r)
            + Pending(Marks(QuestionAnswered(r), e.event)) + Pending(Marks(QuestionDropped(r), e.event))
            <= Pending(p.question.Some? && p.question.value.requestId == r) + Pending(Marks(QuestionAsked(r), e.event))
  {
  }

  lemma PermissionStep(p: Projection, e: Envelope, r: RequestId)
    requires Reduce(p, e).Some?
    ensures var q := Reduce(p, e).value;
            Pending(q.permission.Some? && q.permission.value.requestId == r)
            + Pending(Marks(PermissionAnswered(r), e.event)) + Pending(Marks(PermissionDropped(r), e.event))
            <= Pending(p.permission.Some? && p.permission.value.requestId == r) + Pending(Marks(PermissionAsked(r), e.event))
  {
  }

  /** A question that was asked once is answered or invalidated at most once, never both, and not while pending. */
  lemma {:induction false} QuestionEndsOnce(log: seq<Envelope>, r: RequestId)
    requires Replay(log).Some?
    ensures var p := Replay(log).value;
            Count(QuestionAnswered(r), log) + Count(QuestionDropped(r), log)
            + Pending(p.question.Some? && p.question.value.requestId == r)
            <= Count(QuestionAsked(r), log)
  {
    if |log| > 0 {
      QuestionEndsOnce(log[..|log| - 1], r);
      QuestionStep(Replay(log[..|log| - 1]).value, log[|log| - 1], r);
    }
  }

  /** The same law for permissions. */
  lemma {:induction false} PermissionEndsOnce(log: seq<Envelope>, r: RequestId)
    requires Replay(log).Some?
    ensures var p := Replay(log).value;
            Count(PermissionAnswered(r), log) + Count(PermissionDropped(r), log)
            + Pending(p.permission.Some? && p.permission.value.requestId == r)
            <= Count(PermissionAsked(r), log)
  {
    if |log| > 0 {
      PermissionEndsOnce(log[..|log| - 1], r);
      PermissionStep(Replay(log[..|log| - 1]).value, log[|log| - 1], r);
    }
  }
}
