/**
 A recovery attempt that was overtaken bars its run: whatever the daemon writes
 afterwards, no startup succeeds while that run is the current, active one.
 */
module LostRaces {
  import opened Basics
  import opened TaskStream
  import opened StreamLaws
  import opened StoreLaws
  import opened ToolHistory
  import opened RecoveryBatch
  import opened Recovery
  import opened RecoveryServices
  import opened DaemonRuns
  import opened DaemonStarts

  predicate IsStart(e: TaskEvent, segment: SegmentId) { e.RunStarted? && e.segment == segment }

  predicate WasStarted(log: seq<Envelope>, segment: SegmentId) {
    exists i :: 0 <= i < |log| && IsStart(log[i].event, segment)
  }

  /** A recovery of this started and delivered run is on record. */
  ghost predicate Barred(w: World, task: TaskId, segment: SegmentId) {
    && (task, RecoveryKey(segment)) in w.store.inbox && (task, segment) !in w.pendingStarts
    && WasStarted(w.store.Log(task), segment)
  }

  lemma {:induction false} RunWasStarted(log: seq<Envelope>)
    requires Replay(log).Some? && Replay(log).value.run.Some?
    ensures WasStarted(log, Replay(log).value.run.value.segment)
  {
    var segment := Replay(log).value.run.value.segment;
    var init, e := log[..|log| - 1], log[|log| - 1];
    if !IsStart(e.event, segment) {
      SegmentKept(Replay(init).value, e);
      RunWasStarted(init);
      var i :| 0 <= i < |init| && IsStart(init[i].event, segment);
      assert log[i] == init[i];
    }
  }

  lemma StartedStays(a: seq<Envelope>, b: seq<Envelope>, segment: SegmentId)
    requires WasStarted(a, segment) && a <= b
    ensures WasStarted(b, segment)
  {
    var i :| 0 <= i < |a| && IsStart(a[i].event, segment);
    assert b[i] == a[i];
  }

  // ----- every step -----

  ghost predicate KeysKept(a: Store, b: Store) { forall k :: k in a.inbox ==> k in b.inbox }

  lemma StoreStaysBarred(w: World, w': World, task: TaskId, segment: SegmentId)
    requires Barred(w, task, segment) && w.store.Log(task) <= w'.store.Log(task)
    requires KeysKept(w.store, w'.store) && (task, segment) !in w'.pendingStarts
    ensures Barred(w', task, segment)
  {
    StartedStays(w.store.Log(task), w'.store.Log(task), segment);
  }

  /** A run that was started is not started again. */
  lemma NotStartedAgain(log: seq<Envelope>, events: seq<TaskEvent>, offset: nat, task: TaskId, segment: SegmentId)
    requires IdentitiesOnce(log + Stamp(events, offset)) && WasStarted(log, segment)
    ensures (task, segment) !in Starts(task, events)
  {
    var all := log + Stamp(events, offset);
    var i :| 0 <= i < |log| && IsStart(log[i].event, segment);
    forall j | 0 <= j < |events| ensures !IsStart(events[j], segment) {
      assert all[i] == log[i] && all[|log| + j].event == events[j];
      assert !SameIdentity(all[i].event, all[|log| + j].event);
    }
  }

  lemma LandStaysBarred(w: World, store: Store, task: TaskId, events: seq<TaskEvent>, outbox: bool, boundary: bool,
                        t: TaskId, segment: SegmentId)
    requires Barred(w, t, segment) && Appended(w.store, store, task, events) && KeysKept(w.store, store)
    ensures Barred(Land(w, store, task, events, outbox, boundary), t, segment)
  {
    hide Land, WasStarted, IdentitiesOnce;
    LandForm(w, store, task, events, outbox, boundary);
    LandStore(w, store, task, events, outbox, boundary);
    var w' := Land(w, store, task, events, outbox, boundary);
    if w' != w {
      AppendedGrows(w.store, store, task, events);
      if t == task { NotStartedAgain(w.store.Log(t), events, w.store.lastOffset, t, segment); }
      StoreStaysBarred(w, w', t, segment);
    }
  }

  lemma AppendStaysBarred(w: World, task: TaskId, events: seq<TaskEvent>, boundary: Store -> bool, t: TaskId, segment: SegmentId)
    requires WorldOk(w) && Barred(w, t, segment)
    ensures Barred(AppendStep(w, task, events, boundary), t, segment)
  {
    hide WorldOk, Land, Barred;
    StoreIsValid(w);
    var r := Append(w.store, task, events);
    if r.Some? {
      AppendResult(w.store, task, events);
      LandStaysBarred(w, r.value, task, events, false, boundary(r.value), t, segment);
    }
  }

  lemma CommandStaysBarred(w: World, c: StoreCommand, refusal: Option<Reason>, decision: Decision, child: bool,
                           t: TaskId, segment: SegmentId)
    requires WorldOk(w) && Barred(w, t, segment)
    ensures Barred(CommandStep(w, c, refusal, decision, child), t, segment)
  {
    hide WorldOk, Land, Barred, Transact, HasBoundary;
    StoreIsValid(w);
    var tx := Transact(w.store, c, refusal, decision);
    TransactLogs(w.store, c, refusal, decision);
    TransactInboxForm(w.store, c, refusal, decision);
    if Fresh(w.store, c) && tx.outcome.Accepted? && decision.Ok? {
      LandStaysBarred(w, tx.store, c.task, decision.value, true, HasBoundary(decision.value, child), t, segment);
    } else {
      StoreStaysBarred(w, w.(store := tx.store), t, segment) by { assert Barred(w, t, segment); BarredIsDelivered(w, t, segment); }
    }
  }

  lemma BarredIsDelivered(w: World, task: TaskId, segment: SegmentId)
    requires Barred(w, task, segment)
    ensures (task, segment) !in w.pendingStarts
  {
  }

  lemma RecoverStaysBarred(w: World, task: TaskId, now: Time, t: TaskId, segment: SegmentId)
    requires WorldOk(w) && Barred(w, t, segment)
    ensures Barred(RecoverOne(w, task, now).0, t, segment)
  {
    hide WorldOk, RecoveryTx, Append, RecoveryEvents, WasStarted;
    var w' := RecoverOne(w, task, now).0;
    OneScan(w, task, now);
    if t != task {
      OneFrame(w, task, now, t);
    } else {
      var p := w.store.View(task);
      if p.HasActiveRun() && (task, p.run.value.segment) !in w.pendingStarts {
        TxStore(w, task, now);
        if RecoveryTx(w, task, now).outcome.Accepted? { AcceptedForm(w, task, now); }
      }
      StoreStaysBarred(w, w', t, segment);
    }
  }

  lemma LoseStaysBarred(w: World, task: TaskId, read: nat, tools: seq<ToolId>, now: Time, t: TaskId, segment: SegmentId)
    requires WorldOk(w) && Overtaken(w, task, read) && Barred(w, t, segment)
    ensures Barred(w.(store := OvertakenTx(w, task, read, tools, now).store), t, segment)
  {
    hide WorldOk, WasStarted, ViewAt, RecoveryEvents;
    OvertakenKeeps(w, task, read, tools, now);
    StoreStaysBarred(w, w.(store := OvertakenTx(w, task, read, tools, now).store), t, segment);
  }

  lemma StepStaysBarred(w: World, step: Step, t: TaskId, segment: SegmentId)
    requires WorldOk(w) && Admissible(w, step) && Barred(w, t, segment)
    ensures Barred(Next(w, step), t, segment)
  {
    hide WorldOk, WasStarted, CommandStep, AppendStep, RecoverOne, Overtaken, CanonicalTools, HasBoundary;
    match step
    case Command(c, refusal, decision, child) => CommandStaysBarred(w, c, refusal, decision, child, t, segment);
    case EngineAppend(task, es) => AppendStaysBarred(w, task, Engines(es), (st: Store) => HasBoundary(Engines(es), false), t, segment);
    case SpawnChild(task, g, at) => AppendStaysBarred(w, task, ChildBirth(g, at), (st: Store) => st.View(task).HasActiveRun(), t, segment);
    case ChildAppend(task, es, child) =>
      AppendStaysBarred(w, task, es, (st: Store) => st.View(task).HasActiveRun() && HasBoundary(es, child), t, segment);
    case Deliver(task, g) =>
    case SaveCheckpoint(_, _, _) =>
    case RecoverTask(task, now) => RecoverStaysBarred(w, task, now, t, segment);
    case LoseRecovery(task, read, tools, now) => LoseStaysBarred(w, task, read, tools, now, t, segment);
  }

  // ----- every run -----

  lemma {:induction false} BarredForever(steps: seq<Step>, k: nat, task: TaskId, segment: SegmentId)
    requires AdmissibleRun(steps) && k <= |steps| && Barred(Reach(steps[..k]), task, segment)
    ensures Barred(Reach(steps), task, segment)
  {
    hide Barred, Next, Admissible, WorldOk;
    if k == |steps| {
      assert steps[..k] == steps;
    } else {
      var init := steps[..|steps| - 1];
      forall i | 0 <= i < |init| ensures Admissible(Reach(init[..i]), init[i]) { assert init[..i] == steps[..i]; }
      assert init[..k] == steps[..k];
      ReachableIsDurable(init);
      BarredForever(init, k, task, segment);
      StepStaysBarred(Reach(init), steps[|steps| - 1], task, segment);
    }
  }

  /** The overtaken attempt leaves its run barred. */
  lemma OvertakenIsBarred(w: World, task: TaskId, read: nat, tools: seq<ToolId>, now: Time)
    requires WorldOk(w) && Overtaken(w, task, read)
    ensures Barred(Next(w, LoseRecovery(task, read, tools, now)), task, ViewAt(w.store, task, read).run.value.segment)
  {
    hide WorldOk, WasStarted, RecoveryEvents, Replay;
    var segment := ViewAt(w.store, task, read).run.value.segment;
    var prefix := w.store.Log(task)[..read];
    assert Replay(prefix).Some?;
    RunWasStarted(prefix);
    StartedStays(prefix, w.store.Log(task), segment);
    OvertakenKeeps(w, task, read, tools, now);
    var w' := Next(w, LoseRecovery(task, read, tools, now));
    assert w'.store.Log(task) == w.store.Log(task);
  }

  /** A barred run that is current and active stops every pass, at any time. */
  lemma BarredStops(w: World, task: TaskId, clock: TaskId -> Time)
    requires WorldOk(w) && w.store.View(task).HasActiveRun() && Barred(w, task, w.store.View(task).run.value.segment)
    ensures Stops(w, task, clock(task)) && Pass(w, clock).1.Err?
  {
    hide WorldOk, WasStarted, Pass, RecoveryEvents;
    PassSucceedsExactly(w, clock);
  }

  lemma PrefixIsAdmissible(steps: seq<Step>, k: nat)
    requires AdmissibleRun(steps) && k <= |steps|
    ensures AdmissibleRun(steps[..k])
  {
    hide Admissible, Reach;
    forall i | 0 <= i < k ensures Admissible(Reach(steps[..k][..i]), steps[..k][i]) { assert steps[..k][..i] == steps[..i]; }
  }

  /** The run that the attempt at step `k` was about. */
  ghost function AttemptedRun(steps: seq<Step>, k: nat): SegmentId
    requires AdmissibleRun(steps) && k < |steps| && steps[k].LoseRecovery?
  {
    ViewAt(Reach(steps[..k]).store, steps[k].task, steps[k].read).run.value.segment
  }

  lemma LostIsBarred(steps: seq<Step>, k: nat)
    requires AdmissibleRun(steps) && k < |steps| && steps[k].LoseRecovery?
    ensures Barred(Reach(steps[..k + 1]), steps[k].task, AttemptedRun(steps, k))
  {
    hide WorldOk, Barred, Next, ViewAt, Overtaken;
    var step := steps[k];
    PrefixIsAdmissible(steps, k);
    ReachableIsDurable(steps[..k]);
    assert Admissible(Reach(steps[..k]), step);
    OvertakenIsBarred(Reach(steps[..k]), step.task, step.read, step.tools, step.now);
    assert steps[..k + 1][..k] == steps[..k];
  }

  /**
   Whatever the daemon does after a recovery attempt was overtaken, every startup
   fails at whatever time while the run the attempt was about is still active.
   */
  lemma LostRaceIsPermanent(steps: seq<Step>, k: nat, clock: TaskId -> Time)
    requires AdmissibleRun(steps) && k < |steps| && steps[k].LoseRecovery?
    requires var p := Reach(steps).store.View(steps[k].task); p.HasActiveRun() && p.run.value.segment == AttemptedRun(steps, k)
    ensures Stops(Reach(steps), steps[k].task, clock(steps[k].task)) && Pass(Reach(steps), clock).1.Err?
  {
    ReachableIsDurable(steps);
    hide WorldOk, Barred, Reach, AdmissibleRun, Pass, Stops, AttemptedRun;
    LostIsBarred(steps, k);
    BarredForever(steps, k + 1, steps[k].task, AttemptedRun(steps, k));
    BarredStops(Reach(steps), steps[k].task, clock);
  }
}
