/**
 From the daemon's writes to the brokers' first state: a successful recovery pass
 leaves nothing pending exactly if no engine asked before its start was marked as
 delivered. The actor spawns the engine before it sets that mark, so the other
 case is possible, and shown.
 */
module DaemonStarts {
  import opened Basics
  import opened TaskStream
  import opened StreamLaws
  import opened StoreLaws
  import opened ToolHistory
  import opened RecoveryBatch
  import opened Recovery
  import opened RecoveryServices
  import opened DaemonRuns
  import PermissionProtocol
  import QuestionProtocol
  import Queue

  predicate IsRequest(e: TaskEvent) { e.PermissionRequested? || e.QuestionRequested? }

  /** A request is recorded only after the start of the current run was delivered. */
  ghost predicate AsksDelivered(w: World, step: Step) {
    step.Command? && step.decision.Ok? && (exists i :: 0 <= i < |step.decision.value| && IsRequest(step.decision.value[i])) ==>
      var p := w.store.View(step.command.task);
      p.run.Some? ==> (step.command.task, p.run.value.segment) !in w.pendingStarts
  }

  ghost predicate RequestsAfterDelivery(steps: seq<Step>) {
    forall i :: 0 <= i < |steps| ==> AsksDelivered(Reach(steps[..i]), steps[i])
  }

  // ----- batches -----

  predicate Asking(p: Projection) { p.permission.Some? || p.question.Some? }

  /** Without a request, what is pending was pending before, on the same run, and no run has started. */
  lemma NotAskedEvent(p: Projection, e: Envelope)
    requires Reduce(p, e).Some? && !IsRequest(e.event) && Asking(Reduce(p, e).value)
    ensures var q := Reduce(p, e).value;
            Asking(p) && !e.event.RunStarted? && (q.run.Some? ==> p.run.Some? && p.run.value.segment == q.run.value.segment)
  {
    hide ItemIndex, RecoverPromoting, UpsertPromoting;
  }

  lemma {:induction false} NotAsked(p: Projection, es: seq<Envelope>)
    requires ReduceAll(p, es).Some? && (forall i :: 0 <= i < |es| ==> !IsRequest(es[i].event)) && Asking(ReduceAll(p, es).value)
    ensures var q := ReduceAll(p, es).value;
            && Asking(p) && (q.run.Some? ==> p.run.Some? && p.run.value.segment == q.run.value.segment)
            && forall i :: 0 <= i < |es| ==> !es[i].event.RunStarted?
  {
    if |es| > 0 {
      var init := es[..|es| - 1];
      hide Reduce;
      NotAskedEvent(ReduceAll(p, init).value, es[|es| - 1]);
      NotAsked(p, init);
      forall i | 0 <= i < |es| ensures !es[i].event.RunStarted? { if i < |init| { assert es[i] == init[i]; } }
    }
  }

  lemma {:induction false} NotStarted(p: Projection, es: seq<Envelope>)
    requires ReduceAll(p, es).Some? && forall i :: 0 <= i < |es| ==> !es[i].event.RunStarted?
    ensures var q := ReduceAll(p, es).value; q.run.Some? ==> p.run.Some? && p.run.value.segment == q.run.value.segment
  {
    if |es| > 0 {
      NotStarted(p, es[..|es| - 1]);
      SegmentKept(ReduceAll(p, es[..|es| - 1]).value, es[|es| - 1]);
    }
  }

  lemma NoStarts(task: TaskId, events: seq<TaskEvent>)
    requires forall i :: 0 <= i < |events| ==> !events[i].RunStarted?
    ensures Starts(task, events) == {}
  {
  }

  /** Requests come from the brokers, which start no run. */
  lemma RequestsStartNothing(source: Source, events: seq<TaskEvent>, k: nat)
    requires AcceptableBatch(source, events) && k < |events| && IsRequest(events[k])
    ensures forall i :: 0 <= i < |events| ==> !events[i].RunStarted?
  {
    assert AllowedSource(source, events[k]);
    forall i | 0 <= i < |events| ensures !events[i].RunStarted? { assert AllowedSource(source, events[i]); }
  }

  /** The task that grew stays quiet while its start is undelivered. */
  lemma GrownIsQuiet(a: Store, b: Store, task: TaskId, events: seq<TaskEvent>, pendingStarts: set<(TaskId, SegmentId)>)
    requires a.Valid() && b.Valid() && Appended(a, b, task, events) && QuietTask(a.View(task), task, pendingStarts)
    requires (exists i :: 0 <= i < |events| && IsRequest(events[i])) ==>
      && (forall i :: 0 <= i < |events| ==> !events[i].RunStarted?)
      && (a.View(task).run.Some? ==> (task, a.View(task).run.value.segment) !in pendingStarts)
    ensures QuietTask(b.View(task), task, pendingStarts + Starts(task, events))
  {
    var p, q := a.View(task), b.View(task);
    var es := Stamp(events, a.lastOffset);
    ViewAppend(a, b, task, events);
    forall i | 0 <= i < |es| ensures es[i].event == events[i] { }
    if Asking(q) && q.run.Some? {
      hide QuietTask;
      if k :| 0 <= k < |events| && IsRequest(events[k]) {
        forall i | 0 <= i < |es| ensures !es[i].event.RunStarted? { assert es[i].event == events[i]; }
        NotStarted(p, es);
        NoStarts(task, events);
      } else {
        forall i | 0 <= i < |es| ensures !IsRequest(es[i].event) { assert es[i].event == events[i]; }
        NotAsked(p, es);
        forall i | 0 <= i < |events| ensures !events[i].RunStarted? { assert es[i].event == events[i]; }
        NoStarts(task, events);
      }
    }
  }

  lemma QuietLess(p: Projection, task: TaskId, a: set<(TaskId, SegmentId)>, b: set<(TaskId, SegmentId)>)
    requires QuietTask(p, task, a) && b <= a
    ensures QuietTask(p, task, b)
  {
  }

  lemma QuietElsewhere(p: Projection, t: TaskId, a: set<(TaskId, SegmentId)>, task: TaskId, events: seq<TaskEvent>)
    requires QuietTask(p, t, a) && t != task
    ensures QuietTask(p, t, a + Starts(task, events))
  {
  }

  lemma LandForm(w: World, store: Store, task: TaskId, events: seq<TaskEvent>, outbox: bool, boundary: bool)
    ensures var w' := Land(w, store, task, events, outbox, boundary);
            w' == w || (w'.store == store && w'.pendingStarts == if outbox then w.pendingStarts + Starts(task, events) else w.pendingStarts)
  {
    hide IdentitiesOnce, RolledForward, CanonicalTools, Starts;
  }

  lemma LandIsQuiet(w: World, store: Store, task: TaskId, events: seq<TaskEvent>, outbox: bool, boundary: bool)
    requires w.store.Valid() && store.Valid() && Appended(w.store, store, task, events) && UndeliveredIsQuiet(w)
    requires (exists i :: 0 <= i < |events| && IsRequest(events[i])) ==>
      && (forall i :: 0 <= i < |events| ==> !events[i].RunStarted?)
      && (w.store.View(task).run.Some? ==> (task, w.store.View(task).run.value.segment) !in w.pendingStarts)
    ensures UndeliveredIsQuiet(Land(w, store, task, events, outbox, boundary))
  {
    hide Land, QuietTask, Starts;
    var w' := Land(w, store, task, events, outbox, boundary);
    LandForm(w, store, task, events, outbox, boundary);
    if w' != w {
      forall t ensures QuietTask(w'.store.View(t), t, w'.pendingStarts) {
        assert QuietTask(w.store.View(t), t, w.pendingStarts);
        if t == task { GrownIsQuiet(w.store, store, task, events, w.pendingStarts); } else {
          assert store.Log(t) == w.store.Log(t);
          QuietElsewhere(w.store.View(t), t, w.pendingStarts, task, events);
        }
        QuietLess(store.View(t), t, w.pendingStarts + Starts(task, events), w'.pendingStarts);
      }
    }
  }

  // ----- steps -----

  lemma AppendIsQuiet(w: World, task: TaskId, events: seq<TaskEvent>, boundary: Store -> bool)
    requires w.store.Valid() && UndeliveredIsQuiet(w) && forall i :: 0 <= i < |events| ==> !IsRequest(events[i])
    ensures UndeliveredIsQuiet(AppendStep(w, task, events, boundary))
  {
    hide Land, UndeliveredIsQuiet;
    var r := Append(w.store, task, events);
    if r.Some? {
      AppendResult(w.store, task, events);
      LandIsQuiet(w, r.value, task, events, false, boundary(r.value));
    }
  }

  lemma CommandIsQuiet(w: World, c: StoreCommand, refusal: Option<Reason>, decision: Decision, child: bool)
    requires w.store.Valid() && UndeliveredIsQuiet(w) && AsksDelivered(w, Step.Command(c, refusal, decision, child))
    ensures UndeliveredIsQuiet(CommandStep(w, c, refusal, decision, child))
  {
    hide Land, UndeliveredIsQuiet, Transact, AcceptableBatch;
    var tx := Transact(w.store, c, refusal, decision);
    TransactLogs(w.store, c, refusal, decision);
    if Fresh(w.store, c) && tx.outcome.Accepted? && decision.Ok? {
      if k :| 0 <= k < |decision.value| && IsRequest(decision.value[k]) { RequestsStartNothing(c.source, decision.value, k); }
      LandIsQuiet(w, tx.store, c.task, decision.value, true, HasBoundary(decision.value, child));
    } else {
      SameLogsQuiet(w, tx.store);
    }
  }

  lemma SameLogsQuiet(w: World, store: Store)
    requires UndeliveredIsQuiet(w) && SameLogs(w.store, store)
    ensures UndeliveredIsQuiet(w.(store := store))
  {
    hide QuietTask;
    forall t ensures QuietTask(store.View(t), t, w.pendingStarts) {
      assert w.store.Log(t) == store.Log(t);
      assert QuietTask(w.store.View(t), t, w.pendingStarts);
    }
  }

  lemma RecoverIsQuiet(w: World, task: TaskId, now: Time)
    requires WorldOk(w) && UndeliveredIsQuiet(w)
    ensures UndeliveredIsQuiet(RecoverOne(w, task, now).0)
  {
    hide WorldOk, RecoverOne;
    var w' := RecoverOne(w, task, now).0;
    OneScan(w, task, now);
    forall t ensures QuietTask(w'.store.View(t), t, w'.pendingStarts) {
      assert QuietTask(w.store.View(t), t, w.pendingStarts);
      if t != task {
        OneFrame(w, task, now, t);
        SameView(w, w', t);
      } else {
        RecoveredIsQuiet(w, task, now);
      }
    }
  }

  lemma RecoveredIsQuiet(w: World, task: TaskId, now: Time)
    requires WorldOk(w) && QuietTask(w.store.View(task), task, w.pendingStarts)
    ensures QuietTask(RecoverOne(w, task, now).0.store.View(task), task, w.pendingStarts)
  {
    hide WorldOk, RecoveryTx, Append, RecoveryEvents;
    var p := w.store.View(task);
    if p.HasActiveRun() && (task, p.run.value.segment) !in w.pendingStarts {
      TxStore(w, task, now);
      if RecoveryTx(w, task, now).outcome.Accepted? { AcceptedForm(w, task, now); }
    }
  }

  lemma StepIsQuiet(w: World, step: Step)
    requires WorldOk(w) && UndeliveredIsQuiet(w) && Admissible(w, step) && AsksDelivered(w, step)
    ensures UndeliveredIsQuiet(Next(w, step))
  {
    hide WorldOk, Land, RecoverOne, Append, Transact;
    StoreIsValid(w);
    match step
    case Command(c, refusal, decision, child) => CommandIsQuiet(w, c, refusal, decision, child);
    case EngineAppend(task, es) => AppendIsQuiet(w, task, Engines(es), (st: Store) => HasBoundary(Engines(es), false));
    case SpawnChild(task, segment, at) => AppendIsQuiet(w, task, ChildBirth(segment, at), (st: Store) => st.View(task).HasActiveRun());
    case ChildAppend(task, es, child) => AppendIsQuiet(w, task, es, (st: Store) => st.View(task).HasActiveRun() && HasBoundary(es, child));
    case Deliver(task, segment) =>
      forall t ensures QuietTask(w.store.View(t), t, w.pendingStarts - {(task, segment)}) {
        QuietLess(w.store.View(t), t, w.pendingStarts, w.pendingStarts - {(task, segment)});
      }
    case SaveCheckpoint(_, _, _) =>
    case RecoverTask(task, now) => RecoverIsQuiet(w, task, now);
    case LoseRecovery(task, read, tools, now) =>
      OvertakenKeeps(w, task, read, tools, now);
      SameLogsQuiet(w, Next(w, step).store);
  }

  lemma {:induction false} ReachableIsQuiet(steps: seq<Step>)
    requires AdmissibleRun(steps) && RequestsAfterDelivery(steps)
    ensures UndeliveredIsQuiet(Reach(steps))
  {
    if |steps| == 0 {
      forall task ensures EMPTY_WORLD.store.View(task) == EMPTY_PROJECTION { }
    } else {
      var init := steps[..|steps| - 1];
      forall i | 0 <= i < |init| ensures Admissible(Reach(init[..i]), init[i]) && AsksDelivered(Reach(init[..i]), init[i]) {
        assert init[..i] == steps[..i] && init[i] == steps[i];
      }
      hide AsksDelivered, Admissible, UndeliveredIsQuiet, Next, WorldOk;
      ReachableIsDurable(init);
      ReachableIsQuiet(init);
      StepIsQuiet(Reach(init), steps[|steps| - 1]);
    }
  }

  // ----- the brokers' first state -----

  lemma {:induction false} AllDurable(w: World, tasks: seq<TaskId>, clock: TaskId -> Time)
    requires Durable(w)
    ensures Durable(RecoverAll(w, tasks, clock).0)
  {
    hide Durable, RecoverOne;
    if |tasks| > 0 {
      var before := RecoverAll(w, tasks[..|tasks| - 1], clock);
      AllDurable(w, tasks[..|tasks| - 1], clock);
      var task := tasks[|tasks| - 1];
      if before.1.Ok? { StepKeeps(before.0, RecoverTask(task, clock(task))); }
    }
  }

  /** Brokers over `store`, with nothing in memory. */
  ghost predicate FreshBrokers(permissions: PermissionProtocol.State, questions: QuestionProtocol.State, store: Store) {
    && permissions.store == store && permissions.contexts == map[] && permissions.waiters == map[]
    && permissions.calls == map[] && permissions.resolvers == map[] && permissions.completers == map[]
    && questions.store == store && questions.contexts == map[] && questions.waiters == map[]
    && questions.calls == map[] && questions.resolvers == map[] && questions.completers == map[] && questions.submitted == {}
  }

  /** Whatever the daemon wrote before and whether or not recovery succeeded, its brokers start over sound streams. */
  lemma BrokersStart(steps: seq<Step>, clock: TaskId -> Time, permissions: PermissionProtocol.State, questions: QuestionProtocol.State)
    requires AdmissibleRun(steps) && FreshBrokers(permissions, questions, Pass(Reach(steps), clock).0.store)
    ensures PermissionProtocol.Started(permissions) && QuestionProtocol.Init(questions)
  {
    ReachableIsDurable(steps);
    AllDurable(Reach(steps), Sorted(ScanSet(Reach(steps).store)), clock);
    hide RecoverAll, Reach;
    StoreIsValid(Pass(Reach(steps), clock).0);
  }

  /**
   After a pass that nothing stops, the permission broker starts with nothing pending, if
   engines asked only after their starts were marked as delivered.
   */
  lemma RecoveryEstablishesInit(steps: seq<Step>, clock: TaskId -> Time, permissions: PermissionProtocol.State,
                                questions: QuestionProtocol.State)
    requires AdmissibleRun(steps) && RequestsAfterDelivery(steps) && NothingStops(Reach(steps), clock)
    requires FreshBrokers(permissions, questions, Pass(Reach(steps), clock).0.store)
    ensures PermissionProtocol.Init(permissions) && QuestionProtocol.Init(questions) && NothingPending(questions.store)
  {
    BrokersStart(steps, clock, permissions, questions);
    ReachableIsQuiet(steps);
    ReachableIsDurable(steps);
    hide Pass, Reach, WorldOk, NothingStops, UndeliveredIsQuiet, PermissionProtocol.InboxSound, QuestionProtocol.InboxSound;
    RecoveryClearsExactly(Reach(steps), clock);
  }

  /** The life-cycle laws of messages apply to every stream the daemon writes. */
  lemma StreamsQueueOnce(steps: seq<Step>, task: TaskId)
    requires AdmissibleRun(steps)
    ensures var log := Reach(steps).store.Log(task); Replay(log).Some? && Queue.QueuedOnce(log)
  {
    ReachableIsDurable(steps);
    var w := Reach(steps);
    hide Reach, WorldOk, AdmissibleRun;
    StoreIsValid(w);
    LogReplays(w.store, task);
    var log := w.store.Log(task);
    assert IdentitiesOnce(log);
    forall i, j | 0 <= i < j < |log| && log[i].event.MessageQueued? && log[j].event.MessageQueued?
      ensures log[i].event.item != log[j].event.item { assert !SameIdentity(log[i].event, log[j].event); }
  }
}
