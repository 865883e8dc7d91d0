/**
 Everything the daemon writes to its durable state: commands of clients, actors
 and brokers, appends of engines and child agents, checkpoints, deliveries and
 startup recovery. Every world these steps reach satisfies what recovery and the
 brokers start from.
 */
module DaemonRuns {
  import opened Basics
  import opened TaskStream
  import opened StreamLaws
  import opened StoreLaws
  import opened ToolHistory
  import opened RecoveryBatch
  import opened Recovery
  import opened RecoveryServices
  import PermissionProtocol
  import PermissionInbox
  import QuestionProtocol
  import QuestionAgreement

  // ----- one commit -----

  /** The unique indexes of the event log: a run, a message and a permission begin once in a stream. */
  ghost predicate IdentitiesOnce(log: seq<Envelope>) {
    forall i, j :: 0 <= i < j < |log| ==> !SameIdentity(log[i].event, log[j].event)
  }

  predicate SameIdentity(a: TaskEvent, b: TaskEvent) {
    || (a.RunStarted? && b.RunStarted? && a.segment == b.segment)
    || (a.MessageQueued? && b.MessageQueued? && a.item == b.item)
    || (a.PermissionRequested? && b.PermissionRequested? && a.permission.requestId == b.permission.requestId)
  }

  /** Events at which a commit also rolls the checkpoint forward. */
  predicate IsBoundary(e: TaskEvent) {
    || e.RunStarted? || e.RunCompleted? || e.RunYieldRequested? || e.RunSafePointReached? || e.RunForceStopTimedOut?
    || e.MessageConsumed? || e.ToolIndeterminate?
    || e.PermissionRequested? || e.PermissionResolved? || e.PermissionInvalidated?
    || (e.Engine? && (e.toolEvent.ToolUseCompleted? || e.toolEvent.ToolUseFailed? || e.toolEvent.ToolUseDenied?))
  }

  /** Child-agent events are boundaries too; `child` says that some unmodelled event of the batch is one. */
  predicate HasBoundary(events: seq<TaskEvent>, child: bool) {
    exists i :: 0 <= i < |events| && (IsBoundary(events[i]) || (child && events[i].Other?))
  }

  function Starts(task: TaskId, events: seq<TaskEvent>): set<(TaskId, SegmentId)> {
    set i | 0 <= i < |events| && events[i].RunStarted? :: (task, events[i].segment)
  }

  /**
   The rest of a transaction after its events are in `store`: the indexes, the
   outbox, and at a boundary the checkpoint. Any error undoes the whole
   transaction.
   */
  ghost function Land(w: World, store: Store, task: TaskId, events: seq<TaskEvent>, outbox: bool, boundary: bool): World {
    var p := store.View(task);
    var starts := if outbox then w.pendingStarts + Starts(task, events) else w.pendingStarts;
    if !IdentitiesOnce(store.Log(task)) then w
    else if !boundary then w.(store := store, pendingStarts := starts)
    else if p.run.None? then w
    else
      var tools := RolledForward(store.Log(task), w.Latest(task), p.run.value.segment, p.lastOffset);
      if tools != CanonicalTools(store.Log(task), p.run.value.segment, p.lastOffset) || |tools| > MAX_EVENTS_PER_TRANSACTION then w
      else Checkpointed(w, store, task, p.run.value.segment, Sorted(tools)).(pendingStarts := starts)
  }

  // ----- steps -----

  datatype Step =
    | Command(command: StoreCommand, refusal: Option<Reason>, decision: Decision, child: bool)
    | EngineAppend(task: TaskId, toolEvents: seq<ToolEvent>)
    | SpawnChild(task: TaskId, segment: SegmentId, startedAt: Time)
    | ChildAppend(task: TaskId, events: seq<TaskEvent>, child: bool)
    | Deliver(task: TaskId, segment: SegmentId)
    | SaveCheckpoint(task: TaskId, segment: SegmentId, tools: seq<ToolId>)
    | RecoverTask(task: TaskId, now: Time)
    | LoseRecovery(task: TaskId, read: nat, tools: seq<ToolId>, now: Time)

  function Engines(events: seq<ToolEvent>): seq<TaskEvent> {
    seq(|events|, i requires 0 <= i < |events| => Engine(events[i]))
  }

  function ChildBirth(segment: SegmentId, startedAt: Time): seq<TaskEvent> {
    [TaskCreated, Other, RunStarted(segment, startedAt)]
  }

  ghost function AppendStep(w: World, task: TaskId, events: seq<TaskEvent>, boundary: Store -> bool): World {
    match Append(w.store, task, events)
    case None => w
    case Some(store) => Land(w, store, task, events, false, boundary(store))
  }

  ghost function CommandStep(w: World, c: StoreCommand, refusal: Option<Reason>, decision: Decision, child: bool): World {
    var tx := Transact(w.store, c, refusal, decision);
    if Fresh(w.store, c) && tx.outcome.Accepted? && decision.Ok? then
      Land(w, tx.store, c.task, decision.value, true, HasBoundary(decision.value, child))
    else w.(store := tx.store)
  }

  ghost function Next(w: World, step: Step): World {
    match step
    case Command(c, refusal, decision, child) => CommandStep(w, c, refusal, decision, child)
    case EngineAppend(task, es) =>
      if |es| == 0 then w else AppendStep(w, task, Engines(es), (st: Store) => HasBoundary(Engines(es), false))
    case SpawnChild(task, segment, at) =>
      if w.store.Version(task) != 0 then w
      else AppendStep(w, task, ChildBirth(segment, at), (st: Store) => st.View(task).HasActiveRun())
    case ChildAppend(task, es, child) => AppendStep(w, task, es, (st: Store) => st.View(task).HasActiveRun() && HasBoundary(es, child))
    case Deliver(task, segment) => w.(pendingStarts := w.pendingStarts - {(task, segment)})
    case SaveCheckpoint(task, segment, tools) =>
      var p := w.store.View(task);
      if p.run.Some? && p.run.value.segment == segment && Ascending(tools)
         && Elements(tools) == CanonicalTools(w.store.Log(task), segment, p.lastOffset)
      then Checkpointed(w, w.store, task, segment, tools)
      else w
    case RecoverTask(task, now) => RecoverOne(w, task, now).0
    case LoseRecovery(task, read, tools, now) =>
      if Overtaken(w, task, read) then w.(store := OvertakenTx(w, task, read, tools, now).store) else w
  }

  const EMPTY_WORLD := World(Store(map[], 0, map[]), map[], {})

  ghost function Reach(steps: seq<Step>): World {
    if |steps| == 0 then EMPTY_WORLD else Next(Reach(steps[..|steps| - 1]), steps[|steps| - 1])
  }

  // ----- what the writers decide -----

  /** A forced stop that timed out: the one batch besides recovery's that is written with its authority. */
  predicate IsForcedEnd(e: TaskEvent) { e.RunForceStopTimedOut? || e.RunCompleted? || e.MessageRecovered? }

  /** Only a task without an active run is removed, alone in its batch. */
  predicate RemovesIdle(p: Projection, es: seq<TaskEvent>) {
    (exists i :: 0 <= i < |es| && es[i].TaskRemoved?) ==> es == [TaskRemoved(true)] && !p.HasActiveRun()
  }

  ghost predicate Governed(p: Projection, c: StoreCommand, es: seq<TaskEvent>) {
    && (c.source.Recovery? ==> forall i :: 0 <= i < |es| ==> IsForcedEnd(es[i]))
    && RemovesIdle(p, es)
    && (|es| > 0 ==> PermissionInbox.DecisionCovers(c.payload, es) && QuestionAgreement.DecisionNames(c.payload, es[0]))
  }

  predicate IsChildEvent(e: TaskEvent) { e.Other? || e.RunCompleted? }

  ghost predicate Admissible(w: World, step: Step) {
    match step
    case Command(c, _, decision, _) => !c.key.RecoveryKey? && (decision.Ok? ==> Governed(w.store.View(c.task), c, decision.value))
    case ChildAppend(_, es, _) => forall i :: 0 <= i < |es| ==> IsChildEvent(es[i])
    case LoseRecovery(task, read, _, _) => Overtaken(w, task, read)
    case _ => true
  }

  ghost predicate AdmissibleRun(steps: seq<Step>) {
    forall i :: 0 <= i < |steps| ==> Admissible(Reach(steps[..i]), steps[i])
  }

  // ----- one event -----

  /** A run keeps its segment until another one starts. */
  lemma SegmentKept(p: Projection, e: Envelope)
    requires Reduce(p, e).Some? && !e.event.RunStarted?
    ensures var q := Reduce(p, e).value;
            (q.run.Some? <==> p.run.Some?) && (q.run.Some? ==> q.run.value.segment == p.run.value.segment)
  {
    hide ItemIndex, RecoverPromoting, UpsertPromoting;
  }

  lemma {:induction false} RunOkEvent(log: seq<Envelope>, e: Envelope)
    requires Replay(log).Some? && Replay(log + [e]).Some? && RunOk(log, Replay(log).value) && !e.event.ToolIndeterminate?
    ensures RunOk(log + [e], Replay(log + [e]).value)
  {
    assert (log + [e])[..|log + [e]| - 1] == log;
    var p, q := Replay(log).value, Replay(log + [e]).value;
    ReplayIncreases(log + [e]);
    if e.event.RunStarted? {
      StartedNow(log, e);
    } else {
      SegmentKept(p, e);
      if q.run.Some? {
        var segment := q.run.value.segment;
        StartUnmoved(log, [e], segment);
        StartIsEvent(log, segment);
        var start := RunStartOffset(log, segment).value;
        var i :| 0 <= i < |log| && log[i].offset == start;
        assert (log + [e])[i].offset == start && (log + [e])[|log|] == e;
        AfterConcat(log, [e], start);
        OpenGrows(After(log, start), e);
      }
    }
  }

  lemma StartedNow(log: seq<Envelope>, e: Envelope)
    requires Increasing(log + [e]) && e.event.RunStarted?
    ensures RunStartOffset(log + [e], e.event.segment) == Some(e.offset) && After(log + [e], e.offset) == []
  {
    var all := log + [e];
    CutSplits(all, e.offset);
    assert all[|log|] == e;
  }

  lemma OpenGrows(es: seq<Envelope>, e: Envelope)
    requires IndeterminateWereOpen(es) && !e.event.ToolIndeterminate?
    ensures IndeterminateWereOpen(es + [e])
  {
    forall i | 0 <= i < |es + [e]| && (es + [e])[i].event.ToolIndeterminate? ensures (es + [e])[i].event.tool in Open({}, (es + [e])[..i]) {
      assert i < |es| && (es + [e])[..i] == es[..i];
    }
  }

  lemma {:induction false} RunOkBatch(log: seq<Envelope>, es: seq<Envelope>)
    requires Replay(log).Some? && Replay(log + es).Some? && RunOk(log, Replay(log).value)
    requires forall i :: 0 <= i < |es| ==> !es[i].event.ToolIndeterminate?
    ensures RunOk(log + es, Replay(log + es).value)
  {
    hide RunOk;
    if |es| == 0 {
      assert log + es == log;
    } else {
      var init, e := es[..|es| - 1], es[|es| - 1];
      assert log + es == (log + init) + [e];
      assert ((log + init) + [e])[..|log + init|] == log + init;
      RunOkBatch(log, init);
      RunOkEvent(log + init, e);
    }
  }

  // ----- removal and permissions -----

  /** What an event may change: removal only by removal, a permission without a run only by a request. */
  lemma EventKeeps(p: Projection, e: Envelope)
    requires Reduce(p, e).Some?
    ensures var q := Reduce(p, e).value;
            && (!e.event.TaskRemoved? ==> q.removed == p.removed)
            && (p.run.Some? ==> q.run.Some?)
            && (p.permission.None? && !e.event.PermissionRequested? ==> q.permission.None?)
            && (!p.HasActiveRun() && (IsChildEvent(e.event) || e.event.Engine?) ==> !q.HasActiveRun())
  {
    hide ItemIndex, RecoverPromoting, UpsertPromoting;
  }

  lemma {:induction false} BatchKeeps(p: Projection, es: seq<Envelope>)
    requires ReduceAll(p, es).Some? && forall i :: 0 <= i < |es| ==> !es[i].event.TaskRemoved?
    ensures var q := ReduceAll(p, es).value;
            && q.removed == p.removed && (p.run.Some? ==> q.run.Some?)
            && (p.permission.None? && (forall i :: 0 <= i < |es| ==> !es[i].event.PermissionRequested?) ==> q.permission.None?)
            && (!p.HasActiveRun() && (forall i :: 0 <= i < |es| ==> IsChildEvent(es[i].event) || es[i].event.Engine?) ==> !q.HasActiveRun())
  {
    if |es| > 0 {
      BatchKeeps(p, es[..|es| - 1]);
      hide Reduce;
      EventKeeps(ReduceAll(p, es[..|es| - 1]).value, es[|es| - 1]);
    }
  }

  /** What a batch must respect for the task to stay in order. */
  ghost predicate Orderly(p: Projection, es: seq<TaskEvent>) {
    && RemovesIdle(p, es)
    && (forall i :: 0 <= i < |es| ==> !es[i].ToolIndeterminate?)
    && (p.removed ==> forall i :: 0 <= i < |es| ==> IsChildEvent(es[i]) || es[i].Engine?)
  }

  lemma TaskStaysOk(p: Projection, es: seq<TaskEvent>, offset: nat, q: Projection)
    requires TaskOk(p) && Orderly(p, es) && ReduceAll(p, Stamp(es, offset)) == Some(q)
    requires (exists i :: 0 <= i < |es| && es[i].PermissionRequested?) ==> q.run.Some?
    ensures TaskOk(q)
  {
    var envelopes := Stamp(es, offset);
    forall i | 0 <= i < |es| ensures envelopes[i].event == es[i] { }
    if i :| 0 <= i < |es| && es[i].TaskRemoved? {
      ReduceOne(p, TaskRemoved(true), offset);
    } else {
      BatchKeeps(p, envelopes);
      if q.run.None? { assert forall i :: 0 <= i < |es| ==> !envelopes[i].event.PermissionRequested?; }
      if p.removed { assert forall i :: 0 <= i < |es| ==> IsChildEvent(envelopes[i].event) || envelopes[i].event.Engine?; }
    }
  }

  // ----- checkpoints -----

  /** A validated checkpoint stays valid in a longer stream whose segments begin once. */
  lemma CheckpointStays(log: seq<Envelope>, es: seq<Envelope>, c: Checkpoint)
    requires CheckpointOk(log, c) && Increasing(log + es) && IdentitiesOnce(log + es)
    ensures CheckpointOk(log + es, c)
  {
    StartedBefore(log, c.segment);
    var k :| 0 <= k < |log| && log[k].event.RunStarted? && log[k].event.segment == c.segment;
    forall i | 0 <= i < |es| ensures !(es[i].event.RunStarted? && es[i].event.segment == c.segment) {
      assert (log + es)[k] == log[k] && (log + es)[|log| + i] == es[i];
      assert !SameIdentity((log + es)[k].event, (log + es)[|log| + i].event);
    }
    StartKept(log, es, c.segment);
    var last := log[|log| - 1];
    assert (log + es)[|log| - 1] == last;
    forall i | 0 <= i < |es| ensures es[i].offset > c.offset { assert (log + es)[|log| + i] == es[i]; }
    BetweenConcat(log, es, RunStartOffset(log, c.segment).value, c.offset);
    assert |log| - 1 <= |log + es| - 1;
  }

  lemma {:induction false} StartedBefore(log: seq<Envelope>, segment: SegmentId)
    requires RunStartOffset(log, segment).Some?
    ensures exists k :: 0 <= k < |log| && log[k].event.RunStarted? && log[k].event.segment == segment
  {
    var e := log[|log| - 1];
    if !(e.event.RunStarted? && e.event.segment == segment) {
      StartedBefore(log[..|log| - 1], segment);
      var k :| 0 <= k < |log| - 1 && log[..|log| - 1][k].event.RunStarted? && log[..|log| - 1][k].event.segment == segment;
      assert log[k].event.RunStarted?;
    }
  }

  lemma {:induction false} StartKept(log: seq<Envelope>, es: seq<Envelope>, segment: SegmentId)
    requires forall i :: 0 <= i < |es| ==> !(es[i].event.RunStarted? && es[i].event.segment == segment)
    ensures RunStartOffset(log + es, segment) == RunStartOffset(log, segment)
  {
    if |es| == 0 {
      assert log + es == log;
    } else {
      assert (log + es)[..|log + es| - 1] == log + es[..|es| - 1];
      StartKept(log, es[..|es| - 1], segment);
    }
  }

  /** A checkpoint of the current run with the canonical tools at the end of the stream is valid. */
  lemma CheckpointAtEnd(store: Store, task: TaskId, tools: seq<ToolId>)
    requires store.Valid() && store.View(task).run.Some? && RunOk(store.Log(task), store.View(task)) && Ascending(tools)
    requires Elements(tools) == CanonicalTools(store.Log(task), store.View(task).run.value.segment, store.View(task).lastOffset)
    ensures CheckpointOk(store.Log(task), Checkpoint(store.View(task).run.value.segment, store.View(task).lastOffset, tools))
  {
    ViewFacts(store, task);
    StartInLog(store.Log(task), store.View(task).run.value.segment);
  }

  // ----- the invariant of the durable state -----

  ghost predicate Durable(w: World) {
    && WorldOk(w)
    && PermissionProtocol.InboxSound(w.store) && QuestionProtocol.InboxSound(w.store)
    && forall task :: IdentitiesOnce(w.store.Log(task))
  }

  /** `b` has what `a` had for recovery's own commands. */
  ghost predicate SameRecoveryEntries(a: Store, b: Store) {
    forall task, segment :: (task, RecoveryKey(segment)) in b.inbox ==>
      (task, RecoveryKey(segment)) in a.inbox && b.inbox[(task, RecoveryKey(segment))] == a.inbox[(task, RecoveryKey(segment))]
  }

  lemma EntriesStayOk(a: Store, b: Store)
    requires InboxOk(a) && SameRecoveryEntries(a, b) && Grows(a, b)
    ensures InboxOk(b)
  {
    forall task, segment | (task, RecoveryKey(segment)) in b.inbox ensures EntryOk(b, task, segment,
        b.inbox[(task, RecoveryKey(segment))]) {
      assert EntryOk(a, task, segment, a.inbox[(task, RecoveryKey(segment))]);
      assert a.Log(task) <= b.Log(task);
    }
  }

  lemma SameLogsOk(w: World, store: Store)
    requires WorldOk(w) && store.Valid() && SameLogs(w.store, store) && SameRecoveryEntries(w.store, store)
    ensures WorldOk(w.(store := store))
  {
    hide RunOk, CheckpointOk, TaskOk, EntryOk;
    forall t ensures store.Log(t) == w.store.Log(t) && store.View(t) == w.store.View(t) { assert w.store.Log(t) == store.Log(t); }
    EntriesStayOk(w.store, store);
    forall t ensures TaskOk(store.View(t)) && RunOk(store.Log(t), store.View(t)) {
      assert TaskOk(w.store.View(t)) && RunOk(w.store.Log(t), w.store.View(t));
    }
  }

  /** The task whose stream grew. */
  lemma GrownTaskOk(w: World, store: Store, task: TaskId, events: seq<TaskEvent>)
    requires WorldOk(w) && store.Valid() && Appended(w.store, store, task, events) && Orderly(w.store.View(task), events)
    requires (exists i :: 0 <= i < |events| && events[i].PermissionRequested?) ==> store.View(task).run.Some?
    ensures TaskOk(store.View(task)) && RunOk(store.Log(task), store.View(task))
  {
    hide RunOk;
    var es := Stamp(events, w.store.lastOffset);
    ViewAppend(w.store, store, task, events);
    assert TaskOk(w.store.View(task)) && RunOk(w.store.Log(task), w.store.View(task));
    TaskStaysOk(w.store.View(task), events, w.store.lastOffset, store.View(task));
    LogReplays(w.store, task);
    LogReplays(store, task);
    forall i | 0 <= i < |es| ensures !es[i].event.ToolIndeterminate? { assert es[i].event == events[i]; }
    RunOkBatch(w.store.Log(task), es);
  }

  lemma GrownOk(w: World, w': World, task: TaskId)
    requires WorldOk(w) && w'.store.Valid() && SameRecoveryEntries(w.store, w'.store) && Grows(w.store, w'.store)
    requires forall t :: t != task ==> w'.store.Log(t) == w.store.Log(t) && w'.Latest(t) == w.Latest(t)
    requires TaskOk(w'.store.View(task)) && RunOk(w'.store.Log(task), w'.store.View(task))
    requires task in w'.latest ==> CheckpointOk(w'.store.Log(task), w'.latest[task])
    ensures WorldOk(w')
  {
    hide RunOk, CheckpointOk, TaskOk, EntryOk;
    EntriesStayOk(w.store, w'.store);
    forall t ensures TaskOk(w'.store.View(t)) && RunOk(w'.store.Log(t), w'.store.View(t)) {
      if t != task { assert w'.store.Log(t) == w.store.Log(t) && TaskOk(w.store.View(t)) && RunOk(w.store.Log(t), w.store.View(t)); }
    }
    forall t | t in w'.latest ensures CheckpointOk(w'.store.Log(t), w'.latest[t]) {
      if t != task { assert w'.Latest(t) == w.Latest(t) && t in w.latest && CheckpointOk(w.store.Log(t), w.latest[t]); }
    }
  }

  /** A commit keeps the durable state in order, checkpoint included. */
  lemma LandKeeps(w: World, store: Store, task: TaskId, events: seq<TaskEvent>, outbox: bool, boundary: bool)
    requires WorldOk(w) && store.Valid() && Appended(w.store, store, task, events) && Orderly(w.store.View(task), events)
    requires SameRecoveryEntries(w.store, store)
    requires (exists i :: 0 <= i < |events| && events[i].PermissionRequested?) ==> boundary
    ensures WorldOk(Land(w, store, task, events, outbox, boundary))
  {
    hide WorldOk, RunOk, CheckpointOk, TaskOk, Orderly, IdentitiesOnce, RolledForward, CanonicalTools, SameRecoveryEntries, Starts;
    var w' := Land(w, store, task, events, outbox, boundary);
    if w' != w {
      GrownTaskOk(w, store, task, events);
      AppendedGrows(w.store, store, task, events);
      LandedCheckpoint(w, store, task, events, outbox, boundary);
      GrownOk(w, w', task);
    }
  }

  lemma LandedCheckpoint(w: World, store: Store, task: TaskId, events: seq<TaskEvent>, outbox: bool, boundary: bool)
    requires WorldOk(w) && store.Valid() && Appended(w.store, store, task, events)
    requires RunOk(store.Log(task), store.View(task))
    requires Land(w, store, task, events, outbox, boundary) != w
    ensures var w' := Land(w, store, task, events, outbox, boundary);
            && w'.store == store && (task in w'.latest ==> CheckpointOk(store.Log(task), w'.latest[task]))
            && forall t :: t != task ==> w'.Latest(t) == w.Latest(t)
  {
    hide RunOk, CheckpointOk, RolledForward, CanonicalTools, Starts;
    var w' := Land(w, store, task, events, outbox, boundary);
    if boundary {
      CheckpointAtEnd(store, task, w'.latest[task].tools);
    } else if task in w.latest {
      ViewFacts(store, task);
      CheckpointStays(w.store.Log(task), Stamp(events, w.store.lastOffset), w.latest[task]);
    }
  }

  // ----- every step -----

  /** A batch of the broker protocol or of an actor leaves nothing out of order. */
  lemma GovernedIsOrderly(st: Store, c: StoreCommand, es: seq<TaskEvent>)
    requires Governed(st.View(c.task), c, es) && AcceptableBatch(c.source, es) && !st.View(c.task).removed
    ensures Orderly(st.View(c.task), es)
  {
    forall i | 0 <= i < |es| ensures !es[i].ToolIndeterminate? {
      assert AllowedSource(c.source, es[i]);
      if c.source.Recovery? { assert IsForcedEnd(es[i]); }
    }
  }

  lemma RequestIsBoundary(es: seq<TaskEvent>, child: bool)
    ensures (exists i :: 0 <= i < |es| && es[i].PermissionRequested?) ==> HasBoundary(es, child)
  {
    if i :| 0 <= i < |es| && es[i].PermissionRequested? { assert IsBoundary(es[i]); }
  }

  /** A fresh acceptance found the task present and not removed. */
  lemma AcceptedIsPresent(st: Store, c: StoreCommand, refusal: Option<Reason>, decision: Decision)
    requires Fresh(st, c) && Transact(st, c, refusal, decision).outcome.Accepted?
    ensures !st.View(c.task).removed
  {
    hide Append, AcceptableBatch;
  }

  lemma CommandEntries(st: Store, c: StoreCommand, refusal: Option<Reason>, decision: Decision)
    requires !c.key.RecoveryKey?
    ensures SameRecoveryEntries(st, Transact(st, c, refusal, decision).store)
  {
    hide Transact;
    TransactInbox(st, c, refusal, decision);
  }

  lemma CommandKeeps(w: World, c: StoreCommand, refusal: Option<Reason>, decision: Decision, child: bool)
    requires WorldOk(w) && Admissible(w, Step.Command(c, refusal, decision, child))
    ensures WorldOk(CommandStep(w, c, refusal, decision, child))
  {
    hide WorldOk, Transact, Governed, Orderly, Land, AcceptableBatch, HasBoundary, SameRecoveryEntries;
    assert w.store.Valid() by { StoreIsValid(w); }
    var tx := Transact(w.store, c, refusal, decision);
    TransactLogs(w.store, c, refusal, decision);
    CommandEntries(w.store, c, refusal, decision);
    if Fresh(w.store, c) && tx.outcome.Accepted? && decision.Ok? {
      AcceptedIsPresent(w.store, c, refusal, decision);
      GovernedIsOrderly(w.store, c, decision.value);
      RequestIsBoundary(decision.value, child);
      LandKeeps(w, tx.store, c.task, decision.value, true, HasBoundary(decision.value, child));
    } else {
      SameLogsOk(w, tx.store);
    }
  }

  lemma StoreIsValid(w: World)
    requires WorldOk(w)
    ensures w.store.Valid()
  {
  }

  lemma AppendStepKeeps(w: World, task: TaskId, events: seq<TaskEvent>, boundary: Store -> bool)
    requires WorldOk(w) && Orderly(w.store.View(task), events) && forall i :: 0 <= i < |events| ==> !events[i].PermissionRequested?
    ensures WorldOk(AppendStep(w, task, events, boundary))
  {
    hide WorldOk, Orderly, Land;
    StoreIsValid(w);
    var r := Append(w.store, task, events);
    if r.Some? {
      AppendResult(w.store, task, events);
      LandKeeps(w, r.value, task, events, false, boundary(r.value));
    }
  }

  lemma SaveKeeps(w: World, task: TaskId, segment: SegmentId, tools: seq<ToolId>)
    requires WorldOk(w)
    ensures WorldOk(Next(w, SaveCheckpoint(task, segment, tools)))
  {
    hide WorldOk, CheckpointOk, RunOk, TaskOk, CanonicalTools;
    var w' := Next(w, SaveCheckpoint(task, segment, tools));
    if w' != w {
      TaskIsOk(w, task);
      CheckpointAtEnd(w.store, task, tools);
      assert w'.store == w.store;
      GrownOk(w, w', task);
    }
  }

  lemma TaskIsOk(w: World, task: TaskId)
    requires WorldOk(w)
    ensures w.store.Valid() && TaskOk(w.store.View(task)) && RunOk(w.store.Log(task), w.store.View(task))
  {
    hide RunOk, CheckpointOk;
  }

  /** Every write keeps what recovery relies on. */
  lemma WorldStepKeeps(w: World, step: Step)
    requires WorldOk(w) && Admissible(w, step)
    ensures WorldOk(Next(w, step))
  {
    match step
    case Command(c, refusal, decision, child) => CommandKeeps(w, c, refusal, decision, child);
    case EngineAppend(task, es) => EngineKeeps(w, task, es);
    case SpawnChild(task, segment, at) => SpawnKeeps(w, task, segment, at);
    case ChildAppend(task, es, child) =>
      ChildIsOrderly(w.store.View(task), es);
      AppendStepKeeps(w, task, es, (st: Store) => st.View(task).HasActiveRun() && HasBoundary(es, child));
    case Deliver(task, segment) => assert Next(w, step).store == w.store;
    case SaveCheckpoint(task, segment, tools) => SaveKeeps(w, task, segment, tools);
    case RecoverTask(task, now) => OneKeeps(w, task, now);
    case LoseRecovery(task, read, tools, now) => OvertakenKeeps(w, task, read, tools, now);
  }

  lemma ChildIsOrderly(p: Projection, es: seq<TaskEvent>)
    requires forall i :: 0 <= i < |es| ==> IsChildEvent(es[i]) || es[i].Engine?
    ensures Orderly(p, es) && forall i :: 0 <= i < |es| ==> !es[i].PermissionRequested?
  {
  }

  lemma EngineKeeps(w: World, task: TaskId, es: seq<ToolEvent>)
    requires WorldOk(w)
    ensures WorldOk(Next(w, EngineAppend(task, es)))
  {
    ChildIsOrderly(w.store.View(task), Engines(es));
    AppendStepKeeps(w, task, Engines(es), (st: Store) => HasBoundary(Engines(es), false));
  }

  lemma SpawnKeeps(w: World, task: TaskId, segment: SegmentId, at: Time)
    requires WorldOk(w)
    ensures WorldOk(Next(w, SpawnChild(task, segment, at)))
  {
    if w.store.Version(task) == 0 {
      assert w.store.View(task) == EMPTY_PROJECTION;
      AppendStepKeeps(w, task, ChildBirth(segment, at), (st: Store) => st.View(task).HasActiveRun());
    }
  }

  // ----- the brokers' inbox entries and the identities -----

  ghost predicate InboxesSound(st: Store) { PermissionProtocol.InboxSound(st) && QuestionProtocol.InboxSound(st) }

  lemma GrowsSound(a: Store, b: Store)
    requires InboxesSound(a) && Grows(a, b) && b.inbox == a.inbox
    ensures InboxesSound(b)
  {
    PermissionInbox.InboxGrows(a, b);
    QuestionAgreement.InboxGrows(a, b);
  }

  lemma TransactSound(st: Store, c: StoreCommand, refusal: Option<Reason>, decision: Decision)
    requires st.Valid() && InboxesSound(st)
    requires decision.Ok? && |decision.value| > 0 ==>
      PermissionInbox.DecisionCovers(c.payload, decision.value) && QuestionAgreement.DecisionNames(c.payload, decision.value[0])
    ensures InboxesSound(Transact(st, c, refusal, decision).store)
  {
    hide Transact, PermissionInbox.DecisionCovers, QuestionAgreement.DecisionNames, PermissionProtocol.InboxSound,
        QuestionProtocol.InboxSound;
    PermissionInbox.TransactSound(st, c, refusal, decision);
    QuestionAgreement.TransactKeepsInbox(st, c, refusal, decision);
  }

  lemma LandStore(w: World, store: Store, task: TaskId, events: seq<TaskEvent>, outbox: bool, boundary: bool)
    ensures var w' := Land(w, store, task, events, outbox, boundary);
            w' == w || (w'.store == store && IdentitiesOnce(store.Log(task)))
  {
    hide IdentitiesOnce, RolledForward, CanonicalTools, Starts;
  }

  lemma InboxStepKeeps(w: World, step: Step)
    requires WorldOk(w) && InboxesSound(w.store) && Admissible(w, step)
    ensures InboxesSound(Next(w, step).store)
  {
    hide Land, Transact, InboxesSound, RecoverOne, Append, WorldOk;
    StoreIsValid(w);
    match step
    case Command(c, refusal, decision, child) =>
      TransactSound(w.store, c, refusal, decision);
      if decision.Ok? { LandStore(w, Transact(w.store, c, refusal, decision).store, c.task, decision.value, true,
          HasBoundary(decision.value, child)); }
    case EngineAppend(task, es) => AppendSound(w, task, Engines(es), (st: Store) => HasBoundary(Engines(es), false));
    case SpawnChild(task, segment, at) => AppendSound(w, task, ChildBirth(segment, at), (st: Store) => st.View(task).HasActiveRun());
    case ChildAppend(task, es, child) => AppendSound(w, task, es, (st: Store) => st.View(task).HasActiveRun() && HasBoundary(es, child));
    case Deliver(_, _) =>
    case SaveCheckpoint(_, _, _) =>
    case RecoverTask(task, now) => RecoverSound(w, task, now);
    case LoseRecovery(task, read, tools, now) =>
      var p := ViewAt(w.store, task, read);
      TransactSound(w.store, RecoveryCommand(task, p.run.value.segment, read), None, Ok(RecoveryEvents(p, tools, now)));
  }

  lemma AppendSound(w: World, task: TaskId, events: seq<TaskEvent>, boundary: Store -> bool)
    requires w.store.Valid() && InboxesSound(w.store)
    ensures InboxesSound(AppendStep(w, task, events, boundary).store)
  {
    hide Land, InboxesSound;
    var r := Append(w.store, task, events);
    if r.Some? {
      AppendResult(w.store, task, events);
      AppendedGrows(w.store, r.value, task, events);
      GrowsSound(w.store, r.value);
      LandStore(w, r.value, task, events, false, boundary(r.value));
    }
  }

  lemma RecoverSound(w: World, task: TaskId, now: Time)
    requires w.store.Valid() && InboxesSound(w.store)
    ensures InboxesSound(RecoverOne(w, task, now).0.store)
  {
    hide Transact, InboxesSound, RecoveryEvents, OpenTools, Sorted;
    var p := w.store.View(task);
    if p.HasActiveRun() {
      var segment := p.run.value.segment;
      TransactSound(w.store, RecoveryCommand(task, segment, p.version), None,
                    Ok(RecoveryEvents(p, Sorted(OpenTools(w.store.Log(task), segment)), now)));
    }
  }

  /** Events that begin nothing keep the identities of a stream apart. */
  lemma IdentitiesGrow(log: seq<Envelope>, es: seq<Envelope>)
    requires IdentitiesOnce(log) && forall i :: 0 <= i < |es| ==> !Begins(es[i].event)
    ensures IdentitiesOnce(log + es)
  {
    var all := log + es;
    forall i, j | 0 <= i < j < |all| ensures !SameIdentity(all[i].event, all[j].event) {
      if j < |log| { assert !SameIdentity(log[i].event, log[j].event); } else { assert !Begins(es[j - |log|].event); }
    }
  }

  predicate Begins(e: TaskEvent) { e.RunStarted? || e.MessageQueued? || e.PermissionRequested? }

  lemma RecoverIdentities(w: World, task: TaskId, now: Time)
    requires WorldOk(w) && IdentitiesOnce(w.store.Log(task))
    ensures IdentitiesOnce(RecoverOne(w, task, now).0.store.Log(task))
  {
    hide WorldOk, IdentitiesOnce, RecoveryTx, Append, RecoveryEvents, Interruption;
    var p := w.store.View(task);
    if p.HasActiveRun() && (task, p.run.value.segment) !in w.pendingStarts {
      TxStore(w, task, now);
      if RecoveryTx(w, task, now).outcome.Accepted? {
        AcceptedForm(w, task, now);
        BatchOnly(p, Tools(w, task), now);
        var es := Stamp(Events(w, task, now), w.store.lastOffset);
        forall i | 0 <= i < |es| ensures !Begins(es[i].event) { assert RecoveryEvent(Events(w, task, now)[i], Elements(Tools(w, task))); }
        IdentitiesGrow(w.store.Log(task), es);
      }
    }
  }

  lemma IdentityStepKeeps(w: World, step: Step, task: TaskId)
    requires WorldOk(w) && IdentitiesOnce(w.store.Log(task)) && Admissible(w, step)
    ensures IdentitiesOnce(Next(w, step).store.Log(task))
  {
    hide WorldOk, IdentitiesOnce, Land, Transact, RecoverOne;
    StoreIsValid(w);
    match step
    case Command(c, refusal, decision, child) =>
      TransactLogs(w.store, c, refusal, decision);
      if decision.Ok? { LandStore(w, Transact(w.store, c, refusal, decision).store, c.task, decision.value, true,
          HasBoundary(decision.value, child)); }
    case EngineAppend(t, es) => AppendIdentities(w, t, Engines(es), (st: Store) => HasBoundary(Engines(es), false), task);
    case SpawnChild(t, segment, at) => AppendIdentities(w, t, ChildBirth(segment, at), (st: Store) => st.View(t).HasActiveRun(), task);
    case ChildAppend(t, es, child) => AppendIdentities(w, t, es, (st: Store) => st.View(t).HasActiveRun() && HasBoundary(es, child), task);
    case Deliver(_, _) =>
    case SaveCheckpoint(_, _, _) =>
    case RecoverTask(t, now) => if t == task { RecoverIdentities(w, t, now); } else { OneFrame(w, t, now, task); }
    case LoseRecovery(t, read, tools, now) => OvertakenKeeps(w, t, read, tools, now);
  }

  lemma AppendIdentities(w: World, t: TaskId, events: seq<TaskEvent>, boundary: Store -> bool, task: TaskId)
    requires w.store.Valid() && IdentitiesOnce(w.store.Log(task))
    ensures IdentitiesOnce(AppendStep(w, t, events, boundary).store.Log(task))
  {
    hide Land, IdentitiesOnce;
    var r := Append(w.store, t, events);
    if r.Some? {
      AppendResult(w.store, t, events);
      LandStore(w, r.value, t, events, false, boundary(r.value));
    }
  }

  // ----- every run -----

  lemma StepKeeps(w: World, step: Step)
    requires Durable(w) && Admissible(w, step)
    ensures Durable(Next(w, step))
  {
    hide WorldOk, IdentitiesOnce, Next, Admissible, PermissionProtocol.InboxSound, QuestionProtocol.InboxSound;
    WorldStepKeeps(w, step);
    InboxStepKeeps(w, step);
    forall task ensures IdentitiesOnce(Next(w, step).store.Log(task)) { IdentityStepKeeps(w, step, task); }
  }

  /**
   Whatever the daemon has written, its durable state satisfies what startup
   recovery relies on, accepted commands are backed by their events, and no run,
   message or permission began twice in its stream.
   */
  lemma {:induction false} ReachableIsDurable(steps: seq<Step>)
    requires AdmissibleRun(steps)
    ensures Durable(Reach(steps))
  {
    if |steps| == 0 {
      EmptyIsDurable();
    } else {
      var init := steps[..|steps| - 1];
      forall i | 0 <= i < |init| ensures Admissible(Reach(init[..i]), init[i]) { assert init[..i] == steps[..i]; }
      ReachableIsDurable(init);
      StepKeeps(Reach(init), steps[|steps| - 1]);
    }
  }

  lemma EmptyIsDurable()
    ensures Durable(EMPTY_WORLD)
  {
    forall task ensures EMPTY_WORLD.store.Log(task) == [] && EMPTY_WORLD.store.View(task) == EMPTY_PROJECTION { }
  }

  // ----- every startup -----

  /**
   Startup recovery of every state the daemon can leave behind: it succeeds exactly
   if nothing stops it, and then it is complete, and idle when repeated.
   */
  lemma StartupRecovers(steps: seq<Step>, clock: TaskId -> Time, later: TaskId -> Time, task: TaskId)
    requires AdmissibleRun(steps)
    ensures Pass(Reach(steps), clock).1.Ok? <==> NothingStops(Reach(steps), clock)
    ensures var w := Reach(steps); var w' := Pass(w, clock).0; var p := w'.store.View(task);
            NothingStops(w, clock) ==>
            && ((p.run.Some? ==> (task, p.run.value.segment) !in w.pendingStarts) ==>
                  !p.HasActiveRun() && p.permission.None? && p.question.None?)
            && Pass(w', later) == (w', Ok([]))
  {
    ReachableIsDurable(steps);
    hide WorldOk, Pass, Reach, AdmissibleRun, NothingStops;
    PassSucceedsExactly(Reach(steps), clock);
    if NothingStops(Reach(steps), clock) {
      PassIsComplete(Reach(steps), clock, task);
      SecondPassIsIdle(Reach(steps), clock, later);
    }
  }

  ghost predicate NothingPending(st: Store) {
    forall task :: st.View(task).permission.None? && st.View(task).question.None?
  }

  /** A run whose start is still to be delivered has asked nothing. */
  ghost predicate UndeliveredIsQuiet(w: World) {
    forall task :: QuietTask(w.store.View(task), task, w.pendingStarts)
  }

  predicate QuietTask(p: Projection, task: TaskId, pendingStarts: set<(TaskId, SegmentId)>) {
    p.run.Some? && (task, p.run.value.segment) in pendingStarts ==> p.permission.None? && p.question.None?
  }

  /** Recovery leaves a settled task as it is. */
  lemma {:induction false} AllLeavesSettled(w: World, tasks: seq<TaskId>, clock: TaskId -> Time, t: TaskId)
    requires WorldOk(w) && Ascending(tasks) && Settled(w, t)
    ensures Same(w, RecoverAll(w, tasks, clock).0, t)
  {
    hide WorldOk, RecoverOne, Same, Settled;
    if |tasks| == 0 {
      SameSelf(w, t);
    } else {
      var init, task := tasks[..|tasks| - 1], tasks[|tasks| - 1];
      AllLeavesSettled(w, init, clock, t);
      AllFacts(w, init, clock);
      var before := RecoverAll(w, init, clock).0;
      if t == task {
        SettledFrame(w, before, t);
        SettledIsFixed(before, task, clock(task));
      } else {
        OneFrame(before, task, clock(task), t);
        SameTrans(w, before, RecoverOne(before, task, clock(task)).0, t);
      }
    }
  }

  lemma PendingIsActive(st: Store, task: TaskId)
    requires st.Valid() && TaskOk(st.View(task)) && (st.View(task).permission.Some? || st.View(task).question.Some?)
    ensures st.View(task).HasActiveRun()
  {
    ViewFacts(st, task);
  }

  lemma QuietStays(w: World, clock: TaskId -> Time, task: TaskId)
    requires WorldOk(w) && NothingStops(w, clock)
    ensures var p := Pass(w, clock).0.store.View(task);
            (p.permission.None? && p.question.None?) <==> QuietTask(w.store.View(task), task, w.pendingStarts)
  {
    hide RecoverAll, WorldOk, NothingStops;
    var order := Sorted(ScanSet(w.store));
    var w' := Pass(w, clock).0;
    AllFacts(w, order, clock);
    TaskIsOk(w, task);
    TaskIsOk(w', task);
    PassIsComplete(w, clock, task);
    var p := w.store.View(task);
    if !QuietTask(p, task, w.pendingStarts) {
      PendingIsActive(w.store, task);
      AllLeavesSettled(w, order, clock, task);
    } else if w'.store.View(task).permission.Some? || w'.store.View(task).question.Some? {
      PendingIsActive(w'.store, task);
      StillUndelivered(w, order, clock, task);
    }
  }

  /** A run that is still active after a successful pass was not delivered, and the pass did not touch it. */
  lemma {:induction false} StillUndelivered(w: World, tasks: seq<TaskId>, clock: TaskId -> Time, task: TaskId)
    requires WorldOk(w) && Ascending(tasks) && RecoverAll(w, tasks, clock).1.Ok?
    requires var p := RecoverAll(w, tasks, clock).0.store.View(task); p.HasActiveRun() && (task, p.run.value.segment) in w.pendingStarts
    ensures RecoverAll(w, tasks, clock).0.store.View(task) == w.store.View(task)
    decreases tasks
  {
    hide WorldOk;
    if |tasks| > 0 {
      var init, last := tasks[..|tasks| - 1], tasks[|tasks| - 1];
      var before := RecoverAll(w, init, clock).0;
      AllFacts(w, init, clock);
      OneStillUndelivered(before, last, clock(last), task);
      StillUndelivered(w, init, clock, task);
    }
  }

  lemma OneStillUndelivered(w: World, task: TaskId, now: Time, t: TaskId)
    requires WorldOk(w) && RecoverOne(w, task, now).1.Ok?
    requires var p := RecoverOne(w, task, now).0.store.View(t); p.HasActiveRun() && (t, p.run.value.segment) in w.pendingStarts
    ensures RecoverOne(w, task, now).0.store.View(t) == w.store.View(t)
  {
    hide WorldOk, RecoveryTx, Append, RecoveryEvents;
    if t != task {
      OneFrame(w, task, now, t);
      SameView(w, RecoverOne(w, task, now).0, t);
    } else {
      var p := w.store.View(task);
      if p.HasActiveRun() && (task, p.run.value.segment) !in w.pendingStarts {
        TxOutcome(w, task, now);
        TxStore(w, task, now);
        AcceptedForm(w, task, now);
      }
    }
  }

  /** After a pass that nothing stops, nothing is pending if and only if every undelivered start was quiet before it. */
  lemma RecoveryClearsExactly(w: World, clock: TaskId -> Time)
    requires WorldOk(w) && NothingStops(w, clock)
    ensures NothingPending(Pass(w, clock).0.store) <==> UndeliveredIsQuiet(w)
  {
    hide WorldOk, Pass, QuietTask, NothingStops;
    forall task ensures var p := Pass(w, clock).0.store.View(task);
                        (p.permission.None? && p.question.None?) <==> QuietTask(w.store.View(task), task, w.pendingStarts) {
      QuietStays(w, clock, task);
    }
  }
}
