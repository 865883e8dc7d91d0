/**
 Three short runs of the daemon, each followed by startup recovery: one that it
 ends as expected, one that leaves a request pending, and one that it cannot end.
 */
module DaemonHazards {
  import opened Basics
  import opened TaskStream
  import opened StreamLaws
  import opened StoreLaws
  import opened ToolHistory
  import opened RecoveryBatch
  import opened Recovery
  import opened RecoveryServices
  import opened DaemonRuns
  import opened DaemonStarts
  import PermissionProtocol
  import QuestionProtocol

  // ----- commits without tools -----

  predicate ToolFree(log: seq<Envelope>) {
    forall i :: 0 <= i < |log| ==> !log[i].event.Engine? && !log[i].event.ToolIndeterminate?
  }

  lemma {:induction false} NoTools(es: seq<Envelope>)
    requires ToolFree(es)
    ensures Canonical({}, es) == {}
  {
    if |es| > 0 { NoTools(es[..|es| - 1]); }
  }

  lemma {:induction false} BetweenToolFree(log: seq<Envelope>, after: nat, upTo: nat)
    requires ToolFree(log)
    ensures ToolFree(Between(log, after, upTo))
  {
    if |log| > 0 { BetweenToolFree(log[..|log| - 1], after, upTo); }
  }

  /** The latest checkpoint of the task holds no tool. */
  predicate NoneOpen(w: World, task: TaskId) { task in w.latest ==> w.latest[task].tools == [] }

  lemma RollsToNothing(w: World, log: seq<Envelope>, task: TaskId, segment: SegmentId, offset: nat)
    requires ToolFree(log) && NoneOpen(w, task)
    ensures RolledForward(log, w.Latest(task), segment, offset) == {} && CanonicalTools(log, segment, offset) == {}
  {
    if RunStartOffset(log, segment).Some? {
      BetweenToolFree(log, RunStartOffset(log, segment).value, offset);
      NoTools(Between(log, RunStartOffset(log, segment).value, offset));
    }
    if w.Latest(task).Some? {
      BetweenToolFree(log, w.latest[task].offset, offset);
      NoTools(Between(log, w.latest[task].offset, offset));
      assert Elements(w.latest[task].tools) == {};
    }
  }

  /** A stream about one run, seen from outside. */
  ghost predicate At(w: World, task: TaskId, version: nat) {
    && Durable(w) && w.store.Version(task) == version && ToolFree(w.store.Log(task)) && NoneOpen(w, task)
    && !w.store.View(task).removed
  }

  /** A command with one event, at the current version. */
  ghost predicate CommitsOne(w: World, c: StoreCommand, e: TaskEvent) {
    && At(w, c.task, c.expected) && Fresh(w.store, c) && !c.key.RecoveryKey? && !c.source.Recovery?
    && AllowedSource(c.source, e) && !e.MessageConsumed? && !e.TaskRemoved? && !e.Engine? && !e.ToolIndeterminate?
    && Governed(w.store.View(c.task), c, [e])
    && Reduce(w.store.View(c.task), Envelope(w.store.lastOffset + 1, e)).Some?
    && (Begins(e) ==> forall i :: 0 <= i < |w.store.Log(c.task)| ==> !SameIdentity(w.store.Log(c.task)[i].event, e))
    && (IsBoundary(e) ==> Reduce(w.store.View(c.task), Envelope(w.store.lastOffset + 1, e)).value.run.Some?)
  }

  function One(c: StoreCommand, e: TaskEvent): Step { Step.Command(c, None, Ok([e]), false) }

  lemma OneMoreIdentity(log: seq<Envelope>, e: Envelope)
    requires IdentitiesOnce(log) && (Begins(e.event) ==> forall i :: 0 <= i < |log| ==> !SameIdentity(log[i].event, e.event))
    ensures IdentitiesOnce(log + [e])
  {
    var all := log + [e];
    forall i, j | 0 <= i < j < |all| ensures !SameIdentity(all[i].event, all[j].event) {
      if j < |log| { assert !SameIdentity(log[i].event, log[j].event); }
    }
  }

  lemma LandsOne(w: World, c: StoreCommand, e: TaskEvent) returns (w': World)
    requires CommitsOne(w, c, e)
    ensures w' == Next(w, One(c, e)) && Admissible(w, One(c, e)) && At(w', c.task, c.expected + 1)
    ensures Reduce(w.store.View(c.task), Envelope(w.store.lastOffset + 1, e)) == Some(w'.store.View(c.task))
    ensures w'.store.Log(c.task) == w.store.Log(c.task) + [Envelope(w.store.lastOffset + 1, e)]
    ensures w'.pendingStarts == w.pendingStarts + Starts(c.task, [e])
    ensures w'.store.inbox == w.store.inbox[(c.task, c.key) := InboxEntry(c.payload, c.expected, Accepted)]
    ensures forall t :: t != c.task ==> w'.store.Log(t) == w.store.Log(t)
  {
    StoreIsValid(w);
    TransactOne(w.store, c, e);
    OneLogs(w, c, e);
    StepKeeps(w, One(c, e));
    LandedOne(w, c, e);
    w' := Next(w, One(c, e));
    hide Durable, Governed, IdentitiesOnce, Transact, Land, Starts, Admissible, Next;
    EventKeeps(w.store.View(c.task), Envelope(w.store.lastOffset + 1, e));
  }

  lemma OneLogs(w: World, c: StoreCommand, e: TaskEvent)
    requires CommitsOne(w, c, e)
    ensures Stamp([e], w.store.lastOffset) == [Envelope(w.store.lastOffset + 1, e)]
    ensures var log := w.store.Log(c.task) + [Envelope(w.store.lastOffset + 1, e)]; ToolFree(log) && IdentitiesOnce(log)
  {
    hide Reduce, Governed;
    OneMoreIdentity(w.store.Log(c.task), Envelope(w.store.lastOffset + 1, e));
  }

  /** One event lands in a stream without tools. */
  lemma LandsEmpty(w: World, store: Store, task: TaskId, e: TaskEvent)
    requires IdentitiesOnce(store.Log(task)) && ToolFree(store.Log(task)) && NoneOpen(w, task)
    requires IsBoundary(e) ==> store.View(task).run.Some?
    ensures var w' := Land(w, store, task, [e], true, HasBoundary([e], false));
            w'.store == store && w'.pendingStarts == w.pendingStarts + Starts(task, [e]) && NoneOpen(w', task)
  {
    hide IdentitiesOnce, Starts, RolledForward, CanonicalTools, Reduce, Replay, ToolFree, IsBoundary;
    var p := store.View(task);
    assert HasBoundary([e], false) <==> IsBoundary(e) by { assert [e][0] == e; }
    if p.run.Some? { RollsToNothing(w, store.Log(task), task, p.run.value.segment, p.lastOffset); }
    EmptySorted();
  }

  lemma LandedOne(w: World, c: StoreCommand, e: TaskEvent)
    requires CommitsOne(w, c, e)
    ensures var w' := Next(w, One(c, e)); var tx := Transact(w.store, c, None, Ok([e]));
            w'.store == tx.store && w'.pendingStarts == w.pendingStarts + Starts(c.task, [e]) && NoneOpen(w', c.task)
  {
    StoreIsValid(w);
    TransactOne(w.store, c, e);
    OneLogs(w, c, e);
    hide Durable, Governed, IdentitiesOnce, Transact, Starts, Land, Reduce, ToolFree, IsBoundary, NoneOpen;
    LandsEmpty(w, Transact(w.store, c, None, Ok([e])).store, c.task, e);
  }

  lemma EmptySorted()
    ensures Sorted({}) == []
  {
    AscendingUnique(Sorted({}), []);
  }

  // ----- a task with a running segment -----

  const CREATE := StoreCommand(0, ClientKey(0, "c"), SteeringPayload("c"), 0, User)
  const START := StoreCommand(0, ClientKey(0, "s"), SteeringPayload("s"), 1, Supervisor)

  const STARTING: seq<Step> := [One(CREATE, TaskCreated), One(START, RunStarted(1, 0))]

  lemma StartingSteps()
    ensures |STARTING| == 2 && STARTING[0] == One(CREATE, TaskCreated) && STARTING[1] == One(START, RunStarted(1, 0))
    ensures CREATE.task == 0 && CREATE.expected == 0 && START.task == 0 && START.expected == 1
    ensures EMPTY_WORLD.store.lastOffset == 0
  {
    hide One;
  }

  lemma CanCreate()
    ensures CommitsOne(EMPTY_WORLD, CREATE, TaskCreated)
  {
    EmptyIsDurable();
    hide Durable;
    assert EMPTY_WORLD.store.View(0) == EMPTY_PROJECTION && EMPTY_WORLD.store.Log(0) == [];
    assert Governed(EMPTY_WORLD.store.View(0), CREATE, [TaskCreated]);
  }

  lemma IsCreated(a: World)
    requires At(a, 0, 1) && a.pendingStarts == EMPTY_WORLD.pendingStarts + Starts(0, [TaskCreated])
    requires Reduce(EMPTY_WORLD.store.View(0), Envelope(1, TaskCreated)) == Some(a.store.View(0))
    requires a.store.Log(0) == EMPTY_WORLD.store.Log(0) + [Envelope(1, TaskCreated)]
    requires a.store.inbox == EMPTY_WORLD.store.inbox[(0, CREATE.key) := InboxEntry(CREATE.payload, CREATE.expected, Accepted)]
    requires forall t :: t != 0 ==> a.store.Log(t) == EMPTY_WORLD.store.Log(t)
    ensures JustCreated(a)
  {
    assert EMPTY_WORLD.store.View(0) == EMPTY_PROJECTION && EMPTY_WORLD.store.Log(0) == [];
    assert Starts(0, [TaskCreated]) == {};
    assert Reduce(EMPTY_PROJECTION, Envelope(1, TaskCreated)) == Some(EMPTY_PROJECTION.(version := 1, lastOffset := 1));
    StoreIsValid(a);
    hide Durable, Reduce, Replay, ToolFree, Starts;
    ViewOffset(a.store, 0);
  }

  lemma Created() returns (a: World)
    ensures a == Next(EMPTY_WORLD, STARTING[0]) && Admissible(EMPTY_WORLD, STARTING[0]) && JustCreated(a)
  {
    hide *;
    StartingSteps();
    CanCreate();
    a := LandsOne(EMPTY_WORLD, CREATE, TaskCreated);
    IsCreated(a);
  }

  ghost predicate JustCreated(a: World) {
    && At(a, 0, 1) && a.pendingStarts == {} && a.store.inbox.Keys == {(0, CREATE.key)} && (forall t :: t != 0 ==> a.store.Log(t) == [])
    && a.store.View(0) == EMPTY_PROJECTION.(version := 1, lastOffset := 1) && a.store.lastOffset >= 1
    && a.store.Log(0) == [Envelope(1, TaskCreated)]
  }

  lemma CanBegin(a: World)
    requires JustCreated(a)
    ensures CommitsOne(a, START, RunStarted(1, 0))
  {
    hide Durable, ToolFree;
    assert Governed(a.store.View(0), START, [RunStarted(1, 0)]);
  }

  lemma BegunView(p: Projection, offset: nat)
    requires p == EMPTY_PROJECTION.(version := 1, lastOffset := 1) && offset > 1
    ensures var q := Reduce(p, Envelope(offset, RunStarted(1, 0))).value;
            q.RunningSegment(1) && q.run.value.startedAt == 0 && q.permission.None? && q.question.None?
  {
  }

  lemma OneStart()
    ensures Starts(0, [RunStarted(1, 0)]) == {(0, 1)}
  {
    assert [RunStarted(1, 0)][0].RunStarted?;
  }

  lemma IsRunning(a: World, b: World)
    requires JustCreated(a) && At(b, 0, 2) && b.pendingStarts == a.pendingStarts + Starts(0, [RunStarted(1, 0)])
    requires Reduce(a.store.View(0), Envelope(a.store.lastOffset + 1, RunStarted(1, 0))) == Some(b.store.View(0))
    requires b.store.Log(0) == a.store.Log(0) + [Envelope(a.store.lastOffset + 1, RunStarted(1, 0))]
    requires b.store.inbox == a.store.inbox[(0, START.key) := InboxEntry(START.payload, START.expected, Accepted)]
    requires forall t :: t != 0 ==> b.store.Log(t) == a.store.Log(t)
    ensures Running(b)
  {
    BegunView(a.store.View(0), a.store.lastOffset + 1);
    OneStart();
    hide At, Reduce, Starts;
    assert b.store.inbox.Keys == {(0, CREATE.key), (0, START.key)};
  }

  lemma Begun(a: World) returns (b: World)
    requires JustCreated(a)
    ensures b == Next(a, STARTING[1]) && Admissible(a, STARTING[1]) && Running(b)
  {
    hide *;
    StartingSteps();
    CanBegin(a);
    b := LandsOne(a, START, RunStarted(1, 0));
    IsRunning(a, b);
  }

  /** The task runs, nothing is pending, and its start has not been delivered. */
  ghost predicate Running(w: World) {
    && At(w, 0, 2) && w.pendingStarts == {(0, 1)} && (forall t :: t != 0 ==> w.store.Log(t) == [])
    && w.store.View(0).RunningSegment(1) && w.store.View(0).run.value.startedAt == 0
    && w.store.View(0).permission.None? && w.store.View(0).question.None?
    && w.store.inbox.Keys == {(0, CREATE.key), (0, START.key)}
    && w.store.Log(0)[0].event.TaskCreated? && w.store.Log(0)[1].event.RunStarted?
  }

  lemma Starting()
    ensures AdmissibleRun(STARTING) && Running(Reach(STARTING))
  {
    hide Running, Admissible, Next;
    var a := Created();
    var b := Begun(a);
    assert STARTING[..0] == [] && STARTING[..1] == [STARTING[0]] && STARTING[..1][..0] == [] && STARTING[..2] == STARTING;
    assert Reach(STARTING[..0]) == EMPTY_WORLD && Reach(STARTING[..1]) == a && Reach(STARTING) == b;
  }

  lemma ReachMore(steps: seq<Step>, step: Step)
    requires AdmissibleRun(steps) && Admissible(Reach(steps), step)
    ensures AdmissibleRun(steps + [step]) && Reach(steps + [step]) == Next(Reach(steps), step)
  {
    var all := steps + [step];
    assert all[..|all| - 1] == steps;
    forall i | 0 <= i < |all| ensures Admissible(Reach(all[..i]), all[i]) {
      if i < |steps| { assert all[..i] == steps[..i]; } else { assert all[..i] == steps; }
    }
  }

  // ----- an engine that asks before its start is delivered -----

  const DETAILS := PermissionDetails(PermissionKind.Command, 1, "h", "s", "w", JNull, JNull, [PermissionOption("y", "l")], "p", 10)
  const PERMISSION := PendingPermission(7, 1, ForegroundTask, Some(DETAILS))
  const REQUEST := StoreCommand(0, PermissionRequestKey(7, 2), PermissionRequestPayload(PERMISSION, None), 2, PermissionBroker)
  const EARLY: seq<Step> := STARTING + [One(REQUEST, PermissionRequested(PERMISSION))]

  /** The run waits for the permission, and its start has not been delivered. */
  ghost predicate AskedEarly(c: World) {
    && Durable(c) && c.pendingStarts == {(0, 1)} && c.store.View(0).permission == Some(PERMISSION)
    && c.store.View(0).HasActiveRun() && c.store.View(0).run.value.segment == 1 && forall t :: t != 0 ==> c.store.Log(t) == []
  }

  lemma CanAsk(b: World)
    requires Running(b)
    ensures CommitsOne(b, REQUEST, PermissionRequested(PERMISSION))
  {
    StoreIsValid(b);
    hide Durable, ToolFree;
    ViewOffset(b.store, 0);
    assert Governed(b.store.View(0), REQUEST, [PermissionRequested(PERMISSION)]);
  }

  lemma HasAsked(b: World, c: World)
    requires Running(b) && At(c, 0, 3) && c.pendingStarts == b.pendingStarts + Starts(0, [PermissionRequested(PERMISSION)])
    requires Reduce(b.store.View(0), Envelope(b.store.lastOffset + 1, PermissionRequested(PERMISSION))) == Some(c.store.View(0))
    requires forall t :: t != 0 ==> c.store.Log(t) == b.store.Log(t)
    ensures AskedEarly(c)
  {
    hide Durable, ToolFree;
    assert Starts(0, [PermissionRequested(PERMISSION)]) == {};
  }

  lemma Asks(b: World) returns (c: World)
    requires Running(b)
    ensures c == Next(b, One(REQUEST, PermissionRequested(PERMISSION))) && Admissible(b, One(REQUEST, PermissionRequested(PERMISSION)))
    ensures AskedEarly(c)
  {
    assert REQUEST.task == 0 && REQUEST.expected == 2;
    hide *;
    CanAsk(b);
    c := LandsOne(b, REQUEST, PermissionRequested(PERMISSION));
    HasAsked(b, c);
  }

  lemma NothingToDo(w: World, clock: TaskId -> Time)
    requires WorldOk(w) && w.store.View(0).HasActiveRun() && (0, w.store.View(0).run.value.segment) in w.pendingStarts
    requires forall t :: t != 0 ==> w.store.Log(t) == []
    ensures Pass(w, clock) == (w, Ok([]))
  {
    hide WorldOk;
    forall t ensures Settled(w, t) { if t != 0 { assert w.store.View(t) == EMPTY_PROJECTION; } }
    AllFixed(w, Sorted(ScanSet(w.store)), clock);
  }

  /**
   The engine is spawned before its start is marked as delivered. If it asks and
   the daemon crashes in between, the next pass succeeds and the permission is
   still pending, although its context is gone.
   */
  lemma EarlyRequestSurvivesRecovery(clock: TaskId -> Time)
    ensures AdmissibleRun(EARLY) && !RequestsAfterDelivery(EARLY)
    ensures Pass(Reach(EARLY), clock) == (Reach(EARLY), Ok([])) && Reach(EARLY).store.View(0).permission == Some(PERMISSION)
  {
    Starting();
    var b := Reach(STARTING);
    var step := One(REQUEST, PermissionRequested(PERMISSION));
    var c := Asks(b);
    ReachMore(STARTING, step);
    NothingToDo(c, clock);
    assert EARLY[..2] == STARTING && EARLY[2] == step;
    assert IsRequest(step.decision.value[0]);
    assert !AsksDelivered(Reach(EARLY[..2]), EARLY[2]);
  }

  // ----- a run that is recovered -----

  lemma NoToolsOpen(log: seq<Envelope>, segment: SegmentId)
    requires ToolFree(log)
    ensures OpenTools(log, segment) == {}
  {
    if RunStartOffset(log, segment).Some? {
      var start := RunStartOffset(log, segment).value;
      AfterToolFree(log, start);
      NothingOpens(After(log, start));
    }
  }

  lemma {:induction false} AfterToolFree(log: seq<Envelope>, offset: nat)
    requires ToolFree(log)
    ensures ToolFree(After(log, offset))
  {
    if |log| > 0 { AfterToolFree(log[..|log| - 1], offset); }
  }

  lemma {:induction false} NothingOpens(es: seq<Envelope>)
    requires ToolFree(es)
    ensures Open({}, es) == {}
  {
    if |es| > 0 { NothingOpens(es[..|es| - 1]); }
  }

  lemma RecoversRun(b: World, d: World, now: Time)
    requires Running(b) && d.store == b.store && d.pendingStarts == {} && WorldOk(d) && now >= 0
    ensures RecoverOne(d, 0, now).1 == Ok(Some(RecoveredTask(0, 1, [])))
  {
    NoToolsOpen(d.store.Log(0), 1);
    EmptySorted();
    assert Tools(d, 0) == [];
    assert |Events(d, 0, now)| == 1;
    assert !Fails(d, 0, now);
    hide WorldOk, Durable, ToolFree;
    TxOutcome(d, 0, now);
  }

  /** Startup after a crash of a delivered run succeeds and reports exactly that run. */
  lemma StartupReportsRun(clock: TaskId -> Time)
    requires clock(0) >= 0
    ensures AdmissibleRun(STARTING + [Deliver(0, 1)])
    ensures Pass(Reach(STARTING + [Deliver(0, 1)]), clock).1 == Ok([RecoveredTask(0, 1, [])])
  {
    hide WorldOk, Running, AdmissibleRun, Reach, Next, Pass;
    Starting();
    var b := Reach(STARTING);
    var d := Delivered(b);
    ReachMore(STARTING, Deliver(0, 1));
    RecoversRun(b, d, clock(0));
    RunningAlone(b);
    OnlyTask(d) by { StoreIsValid(d); }
    PassOfOne(d, clock);
  }

  lemma RunningAlone(b: World)
    requires Running(b)
    ensures b.store.View(0).RunningSegment(1) && forall t :: t != 0 ==> b.store.Log(t) == []
  {
    hide At;
  }

  /** A world whose only task is running. */
  lemma OnlyTask(w: World)
    requires w.store.Valid() && w.store.View(0).RunningSegment(1) && forall t :: t != 0 ==> w.store.Log(t) == []
    ensures Sorted(ScanSet(w.store)) == [0]
  {
    ViewFacts(w.store, 0);
    forall t ensures t in ScanSet(w.store) <==> t == 0 { if t != 0 { assert w.store.View(t) == EMPTY_PROJECTION; } }
    assert ScanSet(w.store) == {0};
    AscendingUnique(Sorted(ScanSet(w.store)), [0]);
  }

  /** Its pass is the recovery of that task. */
  lemma PassOfOne(w: World, clock: TaskId -> Time)
    requires Sorted(ScanSet(w.store)) == [0]
    ensures var one := RecoverOne(w, 0, clock(0)).1;
            Pass(w, clock).1 == match one case Err(e) => Err(e) case Ok(None) => Ok([]) case Ok(Some(x)) => Ok([x])
  {
    hide RecoverOne, RecoverAll, Sorted, ScanSet;
    var order: seq<TaskId> := [0];
    assert order[..0] == [] && order[..1] == order && order[0] == 0;
    EmptyPass(w, clock);
    PassStep(w, order, 0, clock);
    var none: seq<RecoveredTask> := [];
    var one := RecoverOne(w, 0, clock(0)).1;
    if one.Ok? && one.value.Some? { assert none + [one.value.value] == [one.value.value]; }
  }

  // ----- a recovery attempt that lost its race -----

  const RENAME := StoreCommand(0, ClientKey(0, "r"), SteeringPayload("r"), 2, User)
  const RENAMED: seq<Step> := STARTING + [Deliver(0, 1)] + [One(RENAME, Other)]
  const LOST: seq<Step> := RENAMED + [LoseRecovery(0, 2, [], 0)]

  lemma Delivered(b: World) returns (d: World)
    requires Running(b)
    ensures Admissible(b, Deliver(0, 1)) && d == Next(b, Deliver(0, 1)) && d.store == b.store && d.latest == b.latest
    ensures d.pendingStarts == {} && Durable(d) && WorldOk(d)
  {
    d := Next(b, Deliver(0, 1));
    StepKeeps(b, Deliver(0, 1));
  }

  /** The run is delivered and active, and the stream has grown since version 2. */
  ghost predicate Overtaking(e: World) {
    && WorldOk(e) && e.pendingStarts == {} && e.store.View(0).RunningSegment(1) && Overtaken(e, 0, 2)
    && ViewAt(e.store, 0, 2).run.value.segment == 1
  }

  lemma StillAt(b: World, d: World)
    requires Running(b) && d.store == b.store && d.latest == b.latest && Durable(d)
    ensures At(d, 0, 2) && d.store.Valid() && d.store.inbox.Keys == {(0, CREATE.key), (0, START.key)}
  {
    hide ToolFree, IdentitiesOnce, PermissionProtocol.InboxSound, QuestionProtocol.InboxSound;
  }

  lemma CanRename(d: World)
    requires At(d, 0, 2) && d.store.Valid() && d.store.inbox.Keys == {(0, CREATE.key), (0, START.key)}
    ensures CommitsOne(d, RENAME, Other)
  {
    hide Durable, ToolFree, NoneOpen, Replay;
    ViewOffset(d.store, 0);
    assert Governed(d.store.View(0), RENAME, [Other]);
    assert (0, RENAME.key) !in d.store.inbox.Keys;
  }

  lemma HasRenamed(b: World, d: World, e: World)
    requires Running(b) && d.store == b.store && d.pendingStarts == {}
    requires Durable(e) && e.pendingStarts == d.pendingStarts + Starts(0, [Other])
    requires Reduce(d.store.View(0), Envelope(d.store.lastOffset + 1, Other)) == Some(e.store.View(0))
    requires e.store.Log(0) == d.store.Log(0) + [Envelope(d.store.lastOffset + 1, Other)]
    ensures Overtaking(e)
  {
    hide WorldOk, ToolFree, Replay, IdentitiesOnce, PermissionProtocol.InboxSound, QuestionProtocol.InboxSound;
    assert Starts(0, [Other]) == {};
    assert e.store.Log(0)[..2] == b.store.Log(0);
  }

  lemma Renames(b: World, d: World) returns (e: World)
    requires Running(b) && d.store == b.store && d.latest == b.latest && d.pendingStarts == {} && Durable(d)
    ensures e == Next(d, One(RENAME, Other)) && Admissible(d, One(RENAME, Other)) && Overtaking(e)
  {
    assert RENAME.task == 0 && RENAME.expected == 2;
    hide *;
    StillAt(b, d);
    CanRename(d);
    e := LandsOne(d, RENAME, Other);
    HasRenamed(b, d, e);
  }

  lemma LosesRace(e: World, clock: TaskId -> Time)
    requires Overtaking(e)
    ensures Admissible(e, LoseRecovery(0, 2, [], 0))
    ensures var w := Next(e, LoseRecovery(0, 2, [], 0)); w.store.View(0).RunningSegment(1) && Pass(w, clock).1.Err?
  {
    hide WorldOk, Pass, Stops, RecoverOne, Transact;
    var w := Next(e, LoseRecovery(0, 2, [], 0));
    LostRaceIsSticky(e, 0, 2, [], 0, clock(0));
    assert w.store.Log(0) == e.store.Log(0);
    PassSucceedsExactly(w, clock);
  }

  /**
   An attempt reads the run at version 2, the user renames the task, and the commit
   comes too late; every later startup fails on the run the attempt was about.
   */
  lemma LostRaceBlocksStartup(clock: TaskId -> Time)
    ensures AdmissibleRun(LOST) && Reach(LOST).store.View(0).RunningSegment(1) && Pass(Reach(LOST), clock).1.Err?
  {
    assert RENAMED == STARTING + [Deliver(0, 1)] + [One(RENAME, Other)] && LOST == RENAMED + [LoseRecovery(0, 2, [], 0)];
    hide *;
    Starting();
    var b := Reach(STARTING);
    var d := Delivered(b);
    ReachMore(STARTING, Deliver(0, 1));
    var e := Renames(b, d);
    ReachMore(STARTING + [Deliver(0, 1)], One(RENAME, Other));
    LosesRace(e, clock);
    ReachMore(RENAMED, LoseRecovery(0, 2, [], 0));
  }
}
