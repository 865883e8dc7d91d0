/**
 Startup recovery as a function on the durable state: what happens to one task,
 what a whole pass does, and why a second pass, or a pass after a crash, changes
 nothing more.
 */
module Recovery {
  import opened Basics
  import opened TaskStream
  import opened StreamLaws
  import opened StoreLaws
  import opened ToolHistory
  import opened RecoveryBatch

  /** The streams, the latest checkpoint of each task and the segment starts not yet delivered. */
  datatype World = World(store: Store, latest: map<TaskId, Checkpoint>, pendingStarts: set<(TaskId, SegmentId)>)
  {
    function Latest(task: TaskId): Option<Checkpoint> { if task in latest then Some(latest[task]) else None }
  }

  datatype RecoveredTask = RecoveredTask(task: TaskId, segment: SegmentId, tools: seq<ToolId>)

  ghost function Sorted(s: set<nat>): (r: seq<nat>)
    ensures Ascending(r) && Elements(r) == s
  {
    if s == {} then []
    else
      var x :| x in s;
      Insert(Sorted(s - {x}), x)
  }

  // ----- checkpoints -----

  /** The tools the store accepts in a checkpoint of `segment` at `offset`. */
  function CanonicalTools(log: seq<Envelope>, segment: SegmentId, offset: nat): set<ToolId> {
    match RunStartOffset(log, segment)
    case None => {}
    case Some(start) => Canonical({}, Between(log, start, offset))
  }

  /** A checkpoint that passes the store's validation. */
  ghost predicate CheckpointOk(log: seq<Envelope>, c: Checkpoint) {
    && RunStartOffset(log, c.segment).Some? && RunStartOffset(log, c.segment).value <= c.offset
    && |log| > 0 && c.offset <= log[|log| - 1].offset
    && Ascending(c.tools) && Elements(c.tools) == CanonicalTools(log, c.segment, c.offset)
  }

  // ----- one task -----

  function RecoveryCommand(task: TaskId, segment: SegmentId, expected: nat): StoreCommand {
    StoreCommand(task, RecoveryKey(segment), RecoveryPayload(segment), expected, Source.Recovery)
  }

  predicate AtCheckpoint(w: World, task: TaskId, segment: SegmentId) {
    w.Latest(task).Some? && w.latest[task].segment == segment && w.latest[task].offset == w.store.View(task).lastOffset
  }

  ghost function RecoveryTx(w: World, task: TaskId, now: Time): Tx
    requires w.store.View(task).run.Some?
  {
    var p := w.store.View(task);
    var segment := p.run.value.segment;
    Transact(w.store, RecoveryCommand(task, segment, p.version), None,
             Ok(RecoveryEvents(p, Sorted(OpenTools(w.store.Log(task), segment)), now)))
  }

  /** The latest checkpoint of `task` becomes one with `tools` at the end of its stream. */
  function Checkpointed(w: World, store: Store, task: TaskId, segment: SegmentId, tools: seq<ToolId>): World {
    w.(store := store, latest := w.latest[task := Checkpoint(segment, store.View(task).lastOffset, tools)])
  }

  type Recovered = (World, Result<Option<RecoveredTask>, Reason>)

  ghost function RecoverActive(w: World, task: TaskId, now: Time): Recovered
    requires w.store.View(task).run.Some?
  {
    var segment := w.store.View(task).run.value.segment;
    var tools := Sorted(OpenTools(w.store.Log(task), segment));
    var tx := RecoveryTx(w, task, now);
    match tx.outcome
    case Aborted(error) => (w.(store := tx.store), Err(error))
    case Rejected(_) => (w.(store := tx.store), Ok(None))
    case Accepted => (Checkpointed(w, tx.store, task, segment, tools), Ok(Some(RecoveredTask(task, segment, tools))))
  }

  ghost function RecoverOne(w: World, task: TaskId, now: Time): Recovered {
    var p := w.store.View(task);
    if p.run.None? then (w, Ok(None))
    else
      var segment := p.run.value.segment;
      if p.run.value.Active() then
        if (task, segment) in w.pendingStarts then (w, Ok(None)) else RecoverActive(w, task, now)
      else if p.run.value.terminal == Some(InterruptedByRestart) && !AtCheckpoint(w, task, segment) then
        (Checkpointed(w, w.store, task, segment, Sorted(OpenTools(w.store.Log(task), segment))), Ok(None))
      else (w, Ok(None))
  }

  // ----- a pass -----

  predicate InScan(p: Projection) {
    p.state.Running? || p.state.WaitingPermission? || p.state.WaitingInput? || p.state.Yielding? || p.state.Interrupted?
  }

  function ScanSet(st: Store): set<TaskId> {
    set task | task in st.logs && InScan(st.View(task))
  }

  type Report = (World, Result<seq<RecoveredTask>, Reason>)

  /** Recovers the listed tasks in order and stops at the first error. */
  ghost function RecoverAll(w: World, tasks: seq<TaskId>, clock: TaskId -> Time): Report {
    if |tasks| == 0 then (w, Ok([]))
    else
      var before := RecoverAll(w, tasks[..|tasks| - 1], clock);
      if before.1.Err? then before
      else
        var task := tasks[|tasks| - 1];
        var one := RecoverOne(before.0, task, clock(task));
        match one.1
        case Err(error) => (one.0, Err(error))
        case Ok(None) => (one.0, before.1)
        case Ok(Some(recovered)) => (one.0, Ok(before.1.value + [recovered]))
  }

  /** One startup pass: every nonterminal task, in id order. */
  ghost function Pass(w: World, clock: TaskId -> Time): Report {
    RecoverAll(w, Sorted(ScanSet(w.store)), clock)
  }

  // ----- what every durable state satisfies -----

  ghost predicate RunOk(log: seq<Envelope>, p: Projection) {
    p.run.Some? ==>
      && RunStartOffset(log, p.run.value.segment).Some?
      && IndeterminateWereOpen(After(log, RunStartOffset(log, p.run.value.segment).value))
  }

  /** A permission belongs to a run, and only tasks without an active run are removed. */
  predicate TaskOk(p: Projection) {
    && (p.permission.Some? ==> p.run.Some?)
    && (p.removed ==> !p.HasActiveRun())
  }

  /** Recovery commands were recorded at versions that have passed. */
  ghost predicate EntryOk(st: Store, task: TaskId, segment: SegmentId, entry: InboxEntry) {
    entry.payload == RecoveryPayload(segment) && entry.expected < st.Version(task)
  }

  ghost predicate InboxOk(st: Store) {
    forall task, segment :: (task, RecoveryKey(segment)) in st.inbox ==> EntryOk(st, task, segment, st.inbox[(task, RecoveryKey(segment))])
  }

  ghost predicate WorldOk(w: World) {
    && w.store.Valid() && InboxOk(w.store)
    && (forall task :: TaskOk(w.store.View(task)) && RunOk(w.store.Log(task), w.store.View(task)))
    && (forall task :: task in w.latest ==> CheckpointOk(w.store.Log(task), w.latest[task]))
  }

  /** What every task's view satisfies. */
  lemma ViewFacts(st: Store, task: TaskId)
    requires st.Valid()
    ensures Coherent(st.View(task)) && DistinctIds(st.View(task).queue) && Increasing(st.Log(task))
    ensures st.View(task).version == st.Version(task) && st.View(task).lastOffset <= st.lastOffset
    ensures |st.Log(task)| > 0 ==> st.View(task).lastOffset == st.Log(task)[|st.Log(task)| - 1].offset
    ensures st.View(task).run.Some? ==> |st.Log(task)| > 0
  {
    LogReplays(st, task);
    ViewOffset(st, task);
    ReplayDistinct(st.Log(task));
    ReplayIncreases(st.Log(task));
    ReplayVersion(EMPTY_PROJECTION, st.Log(task));
  }

  // ----- the recovery batch -----

  predicate RecoveryEvent(e: TaskEvent, tools: set<ToolId>) {
    && (e.PermissionInvalidated? || e.QuestionInvalidated? || e.ToolIndeterminate? || e.MessageRecovered? || e.RunCompleted?)
    && (e.ToolIndeterminate? ==> e.tool in tools)
  }

  ghost predicate RecoveryEventsOnly(es: seq<TaskEvent>, tools: set<ToolId>) {
    forall i :: 0 <= i < |es| ==> RecoveryEvent(es[i], tools)
  }

  lemma {:induction false} IndeterminatesOnly(segment: SegmentId, tools: seq<ToolId>, all: set<ToolId>)
    requires Elements(tools) <= all
    ensures RecoveryEventsOnly(Indeterminates(segment, tools), all)
  {
    if |tools| > 0 {
      assert tools[|tools| - 1] in Elements(tools);
      assert forall x :: x in tools[..|tools| - 1] ==> x in Elements(tools);
      IndeterminatesOnly(segment, tools[..|tools| - 1], all);
    }
  }

  lemma {:induction false} RecoveriesOnly(queue: seq<QueueItem>, all: set<ToolId>)
    ensures RecoveryEventsOnly(Recoveries(queue), all)
  {
    if |queue| > 0 { RecoveriesOnly(queue[..|queue| - 1], all); }
  }

  lemma BatchOnly(p: Projection, tools: seq<ToolId>, now: Time)
    requires p.run.Some?
    ensures RecoveryEventsOnly(RecoveryEvents(p, tools, now), Elements(tools))
    ensures |RecoveryEvents(p, tools, now)| > 0
  {
    IndeterminatesOnly(p.run.value.segment, tools, Elements(tools));
    RecoveriesOnly(p.queue, Elements(tools));
  }

  lemma BatchAcceptable(es: seq<TaskEvent>, tools: set<ToolId>)
    requires RecoveryEventsOnly(es, tools) && |es| > 0
    ensures AcceptableBatch(Source.Recovery, es) <==> |es| <= MAX_EVENTS_PER_TRANSACTION
  {
    forall i | 0 <= i < |es| ensures AllowedSource(Source.Recovery, es[i]) && !es[i].MessageConsumed? {
      assert RecoveryEvent(es[i], tools);
    }
  }

  lemma {:induction false} StartUnmoved(log: seq<Envelope>, es: seq<Envelope>, segment: SegmentId)
    requires forall i :: 0 <= i < |es| ==> !es[i].event.RunStarted?
    ensures RunStartOffset(log + es, segment) == RunStartOffset(log, segment)
  {
    if |es| == 0 {
      assert log + es == log;
    } else {
      assert (log + es)[..|log + es| - 1] == log + es[..|es| - 1];
      StartUnmoved(log, es[..|es| - 1], segment);
    }
  }

  /** Recovery events move neither the open nor the canonical tools. */
  lemma {:induction false} BatchKeepsTools(tools: set<ToolId>, es: seq<Envelope>)
    requires forall i :: 0 <= i < |es| ==> RecoveryEvent(es[i].event, tools)
    ensures Open(tools, es) == tools && Canonical(tools, es) == tools
  {
    if |es| > 0 { BatchKeepsTools(tools, es[..|es| - 1]); }
  }

  lemma StartInLog(log: seq<Envelope>, segment: SegmentId)
    requires Increasing(log) && RunStartOffset(log, segment).Some?
    ensures |log| > 0 && RunStartOffset(log, segment).value <= log[|log| - 1].offset
  {
    StartIsEvent(log, segment);
  }

  lemma {:induction false} StartIsEvent(log: seq<Envelope>, segment: SegmentId)
    requires RunStartOffset(log, segment).Some?
    ensures exists i :: 0 <= i < |log| && log[i].offset == RunStartOffset(log, segment).value
  {
    var e := log[|log| - 1];
    if !(e.event.RunStarted? && e.event.segment == segment) {
      StartIsEvent(log[..|log| - 1], segment);
      var i :| 0 <= i < |log| - 1 && log[..|log| - 1][i].offset == RunStartOffset(log, segment).value;
      assert log[i].offset == RunStartOffset(log, segment).value;
    }
  }

  // ----- from the store's notion of a checkpoint to recovery's -----

  lemma {:induction false} AfterConcat(a: seq<Envelope>, b: seq<Envelope>, offset: nat)
    requires forall i :: 0 <= i < |b| ==> b[i].offset > offset
    ensures After(a + b, offset) == After(a, offset) + b
  {
    if |b| == 0 {
      assert a + b == a;
    } else {
      assert (a + b)[..|a + b| - 1] == a + b[..|b| - 1];
      AfterConcat(a, b[..|b| - 1], offset);
    }
  }

  lemma {:induction false} BetweenConcat(a: seq<Envelope>, b: seq<Envelope>, after: nat, upTo: nat)
    requires forall i :: 0 <= i < |b| ==> b[i].offset > upTo
    ensures Between(a + b, after, upTo) == Between(a, after, upTo)
  {
    if |b| == 0 {
      assert a + b == a;
    } else {
      assert (a + b)[..|a + b| - 1] == a + b[..|b| - 1];
      BetweenConcat(a, b[..|b| - 1], after, upTo);
    }
  }

  lemma BetweenAll(log: seq<Envelope>, after: nat, upTo: nat)
    requires Increasing(log) && after <= upTo && (|log| > 0 ==> log[|log| - 1].offset <= upTo)
    ensures Between(log, after, upTo) == After(log, after)
  {
    AfterSplits(log, after, upTo);
    CutSplits(log, upTo);
  }

  /** A validated checkpoint of the current run is correct in recovery's sense. */
  lemma ValidatedIsCorrect(log: seq<Envelope>, c: Checkpoint)
    requires Increasing(log) && CheckpointOk(log, c)
    requires IndeterminateWereOpen(After(log, RunStartOffset(log, c.segment).value))
    ensures Correct(log, c)
  {
    var start := RunStartOffset(log, c.segment).value;
    var es := After(log, start);
    AfterSplits(log, start, c.offset);
    var k := |Between(log, start, c.offset)|;
    assert es[..k] == Between(log, start, c.offset);
    CanonicalIsOpen(es, k);
  }

  lemma CanonicalAtEnd(log: seq<Envelope>, segment: SegmentId, last: nat)
    requires Increasing(log) && RunStartOffset(log, segment).Some? && |log| > 0 && log[|log| - 1].offset == last
    requires IndeterminateWereOpen(After(log, RunStartOffset(log, segment).value))
    ensures CanonicalTools(log, segment, last) == OpenTools(log, segment)
  {
    var start := RunStartOffset(log, segment).value;
    StartInLog(log, segment);
    BetweenAll(log, start, last);
    var es := After(log, start);
    CanonicalIsOpen(es, |es|);
    assert es[..|es|] == es;
  }

  // ----- one transaction -----

  ghost function Tools(w: World, task: TaskId): seq<ToolId>
    requires w.store.View(task).run.Some?
  {
    Sorted(OpenTools(w.store.Log(task), w.store.View(task).run.value.segment))
  }

  ghost function Events(w: World, task: TaskId, now: Time): seq<TaskEvent>
    requires w.store.View(task).run.Some?
  {
    RecoveryEvents(w.store.View(task), Tools(w, task), now)
  }

  function Key(task: TaskId, p: Projection): (TaskId, IdempotencyKey)
    requires p.run.Some?
  {
    (task, RecoveryKey(p.run.value.segment))
  }

  /** Why recovery of an active run fails: an earlier attempt was recorded, the batch is too large, or the run starts later. */
  ghost predicate Fails(w: World, task: TaskId, now: Time)
    requires w.store.View(task).run.Some?
  {
    var p := w.store.View(task);
    Key(task, p) in w.store.inbox || |Events(w, task, now)| > MAX_EVENTS_PER_TRANSACTION || now < p.run.value.startedAt
  }

  lemma AppendRecovery(w: World, task: TaskId, now: Time)
    requires WorldOk(w) && w.store.View(task).HasActiveRun()
    ensures Append(w.store, task, Events(w, task, now)).Some? <==> w.store.View(task).run.value.startedAt <= now
    ensures Append(w.store, task, Events(w, task, now)).Some? ==>
      var b := Append(w.store, task, Events(w, task, now)).value;
      && b.Valid() && Appended(w.store, b, task, Events(w, task, now))
      && Interruption(w.store.View(task), b.View(task), now, |Events(w, task, now)|)
  {
    hide Reduce, RecoveryEvents, Interruption;
    var p := w.store.View(task);
    var es := Events(w, task, now);
    ViewFacts(w.store, task);
    LogReplays(w.store, task);
    BatchReduces(p, Tools(w, task), now, w.store.lastOffset);
    ReduceAllConcat(EMPTY_PROJECTION, w.store.Log(task), Stamp(es, w.store.lastOffset));
    if Append(w.store, task, es).Some? {
      AppendResult(w.store, task, es);
      ViewAppend(w.store, Append(w.store, task, es).value, task, es);
    }
  }

  lemma TxOutcome(w: World, task: TaskId, now: Time)
    requires WorldOk(w) && w.store.View(task).HasActiveRun()
    ensures var p := w.store.View(task); var tx := RecoveryTx(w, task, now);
            && !tx.outcome.Rejected? && (tx.outcome.Aborted? <==> Fails(w, task, now))
            && (tx.outcome.Accepted? ==> Append(w.store, task, Events(w, task, now)).Some? && Key(task, p) !in w.store.inbox)
  {
    hide Append, RecoveryEvents;
    var p := w.store.View(task);
    AppendRecovery(w, task, now);
    BatchOnly(p, Tools(w, task), now);
    BatchAcceptable(Events(w, task, now), Elements(Tools(w, task)));
    ViewFacts(w.store, task);
    if Key(task, p) in w.store.inbox { assert EntryOk(w.store, task, p.run.value.segment, w.store.inbox[Key(task, p)]); }
  }

  /** What the transaction does to the store. */
  lemma TxStore(w: World, task: TaskId, now: Time)
    requires WorldOk(w) && w.store.View(task).HasActiveRun()
    ensures var p := w.store.View(task); var tx := RecoveryTx(w, task, now);
            if !tx.outcome.Accepted? then tx.outcome.Aborted? && tx.store == w.store
            else
              && Append(w.store, task, Events(w, task, now)).Some?
              && tx.store == Append(w.store, task, Events(w, task, now)).value.(inbox :=
                   w.store.inbox[Key(task, p) := InboxEntry(RecoveryPayload(p.run.value.segment), p.version, Accepted)])
  {
    hide RecoveryEvents;
    TxOutcome(w, task, now);
    ViewFacts(w.store, task);
  }

  // ----- one task changes only itself -----

  ghost predicate SameEntries(a: Store, b: Store, task: TaskId) {
    && (forall key :: (task, key) in b.inbox <==> (task, key) in a.inbox)
    && (forall key :: (task, key) in a.inbox && (task, key) in b.inbox ==> b.inbox[(task, key)] == a.inbox[(task, key)])
  }

  ghost predicate Same(w: World, w': World, task: TaskId) {
    && w'.store.Log(task) == w.store.Log(task) && w'.Latest(task) == w.Latest(task)
    && w'.pendingStarts == w.pendingStarts && SameEntries(w.store, w'.store, task)
  }

  // ----- validity is kept -----

  lemma CheckpointGrows(log: seq<Envelope>, es: seq<Envelope>, c: Checkpoint)
    requires CheckpointOk(log, c) && Increasing(log + es) && forall i :: 0 <= i < |es| ==> !es[i].event.RunStarted?
    ensures CheckpointOk(log + es, c)
  {
    StartUnmoved(log, es, c.segment);
    var last := log[|log| - 1];
    assert (log + es)[|log| - 1] == last;
    forall i | 0 <= i < |es| ensures es[i].offset > c.offset { assert (log + es)[|log| + i] == es[i]; }
    BetweenConcat(log, es, RunStartOffset(log, c.segment).value, c.offset);
    assert |log| - 1 <= |log + es| - 1;
  }

  lemma IndeterminateGrows(a: seq<Envelope>, b: seq<Envelope>, tools: set<ToolId>)
    requires IndeterminateWereOpen(a) && Open({}, a) == tools && forall i :: 0 <= i < |b| ==> RecoveryEvent(b[i].event, tools)
    ensures IndeterminateWereOpen(a + b)
  {
    forall i | 0 <= i < |a + b| && (a + b)[i].event.ToolIndeterminate? ensures (a + b)[i].event.tool in Open({}, (a + b)[..i]) {
      if i < |a| {
        assert (a + b)[..i] == a[..i];
      } else {
        assert (a + b)[..i] == a + b[..i - |a|];
        OpenConcat({}, a, b[..i - |a|]);
        BatchKeepsTools(tools, b[..i - |a|]);
        assert RecoveryEvent(b[i - |a|].event, tools);
      }
    }
  }

  /** The recovered stream: its run keeps its start, its tools and a valid checkpoint at its end. */
  lemma RecoveredLog(log: seq<Envelope>, es: seq<Envelope>, segment: SegmentId, tools: seq<ToolId>)
    requires Increasing(log + es) && |es| > 0 && RunStartOffset(log, segment).Some?
    requires IndeterminateWereOpen(After(log, RunStartOffset(log, segment).value))
    requires Ascending(tools) && Elements(tools) == OpenTools(log, segment)
    requires forall i :: 0 <= i < |es| ==> RecoveryEvent(es[i].event, Elements(tools))
    ensures RunStartOffset(log + es, segment) == RunStartOffset(log, segment)
    ensures IndeterminateWereOpen(After(log + es, RunStartOffset(log, segment).value))
    ensures OpenTools(log + es, segment) == OpenTools(log, segment)
    ensures CheckpointOk(log + es, Checkpoint(segment, es[|es| - 1].offset, tools))
  {
    hide After, Between, Open, Canonical, RunStartOffset, Sorted, RecoveryEvents, Replay;
    var start := RunStartOffset(log, segment).value;
    StartUnmoved(log, es, segment);
    assert Increasing(log) by { assert forall i :: 0 <= i < |log| ==> (log + es)[i] == log[i]; }
    StartInLog(log, segment);
    forall i | 0 <= i < |es| ensures es[i].offset > start { assert (log + es)[|log| + i] == es[i]
        && (log + es)[|log| - 1] == log[|log| - 1]; }
    AfterConcat(log, es, start);
    IndeterminateGrows(After(log, start), es, Elements(tools));
    OpenConcat({}, After(log, start), es);
    BatchKeepsTools(Elements(tools), es);
    CanonicalAtEnd(log + es, segment, es[|es| - 1].offset);
  }

  /** The state after an accepted recovery of `task`. */
  ghost predicate AcceptedChange(w: World, w': World, task: TaskId, now: Time)
    requires w.store.View(task).run.Some?
  {
    var p := w.store.View(task);
    var es := Events(w, task, now);
    && w'.store.Valid() && Appended(w.store, w'.store, task, es)
    && Interruption(p, w'.store.View(task), now, |es|) && |es| > 0
    && Key(task, p) !in w.store.inbox
    && w'.store.inbox == w.store.inbox[Key(task, p) := InboxEntry(RecoveryPayload(p.run.value.segment), p.version, Accepted)]
    && w'.latest == w.latest[task := Checkpoint(p.run.value.segment, w'.store.View(task).lastOffset, Tools(w, task))]
    && w'.pendingStarts == w.pendingStarts
  }

  lemma AcceptedForm(w: World, task: TaskId, now: Time)
    requires WorldOk(w) && w.store.View(task).HasActiveRun() && RecoveryTx(w, task, now).outcome.Accepted?
    ensures AcceptedChange(w, RecoverActive(w, task, now).0, task, now)
  {
    hide RecoveryEvents, Transact, RecoveryTx, Append, Interruption;
    var w' := RecoverActive(w, task, now).0;
    TxStore(w, task, now);
    TxOutcome(w, task, now);
    AppendRecovery(w, task, now);
    BatchOnly(w.store.View(task), Tools(w, task), now);
    var b := Append(w.store, task, Events(w, task, now)).value;
    assert w'.store.logs == b.logs && w'.store.lastOffset == b.lastOffset;
    assert w'.store.View(task) == b.View(task);
  }

  lemma AcceptedRun(w: World, w': World, task: TaskId, now: Time)
    requires WorldOk(w) && w.store.View(task).run.Some? && AcceptedChange(w, w', task, now)
    ensures RunOk(w'.store.Log(task), w'.store.View(task)) && CheckpointOk(w'.store.Log(task), w'.latest[task])
    ensures w'.store.View(task).run.Some? && Tools(w', task) == Tools(w, task)
  {
    hide RecoveryEvents, Append;
    var p := w.store.View(task);
    var es := Stamp(Events(w, task, now), w.store.lastOffset);
    BatchOnly(p, Tools(w, task), now);
    ViewFacts(w'.store, task);
    ViewFacts(w.store, task);
    assert RunOk(w.store.Log(task), p);
    forall i | 0 <= i < |es| ensures RecoveryEvent(es[i].event, Elements(Tools(w, task))) { assert es[i].event == Events(w, task, now)[i]; }
    RecoveredLog(w.store.Log(task), es, p.run.value.segment, Tools(w, task));
    AscendingUnique(Tools(w', task), Tools(w, task));
    assert w'.store.Log(task)[|w'.store.Log(task)| - 1] == es[|es| - 1];
  }

  lemma AcceptedTaskOk(w: World, w': World, task: TaskId, now: Time)
    requires w.store.View(task).run.Some? && AcceptedChange(w, w', task, now)
    ensures TaskOk(w'.store.View(task))
  {
    hide RecoveryEvents, Append;
  }

  lemma AcceptedKeeps(w: World, w': World, task: TaskId, now: Time)
    requires WorldOk(w) && w.store.View(task).run.Some? && AcceptedChange(w, w', task, now)
    ensures WorldOk(w')
  {
    hide RecoveryEvents, Append, Interruption, RunOk, CheckpointOk;
    AcceptedRun(w, w', task, now);
    forall t ensures TaskOk(w'.store.View(t)) && RunOk(w'.store.Log(t), w'.store.View(t)) {
      if t != task { assert w'.store.Log(t) == w.store.Log(t); } else { assert TaskOk(w.store.View(t)); AcceptedTaskOk(w, w', task, now); }
    }
    forall t | t in w'.latest ensures CheckpointOk(w'.store.Log(t), w'.latest[t]) {
      if t != task { assert w'.store.Log(t) == w.store.Log(t); }
    }
    forall t, segment | (t, RecoveryKey(segment)) in w'.store.inbox
      ensures EntryOk(w'.store, t, segment, w'.store.inbox[(t, RecoveryKey(segment))])
    {
      ViewFacts(w.store, task);
      if (t, RecoveryKey(segment)) != Key(task, w.store.View(task)) {
        assert EntryOk(w.store, t, segment, w.store.inbox[(t, RecoveryKey(segment))]);
        if t != task { assert w'.store.Log(t) == w.store.Log(t); }
      }
    }
  }

  lemma CheckpointedKeeps(w: World, task: TaskId)
    requires WorldOk(w) && w.store.View(task).run.Some?
    ensures WorldOk(Checkpointed(w, w.store, task, w.store.View(task).run.value.segment, Tools(w, task)))
  {
    ViewFacts(w.store, task);
    assert RunOk(w.store.Log(task), w.store.View(task));
    var segment := w.store.View(task).run.value.segment;
    StartInLog(w.store.Log(task), segment);
    CanonicalAtEnd(w.store.Log(task), segment, w.store.View(task).lastOffset);
  }

  lemma OneKeeps(w: World, task: TaskId, now: Time)
    requires WorldOk(w)
    ensures WorldOk(RecoverOne(w, task, now).0)
  {
    hide WorldOk, RecoveryTx, RunOk, CheckpointOk;
    var p := w.store.View(task);
    if p.run.Some? {
      if p.HasActiveRun() && (task, p.run.value.segment) !in w.pendingStarts {
        ActiveKeeps(w, task, now);
      } else if !p.HasActiveRun() {
        CheckpointedKeeps(w, task);
      }
    }
  }

  lemma ActiveKeeps(w: World, task: TaskId, now: Time)
    requires WorldOk(w) && w.store.View(task).HasActiveRun()
    ensures WorldOk(RecoverActive(w, task, now).0)
  {
    hide WorldOk, RecoveryTx, Fails, Interruption;
    var tx := RecoveryTx(w, task, now);
    TxStore(w, task, now);
    TxOutcome(w, task, now);
    if tx.outcome.Accepted? {
      AcceptedForm(w, task, now);
      AcceptedKeeps(w, RecoverActive(w, task, now).0, task, now);
    }
  }

  // ----- one task changes only itself -----

  lemma AcceptedFrame(w: World, w': World, task: TaskId, now: Time, other: TaskId)
    requires w.store.View(task).run.Some? && AcceptedChange(w, w', task, now) && other != task
    ensures Same(w, w', other)
  {
    hide Interruption, RecoveryEvents;
  }

  lemma ActiveFrame(w: World, task: TaskId, now: Time, other: TaskId)
    requires WorldOk(w) && w.store.View(task).HasActiveRun() && other != task
    ensures Same(w, RecoverActive(w, task, now).0, other)
  {
    hide WorldOk, RecoveryTx, Append, Interruption, RecoveryEvents;
    TxStore(w, task, now);
    if RecoveryTx(w, task, now).outcome.Accepted? {
      AcceptedForm(w, task, now);
      AcceptedFrame(w, RecoverActive(w, task, now).0, task, now, other);
    }
  }

  /** Recovering a task leaves every other task and every other inbox entry alone. */
  lemma OneFrame(w: World, task: TaskId, now: Time, other: TaskId)
    requires WorldOk(w) && other != task
    ensures Same(w, RecoverOne(w, task, now).0, other)
  {
    hide WorldOk, RecoverActive;
    var p := w.store.View(task);
    if p.HasActiveRun() && (task, p.run.value.segment) !in w.pendingStarts { ActiveFrame(w, task, now, other); }
  }

  lemma ActiveKeys(w: World, task: TaskId, now: Time)
    requires WorldOk(w) && w.store.View(task).HasActiveRun()
    ensures RecoverActive(w, task, now).0.store.logs.Keys == w.store.logs.Keys
  {
    hide RecoveryTx, Interruption, RecoveryEvents, RunOk, CheckpointOk;
    TxStore(w, task, now);
    ViewFacts(w.store, task);
  }

  // ----- a settled task -----

  /** Recovery has nothing left to do for this task. */
  ghost predicate Settled(w: World, task: TaskId) {
    var p := w.store.View(task);
    p.run.Some? ==>
      if p.run.value.Active() then (task, p.run.value.segment) in w.pendingStarts
      else p.run.value.terminal == Some(InterruptedByRestart) ==> AtCheckpoint(w, task, p.run.value.segment)
  }

  /** A settled task is a fixed point: nothing is written and nothing is reported. */
  lemma SettledIsFixed(w: World, task: TaskId, now: Time)
    requires WorldOk(w) && Settled(w, task)
    ensures RecoverOne(w, task, now) == (w, Ok(None))
  {
    hide WorldOk, RecoverActive;
  }

  /** A successful recovery settles its task. */
  lemma RecoverySettles(w: World, task: TaskId, now: Time)
    requires WorldOk(w) && RecoverOne(w, task, now).1.Ok?
    ensures Settled(RecoverOne(w, task, now).0, task)
  {
    hide WorldOk, RecoveryTx, Append, RecoveryEvents;
    var p := w.store.View(task);
    if p.HasActiveRun() && (task, p.run.value.segment) !in w.pendingStarts {
      TxOutcome(w, task, now);
      TxStore(w, task, now);
      if RecoveryTx(w, task, now).outcome.Accepted? { AcceptedForm(w, task, now); }
    }
  }

  lemma SettledFrame(w: World, w': World, task: TaskId)
    requires Settled(w, task) && Same(w, w', task)
    ensures Settled(w', task)
  {
  }

  lemma OneScan(w: World, task: TaskId, now: Time)
    requires WorldOk(w)
    ensures var w' := RecoverOne(w, task, now).0;
            && w'.store.logs.Keys == w.store.logs.Keys && w'.pendingStarts == w.pendingStarts
            && (InScan(w'.store.View(task)) <==> InScan(w.store.View(task)))
  {
    hide RecoveryTx, Append, RecoveryEvents, RunOk, CheckpointOk;
    var p := w.store.View(task);
    if p.HasActiveRun() && (task, p.run.value.segment) !in w.pendingStarts {
      ActiveKeys(w, task, now);
      ViewFacts(w.store, task);
      TxStore(w, task, now);
      if RecoveryTx(w, task, now).outcome.Accepted? { AcceptedForm(w, task, now); }
    }
  }

  // ----- a whole pass -----

  /** What a pass over `tasks` leaves alone, and that its successes are settled. */
  lemma {:induction false} AllFacts(w: World, tasks: seq<TaskId>, clock: TaskId -> Time)
    requires WorldOk(w) && Ascending(tasks)
    ensures var all := RecoverAll(w, tasks, clock);
            && WorldOk(all.0) && all.0.store.logs.Keys == w.store.logs.Keys && all.0.pendingStarts == w.pendingStarts
            && (forall t :: t !in tasks ==> Same(w, all.0, t))
            && (forall t :: InScan(all.0.store.View(t)) <==> InScan(w.store.View(t)))
            && (all.1.Ok? ==> forall t :: t in tasks ==> Settled(all.0, t))
  {
    hide WorldOk, RecoverOne, Same, Settled, InScan;
    if |tasks| == 0 {
      forall t ensures Same(w, w, t) { SameSelf(w, t); }
    } else {
      var init := tasks[..|tasks| - 1];
      var task := tasks[|tasks| - 1];
      AllFacts(w, init, clock);
      var before := RecoverAll(w, init, clock);
      if before.1.Ok? {
        assert forall t :: t in tasks <==> t in init || t == task;
        var one := RecoverOne(before.0, task, clock(task));
        OneKeeps(before.0, task, clock(task));
        OneScan(before.0, task, clock(task));
        forall t | t !in tasks ensures Same(w, one.0, t) {
          OneFrame(before.0, task, clock(task), t);
          SameTrans(w, before.0, one.0, t);
        }
        forall t ensures InScan(one.0.store.View(t)) <==> InScan(w.store.View(t)) {
          if t != task {
            OneFrame(before.0, task, clock(task), t);
            SameView(before.0, one.0, t);
          }
        }
        if one.1.Ok? {
          RecoverySettles(before.0, task, clock(task));
          forall t | t in init ensures Settled(one.0, t) {
            OneFrame(before.0, task, clock(task), t);
            SettledFrame(before.0, one.0, t);
          }
        }
      } else {
        forall t | t !in tasks ensures Same(w, before.0, t) { assert t !in init; }
      }
    }
  }

  lemma SameSelf(w: World, t: TaskId)
    ensures Same(w, w, t)
  {
  }

  lemma SameTrans(a: World, b: World, c: World, t: TaskId)
    requires Same(a, b, t) && Same(b, c, t)
    ensures Same(a, c, t)
  {
  }

  lemma SameView(a: World, b: World, t: TaskId)
    requires Same(a, b, t)
    ensures b.store.View(t) == a.store.View(t)
  {
  }

  /** Settled tasks are passed over. */
  lemma {:induction false} AllFixed(w: World, tasks: seq<TaskId>, clock: TaskId -> Time)
    requires WorldOk(w) && forall t :: t in tasks ==> Settled(w, t)
    ensures RecoverAll(w, tasks, clock) == (w, Ok([]))
  {
    hide WorldOk, Settled, RecoverOne;
    if |tasks| > 0 {
      AllFixed(w, tasks[..|tasks| - 1], clock);
      SettledIsFixed(w, tasks[|tasks| - 1], clock(tasks[|tasks| - 1]));
    }
  }

  lemma {:induction false} AllConcat(w: World, a: seq<TaskId>, b: seq<TaskId>, clock: TaskId -> Time)
    requires RecoverAll(w, a, clock).1.Ok?
    ensures var first := RecoverAll(w, a, clock); var rest := RecoverAll(first.0, b, clock); var all := RecoverAll(w, a + b, clock);
            && all.0 == rest.0
            && all.1 == if rest.1.Err? then rest.1 else Ok(first.1.value + rest.1.value)
  {
    hide RecoverOne;
    if |b| == 0 {
      assert a + b == a;
      assert RecoverAll(w, a, clock).1.value + [] == RecoverAll(w, a, clock).1.value;
    } else {
      assert (a + b)[..|a + b| - 1] == a + b[..|b| - 1];
      AllConcat(w, a, b[..|b| - 1], clock);
      var first := RecoverAll(w, a, clock);
      var rest := RecoverAll(first.0, b[..|b| - 1], clock);
      if rest.1.Ok? {
        var one := RecoverOne(rest.0, b[|b| - 1], clock(b[|b| - 1])).1;
        if one.Ok? && one.value.Some? {
          assert (first.1.value + rest.1.value) + [one.value.value] == first.1.value + (rest.1.value + [one.value.value]);
        }
      }
    }
  }

  lemma ScanKept(w: World, w': World)
    requires w'.store.logs.Keys == w.store.logs.Keys && forall t :: InScan(w'.store.View(t)) <==> InScan(w.store.View(t))
    ensures ScanSet(w'.store) == ScanSet(w.store)
  {
    hide InScan;
    forall t ensures t in ScanSet(w'.store) <==> t in ScanSet(w.store) {
      assert t in w'.store.logs <==> t in w'.store.logs.Keys;
      assert t in w.store.logs <==> t in w.store.logs.Keys;
    }
  }

  // ----- failures -----

  /** The task stops a pass: its run is active, its start was delivered, and its recovery fails. */
  ghost predicate Stops(w: World, task: TaskId, now: Time) {
    var p := w.store.View(task);
    p.HasActiveRun() && (task, p.run.value.segment) !in w.pendingStarts && Fails(w, task, now)
  }

  ghost predicate NothingStops(w: World, clock: TaskId -> Time) {
    forall task :: !Stops(w, task, clock(task))
  }

  /**
   Recovery of a task fails exactly when its run is active and undelivered starts do
   not excuse it, and either an earlier attempt for it was recorded, or its batch
   is too large, or its run started after the current time. A failure writes nothing.
   */
  lemma RecoveryFailsExactly(w: World, task: TaskId, now: Time)
    requires WorldOk(w)
    ensures RecoverOne(w, task, now).1.Err? <==> Stops(w, task, now)
    ensures RecoverOne(w, task, now).1.Err? ==> RecoverOne(w, task, now).0 == w
  {
    hide WorldOk, RecoveryTx, Fails;
    if w.store.View(task).HasActiveRun() {
      TxOutcome(w, task, now);
      TxStore(w, task, now);
    }
  }

  lemma StopsSame(w: World, w': World, task: TaskId, now: Time)
    requires Same(w, w', task)
    ensures Stops(w', task, now) <==> Stops(w, task, now)
  {
    hide RecoveryEvents, OpenTools, Sorted;
    assert w'.store.View(task) == w.store.View(task);
  }

  /** What stops a pass over `tasks` can be read off the state before it. */
  lemma {:induction false} AllSucceedsExactly(w: World, tasks: seq<TaskId>, clock: TaskId -> Time)
    requires WorldOk(w) && Ascending(tasks)
    ensures RecoverAll(w, tasks, clock).1.Ok? <==> forall t :: t in tasks ==> !Stops(w, t, clock(t))
  {
    hide WorldOk, RecoverOne, Same, Settled, InScan, Stops;
    if |tasks| > 0 {
      var init, task := tasks[..|tasks| - 1], tasks[|tasks| - 1];
      AllSucceedsExactly(w, init, clock);
      AllFacts(w, init, clock);
      var before := RecoverAll(w, init, clock).0;
      assert task !in init;
      StopsSame(w, before, task, clock(task));
      RecoveryFailsExactly(before, task, clock(task));
      assert forall t :: t in tasks <==> t in init || t == task;
    }
  }

  /** An active run is in the scan. */
  lemma StopsInScan(w: World, task: TaskId, now: Time)
    requires WorldOk(w) && Stops(w, task, now)
    ensures task in ScanSet(w.store)
  {
    hide Fails, RunOk, CheckpointOk, InboxOk;
    ViewFacts(w.store, task);
  }

  /** A pass succeeds if and only if, before it, no task with a delivered active run fails. */
  lemma PassSucceedsExactly(w: World, clock: TaskId -> Time)
    requires WorldOk(w)
    ensures Pass(w, clock).1.Ok? <==> NothingStops(w, clock)
  {
    hide WorldOk, RecoverAll, Stops, ScanSet;
    var order := Sorted(ScanSet(w.store));
    AllSucceedsExactly(w, order, clock);
    forall t | Stops(w, t, clock(t)) ensures t in order {
      StopsInScan(w, t, clock(t));
      assert t in Elements(order);
    }
  }

  /** A failed pass ends at the first task that stops it and keeps what it did for the tasks before. */
  lemma FailedPassKeepsProgress(w: World, clock: TaskId -> Time, k: nat)
    requires WorldOk(w) && k < |Sorted(ScanSet(w.store))|
    requires var order := Sorted(ScanSet(w.store));
             Stops(w, order[k], clock(order[k])) && forall i :: 0 <= i < k ==> !Stops(w, order[i], clock(order[i]))
    ensures var order := Sorted(ScanSet(w.store)); var done := RecoverAll(w, order[..k], clock);
            && Pass(w, clock).1.Err? && Pass(w, clock).0 == done.0 && done.1.Ok?
            && (forall i :: 0 <= i < k ==> Settled(done.0, order[i]))
            && (forall t :: t !in order[..k] ==> Same(w, done.0, t))
  {
    hide WorldOk, RecoverOne, Same, Settled, InScan, Stops, Sorted, ScanSet;
    var order := Sorted(ScanSet(w.store));
    AllSucceedsExactly(w, order[..k], clock);
    AllFacts(w, order[..k], clock);
    var done := RecoverAll(w, order[..k], clock).0;
    assert order[k] !in order[..k];
    StopsSame(w, done, order[k], clock(order[k]));
    RecoveryFailsExactly(done, order[k], clock(order[k]));
    forall i | 0 <= i < k ensures Settled(done, order[i]) { assert order[..k][i] == order[i]; }
    assert order[..k + 1][..k] == order[..k];
    ErrorStays(w, order[..k + 1], order[k + 1..], clock);
    assert order == order[..k + 1] + order[k + 1..];
  }

  /** The first error ends the pass. */
  lemma {:induction false} ErrorStays(w: World, a: seq<TaskId>, b: seq<TaskId>, clock: TaskId -> Time)
    requires RecoverAll(w, a, clock).1.Err?
    ensures RecoverAll(w, a + b, clock) == RecoverAll(w, a, clock)
  {
    hide RecoverOne;
    if |b| == 0 {
      assert a + b == a;
    } else {
      assert (a + b)[..|a + b| - 1] == a + b[..|b| - 1];
      ErrorStays(w, a, b[..|b| - 1], clock);
    }
  }

  // ----- a lost race -----

  /** What an attempt sees that reads the stream at `version`. */
  function ViewAt(st: Store, task: TaskId, version: nat): Projection
    requires version <= st.Version(task)
  {
    match Replay(st.Log(task)[..version])
    case Some(p) => p
    case None => EMPTY_PROJECTION
  }

  /** An attempt that read an active, delivered run at `version` and has been overtaken since. */
  ghost predicate Overtaken(w: World, task: TaskId, version: nat) {
    version < w.store.Version(task)
    && var p := ViewAt(w.store, task, version); p.HasActiveRun() && (task, p.run.value.segment) !in w.pendingStarts
  }

  /** Its commit; `tools` are the open tools it found. */
  function OvertakenTx(w: World, task: TaskId, version: nat, tools: seq<ToolId>, now: Time): Tx
    requires Overtaken(w, task, version)
  {
    var p := ViewAt(w.store, task, version);
    Transact(w.store, RecoveryCommand(task, p.run.value.segment, version), None, Ok(RecoveryEvents(p, tools, now)))
  }

  /**
   A lost race is sticky: once an attempt at a stale version has been rejected,
   the recorded rejection makes every later attempt for the same run fail.
   */
  lemma LostRaceIsSticky(w: World, task: TaskId, stale: nat, tools: seq<ToolId>, now: Time, later: Time)
    requires WorldOk(w) && Overtaken(w, task, stale) && w.store.View(task).HasActiveRun()
    requires ViewAt(w.store, task, stale).run.value.segment == w.store.View(task).run.value.segment
    ensures var lost := OvertakenTx(w, task, stale, tools, now);
            && (Key(task, w.store.View(task)) !in w.store.inbox ==> lost.outcome == Rejected(WrongExpectedVersion(w.store.Version(task))))
            && WorldOk(w.(store := lost.store)) && lost.store.logs == w.store.logs
            && Stops(w.(store := lost.store), task, later) && RecoverOne(w.(store := lost.store), task, later).1.Err?
  {
    hide RunOk, CheckpointOk, RecoverOne, RecoveryEvents, Replay;
    var segment := w.store.View(task).run.value.segment;
    var lost := OvertakenTx(w, task, stale, tools, now);
    var w' := w.(store := lost.store);
    assert Key(task, w.store.View(task)) in w'.store.inbox;
    OvertakenKeeps(w, task, stale, tools, now);
    forall t ensures w'.store.Log(t) == w.store.Log(t) && w'.store.View(t) == w.store.View(t) { }
    RecoveryFailsExactly(w', task, later);
  }

  /** An overtaken attempt leaves at most a rejection behind. */
  lemma OvertakenKeeps(w: World, task: TaskId, stale: nat, tools: seq<ToolId>, now: Time)
    requires WorldOk(w) && Overtaken(w, task, stale)
    ensures var lost := OvertakenTx(w, task, stale, tools, now); WorldOk(w.(store := lost.store)) && lost.store.logs == w.store.logs
  {
    hide RunOk, CheckpointOk, RecoverOne, RecoveryEvents, Replay, ViewAt, TaskOk;
    var segment := ViewAt(w.store, task, stale).run.value.segment;
    var c := RecoveryCommand(task, segment, stale);
    var lost := OvertakenTx(w, task, stale, tools, now).store;
    assert lost == w.store || lost == w.store.(inbox := w.store.inbox[(task, c.key) := InboxEntry(c.payload,
        stale, Rejected(WrongExpectedVersion(w.store.Version(task))))]);
    forall t ensures lost.Log(t) == w.store.Log(t) && lost.View(t) == w.store.View(t) { }
    forall t ensures TaskOk(lost.View(t)) && RunOk(lost.Log(t), lost.View(t)) {
      assert TaskOk(w.store.View(t)) && RunOk(w.store.Log(t), w.store.View(t));
    }
    forall t: TaskId, g: SegmentId | (t, RecoveryKey(g)) in lost.inbox ensures EntryOk(lost, t, g, lost.inbox[(t, RecoveryKey(g))]) {
      if (t, g) != (task, segment) || lost == w.store { assert EntryOk(w.store, t, g, w.store.inbox[(t, RecoveryKey(g))]); }
    }
  }

  // ----- what a pass achieves -----

  /**
   Completeness: if nothing stops the pass, it succeeds, and then no task has an active run or a pending
   interaction, unless the start of its run is still to be delivered.
   */
  lemma PassIsComplete(w: World, clock: TaskId -> Time, task: TaskId)
    requires WorldOk(w) && NothingStops(w, clock)
    ensures Pass(w, clock).1.Ok?
    ensures var w' := Pass(w, clock).0; var p := w'.store.View(task);
            (p.run.Some? ==> (task, p.run.value.segment) !in w.pendingStarts) ==>
              !p.HasActiveRun() && p.permission.None? && p.question.None?
  {
    hide RecoverAll, RunOk, CheckpointOk, InboxOk, Stops;
    PassSucceedsExactly(w, clock);
    var order := Sorted(ScanSet(w.store));
    AllFacts(w, order, clock);
    var w' := Pass(w, clock).0;
    ViewFacts(w'.store, task);
    if w'.store.View(task).HasActiveRun() {
      assert InScan(w'.store.View(task)) && InScan(w.store.View(task));
      assert task in w'.store.logs.Keys;
      assert task in ScanSet(w.store) && task in Elements(order);
      assert Settled(w', task);
    }
  }

  /** Idempotence: a second pass, whatever the clock says then, writes nothing and reports nothing. */
  lemma SecondPassIsIdle(w: World, clock: TaskId -> Time, later: TaskId -> Time)
    requires WorldOk(w) && NothingStops(w, clock)
    ensures Pass(Pass(w, clock).0, later) == (Pass(w, clock).0, Ok([]))
  {
    hide RecoverAll, WorldOk, Settled, InScan, Stops;
    PassSucceedsExactly(w, clock);
    var order := Sorted(ScanSet(w.store));
    AllFacts(w, order, clock);
    var w' := Pass(w, clock).0;
    ScanKept(w, w');
    forall t | t in order ensures Settled(w', t) { }
    AllFixed(w', order, later);
  }

  /**
   A crash after any number of recovered tasks is harmless: starting over reaches
   the same durable state, and reports exactly the tasks that were left.
   */
  lemma CrashThenRerun(w: World, clock: TaskId -> Time, k: nat)
    requires WorldOk(w) && k <= |Sorted(ScanSet(w.store))|
    requires forall t :: t in Sorted(ScanSet(w.store))[..k] ==> !Stops(w, t, clock(t))
    ensures var crashed := RecoverAll(w, Sorted(ScanSet(w.store))[..k], clock);
            && crashed.1.Ok? && Pass(crashed.0, clock).0 == Pass(w, clock).0
            && (Pass(crashed.0, clock).1.Ok? <==> Pass(w, clock).1.Ok?)
            && (Pass(w, clock).1.Ok? ==> Pass(w, clock).1.value == crashed.1.value + Pass(crashed.0, clock).1.value)
  {
    hide RecoverAll, WorldOk, InScan, Stops;
    var order := Sorted(ScanSet(w.store));
    assert order == order[..k] + order[k..];
    AllSucceedsExactly(w, order[..k], clock);
    AllFacts(w, order[..k], clock);
    ScanKept(w, RecoverAll(w, order[..k], clock).0);
    RerunReaches(w, order[..k], order[k..], clock);
  }

  lemma RerunReaches(w: World, done: seq<TaskId>, rest: seq<TaskId>, clock: TaskId -> Time)
    requires WorldOk(w) && Ascending(done) && RecoverAll(w, done, clock).1.Ok?
    ensures var crashed := RecoverAll(w, done, clock);
            var rerun := RecoverAll(crashed.0, done + rest, clock);
            var full := RecoverAll(w, done + rest, clock);
            && rerun.0 == full.0 && (rerun.1.Ok? <==> full.1.Ok?)
            && (full.1.Ok? ==> full.1.value == crashed.1.value + rerun.1.value)
  {
    hide RecoverAll, WorldOk, Settled, InScan;
    AllFacts(w, done, clock);
    var crashed := RecoverAll(w, done, clock);
    AllFixed(crashed.0, done, clock);
    AllConcat(w, done, rest, clock);
    AllConcat(crashed.0, done, rest, clock);
  }

  // ----- a lost checkpoint -----

  ghost predicate Commits(w: World, task: TaskId, now: Time) {
    w.store.View(task).HasActiveRun() && (task, w.store.View(task).run.value.segment) !in w.pendingStarts
    && RecoveryTx(w, task, now).outcome.Accepted?
  }

  /** The state after the commit, had the checkpoint that is part of it been lost. */
  ghost function Uncheckpointed(w: World, task: TaskId, now: Time): World
    requires Commits(w, task, now)
  {
    w.(store := RecoveryTx(w, task, now).store)
  }

  lemma OldCheckpointOk(w: World, w': World, task: TaskId, now: Time)
    requires WorldOk(w) && w.store.View(task).run.Some? && AcceptedChange(w, w', task, now) && task in w.latest
    ensures CheckpointOk(w'.store.Log(task), w.latest[task])
  {
    hide RecoveryEvents, Append, Interruption, RunOk;
    BatchOnly(w.store.View(task), Tools(w, task), now);
    var es := Stamp(Events(w, task, now), w.store.lastOffset);
    forall i | 0 <= i < |es| ensures !es[i].event.RunStarted? { assert RecoveryEvent(Events(w, task, now)[i], Elements(Tools(w, task))); }
    ViewFacts(w'.store, task);
    CheckpointGrows(w.store.Log(task), es, w.latest[task]);
  }

  lemma UncheckpointedOk(w: World, w': World, task: TaskId, now: Time)
    requires WorldOk(w) && w.store.View(task).run.Some? && AcceptedChange(w, w', task, now)
    ensures WorldOk(w.(store := w'.store))
  {
    hide RecoveryEvents, Append, Interruption, RunOk, CheckpointOk, EntryOk;
    AcceptedKeeps(w, w', task, now);
    if task in w.latest { OldCheckpointOk(w, w', task, now); }
    forall t | t in w.latest ensures CheckpointOk(w'.store.Log(t), w.latest[t]) {
      if t != task { assert w'.store.Log(t) == w.store.Log(t); }
    }
  }

  lemma StaleCheckpoint(w: World, w': World, task: TaskId, now: Time)
    requires WorldOk(w) && w.store.View(task).run.Some? && AcceptedChange(w, w', task, now)
    ensures var segment := w.store.View(task).run.value.segment; !AtCheckpoint(w.(store := w'.store), task, segment)
  {
    hide RecoveryEvents, Append, Interruption, RunOk;
    ViewFacts(w.store, task);
    ViewFacts(w'.store, task);
    var log := w'.store.Log(task);
    var es := Stamp(Events(w, task, now), w.store.lastOffset);
    assert log == w.store.Log(task) + es && log[|log| - 1] == es[|es| - 1];
  }

  /** The next pass writes a lost checkpoint again: the same tools at the same place. */
  lemma LostCheckpointIsRewritten(w: World, task: TaskId, now: Time, later: Time)
    requires WorldOk(w) && Commits(w, task, now)
    ensures WorldOk(Uncheckpointed(w, task, now))
    ensures RecoverOne(Uncheckpointed(w, task, now), task, later) == (RecoverOne(w, task, now).0, Ok(None))
  {
    hide WorldOk, RecoveryTx, Append, RecoveryEvents;
    AcceptedForm(w, task, now);
    var w' := RecoverActive(w, task, now).0;
    UncheckpointedOk(w, w', task, now);
    StaleCheckpoint(w, w', task, now);
    AcceptedRun(w, w', task, now);
  }

  /**
   Wherever the pass stops with the checkpoint of its last commit lost, starting
   over reaches the state the uninterrupted pass would have reached.
   */
  lemma PassAfterLostCheckpoint(w: World, clock: TaskId -> Time, k: nat)
    requires WorldOk(w) && k < |Sorted(ScanSet(w.store))|
    requires forall t :: t in Sorted(ScanSet(w.store))[..k] ==> !Stops(w, t, clock(t))
    requires var order := Sorted(ScanSet(w.store)); Commits(RecoverAll(w, order[..k], clock).0, order[k], clock(order[k]))
    ensures var order := Sorted(ScanSet(w.store)); var before := RecoverAll(w, order[..k], clock);
            var crashed := Uncheckpointed(before.0, order[k], clock(order[k]));
            Pass(crashed, clock).0 == Pass(w, clock).0 && (Pass(crashed, clock).1.Ok? <==> Pass(w, clock).1.Ok?)
  {
    hide WorldOk, InScan, Settled, Commits, Uncheckpointed, RecoverOne, RecoverAll, Sorted, Same, Stops;
    var order := Sorted(ScanSet(w.store));
    var done, task := order[..k], order[k];
    var before := RecoverAll(w, done, clock).0;
    AllSucceedsExactly(w, done, clock);
    AllFacts(w, done, clock);
    var crashed := Uncheckpointed(before, task, clock(task));
    LostCheckpointIsRewritten(before, task, clock(task), clock(task));
    StillSettled(before, task, clock(task), done);
    AllFixed(crashed, done, clock);
    SameOrder(w, clock, k);
    assert order == order[..k + 1] + order[k + 1..] && order[..k + 1][..k] == done;
    SameRest(w, crashed, order[..k + 1], order[k + 1..], clock);
  }

  /** The scan does not notice the committed task. */
  lemma SameOrder(w: World, clock: TaskId -> Time, k: nat)
    requires WorldOk(w) && k < |Sorted(ScanSet(w.store))|
    requires var order := Sorted(ScanSet(w.store)); var before := RecoverAll(w, order[..k], clock);
             before.1.Ok? && RecoverOne(before.0, order[k], clock(order[k])).1.Ok?
    ensures var order := Sorted(ScanSet(w.store)); var before := RecoverAll(w, order[..k], clock);
            ScanSet(RecoverOne(before.0, order[k], clock(order[k])).0.store) == ScanSet(w.store)
  {
    hide WorldOk, InScan, Settled, RecoverOne, Sorted, Same;
    var order := Sorted(ScanSet(w.store));
    assert order[..k + 1][..k] == order[..k];
    AllFacts(w, order[..k + 1], clock);
    ScanKept(w, RecoverAll(w, order[..k + 1], clock).0);
  }

  /** Two passes that agree after their first part agree at the end. */
  lemma SameRest(w: World, c: World, first: seq<TaskId>, rest: seq<TaskId>, clock: TaskId -> Time)
    requires |first| > 0
    requires var init := first[..|first| - 1]; var task := first[|first| - 1];
             var a := RecoverAll(w, init, clock); var b := RecoverAll(c, init, clock);
             && a.1.Ok? && b.1.Ok? && RecoverOne(a.0, task, clock(task)).1.Ok?
             && RecoverOne(b.0, task, clock(task)) == (RecoverOne(a.0, task, clock(task)).0, Ok(None))
    ensures RecoverAll(c, first + rest, clock).0 == RecoverAll(w, first + rest, clock).0
    ensures RecoverAll(c, first + rest, clock).1.Ok? <==> RecoverAll(w, first + rest, clock).1.Ok?
  {
    hide RecoverOne;
    AllConcat(w, first, rest, clock);
    AllConcat(c, first, rest, clock);
  }

  lemma StillSettled(w: World, task: TaskId, now: Time, done: seq<TaskId>)
    requires WorldOk(w) && Commits(w, task, now) && task !in done && forall t :: t in done ==> Settled(w, t)
    ensures RecoverOne(w, task, now).1.Ok? && RecoverOne(w, task, now).0.store == Uncheckpointed(w, task, now).store
    ensures forall t :: t in done ==> Settled(Uncheckpointed(w, task, now), t)
  {
    hide WorldOk, RecoveryTx, Settled, Append, RecoveryEvents;
    forall t | t in done ensures Settled(Uncheckpointed(w, task, now), t) {
      OneFrame(w, task, now, t);
      SettledFrame(w, Uncheckpointed(w, task, now), t);
    }
  }

  /** The report names the task, its run and exactly the tools that were open, in order. */
  lemma ReportIsExact(w: World, task: TaskId, now: Time)
    requires WorldOk(w) && RecoverOne(w, task, now).1.Ok? && RecoverOne(w, task, now).1.value.Some?
    ensures var p := w.store.View(task); var w' := RecoverOne(w, task, now).0; var r := RecoverOne(w, task, now).1.value.value;
            && p.HasActiveRun() && r.task == task && r.segment == p.run.value.segment
            && Ascending(r.tools) && Elements(r.tools) == OpenTools(w.store.Log(task), r.segment)
            && w'.Latest(task) == Some(Checkpoint(r.segment, w'.store.View(task).lastOffset, r.tools))
            && Interruption(p, w'.store.View(task), now, |RecoveryEvents(p, r.tools, now)|)
            && Appended(w.store, w'.store, task, RecoveryEvents(p, r.tools, now))
  {
    hide WorldOk, RecoveryTx, Append, RecoveryEvents, Interruption;
    AcceptedForm(w, task, now);
  }
}
