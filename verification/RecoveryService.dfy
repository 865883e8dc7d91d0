/**
 The recovery service: paged scans, event lists built step by step, optimistic
 commits and checkpoints, proved to perform exactly one simple pass.
 */
module RecoveryServices {
  import opened Basics
  import opened TaskStream
  import opened StreamLaws
  import opened StoreLaws
  import opened ToolHistory
  import opened RecoveryBatch
  import opened Recovery

  predicate IsAfter(task: TaskId, after: Option<TaskId>) { after.None? || after.value < task }

  /** The nonterminal tasks after a keyset cursor. */
  function ScanAfter(st: Store, after: Option<TaskId>): set<TaskId> {
    set task | task in st.logs && InScan(st.View(task)) && IsAfter(task, after)
  }

  lemma InsertIsSorted(r: seq<nat>, s: set<nat>)
    requires Ascending(r) && Elements(r) == s
    ensures r == Sorted(s)
  {
    AscendingUnique(r, Sorted(s));
  }

  /** The checkpoint roll-forward that is part of every accepted transaction ending a run. */
  function RolledForward(log: seq<Envelope>, prior: Option<Checkpoint>, segment: SegmentId, offset: nat): set<ToolId> {
    if prior.Some? && prior.value.segment == segment && prior.value.offset <= offset then
      Canonical(Elements(prior.value.tools), Between(log, prior.value.offset, offset))
    else CanonicalTools(log, segment, offset)
  }

  /** Rolling a validated checkpoint forward gives what a history from the run's start gives. */
  lemma RollForwardIsCanonical(log: seq<Envelope>, prior: Checkpoint, segment: SegmentId, offset: nat)
    requires Increasing(log) && CheckpointOk(log, prior) && prior.segment == segment && prior.offset <= offset
    ensures RolledForward(log, Some(prior), segment, offset) == CanonicalTools(log, segment, offset)
  {
    var start := RunStartOffset(log, segment).value;
    BetweenIsSlice(log, start, prior.offset);
    BetweenIsSlice(log, prior.offset, offset);
    BetweenIsSlice(log, start, offset);
    assert Between(log, start, offset) == Between(log, start, prior.offset) + Between(log, prior.offset, offset);
    CanonicalConcat({}, Between(log, start, prior.offset), Between(log, prior.offset, offset));
  }

  /** The facts that make the commit's roll-forward and the later checkpoint succeed. */
  lemma CommitFacts(w: World, task: TaskId, now: Time)
    requires WorldOk(w) && w.store.View(task).HasActiveRun() && RecoveryTx(w, task, now).outcome.Accepted?
    ensures var tx := RecoveryTx(w, task, now); var p := w.store.View(task); var segment := p.run.value.segment;
            var log := tx.store.Log(task); var last := tx.store.View(task).lastOffset;
            && Key(task, p) !in w.store.inbox
            && RolledForward(log, w.Latest(task), segment, last) == CanonicalTools(log, segment, last)
            && CanonicalTools(log, segment, last) == Elements(Tools(w, task))
            && tx.store.View(task).run.Some? && tx.store.View(task).run.value.segment == segment
  {
    hide RecoveryEvents, RecoveryTx, Append, WorldOk;
    var w' := RecoverActive(w, task, now).0;
    AcceptedForm(w, task, now);
    AcceptedRun(w, w', task, now);
    RollsForward(w, w', task, now);
  }

  lemma RollsForward(w: World, w': World, task: TaskId, now: Time)
    requires WorldOk(w) && w.store.View(task).run.Some? && AcceptedChange(w, w', task, now)
    ensures var segment := w.store.View(task).run.value.segment; var log := w'.store.Log(task); var last := w'.store.View(task).lastOffset;
            RolledForward(log, w.Latest(task), segment, last) == CanonicalTools(log, segment, last)
  {
    hide RecoveryEvents, Append, Interruption;
    var segment := w.store.View(task).run.value.segment;
    var es := Stamp(Events(w, task, now), w.store.lastOffset);
    ViewFacts(w'.store, task);
    BatchOnly(w.store.View(task), Tools(w, task), now);
    if task in w.latest {
      forall i | 0 <= i < |es| ensures !es[i].event.RunStarted? { assert RecoveryEvent(Events(w, task, now)[i],
          Elements(Tools(w, task))); }
      CheckpointGrows(w.store.Log(task), es, w.latest[task]);
      if w.latest[task].segment == segment { RollForwardIsCanonical(w'.store.Log(task), w.latest[task], segment,
          w'.store.View(task).lastOffset); }
    }
  }

  /** The state a commit leaves: the batch, and the checkpoint rolled forward in the same transaction. */
  ghost function AfterCommit(w: World, task: TaskId, now: Time): World
    requires Commits(w, task, now)
  {
    var st, segment := RecoveryTx(w, task, now).store, w.store.View(task).run.value.segment;
    Checkpointed(w, st, task, segment, Sorted(RolledForward(st.Log(task), w.Latest(task), segment, st.View(task).lastOffset)))
  }

  /** The commit alone completes the recovery of its task; the checkpoint saved after it changes nothing. */
  lemma CommitIsWhole(w: World, task: TaskId, now: Time)
    requires WorldOk(w) && Commits(w, task, now)
    ensures AfterCommit(w, task, now) == RecoverOne(w, task, now).0 && RecoverOne(w, task, now).1.Ok?
  {
    hide WorldOk, RecoveryTx, CanonicalTools, RolledForward;
    CommitFacts(w, task, now);
    InsertIsSorted(Tools(w, task), Elements(Tools(w, task)));
  }

  /** Wherever the pass crashes right after a commit, starting over reaches the state the uninterrupted pass reaches. */
  lemma CrashAfterCommit(w: World, clock: TaskId -> Time, k: nat)
    requires WorldOk(w) && k < |Sorted(ScanSet(w.store))|
    requires forall t :: t in Sorted(ScanSet(w.store))[..k] ==> !Stops(w, t, clock(t))
    requires var order := Sorted(ScanSet(w.store)); Commits(RecoverAll(w, order[..k], clock).0, order[k], clock(order[k]))
    ensures var order := Sorted(ScanSet(w.store));
            var crashed := AfterCommit(RecoverAll(w, order[..k], clock).0, order[k], clock(order[k]));
            && crashed == RecoverAll(w, order[..k + 1], clock).0
            && Pass(crashed, clock).0 == Pass(w, clock).0 && (Pass(crashed, clock).1.Ok? <==> Pass(w, clock).1.Ok?)
  {
    hide WorldOk, InScan, Settled, Commits, AfterCommit, RecoverOne, Sorted, Same, Stops, ScanSet;
    var order := Sorted(ScanSet(w.store));
    var done, task := order[..k], order[k];
    AllSucceedsExactly(w, done, clock);
    AllFacts(w, done, clock);
    CommitIsWhole(RecoverAll(w, done, clock).0, task, clock(task));
    assert order[..k + 1][..k] == done;
    AllSucceedsExactly(w, order[..k + 1], clock);
    CrashThenRerun(w, clock, k + 1);
  }

  class RecoveryService {
    var store: Store
    var latest: map<TaskId, Checkpoint>
    const pendingStarts: set<(TaskId, SegmentId)>

    ghost function Durable(): World
      reads this
    {
      World(store, latest, pendingStarts)
    }

    constructor (w: World)
      ensures Durable() == w
    {
      store, latest, pendingStarts := w.store, w.latest, w.pendingStarts;
    }

    /** One page of nonterminal tasks with their projections, in id order. */
    method NonterminalAfter(after: Option<TaskId>, limit: nat) returns (page: seq<TaskId>, views: seq<Projection>)
      ensures |page| <= limit && page <= Sorted(ScanAfter(store, after))
      ensures |page| < limit ==> page == Sorted(ScanAfter(store, after))
      ensures |views| == |page| && forall i :: 0 <= i < |page| ==> views[i] == store.View(page[i])
    {
      hide *;
      var sorted := SortTools(ScanAfter(store, after));
      InsertIsSorted(sorted, ScanAfter(store, after));
      page := if |sorted| <= limit then sorted else sorted[..limit];
      views := [];
      for i := 0 to |page|
        invariant |views| == i && forall j :: 0 <= j < i ==> views[j] == store.View(page[j])
      {
        views := views + [store.View(page[i])];
      }
    }

    /** Saves a checkpoint at the end of the stream; the store validates its tools against its own history. */
    method Persist(task: TaskId, segment: SegmentId, tools: seq<ToolId>) returns (r: Result<(), Reason>)
      requires Ascending(tools)
      modifies this`latest
      ensures var p := store.View(task);
              r.Ok? <==> p.run.Some? && p.run.value.segment == segment
                         && Elements(tools) == CanonicalTools(store.Log(task), segment, p.lastOffset)
      ensures Durable() == if r.Ok? then Checkpointed(old(Durable()), store, task, segment, tools) else old(Durable())
    {
      var p := store.View(task);
      if p.run.None? || p.run.value.segment != segment { return Err(CheckpointOfOtherSegment); }
      if Elements(tools) != CanonicalTools(store.Log(task), segment, p.lastOffset) { return Err(CheckpointToolsDisagree); }
      latest := latest[task := Checkpoint(segment, p.lastOffset, tools)];
      r := Ok(());
    }

    /** The events of one recovery, pushed in order. */
    method BuildEvents(p: Projection, tools: seq<ToolId>, now: Time) returns (events: seq<TaskEvent>)
      requires p.run.Some?
      ensures events == RecoveryEvents(p, tools, now)
    {
      var segment := p.run.value.segment;
      events := [];
      if p.permission.Some? {
        events := events + [PermissionInvalidated(p.permission.value.requestId, p.permission.value.revision)];
      }
      if p.question.Some? {
        events := events + [QuestionInvalidated(p.question.value.requestId, p.question.value.revision)];
      }
      assert events == Invalidations(p);
      for i := 0 to |tools|
        invariant events == Invalidations(p) + Indeterminates(segment, tools[..i])
      {
        assert tools[..i + 1][..i] == tools[..i];
        events := events + [ToolIndeterminate(segment, tools[i])];
      }
      assert tools[..|tools|] == tools;
      ghost var before := events;
      if p.run.value.state.Yielding? {
        for i := 0 to |p.queue|
          invariant events == before + Recoveries(p.queue[..i])
        {
          RecoveriesStep(p.queue, i);
          if p.queue[i].state == Promoting { events := events + [MessageRecovered(p.queue[i].id, p.queue[i].revision)]; }
        }
        assert p.queue[..|p.queue|] == p.queue;
      }
      events := events + [RunCompleted(segment, now, InterruptedByRestart, true)];
    }

    /** One transaction and the checkpoint it rolls forward. */
    method Commit(task: TaskId, segment: SegmentId, expected: nat, events: seq<TaskEvent>) returns (outcome: Outcome)
      modifies this
      ensures var tx := Transact(old(store), RecoveryCommand(task, segment, expected), None, Ok(events));
              var log := tx.store.Log(task); var last := tx.store.View(task).lastOffset; var w := old(Durable());
              if !tx.outcome.Accepted? || (task, RecoveryKey(segment)) in old(store).inbox then
                Durable() == w.(store := tx.store) && outcome == tx.outcome
              else if RolledForward(log, w.Latest(task), segment, last) == CanonicalTools(log, segment, last) then
                outcome.Accepted? && Durable() == Checkpointed(w, tx.store, task, segment, Sorted(CanonicalTools(log, segment, last)))
              else outcome.Aborted? && Durable() == w
    {
      var tx := Transact(store, RecoveryCommand(task, segment, expected), None, Ok(events));
      if !tx.outcome.Accepted? || (task, RecoveryKey(segment)) in store.inbox {
        store := tx.store;
        return tx.outcome;
      }
      var log, last := tx.store.Log(task), tx.store.View(task).lastOffset;
      var prior := if task in latest then Some(latest[task]) else None;
      var tools := RolledForward(log, prior, segment, last);
      if tools != CanonicalTools(log, segment, last) { return Aborted(CheckpointToolsDisagree); }
      var sorted := SortTools(tools);
      InsertIsSorted(sorted, tools);
      store := tx.store;
      latest := latest[task := Checkpoint(segment, last, sorted)];
      outcome := Accepted;
    }

    /** The open tools of a run, from the checkpoint on. */
    method OpenToolsOf(task: TaskId, segment: SegmentId) returns (r: Result<seq<ToolId>, Reason>)
      requires WorldOk(Durable()) && store.View(task).run.Some? && store.View(task).run.value.segment == segment
      ensures r == Ok(Tools(Durable(), task))
    {
      var prior := if task in latest then Some(latest[task]) else None;
      ViewFacts(store, task);
      assert RunOk(store.Log(task), store.View(task));
      if prior.Some? && prior.value.segment == segment { ValidatedIsCorrect(store.Log(task), prior.value); }
      r := IndeterminateTools(store.Log(task), prior, segment);
      InsertIsSorted(r.value, OpenTools(store.Log(task), segment));
    }

    /** The checkpoint a terminal run still lacks. */
    method RecoverTerminal(task: TaskId, p: Projection) returns (r: Result<Option<RecoveredTask>, Reason>)
      requires WorldOk(Durable()) && p == store.View(task) && p.run.Some? && !p.run.value.Active()
      modifies this
      ensures (Durable(), r) == RecoverOne(old(Durable()), task, 0)
      ensures forall now :: RecoverOne(old(Durable()), task, now) == RecoverOne(old(Durable()), task, 0)
    {
      var segment := p.run.value.segment;
      if p.run.value.terminal == Some(InterruptedByRestart)
         && !(task in latest && latest[task].segment == segment && latest[task].offset == p.lastOffset) {
        var tools := OpenToolsOf(task, segment);
        ViewFacts(store, task);
        assert RunOk(store.Log(task), p);
        CanonicalAtEnd(store.Log(task), segment, p.lastOffset);
        var saved := Persist(task, segment, tools.value);
        if saved.Err? { return Err(CheckpointRefused); }
      }
      r := Ok(None);
    }

    /** Interrupts an active run: one commit, then its checkpoint. */
    method RecoverRun(task: TaskId, p: Projection, now: Time) returns (r: Result<Option<RecoveredTask>, Reason>)
      requires WorldOk(Durable()) && p == store.View(task) && p.HasActiveRun()
      modifies this
      ensures (Durable(), r) == RecoverActive(old(Durable()), task, now)
    {
      hide WorldOk, RecoveryEvents, CanonicalTools, RolledForward;
      ghost var w := Durable();
      var segment := p.run.value.segment;
      var tools := OpenToolsOf(task, segment);
      var events := BuildEvents(p, tools.value, now);
      ghost var tx := RecoveryTx(w, task, now);
      if tx.outcome.Accepted? { CommitFacts(w, task, now); } else { TxStore(w, task, now); }
      var outcome := Commit(task, segment, p.version, events);
      if outcome.Aborted? { return Err(outcome.error); }
      if !outcome.Accepted? { return Ok(None); }
      InsertIsSorted(Tools(w, task), Elements(Tools(w, task)));
      assert Durable() == Checkpointed(w, tx.store, task, segment, tools.value);
      var saved := Persist(task, segment, tools.value);
      if saved.Err? { return Err(CheckpointRefused); }
      assert Durable().latest == w.latest[task := Checkpoint(segment, store.View(task).lastOffset, tools.value)];
      r := Ok(Some(RecoveredTask(task, segment, tools.value)));
    }

    method RecoverProjection(task: TaskId, p: Projection, now: Time) returns (r: Result<Option<RecoveredTask>, Reason>)
      requires WorldOk(Durable()) && p == store.View(task)
      modifies this
      ensures (Durable(), r) == RecoverOne(old(Durable()), task, now)
    {
      if p.run.None? { return Ok(None); }
      if p.run.value.Active() {
        if (task, p.run.value.segment) in pendingStarts { return Ok(None); }
        r := RecoverRun(task, p, now);
      } else {
        r := RecoverTerminal(task, p);
      }
    }

    /**
     Recovers the tasks of one page in order, from the projections read with the
     page; `order[..start]` is what earlier pages did.
     */
    method RecoverPage(page: seq<TaskId>, views: seq<Projection>, clock: TaskId -> Time, found: seq<RecoveredTask>,
                       ghost w: World, ghost order: seq<TaskId>, ghost start: nat)
      returns (r: Result<seq<RecoveredTask>, Reason>)
      requires WorldOk(w) && Ascending(order) && start + |page| <= |order| && page == order[start..start + |page|]
      requires |views| == |page| && forall i :: 0 <= i < |page| ==> views[i] == store.View(page[i])
      requires (Durable(), Ok(found)) == RecoverAll(w, order[..start], clock)
      modifies this
      ensures (Durable(), r) == RecoverAll(w, order[..start + |page|], clock)
    {
      hide WorldOk, RecoverOne, RecoverAll, InScan, Settled, Same;
      var recovered := found;
      ghost var atRead := Durable();
      for i := 0 to |page|
        invariant (Durable(), Ok(recovered)) == RecoverAll(w, order[..start + i], clock)
      {
        AllFacts(w, order[..start + i], clock);
        StillAsRead(w, atRead, Durable(), order, start, start + i, clock);
        assert views[i] == atRead.store.View(page[i]) && page[i] == order[start + i];
        PassStep(w, order, start + i, clock);
        var one := RecoverProjection(page[i], views[i], clock(page[i]));
        if one.Err? {
          StopsAt(w, order, start + i + 1, start + |page|, clock);
          return Err(one.error);
        }
        if one.value.Some? { recovered := recovered + [one.value.value]; }
      }
      r := Ok(recovered);
    }

    /** The next page continues the initial order, although earlier tasks have changed. */
    method NextPage(after: Option<TaskId>, clock: TaskId -> Time, ghost w: World, ghost order: seq<TaskId>, ghost done: nat)
      returns (page: seq<TaskId>, views: seq<Projection>)
      requires WorldOk(w) && order == Sorted(ScanSet(w.store)) && Cursor(order, done, after)
          && Durable() == RecoverAll(w, order[..done], clock).0
      ensures done + |page| <= |order| && page == order[done..done + |page|]
      ensures |views| == |page| && forall i :: 0 <= i < |page| ==> views[i] == store.View(page[i])
      ensures if |page| == 0 then done == |order| else Cursor(order, done + |page|, Some(page[|page| - 1]))
    {
      hide WorldOk, RecoverAll, InScan, ScanSet, ScanAfter, Ascending;
      RestIsNext(w, Durable(), order, done, after, clock);
      page, views := NonterminalAfter(after, RECOVERY_PAGE_SIZE);
      PageOfRest(order, done, page);
    }

    lemma PageOfRest(order: seq<TaskId>, done: nat, page: seq<TaskId>)
      requires done <= |order| && page <= order[done..]
      ensures done + |page| <= |order| && page == order[done..done + |page|]
    {
    }

    lemma RestIsNext(w: World, w': World, order: seq<TaskId>, done: nat, after: Option<TaskId>, clock: TaskId -> Time)
      requires WorldOk(w) && order == Sorted(ScanSet(w.store)) && Cursor(order, done, after) && w' == RecoverAll(w, order[..done], clock).0
      ensures Sorted(ScanAfter(w'.store, after)) == order[done..]
    {
      hide WorldOk, RecoverAll, InScan, Settled, Same;
      AllFacts(w, order[..done], clock);
      PageIsNext(w, w', order, done, after);
    }

    /**
     One startup pass. Pages of sixteen tasks are read after a keyset cursor while
     the recovered tasks change; the result is the simple pass over the tasks that
     were nonterminal at the start, each visited once, in id order.
     */
    method RecoverStartup(clock: TaskId -> Time) returns (r: Result<seq<RecoveredTask>, Reason>)
      requires WorldOk(Durable())
      modifies this
      ensures (Durable(), r) == Pass(old(Durable()), clock)
    {
      hide WorldOk, RecoverAll, ScanSet, Cursor;
      ghost var w := Durable();
      ghost var order := Sorted(ScanSet(w.store));
      ghost var done := 0;
      var recovered: seq<RecoveredTask> := [];
      var after: Option<TaskId> := None;
      assert order[..0] == [];
      EmptyPass(w, clock);
      AtStart(order);
      while true
        invariant done <= |order| && Cursor(order, done, after) && (Durable(), Ok(recovered)) == RecoverAll(w, order[..done], clock)
        decreases |order| - done
      {
        var page, views := NextPage(after, clock, w, order, done);
        if |page| == 0 { break; }
        after := Some(page[|page| - 1]);
        var rest := RecoverPage(page, views, clock, recovered, w, order, done);
        if rest.Err? {
          StopsAt(w, order, done + |page|, |order|, clock);
          assert order[..|order|] == order;
          return rest;
        }
        recovered := rest.value;
        done := done + |page|;
      }
      assert order[..done] == order;
      r := Ok(recovered);
    }
  }

  /** A task that has not been visited looks as it did when its page was read. */
  lemma StillAsRead(w: World, a: World, b: World, order: seq<TaskId>, read: nat, now: nat, clock: TaskId -> Time)
    requires WorldOk(w) && Ascending(order) && read <= now < |order|
    requires a == RecoverAll(w, order[..read], clock).0 && b == RecoverAll(w, order[..now], clock).0
    ensures b.store.View(order[now]) == a.store.View(order[now])
  {
    hide WorldOk, RecoverAll, InScan, Settled, Same;
    AllFacts(w, order[..read], clock);
    AllFacts(w, order[..now], clock);
    assert order[now] !in order[..read] && order[now] !in order[..now];
    SameView(w, a, order[now]);
    SameView(w, b, order[now]);
  }

  lemma AtStart(order: seq<TaskId>)
    ensures Cursor(order, 0, None)
  {
  }

  lemma EmptyPass(w: World, clock: TaskId -> Time)
    ensures RecoverAll(w, [], clock) == (w, Ok([]))
  {
  }

  /** The cursor stands at the last visited task. */
  ghost predicate Cursor(order: seq<TaskId>, done: nat, after: Option<TaskId>) {
    done <= |order| && after == if done == 0 then None else Some(order[done - 1])
  }

  /** Later pages are unaffected by the tasks already recovered. */
  lemma PageIsNext(w: World, w': World, order: seq<TaskId>, done: nat, after: Option<TaskId>)
    requires order == Sorted(ScanSet(w.store)) && done <= |order| && Cursor(order, done, after)
    requires w'.store.logs.Keys == w.store.logs.Keys && forall t :: InScan(w'.store.View(t)) <==> InScan(w.store.View(t))
    ensures Sorted(ScanAfter(w'.store, after)) == order[done..]
  {
    hide InScan, Cursor, Ascending;
    ScanKept(w, w');
    var rest := order[done..];
    forall t ensures t in ScanAfter(w'.store, after) <==> t in Elements(rest) {
      RestElements(order, done, after, t);
      assert t in ScanAfter(w'.store, after) <==> t in ScanSet(w'.store) && IsAfter(t, after);
    }
    RestAscends(order, done);
    InsertIsSorted(rest, ScanAfter(w'.store, after));
  }

  lemma RestAscends(order: seq<TaskId>, done: nat)
    requires Ascending(order) && done <= |order|
    ensures Ascending(order[done..])
  {
  }

  lemma RestElements(order: seq<TaskId>, done: nat, after: Option<TaskId>, t: TaskId)
    requires Ascending(order) && Cursor(order, done, after)
    ensures t in Elements(order[done..]) <==> t in Elements(order) && IsAfter(t, after)
  {
    var rest := order[done..];
    if t in Elements(rest) {
      var i :| 0 <= i < |rest| && rest[i] == t;
      assert order[done + i] == t;
    }
    if t in Elements(order) && IsAfter(t, after) {
      var i :| 0 <= i < |order| && order[i] == t;
      assert i >= done;
      assert rest[i - done] == t;
    }
  }

  lemma PassStep(w: World, order: seq<TaskId>, done: nat, clock: TaskId -> Time)
    requires done < |order| && RecoverAll(w, order[..done], clock).1.Ok?
    ensures var before := RecoverAll(w, order[..done], clock); var one := RecoverOne(before.0, order[done], clock(order[done]));
            RecoverAll(w, order[..done + 1], clock) ==
              (one.0, match one.1 case Err(error) => Err(error) case Ok(None) => before.1 case Ok(Some(x)) => Ok(before.1.value + [x]))
  {
    hide RecoverOne;
    assert order[..done + 1][..done] == order[..done];
  }

  lemma StopsAt(w: World, order: seq<TaskId>, k: nat, n: nat, clock: TaskId -> Time)
    requires k <= n <= |order| && RecoverAll(w, order[..k], clock).1.Err?
    ensures RecoverAll(w, order[..n], clock) == RecoverAll(w, order[..k], clock)
  {
    hide RecoverAll;
    assert order[..n] == order[..k] + order[k..n];
    ErrorStays(w, order[..k], order[k..n], clock);
  }
}
