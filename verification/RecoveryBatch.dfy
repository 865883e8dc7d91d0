/**
 The events startup recovery records for an interrupted run, and what the
 reducer makes of them.
 */
module RecoveryBatch {
  import opened Basics
  import opened TaskStream
  import opened StreamLaws
  import opened StoreLaws

  function Invalidations(p: Projection): seq<TaskEvent> {
    (if p.permission.Some? then [PermissionInvalidated(p.permission.value.requestId, p.permission.value.revision)] else [])
    + (if p.question.Some? then [QuestionInvalidated(p.question.value.requestId, p.question.value.revision)] else [])
  }

  function Indeterminates(segment: SegmentId, tools: seq<ToolId>): seq<TaskEvent> {
    if |tools| == 0 then [] else Indeterminates(segment, tools[..|tools| - 1]) + [ToolIndeterminate(segment, tools[|tools| - 1])]
  }

  function Recoveries(queue: seq<QueueItem>): seq<TaskEvent> {
    if |queue| == 0 then []
    else
      var item := queue[|queue| - 1];
      Recoveries(queue[..|queue| - 1]) + (if item.state == Promoting then [MessageRecovered(item.id, item.revision)] else [])
  }

  function RecoveryEvents(p: Projection, tools: seq<ToolId>, now: Time): seq<TaskEvent>
    requires p.run.Some?
  {
    Invalidations(p) + Indeterminates(p.run.value.segment, tools)
    + (if p.run.value.state.Yielding? then Recoveries(p.queue) else [])
    + [RunCompleted(p.run.value.segment, now, InterruptedByRestart, true)]
  }

  // ----- stamped batches -----

  lemma StampConcat(a: seq<TaskEvent>, b: seq<TaskEvent>, offset: nat)
    ensures Stamp(a + b, offset) == Stamp(a, offset) + Stamp(b, offset + |a|)
  {
  }

  /** Reducing two batches one after the other. */
  lemma ReduceTwo(p: Projection, a: seq<TaskEvent>, b: seq<TaskEvent>, offset: nat)
    requires ReduceAll(p, Stamp(a, offset)).Some?
    ensures ReduceAll(p, Stamp(a + b, offset)) == ReduceAll(ReduceAll(p, Stamp(a, offset)).value, Stamp(b, offset + |a|))
  {
    StampConcat(a, b, offset);
    ReduceAllConcat(p, Stamp(a, offset), Stamp(b, offset + |a|));
  }

  lemma ReduceOne(p: Projection, e: TaskEvent, offset: nat)
    ensures ReduceAll(p, Stamp([e], offset)) == Reduce(p, Envelope(offset + 1, e))
  {
    var es := Stamp([e], offset);
    assert es == [Envelope(offset + 1, e)] && es[..0] == [];
    assert ReduceAll(p, es[..0]) == Some(p);
  }

  /** `p` can be extended from `offset`, and `q` is what it becomes after `n` more events. */
  predicate Ready(p: Projection, offset: nat) { p.version > 0 && p.lastOffset <= offset }

  function Moved(p: Projection, offset: nat, n: nat): Projection {
    if n == 0 then p else p.(version := p.version + n, lastOffset := offset + n)
  }

  // ----- the parts of the batch -----

  /** With nothing pending a waiting run is running again. */
  function Cleared(p: Projection): Projection {
    if p.permission.None? && p.question.None? then p
    else p.(permission := None, question := None,
            state := if p.run.Some? then TaskState.Running else TaskState.Idle,
            run := if p.run.Some? then Some(p.run.value.(state := RunState.Running)) else None)
  }

  lemma InvalidationsReduce(p: Projection, offset: nat)
    requires Coherent(p) && Ready(p, offset)
    ensures ReduceAll(p, Stamp(Invalidations(p), offset)) == Some(Moved(Cleared(p), offset, |Invalidations(p)|))
  {
    if p.permission.Some? {
      assert Invalidations(p) == [PermissionInvalidated(p.permission.value.requestId, p.permission.value.revision)];
      ReduceOne(p, PermissionInvalidated(p.permission.value.requestId, p.permission.value.revision), offset);
    } else if p.question.Some? {
      assert Invalidations(p) == [QuestionInvalidated(p.question.value.requestId, p.question.value.revision)];
      ReduceOne(p, QuestionInvalidated(p.question.value.requestId, p.question.value.revision), offset);
    } else {
      assert Invalidations(p) == [];
    }
  }

  lemma {:induction false} IndeterminatesReduce(p: Projection, segment: SegmentId, tools: seq<ToolId>, offset: nat)
    requires Ready(p, offset)
    ensures |Indeterminates(segment, tools)| == |tools|
    ensures ReduceAll(p, Stamp(Indeterminates(segment, tools), offset)) == Some(Moved(p, offset, |tools|))
  {
    if |tools| > 0 {
      var init := tools[..|tools| - 1];
      var e := ToolIndeterminate(segment, tools[|tools| - 1]);
      IndeterminatesReduce(p, segment, init, offset);
      ReduceTwo(p, Indeterminates(segment, init), [e], offset);
      ReduceOne(Moved(p, offset, |init|), e, offset + |init|);
    }
  }

  // ----- the queue -----

  predicate DistinctIds(queue: seq<QueueItem>) {
    forall i, j :: 0 <= i < j < |queue| ==> queue[i].id != queue[j].id
  }

  lemma ReduceKeepsDistinct(p: Projection, e: Envelope)
    requires DistinctIds(p.queue) && Reduce(p, e).Some?
    ensures DistinctIds(Reduce(p, e).value.queue)
  {
    if e.event.TaskActorFailed? {
    } else if e.event.MessageQueued? || e.event.MessageEdited? || e.event.MessagePromoted?
              || e.event.MessageRecovered? || e.event.MessageDeleted? || e.event.MessageConsumed? {
      MessageKeepsDistinct(p, e.offset, e.event);
    }
  }

  lemma MessageKeepsDistinct(p: Projection, offset: nat, e: TaskEvent)
    requires DistinctIds(p.queue) && ReduceMessage(p, offset, e).Some?
    ensures DistinctIds(ReduceMessage(p, offset, e).value.queue)
  {
  }

  lemma {:induction false} ReplayDistinct(log: seq<Envelope>)
    requires Replay(log).Some?
    ensures DistinctIds(Replay(log).value.queue)
  {
    if |log| > 0 {
      ReplayDistinct(log[..|log| - 1]);
      ReduceKeepsDistinct(Replay(log[..|log| - 1]).value, log[|log| - 1]);
    }
  }

  /** The queue after the first `k` items were looked at. */
  function Recovered(queue: seq<QueueItem>, k: nat): (r: seq<QueueItem>)
    requires k <= |queue|
    ensures |r| == |queue|
    ensures forall i :: 0 <= i < |queue| ==>
      r[i] == if i < k && queue[i].state == Promoting then queue[i].(state := Queued) else queue[i]
  {
    RecoverPromoting(queue[..k]) + queue[k..]
  }

  lemma FindItem(queue: seq<QueueItem>, k: nat)
    requires DistinctIds(queue) && k < |queue|
    ensures ItemIndex(queue, queue[k].id) == Some(k)
  {
  }

  lemma ReducedMessage(p: Projection, offset: nat, e: TaskEvent)
    requires Ready(p, offset) && (e.MessageRecovered? || e.MessagePromoted?)
    ensures Reduce(p, Envelope(offset + 1, e)) ==
            match ReduceMessage(p, offset + 1,
                e) case None => None case Some(q) => Some(q.(version := p.version + 1, lastOffset := offset + 1))
  {
  }

  /** One promoting item falls back. */
  lemma RecoveryReduces(q: Projection, queue: seq<QueueItem>, k: nat, offset: nat)
    requires Ready(q, offset) && DistinctIds(queue) && k < |queue| && queue[k].state == Promoting && q.queue == Recovered(queue, k)
    ensures var r := Reduce(q, Envelope(offset + 1, MessageRecovered(queue[k].id, queue[k].revision)));
            r.Some? && r.value == Moved(q, offset, 1).(queue := Recovered(queue, k + 1), durable := r.value.durable)
  {
    ReducedMessage(q, offset, MessageRecovered(queue[k].id, queue[k].revision));
    hide Reduce;
    FindItem(q.queue, k);
    assert q.queue[k := queue[k].(state := Queued)] == Recovered(queue, k + 1);
  }

  /** `n` events after `p`, with the first `k` items looked at. */
  predicate RecoveredTo(p: Projection, q: Projection, k: nat, offset: nat, n: nat) {
    k <= |p.queue| && q == Moved(p, offset, n).(queue := Recovered(p.queue, k), durable := q.durable)
  }

  /** The same item, seen from the projection the batch started with. */
  lemma RecoveryMoves(p: Projection, q: Projection, k: nat, offset: nat, n: nat)
    requires Ready(p, offset) && DistinctIds(p.queue) && k < |p.queue| && p.queue[k].state == Promoting && RecoveredTo(p, q, k, offset, n)
    ensures var r := ReduceAll(q, Stamp([MessageRecovered(p.queue[k].id, p.queue[k].revision)], offset + n));
            r.Some? && RecoveredTo(p, r.value, k + 1, offset, n + 1)
  {
    ReduceOne(q, MessageRecovered(p.queue[k].id, p.queue[k].revision), offset + n);
    RecoveryReduces(q, p.queue, k, offset + n);
    hide Reduce, ReduceAll, Stamp, Recovered, DistinctIds;
  }

  /** Any other item is left alone. */
  lemma SkipMoves(p: Projection, q: Projection, k: nat, offset: nat, n: nat)
    requires k < |p.queue| && p.queue[k].state != Promoting && RecoveredTo(p, q, k, offset, n)
    ensures RecoveredTo(p, q, k + 1, offset, n)
  {
    assert Recovered(p.queue, k + 1) == Recovered(p.queue, k);
  }

  lemma RecoveriesStep(queue: seq<QueueItem>, k: nat)
    requires k < |queue|
    ensures Recoveries(queue[..k + 1]) ==
            Recoveries(queue[..k]) + (if queue[k].state == Promoting then [MessageRecovered(queue[k].id, queue[k].revision)] else [])
  {
    assert queue[..k + 1][..k] == queue[..k];
  }

  lemma NoneRecovered(p: Projection, offset: nat)
    ensures var es := Recoveries(p.queue[..0]); var r := ReduceAll(p, Stamp(es, offset));
            r.Some? && RecoveredTo(p, r.value, 0, offset, |es|)
  {
    assert Recovered(p.queue, 0) == p.queue;
  }

  /** The promoting items of the queue fall back, one event each, and nothing else changes. */
  lemma {:induction false} RecoveriesReduce(p: Projection, k: nat, offset: nat)
    requires Ready(p, offset) && DistinctIds(p.queue) && k <= |p.queue|
    ensures var es := Recoveries(p.queue[..k]); var r := ReduceAll(p, Stamp(es, offset));
            r.Some? && RecoveredTo(p, r.value, k, offset, |es|)
  {
    hide *;
    if k == 0 {
      NoneRecovered(p, offset);
    } else {
      RecoveriesReduce(p, k - 1, offset);
      RecoveriesStep(p.queue, k - 1);
      var es := Recoveries(p.queue[..k - 1]);
      var q := ReduceAll(p, Stamp(es, offset)).value;
      var item := p.queue[k - 1];
      if item.state == Promoting {
        ReduceTwo(p, es, [MessageRecovered(item.id, item.revision)], offset);
        RecoveryMoves(p, q, k - 1, offset, |es|);
      } else {
        assert es + [] == es;
        SkipMoves(p, q, k - 1, offset, |es|);
      }
    }
  }

  // ----- the whole batch -----

  /** A run interrupted by the restart, with nothing pending and no message left promoting. */
  predicate Interruption(p: Projection, q: Projection, now: Time, n: nat)
    requires p.run.Some?
  {
    && q.run == Some(p.run.value.(state := RunState.Interrupted, terminal := Some(InterruptedByRestart),
        endedAt := Some(now), incomplete := true))
    && q.state == TaskState.Interrupted && q.permission.None? && q.question.None? && q.removed == p.removed
    && q.version == p.version + n && n > 0
    && q.queue == (if p.run.value.state.Yielding? then RecoverPromoting(p.queue) else p.queue)
  }

  lemma CompletionReduces(p: Projection, now: Time, offset: nat)
    requires Ready(p, offset) && p.run.Some? && p.permission.None? && p.question.None?
    requires p.run.value.state.Running? || p.run.value.state.Yielding?
    ensures ReduceAll(p, Stamp([RunCompleted(p.run.value.segment, now, InterruptedByRestart, true)], offset)) ==
            if now < p.run.value.startedAt then None
            else Some(Moved(p, offset, 1).(state := TaskState.Interrupted,
                 run := Some(p.run.value.(state := RunState.Interrupted, terminal := Some(InterruptedByRestart),
                     endedAt := Some(now), incomplete := true))))
  {
    ReduceOne(p, RunCompleted(p.run.value.segment, now, InterruptedByRestart, true), offset);
  }

  /** Everything before the completion. */
  function Preparation(p: Projection, tools: seq<ToolId>): seq<TaskEvent>
    requires p.run.Some?
  {
    Invalidations(p) + Indeterminates(p.run.value.segment, tools) + (if p.run.value.state.Yielding? then Recoveries(p.queue) else [])
  }

  /** What the run looks like just before its completion. */
  predicate Prepared(p: Projection, q: Projection, offset: nat, n: nat)
    requires p.run.Some?
  {
    && q == Moved(Cleared(p), offset, n).(queue := q.queue, durable := q.durable)
    && q.queue == if p.run.value.state.Yielding? then RecoverPromoting(p.queue) else p.queue
  }

  lemma MovedTwice(p: Projection, offset: nat, m: nat, n: nat)
    ensures Moved(Moved(p, offset, m), offset + m, n) == Moved(p, offset, m + n)
  {
  }

  lemma FirstParts(p: Projection, tools: seq<ToolId>, offset: nat)
    requires Coherent(p) && Ready(p, offset) && p.run.Some?
    ensures var es := Invalidations(p) + Indeterminates(p.run.value.segment, tools);
            ReduceAll(p, Stamp(es, offset)) == Some(Moved(Cleared(p), offset, |es|))
  {
    hide Reduce, Cleared;
    var a := Invalidations(p);
    InvalidationsReduce(p, offset);
    var p1 := Moved(Cleared(p), offset, |a|);
    IndeterminatesReduce(p1, p.run.value.segment, tools, offset + |a|);
    ReduceTwo(p, a, Indeterminates(p.run.value.segment, tools), offset);
    MovedTwice(Cleared(p), offset, |a|, |tools|);
  }

  lemma AllRecovered(queue: seq<QueueItem>)
    ensures queue[..|queue|] == queue && Recovered(queue, |queue|) == RecoverPromoting(queue)
  {
  }

  lemma PreparationReduces(p: Projection, tools: seq<ToolId>, offset: nat)
    requires Coherent(p) && DistinctIds(p.queue) && Ready(p, offset) && p.run.Some?
    ensures var es := Preparation(p, tools); var r := ReduceAll(p, Stamp(es, offset));
            r.Some? && Prepared(p, r.value, offset, |es|)
  {
    hide ReduceAll, Stamp, Invalidations, Indeterminates, Recoveries, DistinctIds, Coherent;
    var a := Invalidations(p) + Indeterminates(p.run.value.segment, tools);
    FirstParts(p, tools, offset);
    if p.run.value.state.Yielding? {
      var p1 := Moved(Cleared(p), offset, |a|);
      AllRecovered(p.queue);
      hide Recovered, RecoverPromoting;
      RecoveriesReduce(p1, |p.queue|, offset + |a|);
      ReduceTwo(p, a, Recoveries(p.queue), offset);
      MovedTwice(Cleared(p), offset, |a|, |Recoveries(p.queue)|);
    } else {
      assert a + [] == a;
    }
  }

  /** The reducer accepts the batch and interrupts the run, unless the run started in the future. */
  lemma BatchReduces(p: Projection, tools: seq<ToolId>, now: Time, offset: nat)
    requires Coherent(p) && DistinctIds(p.queue) && Ready(p, offset) && p.HasActiveRun()
    ensures var es := RecoveryEvents(p, tools, now); var r := ReduceAll(p, Stamp(es, offset));
            && (r.Some? <==> p.run.value.startedAt <= now)
            && (r.Some? ==> Interruption(p, r.value, now, |es|))
  {
    hide ReduceAll, Stamp, Invalidations, Indeterminates, Recoveries;
    var es := Preparation(p, tools);
    var d := RunCompleted(p.run.value.segment, now, InterruptedByRestart, true);
    PreparationReduces(p, tools, offset);
    ReduceTwo(p, es, [d], offset);
    var q := ReduceAll(p, Stamp(es, offset)).value;
    CompletionReduces(q, now, offset + |es|);
  }
}
