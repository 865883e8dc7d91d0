/**
 The message queue of a task: the decisions of the daemon, the life cycle every
 accepted stream gives a message, and the order in which messages are consumed.
 */
module Queue {
  import opened Basics
  import opened TaskStream
  import opened StreamLaws
  import opened RecoveryBatch

  const MAX_REVISION: nat := 0xFFFF_FFFF_FFFF_FFFF

  // ----- decisions -----

  datatype QueueCommand =
    | Submit(item: QueueItemId, content: string)
    | Edit(expected: nat, content: string)
    | Delete(expected: nat)
    | Promote(expected: nat, mode: PromotionMode)
    | Consume(expected: nat, segment: SegmentId)
    | Recover

  datatype QueueRejection = StaleRevision(latest: QueueItem) | NotAllowed

  function DecideQueue(current: Option<QueueItem>, command: QueueCommand): Result<seq<TaskEvent>, QueueRejection> {
    match command
    case Submit(item, content) => if current.None? then Ok([MessageQueued(item, content)]) else Err(NotAllowed)
    case Edit(expected, content) =>
      if current.None? || current.value.state != Queued then Err(NotAllowed)
      else if current.value.revision != expected then Err(StaleRevision(current.value))
      else if current.value.revision >= MAX_REVISION then Err(NotAllowed)
      else Ok([MessageEdited(current.value.id, current.value.revision + 1, content)])
    case Delete(expected) =>
      if current.None? || current.value.state != Queued then Err(NotAllowed)
      else if current.value.revision != expected then Err(StaleRevision(current.value))
      else Ok([MessageDeleted(current.value.id, current.value.revision)])
    case Promote(expected, _) =>
      if current.None? || current.value.state != Queued then Err(NotAllowed)
      else if current.value.revision != expected then Err(StaleRevision(current.value))
      else Ok([MessagePromoted(current.value.id, current.value.revision)])
    case Consume(expected, segment) =>
      if current.None? || current.value.state != Promoting then Err(NotAllowed)
      else if current.value.revision != expected then Err(StaleRevision(current.value))
      else Ok([MessageConsumed(current.value.id, current.value.revision, segment)])
    case Recover =>
      if current.None? || current.value.state != Promoting then Err(NotAllowed)
      else Ok([MessageRecovered(current.value.id, current.value.revision)])
  }

  /** The queued item created first; ties go to the smaller id. */
  function Oldest(queue: seq<QueueItem>): (r: Option<QueueItem>)
    ensures r.None? <==> forall i :: 0 <= i < |queue| ==> queue[i].state != Queued
    ensures r.Some? ==> r.value in queue && r.value.state == Queued
    ensures r.Some? ==> forall i :: 0 <= i < |queue| && queue[i].state == Queued ==> Before(r.value, queue[i])
  {
    if |queue| == 0 then None
    else
      var best := Oldest(queue[..|queue| - 1]);
      var last := queue[|queue| - 1];
      if last.state != Queued then best
      else if best.None? || !Before(best.value, last) then Some(last)
      else best
  }

  predicate Before(a: QueueItem, b: QueueItem) {
    a.createdOffset < b.createdOffset || (a.createdOffset == b.createdOffset && a.id <= b.id)
  }

  function DecideConsumeNext(p: Projection, segment: SegmentId, at: Time): Result<seq<TaskEvent>, QueueRejection> {
    if p.HasActiveRun() then Err(NotAllowed)
    else match Oldest(p.queue)
      case None => Err(NotAllowed)
      case Some(item) => Ok([RunStarted(segment, at), MessageConsumed(item.id, item.revision, segment)])
  }

  // ----- the life cycle of a message -----

  predicate Retired(item: QueueItem) { item.state == Consumed || item.state == Deleted }

  predicate InQueue(queue: seq<QueueItem>, id: QueueItemId) { exists i :: 0 <= i < |queue| && queue[i].id == id }

  /** The active list holds exactly the unretired rows of the durable table, once each. */
  ghost predicate QueueOk(p: Projection) {
    && DistinctIds(p.queue)
    && (forall i :: 0 <= i < |p.queue| ==> !Retired(p.queue[i]) && p.queue[i].id in p.durable && p.durable[p.queue[i].id] == p.queue[i])
    && (forall id :: id in p.durable ==> p.durable[id].id == id && p.durable[id].createdOffset <= p.lastOffset)
    && (forall id :: id in p.durable && !Retired(p.durable[id]) ==> InQueue(p.queue, id))
  }

  /** A row keeps its identity and its place in the order. */
  predicate SameMessage(a: QueueItem, b: QueueItem) { b.id == a.id && b.createdOffset == a.createdOffset }

  /** Retired rows never change; the others stay the same message. */
  ghost predicate Absorbs(p: Projection, q: Projection) {
    forall id :: id in p.durable ==>
      id in q.durable && SameMessage(p.durable[id], q.durable[id]) && (Retired(p.durable[id]) ==> q.durable[id] == p.durable[id])
  }

  lemma {:induction false} UpsertPromotingAt(durable: map<QueueItemId, QueueItem>, queue: seq<QueueItem>, id: QueueItemId)
    requires DistinctIds(queue)
    ensures var r := UpsertPromoting(durable, queue);
            && (id in r <==> id in durable || exists i :: 0 <= i < |queue| && queue[i].id == id && queue[i].state == Promoting)
            && (forall i :: 0 <= i < |queue| && queue[i].id == id && queue[i].state == Promoting ==> id in r && r[id] == queue[i].(state := Queued))
            && ((forall i :: 0 <= i < |queue| && queue[i].id == id ==> queue[i].state != Promoting) && id in durable ==> id in r && r[id] == durable[id])
    decreases |queue|
  {
    if |queue| > 0 {
      var next := if queue[0].state == Promoting then Upsert(durable, queue[0].(state := Queued)) else durable;
      assert DistinctIds(queue[1..]);
      UpsertPromotingAt(next, queue[1..], id);
      assert forall i :: 0 <= i < |queue| - 1 ==> queue[1..][i] == queue[i + 1];
    }
  }

  function Unpromoted(item: QueueItem): QueueItem { if item.state == Promoting then item.(state := Queued) else item }

  lemma RecoveredRow(p: Projection, id: QueueItemId)
    requires QueueOk(p)
    ensures var durable := UpsertPromoting(p.durable, p.queue);
            (id in durable <==> id in p.durable) && (id in p.durable ==> durable[id] == Unpromoted(p.durable[id]))
  {
    UpsertPromotingAt(p.durable, p.queue, id);
    if id in p.durable && p.durable[id].state == Promoting {
      var i :| 0 <= i < |p.queue| && p.queue[i].id == id;
      assert p.queue[i] == p.durable[id];
    }
  }

  /** The same rows and the same list, with no message promoting. */
  ghost predicate AllUnpromoted(p: Projection, q: Projection) {
    && |q.queue| == |p.queue| && (forall i :: 0 <= i < |p.queue| ==> q.queue[i] == Unpromoted(p.queue[i]))
    && q.durable.Keys == p.durable.Keys && (forall id :: id in p.durable ==> q.durable[id] == Unpromoted(p.durable[id]))
    && q.lastOffset == p.lastOffset
  }

  lemma UnpromotedOk(p: Projection, q: Projection)
    requires QueueOk(p) && AllUnpromoted(p, q)
    ensures QueueOk(q) && Absorbs(p, q)
  {
    forall id | id in q.durable && !Retired(q.durable[id]) ensures InQueue(q.queue, id) {
      assert id in p.durable.Keys;
      var i :| 0 <= i < |p.queue| && p.queue[i].id == id;
      assert q.queue[i].id == id;
    }
    forall i | 0 <= i < |q.queue| ensures !Retired(q.queue[i]) && q.queue[i].id in q.durable && q.durable[q.queue[i].id] == q.queue[i] {
      assert p.queue[i].id in p.durable && p.queue[i].id in q.durable.Keys;
    }
    forall id | id in q.durable ensures id in p.durable { assert id in p.durable.Keys; }
  }

  /** A failing yielding run puts every promoting message back. */
  lemma RecoverPromotingOk(p: Projection)
    requires QueueOk(p)
    ensures var q := p.(queue := RecoverPromoting(p.queue), durable := UpsertPromoting(p.durable, p.queue));
            QueueOk(q) && Absorbs(p, q) && q.durable.Keys == p.durable.Keys
  {
    hide QueueOk, Absorbs, UpsertPromoting;
    var q := p.(queue := RecoverPromoting(p.queue), durable := UpsertPromoting(p.durable, p.queue));
    forall id ensures (id in q.durable <==> id in p.durable)
        && (id in p.durable ==> q.durable[id] == Unpromoted(p.durable[id])) { RecoveredRow(p, id); }
    UnpromotedOk(p, q);
  }

  /** An in-place change of an active item. */
  lemma ReplaceOk(p: Projection, i: nat, next: QueueItem)
    requires QueueOk(p) && i < |p.queue| && SameMessage(p.queue[i], next) && !Retired(next)
    ensures var q := p.(queue := p.queue[i := next], durable := Upsert(p.durable, next)); QueueOk(q) && Absorbs(p, q) && q.durable.Keys == p.durable.Keys
  {
    var q := p.(queue := p.queue[i := next], durable := Upsert(p.durable, next));
    forall id | id in q.durable && !Retired(q.durable[id]) ensures InQueue(q.queue, id) {
      if id == next.id { assert q.queue[i].id == id; } else {
        var k :| 0 <= k < |p.queue| && p.queue[k].id == id;
        assert q.queue[k].id == id;
      }
    }
  }

  /** An active item that is retired leaves the list and stays in the table. */
  lemma RetireOk(p: Projection, i: nat, last: QueueItem)
    requires QueueOk(p) && i < |p.queue| && SameMessage(p.queue[i], last) && Retired(last)
    ensures var q := RetireItem(p, i, last); QueueOk(q) && Absorbs(p, q) && q.durable.Keys == p.durable.Keys
  {
    var q := RetireItem(p, i, last);
    RestIsDistinct(p.queue, i);
    forall k | 0 <= k < |q.queue| ensures !Retired(q.queue[k]) && q.queue[k].id in q.durable && q.durable[q.queue[k].id] == q.queue[k] {
      assert q.queue[k] == p.queue[Skip(k, i)];
    }
    forall id | id in q.durable && !Retired(q.durable[id]) ensures InQueue(q.queue, id) {
      var k :| 0 <= k < |p.queue| && p.queue[k].id == id;
      assert q.queue[if k < i then k else k - 1].id == id;
    }
  }

  /** The place in the old list of what is at `k` once place `i` is gone. */
  function Skip(k: nat, i: nat): nat { if k < i then k else k + 1 }

  lemma RestIsDistinct(queue: seq<QueueItem>, i: nat)
    requires DistinctIds(queue) && i < |queue|
    ensures DistinctIds(Without(queue, i)) && forall k :: 0 <= k < |Without(queue, i)| ==> Without(queue, i)[k].id != queue[i].id
  {
    var rest := Without(queue, i);
    forall k | 0 <= k < |rest| ensures rest[k].id != queue[i].id { assert rest[k] == queue[Skip(k, i)]; }
    forall j, k | 0 <= j < k < |rest| ensures rest[j].id != rest[k].id {
      assert rest[j] == queue[Skip(j, i)] && rest[k] == queue[Skip(k, i)];
    }
  }

  lemma QueueNewOk(p: Projection, id: QueueItemId, item: QueueItem)
    requires QueueOk(p) && id !in p.durable && item.id == id && !Retired(item) && item.createdOffset > p.lastOffset
    ensures var q := p.(queue := p.queue + [item], durable := Upsert(p.durable, item), lastOffset := item.createdOffset); QueueOk(q) && Absorbs(p, q)
  {
    var q := p.(queue := p.queue + [item], durable := Upsert(p.durable, item), lastOffset := item.createdOffset);
    forall k | 0 <= k < |p.queue| ensures p.queue[k].id != id { assert p.queue[k].id in p.durable; }
    forall x | x in q.durable && !Retired(q.durable[x]) ensures InQueue(q.queue, x) {
      if x == id { assert q.queue[|p.queue|].id == id; } else {
        var k :| 0 <= k < |p.queue| && p.queue[k].id == x;
        assert q.queue[k].id == x;
      }
    }
  }

  lemma LaterOk(p: Projection, q: Projection)
    requires QueueOk(p) && q.queue == p.queue && q.durable == p.durable && q.lastOffset >= p.lastOffset
    ensures QueueOk(q) && Absorbs(p, q)
  {
  }

  lemma MessageOk(p: Projection, offset: nat, e: TaskEvent)
    requires QueueOk(p) && ReduceMessage(p, offset, e).Some? && !e.MessageQueued?
    ensures var q := ReduceMessage(p, offset, e).value; QueueOk(q) && Absorbs(p, q) && q.durable.Keys == p.durable.Keys
  {
    var q := ReduceMessage(p, offset, e).value;
    match e
    case MessageEdited(id, revision, content) =>
      var i := ItemIndex(p.queue, id).value;
      ReplaceOk(p, i, p.queue[i].(revision := revision, content := content));
    case MessagePromoted(id, revision) =>
      var i := ItemIndex(p.queue, id).value;
      ReplaceOk(p, i, p.queue[i].(state := Promoting));
    case MessageRecovered(id, revision) =>
      var i := ItemIndex(p.queue, id).value;
      ReplaceOk(p, i, p.queue[i].(state := Queued));
    case MessageDeleted(id, revision) =>
      var i := ItemIndex(p.queue, id).value;
      RetireOk(p, i, p.queue[i].(state := Deleted));
    case MessageConsumed(id, revision, segment) =>
      var i := ItemIndex(p.queue, id).value;
      RetireOk(p, i, p.queue[i].(state := Consumed, consumedBy := Some(segment)));
    case _ =>
  }

  predicate IsMessage(e: TaskEvent) {
    e.MessageQueued? || e.MessageEdited? || e.MessagePromoted? || e.MessageRecovered? || e.MessageDeleted? || e.MessageConsumed?
  }

  lemma NoMessage(p: Projection, offset: nat, e: TaskEvent)
    requires ReduceEvent(p, offset, e).Some? && !IsMessage(e) && !e.TaskActorFailed?
    ensures var q := ReduceEvent(p, offset, e).value; q.queue == p.queue && q.durable == p.durable && q.lastOffset == p.lastOffset
  {
  }

  /** One accepted event keeps the table and the list in step, and retired rows as they are. */
  lemma ReduceKeepsQueue(p: Projection, e: Envelope)
    requires QueueOk(p) && Reduce(p, e).Some? && (e.event.MessageQueued? ==> e.event.item !in p.durable)
    ensures var q := Reduce(p, e).value; QueueOk(q) && Absorbs(p, q)
    ensures Reduce(p, e).value.durable.Keys == p.durable.Keys + (if e.event.MessageQueued? then {e.event.item} else {})
  {
    var q := ReduceEvent(p, e.offset, e.event).value;
    var r := q.(version := p.version + 1, lastOffset := e.offset);
    assert Reduce(p, e).value == r;
    hide Reduce, QueueOk;
    if e.event.MessageQueued? {
      QueueNewOk(p, e.event.item, QueueItem(e.event.item, Queued, 1, e.event.content, e.offset, None));
      LaterOk(r.(version := q.version), r);
    } else if IsMessage(e.event) {
      MessageOk(p, e.offset, e.event);
      LaterOk(q, r);
    } else if e.event.TaskActorFailed? {
      RecoverPromotingOk(p);
      FailedOk(p, e.event.failedSegment, e.event.failedAt);
      LaterOk(q, r);
    } else {
      NoMessage(p, e.offset, e.event);
      LaterOk(p, r);
    }
  }

  lemma FailedOk(p: Projection, segment: Option<SegmentId>, failedAt: Time)
    requires QueueOk(p) && ReduceActorFailed(p, segment, failedAt).Some?
    ensures var q := ReduceActorFailed(p, segment, failedAt).value;
            QueueOk(q) && Absorbs(p, q) && q.durable.Keys == p.durable.Keys && q.lastOffset == p.lastOffset
  {
    RecoverPromotingOk(p);
  }

  // ----- every accepted stream -----

  ghost predicate QueuedIn(log: seq<Envelope>, id: QueueItemId) {
    exists i :: 0 <= i < |log| && log[i].event.MessageQueued? && log[i].event.item == id
  }

  /** Message ids are generated anew for every submission. */
  ghost predicate QueuedOnce(log: seq<Envelope>) {
    forall i, j :: 0 <= i < j < |log| && log[i].event.MessageQueued? && log[j].event.MessageQueued? ==> log[i].event.item != log[j].event.item
  }

  lemma QueuedGrows(log: seq<Envelope>, e: Envelope, id: QueueItemId)
    ensures QueuedIn(log + [e], id) <==> QueuedIn(log, id) || (e.event.MessageQueued? && e.event.item == id)
  {
    if QueuedIn(log, id) {
      var i :| 0 <= i < |log| && log[i].event.MessageQueued? && log[i].event.item == id;
      assert (log + [e])[i] == log[i];
    }
    if e.event.MessageQueued? && e.event.item == id { assert (log + [e])[|log|] == e; }
  }

  lemma NewIsNew(log: seq<Envelope>)
    requires QueuedOnce(log) && |log| > 0 && log[|log| - 1].event.MessageQueued?
    ensures !QueuedIn(log[..|log| - 1], log[|log| - 1].event.item)
  {
    var init := log[..|log| - 1];
    forall i | 0 <= i < |init| ensures !(init[i].event.MessageQueued? && init[i].event.item == log[|log| - 1].event.item) {
      assert init[i] == log[i];
    }
  }

  /** In every accepted stream a message is in exactly one life-cycle state, and its row exists from its submission on. */
  lemma {:induction false} MessagesHaveOneState(log: seq<Envelope>)
    requires Replay(log).Some? && QueuedOnce(log)
    ensures var p := Replay(log).value; QueueOk(p) && forall id :: id in p.durable <==> QueuedIn(log, id)
  {
    if |log| > 0 {
      var init, e := log[..|log| - 1], log[|log| - 1];
      assert log == init + [e];
      MessagesHaveOneState(init);
      var p := Replay(init).value;
      if e.event.MessageQueued? { NewIsNew(log); }
      ReduceKeepsQueue(p, e);
      forall id ensures id in Replay(log).value.durable <==> QueuedIn(log, id) {
        QueuedGrows(init, e, id);
        assert id in Replay(log).value.durable <==> id in Replay(log).value.durable.Keys;
      }
    }
  }

  lemma AbsorbsTrans(p: Projection, q: Projection, r: Projection)
    requires Absorbs(p, q) && Absorbs(q, r)
    ensures Absorbs(p, r)
  {
  }

  /** Consumed and deleted messages stay as they were, whatever is recorded later. */
  lemma {:induction false} RetiredForGood(log: seq<Envelope>, k: nat)
    requires Replay(log).Some? && QueuedOnce(log) && k <= |log|
    ensures Replay(log[..k]).Some? && Absorbs(Replay(log[..k]).value, Replay(log).value)
  {
    if k == |log| {
      assert log[..k] == log;
    } else {
      var init, e := log[..|log| - 1], log[|log| - 1];
      assert init[..k] == log[..k] && log == init + [e];
      RetiredForGood(init, k);
      MessagesHaveOneState(init);
      if e.event.MessageQueued? { NewIsNew(log); }
      ReduceKeepsQueue(Replay(init).value, e);
      AbsorbsTrans(Replay(log[..k]).value, Replay(init).value, Replay(log).value);
    }
  }

  function Consumptions(log: seq<Envelope>, id: QueueItemId): nat {
    if |log| == 0 then 0
    else
      var e := log[|log| - 1].event;
      Consumptions(log[..|log| - 1], id) + (if e.MessageConsumed? && e.item == id then 1 else 0)
  }

  /** A message is consumed at most once, and exactly when its row says so. */
  lemma {:induction false} ConsumedOnce(log: seq<Envelope>, id: QueueItemId)
    requires Replay(log).Some? && QueuedOnce(log)
    ensures var p := Replay(log).value;
            Consumptions(log, id) == if id in p.durable && p.durable[id].state == Consumed then 1 else 0
  {
    if |log| > 0 {
      var init, e := log[..|log| - 1], log[|log| - 1];
      assert log == init + [e];
      ConsumedOnce(init, id);
      MessagesHaveOneState(init);
      MessagesHaveOneState(log);
      RetiredForGood(log, |log| - 1);
      ConsumptionStep(Replay(init).value, e, id);
    }
  }

  /** A row becomes consumed by exactly one kind of event, which needs an active item. */
  lemma ConsumptionStep(p: Projection, e: Envelope, id: QueueItemId)
    requires QueueOk(p) && Reduce(p, e).Some? && QueueOk(Reduce(p, e).value) && Absorbs(p, Reduce(p, e).value)
    ensures var q := Reduce(p, e).value;
            if e.event.MessageConsumed? && e.event.item == id then
              id in p.durable && !Retired(p.durable[id]) && id in q.durable && q.durable[id].state == Consumed
            else id in q.durable && q.durable[id].state == Consumed ==> id in p.durable && p.durable[id].state == Consumed
  {
    hide Absorbs;
    if e.event.TaskActorFailed? {
      RecoveredRow(p, id);
    } else if !IsMessage(e.event) {
      NoMessage(p, e.offset, e.event);
    }
  }

  // ----- the daemon's actions on a queue -----

  datatype Action =
    | Command(item: QueueItemId, command: QueueCommand)
    | SubmitMessage(item: QueueItemId, content: string, segment: SegmentId, at: Time, permit: bool)
    | ConsumeNext(segment: SegmentId, at: Time)
    | ConsumePromoted(reason: TerminalReason, incomplete: bool, next: SegmentId, at: Time)
    | Foreign(event: TaskEvent)

  function CurrentItem(p: Projection, id: QueueItemId): Option<QueueItem> {
    match ItemIndex(p.queue, id)
    case Some(i) => Some(p.queue[i])
    case None => if id in p.durable then Some(p.durable[id]) else None
  }

  predicate AnyPromoting(queue: seq<QueueItem>) { exists i :: 0 <= i < |queue| && queue[i].state == Promoting }

  function FirstPromoting(queue: seq<QueueItem>): (r: Option<QueueItem>)
    ensures r.Some? ==> r.value in queue && r.value.state == Promoting
  {
    if |queue| == 0 then None else if queue[0].state == Promoting then Some(queue[0]) else FirstPromoting(queue[1..])
  }

  /** A client's command on one item. Consuming and recovering are not commands of clients. */
  function DecideCommand(p: Projection, id: QueueItemId, command: QueueCommand): Result<seq<TaskEvent>, QueueRejection> {
    if command.Consume? || command.Recover? || (command.Submit? && command.item != id) then Err(NotAllowed)
    else if command.Submit? && (!p.HasActiveRun() || |p.queue| >= MAX_ACTIVE_QUEUE_ITEMS) then Err(NotAllowed)
    else if command.Promote? && (!p.HasActiveRun() || p.run.value.state.Yielding? || AnyPromoting(p.queue)) then Err(NotAllowed)
    else match DecideQueue(CurrentItem(p, id), command)
      case Err(e) => Err(e)
      case Ok(events) =>
        if command.Promote? then Ok(Invalidations(p) + events + [RunYieldRequested(p.run.value.segment, command.mode.ForceStop?)])
        else Ok(events)
  }

  /** A new message waits while a run is active and starts one otherwise. */
  function DecideSubmit(p: Projection, id: QueueItemId, content: string, segment: SegmentId, at: Time,
                        permit: bool): Result<seq<TaskEvent>, QueueRejection> {
    if p.HasActiveRun() then
      if |p.queue| >= MAX_ACTIVE_QUEUE_ITEMS then Err(NotAllowed) else DecideQueue(None, Submit(id, content))
    else if (p.run.Some? && p.run.value.terminal == Some(InterruptedByRestart)) || !permit then Err(NotAllowed)
    else Ok([RunStarted(segment, at), MessageQueued(id, content), MessageConsumed(id, 1, segment)])
  }

  function Decide(p: Projection, action: Action): Result<seq<TaskEvent>, QueueRejection> {
    match action
    case Command(id, command) => DecideCommand(p, id, command)
    case SubmitMessage(id, content, segment, at, permit) => DecideSubmit(p, id, content, segment, at, permit)
    case ConsumeNext(segment, at) => DecideConsumeNext(p, segment, at)
    case ConsumePromoted(reason, incomplete, next, at) =>
      if p.run.None? || FirstPromoting(p.queue).None? then Err(NotAllowed)
      else
        var item := FirstPromoting(p.queue).value;
        Ok([RunCompleted(p.run.value.segment, at, reason, incomplete), RunStarted(next, at), MessageConsumed(item.id, item.revision, next)])
    case Foreign(event) => if IsMessage(event) && !event.MessageRecovered? then Err(NotAllowed) else Ok([event])
  }

  /** An accepted action extends the stream. */
  function Act(log: seq<Envelope>, base: nat, action: Action): Option<seq<Envelope>> {
    match Replay(log)
    case None => None
    case Some(p) =>
      match Decide(p, action)
      case Err(_) => None
      case Ok(events) => if Replay(log + Stamp(events, base)).Some? then Some(log + Stamp(events, base)) else None
  }

  function RunActions(actions: seq<(nat, Action)>): Option<seq<Envelope>> {
    if |actions| == 0 then Some([])
    else match RunActions(actions[..|actions| - 1])
      case None => None
      case Some(log) => Act(log, actions[|actions| - 1].0, actions[|actions| - 1].1)
  }

  /** Submissions outside the queue commands bring a new id; queue commands check theirs themselves. */
  ghost predicate FreshIds(actions: seq<(nat, Action)>) {
    forall i :: 0 <= i < |actions| && actions[i].1.SubmitMessage? ==>
      RunActions(actions[..i]).Some? ==> !QueuedIn(RunActions(actions[..i]).value, actions[i].1.item)
  }

  /** The only message queued by an action, if any. */
  predicate QueuesAtMost(events: seq<TaskEvent>, id: Option<QueueItemId>) {
    && (forall i :: 0 <= i < |events| && events[i].MessageQueued? ==> id == Some(events[i].item))
    && (forall i, j :: 0 <= i < j < |events| ==> !(events[i].MessageQueued? && events[j].MessageQueued?))
  }

  function NewItem(action: Action): Option<QueueItemId> {
    match action
    case Command(_, Submit(id, _)) => Some(id)
    case SubmitMessage(id, _, _, _, _) => Some(id)
    case _ => None
  }

  lemma DecideQueues(p: Projection, action: Action)
    requires Decide(p, action).Ok?
    ensures QueuesAtMost(Decide(p, action).value, NewItem(action))
  {
  }

  lemma QueuedOnceGrows(log: seq<Envelope>, events: seq<TaskEvent>, base: nat, id: Option<QueueItemId>)
    requires QueuedOnce(log) && QueuesAtMost(events, id) && (id.Some? ==> !QueuedIn(log, id.value))
    ensures QueuedOnce(log + Stamp(events, base))
  {
    var es := Stamp(events, base);
    var all := log + es;
    forall i, j | 0 <= i < j < |all| && all[i].event.MessageQueued?
        && all[j].event.MessageQueued? ensures all[i].event.item != all[j].event.item {
      if j >= |log| { assert es[j - |log|].event == events[j - |log|]; }
    }
  }

  /** In every run of the daemon's actions each message id is queued once, so the life-cycle laws apply. */
  lemma {:induction false} RunsQueueOnce(actions: seq<(nat, Action)>)
    requires RunActions(actions).Some? && FreshIds(actions)
    ensures Replay(RunActions(actions).value).Some? && QueuedOnce(RunActions(actions).value)
  {
    if |actions| > 0 {
      var init := actions[..|actions| - 1];
      assert forall i :: 0 <= i < |init| ==> init[..i] == actions[..i];
      RunsQueueOnce(init);
      var log := RunActions(init).value;
      var (base, action) := actions[|actions| - 1];
      var p := Replay(log).value;
      MessagesHaveOneState(log);
      DecideQueues(p, action);
      QueuedOnceGrows(log, Decide(p, action).value, base, NewItem(action));
    }
  }

  // ----- order of consumption -----

  ghost predicate EverPromoted(log: seq<Envelope>, id: QueueItemId) {
    exists i :: 0 <= i < |log| && log[i].event.MessagePromoted? && log[i].event.item == id
  }

  /** Only messages that were promoted are promoting. */
  lemma {:induction false} PromotingWasPromoted(log: seq<Envelope>, k: nat)
    requires Replay(log).Some? && k < |Replay(log).value.queue| && Replay(log).value.queue[k].state == Promoting
    ensures EverPromoted(log, Replay(log).value.queue[k].id)
  {
    var init, e := log[..|log| - 1], log[|log| - 1];
    var p, q := Replay(init).value, Replay(log).value;
    if e.event.MessagePromoted? && e.event.item == q.queue[k].id {
      assert log[|log| - 1].event.MessagePromoted?;
    } else {
      var j := PromotingBefore(p, e, k);
      PromotingWasPromoted(init, j);
      var i :| 0 <= i < |init| && init[i].event.MessagePromoted? && init[i].event.item == q.queue[k].id;
      assert log[i] == init[i];
    }
  }

  lemma PromotingBefore(p: Projection, e: Envelope, k: nat) returns (j: nat)
    requires Reduce(p, e).Some? && k < |Reduce(p, e).value.queue| && Reduce(p, e).value.queue[k].state == Promoting
    requires !(e.event.MessagePromoted? && e.event.item == Reduce(p, e).value.queue[k].id)
    ensures j < |p.queue| && p.queue[j].state == Promoting && p.queue[j].id == Reduce(p, e).value.queue[k].id
  {
    var q := Reduce(p, e).value;
    if e.event.MessageDeleted? || e.event.MessageConsumed? {
      var i := RetiredFrom(p, e);
      j := if k < i then k else k + 1;
    } else {
      if !IsMessage(e.event) && !e.event.TaskActorFailed? { NoMessage(p, e.offset, e.event); }
      j := k;
    }
  }

  lemma RetiredFrom(p: Projection, e: Envelope) returns (i: nat)
    requires Reduce(p, e).Some? && (e.event.MessageDeleted? || e.event.MessageConsumed?)
    ensures i < |p.queue| && Reduce(p, e).value.queue == p.queue[..i] + p.queue[i + 1..]
  {
    i := ItemIndex(p.queue, e.event.item).value;
  }

  /** Every message submitted before `offset` that was never promoted is already consumed or deleted. */
  ghost predicate NothingOvertaken(log: seq<Envelope>, p: Projection, offset: nat) {
    forall id :: id in p.durable && p.durable[id].createdOffset < offset && !EverPromoted(log, id) ==> Retired(p.durable[id])
  }

  /** An active message that was never promoted stands in the queue as queued. */
  lemma WaitingIsQueued(log: seq<Envelope>, id: QueueItemId) returns (i: nat)
    requires Replay(log).Some? && QueuedOnce(log)
    requires var p := Replay(log).value; id in p.durable && !Retired(p.durable[id]) && !EverPromoted(log, id)
    ensures var p := Replay(log).value; i < |p.queue| && p.queue[i] == p.durable[id] && p.queue[i].state == Queued
  {
    MessagesHaveOneState(log);
    var p := Replay(log).value;
    i :| 0 <= i < |p.queue| && p.queue[i].id == id;
    if p.queue[i].state == Promoting { PromotingWasPromoted(log, i); }
  }

  /** The next message consumed from the queue overtakes nobody. */
  lemma ConsumeNextIsFifo(log: seq<Envelope>, segment: SegmentId, at: Time)
    requires Replay(log).Some? && QueuedOnce(log) && DecideConsumeNext(Replay(log).value, segment, at).Ok?
    ensures NothingOvertaken(log, Replay(log).value, Oldest(Replay(log).value.queue).value.createdOffset)
  {
    var p := Replay(log).value;
    forall id | id in p.durable && p.durable[id].createdOffset < Oldest(p.queue).value.createdOffset && !EverPromoted(log, id)
      ensures Retired(p.durable[id])
    {
      if !Retired(p.durable[id]) { var i := WaitingIsQueued(log, id); }
    }
  }

  /** A message that is consumed now overtakes nobody exactly if every active message was promoted before. */
  lemma OvertakesNobody(log: seq<Envelope>, offset: nat)
    requires Replay(log).Some? && QueuedOnce(log) && offset > Replay(log).value.lastOffset
    ensures NothingOvertaken(log, Replay(log).value, offset) <==> AllWerePromoted(log)
  {
    var p := Replay(log).value;
    MessagesHaveOneState(log);
    if AllWerePromoted(log) {
      forall id | id in p.durable && !EverPromoted(log, id) ensures Retired(p.durable[id]) {
        if !Retired(p.durable[id]) { var i := WaitingIsQueued(log, id); }
      }
    } else {
      var i :| 0 <= i < |p.queue| && !EverPromoted(log, p.queue[i].id);
      assert p.durable[p.queue[i].id] == p.queue[i];
    }
  }

  ghost predicate AllWerePromoted(log: seq<Envelope>)
    requires Replay(log).Some?
  {
    forall i :: 0 <= i < |Replay(log).value.queue| ==> EverPromoted(log, Replay(log).value.queue[i].id)
  }

  /** Which message an action consumes. */
  function Consumes(p: Projection, action: Action): Option<QueueItemId>
    requires Decide(p, action).Ok?
  {
    match action
    case SubmitMessage(id, _, _, _, _) => if p.HasActiveRun() then None else Some(id)
    case ConsumeNext(_, _) => Some(Oldest(p.queue).value.id)
    case ConsumePromoted(_, _, _, _) => Some(FirstPromoting(p.queue).value.id)
    case _ => None
  }

  /** That is what its events say. */
  lemma ConsumesExactly(p: Projection, action: Action)
    requires Decide(p, action).Ok?
    ensures forall i :: 0 <= i < |Decide(p, action).value| && Decide(p, action).value[i].MessageConsumed? ==>
      Consumes(p, action) == Some(Decide(p, action).value[i].item)
    ensures Consumes(p, action).Some? ==> exists i :: 0 <= i < |Decide(p, action).value| && Decide(p, action).value[i].MessageConsumed?
  {
    if Consumes(p, action).Some? {
      var es := Decide(p, action).value;
      assert es[|es| - 1].MessageConsumed?;
    }
  }

  /** What the reducer makes of a submission to an idle task: the new message is consumed, every other row is untouched. */
  lemma IdleSubmitReduces(p: Projection, base: nat, item: QueueItemId, content: string, segment: SegmentId, at: Time)
    requires QueueOk(p) && p.version > 0 && p.lastOffset <= base && !p.HasActiveRun() && p.permission.None? && p.question.None?
    requires |p.queue| < MAX_ACTIVE_QUEUE_ITEMS && item !in p.durable
    ensures var q := ReduceAll(p, Stamp([RunStarted(segment, at)] + [MessageQueued(item, content)] + [MessageConsumed(item, 1, segment)], base));
            && q.Some? && q.value.queue == p.queue && Runs(q.value, segment, at) && q.value.lastOffset == base + 3
            && q.value.durable == p.durable[item := QueueItem(item, Consumed, 1, content, base + 2, Some(segment))]
  {
    forall i | 0 <= i < |p.queue| ensures p.queue[i].id != item { assert p.queue[i].id in p.durable; }
    IdleStarts(p, base + 1, segment, at);
    hide *;
    var a := Reduce(p, Envelope(base + 1, RunStarted(segment, at))).value;
    var newcomer := QueueItem(item, Queued, 1, content, base + 2, None);
    QueuesFresh(a, base + 2, item, content);
    var b := Reduce(a, Envelope(base + 2, MessageQueued(item, content))).value;
    RunsOn(a, b, segment, at);
    IsRunning(b, segment, at);
    ConsumesLast(b, p.queue, newcomer, base + 3, segment);
    ThreeEvents(p, base, RunStarted(segment, at), MessageQueued(item, content), MessageConsumed(item, 1, segment), a, b);
    RunsOn(b, ReduceAll(p,
        Stamp([RunStarted(segment, at)] + [MessageQueued(item, content)] + [MessageConsumed(item, 1, segment)], base)).value, segment, at);
    assert p.durable[item := newcomer][item := newcomer.(state := Consumed, consumedBy := Some(segment))]
        == p.durable[item := newcomer.(state := Consumed, consumedBy := Some(segment))];
  }

  /** The segment is running and nothing is pending. */
  predicate Runs(p: Projection, segment: SegmentId, at: Time) {
    p.RunningSegment(segment) && p.run.value.startedAt == at && p.permission.None? && p.question.None?
  }

  lemma IsRunning(p: Projection, segment: SegmentId, at: Time)
    requires Runs(p, segment, at)
    ensures p.RunningSegment(segment)
  {
  }

  lemma RunsOn(b: Projection, q: Projection, segment: SegmentId, at: Time)
    requires Runs(b, segment, at) && q.run == b.run && q.permission == b.permission && q.question == b.question
    ensures Runs(q, segment, at)
  {
  }

  lemma IdleStarts(p: Projection, offset: nat, segment: SegmentId, at: Time)
    requires p.version > 0 && p.lastOffset < offset && !p.HasActiveRun() && p.permission.None? && p.question.None?
    ensures var a := Reduce(p, Envelope(offset, RunStarted(segment, at)));
            && a.Some? && a.value.queue == p.queue && a.value.durable == p.durable && a.value.version > 0
            && a.value.lastOffset == offset && Runs(a.value, segment, at)
  {
  }

  lemma ThreeEvents(p: Projection, base: nat, x: TaskEvent, y: TaskEvent, z: TaskEvent, a: Projection, b: Projection)
    requires Reduce(p, Envelope(base + 1, x)) == Some(a) && Reduce(a, Envelope(base + 2, y)) == Some(b)
    ensures ReduceAll(p, Stamp([x] + [y] + [z], base)) == Reduce(b, Envelope(base + 3, z))
  {
    hide Reduce;
    ReduceOne(p, x, base);
    ReduceTwo(p, [x], [y], base);
    ReduceOne(a, y, base + 1);
    ReduceTwo(p, [x] + [y], [z], base);
    ReduceOne(b, z, base + 2);
  }

  lemma QueuesFresh(a: Projection, offset: nat, item: QueueItemId, content: string)
    requires a.version > 0 && a.lastOffset < offset && |a.queue| < MAX_ACTIVE_QUEUE_ITEMS
    requires forall i :: 0 <= i < |a.queue| ==> a.queue[i].id != item
    ensures Reduce(a, Envelope(offset, MessageQueued(item, content))) ==
            Some(a.(version := a.version + 1, lastOffset := offset, queue := a.queue + [QueueItem(item, Queued, 1, content, offset, None)],
                    durable := a.durable[item := QueueItem(item, Queued, 1, content, offset, None)]))
  {
  }

  lemma ConsumesLast(b: Projection, queue: seq<QueueItem>, newcomer: QueueItem, offset: nat, segment: SegmentId)
    requires b.version > 0 && b.lastOffset < offset && b.RunningSegment(segment) && b.queue == queue + [newcomer]
    requires newcomer.state == Queued
    requires forall i :: 0 <= i < |queue| ==> queue[i].id != newcomer.id
    ensures var q := Reduce(b, Envelope(offset, MessageConsumed(newcomer.id, newcomer.revision, segment)));
            && q.Some? && q.value.queue == queue && q.value.lastOffset == offset
            && q.value.run == b.run && q.value.permission == b.permission && q.value.question == b.question
            && q.value.durable == b.durable[newcomer.id := newcomer.(state := Consumed, consumedBy := Some(segment))]
  {
    assert b.queue[|queue|] == newcomer;
    assert ItemIndex(b.queue, newcomer.id) == Some(|queue|);
    assert Without(b.queue, |queue|) == queue;
  }

  /**
   A message submitted to an idle task starts a run and is consumed at once. It
   overtakes nobody if and only if every waiting message was promoted before.
   */
  lemma IdleSubmitOvertakesExactly(log: seq<Envelope>, base: nat, item: QueueItemId, content: string, segment: SegmentId, at: Time)
    requires Replay(log).Some? && QueuedOnce(log) && |log| > 0 && Replay(log).value.lastOffset <= base
    requires var p := Replay(log).value;
             && !p.HasActiveRun() && p.permission.None? && p.question.None?
             && |p.queue| < MAX_ACTIVE_QUEUE_ITEMS && item !in p.durable
    requires DecideSubmit(Replay(log).value, item, content, segment, at, true).Ok?
    ensures var after := Act(log, base, SubmitMessage(item, content, segment, at, true)); var p := Replay(log).value;
            && after.Some? && Replay(after.value).Some?
            && var q := Replay(after.value).value;
               && q.queue == p.queue && Runs(q, segment, at) && q.lastOffset == base + 3
               && q.durable == p.durable[item := QueueItem(item, Consumed, 1, content, base + 2, Some(segment))]
    ensures NothingOvertaken(log, Replay(log).value, base + 2) <==> AllWerePromoted(log)
  {
    hide *;
    var p := Replay(log).value;
    MessagesHaveOneState(log);
    OvertakesNobody(log, base + 2);
    var es := [RunStarted(segment, at)] + [MessageQueued(item, content)] + [MessageConsumed(item, 1, segment)];
    PositiveVersion(log);
    IdleDecision(p, item, content, segment, at);
    IdleSubmitReduces(p, base, item, content, segment, at);
    ReplayConcat(log, Stamp(es, base));
    ActForm(log, base, SubmitMessage(item, content, segment, at, true), es);
  }

  lemma PositiveVersion(log: seq<Envelope>)
    requires Replay(log).Some? && |log| > 0
    ensures Replay(log).value.version > 0
  {
    ReplayVersion(EMPTY_PROJECTION, log);
  }

  lemma IdleDecision(p: Projection, item: QueueItemId, content: string, segment: SegmentId, at: Time)
    requires !p.HasActiveRun() && DecideSubmit(p, item, content, segment, at, true).Ok?
    ensures Decide(p, SubmitMessage(item, content, segment, at, true)) ==
            Ok([RunStarted(segment, at)] + [MessageQueued(item, content)] + [MessageConsumed(item, 1, segment)])
  {
    assert [RunStarted(segment, at)] + [MessageQueued(item, content)] + [MessageConsumed(item, 1, segment)]
        == [RunStarted(segment, at), MessageQueued(item, content), MessageConsumed(item, 1, segment)];
  }

  lemma ReplayConcat(a: seq<Envelope>, b: seq<Envelope>)
    requires Replay(a).Some?
    ensures Replay(a + b) == ReduceAll(Replay(a).value, b)
  {
    ReduceAllConcat(EMPTY_PROJECTION, a, b);
  }

  lemma ActForm(log: seq<Envelope>, base: nat, action: Action, es: seq<TaskEvent>)
    requires Replay(log).Some? && Decide(Replay(log).value, action) == Ok(es) && Replay(log + Stamp(es, base)).Some?
    ensures Act(log, base, action) == Some(log + Stamp(es, base))
  {
  }

  lemma OldestInTable(p: Projection)
    requires QueueOk(p) && Oldest(p.queue).Some?
    ensures var item := Oldest(p.queue).value; item.id in p.durable && p.durable[item.id] == item
  {
    var i :| 0 <= i < |p.queue| && p.queue[i] == Oldest(p.queue).value;
  }

  /**
   First in, first out: in every run, when a message that was never promoted is
   consumed, every earlier message that was never promoted is already consumed or
   deleted, if and only if the message came from the queue or, being submitted to
   an idle task, found only messages that had been promoted.
   */
  lemma NeverPromotedAreFifo(actions: seq<(nat, Action)>, action: Action, b: QueueItemId)
    requires RunActions(actions).Some? && FreshIds(actions)
    requires var p := Replay(RunActions(actions).value); p.Some? && Decide(p.value, action).Ok? && Consumes(p.value, action) == Some(b)
    requires !EverPromoted(RunActions(actions).value, b)
    requires action.SubmitMessage? ==> !QueuedIn(RunActions(actions).value, b)
    ensures var log := RunActions(actions).value; var p := Replay(log).value;
            NothingOvertaken(log, p, if b in p.durable then p.durable[b].createdOffset else p.lastOffset + 1)
            <==> (action.SubmitMessage? ==> AllWerePromoted(log))
  {
    RunsQueueOnce(actions);
    var log := RunActions(actions).value;
    var p := Replay(log).value;
    MessagesHaveOneState(log);
    match action
    case ConsumeNext(segment, at) =>
      OldestInTable(p);
      hide QueueOk, NothingOvertaken, QueuedOnce, Oldest;
      ConsumeNextIsFifo(log, segment, at);
    case SubmitMessage(_, _, _, _, _) =>
      hide QueueOk, NothingOvertaken, QueuedOnce, AllWerePromoted;
      OvertakesNobody(log, p.lastOffset + 1);
    case ConsumePromoted(_, _, _, _) =>
      var k :| 0 <= k < |p.queue| && p.queue[k] == FirstPromoting(p.queue).value;
      PromotingWasPromoted(log, k);
    case _ =>
  }

  // ----- decisions and the reducer agree -----

  /** The state a message must be in for a command on it. */
  function RequiredState(command: QueueCommand): QueueItemState {
    if command.Consume? || command.Recover? then Promoting else Queued
  }

  /**
   A command on an existing message is accepted if and only if the message is in
   the required state and the command names its current revision; one that names
   another revision is told the current row.
   */
  lemma QueueDecisionIsExact(p: Projection, id: QueueItemId, command: QueueCommand)
    requires QueueOk(p) && !command.Submit?
    ensures var d := DecideQueue(CurrentItem(p, id), command);
            var waits := id in p.durable && p.durable[id].state == RequiredState(command);
            && (d.Ok? <==> waits && (command.Recover? || p.durable[id].revision == command.expected)
                           && (command.Edit? ==> p.durable[id].revision < MAX_REVISION))
            && (d.Err? && d.error.StaleRevision? <==> waits && !command.Recover? && p.durable[id].revision != command.expected)
            && (d.Err? && d.error.StaleRevision? ==> d.error.latest == p.durable[id])
            && (d.Ok? ==> |d.value| == 1 && Names(d.value[0], p.durable[id]))
  {
    var i := ItemIndex(p.queue, id);
    if i.Some? { assert p.queue[i.value].id in p.durable; }
    if id in p.durable && i.None? { assert p.durable[id].id == id; }
  }

  /** The event is about this row, at its current revision. */
  predicate Names(e: TaskEvent, row: QueueItem) {
    match e
    case MessageEdited(id, revision, _) => id == row.id && row.state == Queued && revision == row.revision + 1
    case MessageDeleted(id, revision) => id == row.id && row.state == Queued && revision == row.revision
    case MessagePromoted(id, revision) => id == row.id && row.state == Queued && revision == row.revision
    case MessageRecovered(id, revision) => id == row.id && row.state == Promoting && revision == row.revision
    case MessageConsumed(id, revision, _) => id == row.id && (row.state == Queued || row.state == Promoting) && revision == row.revision
    case _ => false
  }

  predicate IsOnMessage(e: TaskEvent) {
    e.MessageEdited? || e.MessageDeleted? || e.MessagePromoted? || e.MessageRecovered? || e.MessageConsumed?
  }

  lemma ReducedNamesRow(p: Projection, e: Envelope)
    requires QueueOk(p) && Reduce(p, e).Some? && IsOnMessage(e.event)
    ensures e.event.item in p.durable && Names(e.event, p.durable[e.event.item])
  {
    var i := ItemIndex(p.queue, e.event.item).value;
    assert p.durable[p.queue[i].id] == p.queue[i];
  }

  /**
   In every accepted stream, each edit, delete, promotion, recovery and
   consumption named the revision its message had at that moment, and the message
   was neither consumed nor deleted.
   */
  lemma AcceptedEventsAreCurrent(log: seq<Envelope>, i: nat)
    requires Replay(log).Some? && QueuedOnce(log) && i < |log| && IsOnMessage(log[i].event)
    ensures Replay(log[..i]).Some?
    ensures var p := Replay(log[..i]).value; var id := log[i].event.item;
            id in p.durable && !Retired(p.durable[id]) && Names(log[i].event, p.durable[id])
  {
    PrefixReplays(log, i);
    PrefixReplays(log, i + 1);
    assert log[..i + 1][..i] == log[..i];
    forall j, k | 0 <= j < k < i && log[..i][j].event.MessageQueued? && log[..i][k].event.MessageQueued?
      ensures log[..i][j].event.item != log[..i][k].event.item { assert log[..i][j] == log[j] && log[..i][k] == log[k]; }
    MessagesHaveOneState(log[..i]);
    ReducedNamesRow(Replay(log[..i]).value, log[i]);
  }

  lemma {:induction false} PrefixReplays(log: seq<Envelope>, i: nat)
    requires Replay(log).Some? && i <= |log|
    ensures Replay(log[..i]).Some?
  {
    if i == |log| {
      assert log[..i] == log;
    } else {
      assert log[..|log| - 1][..i] == log[..i];
      PrefixReplays(log[..|log| - 1], i);
    }
  }

  function Edits(log: seq<Envelope>, id: QueueItemId): nat {
    if |log| == 0 then 0
    else Edits(log[..|log| - 1], id) + (if log[|log| - 1].event.MessageEdited? && log[|log| - 1].event.item == id then 1 else 0)
  }

  lemma RevisionStep(p: Projection, e: Envelope, id: QueueItemId)
    requires QueueOk(p) && Reduce(p, e).Some? && id in p.durable && !(e.event.MessageQueued? && e.event.item == id)
    ensures var q := Reduce(p, e).value;
            id in q.durable && q.durable[id].revision == p.durable[id].revision + (if e.event.MessageEdited?
                && e.event.item == id then 1 else 0)
  {
    if e.event.TaskActorFailed? {
      RecoveredRow(p, id);
    } else if !IsMessage(e.event) {
      NoMessage(p, e.offset, e.event);
    } else if IsOnMessage(e.event) {
      ReducedNamesRow(p, e);
    }
  }

  /** Hence a message's revision counts its edits. */
  lemma {:induction false} RevisionCountsEdits(log: seq<Envelope>, id: QueueItemId)
    requires Replay(log).Some? && QueuedOnce(log)
    ensures var p := Replay(log).value; if id in p.durable then p.durable[id].revision == 1 + Edits(log, id) else Edits(log, id) == 0
  {
    if |log| > 0 {
      var init, e := log[..|log| - 1], log[|log| - 1];
      assert log == init + [e];
      RevisionCountsEdits(init, id);
      MessagesHaveOneState(init);
      var p := Replay(init).value;
      if e.event.MessageQueued? { NewIsNew(log); }
      if id in p.durable {
        RevisionStep(p, e, id);
      } else {
        MessagesHaveOneState(log);
        if IsOnMessage(e.event) { ReducedNamesRow(p, e); }
        QueuedGrows(init, e, id);
        if e.event.MessageQueued? && e.event.item == id { FreshRow(p, e); }
      }
    }
  }

  lemma FreshRow(p: Projection, e: Envelope)
    requires Reduce(p, e).Some? && e.event.MessageQueued?
    ensures e.event.item in Reduce(p, e).value.durable && Reduce(p, e).value.durable[e.event.item].revision == 1
  {
  }

  /** What a client's command on one item names is what the reducer checks: an accepted decision always reduces. */
  lemma CommandReduces(p: Projection, offset: nat, id: QueueItemId, command: QueueCommand)
    requires QueueOk(p) && p.version > 0 && p.lastOffset <= offset && !command.Promote? && DecideCommand(p, id, command).Ok?
    ensures ReduceAll(p, Stamp(DecideCommand(p, id, command).value, offset)).Some?
  {
    CommandIsOneEvent(p, id, command);
    CommandEventReduces(p, offset, id, command);
    hide *;
    var e := DecideCommand(p, id, command).value[0];
    ReduceOne(p, e, offset);
    assert DecideCommand(p, id, command).value == [e];
  }

  lemma CommandIsOneEvent(p: Projection, id: QueueItemId, command: QueueCommand)
    requires !command.Promote? && DecideCommand(p, id, command).Ok?
    ensures |DecideCommand(p, id, command).value| == 1
  {
  }

  lemma CommandEventReduces(p: Projection, offset: nat, id: QueueItemId, command: QueueCommand)
    requires QueueOk(p) && p.version > 0 && p.lastOffset <= offset && !command.Promote? && DecideCommand(p, id, command).Ok?
    requires |DecideCommand(p, id, command).value| == 1
    ensures Reduce(p, Envelope(offset + 1, DecideCommand(p, id, command).value[0])).Some?
  {
    var i := ItemIndex(p.queue, id);
    if i.Some? { assert p.queue[i.value].id in p.durable; }
    hide UpsertPromoting, RecoverPromoting;
  }

  /** A promotion invalidates what is pending, promotes the message and asks the run to yield. */
  lemma PromotionReduces(p: Projection, offset: nat, id: QueueItemId, command: QueueCommand)
    requires QueueOk(p) && Coherent(p) && p.version > 0 && p.lastOffset <= offset && command.Promote? && DecideCommand(p, id, command).Ok?
    ensures ReduceAll(p, Stamp(DecideCommand(p, id, command).value, offset)).Some?
  {
    hide ReduceAll, Stamp, Reduce, Invalidations, QueueOk;
    var a := Invalidations(p);
    var item := CurrentItem(p, id).value;
    var promoted := MessagePromoted(item.id, item.revision);
    var segment := p.run.value.segment;
    var yielded := RunYieldRequested(segment, command.mode.ForceStop?);
    InvalidationsReduce(p, offset);
    var p1 := Moved(Cleared(p), offset, |a|);
    LaterOk(p, p1);
    ReduceTwo(p, a, [promoted], offset);
    ReduceOne(p1, promoted, offset + |a|);
    PromotedReduces(p1, offset + |a|, id, item);
    var p2 := Reduce(p1, Envelope(offset + |a| + 1, promoted)).value;
    YieldReduces(p2, offset + |a| + 1, segment, command.mode.ForceStop?);
    ReduceTwo(p, a + [promoted], [yielded], offset);
    ReduceOne(p2, yielded, offset + |a| + 1);
  }

  lemma YieldReduces(p: Projection, offset: nat, segment: SegmentId, force: bool)
    requires p.version > 0 && p.lastOffset <= offset && p.RunningSegment(segment)
    ensures Reduce(p, Envelope(offset + 1, RunYieldRequested(segment, force))).Some?
  {
  }

  lemma PromotedReduces(p: Projection, offset: nat, id: QueueItemId, item: QueueItem)
    requires QueueOk(p) && p.version > 0 && p.lastOffset <= offset && CurrentItem(p, id) == Some(item) && item.state == Queued
    ensures var q := Reduce(p, Envelope(offset + 1, MessagePromoted(item.id, item.revision)));
            q.Some? && q.value.run == p.run && q.value.version > 0 && q.value.lastOffset == offset + 1
  {
  }

  /** Consuming the next message reduces whenever nothing is pending, which an idle task with a past run guarantees. */
  lemma ConsumeNextReduces(p: Projection, offset: nat, segment: SegmentId, at: Time)
    requires QueueOk(p) && Coherent(p) && p.version > 0 && p.lastOffset <= offset && DecideConsumeNext(p, segment, at).Ok?
    ensures ReduceAll(p, Stamp(DecideConsumeNext(p, segment, at).value, offset)).Some? <==> p.permission.None?
    ensures p.run.Some? ==> p.permission.None?
  {
    hide ReduceAll, Stamp, Reduce, QueueOk, Oldest;
    var item := Oldest(p.queue).value;
    var started, consumed := RunStarted(segment, at), MessageConsumed(item.id, item.revision, segment);
    assert DecideConsumeNext(p, segment, at).value == [started] + [consumed];
    ReduceOne(p, started, offset);
    StartReduces(p, offset, segment, at);
    StampConcat([started], [consumed], offset);
    ReduceAllConcat(p, Stamp([started], offset), Stamp([consumed], offset + 1));
    if p.permission.None? {
      var p1 := Reduce(p, Envelope(offset + 1, started)).value;
      ReduceOne(p1, consumed, offset + 1);
      LaterOk(p, p1);
      ConsumptionReduces(p1, offset + 1, item, segment);
    }
  }

  lemma StartReduces(p: Projection, offset: nat, segment: SegmentId, at: Time)
    requires Coherent(p) && p.version > 0 && p.lastOffset <= offset && !p.HasActiveRun()
    ensures var q := Reduce(p, Envelope(offset + 1, RunStarted(segment, at)));
            && (q.Some? <==> p.permission.None?)
            && (q.Some? ==> q.value.RunningSegment(segment) && q.value.queue == p.queue && q.value.durable == p.durable
                            && q.value.version > 0 && q.value.lastOffset == offset + 1)
  {
  }

  lemma ConsumptionReduces(p: Projection, offset: nat, item: QueueItem, segment: SegmentId)
    requires QueueOk(p) && p.version > 0 && p.lastOffset <= offset && p.RunningSegment(segment) && item in p.queue && item.state == Queued
    ensures Reduce(p, Envelope(offset + 1, MessageConsumed(item.id, item.revision, segment))).Some?
  {
    var i :| 0 <= i < |p.queue| && p.queue[i] == item;
    FindItem(p.queue, i);
  }
}
