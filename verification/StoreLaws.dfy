/** How a store transaction changes the streams, and how stream facts move with an append. */
module StoreLaws {
  import opened Basics
  import opened TaskStream
  import opened StreamLaws

  ghost predicate SameLogs(a: Store, b: Store) {
    forall t :: a.Log(t) == b.Log(t)
  }

  /** `b` is `a` with one batch appended to one stream. */
  ghost predicate Appended(a: Store, b: Store, task: TaskId, events: seq<TaskEvent>) {
    && b.Log(task) == a.Log(task) + Stamp(events, a.lastOffset)
    && forall t :: t != task ==> b.Log(t) == a.Log(t)
  }

  ghost predicate Grows(a: Store, b: Store) {
    forall t :: a.Log(t) <= b.Log(t)
  }

  lemma LogReplays(st: Store, t: TaskId)
    requires st.Valid()
    ensures Replay(st.Log(t)) == Some(st.View(t))
  {
    if t in st.logs { assert ReplaysWithin(st.logs[t], st.lastOffset); }
  }

  lemma AppendResult(st: Store, task: TaskId, events: seq<TaskEvent>)
    requires st.Valid() && Append(st, task, events).Some?
    ensures var r := Append(st, task, events).value; r.Valid() && Appended(st, r, task, events)
  {
    AppendKeepsValid(st, task, events);
  }

  /** The streams change only when a fresh command is accepted; then its decision is appended. */
  lemma TransactLogs(st: Store, c: StoreCommand, refusal: Option<Reason>, decision: Decision)
    requires st.Valid()
    ensures var tx := Transact(st, c, refusal, decision);
            && tx.store.Valid()
            && (if Fresh(st, c) && tx.outcome.Accepted? then
                  && decision.Ok? && AcceptableBatch(c.source, decision.value)
                  && refusal.None? && st.Version(c.task) == c.expected
                  && Appended(st, tx.store, c.task, decision.value)
                else SameLogs(st, tx.store))
  {
    hide AcceptableBatch, Replay, ReplaysWithin;
    TransactKeepsValid(st, c, refusal, decision);
    var tx := Transact(st, c, refusal, decision);
    if Fresh(st, c) && tx.outcome.Accepted? {
      AppendResult(st, c.task, decision.value);
      var next := Append(st, c.task, decision.value).value;
      assert tx.store.logs == next.logs;
    } else {
      assert tx.store.logs == st.logs;
    }
  }

  lemma TransactInboxForm(st: Store, c: StoreCommand, refusal: Option<Reason>, decision: Decision)
    ensures var tx := Transact(st, c, refusal, decision);
            if Fresh(st, c) && !tx.outcome.Aborted? then
              tx.store.inbox == st.inbox[(c.task, c.key) := InboxEntry(c.payload, c.expected, tx.outcome)]
            else if Fresh(st, c) then tx.store == st
            else
              tx.store == st && (tx.outcome.Accepted? ==> st.inbox[(c.task, c.key)] == InboxEntry(c.payload, c.expected, Accepted))
  {
    hide Append, AcceptableBatch, Replay;
  }

  /**
   A fresh command that is accepted or rejected records its outcome under its key;
   one that is aborted changes nothing. A repeated one changes nothing, and is
   told what was recorded if it is the same command, and of a conflict otherwise.
   */
  lemma TransactInbox(st: Store, c: StoreCommand, refusal: Option<Reason>, decision: Decision)
    ensures var tx := Transact(st, c, refusal, decision);
            && (forall k :: k in tx.store.inbox && k != (c.task, c.key) ==> k in st.inbox && tx.store.inbox[k] == st.inbox[k])
            && (!Fresh(st, c) || tx.outcome.Aborted? ==> tx.store == st)
            && (Fresh(st, c) ==> ((c.task, c.key) in tx.store.inbox <==> !tx.outcome.Aborted?))
            && (Fresh(st, c) && (c.task, c.key) in tx.store.inbox ==>
                  tx.store.inbox[(c.task, c.key)] == InboxEntry(c.payload, c.expected, tx.outcome))
    ensures !Fresh(st, c) ==>
      var entry := st.inbox[(c.task, c.key)];
      Transact(st, c, refusal, decision).outcome ==
        if entry.payload == c.payload && entry.expected == c.expected then entry.outcome else Aborted(CommandConflict)
  {
    if !Fresh(st, c) { RepeatedCommand(st, c, refusal, decision); }
    hide Transact;
    TransactInboxForm(st, c, refusal, decision);
  }

  lemma RepeatedCommand(st: Store, c: StoreCommand, refusal: Option<Reason>, decision: Decision)
    requires !Fresh(st, c)
    ensures var entry := st.inbox[(c.task, c.key)]; var tx := Transact(st, c, refusal, decision);
            && tx.store == st
            && tx.outcome == if entry.payload == c.payload && entry.expected == c.expected then entry.outcome else Aborted(CommandConflict)
  {
  }

  lemma AppendedGrows(a: Store, b: Store, task: TaskId, events: seq<TaskEvent>)
    requires Appended(a, b, task, events)
    ensures Grows(a, b)
  {
  }

  lemma TransactGrows(st: Store, c: StoreCommand, refusal: Option<Reason>, decision: Decision)
    requires st.Valid()
    ensures Grows(st, Transact(st, c, refusal, decision).store)
  {
    TransactLogs(st, c, refusal, decision);
  }

  // ----- counting over a batch -----

  lemma {:induction false} CountNone(m: Mark, es: seq<Envelope>)
    requires forall i :: 0 <= i < |es| ==> !Marks(m, es[i].event)
    ensures Count(m, es) == 0
  {
    if |es| > 0 { CountNone(m, es[..|es| - 1]); }
  }

  lemma CountAppend(m: Mark, a: Store, b: Store, task: TaskId, events: seq<TaskEvent>)
    requires Appended(a, b, task, events)
    ensures Count(m, b.Log(task)) == Count(m, a.Log(task)) + Count(m, Stamp(events, a.lastOffset))
  {
    CountConcat(m, a.Log(task), Stamp(events, a.lastOffset));
  }

  lemma CountOne(m: Mark, e: Envelope)
    ensures Count(m, [e]) == if Marks(m, e.event) then 1 else 0
  {
    assert [e][..0] == [];
  }

  lemma CountGrows(m: Mark, a: seq<Envelope>, b: seq<Envelope>)
    requires a <= b
    ensures Count(m, a) <= Count(m, b)
  {
    assert b == a + b[|a|..];
    CountConcat(m, a, b[|a|..]);
  }

  // ----- a pending interaction has one origin -----

  lemma {:induction false} QuestionOrigin(p: Projection, es: seq<Envelope>, r: RequestId)
    requires ReduceAll(p, es).Some?
    requires forall i :: 0 <= i < |es| ==> !Marks(QuestionAsked(r), es[i].event)
    ensures var q := ReduceAll(p, es).value;
            q.question.Some? && q.question.value.requestId == r ==> p.question == q.question
  {
    if |es| > 0 {
      QuestionOrigin(p, es[..|es| - 1], r);
      QuestionUnasked(ReduceAll(p, es[..|es| - 1]).value, es[|es| - 1], r);
    }
  }

  lemma QuestionUnasked(p: Projection, e: Envelope, r: RequestId)
    requires Reduce(p, e).Some? && !Marks(QuestionAsked(r), e.event)
    ensures var q := Reduce(p, e).value;
            q.question.Some? && q.question.value.requestId == r ==> p.question == q.question
  {
  }

  lemma {:induction false} PermissionOrigin(p: Projection, es: seq<Envelope>, r: RequestId)
    requires ReduceAll(p, es).Some?
    requires forall i :: 0 <= i < |es| ==> !Marks(PermissionAsked(r), es[i].event)
    ensures var q := ReduceAll(p, es).value;
            q.permission.Some? && q.permission.value.requestId == r ==> p.permission == q.permission
  {
    if |es| > 0 {
      PermissionOrigin(p, es[..|es| - 1], r);
      PermissionUnasked(ReduceAll(p, es[..|es| - 1]).value, es[|es| - 1], r);
    }
  }

  lemma PermissionUnasked(p: Projection, e: Envelope, r: RequestId)
    requires Reduce(p, e).Some? && !Marks(PermissionAsked(r), e.event)
    ensures var q := Reduce(p, e).value;
            q.permission.Some? && q.permission.value.requestId == r ==> p.permission == q.permission
  {
  }

  /** The view after an append is the view before, reduced over the batch. */
  lemma ViewAppend(a: Store, b: Store, task: TaskId, events: seq<TaskEvent>)
    requires a.Valid() && b.Valid() && Appended(a, b, task, events)
    ensures ReduceAll(a.View(task), Stamp(events, a.lastOffset)) == Some(b.View(task))
  {
    LogReplays(a, task);
    LogReplays(b, task);
    ReduceAllConcat(EMPTY_PROJECTION, a.Log(task), Stamp(events, a.lastOffset));
  }

  /** One acceptable event can be appended, and the view moves by exactly that event. */
  lemma AppendOne(st: Store, task: TaskId, e: TaskEvent)
    requires st.Valid() && Reduce(st.View(task), Envelope(st.lastOffset + 1, e)).Some?
    ensures Append(st, task, [e]).Some?
    ensures var next := Append(st, task, [e]).value;
            && next.Valid() && next.lastOffset == st.lastOffset + 1 && next.Version(task) == st.Version(task) + 1
            && next.View(task) == Reduce(st.View(task), Envelope(st.lastOffset + 1, e)).value
            && Appended(st, next, task, [e])
  {
    var es := Stamp([e], st.lastOffset);
    assert es == [Envelope(st.lastOffset + 1, e)] && es[..0] == [];
    LogReplays(st, task);
    ReduceAllConcat(EMPTY_PROJECTION, st.Log(task), es);
    assert ReduceAll(st.View(task), es) == Reduce(st.View(task), es[0]);
    AppendResult(st, task, [e]);
    ViewAppend(st, Append(st, task, [e]).value, task, [e]);
  }

  /** A fresh command at the current version whose one-event decision reduces is accepted. */
  lemma TransactOne(st: Store, c: StoreCommand, e: TaskEvent)
    requires st.Valid() && Fresh(st, c) && c.expected == st.Version(c.task) && !st.View(c.task).removed
    requires AllowedSource(c.source, e) && !e.MessageConsumed?
    requires Reduce(st.View(c.task), Envelope(st.lastOffset + 1, e)).Some?
    ensures var tx := Transact(st, c, None, Ok([e]));
            && tx.outcome.Accepted? && tx.store.Valid()
            && tx.store.View(c.task) == Reduce(st.View(c.task), Envelope(st.lastOffset + 1, e)).value
            && tx.store.Version(c.task) == st.Version(c.task) + 1 && tx.store.lastOffset == st.lastOffset + 1
            && Appended(st, tx.store, c.task, [e])
            && tx.store.inbox == st.inbox[(c.task, c.key) := InboxEntry(c.payload, c.expected, Accepted)]
  {
    AppendOne(st, c.task, e);
    assert AcceptableBatch(c.source, [e]);
    TransactLogs(st, c, None, Ok([e]));
    var next := Append(st, c.task, [e]).value;
    var tx := Transact(st, c, None, Ok([e]));
    assert tx.store.logs == next.logs;
    assert tx.store.Log(c.task) == next.Log(c.task);
  }

  /** The last offset of every view is bounded by the store's. */
  lemma ViewOffset(st: Store, task: TaskId)
    requires st.Valid()
    ensures st.View(task).lastOffset <= st.lastOffset && st.View(task).version == st.Version(task)
    ensures Coherent(st.View(task))
  {
    LogReplays(st, task);
    if task in st.logs { assert ReplaysWithin(st.logs[task], st.lastOffset); }
    ReplayVersion(EMPTY_PROJECTION, st.Log(task));
    OneForegroundInteraction(st.Log(task));
  }
}
