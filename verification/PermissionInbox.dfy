/** An accepted permission command is backed by its events in the stream, whether it is new or replayed. */
module PermissionInbox {
  import opened Basics
  import opened TaskStream
  import opened StreamLaws
  import opened StoreLaws
  import opened PermissionProtocol

  lemma HoldsGrows(a: seq<Envelope>, b: seq<Envelope>, e: TaskEvent)
    requires a <= b && Holds(a, e)
    ensures Holds(b, e)
  {
    var i :| 0 <= i < |a| && a[i].event == e;
    assert b[i].event == e;
  }

  lemma EntryGrows(a: seq<Envelope>, b: seq<Envelope>, entry: InboxEntry)
    requires a <= b && EntrySound(a, entry)
    ensures EntrySound(b, entry)
  {
    if entry.outcome.Accepted? {
      match entry.payload
      case PermissionRequestPayload(p, saved) =>
        CountGrows(PermissionAsked(p.requestId), a, b);
        if saved.Some? { HoldsGrows(a, b, PermissionResolved(p.requestId, p.revision, saved.value)); }
      case PermissionResolvePayload(r, revision, option) => HoldsGrows(a, b, PermissionResolved(r, revision, option));
      case PermissionInvalidatePayload(r, _, _) => CountGrows(PermissionDropped(r), a, b);
      case _ =>
    }
  }

  lemma InboxGrows(a: Store, b: Store)
    requires InboxSound(a) && Grows(a, b) && b.inbox == a.inbox
    ensures InboxSound(b)
  {
    forall k | k in b.inbox ensures EntrySound(b.Log(k.0), b.inbox[k]) { EntryGrows(a.Log(k.0), b.Log(k.0), a.inbox[k]); }
  }

  /** What an accepted decision must contain for its inbox entry to be sound. */
  predicate DecisionCovers(payload: Payload, events: seq<TaskEvent>) {
    match payload
    case PermissionRequestPayload(p, saved) =>
      && |events| > 0 && Marks(PermissionAsked(p.requestId), events[0])
      && (saved.Some? ==> |events| > 1 && events[1] == PermissionResolved(p.requestId, p.revision, saved.value))
    case PermissionResolvePayload(r, revision, option) => |events| > 0 && events[0] == PermissionResolved(r, revision, option)
    case PermissionInvalidatePayload(r, _, _) => |events| > 0 && Marks(PermissionDropped(r), events[0])
    case _ => true
  }

  lemma AppendedHolds(a: Store, b: Store, task: TaskId, events: seq<TaskEvent>, i: nat)
    requires Appended(a, b, task, events) && i < |events|
    ensures Holds(b.Log(task), events[i])
  {
    assert b.Log(task)[|a.Log(task)| + i].event == events[i];
  }

  lemma HoldsCounted(m: Mark, log: seq<Envelope>, e: TaskEvent)
    requires Holds(log, e) && Marks(m, e)
    ensures Count(m, log) > 0
  {
    var i :| 0 <= i < |log| && log[i].event == e;
    assert Marks(m, log[i].event);
    CountPositive(m, log);
  }

  lemma CoveredEntry(a: Store, b: Store, task: TaskId, payload: Payload, expected: nat, events: seq<TaskEvent>)
    requires Appended(a, b, task, events) && DecisionCovers(payload, events)
    ensures EntrySound(b.Log(task), InboxEntry(payload, expected, Accepted))
  {
    match payload
    case PermissionRequestPayload(p, saved) =>
      AppendedHolds(a, b, task, events, 0);
      HoldsCounted(PermissionAsked(p.requestId), b.Log(task), events[0]);
      if saved.Some? { AppendedHolds(a, b, task, events, 1); }
    case PermissionResolvePayload(r, revision, option) => AppendedHolds(a, b, task, events, 0);
    case PermissionInvalidatePayload(r, _, _) =>
      AppendedHolds(a, b, task, events, 0);
      HoldsCounted(PermissionDropped(r), b.Log(task), events[0]);
    case _ =>
  }

  /** A transaction keeps the store sound, and its acceptance means its entry is backed by events. */
  lemma TransactSound(st: Store, c: StoreCommand, refusal: Option<Reason>, decision: Decision)
    requires st.Valid() && InboxSound(st) && (decision.Ok? && |decision.value| > 0 ==> DecisionCovers(c.payload, decision.value))
    ensures var tx := Transact(st, c, refusal, decision);
            && tx.store.Valid() && InboxSound(tx.store) && Grows(st, tx.store)
            && (tx.outcome.Accepted? ==> EntrySound(tx.store.Log(c.task), InboxEntry(c.payload, c.expected, Accepted)))
  {
    var tx := Transact(st, c, refusal, decision);
    TransactLogs(st, c, refusal, decision);
    TransactInbox(st, c, refusal, decision);
    TransactGrows(st, c, refusal, decision);
    if tx.outcome.Accepted? && Fresh(st, c) { CoveredEntry(st, tx.store, c.task, c.payload, c.expected, decision.value); }
    forall k | k in tx.store.inbox ensures EntrySound(tx.store.Log(k.0), tx.store.inbox[k]) {
      if k != (c.task, c.key) || !Fresh(st, c) { EntryGrows(st.Log(k.0), tx.store.Log(k.0), st.inbox[k]); }
    }
  }

  lemma InvalidateSound(red: Redactor, s: State, task: TaskId, r: RequestId, revision: nat, expected: nat, reason: string)
    requires s.store.Valid() && InboxSound(s.store)
    ensures var tx := InvalidateTx(red, s, task, r, revision, expected, reason);
            tx.store.Valid() && InboxSound(tx.store) && Grows(s.store, tx.store)
            && (tx.outcome.Accepted? ==> Count(PermissionDropped(r), tx.store.Log(task)) > 0)
  {
    TransactSound(s.store,
        StoreCommand(task, PermissionInvalidateKey(r, revision, expected),
            PermissionInvalidatePayload(r, revision, red(reason)), expected, PermissionBroker),
                  None, InvalidateDecision(s.store.View(task), r, revision, Ok([])));
  }

  lemma {:induction false} ResolutionOptionHolds(log: seq<Envelope>, r: RequestId, revision: nat)
    requires ResolutionOption(log, r, revision).Some?
    ensures Holds(log, PermissionResolved(r, revision, ResolutionOption(log, r, revision).value))
  {
    var e := log[|log| - 1].event;
    if !(e.PermissionResolved? && e.requestId == r && e.revision == revision) {
      ResolutionOptionHolds(log[..|log| - 1], r, revision);
      HoldsGrows(log[..|log| - 1], log, PermissionResolved(r, revision, ResolutionOption(log, r, revision).value));
    }
  }
}
