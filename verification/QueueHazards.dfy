/** A short run of queue actions in which a message submitted to an idle task overtakes a waiting one. */
module QueueHazards {
  import opened Basics
  import opened TaskStream
  import opened StreamLaws
  import opened RecoveryBatch
  import opened Queue

  const FINISH := RunCompleted(1, 0, TerminalReason.Completed, false)

  const ACTIONS: seq<(nat, Action)> :=
    [(0, Foreign(TaskCreated))] + [(1, SubmitMessage(1, "a", 1, 0, true))] + [(4, SubmitMessage(2, "b", 2, 0, true))]
    + [(5, Foreign(FINISH))] + [(6, SubmitMessage(3, "c", 3, 0, true))]

  lemma RunSnoc(actions: seq<(nat, Action)>, log: seq<Envelope>, base: nat, action: Action)
    requires RunActions(actions) == Some(log)
    ensures RunActions(actions + [(base, action)]) == Act(log, base, action)
  {
    assert (actions + [(base, action)])[..|actions + [(base, action)]| - 1] == actions;
  }

  /** One event that the reducer takes. */
  lemma ActOne(log: seq<Envelope>, base: nat, action: Action, e: TaskEvent)
    requires Replay(log).Some? && Decide(Replay(log).value, action) == Ok([e]) && Reduce(Replay(log).value, Envelope(base + 1, e)).Some?
    ensures Act(log, base, action) == Some(log + [Envelope(base + 1, e)])
    ensures Replay(log + [Envelope(base + 1, e)]) == Reduce(Replay(log).value, Envelope(base + 1, e))
  {
    hide Reduce, Decide;
    assert Stamp([e], base) == [Envelope(base + 1, e)];
    ReplayConcat(log, Stamp([e], base));
    ReduceOne(Replay(log).value, e, base);
  }

  lemma Creates() returns (log: seq<Envelope>)
    ensures RunActions([(0, Foreign(TaskCreated))]) == Some(log) && log == [Envelope(1, TaskCreated)]
    ensures Replay(log) == Some(EMPTY_PROJECTION.(version := 1, lastOffset := 1))
  {
    ActOne([], 0, Foreign(TaskCreated), TaskCreated);
    log := [Envelope(1, TaskCreated)];
    assert [] + [Envelope(1, TaskCreated)] == log;
    RunSnoc([], [], 0, Foreign(TaskCreated));
    assert [] + [(0, Foreign(TaskCreated))] == [(0, Foreign(TaskCreated))];
  }

  const ROW1 := QueueItem(1, Consumed, 1, "a", 3, Some(1))
  const ROW2 := QueueItem(2, Queued, 1, "b", 5, None)
  const ROW3 := QueueItem(3, Consumed, 1, "c", 8, Some(3))

  /** The first message starts the first run. */
  lemma Submits() returns (log: seq<Envelope>)
    ensures RunActions([(0, Foreign(TaskCreated))] + [(1, SubmitMessage(1, "a", 1, 0, true))]) == Some(log) && Replay(log).Some?
    ensures var p := Replay(log).value; p.queue == [] && p.durable == map[1 := ROW1] && Runs(p, 1, 0) && p.lastOffset == 4 && p.version > 0
  {
    var first := Creates();
    assert QueuedOnce(first);
    hide *;
    IdleSubmitOvertakesExactly(first, 1, 1, "a", 1, 0) by { StartsIdle(first); }
    RunSnoc([(0, Foreign(TaskCreated))], first, 1, SubmitMessage(1, "a", 1, 0, true));
    log := Act(first, 1, SubmitMessage(1, "a", 1, 0, true)).value;
    Longer(first, 1, SubmitMessage(1, "a", 1, 0, true));
  }

  lemma StartsIdle(log: seq<Envelope>)
    requires Replay(log) == Some(EMPTY_PROJECTION.(version := 1, lastOffset := 1))
    ensures var p := Replay(log).value; !p.HasActiveRun() && DecideSubmit(p, 1, "a", 1, 0, true).Ok?
  {
  }

  lemma Longer(log: seq<Envelope>, base: nat, action: Action)
    requires Act(log, base, action).Some? && |log| > 0
    ensures log <= Act(log, base, action).value && Replay(Act(log, base, action).value).value.version > 0
  {
    PositiveVersion(Act(log, base, action).value);
  }

  const TWO: seq<(nat, Action)> := [(0, Foreign(TaskCreated))] + [(1, SubmitMessage(1, "a", 1, 0, true))]

  /** The second message waits behind the run. */
  lemma Waits(log: seq<Envelope>) returns (next: seq<Envelope>)
    requires Replay(log).Some?
    requires var p := Replay(log).value; p.queue == [] && p.durable == map[1 := ROW1] && Runs(p, 1, 0) && p.lastOffset == 4 && p.version > 0
    ensures Act(log, 4, SubmitMessage(2, "b", 2, 0, true)) == Some(next)
        && next == log + [Envelope(5, MessageQueued(2, "b"))] && Replay(next).Some?
    ensures var p := Replay(next).value;
            p.queue == [ROW2] && p.durable == map[1 := ROW1, 2 := ROW2] && Runs(p, 1, 0) && p.lastOffset == 5 && p.version > 0
  {
    var p := Replay(log).value;
    QueuesFresh(p, 5, 2, "b");
    assert [] + [ROW2] == [ROW2] && map[1 := ROW1][2 := ROW2] == map[1 := ROW1, 2 := ROW2];
    assert Decide(p, SubmitMessage(2, "b", 2, 0, true)) == Ok([MessageQueued(2, "b")]);
    hide Reduce, Decide, Replay, Act;
    ActOne(log, 4, SubmitMessage(2, "b", 2, 0, true), MessageQueued(2, "b"));
    next := log + [Envelope(5, MessageQueued(2, "b"))];
  }

  /** The first run ends; the second message is still waiting. */
  lemma Finishes(log: seq<Envelope>) returns (next: seq<Envelope>)
    requires Replay(log).Some?
    requires var p := Replay(log).value;
             p.queue == [ROW2] && p.durable == map[1 := ROW1, 2 := ROW2] && Runs(p, 1, 0) && p.lastOffset == 5 && p.version > 0
    ensures Act(log, 5, Foreign(FINISH)) == Some(next) && next == log + [Envelope(6, FINISH)] && Replay(next).Some?
    ensures var p := Replay(next).value;
            && p.queue == [ROW2] && p.durable == map[1 := ROW1, 2 := ROW2] && p.lastOffset == 6
            && !p.HasActiveRun() && p.permission.None? && p.question.None? && DecideSubmit(p, 3, "c", 3, 0, true).Ok?
  {
    var p := Replay(log).value;
    assert Decide(p, Foreign(FINISH)) == Ok([FINISH]);
    FinishReduces(p);
    hide Reduce, Decide, Replay, Act;
    ActOne(log, 5, Foreign(FINISH), FINISH);
    next := log + [Envelope(6, FINISH)];
  }

  lemma FinishReduces(p: Projection)
    requires Runs(p, 1, 0) && p.lastOffset == 5 && p.version > 0
    ensures var q := Reduce(p, Envelope(6, FINISH));
            && q.Some? && q.value.queue == p.queue && q.value.durable == p.durable && q.value.lastOffset == 6
            && !q.value.HasActiveRun() && q.value.permission.None? && q.value.question.None?
            && q.value.run.value.terminal != Some(InterruptedByRestart)
  {
  }

  /** Everything before the last submission. */
  lemma Prepared() returns (log: seq<Envelope>)
    ensures RunActions(TWO + [(4, SubmitMessage(2, "b", 2, 0, true))] + [(5, Foreign(FINISH))]) == Some(log)
        && Replay(log).Some? && |log| > 0
    ensures QueuedOnce(log) && !EverPromoted(log, 2)
    ensures var p := Replay(log).value;
            && p.queue == [ROW2] && p.durable == map[1 := ROW1, 2 := ROW2] && p.lastOffset == 6
            && !p.HasActiveRun() && p.permission.None? && p.question.None? && DecideSubmit(p, 3, "c", 3, 0, true).Ok?
  {
    var a := Submits();
    SubmittedLog(a);
    hide RunActions, Replay, Act, Runs, DecideSubmit;
    var b := Waits(a);
    var c := Finishes(b);
    RunSnoc(TWO, a, 4, SubmitMessage(2, "b", 2, 0, true));
    RunSnoc(TWO + [(4, SubmitMessage(2, "b", 2, 0, true))], b, 5, Foreign(FINISH));
    log := c;
    assert c == a + [Envelope(5, MessageQueued(2, "b"))] + [Envelope(6, FINISH)];
    forall i | 0 <= i < |c| ensures !c[i].event.MessagePromoted? { }
  }

  lemma SubmittedLog(log: seq<Envelope>)
    requires RunActions(TWO) == Some(log)
    ensures log == [Envelope(1, TaskCreated)] + Stamp([RunStarted(1, 0)] + [MessageQueued(1, "a")] + [MessageConsumed(1, 1, 1)], 1)
  {
    var first := Creates();
    var action := SubmitMessage(1, "a", 1, 0, true);
    RunSnoc([(0, Foreign(TaskCreated))], first, 1, action);
    IdleDecision(Replay(first).value, 1, "a", 1, 0);
  }

  /** The third message is consumed while the second, submitted before it and never promoted, still waits. */
  lemma LaterMessageOvertakes()
    ensures RunActions(ACTIONS).Some? && Replay(RunActions(ACTIONS).value).Some?
    ensures var p := Replay(RunActions(ACTIONS).value).value;
            && 2 in p.durable && p.durable[2] == ROW2 && ROW2.state == Queued
            && 3 in p.durable && p.durable[3] == ROW3 && ROW3.state == Consumed && ROW2.createdOffset < ROW3.createdOffset
  {
    var log := Prepared();
    hide RunActions, Replay, Act, DecideSubmit, NothingOvertaken, AllWerePromoted, Runs, QueuedOnce;
    IdleSubmitOvertakesExactly(log, 6, 3, "c", 3, 0);
    RunSnoc(TWO + [(4, SubmitMessage(2, "b", 2, 0, true))] + [(5, Foreign(FINISH))], log, 6, SubmitMessage(3, "c", 3, 0, true));
    assert ACTIONS == TWO + [(4, SubmitMessage(2, "b", 2, 0, true))] + [(5, Foreign(FINISH))] + [(6, SubmitMessage(3, "c", 3, 0, true))];
  }
}
