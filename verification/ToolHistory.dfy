/**
 Which tools of a run are open, computed three ways: by a full replay from the
 run's start, by the paged loop of startup recovery that begins at a checkpoint,
 and by the store's own history that validates checkpoints.
 */
module ToolHistory {
  import opened Basics
  import opened TaskStream
  import opened StoreLaws
  import opened StreamLaws

  const RECOVERY_PAGE_SIZE: nat := 16

  datatype Checkpoint = Checkpoint(segment: SegmentId, offset: nat, tools: seq<ToolId>)

  // ----- open tools -----

  function OpenStep(started: set<ToolId>, e: TaskEvent): set<ToolId> {
    match e
    case Engine(ToolUseStarted(tool)) => started + {tool}
    case Engine(ToolUseCompleted(tool)) => started - {tool}
    case Engine(ToolUseFailed(tool)) => started - {tool}
    case Engine(ToolUseDenied(tool)) => started - {tool}
    case _ => started
  }

  function Open(started: set<ToolId>, es: seq<Envelope>): set<ToolId> {
    if |es| == 0 then started else OpenStep(Open(started, es[..|es| - 1]), es[|es| - 1].event)
  }

  /** The store's history also keeps a tool that was recorded as indeterminate. */
  function CanonicalStep(started: set<ToolId>, e: TaskEvent): set<ToolId> {
    if e.ToolIndeterminate? then started + {e.tool} else OpenStep(started, e)
  }

  function Canonical(started: set<ToolId>, es: seq<Envelope>): set<ToolId> {
    if |es| == 0 then started else CanonicalStep(Canonical(started, es[..|es| - 1]), es[|es| - 1].event)
  }

  lemma {:induction false} OpenConcat(started: set<ToolId>, a: seq<Envelope>, b: seq<Envelope>)
    ensures Open(started, a + b) == Open(Open(started, a), b)
  {
    if |b| == 0 {
      assert a + b == a;
    } else {
      assert (a + b)[..|a + b| - 1] == a + b[..|b| - 1];
      OpenConcat(started, a, b[..|b| - 1]);
    }
  }

  lemma {:induction false} CanonicalConcat(started: set<ToolId>, a: seq<Envelope>, b: seq<Envelope>)
    ensures Canonical(started, a + b) == Canonical(Canonical(started, a), b)
  {
    if |b| == 0 {
      assert a + b == a;
    } else {
      assert (a + b)[..|a + b| - 1] == a + b[..|b| - 1];
      CanonicalConcat(started, a, b[..|b| - 1]);
    }
  }

  /** A tool is open exactly when it was started and nothing ended it afterwards. */
  lemma {:induction false} OpenMeaning(es: seq<Envelope>, tool: ToolId)
    ensures tool in Open({}, es) <==>
            exists i :: 0 <= i < |es| && es[i].event == Engine(ToolUseStarted(tool))
                        && forall j :: i < j < |es| ==> !Ends(es[j].event, tool)
  {
    if |es| > 0 {
      var init := es[..|es| - 1];
      var e := es[|es| - 1].event;
      OpenMeaning(init, tool);
      if tool in Open({}, es) {
        if e == Engine(ToolUseStarted(tool)) {
          assert es[|es| - 1].event == Engine(ToolUseStarted(tool));
        } else {
          var i :| 0 <= i < |init| && init[i].event == Engine(ToolUseStarted(tool))
              && forall j :: i < j < |init| ==> !Ends(init[j].event, tool);
          assert es[i].event == Engine(ToolUseStarted(tool));
          forall j | i < j < |es| ensures !Ends(es[j].event, tool) {
            if j < |init| { assert !Ends(init[j].event, tool); }
          }
        }
      }
      if i :| 0 <= i < |es| && es[i].event == Engine(ToolUseStarted(tool)) && forall j :: i < j < |es| ==> !Ends(es[j].event, tool) {
        if i < |init| {
          assert init[i].event == Engine(ToolUseStarted(tool));
          assert forall j :: i < j < |init| ==> !Ends(init[j].event, tool) by {
            forall j | i < j < |init| ensures !Ends(init[j].event, tool) { assert !Ends(es[j].event, tool); }
          }
          assert !Ends(es[|es| - 1].event, tool);
        }
      }
    }
  }

  predicate Ends(e: TaskEvent, tool: ToolId) {
    e == Engine(ToolUseCompleted(tool)) || e == Engine(ToolUseFailed(tool)) || e == Engine(ToolUseDenied(tool))
  }

  /** Tools were recorded as indeterminate only while they were open. */
  predicate IndeterminateWereOpen(es: seq<Envelope>) {
    forall i :: 0 <= i < |es| && es[i].event.ToolIndeterminate? ==> es[i].event.tool in Open({}, es[..i])
  }

  /** Then both histories agree after every prefix. */
  lemma {:induction false} CanonicalIsOpen(es: seq<Envelope>, k: nat)
    requires IndeterminateWereOpen(es) && k <= |es|
    ensures Canonical({}, es[..k]) == Open({}, es[..k])
  {
    if k > 0 {
      CanonicalIsOpen(es, k - 1);
      assert es[..k][..k - 1] == es[..k - 1];
    }
  }

  // ----- ranges of the stream -----

  predicate Increasing(log: seq<Envelope>) {
    forall i, j :: 0 <= i < j < |log| ==> log[i].offset < log[j].offset
  }

  lemma {:induction false} ReplayIncreases(log: seq<Envelope>)
    requires Replay(log).Some?
    ensures Increasing(log) && forall i :: 0 <= i < |log| ==> 0 < log[i].offset <= Replay(log).value.lastOffset
  {
    if |log| > 0 { ReplayIncreases(log[..|log| - 1]); }
  }

  /** The events after an offset, in stream order. */
  function After(log: seq<Envelope>, offset: nat): seq<Envelope> {
    if |log| == 0 then []
    else After(log[..|log| - 1], offset) + (if log[|log| - 1].offset > offset then [log[|log| - 1]] else [])
  }

  /** The events after one offset up to and including another. */
  function Between(log: seq<Envelope>, after: nat, upTo: nat): seq<Envelope> {
    if |log| == 0 then []
    else
      var e := log[|log| - 1];
      Between(log[..|log| - 1], after, upTo) + (if after < e.offset <= upTo then [e] else [])
  }

  function Page(log: seq<Envelope>, after: nat, limit: nat): (page: seq<Envelope>)
    ensures |page| <= limit && page <= After(log, after)
  {
    var es := After(log, after);
    if |es| <= limit then es else es[..limit]
  }

  /** How many events lie at or before an offset. */
  function Cut(log: seq<Envelope>, offset: nat): (n: nat)
    ensures n <= |log|
  {
    if |log| == 0 then 0
    else if log[|log| - 1].offset <= offset then |log|
    else Cut(log[..|log| - 1], offset)
  }

  lemma {:induction false} CutSplits(log: seq<Envelope>, offset: nat)
    requires Increasing(log)
    ensures forall i :: 0 <= i < |log| ==> (log[i].offset <= offset <==> i < Cut(log, offset))
    ensures After(log, offset) == log[Cut(log, offset)..]
  {
    if |log| > 0 {
      var init := log[..|log| - 1];
      CutSplits(init, offset);
      assert forall i :: 0 <= i < |init| ==> init[i] == log[i];
      assert log[|log| - 1].offset <= offset ==> Cut(init, offset) == |init|;
    }
  }

  lemma {:induction false} BetweenIsSlice(log: seq<Envelope>, after: nat, upTo: nat)
    requires Increasing(log) && after <= upTo
    ensures Cut(log, after) <= Cut(log, upTo) && Between(log, after, upTo) == log[Cut(log, after)..Cut(log, upTo)]
  {
    CutSplits(log, after);
    CutSplits(log, upTo);
    if |log| > 0 {
      BetweenIsSlice(log[..|log| - 1], after, upTo);
    }
  }

  /** The events after `a` are those up to `b` followed by those after `b`. */
  lemma AfterSplits(log: seq<Envelope>, a: nat, b: nat)
    requires Increasing(log) && a <= b
    ensures After(log, a) == Between(log, a, b) + After(log, b)
  {
    CutSplits(log, a);
    CutSplits(log, b);
    BetweenIsSlice(log, a, b);
  }

  /** Continuing after the k-th of the events after `a` leaves exactly the others. */
  lemma AfterContinues(log: seq<Envelope>, a: nat, k: nat)
    requires Increasing(log) && 0 < k <= |After(log, a)|
    ensures After(log, After(log, a)[k - 1].offset) == After(log, a)[k..]
    ensures After(log, a)[k - 1].offset > a
  {
    CutSplits(log, a);
    var i := Cut(log, a) + k - 1;
    CutSplits(log, log[i].offset);
    assert i < Cut(log, log[i].offset);
    assert i + 1 < |log| ==> log[i + 1].offset > log[i].offset;
  }

  /** The offset of the latest start of a run segment. */
  function RunStartOffset(log: seq<Envelope>, segment: SegmentId): Option<nat> {
    if |log| == 0 then None
    else
      var e := log[|log| - 1];
      if e.event.RunStarted? && e.event.segment == segment then Some(e.offset)
      else RunStartOffset(log[..|log| - 1], segment)
  }

  // ----- sorted sets -----

  predicate Ascending(s: seq<nat>) {
    forall i, j :: 0 <= i < j < |s| ==> s[i] < s[j]
  }

  function Elements(s: seq<nat>): set<nat> { set x | x in s }

  lemma ElementsAppend(s: seq<nat>, x: nat)
    ensures Elements(s + [x]) == Elements(s) + {x}
  {
  }

  ghost predicate Below(s: set<nat>, x: nat) { forall y :: y in s ==> y < x }

  lemma AscendingAppend(s: seq<nat>, x: nat)
    requires Ascending(s) && Below(Elements(s), x)
    ensures Ascending(s + [x])
  {
    forall i, j | 0 <= i < j < |s + [x]| ensures (s + [x])[i] < (s + [x])[j] {
      assert s[i] in Elements(s);
    }
  }

  /** All but the last of an ascending list are smaller than the last. */
  lemma AscendingFront(s: seq<nat>)
    requires Ascending(s) && |s| > 0
    ensures Ascending(s[..|s| - 1]) && Below(Elements(s[..|s| - 1]), s[|s| - 1])
    ensures Elements(s[..|s| - 1]) == Elements(s) - {s[|s| - 1]} && s[|s| - 1] in Elements(s)
  {
    assert s == s[..|s| - 1] + [s[|s| - 1]];
    ElementsAppend(s[..|s| - 1], s[|s| - 1]);
  }

  function Insert(s: seq<nat>, x: nat): (r: seq<nat>)
    requires Ascending(s) && x !in Elements(s)
    ensures Ascending(r) && Elements(r) == Elements(s) + {x}
  {
    if |s| == 0 then [x]
    else
      var front, last := s[..|s| - 1], s[|s| - 1];
      AscendingFront(s);
      if last < x then
        AscendingAppend(s, x);
        ElementsAppend(s, x);
        s + [x]
      else
        var r := Insert(front, x);
        AscendingAppend(r, last);
        ElementsAppend(r, last);
        r + [last]
  }

  lemma {:induction false} AscendingUnique(a: seq<nat>, b: seq<nat>)
    requires Ascending(a) && Ascending(b) && Elements(a) == Elements(b)
    ensures a == b
  {
    if |a| == 0 || |b| == 0 {
      if |a| > 0 { AscendingFront(a); }
      if |b| > 0 { AscendingFront(b); }
    } else {
      AscendingFront(a);
      AscendingFront(b);
      AscendingUnique(a[..|a| - 1], b[..|b| - 1]);
    }
  }

  /** Collects a set into an ascending list. */
  method SortTools(tools: set<ToolId>) returns (sorted: seq<ToolId>)
    ensures Ascending(sorted) && Elements(sorted) == tools
  {
    sorted := [];
    var rest := tools;
    while rest != {}
      invariant rest <= tools && Ascending(sorted) && Elements(sorted) == tools - rest
      decreases |rest|
    {
      var x :| x in rest;
      assert x !in Elements(sorted);
      sorted := Insert(sorted, x);
      rest := rest - {x};
    }
  }

  // ----- the recovery loop -----

  /** A checkpoint's tools are the open tools of its run at its offset. */
  ghost predicate Correct(log: seq<Envelope>, c: Checkpoint) {
    && RunStartOffset(log, c.segment).Some? && RunStartOffset(log, c.segment).value <= c.offset
    && Elements(c.tools) == Open({}, Between(log, RunStartOffset(log, c.segment).value, c.offset))
  }

  function OpenTools(log: seq<Envelope>, segment: SegmentId): set<ToolId> {
    match RunStartOffset(log, segment)
    case None => {}
    case Some(start) => Open({}, After(log, start))
  }

  /** Where the loop begins: at the checkpoint of this run, or at the start of the run. */
  function Origin(log: seq<Envelope>, latest: Option<Checkpoint>, segment: SegmentId): Option<(nat, set<ToolId>)> {
    if latest.Some? && latest.value.segment == segment then Some((latest.value.offset, Elements(latest.value.tools)))
    else match RunStartOffset(log, segment)
      case None => None
      case Some(start) => Some((start, {}))
  }

  /** Continuing from a correct checkpoint reaches the same tools as a full replay. */
  lemma ResumeEqualsReplay(log: seq<Envelope>, latest: Option<Checkpoint>, segment: SegmentId)
    requires Increasing(log) && Origin(log, latest, segment).Some?
    requires latest.Some? && latest.value.segment == segment ==> Correct(log, latest.value)
    ensures var o := Origin(log, latest, segment).value; Open(o.1, After(log, o.0)) == OpenTools(log, segment)
  {
    if latest.Some? && latest.value.segment == segment {
      var start := RunStartOffset(log, segment).value;
      AfterSplits(log, start, latest.value.offset);
      OpenConcat({}, Between(log, start, latest.value.offset), After(log, latest.value.offset));
    }
  }

  /** One page: every event moves the cursor, tool events change the set. */
  method ReadPage(after: nat, started: set<ToolId>, events: seq<Envelope>) returns (after': nat, started': set<ToolId>)
    ensures started' == Open(started, events) && after' == if |events| == 0 then after else events[|events| - 1].offset
  {
    after', started' := after, started;
    for i := 0 to |events|
      invariant started' == Open(started, events[..i]) && after' == if i == 0 then after else events[i - 1].offset
    {
      after' := events[i].offset;
      started' := OpenStep(started', events[i].event);
      assert events[..i + 1][..i] == events[..i];
    }
    assert events[..|events|] == events;
  }

  /**
   Reads the events after the checkpoint page by page, sixteen at a time, and
   returns the open tools in ascending order. It fails exactly when the run has
   neither a checkpoint nor a recorded start.
   */
  method IndeterminateTools(log: seq<Envelope>, latest: Option<Checkpoint>, segment: SegmentId)
    returns (r: Result<seq<ToolId>, Reason>)
    requires Increasing(log)
    requires latest.Some? && latest.value.segment == segment ==> Correct(log, latest.value)
    ensures r.Ok? <==> RunStartOffset(log, segment).Some?
    ensures r.Ok? ==> Ascending(r.value) && Elements(r.value) == OpenTools(log, segment)
  {
    var origin := Origin(log, latest, segment);
    if origin.None? { return Err(RunStartMissing); }
    var after, started := origin.value.0, origin.value.1;
    ghost var es := After(log, after);
    ghost var done := 0;
    while true
      invariant 0 <= done <= |es| && started == Open(origin.value.1, es[..done])
      invariant After(log, after) == es[done..]
      decreases |es| - done
    {
      var events := Page(log, after, RECOVERY_PAGE_SIZE);
      if |events| == 0 { break; }
      assert es[..done + |events|] == es[..done] + events;
      OpenConcat(origin.value.1, es[..done], events);
      AfterContinues(log, origin.value.0, done + |events|);
      assert events[|events| - 1] == es[done + |events| - 1];
      after, started := ReadPage(after, started, events);
      done := done + |events|;
    }
    assert es[..done] == es;
    ResumeEqualsReplay(log, latest, segment);
    var sorted := SortTools(started);
    r := Ok(sorted);
  }
}
