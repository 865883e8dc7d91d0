/**
 Pending changes of the deferred tool pool. Merging a later change into an
 earlier one in place is composition of the two changes.
 */
module DeferredTools {
  import opened Basics

  type ToolName = string

  datatype ChangeSource = InitialClassification | OtherSource(text: string)

  datatype Hint = Hint(name: ToolName, hint: Option<string>)

  datatype PoolChange = PoolChange(added: seq<Hint>, removed: seq<ToolName>, source: ChangeSource, at: int)

  datatype Delta = Delta(
    added: seq<ToolName>, removed: seq<ToolName>, reason: string,
    addedReasons: map<ToolName, string>, removedReasons: map<ToolName, string>,
    source: ChangeSource, at: int, initial: bool)

  const GONE := "tool is no longer deferred"

  function Elements(s: seq<ToolName>): set<ToolName> { set x | x in s }

  predicate NoRepeats(s: seq<ToolName>) { forall i, j :: 0 <= i < j < |s| ==> s[i] != s[j] }

  // ----- from an event -----

  function Names(hints: seq<Hint>): seq<ToolName> {
    seq(|hints|, i requires 0 <= i < |hints| => hints[i].name)
  }

  /** A later hint for the same name wins. */
  function HintReasons(hints: seq<Hint>, fallback: string): map<ToolName, string> {
    if |hints| == 0 then map[]
    else
      var last := hints[|hints| - 1];
      HintReasons(hints[..|hints| - 1], fallback)[last.name := if last.hint.Some? then last.hint.value else fallback]
  }

  function Constant(names: seq<ToolName>, text: string): map<ToolName, string> { map n | n in names :: text }

  function FromPoolChange(e: PoolChange, reason: string): Delta {
    Delta(Names(e.added), e.removed, reason, HintReasons(e.added, reason), Constant(e.removed, GONE), e.source,
        e.at, e.source.InitialClassification?)
  }

  lemma {:induction false} HintsCovered(hints: seq<Hint>, fallback: string)
    ensures HintReasons(hints, fallback).Keys == Elements(Names(hints))
  {
    if |hints| > 0 {
      var init, last := hints[..|hints| - 1], hints[|hints| - 1];
      HintsCovered(init, fallback);
      assert Names(hints) == Names(init) + [last.name];
      assert Elements(Names(hints)) == Elements(Names(init)) + {last.name};
    }
  }

  // ----- the specification of merge -----

  function Retain(s: seq<ToolName>, drop: set<ToolName>): (r: seq<ToolName>)
    ensures Elements(r) == Elements(s) - drop
    ensures NoRepeats(s) ==> NoRepeats(r)
  {
    if |s| == 0 then []
    else
      var init, last := s[..|s| - 1], s[|s| - 1];
      assert s == init + [last];
      assert Elements(s) == Elements(init) + {last};
      assert NoRepeats(s) ==> last !in Elements(init);
      var r := Retain(init, drop);
      var result := if last in drop then r else r + [last];
      assert Elements(result) == if last in drop then Elements(r) else Elements(r) + {last};
      assert forall i :: 0 <= i < |r| ==> r[i] in Elements(r);
      result
  }

  function PushNew(s: seq<ToolName>, more: seq<ToolName>): (r: seq<ToolName>)
    ensures Elements(r) == Elements(s) + Elements(more)
    ensures NoRepeats(s) ==> NoRepeats(r)
  {
    if |more| == 0 then s
    else
      var init, last := more[..|more| - 1], more[|more| - 1];
      assert more == init + [last];
      assert Elements(more) == Elements(init) + {last};
      var r := PushNew(s, init);
      var result := if last in r then r else r + [last];
      assert Elements(result) == Elements(r) + {last};
      result
  }

  function Merged(a: Delta, b: Delta): Delta {
    Delta(PushNew(Retain(a.added, Elements(b.removed)), b.added),
          PushNew(Retain(a.removed, Elements(b.added)), b.removed),
          b.reason, a.addedReasons + b.addedReasons, a.removedReasons + b.removedReasons, b.source, b.at, a.initial || b.initial)
  }

  // ----- the object that is merged in place -----

  class PendingDelta {
    var added: seq<ToolName>
    var removed: seq<ToolName>
    var reason: string
    var addedReasons: map<ToolName, string>
    var removedReasons: map<ToolName, string>
    var source: ChangeSource
    var at: int
    var initial: bool

    ghost function Contents(): Delta
      reads this
    {
      Delta(added, removed, reason, addedReasons, removedReasons, source, at, initial)
    }

    constructor (d: Delta)
      ensures Contents() == d
    {
      added, removed, reason, addedReasons, removedReasons, source, at, initial :=
        d.added, d.removed, d.reason, d.addedReasons, d.removedReasons, d.source, d.at, d.initial;
    }

    method Merge(next: Delta)
      modifies this
      ensures Contents() == Merged(old(Contents()), next)
    {
      hide Retain, PushNew, Elements, NoRepeats;
      added := Kept(added, next.removed);
      removed := Kept(removed, next.added);
      added := Extended(added, next.added);
      addedReasons := addedReasons + next.addedReasons;
      removed := Extended(removed, next.removed);
      removedReasons := removedReasons + next.removedReasons;
      reason, source, at := next.reason, next.source, next.at;
      initial := initial || next.initial;
    }

    /** Drops names that have been materialised in the meantime. */
    method RemoveAddedNames(names: seq<ToolName>)
      modifies this
      ensures Contents() == old(Contents()).(added := Retain(old(added), Elements(names)),
          addedReasons := old(addedReasons) - Elements(names))
    {
      added := Kept(added, names);
      var reasons := addedReasons;
      for i := 0 to |names|
        invariant reasons == addedReasons - Elements(names[..i])
      {
        assert Elements(names[..i + 1]) == Elements(names[..i]) + {names[i]} by { assert names[..i + 1] == names[..i] + [names[i]]; }
        reasons := reasons - {names[i]};
      }
      assert names[..|names|] == names;
      addedReasons := reasons;
    }
  }

  method Kept(s: seq<ToolName>, drop: seq<ToolName>) returns (r: seq<ToolName>)
    ensures r == Retain(s, Elements(drop))
  {
    r := [];
    for i := 0 to |s|
      invariant r == Retain(s[..i], Elements(drop))
    {
      assert s[..i + 1][..i] == s[..i];
      if s[i] !in drop { r := r + [s[i]]; }
    }
    assert s[..|s|] == s;
  }

  method Extended(s: seq<ToolName>, more: seq<ToolName>) returns (r: seq<ToolName>)
    ensures r == PushNew(s, more)
  {
    r := s;
    for i := 0 to |more|
      invariant r == PushNew(s, more[..i])
    {
      assert more[..i + 1][..i] == more[..i];
      if more[i] !in r { r := r + [more[i]]; }
    }
    assert more[..|more|] == more;
  }

  // ----- composition -----

  function Apply(d: Delta, pool: set<ToolName>): set<ToolName> { (pool - Elements(d.removed)) + Elements(d.added) }

  predicate Disjoint(d: Delta) { Elements(d.added) !! Elements(d.removed) }

  /** Applying a merged delta is applying the two deltas one after the other. */
  lemma MergeComposes(a: Delta, b: Delta, pool: set<ToolName>)
    requires Disjoint(a) && Disjoint(b)
    ensures Disjoint(Merged(a, b)) && Apply(Merged(a, b), pool) == Apply(b, Apply(a, pool))
  {
    var m := Merged(a, b);
    assert Elements(m.added) == (Elements(a.added) - Elements(b.removed)) + Elements(b.added);
    assert Elements(m.removed) == (Elements(a.removed) - Elements(b.added)) + Elements(b.removed);
  }

  /** Merging never introduces a repeated name, even from a change that repeats one. */
  lemma MergeKeepsNoRepeats(a: Delta, b: Delta)
    requires NoRepeats(a.added) && NoRepeats(a.removed)
    ensures NoRepeats(Merged(a, b).added) && NoRepeats(Merged(a, b).removed)
  {
  }

  // ----- whole sequences of changes -----

  function Deltas(changes: seq<PoolChange>, reasons: seq<string>): seq<Delta>
    requires |reasons| == |changes|
  {
    seq(|changes|, i requires 0 <= i < |changes| => FromPoolChange(changes[i], reasons[i]))
  }

  function Fold(ds: seq<Delta>): Delta
    requires |ds| > 0
  {
    if |ds| == 1 then ds[0] else Merged(Fold(ds[..|ds| - 1]), ds[|ds| - 1])
  }

  function ApplyAll(ds: seq<Delta>, pool: set<ToolName>): set<ToolName> {
    if |ds| == 0 then pool else Apply(ds[|ds| - 1], ApplyAll(ds[..|ds| - 1], pool))
  }

  /** The reason given by the latest change that added the name. */
  function LatestReason(ds: seq<Delta>, name: ToolName): Option<string> {
    if |ds| == 0 then None
    else
      var d := ds[|ds| - 1];
      if name in d.added && name in d.addedReasons then Some(d.addedReasons[name]) else LatestReason(ds[..|ds| - 1], name)
  }

  /** Every name of a change has a reason, and only its names have one. */
  predicate Explained(d: Delta) { d.addedReasons.Keys == Elements(d.added) }

  lemma {:induction false} FoldComposes(ds: seq<Delta>, pool: set<ToolName>)
    requires |ds| > 0 && forall i :: 0 <= i < |ds| ==> Disjoint(ds[i])
    ensures Disjoint(Fold(ds)) && Apply(Fold(ds), pool) == ApplyAll(ds, pool)
  {
    var init := ds[..|ds| - 1];
    if |ds| == 1 {
      assert ApplyAll(init, pool) == pool;
    } else {
      FoldComposes(init, pool);
      MergeComposes(Fold(init), ds[|ds| - 1], pool);
    }
  }

  /** Every added name that survives carries the reason of the latest change that added it. */
  lemma {:induction false} FoldKeepsLatestReason(ds: seq<Delta>, name: ToolName)
    requires |ds| > 0 && forall i :: 0 <= i < |ds| ==> Explained(ds[i])
    ensures name in Fold(ds).added ==> name in Fold(ds).addedReasons && LatestReason(ds, name) == Some(Fold(ds).addedReasons[name])
  {
    var init, last := ds[..|ds| - 1], ds[|ds| - 1];
    assert name in last.added <==> name in Elements(last.added);
    assert name in last.addedReasons <==> name in last.addedReasons.Keys;
    if |ds| > 1 {
      FoldKeepsLatestReason(init, name);
      var m := Fold(ds);
      assert name in m.added <==> name in Elements(m.added);
      assert name in Fold(init).added <==> name in Elements(Fold(init).added);
    }
  }

  // ----- repeated names -----

  function Copies(s: seq<ToolName>, name: ToolName): nat {
    if |s| == 0 then 0 else Copies(s[..|s| - 1], name) + (if s[|s| - 1] == name then 1 else 0)
  }

  lemma CopiesAppend(s: seq<ToolName>, x: ToolName, name: ToolName)
    ensures Copies(s + [x], name) == Copies(s, name) + (if x == name then 1 else 0)
  {
    assert (s + [x])[..|s + [x]| - 1] == s;
  }

  lemma {:induction false} CopiesPositive(s: seq<ToolName>, name: ToolName)
    ensures Copies(s, name) > 0 <==> name in s
  {
    if |s| > 0 {
      CopiesPositive(s[..|s| - 1], name);
      assert s == s[..|s| - 1] + [s[|s| - 1]];
    }
  }

  /** No name repeats exactly if every name has at most one copy. */
  lemma {:induction false} NoRepeatsIsOneCopy(s: seq<ToolName>)
    ensures NoRepeats(s) <==> forall name :: Copies(s, name) <= 1
  {
    if |s| > 0 {
      var init, last := s[..|s| - 1], s[|s| - 1];
      assert s == init + [last];
      NoRepeatsIsOneCopy(init);
      forall name ensures Copies(s, name) == Copies(init, name) + (if last == name then 1 else 0) { }
      CopiesPositive(init, last);
      assert NoRepeats(s) <==> NoRepeats(init) && last !in init;
      if NoRepeats(s) {
        forall name ensures Copies(s, name) <= 1 { assert Copies(init, name) <= 1; }
      } else if NoRepeats(init) {
        assert Copies(s, last) > 1;
      } else {
        var name :| Copies(init, name) > 1;
        assert Copies(s, name) > 1;
      }
    }
  }

  lemma {:induction false} CopiesRetain(s: seq<ToolName>, drop: set<ToolName>, name: ToolName)
    ensures Copies(Retain(s, drop), name) == if name in drop then 0 else Copies(s, name)
  {
    if |s| > 0 {
      CopiesRetain(s[..|s| - 1], drop, name);
      CopiesAppend(Retain(s[..|s| - 1], drop), s[|s| - 1], name);
    }
  }

  lemma {:induction false} CopiesPush(s: seq<ToolName>, more: seq<ToolName>, name: ToolName)
    ensures Copies(PushNew(s, more), name) == if Copies(s, name) > 0 then Copies(s, name) else if name in more then 1 else 0
  {
    if |more| > 0 {
      var init, last := more[..|more| - 1], more[|more| - 1];
      assert more == init + [last];
      CopiesPush(s, init, name);
      CopiesAppend(PushNew(s, init), last, name);
      CopiesPositive(PushNew(s, init), last);
      CopiesPush(s, init, last);
    }
  }

  /** A name repeats in a merged list exactly if it repeated in the earlier one and the later change does not drop it. */
  lemma MergeCopies(a: Delta, b: Delta, name: ToolName)
    ensures Copies(Merged(a, b).added, name) > 1 <==> Copies(a.added, name) > 1 && name !in b.removed
    ensures Copies(Merged(a, b).removed, name) > 1 <==> Copies(a.removed, name) > 1 && name !in b.added
  {
    CopiesRetain(a.added, Elements(b.removed), name);
    CopiesPush(Retain(a.added, Elements(b.removed)), b.added, name);
    CopiesRetain(a.removed, Elements(b.added), name);
    CopiesPush(Retain(a.removed, Elements(b.added)), b.removed, name);
  }

  predicate RemovedLater(ds: seq<Delta>, name: ToolName) { exists i :: 1 <= i < |ds| && name in ds[i].removed }

  predicate AddedLater(ds: seq<Delta>, name: ToolName) { exists i :: 1 <= i < |ds| && name in ds[i].added }

  lemma LaterGrows(ds: seq<Delta>, d: Delta, name: ToolName)
    requires |ds| > 0
    ensures RemovedLater(ds + [d], name) <==> RemovedLater(ds, name) || name in d.removed
    ensures AddedLater(ds + [d], name) <==> AddedLater(ds, name) || name in d.added
  {
    var all := ds + [d];
    assert all[|ds|] == d;
    if i :| 1 <= i < |ds| && name in ds[i].removed { assert all[i] == ds[i]; }
    if i :| 1 <= i < |ds| && name in ds[i].added { assert all[i] == ds[i]; }
  }

  lemma {:induction false} FoldCopies(ds: seq<Delta>, name: ToolName)
    requires |ds| > 0
    ensures Copies(Fold(ds).added, name) > 1 <==> Copies(ds[0].added, name) > 1 && !RemovedLater(ds, name)
    ensures Copies(Fold(ds).removed, name) > 1 <==> Copies(ds[0].removed, name) > 1 && !AddedLater(ds, name)
  {
    if |ds| > 1 {
      FoldCopies(ds[..|ds| - 1], name);
      FoldCopiesStep(ds[..|ds| - 1], ds[|ds| - 1], name);
      assert ds == ds[..|ds| - 1] + [ds[|ds| - 1]];
    }
  }

  lemma FoldCopiesStep(ds: seq<Delta>, last: Delta, name: ToolName)
    requires |ds| > 0
    requires Copies(Fold(ds).added, name) > 1 <==> Copies(ds[0].added, name) > 1 && !RemovedLater(ds, name)
    requires Copies(Fold(ds).removed, name) > 1 <==> Copies(ds[0].removed, name) > 1 && !AddedLater(ds, name)
    ensures var all := ds + [last];
            && (Copies(Fold(all).added, name) > 1 <==> Copies(ds[0].added, name) > 1 && !RemovedLater(all, name))
            && (Copies(Fold(all).removed, name) > 1 <==> Copies(ds[0].removed, name) > 1 && !AddedLater(all, name))
  {
    var all := ds + [last];
    assert all[..|all| - 1] == ds && all[|all| - 1] == last;
    assert Fold(all) == Merged(Fold(ds), last);
    hide *;
    MergeCopies(Fold(ds), last, name);
    LaterGrows(ds, last, name);
  }

  ghost predicate RepeatsTakenBack(ds: seq<Delta>)
    requires |ds| > 0
  {
    forall name :: Copies(ds[0].added, name) > 1 ==> RemovedLater(ds, name)
  }

  ghost predicate RepeatsReturned(ds: seq<Delta>)
    requires |ds| > 0
  {
    forall name :: Copies(ds[0].removed, name) > 1 ==> AddedLater(ds, name)
  }

  lemma AddedRepeatsExactly(ds: seq<Delta>)
    requires |ds| > 0
    ensures NoRepeats(Fold(ds).added) <==> RepeatsTakenBack(ds)
  {
    hide Fold, NoRepeats, RemovedLater, AddedLater, Copies;
    NoRepeatsIsOneCopy(Fold(ds).added);
    if NoRepeats(Fold(ds).added) {
      forall name | Copies(ds[0].added, name) > 1 ensures RemovedLater(ds, name) {
        FoldCopies(ds, name);
        assert Copies(Fold(ds).added, name) <= 1;
      }
    } else {
      var name :| Copies(Fold(ds).added, name) > 1;
      FoldCopies(ds, name);
    }
  }

  lemma RemovedRepeatsExactly(ds: seq<Delta>)
    requires |ds| > 0
    ensures NoRepeats(Fold(ds).removed) <==> RepeatsReturned(ds)
  {
    hide Fold, NoRepeats, RemovedLater, AddedLater, Copies;
    NoRepeatsIsOneCopy(Fold(ds).removed);
    if NoRepeats(Fold(ds).removed) {
      forall name | Copies(ds[0].removed, name) > 1 ensures AddedLater(ds, name) {
        FoldCopies(ds, name);
        assert Copies(Fold(ds).removed, name) <= 1;
      }
    } else {
      var name :| Copies(Fold(ds).removed, name) > 1;
      FoldCopies(ds, name);
    }
  }

  /**
   The folded lists are free of repeated names if and only if every name the first
   change repeats is taken back by a later one. Later changes may repeat names.
   */
  lemma FoldRepeatsExactly(ds: seq<Delta>)
    requires |ds| > 0
    ensures NoRepeats(Fold(ds).added) <==> RepeatsTakenBack(ds)
    ensures NoRepeats(Fold(ds).removed) <==> RepeatsReturned(ds)
  {
    AddedRepeatsExactly(ds);
    RemovedRepeatsExactly(ds);
  }

  const TWICE := PoolChange([Hint("t", None), Hint("t", None)], [], OtherSource("s"), 0)
  const QUIET := PoolChange([], [], OtherSource("s"), 1)

  /** A first change that adds a name twice: both copies survive the merge. */
  lemma RepeatSurvives()
    ensures Fold(Deltas([TWICE, QUIET], ["r", "r"])).added == ["t", "t"] && !NoRepeats(Fold(Deltas([TWICE, QUIET], ["r", "r"])).added)
  {
    var a, b := FromPoolChange(TWICE, "r"), FromPoolChange(QUIET, "r");
    var ds := Deltas([TWICE, QUIET], ["r", "r"]);
    assert ds == [a, b] && ds[..1] == [a];
    assert a.added == ["t", "t"] && b.added == [] && b.removed == [];
    RetainNothing(a.added);
    assert Elements(b.removed) == {};
  }

  lemma {:induction false} RetainNothing(s: seq<ToolName>)
    ensures Retain(s, {}) == s
  {
    if |s| > 0 {
      RetainNothing(s[..|s| - 1]);
      assert s == s[..|s| - 1] + [s[|s| - 1]];
    }
  }

  // ----- the law for pool changes -----

  /**
   For every sequence of pool changes with disjoint lists: folding them with merge
   keeps the lists disjoint, acts like the changes in order, keeps the latest
   reasons, and repeats a name exactly if the first change did and no later one
   took it back.
   */
  lemma MergingIsComposition(changes: seq<PoolChange>, reasons: seq<string>, pool: set<ToolName>, name: ToolName)
    requires |changes| > 0 && |reasons| == |changes|
    requires forall i :: 0 <= i < |changes| ==> Elements(Names(changes[i].added)) !! Elements(changes[i].removed)
    ensures var ds := Deltas(changes, reasons); var all := Fold(ds);
            && Disjoint(all) && Apply(all, pool) == ApplyAll(ds, pool)
            && (NoRepeats(all.added) <==> RepeatsTakenBack(ds)) && (NoRepeats(all.removed) <==> RepeatsReturned(ds))
            && (name in all.added ==> name in all.addedReasons && LatestReason(ds, name) == Some(all.addedReasons[name]))
  {
    var ds := Deltas(changes, reasons);
    forall i | 0 <= i < |ds| ensures Disjoint(ds[i]) && Explained(ds[i]) { HintsCovered(changes[i].added, reasons[i]); }
    hide Fold, NoRepeats, RepeatsTakenBack, RepeatsReturned, LatestReason;
    FoldComposes(ds, pool);
    FoldKeepsLatestReason(ds, name);
    FoldRepeatsExactly(ds);
  }
}
