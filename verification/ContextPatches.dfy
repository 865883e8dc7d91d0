/**
 Patches waiting to be put into a session's next prompts: how long each lives,
 in which order they appear, and that at most one tool-pool delta waits.

 A patch is numbered by the push that created it.
 */
module ContextPatches {
  import opened Basics

  datatype Lifecycle = Transient | Persistent(ttl: Option<nat>)

  datatype Patch = Patch(id: nat, delta: bool, life: Lifecycle, body: string)

  /** The stored context of one session; `pushed` counts pushes. */
  datatype Buffer = Buffer(patches: seq<Patch>, pushed: nat)

  datatype Op =
    | Push(life: Lifecycle, body: string)
    | PushDelta(body: string, empty: bool)
    | Assemble

  // ----- specification -----

  function Aged(life: Lifecycle): Option<Lifecycle> {
    match life
    case Transient => None
    case Persistent(None) => Some(life)
    case Persistent(Some(ttl)) => if ttl == 0 then None else Some(Persistent(Some(ttl - 1)))
  }

  function Expired(patches: seq<Patch>): seq<Patch> {
    if |patches| == 0 then []
    else
      var last := patches[|patches| - 1];
      Expired(patches[..|patches| - 1]) + (if Aged(last.life).Some? then [last.(life := Aged(last.life).value)] else [])
  }

  function WithoutDelta(patches: seq<Patch>): seq<Patch> {
    if |patches| == 0 then []
    else
      var last := patches[|patches| - 1];
      WithoutDelta(patches[..|patches| - 1]) + (if last.delta then [] else [last])
  }

  function After(b: Buffer, op: Op): Buffer {
    match op
    case Push(life, body) => Buffer(b.patches + [Patch(b.pushed, false, life, body)], b.pushed + 1)
    case PushDelta(body, empty) =>
      if empty then b else Buffer(WithoutDelta(b.patches) + [Patch(b.pushed, true, Transient, body)], b.pushed + 1)
    case Assemble => b.(patches := Expired(b.patches))
  }

  // ----- the engine's session state -----

  class SessionContext {
    var patches: seq<Patch>
    var pushed: nat

    ghost function Contents(): Buffer
      reads this
    {
      Buffer(patches, pushed)
    }

    constructor ()
      ensures Contents() == Buffer([], 0)
    {
      patches, pushed := [], 0;
    }

    method PushPatch(life: Lifecycle, body: string)
      modifies this
      ensures Contents() == After(old(Contents()), Push(life, body))
    {
      patches := patches + [Patch(pushed, false, life, body)];
      pushed := pushed + 1;
    }

    method PushDeferredToolsDelta(body: string, empty: bool)
      modifies this
      ensures Contents() == After(old(Contents()), PushDelta(body, empty))
    {
      if empty { return; }
      var kept: seq<Patch> := [];
      for i := 0 to |patches|
        invariant kept == WithoutDelta(patches[..i])
      {
        assert patches[..i + 1][..i] == patches[..i];
        if !patches[i].delta { kept := kept + [patches[i]]; }
      }
      assert patches[..|patches|] == patches;
      patches := kept + [Patch(pushed, true, Transient, body)];
      pushed := pushed + 1;
    }

    /** Hands out all waiting patches and ages them. */
    method TakePending() returns (taken: seq<Patch>)
      modifies this
      ensures taken == old(patches) && Contents() == After(old(Contents()), Assemble)
    {
      taken := patches;
      var kept: seq<Patch> := [];
      for i := 0 to |patches|
        invariant kept == Expired(patches[..i])
      {
        assert patches[..i + 1][..i] == patches[..i];
        var aged := Aged(patches[i].life);
        if aged.Some? { kept := kept + [patches[i].(life := aged.value)]; }
      }
      assert patches[..|patches|] == patches;
      patches := kept;
    }
  }

  // ----- invariant -----

  predicate InPushOrder(patches: seq<Patch>) { forall i, j :: 0 <= i < j < |patches| ==> patches[i].id < patches[j].id }

  ghost predicate BufferOk(b: Buffer) {
    && InPushOrder(b.patches)
    && (forall i :: 0 <= i < |b.patches| ==> b.patches[i].id < b.pushed)
    && (forall i, j :: 0 <= i < j < |b.patches| ==> !(b.patches[i].delta && b.patches[j].delta))
    && (forall i :: 0 <= i < |b.patches| && b.patches[i].delta ==> b.patches[i].life.Transient?)
  }

  function Find(patches: seq<Patch>, id: nat): Option<Patch> {
    if |patches| == 0 then None
    else if patches[|patches| - 1].id == id then Some(patches[|patches| - 1])
    else Find(patches[..|patches| - 1], id)
  }

  lemma {:induction false} FindMeans(patches: seq<Patch>, id: nat)
    ensures Find(patches, id).Some? <==> exists i :: 0 <= i < |patches| && patches[i].id == id
    ensures Find(patches, id).Some? ==> Find(patches, id).value in patches && Find(patches, id).value.id == id
  {
    if |patches| > 0 {
      var init := patches[..|patches| - 1];
      FindMeans(init, id);
      if patches[|patches| - 1].id != id {
        if i :| 0 <= i < |patches| && patches[i].id == id { assert init[i].id == id; }
        if i :| 0 <= i < |init| && init[i].id == id { assert patches[i].id == id; }
      }
    }
  }

  predicate Below(patches: seq<Patch>, n: nat) { forall i :: 0 <= i < |patches| ==> patches[i].id < n }

  predicate NoDelta(patches: seq<Patch>) { forall i :: 0 <= i < |patches| ==> !patches[i].delta }

  lemma AppendOrdered(kept: seq<Patch>, p: Patch)
    requires InPushOrder(kept) && Below(kept, p.id)
    ensures InPushOrder(kept + [p])
  {
  }

  lemma FindAppend(kept: seq<Patch>, p: Patch, id: nat)
    ensures Find(kept + [p], id) == if p.id == id then Some(p) else Find(kept, id)
  {
    assert (kept + [p])[..|kept + [p]| - 1] == kept;
  }

  lemma FindBelow(patches: seq<Patch>, id: nat)
    requires Below(patches, id)
    ensures Find(patches, id).None?
  {
    FindMeans(patches, id);
  }

  lemma {:induction false} ExpiredBelow(patches: seq<Patch>, n: nat)
    requires Below(patches, n)
    ensures Below(Expired(patches), n)
  {
    if |patches| > 0 { ExpiredBelow(patches[..|patches| - 1], n); }
  }

  lemma {:induction false} ExpiredOrdered(patches: seq<Patch>)
    requires InPushOrder(patches)
    ensures InPushOrder(Expired(patches))
  {
    if |patches| > 0 {
      var init, last := patches[..|patches| - 1], patches[|patches| - 1];
      ExpiredOrdered(init);
      ExpiredBelow(init, last.id);
      if Aged(last.life).Some? { AppendOrdered(Expired(init), last.(life := Aged(last.life).value)); }
    }
  }

  lemma {:induction false} ExpiredFind(patches: seq<Patch>, id: nat)
    requires InPushOrder(patches)
    ensures var p := Find(patches, id);
            Find(Expired(patches), id) == if p.Some?
                && Aged(p.value.life).Some? then Some(p.value.(life := Aged(p.value.life).value)) else None
  {
    if |patches| > 0 {
      var init, last := patches[..|patches| - 1], patches[|patches| - 1];
      ExpiredFind(init, id);
      if Aged(last.life).Some? { FindAppend(Expired(init), last.(life := Aged(last.life).value), id); }
          else { assert Expired(patches) == Expired(init); }
      FindBelow(init, last.id);
    }
  }

  /** Deltas are transient, so no delta survives an assemble. */
  lemma {:induction false} ExpiredNoDelta(patches: seq<Patch>)
    requires forall i :: 0 <= i < |patches| && patches[i].delta ==> patches[i].life.Transient?
    ensures NoDelta(Expired(patches))
  {
    if |patches| > 0 { ExpiredNoDelta(patches[..|patches| - 1]); }
  }

  lemma {:induction false} WithoutDeltaBelow(patches: seq<Patch>, n: nat)
    requires Below(patches, n)
    ensures Below(WithoutDelta(patches), n)
  {
    if |patches| > 0 { WithoutDeltaBelow(patches[..|patches| - 1], n); }
  }

  lemma {:induction false} WithoutDeltaOrdered(patches: seq<Patch>)
    requires InPushOrder(patches)
    ensures InPushOrder(WithoutDelta(patches)) && NoDelta(WithoutDelta(patches))
  {
    if |patches| > 0 {
      var init, last := patches[..|patches| - 1], patches[|patches| - 1];
      WithoutDeltaOrdered(init);
      WithoutDeltaBelow(init, last.id);
      if !last.delta { AppendOrdered(WithoutDelta(init), last); }
    }
  }

  lemma {:induction false} WithoutDeltaFind(patches: seq<Patch>, id: nat)
    requires InPushOrder(patches)
    ensures Find(WithoutDelta(patches), id) == if Find(patches, id).Some? && !Find(patches, id).value.delta then Find(patches, id) else None
  {
    if |patches| > 0 {
      var init, last := patches[..|patches| - 1], patches[|patches| - 1];
      WithoutDeltaFind(init, id);
      if !last.delta { FindAppend(WithoutDelta(init), last, id); } else { assert WithoutDelta(patches) == WithoutDelta(init); }
      FindBelow(init, last.id);
    }
  }

  /** Every operation keeps push order and at most one waiting delta. */
  lemma StepKeeps(b: Buffer, op: Op)
    requires BufferOk(b)
    ensures BufferOk(After(b, op))
  {
    match op
    case Push(_, _) =>
    case PushDelta(_, empty) =>
      if !empty {
        WithoutDeltaOrdered(b.patches);
        WithoutDeltaBelow(b.patches, b.pushed);
      }
    case Assemble =>
      ExpiredOrdered(b.patches);
      ExpiredBelow(b.patches, b.pushed);
      ExpiredNoDelta(b.patches);
  }

  // ----- runs -----

  function Run(b: Buffer, ops: seq<Op>): Buffer {
    if |ops| == 0 then b else After(Run(b, ops[..|ops| - 1]), ops[|ops| - 1])
  }

  function Assembles(ops: seq<Op>): nat {
    if |ops| == 0 then 0 else Assembles(ops[..|ops| - 1]) + (if ops[|ops| - 1].Assemble? then 1 else 0)
  }

  lemma {:induction false} RunKeeps(b: Buffer, ops: seq<Op>)
    requires BufferOk(b)
    ensures BufferOk(Run(b, ops))
  {
    if |ops| > 0 {
      RunKeeps(b, ops[..|ops| - 1]);
      StepKeeps(Run(b, ops[..|ops| - 1]), ops[|ops| - 1]);
    }
  }

  /** Alive for the assemble that follows `n` earlier ones. */
  predicate Alive(life: Lifecycle, n: nat) {
    match life
    case Transient => n == 0
    case Persistent(None) => true
    case Persistent(Some(ttl)) => n <= ttl
  }

  function AgedBy(life: Lifecycle, n: nat): Lifecycle
    requires Alive(life, n)
  {
    match life
    case Persistent(Some(ttl)) => Persistent(Some(ttl - n))
    case _ => life
  }

  /** A waiting patch that is not a delta is found after any further operations exactly while it is alive. */
  lemma {:induction false} WaitsWhileAlive(b: Buffer, ops: seq<Op>, p: Patch)
    requires BufferOk(b) && Find(b.patches, p.id) == Some(p) && !p.delta && p.id < b.pushed
    ensures Find(Run(b, ops).patches, p.id) ==
            if Alive(p.life, Assembles(ops)) then Some(p.(life := AgedBy(p.life, Assembles(ops)))) else None
    ensures Run(b, ops).pushed >= b.pushed
  {
    if |ops| > 0 {
      var init, op := ops[..|ops| - 1], ops[|ops| - 1];
      WaitsWhileAlive(b, init, p);
      RunKeeps(b, init);
      FindAfter(Run(b, init), op, p.id);
    }
  }

  /** How one operation changes what is found under an older number. */
  lemma FindAfter(b: Buffer, op: Op, id: nat)
    requires BufferOk(b) && id < b.pushed
    ensures After(b, op).pushed >= b.pushed
    ensures var p := Find(b.patches, id);
            Find(After(b, op).patches, id) ==
              match op
              case Push(_, _) => p
              case PushDelta(_, empty) => if empty then p else if p.Some? && !p.value.delta then p else None
              case Assemble => if p.Some? && Aged(p.value.life).Some? then Some(p.value.(life := Aged(p.value.life).value)) else None
  {
    var next := After(b, op).patches;
    match op
    case Push(_, _) => assert next[..|next| - 1] == b.patches;
    case PushDelta(_, empty) =>
      if !empty {
        WithoutDeltaFind(b.patches, id);
        assert next[..|next| - 1] == WithoutDelta(b.patches);
      }
    case Assemble => ExpiredFind(b.patches, id);
  }

  /** The patches handed out by an assemble in state `b`. */
  predicate Delivers(b: Buffer, id: nat) { Find(b.patches, id).Some? }

  /**
   A pushed patch is delivered by the assemble after `n` further ones exactly if it
   is alive then: once if transient, in the next ttl + 1 assembles if it has a
   time to live, and always if it has none.
   */
  lemma DeliveredExactlyWhileAlive(b: Buffer, life: Lifecycle, body: string, ops: seq<Op>)
    requires BufferOk(b)
    ensures Delivers(Run(After(b, Push(life, body)), ops), b.pushed) <==> Alive(life, Assembles(ops))
  {
    StepKeeps(b, Push(life, body));
    WaitsWhileAlive(After(b, Push(life, body)), ops, Patch(b.pushed, false, life, body));
  }

  /** After any run every delivery is in push order and holds at most one delta. */
  lemma DeliveriesAreOrdered(ops: seq<Op>)
    ensures InPushOrder(Run(Buffer([], 0), ops).patches)
    ensures forall i, j :: 0 <= i < j < |Run(Buffer([], 0), ops).patches| ==>
      !(Run(Buffer([], 0), ops).patches[i].delta && Run(Buffer([], 0), ops).patches[j].delta)
  {
    RunKeeps(Buffer([], 0), ops);
  }

  predicate Quiet(op: Op) { op.Push? || (op.PushDelta? && op.empty) }

  /** A waiting delta is always the latest pushed one, and it waits until it is delivered or replaced. */
  lemma {:induction false} DeltaIsLatest(b: Buffer, body: string, ops: seq<Op>)
    requires BufferOk(b)
    ensures Delivers(Run(After(b, PushDelta(body, false)), ops), b.pushed) <==> forall i :: 0 <= i < |ops| ==> Quiet(ops[i])
    ensures Delivers(Run(After(b, PushDelta(body, false)), ops), b.pushed) ==>
      Find(Run(After(b, PushDelta(body, false)), ops).patches, b.pushed) == Some(Patch(b.pushed, true, Transient, body))
    ensures Run(After(b, PushDelta(body, false)), ops).pushed > b.pushed
  {
    var s := After(b, PushDelta(body, false));
    StepKeeps(b, PushDelta(body, false));
    if |ops| > 0 {
      var init, op := ops[..|ops| - 1], ops[|ops| - 1];
      DeltaIsLatest(b, body, init);
      RunKeeps(s, init);
      FindAfter(Run(s, init), op, b.pushed);
      assert (forall i :: 0 <= i < |ops| ==> Quiet(ops[i])) <==> (forall i :: 0 <= i < |init| ==> Quiet(init[i])) && Quiet(op) by {
        assert forall i :: 0 <= i < |init| ==> init[i] == ops[i];
        if (forall i :: 0 <= i < |init| ==> Quiet(init[i])) && Quiet(op) {
          forall i | 0 <= i < |ops| ensures Quiet(ops[i]) { if i < |init| { assert Quiet(init[i]); } }
        }
        if forall i :: 0 <= i < |ops| ==> Quiet(ops[i]) {
          forall i | 0 <= i < |init| ensures Quiet(init[i]) { assert Quiet(ops[i]); }
        }
      }
    }
  }
}
