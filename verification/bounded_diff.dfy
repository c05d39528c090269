/** The walk that builds a patch while enforcing operation and byte limits
    (`diffJson` and `createBoundedValidatedJsonPatch` in src/observation-codec.ts). */
module BoundedDiff {
  import opened CodePoints
  import opened CanonicalJson
  import opened JsonPointer
  import opened Wrappers
  import opened ObservationCodec
  import opened Utf8

  /** `parts.join(',')` */
  function Join(parts: seq<string>): string {
    if parts == [] then "" else if |parts| == 1 then parts[0] else parts[0] + "," + Join(parts[1..])
  }

  function OperationTexts(ops: seq<Operation>): seq<string> {
    if ops == [] then [] else [Canonical(OperationJson(ops[0]))] + OperationTexts(ops[1..])
  }

  /** The canonical text of a whole patch, as if `canonicalJson` were called on the array. */
  function PatchText(ops: seq<Operation>): string { Canonical(Arr(OperationsJson(ops))) }

  function PatchBytes(ops: seq<Operation>): nat { Utf8Length(PatchText(ops)) }

  lemma {:induction false} JoinIsItems(ops: seq<Operation>)
    ensures |OperationTexts(ops)| == |OperationsJson(ops)| == |ops|
    ensures Join(OperationTexts(ops)) == CanonicalItems(OperationsJson(ops))
  {
    if ops != [] {
      JoinIsItems(ops[1..]);
      assert OperationTexts(ops)[1..] == OperationTexts(ops[1..]);
      assert OperationsJson(ops)[1..] == OperationsJson(ops[1..]);
    }
  }

  lemma {:induction false} OperationTextsAppend(ops: seq<Operation>, op: Operation)
    ensures OperationTexts(ops + [op]) == OperationTexts(ops) + [Canonical(OperationJson(op))]
  {
    if ops == [] {
      assert ops + [op] == [op] && [op][1..] == [];
    } else {
      assert (ops + [op])[1..] == ops[1..] + [op];
      OperationTextsAppend(ops[1..], op);
    }
  }

  lemma {:induction false} JoinAppend(parts: seq<string>, part: string)
    ensures Utf8Length(Join(parts + [part]))
         == Utf8Length(Join(parts)) + (if parts == [] then 0 else 1) + Utf8Length(part)
  {
    if parts == [] {
      assert parts + [part] == [part];
    } else {
      assert (parts + [part])[1..] == parts[1..] + [part];
      JoinAppend(parts[1..], part);
      JoinCons(parts[0], parts[1..] + [part]);
      if |parts| > 1 { JoinCons(parts[0], parts[1..]); }
      assert parts == [parts[0]] + parts[1..];
      assert Join(parts + [part]) == Join([parts[0]] + (parts[1..] + [part]))
        by { assert parts + [part] == [parts[0]] + (parts[1..] + [part]); }
    }
  }

  lemma JoinCons(part: string, parts: seq<string>)
    requires parts != []
    ensures Utf8Length(Join([part] + parts)) == Utf8Length(part) + 1 + Utf8Length(Join(parts))
  {
    assert ([part] + parts)[1..] == parts;
    Utf8Append(part + ",", Join(parts));
    Utf8Append(part, ",");
    assert ","[1..] == [];
  }

  lemma PatchBytesJoin(ops: seq<Operation>)
    ensures PatchText(ops) == "[" + Join(OperationTexts(ops)) + "]"
    ensures PatchBytes(ops) == 2 + Utf8Length(Join(OperationTexts(ops)))
  {
    JoinIsItems(ops);
    Utf8Append("[" + Join(OperationTexts(ops)), "]");
    Utf8Append("[", Join(OperationTexts(ops)));
    assert "["[1..] == [] && "]"[1..] == [];
  }

  /** One more operation costs its own text and, unless it is the first, a comma. */
  lemma PatchBytesAppend(ops: seq<Operation>, op: Operation)
    ensures PatchBytes(ops + [op])
         == PatchBytes(ops) + (if ops == [] then 0 else 1) + Utf8Length(Canonical(OperationJson(op)))
  {
    PatchBytesJoin(ops);
    PatchBytesJoin(ops + [op]);
    OperationTextsAppend(ops, op);
    JoinIsItems(ops);
    JoinAppend(OperationTexts(ops), Canonical(OperationJson(op)));
  }

  // ---- Limits ----

  datatype Limits = Limits(maxOperations: Option<nat>, maxBytes: Option<nat>, canonical: bool) {
    predicate Counting() { canonical || maxBytes.Some? }
  }

  /** Both limits allow this patch; the walk never rejects the empty one. */
  predicate Fits(limits: Limits, ops: seq<Operation>) {
    ops == []
    || ((limits.maxOperations.Some? ==> |ops| <= limits.maxOperations.value)
        && (limits.maxBytes.Some? ==> PatchBytes(ops) <= limits.maxBytes.value))
  }

  lemma {:induction false} FitsPrefix(limits: Limits, a: seq<Operation>, b: seq<Operation>)
    requires Fits(limits, a + b)
    ensures Fits(limits, a)
    decreases |b|
  {
    if b == [] {
      assert a + b == a;
    } else {
      var front := a + b[..|b| - 1];
      assert a + b == front + [b[|b| - 1]];
      PatchBytesAppend(front, b[|b| - 1]);
      FitsPrefix(limits, a, b[..|b| - 1]);
    }
  }

  /** A walk that would emit `w`, started with `before` already emitted, ended like this: over a
      limit, stopped by a refused key, or complete. */
  predicate Outcome(
    limits: Limits, before: seq<Operation>, w: Walk, exceeded: bool, safe: bool, after: seq<Operation>)
  {
    && (exceeded <==> !Fits(limits, before + w.ops))
    && (exceeded ==> safe)
    && (!exceeded ==> after == before + w.ops && safe == w.safe)
  }

  lemma OutcomeThen(
    limits: Limits, before: seq<Operation>, v: Walk, mid: seq<Operation>, w: Walk,
    exceeded: bool, safe: bool, after: seq<Operation>)
    requires Outcome(limits, before, v, false, true, mid) && Outcome(limits, mid, w, exceeded, safe, after)
    ensures Outcome(limits, before, v.Then(w), exceeded, safe, after)
  {
    assert before + (v.ops + w.ops) == before + v.ops + w.ops;
  }

  lemma OutcomeStop(
    limits: Limits, before: seq<Operation>, v: Walk, w: Walk,
    exceeded: bool, safe: bool, after: seq<Operation>)
    requires Outcome(limits, before, v, exceeded, safe, after) && (exceeded || !safe)
    ensures Outcome(limits, before, v.Then(w), exceeded, safe, after)
  {
    if exceeded && v.safe {
      assert before + (v.ops + w.ops) == before + v.ops + w.ops;
      if Fits(limits, before + v.ops + w.ops) { FitsPrefix(limits, before + v.ops, w.ops); }
    }
  }

  /** From `now`, emitting `rest` completes the walk that emits `w` from `start`. */
  predicate Remaining(start: seq<Operation>, w: Walk, now: seq<Operation>, rest: Walk) {
    start + w.ops == now + rest.ops && w.safe == rest.safe
  }

  lemma RemainingOutcome(
    limits: Limits, start: seq<Operation>, w: Walk, now: seq<Operation>, rest: Walk,
    exceeded: bool, safe: bool, after: seq<Operation>)
    requires Remaining(start, w, now, rest) && Outcome(limits, now, rest, exceeded, safe, after)
    ensures Outcome(limits, start, w, exceeded, safe, after)
  {
  }

  lemma RemainingStep(
    start: seq<Operation>, w: Walk, now: seq<Operation>, first: Walk, later: Walk)
    requires Remaining(start, w, now, first.Then(later)) && first.safe
    ensures Remaining(start, w, now + first.ops, later)
  {
    assert now + (first.ops + later.ops) == now + first.ops + later.ops;
  }

  lemma RemainingDone(start: seq<Operation>, w: Walk, now: seq<Operation>)
    requires Remaining(start, w, now, Walk([], true))
    ensures start + w.ops == now && w.safe
  {
    assert now + [] == now;
  }

  class DiffWalk {
    const limits: Limits
    var operations: seq<Operation>
    var canonicalOperations: seq<string>
    var canonicalBytes: nat
    var exceeded: bool

    ghost predicate Valid()
      reads this
    {
      !exceeded ==>
        && Fits(limits, operations)
        && (limits.Counting() ==>
              canonicalOperations == OperationTexts(operations) && canonicalBytes == PatchBytes(operations))
    }

    constructor (limits: Limits)
      ensures Valid() && !exceeded && operations == [] && this.limits == limits
    {
      this.limits := limits;
      operations, canonicalOperations, canonicalBytes, exceeded := [], [], 2, false;
      new;
      PatchBytesJoin([]);
    }

    method Emit(operation: Operation)
      requires Valid()
      modifies this
      ensures Valid()
      ensures exceeded <==> old(exceeded) || !Fits(limits, old(operations) + [operation])
      ensures operations == old(operations) + if exceeded then [] else [operation]
    {
      if exceeded { return; }
      PatchBytesAppend(operations, operation);
      if limits.maxOperations.Some? && |operations| >= limits.maxOperations.value {
        exceeded := true;
        return;
      }
      if limits.canonical || limits.maxBytes.Some? {
        var encoded := Canonical(OperationJson(operation));
        OperationTextsAppend(operations, operation);
        JoinIsItems(operations);
        var nextBytes := canonicalBytes + (if |canonicalOperations| == 0 then 0 else 1) + Utf8Length(encoded);
        if limits.maxBytes.Some? && nextBytes > limits.maxBytes.value {
          exceeded := true;
          return;
        }
        canonicalOperations := canonicalOperations + [encoded];
        canonicalBytes := nextBytes;
      }
      operations := operations + [operation];
    }

    method EmitRemove(key: string, kept: set<string>, path: string) returns (safe: bool)
      requires Valid() && !exceeded
      modifies this
      ensures Valid()
      ensures Outcome(limits, old(operations), DiffRemove(key, kept, path), exceeded, safe, operations)
    {
      assert operations + [] == operations;
      if key in kept { return true; }
      var token := PointerToken(key);
      if token.None? { return false; }
      Emit(Remove(path + "/" + token.value));
      return true;
    }

    method EmitRemoves(keys: seq<string>, kept: set<string>, path: string) returns (safe: bool)
      requires Valid() && !exceeded
      modifies this
      ensures Valid()
      ensures Outcome(limits, old(operations), DiffRemoves(keys, kept, path), exceeded, safe, operations)
    {
      ghost var w := DiffRemoves(keys, kept, path);
      ghost var start := operations;
      for i := 0 to |keys|
        invariant Valid() && !exceeded
        invariant Remaining(start, w, operations, DiffRemoves(keys[i..], kept, path))
      {
        ghost var before := operations;
        ghost var first, later := DiffRemove(keys[i], kept, path), DiffRemoves(keys[i + 1..], kept, path);
        assert Remaining(start, w, before, first.Then(later)) by { assert keys[i..][1..] == keys[i + 1..]; }
        safe := EmitRemove(keys[i], kept, path);
        if exceeded || !safe {
          OutcomeStop(limits, before, first, later, exceeded, safe, operations);
          RemainingOutcome(limits, start, w, before, first.Then(later), exceeded, safe, operations);
          return;
        }
        RemainingStep(start, w, before, first, later);
      }
      RemainingDone(start, w, operations);
      return true;
    }

    method Visit(left: Json, right: Json, path: string) returns (safe: bool)
      requires Valid()
      modifies this
      ensures Valid()
      ensures old(exceeded) ==> exceeded && safe
      ensures !old(exceeded) ==> Outcome(limits, old(operations), Diff(left, right, path), exceeded, safe, operations)
      decreases left, 1
    {
      if exceeded { return true; }
      if JsonEqual(left, right) { return true; }
      if !left.Obj? || !right.Obj? {
        Emit(Replace(path, right));
        return true;
      }
      ghost var start := operations;
      ghost var removes := DiffRemoves(Sorted(left.fields.Keys), right.fields.Keys, path);
      ghost var members := DiffMembers(left, right, Sorted(right.fields.Keys), path);
      safe := EmitRemoves(Sorted(left.fields.Keys), right.fields.Keys, path);
      if exceeded || !safe {
        OutcomeStop(limits, start, removes, members, exceeded, safe, operations);
        return;
      }
      ghost var mid := operations;
      safe := VisitMembers(left, right, Sorted(right.fields.Keys), path);
      OutcomeThen(limits, start, removes, mid, members, exceeded, safe, operations);
    }

    method VisitMembers(left: Json, right: Json, keys: seq<string>, path: string) returns (safe: bool)
      requires Valid() && !exceeded
      requires left.Obj? && right.Obj? && forall k :: k in keys ==> k in right.fields
      modifies this
      ensures Valid()
      ensures Outcome(limits, old(operations), DiffMembers(left, right, keys, path), exceeded, safe, operations)
      decreases left, 0
    {
      ghost var w := DiffMembers(left, right, keys, path);
      ghost var start := operations;
      for i := 0 to |keys|
        invariant Valid() && !exceeded
        invariant Remaining(start, w, operations, DiffMembers(left, right, keys[i..], path))
      {
        ghost var before := operations;
        ghost var first, later := DiffMember(left, right, keys[i], path), DiffMembers(left, right, keys[i + 1..], path);
        assert Remaining(start, w, before, first.Then(later)) by { assert keys[i..][1..] == keys[i + 1..]; }
        safe := VisitMember(left, right, keys[i], path);
        if exceeded || !safe {
          OutcomeStop(limits, before, first, later, exceeded, safe, operations);
          RemainingOutcome(limits, start, w, before, first.Then(later), exceeded, safe, operations);
          return;
        }
        RemainingStep(start, w, before, first, later);
      }
      RemainingDone(start, w, operations);
      return true;
    }

    method VisitMember(left: Json, right: Json, key: string, path: string) returns (safe: bool)
      requires Valid() && !exceeded
      requires left.Obj? && right.Obj? && key in right.fields
      modifies this
      ensures Valid()
      ensures Outcome(limits, old(operations), DiffMember(left, right, key, path), exceeded, safe, operations)
      decreases left, 0, 0
    {
      var token := PointerToken(key);
      if token.None? {
        assert operations + [] == operations;
        return false;
      }
      var childPath := path + "/" + token.value;
      if key !in left.fields {
        Emit(Add(childPath, right.fields[key]));
        return true;
      }
      safe := Visit(left.fields[key], right.fields[key], childPath);
    }
  }

  datatype BoundedPatch =
    | Patch(operations: seq<Operation>, canonical: string, bytes: nat)
    | Abandoned   // null: a limit was exceeded
    | Unsafe      // thrown: a refused key

  /** What the bounded walk answers, stated on the unbounded patch. */
  function BoundedResult(previous: Json, next: Json, maxOperations: nat, maxBytes: nat): BoundedPatch {
    var w := Diff(previous, next, "");
    if !Fits(Limits(Some(maxOperations), Some(maxBytes), true), w.ops) then Abandoned
    else if !w.safe then Unsafe
    else Patch(w.ops, PatchText(w.ops), PatchBytes(w.ops))
  }

  /** `createBoundedValidatedJsonPatch` */
  method CreateBoundedValidatedJsonPatch(previous: Json, next: Json, maxOperations: nat, maxBytes: nat)
    returns (result: BoundedPatch)
    ensures result == BoundedResult(previous, next, maxOperations, maxBytes)
  {
    var walk := new DiffWalk(Limits(Some(maxOperations), Some(maxBytes), true));
    var safe := walk.Visit(previous, next, "");
    assert [] + Diff(previous, next, "").ops == Diff(previous, next, "").ops;
    if walk.exceeded { return Abandoned; }
    if !safe { return Unsafe; }
    PatchBytesJoin(walk.operations);
    return Patch(walk.operations, "[" + Join(walk.canonicalOperations) + "]", walk.canonicalBytes);
  }

  /** `createJsonPatch`: no limit supplied, so the walk is never abandoned. */
  method CreatePatchByWalk(previous: Json, next: Json) returns (result: Option<seq<Operation>>)
    ensures result == CreateJsonPatch(previous, next)
  {
    var walk := new DiffWalk(Limits(None, None, false));
    var safe := walk.Visit(previous, next, "");
    assert [] + Diff(previous, next, "").ops == Diff(previous, next, "").ops;
    return if safe then Some(walk.operations) else None;
  }

  /** A bounded patch is the unbounded one, within both limits, with its exact canonical text
      and byte count, and it takes the old view to the new one. Limits below two bytes included:
      only the empty patch is not held to them. */
  lemma BoundedPatchExact(previous: Json, next: Json, maxOperations: nat, maxBytes: nat)
    ensures var r := BoundedResult(previous, next, maxOperations, maxBytes);
      && (r.Patch? ==>
            && CreateJsonPatch(previous, next) == Some(r.operations)
            && Apply(previous, r.operations) == Some(next)
            && r.canonical == Canonical(Arr(OperationsJson(r.operations)))
            && r.bytes == Utf8Length(r.canonical)
            && |r.operations| <= maxOperations && (maxBytes >= 2 ==> r.bytes <= maxBytes))
      && (r.Unsafe? ==> CreateJsonPatch(previous, next) == None)
  {
    PatchRoundTrip(previous, next);
    PatchBytesJoin([]);
  }

  /** With limits of at least two bytes and no refused key, the walk answers null exactly when
      the plain patch breaks a limit. */
  lemma AbandonedExactly(previous: Json, next: Json, maxOperations: nat, maxBytes: nat)
    requires maxBytes >= 2 && CreateJsonPatch(previous, next).Some?
    ensures var ops := CreateJsonPatch(previous, next).value;
      BoundedResult(previous, next, maxOperations, maxBytes).Abandoned?
      <==> |ops| > maxOperations || PatchBytes(ops) > maxBytes
  {
    PatchBytesJoin([]);
  }
}
