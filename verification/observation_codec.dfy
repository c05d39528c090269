/** The structural diff of src/observation-codec.ts, the patch it emits (the add, replace and
    remove operations of section 4 of RFC 6902) and the operation that applies a patch. */
module ObservationCodec {
  import opened CodePoints
  import opened CanonicalJson
  import opened JsonPointer
  import opened Wrappers

  datatype Operation =
    | Add(path: string, value: Json)
    | Replace(path: string, value: Json)
    | Remove(path: string)

  function OperationJson(op: Operation): Json {
    match op
    case Add(path, value) => Obj(map["op" := Str("add"), "path" := Str(path), "value" := value])
    case Replace(path, value) => Obj(map["op" := Str("replace"), "path" := Str(path), "value" := value])
    case Remove(path) => Obj(map["op" := Str("remove"), "path" := Str(path)])
  }

  function OperationsJson(ops: seq<Operation>): seq<Json> {
    if ops == [] then [] else [OperationJson(ops[0])] + OperationsJson(ops[1..])
  }

  /** What a walk emits before it ends, and whether it ended without meeting a refused key. */
  datatype Walk = Walk(ops: seq<Operation>, safe: bool) {
    function Then(next: Walk): Walk {
      if safe then Walk(ops + next.ops, next.safe) else this
    }
  }

  function ChildPath(path: string, key: string): string {
    path + "/" + EscapeToken(key)
  }

  /** `visit` of `diffJson` with no limits. */
  function Diff(left: Json, right: Json, path: string): Walk
    decreases left, 1, 0
  {
    if JsonEqual(left, right) then Walk([], true)
    else if !left.Obj? || !right.Obj? then Walk([Replace(path, right)], true)
    else
      var removes := DiffRemoves(Sorted(left.fields.Keys), right.fields.Keys, path);
      removes.Then(DiffMembers(left, right, Sorted(right.fields.Keys), path))
  }

  function DiffRemoves(keys: seq<string>, kept: set<string>, path: string): Walk {
    if keys == [] then Walk([], true)
    else DiffRemove(keys[0], kept, path).Then(DiffRemoves(keys[1..], kept, path))
  }

  function DiffRemove(key: string, kept: set<string>, path: string): Walk {
    if key in kept then Walk([], true)
    else if key in FORBIDDEN then Walk([], false)
    else Walk([Remove(ChildPath(path, key))], true)
  }

  function DiffMembers(left: Json, right: Json, keys: seq<string>, path: string): Walk
    requires left.Obj? && right.Obj? && forall k :: k in keys ==> k in right.fields
    decreases left, 0, |keys|
  {
    if keys == [] then Walk([], true)
    else DiffMember(left, right, keys[0], path).Then(DiffMembers(left, right, keys[1..], path))
  }

  function DiffMember(left: Json, right: Json, key: string, path: string): Walk
    requires left.Obj? && right.Obj? && key in right.fields
    decreases left, 0, 0
  {
    if key in FORBIDDEN then Walk([], false)
    else if key !in left.fields then Walk([Add(ChildPath(path, key), right.fields[key])], true)
    else Diff(left.fields[key], right.fields[key], ChildPath(path, key))
  }

  /** `createJsonPatch`: None is the thrown "unsafe JSON Pointer token". */
  function CreateJsonPatch(previous: Json, next: Json): Option<seq<Operation>> {
    var w := Diff(previous, next, "");
    if w.safe then Some(w.ops) else None
  }

  // ---- Applying a patch ----

  /** One edit below an object; None is any of the thrown path errors. */
  function Edit(root: Json, tokens: seq<string>, op: Operation): Option<Json>
    requires tokens != []
    decreases tokens
  {
    var key := tokens[0];
    if !root.Obj? then None
    else if |tokens| > 1 then
      if key !in root.fields then None
      else match Edit(root.fields[key], tokens[1..], op)
        case Some(child) => Some(Obj(root.fields[key := child]))
        case None => None
    else match op
      case Remove(_) => if key in root.fields then Some(Obj(root.fields - {key})) else None
      case Replace(_, value) => if key in root.fields then Some(Obj(root.fields[key := value])) else None
      case Add(_, value) => Some(Obj(root.fields[key := value]))
  }

  function ApplyOne(root: Json, op: Operation): Option<Json> {
    match DecodePointer(op.path)
    case None => None
    case Some(tokens) =>
      if tokens == [] then (if op.Remove? then None else Some(op.value)) else Edit(root, tokens, op)
  }

  function Apply(root: Json, ops: seq<Operation>): Option<Json>
    decreases |ops|
  {
    if ops == [] then Some(root)
    else match ApplyOne(root, ops[0])
      case None => None
      case Some(next) => Apply(next, ops[1..])
  }

  /** `applyJsonPatch`: the loop over operations; None is a thrown error. */
  method ApplyJsonPatch(previous: Json, operations: seq<Operation>) returns (result: Option<Json>)
    ensures result == Apply(previous, operations)
  {
    var root := previous;
    for i := 0 to |operations|
      invariant Apply(previous, operations) == Apply(root, operations[i..])
    {
      var step := ApplyOne(root, operations[i]);
      if step == None { return None; }
      root := step.value;
      assert operations[i..][1..] == operations[i + 1..];
    }
    return Some(root);
  }

  // ---- The patch takes the old view to the new one ----

  lemma {:induction false} ApplyAppend(root: Json, a: seq<Operation>, b: seq<Operation>)
    ensures Apply(root, a + b)
         == match Apply(root, a) case Some(mid) => Apply(mid, b) case None => None
    decreases |a|
  {
    if a == [] {
      assert a + b == b;
    } else {
      assert (a + b)[1..] == a[1..] + b;
      var step := ApplyOne(root, a[0]);
      if step.Some? { ApplyAppend(step.value, a[1..], b); }
    }
  }

  function Rebase(prefix: string, op: Operation): Operation {
    op.(path := prefix + op.path)
  }

  function RebaseAll(prefix: string, ops: seq<Operation>): seq<Operation> {
    if ops == [] then [] else [Rebase(prefix, ops[0])] + RebaseAll(prefix, ops[1..])
  }

  lemma {:induction false} RebaseAppend(prefix: string, a: seq<Operation>, b: seq<Operation>)
    ensures RebaseAll(prefix, a + b) == RebaseAll(prefix, a) + RebaseAll(prefix, b)
  {
    if a == [] {
      assert a + b == b;
    } else {
      assert (a + b)[1..] == a[1..] + b;
      RebaseAppend(prefix, a[1..], b);
    }
  }

  lemma RebaseOne(prefix: string, op: Operation)
    ensures RebaseAll(prefix, [op]) == [Rebase(prefix, op)]
  {
    assert [op][1..] == [];
  }

  predicate ValidPath(path: string) { path == "" || path[0] == '/' }

  predicate ValidPaths(ops: seq<Operation>) {
    forall i :: 0 <= i < |ops| ==> ValidPath(ops[i].path)
  }

  function RebaseWalk(prefix: string, w: Walk): Walk { Walk(RebaseAll(prefix, w.ops), w.safe) }

  lemma RebaseThen(prefix: string, v: Walk, w: Walk)
    ensures RebaseWalk(prefix, v.Then(w)) == RebaseWalk(prefix, v).Then(RebaseWalk(prefix, w))
  {
    RebaseAppend(prefix, v.ops, w.ops);
  }

  lemma ChildPathRebase(prefix: string, path: string, key: string)
    ensures ChildPath(prefix + path, key) == prefix + ChildPath(path, key)
    ensures ValidPath(path) ==> ValidPath(ChildPath(path, key))
  {
  }

  /** A walk does not look at its path, it only prepends it. */
  lemma {:induction false} DiffRebase(left: Json, right: Json, prefix: string, path: string)
    requires ValidPath(path)
    ensures Diff(left, right, prefix + path) == RebaseWalk(prefix, Diff(left, right, path))
    ensures ValidPaths(Diff(left, right, path).ops)
    decreases left, 1, 0
  {
    if JsonEqual(left, right) {
    } else if !left.Obj? || !right.Obj? {
      RebaseOne(prefix, Replace(path, right));
    } else {
      var p, q := Sorted(left.fields.Keys), Sorted(right.fields.Keys);
      DiffRemovesRebase(p, right.fields.Keys, prefix, path);
      DiffMembersRebase(left, right, q, prefix, path);
      RebaseThen(prefix, DiffRemoves(p, right.fields.Keys, path), DiffMembers(left, right, q, path));
    }
  }

  lemma {:induction false} DiffRemovesRebase(keys: seq<string>, kept: set<string>, prefix: string, path: string)
    requires ValidPath(path)
    ensures DiffRemoves(keys, kept, prefix + path) == RebaseWalk(prefix, DiffRemoves(keys, kept, path))
    ensures ValidPaths(DiffRemoves(keys, kept, path).ops)
  {
    if keys != [] {
      DiffRemovesRebase(keys[1..], kept, prefix, path);
      ChildPathRebase(prefix, path, keys[0]);
      if keys[0] !in kept && keys[0] !in FORBIDDEN { RebaseOne(prefix, Remove(ChildPath(path, keys[0]))); }
      RebaseThen(prefix, DiffRemove(keys[0], kept, path), DiffRemoves(keys[1..], kept, path));
    }
  }

  lemma {:induction false} DiffMembersRebase(
    left: Json, right: Json, keys: seq<string>, prefix: string, path: string)
    requires left.Obj? && right.Obj? && (forall k :: k in keys ==> k in right.fields) && ValidPath(path)
    ensures DiffMembers(left, right, keys, prefix + path)
         == RebaseWalk(prefix, DiffMembers(left, right, keys, path))
    ensures ValidPaths(DiffMembers(left, right, keys, path).ops)
    decreases left, 0, |keys|
  {
    if keys != [] {
      var k := keys[0];
      ChildPathRebase(prefix, path, k);
      if k in left.fields && k !in FORBIDDEN {
        DiffRebase(left.fields[k], right.fields[k], prefix, ChildPath(path, k));
      }
      DiffMembersRebase(left, right, keys[1..], prefix, path);
      RebaseThen(prefix, DiffMember(left, right, k, path), DiffMembers(left, right, keys[1..], path));
    }
  }

  /** An operation moved under key `k` edits only the value at `k`. */
  lemma ApplyUnder(fields: map<string, Json>, k: string, op: Operation)
    requires k in fields && k !in FORBIDDEN && ValidPath(op.path)
    requires ApplyOne(fields[k], op).Some?
    ensures ApplyOne(Obj(fields), Rebase(ChildPath("", k), op))
         == Some(Obj(fields[k := ApplyOne(fields[k], op).value]))
  {
    DecodeUnder(k, op.path);
    var tokens := DecodePointer(op.path).value;
    assert ([k] + tokens)[1..] == tokens;
    assert ChildPath("", k) + op.path == "/" + EscapeToken(k) + op.path;
    assert DecodePointer(Rebase(ChildPath("", k), op).path) == Some([k] + tokens);
    if tokens != [] {
      EditCongruent(fields[k], tokens, op, Rebase(ChildPath("", k), op));
    }
  }

  lemma {:induction false} EditCongruent(root: Json, tokens: seq<string>, op: Operation, op': Operation)
    requires tokens != [] && exists prefix :: op' == Rebase(prefix, op)
    ensures Edit(root, tokens, op) == Edit(root, tokens, op')
  {
    if |tokens| > 1 && root.Obj? && tokens[0] in root.fields {
      EditCongruent(root.fields[tokens[0]], tokens[1..], op, op');
    }
  }

  lemma {:induction false} ApplyAllUnder(fields: map<string, Json>, k: string, ops: seq<Operation>)
    requires k in fields && k !in FORBIDDEN && ValidPaths(ops)
    requires Apply(fields[k], ops).Some?
    ensures Apply(Obj(fields), RebaseAll(ChildPath("", k), ops))
         == Some(Obj(fields[k := Apply(fields[k], ops).value]))
    decreases |ops|
  {
    if ops == [] {
      assert fields[k := fields[k]] == fields;
    } else {
      var step := ApplyOne(fields[k], ops[0]).value;
      var mid := fields[k := step];
      ApplyUnder(fields, k, ops[0]);
      ApplyAllUnder(mid, k, ops[1..]);
      assert mid[k := Apply(step, ops[1..]).value] == fields[k := Apply(step, ops[1..]).value];
      ApplyStep(Obj(fields), Rebase(ChildPath("", k), ops[0]), RebaseAll(ChildPath("", k), ops[1..]));
    }
  }

  lemma ApplyStep(root: Json, op: Operation, ops: seq<Operation>)
    ensures Apply(root, [op] + ops)
         == match ApplyOne(root, op) case Some(next) => Apply(next, ops) case None => None
  {
    assert ([op] + ops)[1..] == ops;
  }

  lemma EditTop(fields: map<string, Json>, k: string, op: Operation)
    requires k !in FORBIDDEN && op.path == ChildPath("", k)
    ensures op.Remove? && k in fields ==> ApplyOne(Obj(fields), op) == Some(Obj(fields - {k}))
    ensures op.Add? ==> ApplyOne(Obj(fields), op) == Some(Obj(fields[k := op.value]))
  {
    DecodeUnder(k, "");
    assert ChildPath("", k) == "/" + EscapeToken(k) + "";
  }

  predicate Distinct(keys: seq<string>) {
    forall i, j :: 0 <= i < j < |keys| ==> keys[i] != keys[j]
  }

  lemma SortedDistinct(s: set<string>)
    ensures Distinct(Sorted(s)) && Elems(Sorted(s)) == s
  {
    forall i, j | 0 <= i < j < |Sorted(s)| ensures Sorted(s)[i] != Sorted(s)[j] {
      PrecedesIrreflexive(Sorted(s)[i]);
    }
  }

  function Elems(keys: seq<string>): set<string> { set k | k in keys }

  lemma DistinctTail(keys: seq<string>)
    requires Distinct(keys) && keys != []
    ensures Distinct(keys[1..]) && keys[0] !in Elems(keys[1..])
    ensures Elems(keys) == {keys[0]} + Elems(keys[1..])
  {
    assert keys == [keys[0]] + keys[1..];
  }

  function AfterRemoves(fields: map<string, Json>, keys: set<string>, kept: set<string>): map<string, Json> {
    map k | k in fields && (k in kept || k !in keys) :: fields[k]
  }

  lemma {:induction false} RemovesApply(fields: map<string, Json>, keys: seq<string>, kept: set<string>)
    requires Distinct(keys) && Elems(keys) <= fields.Keys
    requires DiffRemoves(keys, kept, "").safe
    ensures Apply(Obj(fields), DiffRemoves(keys, kept, "").ops)
         == Some(Obj(AfterRemoves(fields, Elems(keys), kept)))
  {
    if keys == [] {
      assert fields == AfterRemoves(fields, Elems(keys), kept);
    } else {
      DistinctTail(keys);
      if keys[0] in kept {
        RemovesApply(fields, keys[1..], kept);
        assert [] + DiffRemoves(keys[1..], kept, "").ops == DiffRemoves(keys[1..], kept, "").ops;
        assert AfterRemoves(fields, Elems(keys[1..]), kept) == AfterRemoves(fields, Elems(keys), kept);
      } else {
        var op := Remove(ChildPath("", keys[0]));
        var mid := fields - {keys[0]};
        EditTop(fields, keys[0], op);
        RemovesApply(mid, keys[1..], kept);
        assert AfterRemoves(mid, Elems(keys[1..]), kept) == AfterRemoves(fields, Elems(keys), kept);
        ApplyStep(Obj(fields), op, DiffRemoves(keys[1..], kept, "").ops);
      }
    }
  }

  function Overlay(fields: map<string, Json>, from: map<string, Json>, keys: set<string>): map<string, Json>
    requires keys <= from.Keys
  {
    fields + map k | k in keys :: from[k]
  }

  /** `fields` still holds the old value of every key in `keys`. */
  predicate Untouched(fields: map<string, Json>, before: map<string, Json>, keys: set<string>) {
    forall k :: k in keys ==> (k in fields <==> k in before) && (k in fields ==> fields[k] == before[k])
  }

  lemma OverlayStep(fields: map<string, Json>, from: map<string, Json>, k: string, keys: set<string>)
    requires keys <= from.Keys && k in from
    ensures Overlay(fields[k := from[k]], from, keys) == Overlay(fields, from, {k} + keys)
  {
  }

  lemma {:induction false} MembersApply(
    left: Json, right: Json, fields: map<string, Json>, keys: seq<string>)
    requires left.Obj? && right.Obj? && Distinct(keys) && forall k :: k in keys ==> k in right.fields
    requires Untouched(fields, left.fields, Elems(keys))
    requires DiffMembers(left, right, keys, "").safe
    ensures Elems(keys) <= right.fields.Keys
    ensures Apply(Obj(fields), DiffMembers(left, right, keys, "").ops)
         == Some(Obj(Overlay(fields, right.fields, Elems(keys))))
    decreases left, 0, |keys|
  {
    if keys == [] {
      assert Overlay(fields, right.fields, {}) == fields;
    } else {
      var k, from := keys[0], right.fields;
      DistinctTail(keys);
      MemberApplies(left, right, fields, k);
      MembersApply(left, right, fields[k := from[k]], keys[1..]);
      OverlayStep(fields, from, k, Elems(keys[1..]));
      ApplyAppend(Obj(fields), DiffMember(left, right, k, "").ops, DiffMembers(left, right, keys[1..], "").ops);
    }
  }

  lemma {:induction false} MemberApplies(left: Json, right: Json, fields: map<string, Json>, k: string)
    requires left.Obj? && right.Obj? && k in right.fields
    requires (k in fields <==> k in left.fields) && (k in fields ==> fields[k] == left.fields[k])
    requires DiffMember(left, right, k, "").safe
    ensures Apply(Obj(fields), DiffMember(left, right, k, "").ops)
         == Some(Obj(fields[k := right.fields[k]]))
    decreases left, 0, 0
  {
    if k in left.fields {
      DiffRebase(left.fields[k], right.fields[k], ChildPath("", k), "");
      assert ChildPath("", k) + "" == ChildPath("", k);
      DiffApplies(left.fields[k], right.fields[k]);
      ApplyAllUnder(fields, k, Diff(left.fields[k], right.fields[k], "").ops);
    } else {
      EditTop(fields, k, Add(ChildPath("", k), right.fields[k]));
    }
  }

  lemma {:induction false} DiffApplies(left: Json, right: Json)
    requires Diff(left, right, "").safe
    ensures Apply(left, Diff(left, right, "").ops) == Some(right)
    decreases left, 2
  {
    JsonEqualIsEquality(left, right);
    if JsonEqual(left, right) {
    } else if !left.Obj? || !right.Obj? {
      assert [Replace("", right)][1..] == [];
    } else {
      ObjectDiffApplies(left, right);
    }
  }

  lemma {:induction false} ObjectDiffApplies(left: Json, right: Json)
    requires left.Obj? && right.Obj? && !JsonEqual(left, right) && Diff(left, right, "").safe
    ensures Apply(left, Diff(left, right, "").ops) == Some(right)
    decreases left, 1
  {
    var p, q, kept := Sorted(left.fields.Keys), Sorted(right.fields.Keys), right.fields.Keys;
    var removes, members := DiffRemoves(p, kept, ""), DiffMembers(left, right, q, "");
    var mid := AfterRemoves(left.fields, left.fields.Keys, kept);
    assert Diff(left, right, "") == removes.Then(members);
    assert Apply(left, removes.ops) == Some(Obj(mid)) by {
      SortedDistinct(left.fields.Keys);
      RemovesApply(left.fields, p, kept);
    }
    OverlayKept(left.fields, right.fields);
    assert Apply(Obj(mid), members.ops) == Some(right) by {
      SortedDistinct(right.fields.Keys);
      MembersApply(left, right, mid, q);
    }
    ApplyAppend(left, removes.ops, members.ops);
  }

  lemma OverlayKept(before: map<string, Json>, from: map<string, Json>)
    ensures Untouched(AfterRemoves(before, before.Keys, from.Keys), before, from.Keys)
    ensures Overlay(AfterRemoves(before, before.Keys, from.Keys), from, from.Keys) == from
  {
  }

  /** Whenever `createJsonPatch(a, b)` returns, applying the patch to `a` yields `b`. */
  lemma PatchRoundTrip(previous: Json, next: Json)
    ensures var patch := CreateJsonPatch(previous, next);
      patch.Some? ==> Apply(previous, patch.value) == Some(next)
  {
    if Diff(previous, next, "").safe { DiffApplies(previous, next); }
  }

  /** No object anywhere in the value has a key the pointer syntax refuses. */
  predicate SafeKeys(v: Json) {
    match v
    case Arr(items) => true
    case Obj(fields) => forall k :: k in fields ==> k !in FORBIDDEN && SafeKeys(fields[k])
    case _ => true
  }

  /** Values whose nested objects use no refused key always have a patch. */
  lemma {:induction false} SafeKeysPatch(left: Json, right: Json, path: string)
    requires SafeKeys(left) && SafeKeys(right)
    ensures Diff(left, right, path).safe
    decreases left
  {
    if !JsonEqual(left, right) && left.Obj? && right.Obj? {
      RemovesSafe(Sorted(left.fields.Keys), right.fields.Keys, path);
      MembersSafe(left, right, Sorted(right.fields.Keys), path);
    }
  }

  lemma {:induction false} RemovesSafe(keys: seq<string>, kept: set<string>, path: string)
    requires forall k :: k in keys ==> k !in FORBIDDEN
    ensures DiffRemoves(keys, kept, path).safe
  {
    if keys != [] { RemovesSafe(keys[1..], kept, path); }
  }

  lemma {:induction false} MembersSafe(left: Json, right: Json, keys: seq<string>, path: string)
    requires left.Obj? && right.Obj? && SafeKeys(left) && SafeKeys(right)
    requires forall k :: k in keys ==> k in right.fields
    ensures DiffMembers(left, right, keys, path).safe
    decreases left, |keys|
  {
    if keys != [] {
      var k := keys[0];
      if k in left.fields { SafeKeysPatch(left.fields[k], right.fields[k], ChildPath(path, k)); }
      MembersSafe(left, right, keys[1..], path);
    }
  }
}
