/** The test that an interest view only removes structure (`jsonProjection` in
    src/observation-codec.ts): its greedy array scan against an order-preserving embedding. */
module JsonProjection {
  import opened CodePoints
  import opened CanonicalJson

  /** Strictly rising positions of `count` items in a list of `size`. */
  ghost predicate Places(at: seq<nat>, size: nat, count: nat) {
    && |at| == count
    && (forall i :: 0 <= i < count ==> at[i] < size)
    && (forall i, j :: 0 <= i < j < count ==> at[i] < at[j])
  }

  ghost predicate EmbedsAt(source: seq<Json>, projected: seq<Json>, at: seq<nat>)
    decreases projected, 1
  {
    Places(at, |source|, |projected|)
    && forall i :: 0 <= i < |projected| ==> Embeds(source[at[i]], projected[i])
  }

  /** `projected` keeps a subsequence of every array and a subset of the keys of every object. */
  ghost predicate Embeds(source: Json, projected: Json)
    decreases projected
  {
    match projected
    case Arr(items) => source.Arr? && exists at :: EmbedsAt(source.items, items, at)
    case Obj(fields) =>
      source.Obj? && forall k :: k in fields ==> k in source.fields && Embeds(source.fields[k], fields[k])
    case _ => source == projected
  }

  lemma {:induction false} EmbedsReflexive(v: Json)
    ensures Embeds(v, v)
    decreases v
  {
    match v
    case Arr(items) =>
      var at: seq<nat> := seq(|items|, i requires 0 <= i => i);
      forall i | 0 <= i < |items| ensures Embeds(items[at[i]], items[i]) { EmbedsReflexive(items[i]); }
      assert EmbedsAt(items, items, at);
    case Obj(fields) =>
      forall k | k in fields ensures Embeds(fields[k], fields[k]) { EmbedsReflexive(fields[k]); }
    case _ =>
  }

  lemma {:induction false} EmbedsTransitive(a: Json, b: Json, c: Json)
    requires Embeds(a, b) && Embeds(b, c)
    ensures Embeds(a, c)
    decreases c
  {
    match c
    case Arr(items) =>
      var p :| EmbedsAt(a.items, b.items, p);
      var q :| EmbedsAt(b.items, items, q);
      var at: seq<nat> := seq(|items|, i requires 0 <= i < |items| => p[q[i]]);
      forall i | 0 <= i < |items| ensures Embeds(a.items[at[i]], items[i]) {
        assert Embeds(a.items[p[q[i]]], b.items[q[i]]);
        EmbedsTransitive(a.items[at[i]], b.items[q[i]], items[i]);
      }
      assert EmbedsAt(a.items, items, at);
    case Obj(fields) =>
      forall k | k in fields ensures k in a.fields && Embeds(a.fields[k], fields[k]) {
        assert k in b.fields;
        EmbedsTransitive(a.fields[k], b.fields[k], fields[k]);
      }
    case _ =>
  }

  lemma {:induction false} PlacesAtLeast(at: seq<nat>, size: nat, count: nat, i: nat)
    requires Places(at, size, count) && i < count
    ensures i <= at[i]
  {
    if i > 0 { PlacesAtLeast(at, size, count, i - 1); }
  }

  lemma {:induction false} PlacesAtMost(at: seq<nat>, size: nat, count: nat, i: nat)
    requires Places(at, size, count) && i < count
    ensures at[i] + (count - i) <= size
    decreases count - i
  {
    if i + 1 < count { PlacesAtMost(at, size, count, i + 1); }
  }

  lemma PlacesFull(at: seq<nat>, count: nat, i: nat)
    requires Places(at, count, count) && i < count
    ensures at[i] == i
  {
    PlacesAtLeast(at, count, count, i);
    PlacesAtMost(at, count, count, i);
  }

  lemma SameLength(p: seq<nat>, m: nat, q: seq<nat>, n: nat)
    requires Places(p, m, n) && Places(q, n, m)
    ensures m == n
  {
    if n > 0 { PlacesAtMost(p, m, n, 0); }
    if m > 0 { PlacesAtMost(q, n, m, 0); }
  }

  lemma {:induction false} EmbedsAntisymmetric(a: Json, b: Json)
    requires Embeds(a, b) && Embeds(b, a)
    ensures a == b
    decreases b
  {
    match b
    case Arr(items) =>
      var p :| EmbedsAt(a.items, items, p);
      var q :| EmbedsAt(items, a.items, q);
      SameLength(p, |a.items|, q, |items|);
      forall i | 0 <= i < |items| ensures a.items[i] == items[i] {
        PlacesFull(p, |items|, i);
        PlacesFull(q, |items|, i);
        EmbedsAntisymmetric(a.items[i], items[i]);
      }
    case Obj(fields) =>
      forall k | k in fields ensures k in a.fields && a.fields[k] == fields[k] {
        EmbedsAntisymmetric(a.fields[k], fields[k]);
      }
      assert a.fields == fields;
    case _ =>
  }

  ghost predicate HasEmbedding(source: seq<Json>, projected: seq<Json>) {
    exists at :: EmbedsAt(source, projected, at)
  }

  lemma EmbedsHasEmbedding(source: Json, projected: Json)
    requires source.Arr? && projected.Arr? && Embeds(source, projected)
    ensures HasEmbedding(source.items, projected.items)
  {
  }

  lemma HasEmbeddingEmbeds(source: Json, projected: Json)
    requires source.Arr? && projected.Arr? && HasEmbedding(source.items, projected.items)
    ensures Embeds(source, projected)
  {
    var at :| EmbedsAt(source.items, projected.items, at);
  }

  /** `jsonProjection`: the greedy scan finds an embedding exactly when there is one. */
  method Projects(source: Json, projected: Json) returns (r: bool)
    ensures r <==> Embeds(source, projected)
    decreases projected, 1
  {
    if JsonEqual(source, projected) {
      JsonEqualIsEquality(source, projected);
      EmbedsReflexive(source);
      return true;
    }
    JsonEqualIsEquality(source, projected);
    if source.Arr? && projected.Arr? {
      r := ProjectsItems(source.items, projected.items);
      if r { HasEmbeddingEmbeds(source, projected); }
      if Embeds(source, projected) { EmbedsHasEmbedding(source, projected); }
      return;
    }
    if source.Obj? && projected.Obj? {
      var keys := Sorted(projected.fields.Keys);
      for i := 0 to |keys|
        invariant forall j :: 0 <= j < i ==>
          keys[j] in source.fields && Embeds(source.fields[keys[j]], projected.fields[keys[j]])
      {
        assert keys[i] in keys;
        if keys[i] !in source.fields { return false; }
        var below := Projects(source.fields[keys[i]], projected.fields[keys[i]]);
        if !below { return false; }
      }
      assert forall k :: k in projected.fields ==> k in keys;
      return true;
    }
    return false;
  }

  method ProjectsItems(source: seq<Json>, projected: seq<Json>) returns (r: bool)
    ensures r <==> HasEmbedding(source, projected)
    decreases projected, 0
  {
    var sourceIndex := 0;
    ghost var found: seq<nat> := [];
    for j := 0 to |projected|
      invariant sourceIndex <= |source|
      invariant EmbedsAt(source, projected[..j], found)
      invariant forall i :: 0 <= i < j ==> found[i] < sourceIndex
      invariant forall at :: EmbedsAt(source, projected, at) && j < |projected| ==> at[j] >= sourceIndex
    {
      var matched := false;
      while sourceIndex < |source| && !matched
        invariant sourceIndex <= |source|
        invariant forall i :: 0 <= i < j ==> found[i] < sourceIndex
        invariant matched ==> sourceIndex < |source| && Embeds(source[sourceIndex], projected[j])
        invariant forall at :: EmbedsAt(source, projected, at) ==> at[j] >= sourceIndex
        decreases |source| - sourceIndex, !matched
      {
        matched := Projects(source[sourceIndex], projected[j]);
        if !matched { sourceIndex := sourceIndex + 1; }
      }
      if sourceIndex == |source| { return false; }
      found := found + [sourceIndex];
      sourceIndex := sourceIndex + 1;
      assert forall at :: EmbedsAt(source, projected, at) && j + 1 < |projected| ==> at[j] < at[j + 1];
    }
    assert projected[..|projected|] == projected;
    assert EmbedsAt(source, projected, found);
    return true;
  }
}
