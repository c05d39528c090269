/** Strings compared by Unicode scalar value (src/protocol.ts compareUnicodeCodePoints)
    and the sorted key lists every canonical form is built from. */
module CodePoints {

  /** Strict lexicographic order by code point; a proper prefix comes first. */
  predicate Precedes(a: string, b: string) {
    b != [] && (a == [] || a[0] < b[0] || (a[0] == b[0] && Precedes(a[1..], b[1..])))
  }

  lemma {:induction false} PrecedesIrreflexive(a: string)
    ensures !Precedes(a, a)
  {
    if a != [] { PrecedesIrreflexive(a[1..]); }
  }

  lemma {:induction false} PrecedesTotal(a: string, b: string)
    ensures a != b ==> Precedes(a, b) || Precedes(b, a)
  {
    if a != [] && b != [] && a[0] == b[0] {
      PrecedesTotal(a[1..], b[1..]);
      assert a == [a[0]] + a[1..] && b == [b[0]] + b[1..];
    }
  }

  lemma {:induction false} PrecedesTransitive(a: string, b: string, c: string)
    requires Precedes(a, b) && Precedes(b, c)
    ensures Precedes(a, c)
  {
    if a != [] && a[0] == b[0] && b[0] == c[0] { PrecedesTransitive(a[1..], b[1..], c[1..]); }
  }

  lemma {:induction false} CommonPrefix(p: string, a: string, b: string)
    ensures Precedes(p + a, p + b) == Precedes(a, b)
  {
    if p == [] {
      assert p + a == a && p + b == b;
    } else {
      CommonPrefix(p[1..], a, b);
      assert (p + a)[1..] == p[1..] + a && (p + b)[1..] == p[1..] + b;
    }
  }

  /** The comparator's loop: the sign of the result decides the order. */
  method CompareUnicodeCodePoints(left: string, right: string) returns (difference: int)
    ensures difference < 0 <==> Precedes(left, right)
    ensures difference == 0 <==> left == right
    ensures difference > 0 <==> Precedes(right, left)
  {
    var length := if |left| < |right| then |left| else |right|;
    var index := 0;
    while index < length
      invariant 0 <= index <= length
      invariant left[..index] == right[..index]
    {
      difference := left[index] as int - right[index] as int;
      if difference != 0 {
        Split(left, right, index);
        return;
      }
      index := index + 1;
    }
    difference := |left| - |right|;
    Split(left, right, length);
    PrecedesIrreflexive(left);
  }

  lemma Split(left: string, right: string, i: nat)
    requires i <= |left| && i <= |right| && left[..i] == right[..i]
    ensures Precedes(left, right) == Precedes(left[i..], right[i..])
    ensures Precedes(right, left) == Precedes(right[i..], left[i..])
    ensures left == right <==> left[i..] == right[i..]
  {
    CommonPrefix(left[..i], left[i..], right[i..]);
    CommonPrefix(left[..i], right[i..], left[i..]);
    assert left == left[..i] + left[i..] && right == right[..i] + right[i..];
  }

  ghost predicate StrictlySorted(keys: seq<string>) {
    forall i, j :: 0 <= i < j < |keys| ==> Precedes(keys[i], keys[j])
  }

  predicate IsLeast(k: string, s: set<string>) {
    k in s && forall x :: x in s && x != k ==> Precedes(k, x)
  }

  lemma {:induction false} LeastExists(s: set<string>)
    requires s != {}
    ensures exists k :: IsLeast(k, s)
    decreases |s|
  {
    var k :| k in s;
    if s == {k} {
      assert IsLeast(k, s);
    } else {
      LeastExists(s - {k});
      var m :| IsLeast(m, s - {k});
      PrecedesTotal(k, m);
      if Precedes(k, m) {
        forall x | x in s && x != k ensures Precedes(k, x) {
          if x != m { PrecedesTransitive(k, m, x); }
        }
        assert IsLeast(k, s);
      } else {
        assert IsLeast(m, s);
      }
    }
  }

  lemma LeastUnique(s: set<string>)
    ensures forall j, k :: IsLeast(j, s) && IsLeast(k, s) ==> j == k
  {
    forall j, k | IsLeast(j, s) && IsLeast(k, s) ensures j == k {
      PrecedesIrreflexive(j);
      if j != k { PrecedesTransitive(j, k, j); }
    }
  }

  /** `Object.keys(o).sort(compareUnicodeCodePoints)` for an object with this key set. */
  function Sorted(s: set<string>): (keys: seq<string>)
    ensures StrictlySorted(keys) && |keys| == |s|
    ensures forall k :: k in keys <==> k in s
    decreases |s|
  {
    if s == {} then [] else
      LeastExists(s);
      LeastUnique(s);
      var k :| IsLeast(k, s);
      var rest := Sorted(s - {k});
      assert forall x :: x in rest ==> x in s - {k} && Precedes(k, x);
      assert forall i :: 0 <= i < |rest| ==> rest[i] in rest;
      [k] + rest
  }

  // ---- Blank text ----

  predicate WhiteSpace(c: char) {
    var u := c as int;
    9 <= u <= 13 || u == 32 || u == 0xA0 || u == 0x1680 || 0x2000 <= u <= 0x200A
    || u == 0x2028 || u == 0x2029 || u == 0x202F || u == 0x205F || u == 0x3000 || u == 0xFEFF
  }

  /** `!s.trim()` */
  predicate Blank(s: string) { forall i :: 0 <= i < |s| ==> WhiteSpace(s[i]) }
}
