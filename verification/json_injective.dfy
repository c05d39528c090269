/** Canonical text is uniquely decodable, so equal text means equal values. */
module CanonicalText {
  import opened CodePoints
  import opened CanonicalJson

  predicate DigitChar(c: char) { '0' <= c <= '9' }

  /** What may follow a complete value: the end, or a separator. */
  predicate Delimited(rest: string) {
    rest == [] || rest[0] in {',', ']', '}'}
  }

  lemma Strip(p: string, q: string, x: string, y: string)
    requires p + x == q + y && |p| == |q|
    ensures p == q && x == y
  {
    assert (p + x)[..|p|] == p && (q + y)[..|q|] == q;
    assert (p + x)[|p|..] == x && (q + y)[|q|..] == y;
  }

  lemma Regroup(first: string, rest: string, x: string)
    ensures first + "," + rest + x == first + ("," + (rest + x))
  {
  }

  predicate AllDigits(p: string) {
    forall i :: 0 <= i < |p| ==> DigitChar(p[i])
  }

  lemma RunNotShorter(p: string, q: string, x: string, y: string)
    requires AllDigits(q) && (x == [] || !DigitChar(x[0]))
    ensures |p| < |q| ==> p + x != q + y
  {
    if |p| < |q| && x != [] {
      assert (p + x)[|p|] == x[0];
      assert (q + y)[|p|] == q[|p|];
    }
  }

  lemma MaximalRun(p: string, q: string, x: string, y: string)
    requires AllDigits(p) && AllDigits(q)
    requires (x == [] || !DigitChar(x[0])) && (y == [] || !DigitChar(y[0]))
    requires p + x == q + y
    ensures p == q && x == y
  {
    RunNotShorter(p, q, x, y);
    RunNotShorter(q, p, y, x);
    Strip(p, q, x, y);
  }

  lemma {:induction false} DigitsInjective(m: nat, n: nat)
    requires Digits(m) == Digits(n)
    ensures m == n
  {
    if m < 10 || n < 10 {
    } else {
      var p, q := Digits(m / 10), Digits(n / 10);
      assert (p + [Digit(m % 10)])[..|p|] == p && (q + [Digit(n % 10)])[..|q|] == q;
      assert (p + [Digit(m % 10)])[|p|] == Digit(m % 10);
      assert (q + [Digit(n % 10)])[|q|] == Digit(n % 10);
      DigitsInjective(m / 10, n / 10);
    }
  }

  lemma IntTextSign(n: int, x: string)
    ensures n < 0 ==> IntText(n) + x == "-" + (Digits(-n) + x)
    ensures (IntText(n) + x)[0] == '-' <==> n < 0
  {
  }

  lemma IntTextUnique(m: int, n: int, x: string, y: string)
    requires Delimited(x) && Delimited(y)
    requires IntText(m) + x == IntText(n) + y
    ensures m == n && x == y
  {
    IntTextSign(m, x);
    IntTextSign(n, y);
    if m < 0 {
      Strip("-", "-", Digits(-m) + x, Digits(-n) + y);
      MaximalRun(Digits(-m), Digits(-n), x, y);
      DigitsInjective(-m, -n);
    } else {
      MaximalRun(Digits(m), Digits(n), x, y);
      DigitsInjective(m, n);
    }
  }

  lemma EscapeCharUnique(c: char, d: char, x: string, y: string)
    requires EscapeChar(c) + x == EscapeChar(d) + y
    ensures c == d && x == y
  {
    var e, f := EscapeChar(c), EscapeChar(d);
    assert e[0] == (e + x)[0] == (f + y)[0] == f[0];
    if |e| >= 2 && |f| >= 2 {
      assert e[1] == (e + x)[1] == (f + y)[1] == f[1];
    }
    if |e| == 6 && |f| == 6 {
      assert e[4] == (e + x)[4] == (f + y)[4] == f[4];
      assert e[5] == (e + x)[5] == (f + y)[5] == f[5];
      assert c as int == c as int / 16 * 16 + c as int % 16;
      assert d as int == d as int / 16 * 16 + d as int % 16;
    }
    assert c == d;
    assert (e + x)[|e|..] == x && (f + y)[|f|..] == y;
  }

  lemma EscapeHead(s: string, x: string)
    ensures s == [] ==> Escape(s) + x == x
    ensures s != [] ==> Escape(s) + x == EscapeChar(s[0]) + (Escape(s[1..]) + x)
    ensures s != [] ==> (Escape(s) + x)[0] != '"'
  {
    hide EscapeChar;
    if s != [] {
      Associate(EscapeChar(s[0]), Escape(s[1..]), x);
    }
  }

  lemma Associate(a: string, b: string, c: string)
    ensures (a + b) + c == a + (b + c)
  {
  }

  lemma {:induction false} EscapeUnique(s: string, t: string, x: string, y: string)
    requires Escape(s) + ("\"" + x) == Escape(t) + ("\"" + y)
    ensures s == t && x == y
  {
    EscapeHead(s, "\"" + x);
    EscapeHead(t, "\"" + y);
    if s == [] {
      Strip("\"", "\"", x, y);
    } else {
      EscapeCharUnique(s[0], t[0], Escape(s[1..]) + ("\"" + x), Escape(t[1..]) + ("\"" + y));
      EscapeUnique(s[1..], t[1..], x, y);
      assert s == [s[0]] + s[1..] && t == [t[0]] + t[1..];
    }
  }

  lemma QuoteHead(s: string, x: string)
    ensures Quote(s) + x == "\"" + (Escape(s) + ("\"" + x))
  {
  }

  lemma QuoteUnique(s: string, t: string, x: string, y: string)
    requires Quote(s) + x == Quote(t) + y
    ensures s == t && x == y
  {
    QuoteHead(s, x);
    QuoteHead(t, y);
    Strip("\"", "\"", Escape(s) + ("\"" + x), Escape(t) + ("\"" + y));
    EscapeUnique(s, t, x, y);
  }

  /** The first character of a value's text names its constructor. */
  lemma FirstChar(v: Json)
    ensures Canonical(v) != []
    ensures var c := Canonical(v)[0];
      && (v.Null? <==> c == 'n') && (v.Bool? <==> c in {'t', 'f'})
      && (v.Num? <==> c == '-' || DigitChar(c)) && (v.Str? <==> c == '"')
      && (v.Arr? <==> c == '[') && (v.Obj? <==> c == '{')
  {
  }

  lemma ArrText(items: seq<Json>, x: string)
    ensures Canonical(Arr(items)) + x == "[" + (CanonicalItems(items) + ("]" + x))
  {
  }

  lemma ObjText(v: Json, x: string)
    requires v.Obj?
    ensures Canonical(v) + x == "{" + (CanonicalMembers(v, Sorted(v.fields.Keys)) + ("}" + x))
  {
  }

  /** Equal text starts with the same character, hence has the same constructor. */
  lemma SameKind(a: Json, b: Json, x: string, y: string)
    requires Canonical(a) + x == Canonical(b) + y
    ensures (a.Null? <==> b.Null?) && (a.Bool? <==> b.Bool?) && (a.Num? <==> b.Num?)
    ensures (a.Str? <==> b.Str?) && (a.Arr? <==> b.Arr?) && (a.Obj? <==> b.Obj?)
    ensures a.Bool? ==> a == b
  {
    FirstChar(a);
    FirstChar(b);
    assert Canonical(a)[0] == (Canonical(a) + x)[0] == (Canonical(b) + y)[0] == Canonical(b)[0];
  }

  lemma {:induction false} CanonicalUnique(a: Json, b: Json, x: string, y: string)
    requires Delimited(x) && Delimited(y)
    requires Canonical(a) + x == Canonical(b) + y
    ensures a == b && x == y
    decreases a, 2
  {
    SameKind(a, b, x, y);
    match a
    case Null => Strip("null", "null", x, y);
    case Bool(_) => Strip(Canonical(a), Canonical(b), x, y);
    case Num(n) => IntTextUnique(n, b.n, x, y);
    case Str(s) => QuoteUnique(s, b.s, x, y);
    case Arr(_) => ArrUnique(a, b, x, y);
    case Obj(_) => ObjUnique(a, b, x, y);
  }

  lemma {:induction false} ArrUnique(a: Json, b: Json, x: string, y: string)
    requires a.Arr? && b.Arr? && Canonical(a) + x == Canonical(b) + y
    ensures a == b && x == y
    decreases a, 1
  {
    ArrText(a.items, x);
    ArrText(b.items, y);
    Strip("[", "[", CanonicalItems(a.items) + ("]" + x), CanonicalItems(b.items) + ("]" + y));
    ItemsUnique(a.items, b.items, x, y);
  }

  lemma {:induction false} ObjUnique(a: Json, b: Json, x: string, y: string)
    requires a.Obj? && b.Obj? && Canonical(a) + x == Canonical(b) + y
    ensures a == b && x == y
    decreases a, 1
  {
    var p, q := Sorted(a.fields.Keys), Sorted(b.fields.Keys);
    var u, v := CanonicalMembers(a, p) + ("}" + x), CanonicalMembers(b, q) + ("}" + y);
    assert "{" + u == "{" + v by {
      ObjText(a, x);
      ObjText(b, y);
    }
    Strip("{", "{", u, v);
    MembersUnique(a, p, b, q, x, y);
    SameFields(a.fields, b.fields, p);
  }

  lemma SameFields(f: map<string, Json>, g: map<string, Json>, p: seq<string>)
    requires p == Sorted(f.Keys) == Sorted(g.Keys) && forall k :: k in p ==> f[k] == g[k]
    ensures f == g
  {
    assert forall k :: k in f.Keys <==> k in p;
    assert forall k :: k in g.Keys <==> k in p;
  }

  /** What follows the first item of a list that `tail` closes. */
  function AfterItem(a: seq<Json>, tail: string): string
    requires a != []
  {
    if |a| == 1 then tail else "," + (CanonicalItems(a[1..]) + tail)
  }

  lemma ItemsText(a: seq<Json>, x: string)
    requires a != []
    ensures CanonicalItems(a) + x == Canonical(a[0]) + AfterItem(a, x)
    ensures CanonicalItems(a) + x != [] && (CanonicalItems(a) + x)[0] != ']'
  {
    FirstChar(a[0]);
    if |a| > 1 {
      var first, rest := Canonical(a[0]), CanonicalItems(a[1..]);
      assert CanonicalItems(a) == first + "," + rest;
      Regroup(first, rest, x);
    }
  }

  lemma {:induction false} ItemsUnique(a: seq<Json>, b: seq<Json>, x: string, y: string)
    requires CanonicalItems(a) + ("]" + x) == CanonicalItems(b) + ("]" + y)
    ensures a == b && x == y
    decreases a
  {
    var u, v := "]" + x, "]" + y;
    if a != [] { ItemsText(a, u); }
    if b != [] { ItemsText(b, v); }
    assert a == [] ==> CanonicalItems(a) + u == u;
    assert b == [] ==> CanonicalItems(b) + v == v;
    if a == [] {
      Strip("]", "]", x, y);
    } else {
      CanonicalUnique(a[0], b[0], AfterItem(a, "]" + x), AfterItem(b, "]" + y));
      assert a == [a[0]] + a[1..] && b == [b[0]] + b[1..];
      if |a| > 1 {
        Strip(",", ",", CanonicalItems(a[1..]) + ("]" + x), CanonicalItems(b[1..]) + ("]" + y));
        ItemsUnique(a[1..], b[1..], x, y);
      } else {
        Strip("]", "]", x, y);
      }
    }
  }

  function AfterMember(a: Json, p: seq<string>, tail: string): string
    requires a.Obj? && p != [] && forall k :: k in p ==> k in a.fields
  {
    if |p| == 1 then tail else "," + (CanonicalMembers(a, p[1..]) + tail)
  }

  lemma MemberText(a: Json, k: string, x: string)
    requires a.Obj? && k in a.fields
    ensures CanonicalMember(a, k) + x == Quote(k) + (":" + (Canonical(a.fields[k]) + x))
  {
  }

  lemma MembersText(a: Json, p: seq<string>, x: string)
    requires a.Obj? && p != [] && forall k :: k in p ==> k in a.fields
    ensures CanonicalMembers(a, p) + x == CanonicalMember(a, p[0]) + AfterMember(a, p, x)
    ensures CanonicalMembers(a, p) + x != [] && (CanonicalMembers(a, p) + x)[0] == '"'
  {
    if |p| > 1 {
      var first, rest := CanonicalMember(a, p[0]), CanonicalMembers(a, p[1..]);
      assert CanonicalMembers(a, p) == first + "," + rest;
      Regroup(first, rest, x);
    }
  }

  lemma {:induction false} MembersUnique(
    a: Json, p: seq<string>, b: Json, q: seq<string>, x: string, y: string)
    requires a.Obj? && b.Obj?
    requires (forall k :: k in p ==> k in a.fields) && forall k :: k in q ==> k in b.fields
    requires CanonicalMembers(a, p) + ("}" + x) == CanonicalMembers(b, q) + ("}" + y)
    ensures p == q && x == y && forall k :: k in p ==> a.fields[k] == b.fields[k]
    decreases a, 0, |p|
  {
    var u, v := "}" + x, "}" + y;
    if p != [] { MembersText(a, p, u); }
    if q != [] { MembersText(b, q, v); }
    assert p == [] ==> CanonicalMembers(a, p) + u == u;
    assert q == [] ==> CanonicalMembers(b, q) + v == v;
    if p == [] {
      Strip("}", "}", x, y);
    } else {
      MemberUnique(a, p[0], b, q[0], AfterMember(a, p, "}" + x), AfterMember(b, q, "}" + y));
      assert p == [p[0]] + p[1..] && q == [q[0]] + q[1..];
      if |p| > 1 {
        Strip(",", ",", CanonicalMembers(a, p[1..]) + ("}" + x), CanonicalMembers(b, q[1..]) + ("}" + y));
        MembersUnique(a, p[1..], b, q[1..], x, y);
      } else {
        Strip("}", "}", x, y);
      }
    }
  }

  lemma {:induction false} MemberUnique(a: Json, j: string, b: Json, k: string, x: string, y: string)
    requires a.Obj? && b.Obj? && j in a.fields && k in b.fields && Delimited(x) && Delimited(y)
    requires CanonicalMember(a, j) + x == CanonicalMember(b, k) + y
    ensures j == k && a.fields[j] == b.fields[k] && x == y
    decreases a, 0, 0
  {
    MemberText(a, j, x);
    MemberText(b, k, y);
    QuoteUnique(j, k, ":" + (Canonical(a.fields[j]) + x), ":" + (Canonical(b.fields[k]) + y));
    Strip(":", ":", Canonical(a.fields[j]) + x, Canonical(b.fields[k]) + y);
    CanonicalUnique(a.fields[j], b.fields[k], x, y);
  }

  /** Collision-free: two values have equal canonical text exactly when they are equal. */
  lemma CanonicalInjective(a: Json, b: Json)
    ensures Canonical(a) == Canonical(b) <==> a == b
    ensures Canonical(a) == Canonical(b) <==> JsonEqual(a, b)
  {
    JsonEqualIsEquality(a, b);
    if Canonical(a) == Canonical(b) {
      assert Canonical(a) + "" == Canonical(b) + "";
      CanonicalUnique(a, b, "", "");
    }
  }
}
