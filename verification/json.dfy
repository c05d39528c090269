/** JSON values and `canonicalJson` (src/protocol.ts): object keys sorted by code point,
    strings quoted as in section 7 of RFC 8259, numbers restricted to integers. */
module CanonicalJson {
  import opened CodePoints

  datatype Json =
    | Null
    | Bool(b: bool)
    | Num(n: int)
    | Str(s: string)
    | Arr(items: seq<Json>)
    | Obj(fields: map<string, Json>)

  /** `jsonEqual` (src/observation-codec.ts): the recursive comparison the codec runs. */
  predicate JsonEqual(left: Json, right: Json)
    decreases left
  {
    match left
    case Arr(items) =>
      right.Arr? && |items| == |right.items|
      && forall i :: 0 <= i < |items| ==> JsonEqual(items[i], right.items[i])
    case Obj(fields) =>
      right.Obj? && |fields| == |right.fields|
      && forall k :: k in fields ==> k in right.fields && JsonEqual(fields[k], right.fields[k])
    case _ => left == right
  }

  lemma {:induction false} KeysSubsetSameSize(a: set<string>, b: set<string>)
    requires a <= b && |a| == |b|
    ensures a == b
  {
    if a != b {
      var x :| x in b && x !in a;
      SubsetSize(a, b - {x});
    }
  }

  lemma {:induction false} SubsetSize(a: set<string>, b: set<string>)
    requires a <= b
    ensures |a| <= |b|
    decreases |a|
  {
    if x :| x in a {
      SubsetSize(a - {x}, b - {x});
    }
  }

  /** The comparison decides structural equality. */
  lemma {:induction false} JsonEqualIsEquality(left: Json, right: Json)
    ensures JsonEqual(left, right) <==> left == right
    decreases left
  {
    match left
    case Arr(items) =>
      if right.Arr? && |items| == |right.items| {
        forall i | 0 <= i < |items| ensures JsonEqual(items[i], right.items[i]) <==> items[i] == right.items[i] {
          JsonEqualIsEquality(items[i], right.items[i]);
        }
      }
    case Obj(fields) =>
      if right.Obj? && |fields| == |right.fields| {
        forall k | k in fields && k in right.fields
          ensures JsonEqual(fields[k], right.fields[k]) <==> fields[k] == right.fields[k]
        {
          JsonEqualIsEquality(fields[k], right.fields[k]);
        }
        if JsonEqual(left, right) {
          assert forall k :: k in fields.Keys ==> k in right.fields.Keys;
          assert |fields.Keys| == |fields| && |right.fields.Keys| == |right.fields|;
          KeysSubsetSameSize(fields.Keys, right.fields.Keys);
          assert fields == right.fields;
        }
      }
    case _ =>
  }

  // ---- Text ----

  function Digit(d: nat): char
    requires d < 10
  {
    ('0' as int + d) as char
  }

  function Digits(n: nat): (r: string)
    ensures r != [] && forall i :: 0 <= i < |r| ==> '0' <= r[i] <= '9'
  {
    if n < 10 then [Digit(n)] else Digits(n / 10) + [Digit(n % 10)]
  }

  function IntText(n: int): string {
    if n < 0 then "-" + Digits(-n) else Digits(n)
  }

  function HexDigit(d: nat): char
    requires d < 16
  {
    if d < 10 then Digit(d) else ('a' as int + d - 10) as char
  }

  /** JSON.stringify's treatment of one scalar value inside a string. */
  function EscapeChar(c: char): (r: string)
    ensures r != [] && r[0] != '"'
  {
    if c == '"' then "\\\""
    else if c == '\\' then "\\\\"
    else if c as int == 8 then "\\b"
    else if c as int == 9 then "\\t"
    else if c as int == 10 then "\\n"
    else if c as int == 12 then "\\f"
    else if c as int == 13 then "\\r"
    else if c as int < 32 then "\\u00" + [HexDigit(c as int / 16), HexDigit(c as int % 16)]
    else [c]
  }

  function Escape(s: string): string {
    if s == [] then [] else EscapeChar(s[0]) + Escape(s[1..])
  }

  function Quote(s: string): string {
    "\"" + Escape(s) + "\""
  }

  /** `canonicalJson` */
  function Canonical(v: Json): (text: string)
    decreases v
  {
    match v
    case Null => "null"
    case Bool(b) => if b then "true" else "false"
    case Num(n) => IntText(n)
    case Str(s) => Quote(s)
    case Arr(items) => "[" + CanonicalItems(items) + "]"
    case Obj(fields) => "{" + CanonicalMembers(v, Sorted(fields.Keys)) + "}"
  }

  /** `items.map(encode).join(',')` */
  function CanonicalItems(items: seq<Json>): string
    decreases items
  {
    if items == [] then ""
    else if |items| == 1 then Canonical(items[0])
    else Canonical(items[0]) + "," + CanonicalItems(items[1..])
  }

  function CanonicalMember(v: Json, k: string): string
    requires v.Obj? && k in v.fields
    decreases v, 0, 0
  {
    Quote(k) + ":" + Canonical(v.fields[k])
  }

  /** The members of `v` under `keys`, joined by commas. */
  function CanonicalMembers(v: Json, keys: seq<string>): string
    requires v.Obj? && forall k :: k in keys ==> k in v.fields
    decreases v, 1, |keys|
  {
    if keys == [] then ""
    else if |keys| == 1 then CanonicalMember(v, keys[0])
    else CanonicalMember(v, keys[0]) + "," + CanonicalMembers(v, keys[1..])
  }
}
