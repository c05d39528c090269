/** JSON Pointer tokens and paths (sections 3 and 4 of RFC 6901), with the keys
    src/observation-codec.ts refuses to address. */
module JsonPointer {
  import opened Wrappers

  const FORBIDDEN: set<string> := {"__proto__", "prototype", "constructor"}

  /** `s.replaceAll(c, r)` for a one-character pattern. */
  function ReplaceChar(s: string, c: char, r: string): string {
    if s == [] then [] else (if s[0] == c then r else [s[0]]) + ReplaceChar(s[1..], c, r)
  }

  /** `s.replaceAll(a + b, r)`: scans left to right, skipping past each match. */
  function ReplacePair(s: string, a: char, b: char, r: string): string {
    if |s| < 2 then s
    else if s[0] == a && s[1] == b then r + ReplacePair(s[2..], a, b, r)
    else [s[0]] + ReplacePair(s[1..], a, b, r)
  }

  function EscapeToken(token: string): string {
    ReplaceChar(ReplaceChar(token, '~', "~0"), '/', "~1")
  }

  /** `pointerToken`: None stands for the thrown "unsafe JSON Pointer token". */
  function PointerToken(token: string): Option<string> {
    if token in FORBIDDEN then None else Some(EscapeToken(token))
  }

  predicate InvalidEscape(s: string) {
    s != [] && ((s[0] == '~' && (|s| == 1 || s[1] !in {'0', '1'})) || InvalidEscape(s[1..]))
  }

  function UnescapeToken(s: string): string {
    ReplacePair(ReplacePair(s, '~', '1', "/"), '~', '0', "~")
  }

  function DecodeToken(s: string): Option<string> {
    if InvalidEscape(s) then None
    else if UnescapeToken(s) in FORBIDDEN then None
    else Some(UnescapeToken(s))
  }

  /** `s.split('/')` */
  function SplitSlash(s: string): (parts: seq<string>)
    ensures parts != []
  {
    if s == [] then [[]]
    else if s[0] == '/' then [[]] + SplitSlash(s[1..])
    else var rest := SplitSlash(s[1..]); [[s[0]] + rest[0]] + rest[1..]
  }

  function DecodeTokens(parts: seq<string>): Option<seq<string>> {
    if parts == [] then Some([])
    else match (DecodeToken(parts[0]), DecodeTokens(parts[1..]))
      case (Some(t), Some(ts)) => Some([t] + ts)
      case _ => None
  }

  /** `decodePointer` */
  function DecodePointer(path: string): Option<seq<string>> {
    if path == "" then Some([])
    else if path[0] != '/' then None
    else DecodeTokens(SplitSlash(path[1..]))
  }

  /** The pointer that names these keys, outermost first. */
  function PointerTo(tokens: seq<string>): string {
    if tokens == [] then "" else "/" + EscapeToken(tokens[0]) + PointerTo(tokens[1..])
  }

  // ---- Escaping round trip ----

  function EscapeOne(c: char): string {
    if c == '~' then "~0" else if c == '/' then "~1" else [c]
  }

  /** The two passes escape each character on its own. */
  lemma {:induction false} EscapeByChar(t: string)
    ensures t != [] ==> EscapeToken(t) == EscapeOne(t[0]) + EscapeToken(t[1..])
  {
    if t != [] {
      var rest := ReplaceChar(t[1..], '~', "~0");
      if t[0] == '~' {
        assert ReplaceChar(t, '~', "~0") == "~0" + rest;
        ReplaceCharStep("~0" + rest, '/', "~1");
        assert ("~0" + rest)[1..] == "0" + rest;
        ReplaceCharStep("0" + rest, '/', "~1");
        assert ("0" + rest)[1..] == rest;
      } else {
        assert ReplaceChar(t, '~', "~0") == [t[0]] + rest;
        ReplaceCharStep([t[0]] + rest, '/', "~1");
        assert ([t[0]] + rest)[1..] == rest;
      }
    }
  }

  lemma ReplaceCharStep(s: string, c: char, r: string)
    ensures s != [] ==> ReplaceChar(s, c, r) == (if s[0] == c then r else [s[0]]) + ReplaceChar(s[1..], c, r)
  {
  }

  lemma {:induction false} EscapedClean(t: string)
    ensures !InvalidEscape(EscapeToken(t)) && '/' !in EscapeToken(t)
  {
    if t != [] {
      EscapeByChar(t);
      EscapedClean(t[1..]);
      var rest := EscapeToken(t[1..]);
      if t[0] == '~' || t[0] == '/' {
        var two := EscapeOne(t[0]);
        assert (two + rest)[1..] == two[1..] + rest;
        assert (two[1..] + rest)[1..] == rest;
      } else {
        assert ([t[0]] + rest)[1..] == rest;
      }
    }
  }

  /** After the first unescaping pass only '~' is still escaped. */
  function HalfEscaped(t: string): string { ReplaceChar(t, '~', "~0") }

  lemma {:induction false} FirstPass(t: string)
    ensures ReplacePair(EscapeToken(t), '~', '1', "/") == HalfEscaped(t)
  {
    if t != [] {
      EscapeByChar(t);
      FirstPass(t[1..]);
      var rest := EscapeToken(t[1..]);
      if t[0] == '/' {
        assert ("~1" + rest)[2..] == rest;
        assert ReplacePair("~1" + rest, '~', '1', "/") == "/" + ReplacePair(rest, '~', '1', "/");
      } else if t[0] == '~' {
        assert ("~0" + rest)[1..] == "0" + rest && ("0" + rest)[1..] == rest;
        PairStep('~', "0" + rest, '~', '1', "/");
        PairStep('0', rest, '~', '1', "/");
        assert "~0" + rest == ['~'] + ("0" + rest);
      } else {
        PairStep(t[0], rest, '~', '1', "/");
      }
    }
  }

  lemma PairStep(c: char, rest: string, a: char, b: char, r: string)
    requires c != a || rest == [] || rest[0] != b
    ensures ReplacePair([c] + rest, a, b, r) == [c] + ReplacePair(rest, a, b, r)
  {
    assert ([c] + rest)[1..] == rest;
    if rest == [] { assert [c] + rest == [c]; }
  }

  lemma {:induction false} SecondPass(t: string)
    ensures ReplacePair(HalfEscaped(t), '~', '0', "~") == t
  {
    if t != [] {
      SecondPass(t[1..]);
      var rest := HalfEscaped(t[1..]);
      if t[0] == '~' {
        assert HalfEscaped(t) == "~0" + rest;
        assert ("~0" + rest)[2..] == rest;
      } else {
        assert HalfEscaped(t) == [t[0]] + rest;
        PairStep(t[0], rest, '~', '0', "~");
      }
      assert t == [t[0]] + t[1..];
    }
  }

  lemma EscapeRoundTrip(t: string)
    ensures UnescapeToken(EscapeToken(t)) == t
    ensures DecodeToken(EscapeToken(t)) == if t in FORBIDDEN then None else Some(t)
  {
    FirstPass(t);
    SecondPass(t);
    EscapedClean(t);
  }

  lemma {:induction false} SplitFirst(head: string, tail: string)
    requires '/' !in head && (tail == "" || tail[0] == '/')
    ensures SplitSlash(head + tail) == [head] + (if tail == "" then [] else SplitSlash(tail[1..]))
  {
    if head == [] {
      assert head + tail == tail;
    } else {
      SplitFirst(head[1..], tail);
      assert (head + tail)[1..] == head[1..] + tail;
      assert head == [head[0]] + head[1..];
    }
  }

  /** A path extended at the front by one key decodes to that key followed by the rest,
      and fails when the key is refused. */
  lemma DecodeUnder(token: string, path: string)
    requires path == "" || path[0] == '/'
    ensures DecodePointer("/" + EscapeToken(token) + path)
         == match DecodePointer(path)
            case Some(ts) => if token in FORBIDDEN then None else Some([token] + ts)
            case None => None
  {
    EscapedClean(token);
    EscapeRoundTrip(token);
    SplitFirst(EscapeToken(token), path);
    assert ("/" + EscapeToken(token) + path)[1..] == EscapeToken(token) + path;
    var rest := if path == "" then [] else SplitSlash(path[1..]);
    assert ([EscapeToken(token)] + rest)[1..] == rest;
    assert DecodePointer(path) == DecodeTokens(rest);
  }

  /** Round trip: any keys, including empty ones and ones holding '~' or '/',
      unless one of them is refused. */
  lemma {:induction false} PointerRoundTrip(tokens: seq<string>)
    ensures DecodePointer(PointerTo(tokens))
         == if exists t :: t in tokens && t in FORBIDDEN then None else Some(tokens)
  {
    if tokens != [] {
      PointerRoundTrip(tokens[1..]);
      DecodeUnder(tokens[0], PointerTo(tokens[1..]));
      assert tokens == [tokens[0]] + tokens[1..];
    }
  }
}
